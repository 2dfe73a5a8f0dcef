/** The generation-fenced cache (internal/contextcache/cache.go): one hash per key, touched only by
    three atomic scripts, by expiry and by Drop. */
module ContextCache {
  import opened Optional
  import opened Revisions

  /** One Redis hash. A hash without fields does not exist. */
  datatype Hash = Hash(epoch: Option<string>, revision: Option<string>, payload: Option<string>)

  const NO_HASH := Hash(None, None, None)

  // ---------------------------------------------------------------- the scripts

  datatype ReadReply = ReadReply(hash: Hash, payload: string, epoch: string)

  function ReadScript(h: Hash, uuid: string): ReadReply {
    if h.payload.Some? then ReadReply(h, h.payload.value, "")
    else if h.epoch.Some? then ReadReply(h, "", h.epoch.value)
    else ReadReply(h.(epoch := Some(uuid)), "", uuid)
  }

  function FillScript(h: Hash, epoch: string, rev: string, payload: string): (Hash, bool) {
    if h.epoch != Some(epoch) then (h, false)
    else if h.revision.Some? && Before(rev, h.revision.value) then (h, false)
    else (h.(revision := Some(rev), payload := Some(payload)), true)
  }

  function ChangeScript(h: Hash, rev: string, uuid: string, payload: string): (Hash, bool) {
    if h.epoch.None? then (h, false)
    else if h.revision.Some? && Before(rev, h.revision.value) then (h, false)
    else (Hash(Some(uuid), Some(rev), if payload != "" then Some(payload) else None), true)
  }

  // ---------------------------------------------------------------- the client

  /** What the network did to one call. A lost reply leaves the script executed. */
  datatype Net = Delivered | RequestLost | ReplyLost

  datatype ReadResult = ReadOk(payload: string, epoch: string) | ReadFailed
  datatype FillResult = Filled | Superseded | FillFailed

  class Cache {
    var store: map<string, Hash>
    var hits: nat
    var misses: nat
    var failures: nat
    var rejected: nat

    constructor ()
      ensures store == map[] && hits == misses == failures == rejected == 0
    {
      store := map[];
      hits, misses, failures, rejected := 0, 0, 0, 0;
    }

    function At(k: string): Hash
      reads this
    {
      if k in store then store[k] else NO_HASH
    }

    method Read(k: string, uuid: string, net: Net) returns (r: ReadResult)
      modifies this
      ensures store == if net.RequestLost? then old(store) else old(store)[k := ReadScript(old(At(k)), uuid).hash]
      ensures net.Delivered? <==> r.ReadOk?
      ensures r.ReadOk? && old(At(k)).payload.Some? ==> r == ReadOk(old(At(k)).payload.value, "") && At(k) == old(At(k))
      ensures r.ReadOk? && old(At(k)).payload.None? ==> r.payload == "" && At(k).epoch == Some(r.epoch)
      ensures r.ReadOk? && old(At(k)).payload.None? && old(At(k)).epoch.Some? ==> At(k) == old(At(k))
      ensures r.ReadOk? && old(At(k)).payload.None? && old(At(k)).epoch.None? ==> At(k) == old(At(k)).(epoch := Some(uuid))
      ensures hits == old(hits) + (if r.ReadOk? && r.payload != "" then 1 else 0)
      ensures misses == old(misses) + (if r.ReadOk? && r.payload == "" then 1 else 0)
      ensures failures == old(failures) + (if r.ReadFailed? then 1 else 0) && rejected == old(rejected)
    {
      var reply := ReadScript(At(k), uuid);
      if !net.RequestLost? {
        store := store[k := reply.hash];
      }
      if !net.Delivered? {
        failures := failures + 1;
        return ReadFailed;
      }
      if reply.payload != "" {
        hits := hits + 1;
      } else {
        misses := misses + 1;
      }
      return ReadOk(reply.payload, reply.epoch);
    }

    method Fill(k: string, epoch: string, rev: int64, payload: string, net: Net) returns (r: FillResult)
      modifies this
      ensures store == if epoch == "" || net.RequestLost? then old(store)
                       else old(store)[k := FillScript(old(At(k)), epoch, Revision(rev), payload).0]
      ensures r == if epoch == "" then Filled
                   else if !net.Delivered? then FillFailed
                   else if FillScript(old(At(k)), epoch, Revision(rev), payload).1 then Filled else Superseded
      ensures net.Delivered? && epoch != "" ==>
        (r.Filled? <==> old(At(k)).epoch == Some(epoch)
                        && !(old(At(k)).revision.Some? && Before(Revision(rev), old(At(k)).revision.value)))
      ensures r.Filled? && epoch != "" ==> At(k) == Hash(Some(epoch), Some(Revision(rev)), Some(payload))
      ensures r.Superseded? ==> At(k) == old(At(k))
      ensures rejected == old(rejected) + (if r.Superseded? then 1 else 0)
      ensures failures == old(failures) + (if r.FillFailed? then 1 else 0) && hits == old(hits) && misses == old(misses)
    {
      if epoch == "" {
        return Filled;
      }
      var (h, done) := FillScript(At(k), epoch, Revision(rev), payload);
      if !net.RequestLost? {
        store := store[k := h];
      }
      if !net.Delivered? {
        failures := failures + 1;
        return FillFailed;
      }
      if !done {
        rejected := rejected + 1;
        return Superseded;
      }
      return Filled;
    }

    method Change(k: string, rev: int64, uuid: string, payload: string, net: Net) returns (ok: bool)
      modifies this
      ensures store == if net.RequestLost? then old(store)
                       else old(store)[k := ChangeScript(old(At(k)), Revision(rev), uuid, payload).0]
      ensures ok == net.Delivered?
      ensures var refused := old(At(k)).epoch.None?
                             || (old(At(k)).revision.Some? && Before(Revision(rev), old(At(k)).revision.value));
              !net.RequestLost? ==>
                At(k) == if refused then old(At(k))
                         else Hash(Some(uuid), Some(Revision(rev)), if payload == "" then None else Some(payload))
      ensures failures == old(failures) + (if ok then 0 else 1)
      ensures hits == old(hits) && misses == old(misses) && rejected == old(rejected)
    {
      if !net.RequestLost? {
        store := store[k := ChangeScript(At(k), Revision(rev), uuid, payload).0];
      }
      if !net.Delivered? {
        failures := failures + 1;
        return false;
      }
      return true;
    }

    method Drop(k: string, net: Net) returns (ok: bool)
      modifies this
      ensures store == if net.RequestLost? then old(store) else old(store) - {k}
      ensures ok == net.Delivered?
      ensures hits == old(hits) && misses == old(misses) && failures == old(failures) && rejected == old(rejected)
    {
      if !net.RequestLost? {
        store := store - {k};
      }
      return net.Delivered?;
    }
  }

  // ---------------------------------------------------------------- numbers behind the strings

  /** A hash with its revision as a number. */
  datatype Numbered = Numbered(epoch: Option<string>, rev: Option<nat>, payload: Option<string>)

  predicate Fits(n: nat) {
    n <= MAX_INT64
  }

  predicate FitsAll(a: Numbered) {
    a.rev.Some? ==> Fits(a.rev.value)
  }

  function Render(a: Numbered): Hash
    requires FitsAll(a)
  {
    Hash(a.epoch, if a.rev.Some? then Some(Revision(a.rev.value as int64)) else None, a.payload)
  }

  function NumberedFill(a: Numbered, epoch: string, rev: nat, payload: string): (Numbered, bool) {
    if a.epoch != Some(epoch) || (a.rev.Some? && a.rev.value > rev) then (a, false)
    else (a.(rev := Some(rev), payload := Some(payload)), true)
  }

  function NumberedChange(a: Numbered, rev: nat, uuid: string, payload: string): (Numbered, bool) {
    if a.epoch.None? || (a.rev.Some? && a.rev.value > rev) then (a, false)
    else (Numbered(Some(uuid), Some(rev), if payload != "" then Some(payload) else None), true)
  }

  /** The scripts, which compare twenty-character strings, do what comparing int64 revisions would. */
  lemma ScriptsCompareNumbers(a: Numbered, epoch: string, rev: nat, payload: string)
    requires FitsAll(a) && Fits(rev)
    ensures FillScript(Render(a), epoch, Revision(rev as int64), payload)
         == (var (b, ok) := NumberedFill(a, epoch, rev, payload); (Render(b), ok))
    ensures ChangeScript(Render(a), Revision(rev as int64), epoch, payload)
         == (var (b, ok) := NumberedChange(a, rev, epoch, payload); (Render(b), ok))
  {
    if a.rev.Some? {
      RevisionOrder(rev as int64, a.rev.value as int64);
    }
  }

  // ---------------------------------------------------------------- one key under concurrency

  /** A reader holding an epoch from a miss, and the source revision it has loaded since. */
  datatype Token = Token(epoch: string, loaded: Option<nat>)

  /** A hit: the payload a reader was given. */
  datatype Hit = Hit(reader: nat, payload: string)

  /** `source[r]` is the content committed at revision r. */
  datatype Sys = Sys(source: seq<string>, hash: Hash, used: set<string>, readers: map<nat, Token>, served: seq<Hit>)

  datatype Event =
    | Commit(content: string)                            // the source of truth moves on
    | Read(reader: nat, uuid: string, replied: bool)    // first step of a reader
    | Load(reader: nat)                                  // second: a stable source read
    | Fill(reader: nat)                                  // third, any time later, maybe repeatedly
    | Change(rev: nat, uuid: string, writeThrough: bool)
    | Lose                                               // expiry, eviction, restart or Drop

  predicate Enabled(s: Sys, e: Event) {
    match e
    case Commit(content) => content != "" && Fits(|s.source|)
    case Read(_, uuid, _) => uuid != "" && uuid !in s.used
    case Load(i) => i in s.readers && s.source != []
    case Fill(i) => i in s.readers && s.readers[i].loaded.Some? && s.readers[i].loaded.value < |s.source| && Fits(s.readers[i].loaded.value)
    case Change(rev, uuid, _) => rev < |s.source| && Fits(rev) && uuid != "" && uuid !in s.used
    case Lose => true
  }

  function Next(s: Sys, e: Event): Sys
    requires Enabled(s, e)
  {
    match e
    case Commit(content) => s.(source := s.source + [content])
    case Read(i, uuid, replied) =>
      var reply := ReadScript(s.hash, uuid);
      s.(hash := reply.hash, used := s.used + {uuid},
         readers := if replied && reply.payload == "" && reply.epoch != "" then s.readers[i := Token(reply.epoch, None)]
                    else s.readers,
         served := if replied && reply.payload != "" then s.served + [Hit(i, reply.payload)] else s.served)
    case Load(i) => s.(readers := s.readers[i := s.readers[i].(loaded := Some(|s.source| - 1))])
    case Fill(i) => s.(hash := FillOutcome(s, i).0)
    case Change(rev, uuid, writeThrough) => s.(hash := ChangeOutcome(s, e).0, used := s.used + {uuid})
    case Lose => s.(hash := NO_HASH)
  }

  function FillOutcome(s: Sys, i: nat): (Hash, bool)
    requires Enabled(s, Fill(i))
  {
    var t := s.readers[i];
    FillScript(s.hash, t.epoch, Revision(t.loaded.value as int64), s.source[t.loaded.value])
  }

  function ChangeOutcome(s: Sys, e: Event): (Hash, bool)
    requires e.Change? && Enabled(s, e)
  {
    ChangeScript(s.hash, Revision(e.rev as int64), e.uuid, if e.writeThrough then s.source[e.rev] else "")
  }

  function Start(content: string): Sys {
    Sys([content], NO_HASH, {}, map[], [])
  }

  /** A run: the states reached by executing `evs`, each event enabled when it happens. */
  ghost predicate Run(states: seq<Sys>, evs: seq<Event>) {
    && |states| == |evs| + 1
    && (exists content :: content != "" && states[0] == Start(content))
    && forall n :: 0 <= n < |evs| ==> Step(states[n], evs[n], states[n + 1])
  }

  ghost predicate Step(s: Sys, e: Event, s': Sys) {
    Enabled(s, e) && s' == Next(s, e)
  }

  // ---------------------------------------------------------------- coherence

  /** Write-through Changes run in commit order behind every earlier Change; invalidations may run in any order. */
  ghost predicate InCommitOrder(evs: seq<Event>) {
    forall i, j :: 0 <= i < j < |evs| && evs[i].Change? && evs[j].Change? && evs[j].writeThrough ==> evs[i].rev <= evs[j].rev
  }

  /** The newest revision a Change among the first n events has been executed for; -1 before any. */
  function Floor(evs: seq<Event>, n: nat): int
    requires n <= |evs|
  {
    if n == 0 then -1 else Raised(Floor(evs, n - 1), evs[n - 1])
  }

  function Raised(floor: int, e: Event): int {
    if e.Change? && e.rev > floor then e.rev else floor
  }

  lemma {:induction false} FloorCovers(evs: seq<Event>, n: nat, i: nat)
    requires i < n <= |evs| && evs[i].Change?
    ensures evs[i].rev <= Floor(evs, n)
  {
    if i < n - 1 {
      FloorCovers(evs, n - 1, i);
    }
  }

  lemma {:induction false} FloorAttained(evs: seq<Event>, n: nat)
    requires n <= |evs|
    ensures Floor(evs, n) >= 0 ==> exists i :: 0 <= i < n && evs[i].Change? && evs[i].rev == Floor(evs, n)
    ensures Floor(evs, n) >= -1
  {
    if n > 0 {
      FloorAttained(evs, n - 1);
      if Floor(evs, n) != Floor(evs, n - 1) {
        assert evs[n - 1].Change? && evs[n - 1].rev == Floor(evs, n);
      }
    }
  }

  /** The stored payload is the source content of the stored revision, and no older than any executed Change. */
  ghost predicate PayloadCurrent(s: Sys, floor: int, a: Numbered) {
    a.payload.Some? ==> a.rev.Some? && floor <= a.rev.value < |s.source| && a.payload.value == s.source[a.rev.value]
  }

  /** A token whose epoch is still stored and that loaded too early would be refused on its revision. */
  ghost predicate TokenHarmless(s: Sys, floor: int, a: Numbered, t: Token) {
    && t.epoch in s.used && t.epoch != ""
    && (t.loaded.Some? ==> t.loaded.value < |s.source|)
    && (t.loaded.Some? && a.epoch == Some(t.epoch) ==>
          t.loaded.value >= floor || (a.rev.Some? && a.rev.value > t.loaded.value))
  }

  ghost predicate Inv(s: Sys, floor: int, a: Numbered) {
    && |s.source| <= MAX_INT64 + 1
    && (forall r :: 0 <= r < |s.source| ==> s.source[r] != "")
    && floor < |s.source| && s.source != []
    && FitsAll(a) && s.hash == Render(a)
    && (a.epoch.None? ==> a.rev.None? && a.payload.None?)
    && (a.epoch.Some? ==> a.epoch.value in s.used && a.epoch.value != "")
    && (a.rev.Some? ==> a.rev.value < |s.source|)
    && PayloadCurrent(s, floor, a)
    && forall i :: i in s.readers ==> TokenHarmless(s, floor, a, s.readers[i])
  }

  /** The numbered hash after one event. */
  function NextNumbered(s: Sys, e: Event, a: Numbered): Numbered
    requires Enabled(s, e)
  {
    match e
    case Commit(_) => a
    case Load(_) => a
    case Read(_, uuid, _) => if a.payload.None? && a.epoch.None? then a.(epoch := Some(uuid)) else a
    case Fill(i) => NumberedFill(a, s.readers[i].epoch, s.readers[i].loaded.value, s.source[s.readers[i].loaded.value]).0
    case Change(rev, uuid, wt) => NumberedChange(a, rev, uuid, if wt then s.source[rev] else "").0
    case Lose => Numbered(None, None, None)
  }

  lemma NextRenders(s: Sys, e: Event, floor: int, a: Numbered)
    requires Inv(s, floor, a) && Enabled(s, e)
    ensures FitsAll(NextNumbered(s, e, a)) && Next(s, e).hash == Render(NextNumbered(s, e, a))
  {
    match e
    case Fill(i) =>
      ScriptsCompareNumbers(a, s.readers[i].epoch, s.readers[i].loaded.value, s.source[s.readers[i].loaded.value]);
    case Change(rev, uuid, wt) =>
      ScriptsCompareNumbers(a, uuid, rev, if wt then s.source[rev] else "");
    case _ =>
  }

  /** A write-through Change that takes effect is no older than any executed Change. */
  ghost predicate InTime(s: Sys, e: Event, floor: int) {
    e.Change? && e.writeThrough && Accepted(s.hash, e.rev) ==> floor <= e.rev
  }

  /** The change script takes effect: the hash exists and stores no newer revision. */
  ghost predicate Accepted(h: Hash, rev: nat) {
    Fits(rev) && h.epoch.Some? && !(h.revision.Some? && Before(Revision(rev as int64), h.revision.value))
  }

  /** Every event keeps the invariant; only a write-through Change has to be in time. */
  lemma StepKeepsInv(s: Sys, e: Event, floor: int, a: Numbered)
    requires Inv(s, floor, a) && Enabled(s, e)
    requires InTime(s, e, floor)
    ensures Inv(Next(s, e), Raised(floor, e), NextNumbered(s, e, a))
  {
    NextRenders(s, e, floor, a);
  }

  /** The first n write-through Changes that took effect were in time. */
  ghost predicate Timely(states: seq<Sys>, evs: seq<Event>, n: nat)
    requires n <= |evs| && |states| == |evs| + 1
  {
    forall k :: 0 <= k < n ==> InTime(states[k], evs[k], Floor(evs, k))
  }

  /** Changes in commit order are in time. */
  lemma CommitOrderIsTimely(states: seq<Sys>, evs: seq<Event>)
    requires |states| == |evs| + 1 && InCommitOrder(evs)
    ensures Timely(states, evs, |evs|)
  {
    forall k | 0 <= k < |evs| ensures InTime(states[k], evs[k], Floor(evs, k)) {
      FloorAttained(evs, k);
    }
  }

  lemma {:induction false} RunKeepsInv(states: seq<Sys>, evs: seq<Event>, n: nat) returns (a: Numbered)
    requires Run(states, evs) && n <= |evs| && Timely(states, evs, n)
    ensures Inv(states[n], Floor(evs, n), a)
  {
    if n == 0 {
      a := Numbered(None, None, None);
    } else {
      a := RunKeepsInv(states, evs, n - 1);
      assert Step(states[n - 1], evs[n - 1], states[n]);
      assert InTime(states[n - 1], evs[n - 1], Floor(evs, n - 1));
      StepKeepsInv(states[n - 1], evs[n - 1], Floor(evs, n - 1), a);
      a := NextNumbered(states[n - 1], evs[n - 1], a);
    }
  }

  /** Coherence. After a Change for revision r has executed, taking effect or not, every later hit
      returns the source content of revision r or newer, whatever fills were delayed and
      however often the hash was lost. */
  lemma CacheCoherence(states: seq<Sys>, evs: seq<Event>, i: nat, j: nat)
    requires Run(states, evs) && InCommitOrder(evs)
    requires i < j < |evs| && evs[i].Change? && states[j + 1].served != states[j].served
    ensures |states[j + 1].served| == |states[j].served| + 1 && evs[j].Read?
    ensures exists q :: evs[i].rev <= q < |states[j].source| && states[j + 1].served[|states[j].served|].payload == states[j].source[q]
  {
    assert Step(states[j], evs[j], states[j + 1]);
    CommitOrderIsTimely(states, evs);
    var a := RunKeepsInv(states, evs, j);
    FloorCovers(evs, j, i);
    if states[j].hash.payload.Some? {
      assert evs[i].rev <= a.rev.value < |states[j].source| && states[j].hash.payload.value == states[j].source[a.rev.value];
    }
  }

  // ---------------------------------------------------------------- fencing and monotonicity

  /** The event took the current generation away: an accepted Change, or the loss of the hash. */
  ghost predicate Retires(s: Sys, e: Event) {
    e.Lose? || (e.Change? && Accepted(s.hash, e.rev))
  }

  /** Handed-out epochs are remembered for ever, and the stored one is among them. */
  lemma {:induction false} EpochsRemembered(states: seq<Sys>, evs: seq<Event>, i: nat, n: nat)
    requires Run(states, evs) && i <= n <= |evs|
    ensures states[i].used <= states[n].used
    ensures states[n].hash.epoch.Some? ==> states[n].hash.epoch.value in states[n].used
    ensures states[n].hash.epoch.None? ==> states[n].hash == NO_HASH
    decreases n
  {
    if n > 0 {
      assert Step(states[n - 1], evs[n - 1], states[n]);
      EpochsRemembered(states, evs, if i < n then i else n - 1, n - 1);
    }
  }

  lemma {:induction false} RetiredEpochNeverReturns(states: seq<Sys>, evs: seq<Event>, epoch: string, i: nat, j: nat, k: nat)
    requires Run(states, evs) && i <= j < k <= |evs|
    requires epoch in states[i].used && Retires(states[j], evs[j])
    ensures states[k].hash.epoch != Some(epoch)
    decreases k
  {
    assert Step(states[k - 1], evs[k - 1], states[k]);
    EpochsRemembered(states, evs, i, k - 1);
    if j < k - 1 {
      RetiredEpochNeverReturns(states, evs, epoch, i, j, k - 1);
    }
  }

  /** Fencing. A fill whose epoch was handed out before an accepted Change, or before the hash was
      lost, is refused for ever after, whatever revision and payload it carries. */
  lemma StaleFillRefused(states: seq<Sys>, evs: seq<Event>, i: nat, j: nat, k: nat, rev: string, payload: string)
    requires Run(states, evs) && i < j < k <= |evs|
    requires evs[i].Read? && evs[i].replied && states[i].hash.payload.None? && Retires(states[j], evs[j])
    ensures evs[i].reader in states[i + 1].readers
    ensures FillScript(states[k].hash, states[i + 1].readers[evs[i].reader].epoch, rev, payload) == (states[k].hash, false)
  {
    MissHandsOutStoredEpoch(states, evs, i);
    EpochsRemembered(states, evs, i + 1, i + 1);
    RetiredEpochNeverReturns(states, evs, states[i + 1].hash.epoch.value, i + 1, j, k);
  }

  // ---------------------------------------------------------------- what reads, fills and Changes do

  lemma {:induction false} StoredNotEmpty(states: seq<Sys>, evs: seq<Event>, n: nat)
    requires Run(states, evs) && n <= |evs|
    ensures states[n].hash.payload != Some("") && states[n].hash.epoch != Some("")
    ensures forall i :: i in states[n].readers ==> states[n].readers[i].epoch != ""
  {
    if n > 0 {
      StoredNotEmpty(states, evs, n - 1);
      assert Step(states[n - 1], evs[n - 1], states[n]);
      if evs[n - 1].Fill? && states[n - 1].readers[evs[n - 1].reader].loaded.Some? {
        ContentsNotEmpty(states, evs, n - 1, states[n - 1].readers[evs[n - 1].reader].loaded.value);
      }
    }
  }

  /** A read that finds a payload serves exactly it and changes nothing else. */
  lemma HitServesStored(states: seq<Sys>, evs: seq<Event>, i: nat)
    requires Run(states, evs) && i < |evs| && evs[i].Read? && states[i].hash.payload.Some?
    ensures states[i + 1].hash == states[i].hash && states[i + 1].readers == states[i].readers
    ensures evs[i].replied ==> states[i + 1].served == states[i].served + [Hit(evs[i].reader, states[i].hash.payload.value)]
  {
    assert Step(states[i], evs[i], states[i + 1]);
    StoredNotEmpty(states, evs, i);
  }

  /** A read that misses leaves a hash with an epoch, the one it found if there was one, and that is the
      epoch its reader gets. */
  lemma MissHandsOutStoredEpoch(states: seq<Sys>, evs: seq<Event>, i: nat)
    requires Run(states, evs) && i < |evs| && evs[i].Read? && states[i].hash.payload.None?
    ensures states[i + 1].hash.epoch.Some? && states[i + 1].served == states[i].served
    ensures states[i + 1].hash == states[i].hash.(epoch := if states[i].hash.epoch.Some? then states[i].hash.epoch else Some(evs[i].uuid))
    ensures evs[i].replied ==> states[i + 1].readers == states[i].readers[evs[i].reader := Token(states[i + 1].hash.epoch.value, None)]
  {
    assert Step(states[i], evs[i], states[i + 1]);
    StoredNotEmpty(states, evs, i);
  }

  /** A Change takes effect exactly when the hash exists and stores no newer revision: a new epoch, its
      revision, and its content or none. Otherwise it changes nothing. */
  lemma ChangeEffect(states: seq<Sys>, evs: seq<Event>, i: nat)
    requires Run(states, evs) && i < |evs| && evs[i].Change?
    ensures Fits(evs[i].rev) && evs[i].rev < |states[i].source|
    ensures states[i + 1].hash ==
            if Accepted(states[i].hash, evs[i].rev) then
              Hash(Some(evs[i].uuid), Some(Revision(evs[i].rev as int64)),
                   if evs[i].writeThrough then Some(states[i].source[evs[i].rev]) else None)
            else states[i].hash
  {
    assert Step(states[i], evs[i], states[i + 1]);
    ContentsNotEmpty(states, evs, i, evs[i].rev);
  }

  /** Without a retiring event the stored epoch stays. */
  lemma {:induction false} EpochKept(states: seq<Sys>, evs: seq<Event>, i: nat, k: nat)
    requires Run(states, evs) && i <= k <= |evs| && states[i].hash.epoch.Some?
    requires forall j :: i <= j < k ==> !Retires(states[j], evs[j])
    ensures states[k].hash.epoch == states[i].hash.epoch
    decreases k
  {
    if i < k {
      EpochKept(states, evs, i, k - 1);
      assert Step(states[k - 1], evs[k - 1], states[k]) && !Retires(states[k - 1], evs[k - 1]);
    }
  }

  /** Nothing newer than revision r is stored. */
  ghost predicate NothingNewer(h: Hash, r: nat) {
    Fits(r) && !(h.revision.Some? && Before(Revision(r as int64), h.revision.value))
  }

  /** Nor can the reader that got the stored epoch come to hold another one. */
  lemma {:induction false} TokenKept(states: seq<Sys>, evs: seq<Event>, i: nat, k: nat, reader: nat)
    requires Run(states, evs) && i <= k <= |evs| && states[i].hash.epoch.Some?
    requires reader in states[i].readers && states[i].hash.epoch == Some(states[i].readers[reader].epoch)
    requires forall j :: i <= j < k ==> !Retires(states[j], evs[j])
    ensures reader in states[k].readers && states[k].readers[reader].epoch == states[i].readers[reader].epoch
    decreases k
  {
    if i < k {
      TokenKept(states, evs, i, k - 1, reader);
      EpochKept(states, evs, i, k - 1);
      assert Step(states[k - 1], evs[k - 1], states[k]);
      if evs[k - 1].Read? && states[k - 1].hash.payload.None? {
        MissHandsOutStoredEpoch(states, evs, k - 1);
      }
    }
  }

  /** A fill by the reader that missed at i, with no retiring event in between, stores what the reader
      loaded if and only if no newer revision is stored by then; otherwise it changes nothing. */
  lemma FillTakesEffectIff(states: seq<Sys>, evs: seq<Event>, i: nat, k: nat)
    requires Run(states, evs) && i < k < |evs|
    requires evs[i].Read? && evs[i].replied && states[i].hash.payload.None?
    requires evs[k] == Fill(evs[i].reader)
    requires forall j :: i < j < k ==> !Retires(states[j], evs[j])
    ensures evs[i].reader in states[k].readers
    ensures var t := states[k].readers[evs[i].reader];
            && t.loaded.Some? && t.loaded.value < |states[k].source|
            && states[k + 1].hash ==
               if NothingNewer(states[k].hash, t.loaded.value) then
                 Hash(Some(t.epoch), Some(Revision(t.loaded.value as int64)), Some(states[k].source[t.loaded.value]))
               else states[k].hash
  {
    MissHandsOutStoredEpoch(states, evs, i);
    EpochKept(states, evs, i + 1, k);
    TokenKept(states, evs, i + 1, k, evs[i].reader);
    assert Step(states[k], evs[k], states[k + 1]);
  }

  ghost predicate Touches(e: Event) {
    e.Fill? || e.Change? || e.Lose?
  }

  lemma {:induction false} PayloadKept(states: seq<Sys>, evs: seq<Event>, i: nat, m: nat)
    requires Run(states, evs) && i <= m <= |evs| && states[i].hash.payload.Some?
    requires forall j :: i <= j < m ==> !Touches(evs[j])
    ensures states[m].hash == states[i].hash
    decreases m
  {
    if i < m {
      PayloadKept(states, evs, i, m - 1);
      assert Step(states[m - 1], evs[m - 1], states[m]) && !Touches(evs[m - 1]);
    }
  }

  /** The key warms up: after such a fill every read is served what the reader loaded, until the next fill,
      Change or loss. */
  lemma FilledIsServed(states: seq<Sys>, evs: seq<Event>, i: nat, k: nat, m: nat)
    requires Run(states, evs) && i < k < m < |evs|
    requires evs[i].Read? && evs[i].replied && states[i].hash.payload.None?
    requires evs[k] == Fill(evs[i].reader)
    requires forall j :: i < j < k ==> !Retires(states[j], evs[j])
    requires evs[i].reader in states[k].readers && states[k].readers[evs[i].reader].loaded.Some?
    requires NothingNewer(states[k].hash, states[k].readers[evs[i].reader].loaded.value)
    requires (forall j :: k < j < m ==> !Touches(evs[j])) && evs[m].Read? && evs[m].replied
    ensures var q := states[k].readers[evs[i].reader].loaded.value;
            q < |states[k].source| && states[m + 1].served == states[m].served + [Hit(evs[m].reader, states[k].source[q])]
  {
    FillTakesEffectIff(states, evs, i, k);
    PayloadKept(states, evs, k + 1, m);
    HitServesStored(states, evs, m);
  }

  /** While a hash lives its revision never goes back, in the order the scripts compare. */
  lemma {:induction false} RevisionNeverDecreases(states: seq<Sys>, evs: seq<Event>, i: nat, j: nat)
    requires Run(states, evs) && i <= j <= |evs|
    requires forall n :: i <= n < j ==> !evs[n].Lose?
    requires states[i].hash.revision.Some?
    ensures states[j].hash.revision.Some?
    ensures !Before(states[j].hash.revision.value, states[i].hash.revision.value)
    decreases j
  {
    var a := StoredNumber(states, evs, i);
    if i < j {
      RevisionNeverDecreases(states, evs, i, j - 1);
      assert Step(states[j - 1], evs[j - 1], states[j]);
      var b := StoredNumber(states, evs, j - 1);
      var c := StoredNumber(states, evs, j);
      RevisionOrder(b as int64, a as int64);
      RevisionOrder(c as int64, b as int64);
      RevisionOrder(c as int64, a as int64);
    } else {
      RevisionOrder(a as int64, a as int64);
    }
  }

  /** Every stored revision is the rendering of a committed one. */
  lemma {:induction false} StoredNumber(states: seq<Sys>, evs: seq<Event>, n: nat) returns (q: nat)
    requires Run(states, evs) && n <= |evs|
    requires states[n].hash.revision.Some?
    ensures Fits(q) && q < |states[n].source| && states[n].hash.revision.value == Revision(q as int64)
  {
    assert n > 0;
    assert Step(states[n - 1], evs[n - 1], states[n]);
    if states[n].hash.revision == states[n - 1].hash.revision {
      q := StoredNumber(states, evs, n - 1);
    } else {
      q := if evs[n - 1].Fill? then states[n - 1].readers[evs[n - 1].reader].loaded.value else evs[n - 1].rev;
    }
  }

  // ---------------------------------------------------------------- why commit order is asked for

  /** Exactly when a Change keeps the stored payload as new as every executed Change: when it stores
      nothing, finds no hash, finds a newer revision, or is itself as new as all of them. */
  lemma ChangeKeepsPayloadCurrentIff(s: Sys, e: Event, floor: int, a: Numbered)
    requires Inv(s, floor, a) && Enabled(s, e) && e.Change?
    ensures PayloadCurrent(Next(s, e), Raised(floor, e), NextNumbered(s, e, a)) <==>
              !e.writeThrough || a.epoch.None? || (a.rev.Some? && a.rev.value > e.rev) || floor <= e.rev
  {
    NextRenders(s, e, floor, a);
    ScriptsCompareNumbers(a, e.uuid, e.rev, if e.writeThrough then s.source[e.rev] else "");
  }

  /** What is stored is the source content of the stored revision, no older than any executed Change. */
  ghost predicate Current(s: Sys, floor: int) {
    s.hash.payload.Some? ==>
      exists q: nat :: StoredAt(s, q) && floor <= q
  }

  ghost predicate StoredAt(s: Sys, q: nat) {
    Fits(q) && q < |s.source| && s.hash.revision == Some(Revision(q as int64)) && s.hash.payload == Some(s.source[q])
  }

  /** Coherence, exactly: the stored payload is current at every moment of a run if and only if every
      write-through Change that took effect was no older than the Changes executed before it. */
  lemma CoherentIff(states: seq<Sys>, evs: seq<Event>)
    requires Run(states, evs)
    ensures (forall n :: 0 <= n <= |evs| ==> Current(states[n], Floor(evs, n))) <==> Timely(states, evs, |evs|)
  {
    if Timely(states, evs, |evs|) {
      forall n | 0 <= n <= |evs| ensures Current(states[n], Floor(evs, n)) {
        TimelyIsCurrent(states, evs, n);
      }
    } else {
      var n :| 0 <= n < |evs| && !InTime(states[n], evs[n], Floor(evs, n));
      LateIsNotCurrent(states, evs, n);
    }
  }

  lemma TimelyIsCurrent(states: seq<Sys>, evs: seq<Event>, n: nat)
    requires Run(states, evs) && n <= |evs| && Timely(states, evs, n)
    ensures Current(states[n], Floor(evs, n))
  {
    var a := RunKeepsInv(states, evs, n);
    if states[n].hash.payload.Some? {
      assert StoredAt(states[n], a.rev.value);
    }
  }

  lemma LateIsNotCurrent(states: seq<Sys>, evs: seq<Event>, n: nat)
    requires Run(states, evs) && n < |evs| && !InTime(states[n], evs[n], Floor(evs, n))
    ensures !Current(states[n + 1], Floor(evs, n + 1))
  {
    assert Step(states[n], evs[n], states[n + 1]);
    ContentsNotEmpty(states, evs, n, evs[n].rev);
    LateStoreNotCurrent(states[n], evs[n], Floor(evs, n));
  }

  lemma {:induction false} ContentsNotEmpty(states: seq<Sys>, evs: seq<Event>, n: nat, r: nat)
    requires Run(states, evs) && n <= |evs| && r < |states[n].source|
    ensures states[n].source[r] != ""
  {
    if n > 0 {
      assert Step(states[n - 1], evs[n - 1], states[n]);
      if r < |states[n - 1].source| {
        ContentsNotEmpty(states, evs, n - 1, r);
      }
    }
  }

  lemma LateStoreNotCurrent(s: Sys, e: Event, floor: int)
    requires Enabled(s, e) && !InTime(s, e, floor) && s.source[e.rev] != ""
    ensures !Current(Next(s, e), Raised(floor, e))
  {
    forall q: nat | StoredAt(Next(s, e), q) ensures q < floor {
      RevisionOrder(q as int64, e.rev as int64);
    }
  }

  /** Without commit order coherence fails from every state without a hash: revision q is announced
      to no effect, a reader creates a hash, and the late write-through of an older revision r makes
      the next read hit r. */
  lemma LateWriteThroughIsStale(s: Sys, q: nat, r: nat, u1: string, u2: string, u3: string, u4: string)
    returns (s1: Sys, s2: Sys, s3: Sys)
    requires s.hash == NO_HASH && r < q < |s.source| && Fits(q) && s.source[r] != ""
    requires {u1, u2, u3, u4} !! s.used + {""}
    requires u1 != u2 && u1 != u3 && u2 != u3
    ensures Step(s, Change(q, u1, true), s1)
    ensures Step(s1, Read(0, u2, true), s2)
    ensures Step(s2, Change(r, u3, true), s3)
    ensures s3.source == s.source && ReadScript(s3.hash, u4).payload == s.source[r]
  {
    assert u1 in {u1, u2, u3, u4} && u2 in {u1, u2, u3, u4} && u3 in {u1, u2, u3, u4};
    s1 := Next(s, Change(q, u1, true));
    s2 := Next(s1, Read(0, u2, true));
    s3 := Next(s2, Change(r, u3, true));
  }

  /** Nor may a reader load the source before it takes its epoch: with the same announcement in between,
      its fill of the older revision r is accepted. */
  lemma EarlyLoadIsStale(s: Sys, q: nat, r: nat, u1: string, u2: string)
    requires s.hash == NO_HASH && r < q < |s.source| && Fits(q)
    requires u1 != "" && u2 != "" && u1 != u2 && u1 !in s.used && u2 !in s.used
    ensures var s1 := Next(s, Change(q, u1, true));
            var reply := ReadScript(s1.hash, u2);
            var (h, ok) := FillScript(reply.hash, reply.epoch, Revision(r as int64), s.source[r]);
            ok && ReadScript(h, u2).payload == s.source[r]
  {
    assert Next(s, Change(q, u1, true)).hash == NO_HASH;
  }
}
