/** Context compaction (internal/agent/compaction.go). Summaries are arbitrary strings: `note(i)` is
    the text that replaces the tool result at index i, `summary` the text for the dropped head. */
module Compaction {
  import opened Messages
  import opened ToolPairs

  const DEFAULT_CONTEXT_WINDOW := 128000
  const DEFAULT_TRIGGER_PERCENT := 75
  const DEFAULT_TARGET_PERCENT := 55
  const DEFAULT_TAIL_TARGET_PERCENT := 30
  const MINIMUM_TAIL_TURNS := 2
  const PRUNE_THRESHOLD_BYTES := 2000

  datatype Mode = Proactive | Manual | Emergency | OtherMode(tag: string)

  datatype Options = Options(
    mode: Mode, contextWindow: int, maxOutputTokens: int, triggerPercent: int, targetPercent: int,
    tailTargetPercent: int, minTailTurns: int, overhead: seq<Message>, toolTokens: nat)

  datatype CompactResult = CompactResult(messages: seq<Message>, pruned: bool)

  function PercentOr(p: int, default: int): int {
    if p <= 0 then default else if p > 100 then 100 else p
  }

  function Normalize(o: Options): Options {
    Options(
      if o.mode.OtherMode? then Proactive else o.mode,
      if o.contextWindow <= 0 then DEFAULT_CONTEXT_WINDOW else o.contextWindow,
      if o.maxOutputTokens < 0 then 0 else o.maxOutputTokens,
      PercentOr(o.triggerPercent, DEFAULT_TRIGGER_PERCENT),
      PercentOr(o.targetPercent, DEFAULT_TARGET_PERCENT),
      PercentOr(o.tailTargetPercent, DEFAULT_TAIL_TARGET_PERCENT),
      if o.minTailTurns <= 0 then MINIMUM_TAIL_TURNS else o.minTailTurns,
      o.overhead, o.toolTokens)
  }

  function InputBudget(o: Options): int {
    if o.contextWindow - o.maxOutputTokens <= 0 then 1 else o.contextWindow - o.maxOutputTokens
  }

  function PercentOf(n: int, percent: int): int {
    if n <= 0 || percent <= 0 then 0 else n * percent / 100
  }

  // ---------------------------------------------------------------- token estimate

  function CallTokens(calls: seq<ToolCall>): nat {
    if calls == [] then 0
    else CallTokens(calls[..|calls| - 1]) + |calls[|calls| - 1].args| / 4 + |calls[|calls| - 1].name| / 4
  }

  function MessageTokens(m: Message): nat {
    |if m.content == "" && m.parts > 0 then m.partsText else m.content| / 4 + CallTokens(m.toolCalls)
  }

  function Tokens(ms: seq<Message>): nat {
    if ms == [] then 0 else MessageTokens(ms[0]) + Tokens(ms[1..])
  }

  lemma {:induction false} TokensConcat(a: seq<Message>, b: seq<Message>)
    ensures Tokens(a + b) == Tokens(a) + Tokens(b)
  {
    if a == [] {
      assert a + b == b;
    } else {
      assert (a + b)[1..] == a[1..] + b;
      TokensConcat(a[1..], b);
    }
  }

  /** What each message adds to the estimate: a quarter of its text in bytes, and a quarter of each call's
      arguments and name, every quarter rounded down by itself. */
  lemma TokensMean(ms: seq<Message>, m: Message, o: Options)
    ensures RequestTokens([], o) == Tokens(o.overhead) + o.toolTokens
    ensures RequestTokens(ms + [m], o) == RequestTokens(ms, o) + MessageTokens(m)
    ensures m.toolCalls == [] && (m.content != "" || m.parts == 0) ==> MessageTokens(m) == |m.content| / 4
    ensures m.toolCalls == [] && m.content == "" && m.parts > 0 ==> MessageTokens(m) == |m.partsText| / 4
    ensures forall c :: MessageTokens(m.(toolCalls := m.toolCalls + [c])) == MessageTokens(m) + |c.args| / 4 + |c.name| / 4
  {
    assert o.overhead + [] == o.overhead;
    assert o.overhead + (ms + [m]) == (o.overhead + ms) + [m];
    TokensConcat(o.overhead + ms, [m]);
    forall c ensures MessageTokens(m.(toolCalls := m.toolCalls + [c])) == MessageTokens(m) + |c.args| / 4 + |c.name| / 4 {
      assert (m.toolCalls + [c])[..|m.toolCalls|] == m.toolCalls;
    }
  }

  method EstimateTokens(messages: seq<Message>) returns (total: nat)
    ensures total == Tokens(messages)
  {
    total := 0;
    for i := 0 to |messages|
      invariant total == Tokens(messages[..i])
    {
      var m := messages[i];
      var content := m.content;
      if content == "" && m.parts > 0 {
        content := m.partsText;
      }
      var cost := |content| / 4;
      for k := 0 to |m.toolCalls|
        invariant cost == |content| / 4 + CallTokens(m.toolCalls[..k])
      {
        assert m.toolCalls[..k + 1][..k] == m.toolCalls[..k];
        cost := cost + |m.toolCalls[k].args| / 4;
        cost := cost + |m.toolCalls[k].name| / 4;
      }
      assert m.toolCalls[..|m.toolCalls|] == m.toolCalls;
      assert messages[..i + 1] == messages[..i] + [m];
      TokensConcat(messages[..i], [m]);
      total := total + cost;
    }
    assert messages[..|messages|] == messages;
  }

  function RequestTokens(ms: seq<Message>, o: Options): nat {
    Tokens(o.overhead + ms) + o.toolTokens
  }

  // ---------------------------------------------------------------- which tails may be kept

  function UserStarts(ms: seq<Message>): (us: seq<nat>)
    ensures forall k :: 0 <= k < |us| ==> us[k] < |ms| && ms[us[k]].role.User?
    ensures forall j, k :: 0 <= j < k < |us| ==> us[j] < us[k]
  {
    if ms == [] then []
    else
      var us := UserStarts(ms[..|ms| - 1]);
      if ms[|ms| - 1].role.User? then us + [|ms| - 1] else us
  }

  /** Number of user turns in a list. */
  function UserCount(ms: seq<Message>): nat {
    if ms == [] then 0 else UserCount(ms[..|ms| - 1]) + (if ms[|ms| - 1].role.User? then 1 else 0)
  }

  lemma {:induction false} UserStartsComplete(ms: seq<Message>)
    ensures |UserStarts(ms)| == UserCount(ms)
    ensures forall i :: 0 <= i < |ms| && ms[i].role.User? ==> i in UserStarts(ms)
  {
    if ms != [] {
      UserStartsComplete(ms[..|ms| - 1]);
    }
  }

  /** From the k-th user start on, all but k of the user turns remain. */
  lemma {:induction false} TurnsFromStart(ms: seq<Message>, k: nat)
    requires k < |UserStarts(ms)|
    ensures UserCount(ms[UserStarts(ms)[k]..]) == |UserStarts(ms)| - k
  {
    var front, us := ms[..|ms| - 1], UserStarts(ms);
    var tail := ms[us[k]..];
    assert tail[..|tail| - 1] == front[us[k]..];
    if k < |UserStarts(front)| {
      TurnsFromStart(front, k);
    }
  }

  ghost predicate Candidate(ms: seq<Message>, minKeep: int, zeroTail: bool, c: nat) {
    || (zeroTail && c == |ms|)
    || (0 < c < |ms| && ms[c].role.User? && UserCount(ms[c..]) >= minKeep)
  }

  function Abs(n: int): nat {
    if n < 0 then -n else n
  }

  function Distance(ms: seq<Message>, target: int, c: nat): nat
    requires c <= |ms|
  {
    Abs(Tokens(ms[c..]) - target)
  }

  /** `c` is at least as good as `d`: nearer the target; on a tie the larger tail, or in
      emergency mode the smaller one; on a full tie the later cut. */
  ghost predicate AsGood(ms: seq<Message>, target: int, zeroTail: bool, c: nat, d: nat)
    requires c <= |ms| && d <= |ms|
  {
    var dc, dd := Distance(ms, target, c), Distance(ms, target, d);
    var tc, td := Tokens(ms[c..]), Tokens(ms[d..]);
    || dc < dd
    || (dc == dd && if tc != td then (if zeroTail then tc < td else tc > td) else c >= d)
  }

  ghost predicate BestTail(ms: seq<Message>, target: int, minKeep: int, zeroTail: bool, c: nat) {
    && c <= |ms|
    && Candidate(ms, minKeep, zeroTail, c)
    && forall d: nat :: d <= |ms| && Candidate(ms, minKeep, zeroTail, d) ==> AsGood(ms, target, zeroTail, c, d)
  }

  lemma BestTailUnique(ms: seq<Message>, target: int, minKeep: int, zeroTail: bool, c: nat, d: nat)
    requires BestTail(ms, target, minKeep, zeroTail, c) && BestTail(ms, target, minKeep, zeroTail, d)
    ensures c == d
  {
    assert AsGood(ms, target, zeroTail, c, d) && AsGood(ms, target, zeroTail, d, c);
  }

  /** Moves past leading tool messages; nothing else is skipped. */
  method SafeCompactionCutoff(messages: seq<Message>, cutoff: int) returns (safe: nat)
    ensures var start := if cutoff < 0 then 0 else cutoff;
            && start <= safe && (safe <= |messages| || safe == start)
            && forall i :: start <= i < safe ==> messages[i].role.Tool?
    ensures safe < |messages| ==> !messages[safe].role.Tool?
  {
    safe := if cutoff < 0 then 0 else cutoff;
    ghost var start := safe;
    while safe < |messages| && messages[safe].role.Tool?
      invariant start <= safe && (safe <= |messages| || safe == start)
      invariant forall i :: start <= i < safe ==> messages[i].role.Tool?
    {
      safe := safe + 1;
    }
  }

  /** The best cut among those considered so far; -1 before the first one. */
  ghost predicate BestOf(ms: seq<Message>, target: int, zeroTail: bool, seen: set<nat>,
                         best: int, distance: nat, tokens: nat)
    requires forall c :: c in seen ==> c <= |ms|
  {
    if best < 0 then seen == {}
    else
      && best in seen
      && distance == Distance(ms, target, best)
      && tokens == Tokens(ms[best..])
      && forall d :: d in seen ==> AsGood(ms, target, zeroTail, best, d)
  }

  method Consider(messages: seq<Message>, target: int, zeroTail: bool, cutoff: nat,
                  ghost seen: set<nat>, best: int, distance: nat, tokens: nat)
    returns (best': int, distance': nat, tokens': nat)
    requires cutoff <= |messages|
    requires forall c :: c in seen ==> cutoff < c <= |messages|
    requires BestOf(messages, target, zeroTail, seen, best, distance, tokens)
    ensures BestOf(messages, target, zeroTail, seen + {cutoff}, best', distance', tokens') && best' >= 0
  {
    best', distance', tokens' := best, distance, tokens;
    var tailTokens := EstimateTokens(messages[cutoff..]);
    var d := Abs(tailTokens - target);
    var prefer := if zeroTail then tailTokens < tokens else tailTokens > tokens;
    if best < 0 || d < distance || (d == distance && prefer) {
      best', distance', tokens' := cutoff, d, tailTokens;
    }
  }

  method CollectUserStarts(messages: seq<Message>) returns (userStarts: seq<nat>)
    ensures userStarts == UserStarts(messages)
  {
    userStarts := [];
    for i := 0 to |messages|
      invariant userStarts == UserStarts(messages[..i])
    {
      assert messages[..i + 1][..i] == messages[..i];
      if messages[i].role.User? {
        userStarts := userStarts + [i];
      }
    }
    assert messages[..|messages|] == messages;
  }

  /** Everything the scan down to start number `i` has looked at is in `seen`, and `best` is the best of it. */
  ghost predicate Scanned(ms: seq<Message>, target: int, minKeep: int, zeroTail: bool, i: nat,
                          seen: set<nat>, best: int, distance: nat, tokens: nat)
  {
    var us := UserStarts(ms);
    && i <= |us|
    && (forall c :: c in seen ==> c <= |ms| && Candidate(ms, minKeep, zeroTail, c))
    && (forall c, k :: c in seen && 0 <= k < i ==> us[k] < c)
    && (zeroTail ==> |ms| in seen)
    && (forall k :: i <= k < |us| && Candidate(ms, minKeep, zeroTail, us[k]) ==> us[k] in seen)
    && BestOf(ms, target, zeroTail, seen, best, distance, tokens)
  }

  /** The complete-turn tail: the unique best candidate, or none when there is no candidate. */
  method CompleteTurnTail(messages: seq<Message>, target: int, minKeepTurns: int, includeZeroTail: bool)
    returns (cutoff: int, ok: bool)
    ensures var minKeep := if minKeepTurns < 1 then (if includeZeroTail then 0 else 1) else minKeepTurns;
            if ok then cutoff >= 0 && BestTail(messages, target, minKeep, includeZeroTail, cutoff)
            else forall c: nat :: c <= |messages| ==> !Candidate(messages, minKeep, includeZeroTail, c)
  {
    var minKeep := if minKeepTurns < 1 then (if includeZeroTail then 0 else 1) else minKeepTurns;
    var userStarts := CollectUserStarts(messages);
    UserStartsComplete(messages);
    var best, distance, tokens := -1, 0, 0;
    ghost var seen: set<nat> := {};
    if includeZeroTail {
      best, distance, tokens := Consider(messages, target, includeZeroTail, |messages|, seen, best, distance, tokens);
      seen := {|messages|};
    }
    var i := |userStarts|;
    while i > 0
      invariant 0 <= i <= |userStarts|
      invariant Scanned(messages, target, minKeep, includeZeroTail, i, seen, best, distance, tokens)
    {
      i := i - 1;
      best, distance, tokens, seen :=
        ScanTurn(messages, userStarts, target, minKeep, includeZeroTail, i, seen, best, distance, tokens);
    }
    ScannedAll(messages, target, minKeep, includeZeroTail, seen, best, distance, tokens);
    return best, best >= 0;
  }

  method ScanTurn(messages: seq<Message>, userStarts: seq<nat>, target: int, minKeep: int, zeroTail: bool, i: nat,
                  ghost seen: set<nat>, best: int, distance: nat, tokens: nat)
    returns (best': int, distance': nat, tokens': nat, ghost seen': set<nat>)
    requires userStarts == UserStarts(messages) && i < |userStarts|
    requires Scanned(messages, target, minKeep, zeroTail, i + 1, seen, best, distance, tokens)
    ensures Scanned(messages, target, minKeep, zeroTail, i, seen', best', distance', tokens')
  {
    best', distance', tokens', seen' := best, distance, tokens, seen;
    StartIsCandidate(messages, minKeep, zeroTail, i);
    var keepTurns := |userStarts| - i;
    if keepTurns < minKeep {
      return;
    }
    var c := SafeCompactionCutoff(messages, userStarts[i]);
    assert c == userStarts[i];
    if c <= 0 {
      return;
    }
    best', distance', tokens' := Consider(messages, target, zeroTail, c, seen, best, distance, tokens);
    seen' := seen + {c};
    ScannedMore(messages, target, minKeep, zeroTail, i, seen, best, distance, tokens, best', distance', tokens');
  }

  lemma StartIsCandidate(ms: seq<Message>, minKeep: int, zeroTail: bool, i: nat)
    requires i < |UserStarts(ms)|
    ensures var c := UserStarts(ms)[i];
            c < |ms| && (Candidate(ms, minKeep, zeroTail, c) <==> c > 0 && |UserStarts(ms)| - i >= minKeep)
  {
    TurnsFromStart(ms, i);
  }

  lemma ScannedMore(ms: seq<Message>, target: int, minKeep: int, zeroTail: bool, i: nat, seen: set<nat>,
                    best: int, distance: nat, tokens: nat, best': int, distance': nat, tokens': nat)
    requires i < |UserStarts(ms)|
    requires Scanned(ms, target, minKeep, zeroTail, i + 1, seen, best, distance, tokens)
    requires Candidate(ms, minKeep, zeroTail, UserStarts(ms)[i])
    requires BestOf(ms, target, zeroTail, seen + {UserStarts(ms)[i]}, best', distance', tokens')
    ensures Scanned(ms, target, minKeep, zeroTail, i, seen + {UserStarts(ms)[i]}, best', distance', tokens')
  {
  }

  lemma ScannedAll(ms: seq<Message>, target: int, minKeep: int, zeroTail: bool,
                   seen: set<nat>, best: int, distance: nat, tokens: nat)
    requires Scanned(ms, target, minKeep, zeroTail, 0, seen, best, distance, tokens)
    ensures if best >= 0 then BestTail(ms, target, minKeep, zeroTail, best)
            else forall c: nat :: c <= |ms| ==> !Candidate(ms, minKeep, zeroTail, c)
  {
    UserStartsComplete(ms);
    forall c: nat | c <= |ms| && Candidate(ms, minKeep, zeroTail, c) ensures c in seen {
      if c < |ms| {
        var k :| 0 <= k < |UserStarts(ms)| && UserStarts(ms)[k] == c;
      }
    }
  }

  // ---------------------------------------------------------------- the cut used by every mode

  function TailTarget(o: Options): int {
    PercentOf(InputBudget(o), o.tailTargetPercent)
  }

  function MinKeep(o: Options): int {
    if o.mode.Emergency? then 0 else o.minTailTurns
  }

  /** The cut compaction makes in `ms`; 0 when there is none to make. */
  ghost function TailStart(ms: seq<Message>, o: Options): (c: nat)
    ensures c <= |ms|
    ensures c > 0 ==> BestTail(ms, TailTarget(Normalize(o)), MinKeep(Normalize(o)), Normalize(o).mode.Emergency?, c)
    ensures c > 0 <==> ms != [] && exists d: nat :: d <= |ms| && Candidate(ms, MinKeep(Normalize(o)), Normalize(o).mode.Emergency?, d)
  {
    var n := Normalize(o);
    if ms == [] || !exists d: nat :: d <= |ms| && Candidate(ms, MinKeep(n), n.mode.Emergency?, d) then 0
    else
      BestTailExists(ms, TailTarget(n), MinKeep(n), n.mode.Emergency?);
      var c: nat :| BestTail(ms, TailTarget(n), MinKeep(n), n.mode.Emergency?, c);
      c
  }

  lemma BestTailExists(ms: seq<Message>, target: int, minKeep: int, zeroTail: bool)
    requires exists d: nat :: d <= |ms| && Candidate(ms, minKeep, zeroTail, d)
    ensures exists c: nat :: BestTail(ms, target, minKeep, zeroTail, c)
  {
    var d: nat :| d <= |ms| && Candidate(ms, minKeep, zeroTail, d);
    var c := BestUpTo(ms, target, minKeep, zeroTail, |ms|);
    assert BestTail(ms, target, minKeep, zeroTail, c);
  }

  lemma {:induction false} BestUpTo(ms: seq<Message>, target: int, minKeep: int, zeroTail: bool, n: nat) returns (c: nat)
    requires n <= |ms|
    requires exists d: nat :: d <= n && Candidate(ms, minKeep, zeroTail, d)
    ensures c <= n && Candidate(ms, minKeep, zeroTail, c)
    ensures forall d: nat :: d <= n && Candidate(ms, minKeep, zeroTail, d) ==> AsGood(ms, target, zeroTail, c, d)
  {
    if exists d: nat :: d < n && Candidate(ms, minKeep, zeroTail, d) {
      var d: nat :| d < n && Candidate(ms, minKeep, zeroTail, d);
      c := BestUpTo(ms, target, minKeep, zeroTail, n - 1);
      if Candidate(ms, minKeep, zeroTail, n) && AsGood(ms, target, zeroTail, n, c) {
        c := n;
      }
    } else {
      c := n;
    }
  }

  /** Where the kept tail starts, in plain terms: at a user turn with enough turns behind it (in emergency
      mode also at the very end), and no other such place leaves a tail nearer the target; of two as near
      the longer one is kept, in emergency mode the shorter. */
  lemma TailIsOptimal(ms: seq<Message>, o: Options, d: nat)
    requires TailStart(ms, o) > 0 && 0 < d <= |ms|
    requires if d == |ms| then Normalize(o).mode.Emergency?
             else ms[d].role.User? && (Normalize(o).mode.Emergency? || UserCount(ms[d..]) >= Normalize(o).minTailTurns)
    ensures var c, n := TailStart(ms, o), Normalize(o);
            if c == |ms| then n.mode.Emergency?
            else ms[c].role.User? && (n.mode.Emergency? || UserCount(ms[c..]) >= n.minTailTurns)
    ensures var c, n := TailStart(ms, o), Normalize(o);
            var target := PercentOf(InputBudget(n), n.tailTargetPercent);
            var kept, other := Tokens(ms[c..]), Tokens(ms[d..]);
            var off := if kept < target then target - kept else kept - target;
            var otherOff := if other < target then target - other else other - target;
            off < otherOff || (off == otherOff && (kept == other || (kept < other <==> n.mode.Emergency?)))
  {
    var n := Normalize(o);
    assert AsGood(ms, TailTarget(n), n.mode.Emergency?, TailStart(ms, o), d);
  }

  /** There is a cut exactly when some user turn past the first message has enough turns behind it; in
      emergency mode always. */
  lemma CutExistsIff(ms: seq<Message>, o: Options)
    ensures TailStart(ms, o) > 0 <==>
            && ms != []
            && (Normalize(o).mode.Emergency?
                || exists d :: 0 < d < |ms| && ms[d].role.User? && UserCount(ms[d..]) >= Normalize(o).minTailTurns)
  {
    var n := Normalize(o);
    if n.mode.Emergency? && ms != [] {
      EmergencyAlwaysCuts(ms, o);
    }
    if exists d :: 0 < d < |ms| && ms[d].role.User? && UserCount(ms[d..]) >= n.minTailTurns {
      var d :| 0 < d < |ms| && ms[d].role.User? && UserCount(ms[d..]) >= n.minTailTurns;
      assert MinKeep(n) <= n.minTailTurns;
      assert Candidate(ms, MinKeep(n), n.mode.Emergency?, d);
    }
  }

  method CompactionTailStart(messages: seq<Message>, opts: Options) returns (cutoff: nat)
    ensures cutoff == TailStart(messages, opts)
  {
    var n := Normalize(opts);
    if messages == [] {
      return 0;
    }
    var zeroTail := n.mode.Emergency?;
    var c, ok := CompleteTurnTail(messages, TailTarget(n), if zeroTail then 0 else n.minTailTurns, zeroTail);
    if !ok {
      return 0;
    }
    BestTailUnique(messages, TailTarget(n), MinKeep(n), zeroTail, c, TailStart(messages, opts));
    return c;
  }

  /** Emergency mode may drop everything: it never leaves a list without a cut. */
  lemma EmergencyAlwaysCuts(ms: seq<Message>, o: Options)
    requires Normalize(o).mode.Emergency? && ms != []
    ensures TailStart(ms, o) > 0
  {
    assert Candidate(ms, MinKeep(Normalize(o)), true, |ms|);
  }

  // ---------------------------------------------------------------- pruning and compressing

  predicate Prunable(m: Message) {
    m.role.Tool? && |m.content| > PRUNE_THRESHOLD_BYTES
  }

  /** Only the text and the UI metadata of a tool result may be replaced. */
  function Summarized(m: Message, note: string): Message {
    m.(content := note, metadata := "")
  }

  function Pruned(ms: seq<Message>, cutoff: nat, note: nat -> string): (out: seq<Message>)
    ensures |out| == |ms|
    ensures forall i :: 0 <= i < |ms| ==> out[i] == if i < cutoff && Prunable(ms[i]) then Summarized(ms[i], note(i)) else ms[i]
  {
    seq(|ms|, i requires 0 <= i < |ms| => if i < cutoff && Prunable(ms[i]) then Summarized(ms[i], note(i)) else ms[i])
  }

  ghost predicate PruneHits(ms: seq<Message>, cutoff: nat) {
    exists i :: 0 <= i < cutoff && i < |ms| && Prunable(ms[i])
  }

  method PruneOldToolResults(messages: seq<Message>, opts: Options, note: nat -> string)
    returns (result: seq<Message>, changed: bool)
    ensures result == Pruned(messages, TailStart(messages, opts), note)
    ensures |result| == |messages|
    ensures forall i :: 0 <= i < |messages| ==>
              result[i] == if i < TailStart(messages, opts) && messages[i].role.Tool? && |messages[i].content| > 2000
                           then messages[i].(content := note(i), metadata := "") else messages[i]
    ensures changed <==> PruneHits(messages, TailStart(messages, opts))
    ensures !changed ==> result == messages
  {
    var cutoff := CompactionTailStart(messages, opts);
    if cutoff <= 0 {
      return messages, false;
    }
    result, changed := messages, false;
    PruneNone(messages, note);
    for i := 0 to cutoff
      invariant result == Pruned(messages, i, note)
      invariant changed <==> PruneHits(messages, i)
    {
      PruneOne(messages, i, note);
      if Prunable(result[i]) {
        result := result[i := Summarized(result[i], note(i))];
        changed := true;
      }
    }
    PruneMissed(messages, cutoff, note);
  }

  lemma PruneNone(ms: seq<Message>, note: nat -> string)
    ensures Pruned(ms, 0, note) == ms && !PruneHits(ms, 0)
  {
  }

  lemma PruneMissed(ms: seq<Message>, cutoff: nat, note: nat -> string)
    ensures !PruneHits(ms, cutoff) ==> Pruned(ms, cutoff, note) == ms
  {
  }

  lemma PruneOne(ms: seq<Message>, i: nat, note: nat -> string)
    requires i < |ms|
    ensures Pruned(ms, i, note)[i] == ms[i]
    ensures Pruned(ms, i + 1, note) ==
            if Prunable(ms[i]) then Pruned(ms, i, note)[i := Summarized(ms[i], note(i))] else Pruned(ms, i, note)
    ensures PruneHits(ms, i + 1) <==> PruneHits(ms, i) || Prunable(ms[i])
  {
  }

  const SUMMARY_LABEL := "[Conversation Summary]"
  const EMERGENCY_LABEL := "[Reactive Context Summary]"

  function SummaryMessage(o: Options, summary: string): Message {
    Plain(User, (if Normalize(o).mode.Emergency? then EMERGENCY_LABEL else SUMMARY_LABEL) + "\n" + summary)
  }

  method CompressOlder(messages: seq<Message>, opts: Options, summary: string) returns (out: seq<Message>)
    ensures out == if TailStart(messages, opts) == 0 then messages
                   else [SummaryMessage(opts, summary)] + messages[TailStart(messages, opts)..]
    ensures TailStart(messages, opts) > 0 ==>
              && out != [] && out[0].role.User? && out[0].toolCalls == [] && out[0].raw == NoRaw
              && out[0].content == (if opts.mode.Emergency? then EMERGENCY_LABEL else SUMMARY_LABEL) + "\n" + summary
  {
    var cutoff := CompactionTailStart(messages, opts);
    if Normalize(opts).mode.Emergency? {
      cutoff := EmergencyTailStart(messages, opts);
    }
    if cutoff <= 0 {
      return messages;
    }
    out := [SummaryMessage(opts, summary)];
    out := out + messages[cutoff..];
  }

  method EmergencyTailStart(messages: seq<Message>, opts: Options) returns (cutoff: nat)
    requires Normalize(opts).mode.Emergency?
    ensures cutoff == TailStart(messages, opts)
  {
    cutoff := CompactionTailStart(messages, opts);
    if cutoff > 0 {
      return;
    }
    if messages != [] {
      EmergencyAlwaysCuts(messages, opts);
    }
    return |messages|;
  }

  // ---------------------------------------------------------------- the three modes

  /** What is left after pruning, and what replaces the head when it is cut off. */
  ghost function Cut(ms: seq<Message>, o: Options, summary: string): seq<Message> {
    [SummaryMessage(o, summary)] + ms[TailStart(ms, o)..]
  }

  ghost function PrunedList(messages: seq<Message>, o: Options, note: nat -> string): seq<Message> {
    Pruned(Sanitized(messages), TailStart(Sanitized(messages), o), note)
  }

  /** Did sanitizing or pruning do anything? */
  ghost predicate Shrunk(messages: seq<Message>, o: Options) {
    Sanitized(messages) != messages || PruneHits(Sanitized(messages), TailStart(Sanitized(messages), o))
  }

  ghost function Triggered(messages: seq<Message>, o: Options, note: nat -> string, summary: string): CompactResult {
    var p := PrunedList(messages, o, note);
    if !o.mode.Manual? && RequestTokens(p, o) < PercentOf(InputBudget(o), o.targetPercent)
    then CompactResult(p, Shrunk(messages, o))
    else if TailStart(p, o) == 0 then CompactResult(p, Shrunk(messages, o))
    else CompactResult(Cut(p, o, summary), true)
  }

  ghost function EmergencyResult(messages: seq<Message>, o: Options, note: nat -> string, summary: string): CompactResult {
    var s := Sanitized(messages);
    if s == [] then CompactResult(messages, false)
    else if |s| == 1 then CompactResult(s, s != messages)
    else CompactResult(Cut(PrunedList(messages, o, note), o, summary), true)
  }

  /** The whole compaction, as a function of the list, the options and the summary texts. */
  ghost function Compacted(messages: seq<Message>, opts: Options, note: nat -> string, summary: string): CompactResult {
    var o := Normalize(opts);
    if o.mode.Emergency? then EmergencyResult(messages, o, note, summary)
    else if o.mode.Proactive? && RequestTokens(messages, o) < PercentOf(InputBudget(o), o.triggerPercent)
    then CompactResult(Sanitized(messages), Sanitized(messages) != messages)
    else Triggered(messages, o, note, summary)
  }

  lemma NormalizeTwice(opts: Options)
    ensures Normalize(Normalize(opts)) == Normalize(opts)
  {
  }

  method CompactTriggered(messages: seq<Message>, opts: Options, note: nat -> string, summary: string)
    returns (res: CompactResult)
    requires opts == Normalize(opts) && !opts.mode.Emergency?
    ensures res == Triggered(messages, opts, note, summary)
  {
    var sanitized, sanitizedChanged := SanitizeToolPairs(messages);
    var pruned, prunedChanged := PruneOldToolResults(sanitized, opts, note);
    var changed := sanitizedChanged || prunedChanged;
    var tokens := EstimateTokens(opts.overhead + pruned);
    if !opts.mode.Manual? && tokens + opts.toolTokens < PercentOf(InputBudget(opts), opts.targetPercent) {
      return CompactResult(pruned, changed);
    }
    var cutoff := CompactionTailStart(pruned, opts);
    if cutoff <= 0 {
      return CompactResult(pruned, changed);
    }
    var compressed := CompressOlder(pruned, opts, summary);
    CutWellFormed(messages, opts, note, summary);
    WellFormedUntouched(compressed);
    var final, _ := SanitizeToolPairs(compressed);
    return CompactResult(final, true);
  }

  method EmergencyCompact(messages: seq<Message>, opts: Options, note: nat -> string, summary: string)
    returns (res: CompactResult)
    requires opts == Normalize(opts) && opts.mode.Emergency?
    ensures res == EmergencyResult(messages, opts, note, summary)
  {
    var sanitized, sanitizedChanged := SanitizeToolPairs(messages);
    if |sanitized| == 0 {
      return CompactResult(messages, false);
    }
    if |sanitized| == 1 {
      return CompactResult(sanitized, sanitizedChanged);
    }
    var pruned, prunedChanged := PruneOldToolResults(sanitized, opts, note);
    EmergencyAlwaysCuts(pruned, opts);
    var compressed := CompressOlder(pruned, opts, summary);
    CutWellFormed(messages, opts, note, summary);
    WellFormedUntouched(compressed);
    var final, _ := SanitizeToolPairs(compressed);
    return CompactResult(final, true);
  }

  method CompactMessages(messages: seq<Message>, opts: Options, note: nat -> string, summary: string)
    returns (res: CompactResult)
    ensures res == Compacted(messages, opts, note, summary)
  {
    var o := Normalize(opts);
    NormalizeTwice(opts);
    match o.mode
    case Emergency =>
      res := EmergencyCompact(messages, o, note, summary);
    case Manual =>
      res := CompactTriggered(messages, o, note, summary);
    case _ =>
      var tokens := EstimateTokens(o.overhead + messages);
      if tokens + o.toolTokens < PercentOf(InputBudget(o), o.triggerPercent) {
        var sanitized, changed := SanitizeToolPairs(messages);
        return CompactResult(sanitized, changed);
      }
      res := CompactTriggered(messages, o, note, summary);
  }

  // ---------------------------------------------------------------- when each outcome happens

  /** The limits an unset configuration compacts by. */
  lemma DefaultLimits(o: Options)
    requires o.contextWindow <= 0 && o.maxOutputTokens <= 0 && o.triggerPercent <= 0 && o.targetPercent <= 0 && o.tailTargetPercent <= 0
    ensures var n := Normalize(o);
            && PercentOf(InputBudget(n), n.triggerPercent) == 96000
            && PercentOf(InputBudget(n), n.targetPercent) == 70400
            && PercentOf(InputBudget(n), n.tailTargetPercent) == 38400
            && (o.minTailTurns <= 0 ==> n.minTailTurns == 2)
            && (!o.mode.Manual? && !o.mode.Emergency? ==> n.mode.Proactive?)
  {
  }

  /** A limit is a percentage of the budget, rounded down. */
  lemma PercentRoundsDown(n: int, percent: int)
    ensures n > 0 && percent > 0 ==> 100 * PercentOf(n, percent) <= n * percent < 100 * PercentOf(n, percent) + 100
    ensures n <= 0 || percent <= 0 ==> PercentOf(n, percent) == 0
  {
  }

  /** Options in range are used as they are, and a percentage above 100 counts as 100. */
  lemma OptionsInRangeKept(o: Options, p: int)
    requires o.contextWindow > 0 && o.maxOutputTokens >= 0 && o.minTailTurns > 0 && !o.mode.OtherMode?
    requires 0 < o.triggerPercent <= 100 && 0 < o.targetPercent <= 100 && 0 < o.tailTargetPercent <= 100
    ensures Normalize(o) == o
    ensures p > 100 ==>
      Normalize(o.(triggerPercent := p, targetPercent := p, tailTargetPercent := p)) ==
      o.(triggerPercent := 100, targetPercent := 100, tailTargetPercent := 100)
    ensures InputBudget(o) == 1 || InputBudget(o) == o.contextWindow - o.maxOutputTokens > 1
  {
  }

  /** The whole request is at the given percentage of the input budget or above it. */
  predicate Reaches(ms: seq<Message>, o: Options, percent: int) {
    RequestTokens(ms, o) >= PercentOf(InputBudget(o), percent)
  }

  /** Outside emergency mode. Nothing but sanitizing happens before the request reaches the trigger limit,
      unless the mode is Manual. Then the old tool results are pruned; and the head gives way to the
      summary if and only if the pruned request still reaches the target (or the mode is Manual) and there
      is a place to cut. */
  lemma CompactionOutcome(messages: seq<Message>, opts: Options, note: nat -> string, summary: string)
    requires !Normalize(opts).mode.Emergency?
    ensures var r, o := Compacted(messages, opts, note, summary), Normalize(opts);
            var s := Sanitized(messages);
            var p := Pruned(s, TailStart(s, o), note);
            var due := o.mode.Manual? || Reaches(messages, o, o.triggerPercent);
            var over := o.mode.Manual? || Reaches(p, o, o.targetPercent);
            if !due then r.messages == s && (r.pruned <==> s != messages)
            else if over && TailStart(p, o) > 0 then r.pruned && r.messages == [SummaryMessage(o, summary)] + p[TailStart(p, o)..]
            else
              && r.messages == p
              && (r.pruned <==> (|| s != messages
                                 || exists i :: 0 <= i < TailStart(s, o) && s[i].role.Tool? && |s[i].content| > PRUNE_THRESHOLD_BYTES))
  {
  }

  /** In emergency mode all but what the smallest good tail keeps gives way to the summary, at once. */
  lemma EmergencyOutcome(messages: seq<Message>, opts: Options, note: nat -> string, summary: string)
    requires Normalize(opts).mode.Emergency?
    ensures var r, o := Compacted(messages, opts, note, summary), Normalize(opts);
            var s := Sanitized(messages);
            var p := Pruned(s, TailStart(s, o), note);
            if |s| == 0 then r == CompactResult(messages, false)
            else if |s| == 1 then r == CompactResult(s, s != messages)
            else TailStart(p, o) > 0 && r == CompactResult([SummaryMessage(o, summary)] + p[TailStart(p, o)..], true)
  {
    var o := Normalize(opts);
    if |Sanitized(messages)| > 1 {
      EmergencyAlwaysCuts(PrunedList(messages, o, note), o);
    }
  }

  /** A proactive compaction that was due and cut nothing is below the target, or had no turn to cut at. */
  lemma DueGetsSmall(messages: seq<Message>, opts: Options, note: nat -> string, summary: string)
    requires Normalize(opts).mode.Proactive? && Reaches(messages, Normalize(opts), Normalize(opts).triggerPercent)
    ensures var r, o := Compacted(messages, opts, note, summary), Normalize(opts);
            || RequestTokens(r.messages, o) < PercentOf(InputBudget(o), o.targetPercent)
            || TailStart(r.messages, o) == 0
            || (r.pruned && r.messages != [] && r.messages[0] == Plain(User, SUMMARY_LABEL + "\n" + summary)
                && |r.messages| <= |Sanitized(messages)|)
  {
    CompactionOutcome(messages, opts, note, summary);
    NormalizeTwice(opts);
  }

  // ---------------------------------------------------------------- structure survives

  predicate SameShape(a: Message, b: Message) {
    a.role == b.role && a.toolCalls == b.toolCalls && a.toolCallID == b.toolCallID && a.raw == b.raw
  }

  lemma {:induction false} SameShapeAnswers(a: seq<Message>, b: seq<Message>, pending: set<string>)
    requires |a| == |b| && forall i :: 0 <= i < |a| ==> SameShape(a[i], b[i])
    ensures Answers(a, pending) == Answers(b, pending)
  {
    if a != [] {
      SameShapeAnswers(a[1..], b[1..], pending - {a[0].toolCallID});
    }
  }

  lemma {:induction false} SameShapeRun(a: seq<Message>, b: seq<Message>)
    requires |a| == |b| && forall i :: 0 <= i < |a| ==> SameShape(a[i], b[i])
    ensures ToolRun(a) == ToolRun(b)
  {
    if a != [] {
      SameShapeRun(a[1..], b[1..]);
    }
  }

  lemma {:induction false} SameShapeWellFormed(a: seq<Message>, b: seq<Message>)
    requires |a| == |b| && forall i :: 0 <= i < |a| ==> SameShape(a[i], b[i])
    ensures WellFormed(a) ==> WellFormed(b)
    decreases |a|
  {
    if a != [] && WellFormed(a) {
      SameShapeRun(a[1..], b[1..]);
      var n := ToolRun(a[1..]);
      SameShapeAnswers(a[1..1 + n], b[1..1 + n], ExpectedIDs(a[0]));
      SameShapeWellFormed(a[1 + n..], b[1 + n..]);
      SameShapeWellFormed(a[1..], b[1..]);
    }
  }

  lemma PrunedWellFormed(messages: seq<Message>, o: Options, note: nat -> string)
    ensures WellFormed(PrunedList(messages, o, note))
  {
    SanitizedWellFormed(messages);
    SameShapeWellFormed(Sanitized(messages), PrunedList(messages, o, note));
  }

  lemma CutWellFormed(messages: seq<Message>, o: Options, note: nat -> string, summary: string)
    requires TailStart(PrunedList(messages, o, note), o) > 0
    ensures WellFormed(Cut(PrunedList(messages, o, note), o, summary))
  {
    var p := PrunedList(messages, o, note);
    PrunedWellFormed(messages, o, note);
    WellFormedSuffix(p, TailStart(p, o));
    NeutralWellFormed([SummaryMessage(o, summary)]);
    WellFormedConcat([SummaryMessage(o, summary)], p[TailStart(p, o)..]);
  }

  lemma TriggeredKeepsStructure(messages: seq<Message>, o: Options, note: nat -> string, summary: string)
    ensures var r := Triggered(messages, o, note, summary);
            WellFormed(r.messages) && (!r.pruned ==> r.messages == messages)
  {
    PrunedWellFormed(messages, o, note);
    if TailStart(PrunedList(messages, o, note), o) > 0 {
      CutWellFormed(messages, o, note, summary);
    }
  }

  lemma EmergencyKeepsStructure(messages: seq<Message>, o: Options, note: nat -> string, summary: string)
    requires o.mode.Emergency? && o == Normalize(o)
    ensures var r := EmergencyResult(messages, o, note, summary);
            (r.pruned ==> WellFormed(r.messages)) && (!r.pruned ==> r.messages == messages)
  {
    SanitizedWellFormed(messages);
    if |Sanitized(messages)| > 1 {
      EmergencyAlwaysCuts(PrunedList(messages, o, note), o);
      CutWellFormed(messages, o, note, summary);
    }
  }

  /** End to end: a changed result is well-formed, an unchanged one is the input itself; and
      outside emergency mode the result is well-formed either way. */
  lemma CompactionKeepsStructure(messages: seq<Message>, opts: Options, note: nat -> string, summary: string)
    ensures var r := Compacted(messages, opts, note, summary);
            && (r.pruned ==> WellFormed(r.messages))
            && (!r.pruned ==> r.messages == messages)
            && (!Normalize(opts).mode.Emergency? ==> WellFormed(r.messages))
  {
    var o := Normalize(opts);
    NormalizeTwice(opts);
    if o.mode.Emergency? {
      EmergencyKeepsStructure(messages, o, note, summary);
    } else {
      SanitizedWellFormed(messages);
      TriggeredKeepsStructure(messages, o, note, summary);
    }
  }

  // ---------------------------------------------------------------- the protected tail survives

  lemma {:induction false} PrunedUserCount(a: seq<Message>, b: seq<Message>)
    requires |a| == |b| && forall i :: 0 <= i < |a| ==> SameShape(a[i], b[i])
    ensures UserCount(a) == UserCount(b)
  {
    if a != [] {
      PrunedUserCount(a[..|a| - 1], b[..|b| - 1]);
    }
  }

  lemma PrunedCandidates(ms: seq<Message>, cutoff: nat, note: nat -> string, minKeep: int, zeroTail: bool)
    ensures forall d: nat :: d <= |ms| ==>
              (Candidate(Pruned(ms, cutoff, note), minKeep, zeroTail, d) <==> Candidate(ms, minKeep, zeroTail, d))
  {
    var p := Pruned(ms, cutoff, note);
    forall d: nat | d <= |ms|
      ensures Candidate(p, minKeep, zeroTail, d) <==> Candidate(ms, minKeep, zeroTail, d)
    {
      PrunedUserCount(ms[d..], p[d..]);
    }
  }

  /** Changing only what lies before the best cut `c1` cannot make a later cut best. */
  lemma LaterCutLoses(ms: seq<Message>, p: seq<Message>, target: int, minKeep: int, zeroTail: bool, c1: nat, c2: nat)
    requires c1 <= |ms| == |p| && p[c1..] == ms[c1..]
    requires BestTail(ms, target, minKeep, zeroTail, c1) && BestTail(p, target, minKeep, zeroTail, c2)
    requires Candidate(p, minKeep, zeroTail, c1) && Candidate(ms, minKeep, zeroTail, c2)
    ensures c2 <= c1
  {
    assert AsGood(ms, target, zeroTail, c1, c2);
    assert AsGood(p, target, zeroTail, c2, c1);
    LaterSuffix(ms, p, c1, c2);
  }

  lemma LaterSuffix(ms: seq<Message>, p: seq<Message>, c1: nat, c2: nat)
    requires c1 <= |ms| == |p| && p[c1..] == ms[c1..] && c2 <= |ms|
    ensures c1 <= c2 ==> p[c2..] == ms[c2..]
  {
    if c1 <= c2 {
      assert p[c2..] == p[c1..][c2 - c1..];
      assert ms[c2..] == ms[c1..][c2 - c1..];
    }
  }

  /** The cut recomputed after pruning is never later than the one pruning was done for. */
  lemma RecomputedCutoffNotLater(ms: seq<Message>, o: Options, note: nat -> string)
    requires TailStart(ms, o) > 0
    ensures 0 < TailStart(Pruned(ms, TailStart(ms, o), note), o) <= TailStart(ms, o)
  {
    var n := Normalize(o);
    var c1 := TailStart(ms, o);
    var p := Pruned(ms, c1, note);
    PrunedCandidates(ms, c1, note, MinKeep(n), n.mode.Emergency?);
    assert Candidate(p, MinKeep(n), n.mode.Emergency?, c1);
    PrunedSuffix(ms, c1, note);
    LaterCutLoses(ms, p, TailTarget(n), MinKeep(n), n.mode.Emergency?, c1, TailStart(p, o));
  }

  lemma PrunedSuffix(ms: seq<Message>, cutoff: nat, note: nat -> string)
    requires cutoff <= |ms|
    ensures Pruned(ms, cutoff, note)[cutoff..] == ms[cutoff..]
  {
  }

  ghost predicate EndsWith(ms: seq<Message>, tail: seq<Message>) {
    |tail| <= |ms| && ms[|ms| - |tail|..] == tail
  }

  /** Whatever compaction does, every message from the first chosen cut on ends the result,
      unchanged and in order. */
  lemma ProtectedTailSurvives(messages: seq<Message>, opts: Options, note: nat -> string, summary: string)
    requires TailStart(Sanitized(messages), opts) > 0
    ensures EndsWith(Compacted(messages, opts, note, summary).messages,
                     Sanitized(messages)[TailStart(Sanitized(messages), opts)..])
  {
    TailStartNormalized(Sanitized(messages), opts);
    CompactedOutcomes(messages, opts, note, summary);
    EveryOutcomeEndsWithTail(messages, Normalize(opts), note, summary);
  }

  lemma CompactedOutcomes(messages: seq<Message>, opts: Options, note: nat -> string, summary: string)
    requires Sanitized(messages) != []
    ensures var r := Compacted(messages, opts, note, summary).messages;
            var o := Normalize(opts);
            || r == Sanitized(messages)
            || r == PrunedList(messages, o, note)
            || r == Cut(PrunedList(messages, o, note), o, summary)
  {
  }

  lemma EveryOutcomeEndsWithTail(messages: seq<Message>, o: Options, note: nat -> string, summary: string)
    requires TailStart(Sanitized(messages), o) > 0
    ensures var tail := Sanitized(messages)[TailStart(Sanitized(messages), o)..];
            && EndsWith(Sanitized(messages), tail)
            && EndsWith(PrunedList(messages, o, note), tail)
            && EndsWith(Cut(PrunedList(messages, o, note), o, summary), tail)
  {
    var s, p := Sanitized(messages), PrunedList(messages, o, note);
    var c1 := TailStart(s, o);
    RecomputedCutoffNotLater(s, o, note);
    PrunedSuffix(s, c1, note);
    EndsWithSuffix(p, s, [SummaryMessage(o, summary)], TailStart(p, o), c1);
  }

  lemma EndsWithSuffix(p: seq<Message>, s: seq<Message>, head: seq<Message>, from: nat, c: nat)
    requires from <= c <= |p| == |s| && p[c..] == s[c..]
    ensures EndsWith(head + p[from..], s[c..]) && EndsWith(p, s[c..]) && EndsWith(s, s[c..])
  {
    var r := head + p[from..];
    assert r[|r| - (|s| - c)..] == p[c..];
  }

  lemma TailStartNormalized(ms: seq<Message>, opts: Options)
    ensures TailStart(ms, Normalize(opts)) == TailStart(ms, opts)
  {
    NormalizeTwice(opts);
    var n := Normalize(opts);
    var c, d := TailStart(ms, n), TailStart(ms, opts);
    if c > 0 && d > 0 {
      BestTailUnique(ms, TailTarget(n), MinKeep(n), n.mode.Emergency?, c, d);
    }
  }

  lemma {:induction false} UserCountConcat(a: seq<Message>, b: seq<Message>)
    ensures UserCount(a + b) == UserCount(a) + UserCount(b)
  {
    if b == [] {
      assert a + b == a;
    } else {
      assert (a + b)[..|a + b| - 1] == a + b[..|b| - 1];
      UserCountConcat(a, b[..|b| - 1]);
    }
  }

  /** Outside emergency mode the last MinTailTurns user turns are never summarised away: either the
      sanitized list is kept whole up to pruned tool results, or the kept tail has that many turns. */
  lemma MinimumTurnsKept(messages: seq<Message>, opts: Options, note: nat -> string, summary: string)
    requires !Normalize(opts).mode.Emergency?
    ensures var r := Compacted(messages, opts, note, summary).messages;
            var s := Sanitized(messages);
            || (|r| == |s| && forall i :: 0 <= i < |s| ==> SameShape(r[i], s[i]))
            || exists c: nat :: c <= |s| && EndsWith(r, s[c..]) && UserCount(s[c..]) >= Normalize(opts).minTailTurns
  {
    var s := Sanitized(messages);
    var c := TailStart(s, opts);
    TailStartNormalized(s, opts);
    if c > 0 {
      ProtectedTailSurvives(messages, opts, note, summary);
    } else {
      var o := Normalize(opts);
      NormalizeTwice(opts);
      PrunedCandidates(s, 0, note, MinKeep(o), false);
      assert TailStart(PrunedList(messages, o, note), o) == 0;
    }
  }
}
