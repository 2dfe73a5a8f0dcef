/** The per-user sliding-window limiter (internal/api/ratelimit.go). */
module RateLimit {

  // ---------------------------------------------------------------- one critical section

  type Windows = map<string, seq<int>>

  /** Drops the leading timestamps before `cutoff`. */
  function Trim(ts: seq<int>, cutoff: int): seq<int> {
    if ts != [] && ts[0] < cutoff then Trim(ts[1..], cutoff) else ts
  }

  function Stamps(w: Windows, user: string): seq<int> {
    if user in w then w[user] else []
  }

  function AllowNext(w: Windows, rpm: int, window: int, user: string, now: int): (Windows, bool) {
    if rpm <= 0 then (w, true)
    else
      var ts := Trim(Stamps(w, user), now - window);
      if |ts| >= rpm then (w[user := ts], false) else (w[user := ts + [now]], true)
  }

  function CleanupNext(w: Windows, rpm: int, window: int, now: int): Windows {
    if rpm <= 0 then w
    else map u | u in w && Trim(w[u], now - window) != [] :: Trim(w[u], now - window)
  }

  class RateLimiter {
    var windows: Windows
    const rpm: int
    const window: int

    /** newRateLimiter: a limit of zero or less switches the limiter off. */
    constructor (rpm: int, minute: int)
      ensures windows == map[] && this.rpm == (if rpm <= 0 then 0 else rpm) && window == minute
    {
      windows := map[];
      this.rpm := if rpm <= 0 then 0 else rpm;
      window := minute;
    }

    method Expired(ts: seq<int>, cutoff: int) returns (start: nat)
      ensures start <= |ts| && ts[start..] == Trim(ts, cutoff)
    {
      start := 0;
      while start < |ts| && ts[start] < cutoff
        invariant start <= |ts|
        invariant Trim(ts[start..], cutoff) == Trim(ts, cutoff)
      {
        assert ts[start..][1..] == ts[start + 1..];
        start := start + 1;
      }
    }

    method Allow(user: string, now: int) returns (ok: bool)
      modifies this
      ensures (windows, ok) == AllowNext(old(windows), rpm, window, user, now)
    {
      if rpm <= 0 {
        return true;
      }
      var ts := if user in windows then windows[user] else [];
      var start := Expired(ts, now - window);
      ts := ts[start..];
      if |ts| >= rpm {
        windows := windows[user := ts];
        return false;
      }
      windows := windows[user := ts + [now]];
      return true;
    }

    /** One tick of the cleanup goroutine, in whatever order the map is ranged over. */
    method Cleanup(now: int)
      modifies this
      ensures windows == CleanupNext(old(windows), rpm, window, now)
    {
      if rpm <= 0 {
        return;
      }
      ghost var before := windows;
      var todo := windows.Keys;
      while todo != {}
        invariant todo <= windows.Keys <= before.Keys
        invariant forall u :: u in todo ==> windows[u] == before[u]
        invariant forall u :: u in before.Keys - todo ==>
                    (u in windows <==> Trim(before[u], now - window) != [])
        invariant forall u :: u in windows.Keys - todo ==> windows[u] == Trim(before[u], now - window)
        decreases todo
      {
        var uid :| uid in todo;
        todo := todo - {uid};
        var ts := windows[uid];
        var start := Expired(ts, now - window);
        if start == |ts| {
          windows := windows - {uid};
        } else {
          windows := windows[uid := ts[start..]];
        }
      }
    }
  }

  // ---------------------------------------------------------------- the reference: no state, no cleanup

  datatype Request = Request(user: string, at: int)

  /** How many of `ts` lie in [lo, hi]. */
  function Count(ts: seq<int>, lo: int, hi: int): nat {
    if ts == [] then 0
    else Count(ts[..|ts| - 1], lo, hi) + (if lo <= ts[|ts| - 1] <= hi then 1 else 0)
  }

  /** The promise: a request passes unless `rpm` admitted ones lie in the window ending now. */
  predicate Passes(admitted: seq<int>, rpm: int, window: int, now: int) {
    rpm <= 0 || Count(admitted, now - window, now) < rpm
  }

  /** The times at which requests of `user` pass. */
  function Admitted(reqs: seq<Request>, rpm: int, window: int, user: string): seq<int> {
    if reqs == [] then []
    else
      var before, r := Admitted(reqs[..|reqs| - 1], rpm, window, user), reqs[|reqs| - 1];
      if r.user == user && Passes(before, rpm, window, r.at) then before + [r.at] else before
  }

  // ---------------------------------------------------------------- every run agrees with it

  datatype Call = Ask(user: string, at: int) | Sweep(at: int)

  /** The requests of a run, without the cleanup ticks. */
  function Requests(calls: seq<Call>): seq<Request> {
    if calls == [] then []
    else
      var rest, c := Requests(calls[..|calls| - 1]), calls[|calls| - 1];
      if c.Ask? then rest + [Request(c.user, c.at)] else rest
  }

  function Apply(w: Windows, rpm: int, window: int, c: Call): Windows {
    if c.Ask? then AllowNext(w, rpm, window, c.user, c.at).0 else CleanupNext(w, rpm, window, c.at)
  }

  /** The limiter's state after a run of calls. */
  function After(calls: seq<Call>, rpm: int, window: int): Windows {
    if calls == [] then map[]
    else Apply(After(calls[..|calls| - 1], rpm, window), rpm, window, calls[|calls| - 1])
  }

  ghost predicate ClockMonotone(calls: seq<Call>) {
    forall i, j :: 0 <= i <= j < |calls| ==> calls[i].at <= calls[j].at
  }

  ghost predicate NotAfter(calls: seq<Call>, now: int) {
    forall i :: 0 <= i < |calls| ==> calls[i].at <= now
  }

  /** `kept` is the end of the admitted times `h`; what was forgotten is before `cutoff`; `h` is in order up to `last`. */
  ghost predicate Remembers(kept: seq<int>, h: seq<int>, cutoff: int, last: int) {
    && |kept| <= |h|
    && (forall i :: 0 <= i < |kept| ==> kept[i] == h[|h| - |kept| + i])
    && (forall i :: 0 <= i < |h| - |kept| ==> h[i] < cutoff)
    && (forall i, j :: 0 <= i <= j < |h| ==> h[i] <= h[j])
    && (forall i :: 0 <= i < |h| ==> h[i] <= last)
  }

  lemma {:induction false} TrimRemembers(kept: seq<int>, h: seq<int>, cutoff: int, last: int)
    requires Remembers(kept, h, cutoff, last)
    ensures Remembers(Trim(kept, cutoff), h, cutoff, last)
    ensures Trim(kept, cutoff) != [] ==> Trim(kept, cutoff)[0] >= cutoff
    decreases |kept|
  {
    if kept != [] && kept[0] < cutoff {
      TrimRemembers(kept[1..], h, cutoff, last);
    }
  }

  lemma {:induction false} CountFrom(h: seq<int>, cut: nat, lo: int, hi: int)
    requires cut <= |h|
    requires forall i :: 0 <= i < cut ==> h[i] < lo
    requires forall i :: cut <= i < |h| ==> lo <= h[i] <= hi
    ensures Count(h, lo, hi) == |h| - cut
  {
    if h != [] {
      CountFrom(h[..|h| - 1], if cut == |h| then cut - 1 else cut, lo, hi);
    }
  }

  /** After trimming, the length is the number of admitted requests in the window. */
  lemma TrimCounts(kept: seq<int>, h: seq<int>, now: int, window: int)
    requires Remembers(kept, h, now - window, now)
    ensures |Trim(kept, now - window)| == Count(h, now - window, now)
  {
    TrimRemembers(kept, h, now - window, now);
    var t := Trim(kept, now - window);
    var cut := |h| - |t|;
    if t != [] {
      assert h[cut] == t[0];
    }
    CountFrom(h, cut, now - window, now);
  }

  lemma RemembersLater(kept: seq<int>, h: seq<int>, window: int, now: int, last: int)
    requires Remembers(kept, h, now - window, now) && now <= last
    ensures Remembers(kept, h, last - window, last)
  {
  }

  lemma AskRemembers(t: seq<int>, h: seq<int>, cutoff: int, now: int)
    requires Remembers(t, h, cutoff, now)
    ensures Remembers(t + [now], h + [now], cutoff, now)
  {
  }

  /** What one call makes of the timestamps kept for `user`. */
  function KeptNext(kept: seq<int>, rpm: int, window: int, c: Call, user: string): seq<int> {
    var t := Trim(kept, c.at - window);
    if c.Sweep? then t
    else if c.user != user then kept
    else if |t| >= rpm then t else t + [c.at]
  }

  function HistoryNext(h: seq<int>, rpm: int, window: int, c: Call, user: string): seq<int> {
    if c.Ask? && c.user == user && Passes(h, rpm, window, c.at) then h + [c.at] else h
  }

  lemma CallRemembers(kept: seq<int>, h: seq<int>, rpm: int, window: int, c: Call, user: string)
    requires rpm > 0 && Remembers(kept, h, c.at - window, c.at)
    ensures Remembers(KeptNext(kept, rpm, window, c, user), HistoryNext(h, rpm, window, c, user), c.at - window, c.at)
  {
    TrimRemembers(kept, h, c.at - window, c.at);
    TrimCounts(kept, h, c.at, window);
    AskRemembers(Trim(kept, c.at - window), h, c.at - window, c.at);
  }

  lemma SameUser(w: Windows, rpm: int, window: int, c: Call, user: string)
    requires rpm > 0
    ensures Stamps(Apply(w, rpm, window, c), user) == KeptNext(Stamps(w, user), rpm, window, c, user)
  {
  }

  function History(calls: seq<Call>, rpm: int, window: int, user: string): seq<int> {
    Admitted(Requests(calls), rpm, window, user)
  }

  lemma HistoryStep(front: seq<Call>, c: Call, rpm: int, window: int, user: string)
    ensures History(front + [c], rpm, window, user) == HistoryNext(History(front, rpm, window, user), rpm, window, c, user)
    ensures After(front + [c], rpm, window) == Apply(After(front, rpm, window), rpm, window, c)
  {
    assert (front + [c])[..|front|] == front;
    if c.Ask? {
      var reqs := Requests(front + [c]);
      assert reqs[..|reqs| - 1] == Requests(front);
    }
  }

  /** The state remembers of each user exactly what the reference needs. */
  lemma {:induction false} RunRemembers(calls: seq<Call>, rpm: int, window: int, user: string, last: int)
    requires rpm > 0 && ClockMonotone(calls) && NotAfter(calls, last)
    ensures Remembers(Stamps(After(calls, rpm, window), user), History(calls, rpm, window, user), last - window, last)
    decreases |calls|
  {
    if calls != [] {
      var front, c := calls[..|calls| - 1], calls[|calls| - 1];
      assert calls == front + [c];
      RunRemembers(front, rpm, window, user, c.at);
      CallRemembers(Stamps(After(front, rpm, window), user), History(front, rpm, window, user), rpm, window, c, user);
      HistoryStep(front, c, rpm, window, user);
      SameUser(After(front, rpm, window), rpm, window, c, user);
      RemembersLater(Stamps(After(calls, rpm, window), user), History(calls, rpm, window, user), window, c.at, last);
    }
  }

  /** Every answer is the reference's: it depends on the requests alone, so cleanup ticks, wherever they
      fall, change none; and a request is refused exactly when `rpm` admitted ones lie in its window. */
  lemma AnswersMatchReference(calls: seq<Call>, user: string, now: int, rpm: int, window: int)
    requires ClockMonotone(calls) && NotAfter(calls, now)
    ensures AllowNext(After(calls, rpm, window), rpm, window, user, now).1
         <==> Passes(Admitted(Requests(calls), rpm, window, user), rpm, window, now)
  {
    if rpm > 0 {
      RunRemembers(calls, rpm, window, user, now);
      TrimCounts(Stamps(After(calls, rpm, window), user), History(calls, rpm, window, user), now, window);
    }
  }

  /** Two runs with the same requests and any cleanup ticks give the next request the same answer. */
  lemma CleanupNeverMatters(a: seq<Call>, b: seq<Call>, user: string, now: int, rpm: int, window: int)
    requires ClockMonotone(a) && NotAfter(a, now) && ClockMonotone(b) && NotAfter(b, now)
    requires Requests(a) == Requests(b)
    ensures AllowNext(After(a, rpm, window), rpm, window, user, now).1
         == AllowNext(After(b, rpm, window), rpm, window, user, now).1
  {
    AnswersMatchReference(a, user, now, rpm, window);
    AnswersMatchReference(b, user, now, rpm, window);
  }

  // ---------------------------------------------------------------- the bound

  lemma {:induction false} CountWider(ts: seq<int>, lo: int, hi: int, lo2: int, hi2: int)
    requires lo2 <= lo && forall i :: 0 <= i < |ts| && lo <= ts[i] <= hi ==> ts[i] <= hi2
    ensures Count(ts, lo, hi) <= Count(ts, lo2, hi2)
  {
    if ts != [] {
      CountWider(ts[..|ts| - 1], lo, hi, lo2, hi2);
    }
  }

  lemma {:induction false} AdmittedBy(reqs: seq<Request>, rpm: int, window: int, user: string, last: int)
    requires forall i :: 0 <= i < |reqs| ==> reqs[i].at <= last
    ensures forall i :: 0 <= i < |Admitted(reqs, rpm, window, user)| ==> Admitted(reqs, rpm, window, user)[i] <= last
  {
    if reqs != [] {
      var front, r := reqs[..|reqs| - 1], reqs[|reqs| - 1];
      AdmittedBy(front, rpm, window, user, last);
      var before, h := Admitted(front, rpm, window, user), Admitted(reqs, rpm, window, user);
      assert h == before || h == before + [r.at];
    }
  }

  /** In no window of the configured length, ending at any time t whatever, are more than `rpm` requests
      of one user admitted. */
  lemma {:induction false} WindowBound(reqs: seq<Request>, rpm: int, window: int, user: string, t: int)
    requires rpm > 0
    requires forall i, j :: 0 <= i <= j < |reqs| ==> reqs[i].at <= reqs[j].at
    ensures Count(Admitted(reqs, rpm, window, user), t - window, t) <= rpm
    decreases |reqs|
  {
    if reqs != [] {
      var front, now := reqs[..|reqs| - 1], reqs[|reqs| - 1].at;
      var before := Admitted(front, rpm, window, user);
      WindowBound(front, rpm, window, user, t);
      AdmittedBy(front, rpm, window, user, now);
      assert (before + [now])[..|before|] == before;
      if now <= t {
        CountWider(before, t - window, t, now - window, now);
      }
    }
  }

  /** The times at which the limiter itself said yes to `user` along a run. */
  function Granted(calls: seq<Call>, rpm: int, window: int, user: string): seq<int> {
    if calls == [] then []
    else
      var front, c := calls[..|calls| - 1], calls[|calls| - 1];
      Granted(front, rpm, window, user) +
      if c.Ask? && c.user == user && AllowNext(After(front, rpm, window), rpm, window, user, c.at).1 then [c.at] else []
  }

  lemma {:induction false} GrantedAreAdmitted(calls: seq<Call>, rpm: int, window: int, user: string)
    requires ClockMonotone(calls)
    ensures Granted(calls, rpm, window, user) == History(calls, rpm, window, user)
  {
    if calls != [] {
      var front, c := calls[..|calls| - 1], calls[|calls| - 1];
      assert calls == front + [c];
      GrantedAreAdmitted(front, rpm, window, user);
      HistoryStep(front, c, rpm, window, user);
      AnswersMatchReference(front, user, c.at, rpm, window);
    }
  }

  /** A cleanup tick keeps a user exactly when the limiter said yes to it within the window, and then as many
      times as it did. */
  lemma SweepKeeps(calls: seq<Call>, rpm: int, window: int, user: string, now: int)
    requires rpm > 0 && ClockMonotone(calls) && NotAfter(calls, now)
    ensures var w, n := After(calls + [Sweep(now)], rpm, window), Count(Granted(calls, rpm, window, user), now - window, now);
            && (user in w <==> n > 0)
            && (user in w ==> |w[user]| == n)
  {
    RunRemembers(calls, rpm, window, user, now);
    TrimCounts(Stamps(After(calls, rpm, window), user), History(calls, rpm, window, user), now, window);
    GrantedAreAdmitted(calls, rpm, window, user);
    HistoryStep(calls, Sweep(now), rpm, window, user);
  }

  lemma {:induction false} RequestsInOrder(calls: seq<Call>, last: int)
    requires ClockMonotone(calls) && NotAfter(calls, last)
    ensures forall i :: 0 <= i < |Requests(calls)| ==> Requests(calls)[i].at <= last
    ensures forall i, j :: 0 <= i <= j < |Requests(calls)| ==> Requests(calls)[i].at <= Requests(calls)[j].at
  {
    if calls != [] {
      var front, c := calls[..|calls| - 1], calls[|calls| - 1];
      RequestsInOrder(front, c.at);
      assert c.Ask? ==> Requests(calls) == Requests(front) + [Request(c.user, c.at)];
    }
  }

  /** The bound on the limiter's own answers: in no window of the configured length does it say yes to one
      user more than `rpm` times, whatever cleanup ticks the run has. */
  lemma LimiterBound(calls: seq<Call>, rpm: int, window: int, user: string, t: int)
    requires rpm > 0 && ClockMonotone(calls)
    ensures Count(Granted(calls, rpm, window, user), t - window, t) <= rpm
  {
    GrantedAreAdmitted(calls, rpm, window, user);
    RequestsInOrder(calls, if calls == [] then 0 else calls[|calls| - 1].at);
    WindowBound(Requests(calls), rpm, window, user, t);
  }
}
