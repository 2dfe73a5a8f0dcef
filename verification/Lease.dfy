/** The channel lease loop (internal/channels/lease.go): one call with its adapter and renew goroutines,
    and any number of such calls against one lease row in real time. */
module Lease {
  import opened Optional

  // ---------------------------------------------------------------- one call of runWithLease

  /** Where the loop stands. */
  datatype Loc =
    | Top                          // about to check its context
    | Acquiring                    // Acquire is under way
    | Selecting                    // waiting for context, adapter or renew loop
    | AwaitDone(shutdown: bool)    // cancelled the adapter, waiting for its return
    | AwaitRenew                   // the adapter has returned, waiting for the renew loop
    | Releasing(shutdown: bool)    // Release is under way
    | Sleeping                     // the retry interval
    | Exited

  /** The adapter goroutine of the last tenure: spawned, in Start, or returned with `done` closed. */
  datatype Adapter = NoAdapter | Spawned | Up | Down

  /** The renew goroutine of the last tenure. */
  datatype Renewer = NoRenewer | Ticking | Gone

  datatype AcquireAnswer = Won | HeldByOther | AcquireError
  datatype RenewAnswer = Renewed | Lost | RenewError

  datatype Event = Attempt(won: bool) | Start | Return | Release

  datatype Call = Call(loc: Loc, adapter: Adapter, renewer: Renewer, ctxDone: bool, childCancelled: bool, trace: seq<Event>)

  const FIRST := Call(Top, NoAdapter, NoRenewer, false, false, [])

  /** The adapter goroutine exists and has not returned. */
  predicate Live(c: Call) {
    c.adapter.Spawned? || c.adapter.Up?
  }

  /** The child context is derived from the caller's. */
  predicate ChildDone(c: Call) {
    c.ctxDone || c.childCancelled
  }

  datatype Op =
    // the loop
    | CheckContext
    | AcquireReturns(acquire: AcquireAnswer)
    | SeeContext
    | SeeAdapter
    | SeeRenewer
    | AdapterAwaited
    | RenewerAwaited
    | ReleaseReturns
    | SleepEnds(slept: bool)
    // its goroutines
    | AdapterStarts
    | AdapterReturns
    | RenewReturns(renew: RenewAnswer)
    | RenewerStops
    // the world
    | ContextEnds

  predicate Enabled(c: Call, op: Op) {
    match op
    case CheckContext => c.loc.Top?
    case AcquireReturns(_) => c.loc.Acquiring?
    case SeeContext => c.loc.Selecting? && c.ctxDone
    case SeeAdapter => c.loc.Selecting? && c.adapter.Down?
    case SeeRenewer => c.loc.Selecting? && c.renewer.Gone?
    case AdapterAwaited => c.loc.AwaitDone? && c.adapter.Down?
    case RenewerAwaited => c.loc.AwaitRenew? && c.renewer.Gone?
    case ReleaseReturns => c.loc.Releasing?
    case SleepEnds(slept) => c.loc.Sleeping? && (!slept ==> c.ctxDone)
    case AdapterStarts => c.adapter.Spawned?
    case AdapterReturns => c.adapter.Up?
    case RenewReturns(_) => c.renewer.Ticking?
    case RenewerStops => c.renewer.Ticking? && ChildDone(c)
    case ContextEnds => !c.ctxDone
  }

  function Next(c: Call, op: Op): Call
    requires Enabled(c, op)
  {
    match op
    case CheckContext => c.(loc := if c.ctxDone then Exited else Acquiring)
    case AcquireReturns(a) =>
      if a.Won? then Call(Selecting, Spawned, Ticking, c.ctxDone, false, c.trace + [Attempt(true)])
      else c.(loc := Sleeping, trace := c.trace + [Attempt(false)])
    case SeeContext => c.(loc := AwaitDone(true), childCancelled := true)
    case SeeAdapter => c.(loc := AwaitRenew, childCancelled := true)
    case SeeRenewer => c.(loc := AwaitDone(false), childCancelled := true)
    case AdapterAwaited => c.(loc := if c.loc.shutdown then Releasing(true) else Sleeping)
    case RenewerAwaited => c.(loc := Releasing(false))
    case ReleaseReturns => c.(loc := if c.loc.shutdown then Exited else Sleeping, trace := c.trace + [Release])
    case SleepEnds(slept) => c.(loc := if slept then Top else Exited)
    case AdapterStarts => c.(adapter := Up, trace := c.trace + [Start])
    case AdapterReturns => c.(adapter := Down, trace := c.trace + [Return])
    case RenewReturns(r) => if r.Lost? then c.(renewer := Gone) else c
    case RenewerStops => c.(renewer := Gone)
    case ContextEnds => c.(ctxDone := true)
  }

  /** The call after any interleaving; an operation that is not enabled is not there to happen. */
  function After(ops: seq<Op>): Call {
    if ops == [] then FIRST
    else
      var c := After(ops[..|ops| - 1]);
      if Enabled(c, ops[|ops| - 1]) then Next(c, ops[|ops| - 1]) else c
  }

  // ---------------------------------------------------------------- every interleaving is orderly

  /** Tenures won, adapters started and returned, and rows released. */
  datatype Tally = Tally(won: nat, started: nat, returned: nat, released: nat)

  function Counted(n: Tally, e: Event): Tally {
    match e
    case Attempt(won) => if won then n.(won := n.won + 1) else n
    case Start => n.(started := n.started + 1)
    case Return => n.(returned := n.returned + 1)
    case Release => n.(released := n.released + 1)
  }

  function Count(trace: seq<Event>): Tally {
    if trace == [] then Tally(0, 0, 0, 0) else Counted(Count(trace[..|trace| - 1]), trace[|trace| - 1])
  }

  /** Each start belongs to a tenure won before it, at most one adapter is unreturned, no tenure is won
      before the adapter of the last one has returned, and no tenure is released twice. */
  predicate Sound(n: Tally) {
    n.returned <= n.started <= n.won <= n.returned + 1 && n.released <= n.won
  }

  /** At every moment the tally is sound, and nothing is acquired or released while an adapter is due to
      return. */
  ghost predicate Orderly(trace: seq<Event>) {
    && (forall n :: 0 <= n <= |trace| ==> Sound(Count(trace[..n])))
    && (forall k :: 0 <= k < |trace| && (trace[k].Attempt? || trace[k].Release?) ==>
          Count(trace[..k]).won == Count(trace[..k]).returned)
  }

  lemma OrderlyMore(trace: seq<Event>, e: Event)
    requires Orderly(trace) && Sound(Counted(Count(trace), e))
    requires e.Attempt? || e.Release? ==> Count(trace).won == Count(trace).returned
    ensures Orderly(trace + [e]) && Count(trace + [e]) == Counted(Count(trace), e)
  {
    var t := trace + [e];
    assert t[..|trace|] == trace && t[..|t|] == t;
    forall n | 0 <= n <= |t| ensures Sound(Count(t[..n])) {
      PrefixCount(trace, e, n);
    }
    forall k | 0 <= k < |t| && (t[k].Attempt? || t[k].Release?) ensures Count(t[..k]).won == Count(t[..k]).returned {
      PrefixCount(trace, e, k);
    }
  }

  lemma PrefixCount(trace: seq<Event>, e: Event, n: nat)
    requires n <= |trace| + 1
    ensures (trace + [e])[..n] == if n <= |trace| then trace[..n] else trace + [e]
  {
  }

  /** How the loop's place, its goroutines and the tally go together. */
  predicate Consistent(c: Call, n: Tally) {
    && Sound(n)
    && (match c.adapter
        case NoAdapter => n.won == n.returned
        case Spawned => n.won == n.started + 1 == n.returned + 1
        case Up => n.won == n.started == n.returned + 1
        case Down => n.won == n.returned)
    && (match c.loc
        case Selecting => n.released < n.won && !c.adapter.NoAdapter? && !c.renewer.NoRenewer?
        case AwaitDone(shutdown) =>
          n.released < n.won && !c.adapter.NoAdapter? && c.childCancelled && (if shutdown then c.ctxDone else c.renewer.Gone?)
        case AwaitRenew => n.released < n.won && c.adapter.Down? && !c.renewer.NoRenewer? && c.childCancelled
        case Releasing(shutdown) => n.released < n.won && c.adapter.Down? && (if shutdown then c.ctxDone else c.renewer.Gone?)
        case Exited => !Live(c) && c.ctxDone
        case _ => !Live(c) && !c.renewer.Ticking?)
  }

  ghost predicate CallInv(c: Call) {
    Orderly(c.trace) && Consistent(c, Count(c.trace))
  }

  /** What a step adds to the trace. */
  function Emitted(op: Op): Option<Event> {
    match op
    case AcquireReturns(a) => Some(Attempt(a.Won?))
    case ReleaseReturns => Some(Release)
    case AdapterStarts => Some(Start)
    case AdapterReturns => Some(Return)
    case _ => None
  }

  lemma StepConsistent(c: Call, n: Tally, op: Op)
    requires Consistent(c, n) && Enabled(c, op)
    ensures Next(c, op).trace == if Emitted(op).Some? then c.trace + [Emitted(op).value] else c.trace
    ensures Consistent(Next(c, op), if Emitted(op).Some? then Counted(n, Emitted(op).value) else n)
    ensures op.AcquireReturns? || op.ReleaseReturns? ==> n.won == n.returned
  {
  }

  lemma CallKeepsInv(c: Call, op: Op)
    requires CallInv(c) && Enabled(c, op)
    ensures CallInv(Next(c, op))
  {
    StepConsistent(c, Count(c.trace), op);
    if Emitted(op).Some? {
      OrderlyMore(c.trace, Emitted(op).value);
    }
  }

  lemma {:induction false} AfterInv(ops: seq<Op>)
    ensures CallInv(After(ops))
  {
    if ops == [] {
      assert Count([]) == Tally(0, 0, 0, 0);
    } else {
      AfterInv(ops[..|ops| - 1]);
      if Enabled(After(ops[..|ops| - 1]), ops[|ops| - 1]) {
        CallKeepsInv(After(ops[..|ops| - 1]), ops[|ops| - 1]);
      }
    }
  }

  /** In every interleaving of the loop with its adapter and renew goroutines: the calls made are orderly;
      Acquire is only ever called with no adapter and no renew loop of this call alive, Release only
      after the adapter has returned; and a finished call leaves no adapter behind. */
  lemma EveryInterleavingOrderly(ops: seq<Op>)
    ensures var c := After(ops);
            && Orderly(c.trace)
            && (c.loc.Acquiring? ==> !Live(c) && !c.renewer.Ticking?)
            && (c.loc.Releasing? ==> c.adapter.Down?)
            && (c.loc.Exited? ==> !Live(c) && Count(c.trace).started == Count(c.trace).returned)
  {
    AfterInv(ops);
  }

  // ---------------------------------------------------------------- every tenure ends, and the loop goes on

  /** The call ends only once the caller's context has: while that lives, whatever ends a tenure or an
      attempt leads to the retry interval, and from there back to acquiring. */
  lemma OnlyTheContextEndsIt(ops: seq<Op>)
    ensures After(ops).loc.Exited? ==> After(ops).ctxDone
    ensures !After(ops).ctxDone && After(ops).loc.AwaitDone? ==> !After(ops).loc.shutdown
    ensures !After(ops).ctxDone && After(ops).loc.Releasing? ==> !After(ops).loc.shutdown
  {
    AfterInv(ops);
  }

  lemma AfterOne(ops: seq<Op>, op: Op)
    ensures After(ops + [op]) == if Enabled(After(ops), op) then Next(After(ops), op) else After(ops)
  {
    assert (ops + [op])[..|ops|] == ops;
  }

  /** With a live context: a failed attempt, a lost lease whose adapter has returned and a finished release all
      leave the loop asleep, and waking up makes it acquire again. */
  lemma SleepsAndRetries(ops: seq<Op>, op: Op)
    requires !After(ops).ctxDone && Enabled(After(ops), op)
    ensures op.AcquireReturns? && !op.acquire.Won? ==> After(ops + [op]).loc.Sleeping?
    ensures op.AdapterAwaited? || op.ReleaseReturns? ==> After(ops + [op]).loc.Sleeping?
    ensures After(ops).loc.Sleeping? && op == SleepEnds(true) ==> After(ops + [op, CheckContext]).loc.Acquiring?
  {
    AfterOne(ops, op);
    AfterInv(ops);
    assert ops + [op, CheckContext] == ops + [op] + [CheckContext];
    AfterOne(ops + [op], CheckContext);
  }

  /** What moves an unfinished call on, when the lease server answers "held by another" and the goroutines get
      their turn. */
  function Onward(c: Call): Op {
    match c.loc
    case Top => CheckContext
    case Acquiring => AcquireReturns(HeldByOther)
    case Selecting =>
      if c.ctxDone then SeeContext
      else if c.adapter.Spawned? then AdapterStarts
      else if c.adapter.Up? then AdapterReturns
      else SeeAdapter
    case AwaitDone(_) => if c.adapter.Spawned? then AdapterStarts else if c.adapter.Up? then AdapterReturns else AdapterAwaited
    case AwaitRenew => if c.renewer.Gone? then RenewerAwaited else RenewerStops
    case Releasing(_) => ReleaseReturns
    case Sleeping => SleepEnds(!c.ctxDone)
    case Exited => CheckContext
  }

  /** How far the call is from acquiring again, or from its end once the context is done. */
  function Rank(c: Call): nat {
    var adapter := if c.adapter.Spawned? then 2 else if c.adapter.Up? then 1 else 0;
    var renewer := if c.renewer.Ticking? then 1 else 0;
    match c.loc
    case Top => 1
    case Acquiring => if c.ctxDone then 3 else 0
    case Sleeping => 2
    case Releasing(_) => 4
    case AwaitRenew => 5 + renewer
    case AwaitDone(_) => 5 + adapter
    case Selecting => 8 + adapter
    case Exited => 0
  }

  lemma OnwardStep(c: Call, n: Tally)
    requires Consistent(c, n) && Rank(c) > 0
    ensures Enabled(c, Onward(c)) && Rank(Next(c, Onward(c))) < Rank(c) && Next(c, Onward(c)).ctxDone == c.ctxDone
  {
  }

  /** The call is never stuck: wherever it stands, some steps of its own lead it back to acquiring, or to its
      end if the context is done. */
  lemma {:induction false} NeverStuck(ops: seq<Op>) returns (more: seq<Op>)
    ensures ContextEnds !in more
    ensures if After(ops).ctxDone then After(ops + more).loc.Exited? else After(ops + more).loc.Acquiring?
    decreases Rank(After(ops))
  {
    var c := After(ops);
    AfterInv(ops);
    more := [];
    assert ops + [] == ops;
    if Rank(c) > 0 {
      OnwardStep(c, Count(c.trace));
      AfterOne(ops, Onward(c));
      var rest := NeverStuck(ops + [Onward(c)]);
      more := [Onward(c)] + rest;
      assert ops + more == ops + [Onward(c)] + rest;
    }
  }

  /** The renew loop goes on through renewals and errors, and ends at once when the lease is lost; and then
      a waiting call ends the tenure. */
  lemma LostEndsRenewing(ops: seq<Op>, r: RenewAnswer)
    requires After(ops).renewer.Ticking?
    ensures var c := After(ops + [RenewReturns(r)]);
            && (if r.Lost? then c.renewer.Gone? else c.renewer.Ticking?)
            && (r.Lost? && c.loc.Selecting? ==> Enabled(c, SeeRenewer))
  {
    AfterOne(ops, RenewReturns(r));
  }

  function Tallied(ops: seq<Op>): Tally {
    Count(After(ops).trace)
  }

  lemma TallyStep(ops: seq<Op>, op: Op)
    ensures Tallied(ops + [op]) ==
            if Enabled(After(ops), op) && Emitted(op).Some? then Counted(Tallied(ops), Emitted(op).value) else Tallied(ops)
  {
    AfterInv(ops);
    AfterOne(ops, op);
    if Enabled(After(ops), op) {
      StepConsistent(After(ops), Tallied(ops), op);
      if Emitted(op).Some? {
        assert (After(ops).trace + [Emitted(op).value])[..|After(ops).trace|] == After(ops).trace;
      }
    }
  }

  lemma {:induction false} WonGrows(ops: seq<Op>, i: nat, j: nat)
    requires i <= j <= |ops|
    ensures Tallied(ops[..i]).won <= Tallied(ops[..j]).won
    decreases j
  {
    if i < j {
      WonGrows(ops, i, j - 1);
      TallyStep(ops[..j - 1], ops[j - 1]);
      assert ops[..j] == ops[..j - 1] + [ops[j - 1]];
    }
  }

  /** The loop is on its way to Release. */
  predicate ReleaseDue(c: Call) {
    (c.loc.AwaitDone? && c.loc.shutdown) || c.loc.AwaitRenew? || c.loc.Releasing?
  }

  predicate BetweenTenures(c: Call) {
    c.loc.Sleeping? || c.loc.Top? || c.loc.Acquiring? || c.loc.Exited?
  }

  /** Either Release is still due, or it has happened once since `released` were counted. */
  predicate Settles(c: Call, n: Tally, released: nat) {
    if ReleaseDue(c) then n.released == released else BetweenTenures(c) && n.released == released + 1
  }

  lemma SettlesStep(c: Call, n: Tally, op: Op, released: nat)
    requires Enabled(c, op)
    requires Settles(c, n, released) || (n.released == released && (op.SeeContext? || op.SeeAdapter?))
    ensures var n' := if Emitted(op).Some? then Counted(n, Emitted(op).value) else n;
            n'.won == n.won ==> Settles(Next(c, op), n', released)
  {
  }

  /** A tenure ended by the context, or by the adapter's own return, is released exactly once, before the call
      sleeps, tries again or ends. */
  lemma {:induction false} ReleasedOnce(ops: seq<Op>, i: nat, j: nat)
    requires i < j <= |ops| && Enabled(After(ops[..i]), ops[i]) && (ops[i].SeeContext? || ops[i].SeeAdapter?)
    requires Tallied(ops[..j]).won == Tallied(ops[..i]).won
    ensures if ReleaseDue(After(ops[..j])) then Tallied(ops[..j]).released == Tallied(ops[..i]).released
            else BetweenTenures(After(ops[..j])) && Tallied(ops[..j]).released == Tallied(ops[..i]).released + 1
    decreases j
  {
    var front, op := ops[..j - 1], ops[j - 1];
    assert ops[..j] == front + [op];
    WonGrows(ops, i, j - 1);
    WonGrows(ops, j - 1, j);
    TallyStep(front, op);
    AfterOne(front, op);
    if i < j - 1 {
      ReleasedOnce(ops, i, j - 1);
    }
    if Enabled(After(front), op) {
      SettlesStep(After(front), Tallied(front), op, Tallied(ops[..i]).released);
    }
  }

  /** A tenure whose lease was lost is never released. */
  lemma {:induction false} LostNotReleased(ops: seq<Op>, i: nat, j: nat)
    requires i < j <= |ops| && Enabled(After(ops[..i]), ops[i]) && ops[i].SeeRenewer?
    requires Tallied(ops[..j]).won == Tallied(ops[..i]).won
    ensures Tallied(ops[..j]).released == Tallied(ops[..i]).released
    ensures BetweenTenures(After(ops[..j])) || After(ops[..j]).loc == AwaitDone(false)
    decreases j
  {
    var front, op := ops[..j - 1], ops[j - 1];
    assert ops[..j] == front + [op];
    WonGrows(ops, i, j - 1);
    WonGrows(ops, j - 1, j);
    TallyStep(front, op);
    AfterOne(front, op);
    if i < j - 1 {
      LostNotReleased(ops, i, j - 1);
    }
  }

  /** The call run under a schedule: the loop waits in its select, goroutines move when scheduled. */
  method RunWithLease(schedule: seq<Op>) returns (c: Call)
    ensures c == After(schedule)
  {
    var loc, adapter, renewer, ctxDone, childCancelled, trace := Top, NoAdapter, NoRenewer, false, false, [];
    for i := 0 to |schedule|
      invariant Call(loc, adapter, renewer, ctxDone, childCancelled, trace) == After(schedule[..i])
    {
      assert schedule[..i + 1][..i] == schedule[..i];
      match schedule[i]
      case CheckContext =>
        if loc.Top? {
          loc := if ctxDone then Exited else Acquiring;
        }
      case AcquireReturns(a) =>
        if loc.Acquiring? {
          trace := trace + [Attempt(a.Won?)];
          if a.Won? {
            loc, adapter, renewer, childCancelled := Selecting, Spawned, Ticking, false;
          } else {
            loc := Sleeping;
          }
        }
      case SeeContext =>
        if loc.Selecting? && ctxDone {
          loc, childCancelled := AwaitDone(true), true;
        }
      case SeeAdapter =>
        if loc.Selecting? && adapter.Down? {
          loc, childCancelled := AwaitRenew, true;
        }
      case SeeRenewer =>
        if loc.Selecting? && renewer.Gone? {
          loc, childCancelled := AwaitDone(false), true;
        }
      case AdapterAwaited =>
        if loc.AwaitDone? && adapter.Down? {
          loc := if loc.shutdown then Releasing(true) else Sleeping;
        }
      case RenewerAwaited =>
        if loc.AwaitRenew? && renewer.Gone? {
          loc := Releasing(false);
        }
      case ReleaseReturns =>
        if loc.Releasing? {
          trace := trace + [Release];
          loc := if loc.shutdown then Exited else Sleeping;
        }
      case SleepEnds(slept) =>
        if loc.Sleeping? && (slept || ctxDone) {
          loc := if slept then Top else Exited;
        }
      case AdapterStarts =>
        if adapter.Spawned? {
          adapter, trace := Up, trace + [Start];
        }
      case AdapterReturns =>
        if adapter.Up? {
          adapter, trace := Down, trace + [Return];
        }
      case RenewReturns(r) =>
        if renewer.Ticking? && r.Lost? {
          renewer := Gone;
        }
      case RenewerStops =>
        if renewer.Ticking? && (ctxDone || childCancelled) {
          renewer := Gone;
        }
      case ContextEnds =>
        ctxDone := true;
    }
    assert schedule[..|schedule|] == schedule;
    c := Call(loc, adapter, renewer, ctxDone, childCancelled, trace);
  }

  // ---------------------------------------------------------------- many calls, one row

  const LEASE_TTL := 30000
  const LEASE_RENEW_INTERVAL := 10000

  /** Milliseconds. While an adapter runs uncancelled, a lease write follows the previous one within
      interval + lag; a cancelled adapter returns within drain. */
  datatype Timing = Timing(ttl: nat, interval: nat, lag: nat, drain: nat)

  datatype Row = Row(holder: nat, expires: int)

  /** A process: its call, its last lease write known to have succeeded, and by when a cancelled adapter
      has to be back. */
  datatype Proc = Proc(call: Call, written: int, due: int)

  datatype World = World(now: int, row: Option<Row>, procs: seq<Proc>)

  /** Time passes, or a process makes a step. `landed` says whether a lease call that failed took effect. */
  datatype Move = Pass(d: nat) | Do(p: nat, op: Op, landed: bool)

  /** The Leaser contract: a free, expired or own row can be taken; only an own row can be renewed. */
  predicate Grantable(w: World, p: nat) {
    w.row.None? || w.row.value.expires < w.now || w.row.value.holder == p
  }

  predicate Holds(w: World, p: nat) {
    w.row.Some? && w.row.value.holder == p
  }

  predicate LeaserSays(w: World, p: nat, op: Op) {
    match op
    case AcquireReturns(a) => (a.Won? ==> Grantable(w, p)) && (a.HeldByOther? ==> !Grantable(w, p))
    case RenewReturns(r) => (r.Renewed? ==> Holds(w, p)) && (r.Lost? ==> !Holds(w, p))
    case _ => true
  }

  function Deadline(t: Timing, p: Proc): int {
    if ChildDone(p.call) then p.due else p.written + t.interval + t.lag
  }

  predicate Allowed(t: Timing, w: World, m: Move) {
    match m
    case Pass(d) => forall p :: 0 <= p < |w.procs| && Live(w.procs[p].call) ==> w.now + d <= Deadline(t, w.procs[p])
    case Do(p, op, _) => p < |w.procs| && Enabled(w.procs[p].call, op) && LeaserSays(w, p, op)
  }

  /** What the step does to the row. */
  function RowAfter(t: Timing, w: World, p: nat, op: Op, landed: bool): Option<Row> {
    match op
    case AcquireReturns(a) =>
      if a.Won? || (a.AcquireError? && landed && Grantable(w, p)) then Some(Row(p, w.now + t.ttl)) else w.row
    case RenewReturns(r) =>
      if r.Renewed? || (r.RenewError? && landed && Holds(w, p)) then Some(Row(p, w.now + t.ttl)) else w.row
    case ReleaseReturns => if landed && Holds(w, p) then None else w.row
    case _ => w.row
  }

  function ProcAfter(t: Timing, w: World, p: Proc, op: Op): Proc
    requires Enabled(p.call, op)
  {
    var c := Next(p.call, op);
    Proc(c,
         if (op.AcquireReturns? && op.acquire.Won?) || (op.RenewReturns? && op.renew.Renewed?) then w.now else p.written,
         if (op.AcquireReturns? && op.acquire.Won?) || (ChildDone(c) && !ChildDone(p.call)) then w.now + t.drain else p.due)
  }

  function Apply(t: Timing, w: World, m: Move): World
    requires Allowed(t, w, m)
  {
    match m
    case Pass(d) => w.(now := w.now + d)
    case Do(p, op, landed) =>
      World(w.now, RowAfter(t, w, p, op, landed), w.procs[p := ProcAfter(t, w, w.procs[p], op)])
  }

  ghost predicate Step(t: Timing, w: World, m: Move, w': World) {
    Allowed(t, w, m) && w' == Apply(t, w, m)
  }

  function Idle(): Proc {
    Proc(FIRST, 0, 0)
  }

  ghost predicate Run(t: Timing, ws: seq<World>, ms: seq<Move>) {
    && |ws| == |ms| + 1
    && ws[0].row.None? && (forall p :: 0 <= p < |ws[0].procs| ==> ws[0].procs[p] == Idle())
    && forall n :: 0 <= n < |ms| ==> Step(t, ws[n], ms[n], ws[n + 1])
  }

  /** At most one process has an adapter that has not returned. */
  predicate Exclusive(w: World) {
    forall p, q :: 0 <= p < q < |w.procs| ==> !(Live(w.procs[p].call) && Live(w.procs[q].call))
  }

  /** A process with a live adapter holds the row, and its adapter is gone before the row lapses. */
  predicate CoveredProc(t: Timing, w: World, p: nat)
    requires p < |w.procs|
  {
    Live(w.procs[p].call) ==>
      && Holds(w, p)
      && w.now <= Deadline(t, w.procs[p]) <= w.row.value.expires
      && (!ChildDone(w.procs[p].call) ==> w.procs[p].written + t.ttl <= w.row.value.expires)
  }

  ghost predicate Covered(t: Timing, w: World) {
    && (forall p :: 0 <= p < |w.procs| ==> CallInv(w.procs[p].call))
    && (forall p :: 0 <= p < |w.procs| ==> CoveredProc(t, w, p))
    && (w.row.Some? ==> w.row.value.expires <= w.now + t.ttl)
  }

  lemma StepKeepsCovered(t: Timing, w: World, m: Move)
    requires t.interval + t.lag + t.drain <= t.ttl
    requires Covered(t, w) && Allowed(t, w, m)
    ensures Covered(t, Apply(t, w, m))
  {
    CallsKeepInv(t, w, m);
    forall q | 0 <= q < |w.procs| ensures CoveredProc(t, Apply(t, w, m), q) {
      match m
      case Pass(d) => WaitingCovered(t, w, d, q);
      case Do(p, op, landed) =>
        if q == p {
          MoverCovered(t, w, p, op, landed);
        } else {
          OthersCovered(t, w, p, op, landed, q);
        }
    }
  }

  lemma CallsKeepInv(t: Timing, w: World, m: Move)
    requires Allowed(t, w, m) && forall q :: 0 <= q < |w.procs| ==> CallInv(w.procs[q].call)
    ensures |Apply(t, w, m).procs| == |w.procs|
    ensures forall q :: 0 <= q < |w.procs| ==> CallInv(Apply(t, w, m).procs[q].call)
  {
    if m.Do? {
      CallKeepsInv(w.procs[m.p].call, m.op);
    }
  }

  lemma WaitingCovered(t: Timing, w: World, d: nat, q: nat)
    requires Covered(t, w) && Allowed(t, w, Pass(d)) && q < |w.procs|
    ensures CoveredProc(t, Apply(t, w, Pass(d)), q)
  {
    assert CoveredProc(t, w, q);
  }

  lemma MoverCovered(t: Timing, w: World, p: nat, op: Op, landed: bool)
    requires t.interval + t.lag + t.drain <= t.ttl
    requires Covered(t, w) && Allowed(t, w, Do(p, op, landed))
    ensures CoveredProc(t, Apply(t, w, Do(p, op, landed)), p)
  {
    assert CallInv(w.procs[p].call) && CoveredProc(t, w, p);
  }

  lemma OthersCovered(t: Timing, w: World, p: nat, op: Op, landed: bool, q: nat)
    requires Covered(t, w) && Allowed(t, w, Do(p, op, landed)) && q < |w.procs| && q != p
    ensures CoveredProc(t, Apply(t, w, Do(p, op, landed)), q)
  {
    assert CoveredProc(t, w, q);
  }

  lemma {:induction false} RunCovered(t: Timing, ws: seq<World>, ms: seq<Move>, n: nat)
    requires t.interval + t.lag + t.drain <= t.ttl
    requires Run(t, ws, ms) && n <= |ms|
    ensures Covered(t, ws[n])
  {
    if n == 0 {
      AfterInv([]);
    } else {
      RunCovered(t, ws, ms, n - 1);
      assert Step(t, ws[n - 1], ms[n - 1], ws[n]);
      StepKeepsCovered(t, ws[n - 1], ms[n - 1]);
    }
  }

  lemma CoveredExclusive(t: Timing, w: World)
    requires Covered(t, w)
    ensures Exclusive(w)
  {
    forall p, q | 0 <= p < q < |w.procs| ensures !(Live(w.procs[p].call) && Live(w.procs[q].call)) {
      assert CoveredProc(t, w, p) && CoveredProc(t, w, q);
    }
  }

  ghost predicate AlwaysExclusive(t: Timing) {
    forall ws, ms, n :: Run(t, ws, ms) && 0 <= n <= |ms| ==> Exclusive(ws[n])
  }

  /** Exactly when the lease excludes: in every run of any number of processes at most one adapter is
      live at any time, if and only if an adapter cancelled at the last possible moment still
      returns before the lease it last wrote lapses. */
  lemma ExclusionIff(t: Timing)
    ensures AlwaysExclusive(t) <==> t.interval + t.lag + t.drain <= t.ttl
  {
    if t.interval + t.lag + t.drain <= t.ttl {
      forall ws, ms, n | Run(t, ws, ms) && 0 <= n <= |ms| ensures Exclusive(ws[n]) {
        RunCovered(t, ws, ms, n);
        CoveredExclusive(t, ws[n]);
      }
    } else {
      var ws, ms := Overlap(t);
      assert !Exclusive(ws[|ms|]);
    }
  }

  // ---------------------------------------------------------------- the row is held, and comes free

  /** A process that has just won or renewed the lease keeps every other process out for exactly the TTL, as
      long as nobody writes the row. */
  lemma WriteProtects(t: Timing, ws: seq<World>, ms: seq<Move>, n: nat, q: nat, later: int)
    requires Run(t, ws, ms) && n < |ms| && ms[n].Do? && q != ms[n].p
    requires ms[n].op == AcquireReturns(Won) || ms[n].op == RenewReturns(Renewed)
    ensures Holds(ws[n + 1], ms[n].p)
    ensures Grantable(ws[n + 1].(now := later), q) <==> later > ws[n].now + t.ttl
  {
    assert Step(t, ws[n], ms[n], ws[n + 1]);
  }

  /** A release by the holder that reached the server lets everybody in at once, and one by anybody else
      changes nothing. */
  lemma ReleaseLetsIn(t: Timing, ws: seq<World>, ms: seq<Move>, n: nat, q: nat)
    requires Run(t, ws, ms) && n < |ms| && ms[n].Do? && ms[n].op.ReleaseReturns?
    ensures ms[n].landed && Holds(ws[n], ms[n].p) ==> Grantable(ws[n + 1], q)
    ensures !Holds(ws[n], ms[n].p) ==> ws[n + 1].row == ws[n].row
  {
    assert Step(t, ws[n], ms[n], ws[n + 1]);
  }

  lemma {:induction false} ExpiryBounded(t: Timing, ws: seq<World>, ms: seq<Move>, n: nat)
    requires Run(t, ws, ms) && n <= |ms|
    ensures ws[n].row.Some? ==> ws[n].row.value.expires <= ws[n].now + t.ttl
  {
    if n > 0 {
      ExpiryBounded(t, ws, ms, n - 1);
      assert Step(t, ws[n - 1], ms[n - 1], ws[n]);
    }
  }

  /** Whatever became of the holder: once the row has not been written for longer than the TTL, any process can
      take it. */
  lemma FreeAfterTTL(t: Timing, ws: seq<World>, ms: seq<Move>, n: nat, m: nat, q: nat)
    requires Run(t, ws, ms) && n <= m <= |ms|
    requires ws[m].row == ws[n].row && ws[m].now > ws[n].now + t.ttl
    ensures Grantable(ws[m], q)
  {
    ExpiryBounded(t, ws, ms, n);
  }

  /** Process 0 has just won the lease at time 0; process 1 has not moved yet. */
  function FirstWon(t: Timing): World {
    World(0, Some(Row(0, t.ttl)),
          [Proc(Call(Selecting, Spawned, Ticking, false, false, [Attempt(true)]), 0, t.drain), Idle()])
  }

  lemma WinsFirst(t: Timing) returns (ws: seq<World>, ms: seq<Move>)
    ensures Run(t, ws, ms) && |ms| == 2 && ws[2] == FirstWon(t)
  {
    ms := [Do(0, CheckContext, true), Do(0, AcquireReturns(Won), true)];
    var start := World(0, None, [Idle(), Idle()]);
    var asking := Apply(t, start, ms[0]);
    ws := [start, asking, Apply(t, asking, ms[1])];
    assert asking.procs[0] == Proc(FIRST.(loc := Acquiring), 0, 0);
    assert ws[2].procs[0] == FirstWon(t).procs[0];
    assert ws[2].procs == FirstWon(t).procs;
  }

  /** Process 1 takes a lapsed row while process 0's adapter is still live. */
  lemma WinsToo(t: Timing, w: World) returns (w1: World, w2: World)
    requires |w.procs| == 2 && Live(w.procs[0].call) && w.procs[1] == Idle() && w.row.Some? && w.row.value.expires < w.now
    ensures Step(t, w, Do(1, CheckContext, true), w1) && Step(t, w1, Do(1, AcquireReturns(Won), true), w2)
    ensures !Exclusive(w2)
  {
    w1 := Apply(t, w, Do(1, CheckContext, true));
    w2 := Apply(t, w1, Do(1, AcquireReturns(Won), true));
    assert Live(w2.procs[0].call) && Live(w2.procs[1].call);
  }

  lemma RunMore(t: Timing, ws: seq<World>, ms: seq<Move>, m: Move, w: World)
    requires Run(t, ws, ms) && Step(t, ws[|ms|], m, w)
    ensures Run(t, ws + [w], ms + [m])
  {
    var us, ns := ws + [w], ms + [m];
    forall n | 0 <= n < |ns| ensures Step(t, us[n], ns[n], us[n + 1]) {
      if n < |ms| {
        assert Step(t, ws[n], ms[n], ws[n + 1]);
      }
    }
  }

  /** Past the expiry of the row process 0 wrote, with its adapter allowed to live on. */
  lemma OutlivesRow(t: Timing) returns (ws: seq<World>, ms: seq<Move>)
    requires t.interval + t.lag + t.drain > t.ttl
    ensures Run(t, ws, ms)
    ensures var w := ws[|ms|];
            |w.procs| == 2 && Live(w.procs[0].call) && w.procs[1] == Idle() && w.row.Some? && w.row.value.expires < w.now
  {
    ws, ms := WinsFirst(t);
    var held := FirstWon(t);
    var c := t.interval + t.lag;
    if t.ttl + 1 <= c {
      var late := held.(now := t.ttl + 1);
      RunMore(t, ws, ms, Pass(t.ttl + 1), late);
      ws, ms := ws + [late], ms + [Pass(t.ttl + 1)];
    } else {
      var due := held.(now := c);
      RunMore(t, ws, ms, Pass(c), due);
      ws, ms := ws + [due], ms + [Pass(c)];
      var cancelled := Apply(t, due, Do(0, ContextEnds, true));
      RunMore(t, ws, ms, Do(0, ContextEnds, true), cancelled);
      ws, ms := ws + [cancelled], ms + [Do(0, ContextEnds, true)];
      var late := cancelled.(now := t.ttl + 1);
      RunMore(t, ws, ms, Pass(t.ttl + 1 - c), late);
      ws, ms := ws + [late], ms + [Pass(t.ttl + 1 - c)];
    }
  }

  /** Two adapters at once whenever the timing leaves room for it. */
  lemma Overlap(t: Timing) returns (ws: seq<World>, ms: seq<Move>)
    requires t.interval + t.lag + t.drain > t.ttl
    ensures Run(t, ws, ms) && !Exclusive(ws[|ms|])
  {
    ws, ms := OutlivesRow(t);
    var w1, w2 := WinsToo(t, ws[|ms|]);
    RunMore(t, ws, ms, Do(1, CheckContext, true), w1);
    RunMore(t, ws + [w1], ms + [Do(1, CheckContext, true)], Do(1, AcquireReturns(Won), true), w2);
    ws, ms := ws + [w1] + [w2], ms + [Do(1, CheckContext, true)] + [Do(1, AcquireReturns(Won), true)];
  }

  /** With the shipped constants: an adapter that returns within TTL minus the renew interval of its
      cancellation is safe exactly when lease writes are never late, and after two failed renewals
      nothing is left to drain in. */
  lemma ShippedConstants(lag: nat, drain: nat)
    ensures drain == LEASE_TTL - LEASE_RENEW_INTERVAL ==>
              (AlwaysExclusive(Timing(LEASE_TTL, LEASE_RENEW_INTERVAL, lag, drain)) <==> lag == 0)
    ensures lag == 2 * LEASE_RENEW_INTERVAL ==>
              (AlwaysExclusive(Timing(LEASE_TTL, LEASE_RENEW_INTERVAL, lag, drain)) <==> drain == 0)
  {
    ExclusionIff(Timing(LEASE_TTL, LEASE_RENEW_INTERVAL, lag, drain));
  }
}
