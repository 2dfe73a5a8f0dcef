/** Capacity reservation (internal/fairqueue/policy.go) driven by any sequence of reserves and releases. */
module Reservation {

  datatype Limits = Limits(global: int, base: int, burst: int, borrow: bool)

  /** CapacityLimits.Validate (internal/fairqueue/config.go). */
  predicate ValidLimits(l: Limits) {
    0 < l.base <= l.burst <= l.global
  }

  datatype Snapshot = Snapshot(global: int, tenant: int, active: int)

  datatype Fault = BadLimits | NegativeCount | TenantAboveGlobal | NoActiveTenant

  datatype Decision =
    | Regular | Borrowed
    | GlobalFull | TenantBurst | Competition | BorrowOff
    | Error(fault: Fault)

  predicate Granted(d: Decision) {
    d.Regular? || d.Borrowed?
  }

  function DecideReservation(l: Limits, s: Snapshot): Decision {
    if !ValidLimits(l) then Error(BadLimits)
    else if s.global < 0 || s.tenant < 0 then Error(NegativeCount)
    else if s.tenant > s.global then Error(TenantAboveGlobal)
    else if s.active <= 0 then Error(NoActiveTenant)
    else if s.global >= l.global then GlobalFull
    else if s.tenant >= l.burst then TenantBurst
    else if s.tenant < l.base then Regular
    else if !l.borrow then BorrowOff
    else if s.active == 1 then Borrowed
    else Competition
  }

  /** What is answered with an error, whatever the counts: limits that do not fit together, counts that
      cannot be, or nobody active. */
  lemma ErrorIff(l: Limits, s: Snapshot)
    ensures DecideReservation(l, s).Error? <==>
            || !(0 < l.base <= l.burst <= l.global)
            || s.global < 0 || s.tenant < 0 || s.tenant > s.global || s.active <= 0
  {
  }

  // ---------------------------------------------------------------- runs

  /** The tenants with queued work, and the reservations in flight by tenant. A tenant may hold
      reservations after its queue has run dry. */
  datatype State = State(active: set<string>, inflight: multiset<string>)

  const START := State({}, multiset{})

  datatype Op =
    | Activate(tenant: string)     // work was queued for the tenant
    | Retire(tenant: string)       // its queue ran dry
    | Reserve(tenant: string)
    | Release(tenant: string)

  /** What the decision sees: all counts are of the state, the tenant's own activity included. */
  function Observe(s: State, tenant: string): Snapshot {
    Snapshot(|s.inflight|, s.inflight[tenant], |s.active|)
  }

  function Decide(l: Limits, s: State, tenant: string): Decision {
    DecideReservation(l, Observe(s, tenant))
  }

  /** A tenant without queued work is turned away before any decision. */
  function Next(l: Limits, s: State, op: Op): State {
    match op
    case Activate(t) => s.(active := s.active + {t})
    case Retire(t) => s.(active := s.active - {t})
    case Reserve(t) =>
      if t in s.active && Granted(Decide(l, s, t)) then s.(inflight := s.inflight + multiset{t}) else s
    case Release(t) => s.(inflight := s.inflight - multiset{t})
  }

  function After(l: Limits, ops: seq<Op>): State {
    if ops == [] then START else Next(l, After(l, ops[..|ops| - 1]), ops[|ops| - 1])
  }

  lemma TenantWithinTotal(m: multiset<string>, t: string)
    ensures m[t] <= |m|
  {
    var own := multiset{}[t := m[t]];
    assert m == own + (m - own);
  }

  ghost predicate WithinCapacity(l: Limits, s: State) {
    |s.inflight| <= l.global && forall t :: s.inflight[t] <= l.burst
  }

  lemma StepWithinCapacity(l: Limits, s: State, op: Op)
    requires ValidLimits(l) && WithinCapacity(l, s)
    ensures WithinCapacity(l, Next(l, s, op))
  {
    match op
    case Reserve(t) =>
      assert |s.inflight + multiset{t}| == |s.inflight| + 1;
    case Release(t) =>
      assert |s.inflight - multiset{t}| <= |s.inflight|;
    case _ =>
  }

  /** Capacity: after any run, no more reservations are in flight than the global limit, and no
      tenant has more than its burst. */
  lemma {:induction false} CapacityHolds(l: Limits, ops: seq<Op>)
    requires ValidLimits(l)
    ensures WithinCapacity(l, After(l, ops))
  {
    if ops != [] {
      CapacityHolds(l, ops[..|ops| - 1]);
      StepWithinCapacity(l, After(l, ops[..|ops| - 1]), ops[|ops| - 1]);
    }
  }

  lemma AloneIff(active: set<string>, t: string)
    requires t in active
    ensures |active| == 1 <==> active == {t}
  {
    if |active| == 1 {
      assert |active - {t}| == 0;
      assert active == {t} + (active - {t});
    }
  }

  /** Decisions for an active tenant along a run are never errors. It is refused because the system is full;
      else because it is at its burst; else, from its base on, because borrowing is off or because others are
      active; and in no other case. It borrows from its base on. A sole borrower is refused only at its burst or in a full system. */
  lemma DecisionsAlongRuns(l: Limits, ops: seq<Op>, t: string)
    requires ValidLimits(l) && t in After(l, ops).active
    ensures var s := After(l, ops);
            var d := Decide(l, s, t);
            && !d.Error?
            && (d.GlobalFull? <==> |s.inflight| == l.global)
            && (d.TenantBurst? <==> |s.inflight| < l.global && s.inflight[t] == l.burst)
            && (d.BorrowOff? <==> |s.inflight| < l.global && l.base <= s.inflight[t] < l.burst && !l.borrow)
            && (d.Competition? <==>
                  |s.inflight| < l.global && l.base <= s.inflight[t] < l.burst && l.borrow && s.active != {t})
            && (d.Regular? <==> |s.inflight| < l.global && s.inflight[t] < l.base)
            && (Granted(d) <==> |s.inflight| < l.global && s.inflight[t] < l.burst
                                && (s.inflight[t] < l.base || (l.borrow && s.active == {t})))
            && (d.Borrowed? <==> Granted(d) && s.inflight[t] >= l.base)
            && (l.borrow && s.active == {t} && !Granted(d) ==> s.inflight[t] == l.burst || |s.inflight| == l.global)
  {
    var s := After(l, ops);
    TenantWithinTotal(s.inflight, t);
    CapacityHolds(l, ops);
    AloneIff(s.active, t);
  }

  /** Only its own granted request gives a tenant a reservation: one below its base, or as the only active
      tenant, allowed to borrow. */
  lemma StepGain(l: Limits, s: State, op: Op, t: string)
    ensures var now := Next(l, s, op).inflight[t];
            now > s.inflight[t] ==>
              && op == Reserve(t) && now == s.inflight[t] + 1
              && (now <= l.base || (l.borrow && s.active == {t}))
  {
    if op.Reserve? && op.tenant in s.active {
      AloneIff(s.active, op.tenant);
    }
  }

  lemma AfterLast(l: Limits, ops: seq<Op>)
    requires ops != []
    ensures After(l, ops) == Next(l, After(l, ops[..|ops| - 1]), ops[|ops| - 1])
  {
  }

  /** From step i on, two tenants or more are active whenever one asks. */
  ghost predicate Contended(l: Limits, ops: seq<Op>, i: nat) {
    forall k :: i <= k < |ops| && ops[k].Reserve? ==> |After(l, ops[..k]).active| >= 2
  }

  lemma ContendedFront(l: Limits, ops: seq<Op>, i: nat)
    requires i < |ops| && Contended(l, ops, i)
    ensures Contended(l, ops[..|ops| - 1], i)
    ensures ops[|ops| - 1].Reserve? ==> |After(l, ops[..|ops| - 1]).active| >= 2
  {
    var front := ops[..|ops| - 1];
    forall k | i <= k < |front| && front[k].Reserve? ensures |After(l, front[..k]).active| >= 2 {
      assert front[..k] == ops[..k] && front[k] == ops[k];
    }
  }

  function Larger(a: int, b: int): int {
    if a > b then a else b
  }

  /** While two tenants are active nobody gains a reservation at or above base: whatever the others do, a
      tenant ends with no more than its base, or than it had when the contention began. */
  lemma {:induction false} NoGainAboveBase(l: Limits, ops: seq<Op>, i: nat, t: string)
    requires i <= |ops| && Contended(l, ops, i)
    ensures After(l, ops).inflight[t] <= Larger(After(l, ops[..i]).inflight[t], l.base)
    decreases |ops|
  {
    if i == |ops| {
      assert ops[..i] == ops;
    } else {
      var front, op := ops[..|ops| - 1], ops[|ops| - 1];
      ContendedFront(l, ops, i);
      NoGainAboveBase(l, front, i, t);
      assert front[..i] == ops[..i];
      AfterLast(l, ops);
      StepGain(l, After(l, front), op, t);
    }
  }

  lemma NothingAtStart(l: Limits, ops: seq<Op>, t: string)
    requires After(l, ops).inflight[t] > 0
    ensures ops != []
  {
  }

  lemma CrossesBase(l: Limits, s: State, op: Op, t: string)
    requires s.inflight[t] <= l.base < Next(l, s, op).inflight[t]
    ensures op == Reserve(t) && l.borrow && s.active == {t}
  {
    StepGain(l, s, op, t);
  }

  /** A tenant above its base got there by borrowing while it was the only active tenant. */
  lemma {:induction false} AboveBaseMeansWasAlone(l: Limits, ops: seq<Op>, t: string) returns (k: nat)
    requires l.base >= 0 && After(l, ops).inflight[t] > l.base
    ensures k < |ops| && ops[k] == Reserve(t) && l.borrow && After(l, ops[..k]).active == {t}
    decreases |ops|
  {
    NothingAtStart(l, ops, t);
    k := |ops| - 1;
    AfterLast(l, ops);
    var front := ops[..k];
    if After(l, front).inflight[t] > l.base {
      k := AboveBaseMeansWasAlone(l, front, t);
      assert front[..k] == ops[..k];
    } else {
      CrossesBase(l, After(l, front), ops[k], t);
    }
  }

  function Times(t: string, n: nat): seq<Op> {
    if n == 0 then [Activate(t)] else Times(t, n - 1) + [Reserve(t)]
  }

  function Copies(t: string, n: nat): multiset<string> {
    multiset{}[t := n]
  }

  lemma AnotherCopy(t: string, n: nat)
    ensures Copies(t, n) + multiset{t} == Copies(t, n + 1)
    ensures |Copies(t, n)| == n == Copies(t, n)[t]
  {
  }

  /** The limits are reached: a sole tenant that keeps asking ends at exactly its burst, or at its base
      when borrowing is off. */
  lemma {:induction false} SoleTenantFills(l: Limits, t: string, n: nat)
    requires ValidLimits(l)
    ensures After(l, Times(t, n)) == State({t}, Copies(t, if n <= Cap(l) then n else Cap(l)))
  {
    var ops := Times(t, n);
    if n == 0 {
      assert ops[..0] == [];
      assert Copies(t, 0) == multiset{};
    } else {
      SoleTenantFills(l, t, n - 1);
      assert ops[..|ops| - 1] == Times(t, n - 1);
      SoleStep(l, t, if n - 1 <= Cap(l) then n - 1 else Cap(l));
    }
  }

  function Cap(l: Limits): int {
    if l.borrow then l.burst else l.base
  }

  lemma SoleStep(l: Limits, t: string, k: nat)
    requires ValidLimits(l) && k <= Cap(l)
    ensures Next(l, State({t}, Copies(t, k)), Reserve(t)) == State({t}, Copies(t, if k < Cap(l) then k + 1 else k))
  {
    AnotherCopy(t, k);
  }
}
