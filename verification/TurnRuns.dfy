/** Every interleaving of callers, workers, producers and stops over the turn slots
    (internal/agent/turns.go; the loop's appendSteer in internal/agent/loop.go). */
module TurnRuns {
  import opened Optional
  import opened Turns

  /** How far a reservation's worker has come: using the turn, saving leftovers, cancelled, released. */
  datatype Phase = Working | CleaningUp | Cancelled | Gone

  /** A worker and the steering messages it has taken out of the inbox but not yet appended. */
  datatype Work = Work(phase: Phase, hand: seq<string>)

  /** A context: the turn it was derived from, if any, and whether it was cancelled otherwise. */
  datatype Ctx = Ctx(holder: Option<nat>, done: bool)

  datatype Caller =
    | Nesting(ctx: Ctx, key: Address, project: string, wait: bool)
    | AtLoop(ctx: Ctx, key: Address, project: string, wait: bool)
    | AtSlot(ctx: Ctx, key: Address, project: string, wait: bool)
    | Waiting(ctx: Ctx, key: Address, project: string, on: nat)
    | Acquired(turn: nat)
    | Nested(turn: nat)      // its finish does nothing
    | Failed
    | Busy

  /** Where an appended message went: the bound session, or the one looked up for the reserved project. */
  datatype Session = BoundTo(id: string) | LookedUp(address: Address, project: string)

  datatype Entry = Entry(session: Session, turn: nat, msg: string)

  datatype Sys = Sys(core: Core, works: seq<Work>, callers: map<nat, Caller>, log: seq<Entry>)

  datatype Op =
    // acquireTurn, step by step
    | Enter(caller: nat, ctx: Ctx, key: Address, project: string, wait: bool)
    | CheckNested(caller: nat)
    | LoopTop(caller: nat)
    | TakeSlot(caller: nat)
    | Wake(caller: nat)
    | GiveUp(caller: nat)
    | CancelCaller(caller: nat)
    // the worker
    | Bind(turn: nat, session: string)
    | Drain(turn: nat, finishIfEmpty: bool)
    | Append(turn: nat)
    // finishTurn, step by step
    | CloseIntake(turn: nat)
    | SaveLeftover(turn: nat)
    | CancelOwn(turn: nat)
    | Release(turn: nat)
    // everyone else
    | CancelParent(turn: nat)
    | Push(key: Address, msg: string)
    | Stop(key: Address)
    | Query(key: Address)

  predicate CtxDone(s: Sys, ctx: Ctx) {
    ctx.done || (ctx.holder.Some? && ctx.holder.value < |s.core.turns| && s.core.turns[ctx.holder.value].cancelled)
  }

  predicate InPhase(s: Sys, t: nat, p: Phase) {
    t < |s.core.turns| && t < |s.works| && s.works[t].phase == p
  }

  predicate Enabled(s: Sys, op: Op) {
    Wired(s.core) &&
    match op
    case Enter(c, ctx, _, _, _) => c !in s.callers && (ctx.holder.Some? ==> ctx.holder.value < |s.core.turns|)
    case CheckNested(c) => c in s.callers && s.callers[c].Nesting?
    case LoopTop(c) => c in s.callers && s.callers[c].AtLoop?
    case TakeSlot(c) => c in s.callers && s.callers[c].AtSlot?
    case Wake(c) => c in s.callers && s.callers[c].Waiting? && s.callers[c].on < |s.core.turns| && s.core.turns[s.callers[c].on].done
    case GiveUp(c) => c in s.callers && s.callers[c].Waiting? && CtxDone(s, s.callers[c].ctx)
    case CancelCaller(c) => c in s.callers && (s.callers[c].Nesting? || s.callers[c].AtLoop? || s.callers[c].AtSlot? || s.callers[c].Waiting?)
    case Bind(t, _) => InPhase(s, t, Working)
    case Drain(t, _) => InPhase(s, t, Working) && s.works[t].hand == [] && s.core.turns[t].session.Some?
    case Append(t) => InPhase(s, t, Working) && s.works[t].hand != [] && s.core.turns[t].session.Some?
    case CloseIntake(t) => InPhase(s, t, Working) && s.works[t].hand == []
    case SaveLeftover(t) => InPhase(s, t, CleaningUp) && s.works[t].hand != []
    case CancelOwn(t) => InPhase(s, t, CleaningUp) && s.works[t].hand == []
    case Release(t) => InPhase(s, t, Cancelled)
    case CancelParent(t) => t < |s.core.turns|
    case Push(_, _) => true
    case Stop(_) => true
    case Query(_) => true
  }

  function AppendHand(s: Sys, t: nat): Sys
    requires InPhase(s, t, Working) || InPhase(s, t, CleaningUp)
    requires s.works[t].hand != []
  {
    var turn := s.core.turns[t];
    var target := if turn.session.Some? then BoundTo(turn.session.value) else LookedUp(turn.address, turn.project);
    s.(log := s.log + [Entry(target, t, s.works[t].hand[0])],
       works := s.works[t := s.works[t].(hand := s.works[t].hand[1..])])
  }

  function Next(s: Sys, op: Op): Sys
    requires Enabled(s, op)
  {
    match op
    case Enter(c, ctx, key, project, wait) =>
      s.(callers := s.callers[c :=
        if CtxDone(s, ctx) then Failed
        else if ctx.holder.Some? && s.core.turns[ctx.holder.value].address == key then Nesting(ctx, key, project, wait)
        else AtLoop(ctx, key, project, wait)])
    case CheckNested(c) =>
      var p := s.callers[c];
      s.(callers := s.callers[c := if p.ctx.holder.Some? && Holder(s.core, p.key) == p.ctx.holder then Nested(p.ctx.holder.value)
                                   else AtLoop(p.ctx, p.key, p.project, p.wait)])
    case LoopTop(c) =>
      var p := s.callers[c];
      s.(callers := s.callers[c := if CtxDone(s, p.ctx) then Failed else AtSlot(p.ctx, p.key, p.project, p.wait)])
    case TakeSlot(c) =>
      var p := s.callers[c];
      match Holder(s.core, p.key) {
        case None => Sys(Reserve(s.core, p.key, p.project, CtxDone(s, p.ctx)), s.works + [Work(Working, [])], s.callers[c := Acquired(|s.core.turns|)], s.log)
        case Some(t) => s.(callers := s.callers[c := if p.wait then Waiting(p.ctx, p.key, p.project, t) else Busy])
      }
    case Wake(c) =>
      var p := s.callers[c];
      s.(callers := s.callers[c := AtLoop(p.ctx, p.key, p.project, true)])
    case GiveUp(c) => s.(callers := s.callers[c := Failed])
    case CancelCaller(c) =>
      var p := s.callers[c];
      s.(callers := s.callers[c := p.(ctx := p.ctx.(done := true))])
    case Bind(t, session) => s.(core := With(s.core, t, Bound(s.core.turns[t], session)))
    case Drain(t, finishIfEmpty) =>
      s.(core := With(s.core, t, Drained(s.core.turns[t], finishIfEmpty)),
         works := s.works[t := Work(Working, s.core.turns[t].steer)])
    case Append(t) => AppendHand(s, t)
    case CloseIntake(t) =>
      s.(core := With(s.core, t, Closing(s.core.turns[t])),
         works := s.works[t := Work(CleaningUp, s.core.turns[t].steer)])
    case SaveLeftover(t) => AppendHand(s, t)
    case CancelOwn(t) =>
      s.(core := With(s.core, t, s.core.turns[t].(cancelled := true)), works := s.works[t := Work(Cancelled, [])])
    case Release(t) => s.(core := Released(s.core, t), works := s.works[t := Work(Gone, [])])
    case CancelParent(t) => s.(core := With(s.core, t, s.core.turns[t].(cancelled := true)))
    case Push(key, msg) => s.(core := OnHolder(s.core, key, Pushed(HolderOf(s.core, key), msg).0))
    case Stop(key) => s.(core := OnHolder(s.core, key, Stopped(HolderOf(s.core, key))))
    case Query(key) => s.(core := OnHolder(s.core, key, Touch(HolderOf(s.core, key))))
  }

  const NOBODY := Turn(Address("", "", ""), "", Idle, false, false, [], None)

  function HolderOf(c: Core, key: Address): Turn
    requires Wired(c)
  {
    if key in c.active then c.turns[c.active[key]] else NOBODY
  }

  function OnHolder(c: Core, key: Address, t: Turn): Core
    requires Wired(c)
  {
    if key in c.active then With(c, c.active[key], t) else c
  }

  function PushResult(c: Core, key: Address, msg: string): SteerResult {
    if key in c.active && c.active[key] < |c.turns| then Pushed(c.turns[c.active[key]], msg).1 else SteerResult(false, Idle)
  }

  // ---------------------------------------------------------------- exclusion and wake-up

  /** Nothing can be accepted for this turn any more. */
  predicate Closed(t: Turn) {
    t.state == Finishing || t.state == Stopping || t.cancelled
  }

  /** Turn `t` holds its address exactly while its done channel is open. */
  ghost predicate SlotMatchesDone(s: Sys, t: nat)
    requires t < |s.core.turns|
  {
    !s.core.turns[t].done <==> Holder(s.core, s.core.turns[t].address) == Some(t)
  }

  ghost predicate PhaseOk(t: Turn, w: Work) {
    && (t.done <==> w.phase == Gone)
    && (w.phase == Cancelled || w.phase == Gone ==> t.cancelled && w.hand == [])
    && (w.phase != Working ==> Closed(t) && t.steer == [])
    && t.state != Idle
  }

  ghost predicate CallerOk(s: Sys, p: Caller) {
    match p
    case Waiting(ctx, key, _, on) =>
      && on < |s.core.turns| && s.core.turns[on].address == key
      && (ctx.holder.Some? ==> ctx.holder.value < |s.core.turns|)
    case Acquired(t) => t < |s.core.turns|
    case Nested(t) => t < |s.core.turns|
    case Failed => true
    case Busy => true
    case _ => p.ctx.holder.Some? ==> p.ctx.holder.value < |s.core.turns|
  }

  ghost predicate Inv(s: Sys) {
    && |s.works| == |s.core.turns|
    && (forall a :: a in s.core.active ==> s.core.active[a] < |s.core.turns| && s.core.turns[s.core.active[a]].address == a)
    && (forall t :: 0 <= t < |s.core.turns| ==> SlotMatchesDone(s, t))
    && (forall t :: 0 <= t < |s.core.turns| ==> PhaseOk(s.core.turns[t], s.works[t]))
    && (forall c :: c in s.callers ==> CallerOk(s, s.callers[c]))
  }

  /** Only one turn changes, and neither its address nor its done flag. */
  ghost predicate OneTurnTouched(s: Sys, s': Sys, t: nat) {
    && t < |s.core.turns| == |s'.core.turns| && s'.core.active == s.core.active && s'.callers == s.callers
    && s'.core == With(s.core, t, s'.core.turns[t])
    && s'.core.turns[t].address == s.core.turns[t].address && s'.core.turns[t].done == s.core.turns[t].done
    && t < |s.works| == |s'.works| && s'.works == s.works[t := s'.works[t]]
  }

  lemma TouchKeepsInv(s: Sys, s': Sys, t: nat)
    requires Inv(s) && |s'.core.turns| == |s.core.turns| && t < |s.core.turns| && t < |s'.works|
    requires OneTurnTouched(s, s', t)
    requires PhaseOk(s'.core.turns[t], s'.works[t])
    ensures Inv(s')
  {
    forall u | 0 <= u < |s.core.turns| ensures SlotMatchesDone(s', u) {
      assert SlotMatchesDone(s, u);
    }
  }

  /** Only what one caller knows changes. */
  lemma CallerMovesKeepsInv(s: Sys, s': Sys, c: nat, p: Caller)
    requires Inv(s) && CallerOk(s, p)
    requires s' == s.(callers := s.callers[c := p])
    ensures Inv(s')
  {
    forall u | 0 <= u < |s.core.turns| ensures SlotMatchesDone(s', u) {
      assert SlotMatchesDone(s, u);
    }
  }

  lemma ReserveKeepsInv(s: Sys, c: nat)
    requires Inv(s) && Enabled(s, TakeSlot(c)) && Holder(s.core, s.callers[c].key) == None
    ensures Inv(Next(s, TakeSlot(c)))
  {
    var s' := Next(s, TakeSlot(c));
    forall u | 0 <= u < |s'.core.turns| ensures SlotMatchesDone(s', u) {
      if u < |s.core.turns| {
        assert SlotMatchesDone(s, u);
      }
    }
  }

  lemma AcquireKeepsInv(s: Sys, op: Op)
    requires Inv(s) && Enabled(s, op)
    requires op.Enter? || op.CheckNested? || op.LoopTop? || op.TakeSlot? || op.Wake? || op.GiveUp? || op.CancelCaller?
    ensures Inv(Next(s, op))
  {
    var c := op.caller;
    assert c in s.callers ==> CallerOk(s, s.callers[c]);
    if op.TakeSlot? && Holder(s.core, s.callers[c].key) == None {
      ReserveKeepsInv(s, c);
    } else {
      CallerMovesKeepsInv(s, Next(s, op), c, Next(s, op).callers[c]);
    }
  }

  lemma ReleaseKeepsInv(s: Sys, t: nat)
    requires Inv(s) && Enabled(s, Release(t))
    ensures Holder(s.core, s.core.turns[t].address) == Some(t)
    ensures Inv(Next(s, Release(t)))
  {
    assert SlotMatchesDone(s, t) && PhaseOk(s.core.turns[t], s.works[t]);
    var s' := Next(s, Release(t));
    forall u | 0 <= u < |s'.core.turns| ensures SlotMatchesDone(s', u) {
      assert SlotMatchesDone(s, u);
    }
  }

  lemma StepKeepsInv(s: Sys, op: Op)
    requires Inv(s) && Enabled(s, op)
    ensures Inv(Next(s, op))
  {
    match op
    case Enter(_, _, _, _, _) => AcquireKeepsInv(s, op);
    case CheckNested(_) => AcquireKeepsInv(s, op);
    case LoopTop(_) => AcquireKeepsInv(s, op);
    case TakeSlot(_) => AcquireKeepsInv(s, op);
    case Wake(_) => AcquireKeepsInv(s, op);
    case GiveUp(_) => AcquireKeepsInv(s, op);
    case CancelCaller(_) => AcquireKeepsInv(s, op);
    case Release(t) => ReleaseKeepsInv(s, t);
    case Push(key, _) => HolderTouched(s, op, key);
    case Stop(key) => HolderTouched(s, op, key);
    case Query(key) => HolderTouched(s, op, key);
    case _ => TouchKeepsInv(s, Next(s, op), op.turn);
  }

  lemma HolderTouched(s: Sys, op: Op, key: Address)
    requires Inv(s) && Enabled(s, op)
    requires (op.Push? || op.Stop? || op.Query?) && op.key == key
    ensures Inv(Next(s, op))
  {
    if key in s.core.active {
      var t := s.core.active[key];
      assert SlotMatchesDone(s, t) && PhaseOk(s.core.turns[t], s.works[t]);
      TouchKeepsInv(s, Next(s, op), t);
    }
  }

  const START := Sys(Core(map[], []), [], map[], [])

  ghost predicate Step(s: Sys, op: Op, s': Sys) {
    Enabled(s, op) && s' == Next(s, op)
  }

  ghost predicate Run(states: seq<Sys>, ops: seq<Op>) {
    && |states| == |ops| + 1 && states[0] == START
    && forall n :: 0 <= n < |ops| ==> Step(states[n], ops[n], states[n + 1])
  }

  lemma {:induction false} RunKeepsInv(states: seq<Sys>, ops: seq<Op>, n: nat)
    requires Run(states, ops) && n <= |ops|
    ensures Inv(states[n])
  {
    if n > 0 {
      RunKeepsInv(states, ops, n - 1);
      assert Step(states[n - 1], ops[n - 1], states[n]);
      StepKeepsInv(states[n - 1], ops[n - 1]);
    }
  }

  /** An entry is in the active map exactly while its done channel is open, so two open
      reservations never share an address. */
  lemma HeldIffOpen(states: seq<Sys>, ops: seq<Op>, n: nat, t: nat, u: nat)
    requires Run(states, ops) && n <= |ops| && t < |states[n].core.turns| && u < |states[n].core.turns|
    ensures Holder(states[n].core, states[n].core.turns[t].address) == Some(t) <==> !states[n].core.turns[t].done
    ensures (&& !states[n].core.turns[t].done && !states[n].core.turns[u].done
             && states[n].core.turns[t].address == states[n].core.turns[u].address) ==> t == u
  {
    RunKeepsInv(states, ops, n);
    assert SlotMatchesDone(states[n], t) && SlotMatchesDone(states[n], u);
  }

  /** No waiter blocks on a released turn: it can wake, or the turn it waits for still holds the address. */
  lemma WaiterNeverStranded(states: seq<Sys>, ops: seq<Op>, n: nat, c: nat)
    requires Run(states, ops) && n <= |ops|
    requires c in states[n].callers && states[n].callers[c].Waiting?
    ensures var p := states[n].callers[c];
            Enabled(states[n], Wake(c)) || Holder(states[n].core, p.key) == Some(p.on)
  {
    RunKeepsInv(states, ops, n);
    assert CallerOk(states[n], states[n].callers[c]);
    assert SlotMatchesDone(states[n], states[n].callers[c].on);
  }

  /** An address changes hands only by its holder's own release: not by a stop, a cancellation, a nested
      acquire, or the late cleanup of an earlier turn. */
  lemma OnlyOwnReleaseFrees(states: seq<Sys>, ops: seq<Op>, n: nat, key: Address, t: nat)
    requires Run(states, ops) && n < |ops|
    requires Holder(states[n].core, key) == Some(t) && Holder(states[n + 1].core, key) != Some(t)
    ensures ops[n] == Release(t)
  {
    RunKeepsInv(states, ops, n);
    assert Step(states[n], ops[n], states[n + 1]);
    if ops[n].Release? {
      ReleaseKeepsInv(states[n], ops[n].turn);
    }
  }

  /** Turns are only ever added; addresses and projects are fixed, cancellation and release are final. */
  ghost predicate Grows(a: Core, b: Core) {
    && |a.turns| <= |b.turns|
    && forall t :: 0 <= t < |a.turns| ==>
         && a.turns[t].address == b.turns[t].address && a.turns[t].project == b.turns[t].project
         && (a.turns[t].cancelled ==> b.turns[t].cancelled)
         && (a.turns[t].done ==> b.turns[t].done)
         && (Closed(a.turns[t]) ==> Closed(b.turns[t]))
  }

  lemma RunGrows(states: seq<Sys>, ops: seq<Op>, i: nat, j: nat)
    requires Run(states, ops) && i <= j <= |ops|
    ensures Grows(states[i].core, states[j].core)
  {
    var cores := seq(|states|, k requires 0 <= k < |states| => states[k].core);
    forall n | 0 <= n < |ops| ensures Grows(cores[n], cores[n + 1]) {
      StepGrows(states, ops, n);
    }
    ChainGrows(cores, i, j);
  }

  lemma {:induction false} ChainGrows(cores: seq<Core>, i: nat, j: nat)
    requires i <= j < |cores|
    requires forall n :: 0 <= n < |cores| - 1 ==> Grows(cores[n], cores[n + 1])
    ensures Grows(cores[i], cores[j])
    decreases j
  {
    if i < j {
      ChainGrows(cores, i, j - 1);
      assert Grows(cores[j - 1], cores[j - 1 + 1]);
      GrowsTransitive(cores[i], cores[j - 1], cores[j]);
    }
  }

  lemma GrowsTransitive(a: Core, b: Core, c: Core)
    requires Grows(a, b) && Grows(b, c)
    ensures Grows(a, c)
  {
  }

  lemma StepGrows(states: seq<Sys>, ops: seq<Op>, n: nat)
    requires Run(states, ops) && n < |ops|
    ensures Grows(states[n].core, states[n + 1].core)
  {
    assert Step(states[n], ops[n], states[n + 1]);
    RunKeepsInv(states, ops, n);
  }

  /** Once turn t is released, a context derived from it fails on entering and at the top of the loop,
      and never again counts as nested. What it can still do is in `RetiredContextAcquiresIff`. */
  lemma RetiredContextFails(states: seq<Sys>, ops: seq<Op>, i: nat, j: nat, t: nat, c: nat)
    requires Run(states, ops) && i <= j < |ops|
    requires t < |states[i].core.turns| && states[i].core.turns[t].done
    ensures ops[j].Enter? && ops[j].ctx.holder == Some(t) ==> states[j + 1].callers[ops[j].caller] == Failed
    ensures (&& ops[j] == LoopTop(c) && c in states[j].callers && states[j].callers[c].AtLoop?
             && states[j].callers[c].ctx.holder == Some(t)) ==> states[j + 1].callers[c] == Failed
    ensures ops[j] == CheckNested(c) ==> states[j + 1].callers[c] != Nested(t)
  {
    assert Step(states[j], ops[j], states[j + 1]);
    RunGrows(states, ops, i, j);
    RunKeepsInv(states, ops, j);
    assert PhaseOk(states[j].core.turns[t], states[j].works[t]);
    ReleasedHoldsNothing(states[j], t);
  }

  /** The caller stands between the context check and the lock, with a context of turn t. */
  predicate StandsAtSlot(s: Sys, c: nat, t: nat, key: Address) {
    c in s.callers && s.callers[c].AtSlot? && s.callers[c].ctx.holder == Some(t) && s.callers[c].key == key
  }

  /** Nobody with a context of a released turn newly reaches the slot check. */
  lemma {:induction false} StoodAtSlot(states: seq<Sys>, ops: seq<Op>, i: nat, j: nat, t: nat, c: nat, key: Address)
    requires Run(states, ops) && i <= j <= |ops|
    requires t < |states[i].core.turns| && states[i].core.turns[t].done
    requires StandsAtSlot(states[j], c, t, key)
    ensures StandsAtSlot(states[i], c, t, key)
    decreases j
  {
    if i < j {
      assert Step(states[j - 1], ops[j - 1], states[j]);
      RetiredContextFails(states, ops, i, j - 1, t, c);
      StoodAtSlot(states, ops, i, j - 1, t, c, key);
    }
  }

  /** The caller is still on its way to a slot, with a context of turn t. */
  predicate Pending(p: Caller, t: nat) {
    (p.Nesting? || p.AtLoop? || p.AtSlot? || p.Waiting?) && p.ctx.holder == Some(t)
  }

  /** Exactly when a context derived from turn t still acquires after t's release: when its caller had
      passed the context check before the release and the address is free as it takes the lock. The
      turn it gets is not t's own address and is cancelled from birth, so it accepts no steering. */
  lemma RetiredContextAcquiresIff(states: seq<Sys>, ops: seq<Op>, i: nat, j: nat, t: nat, c: nat)
    requires Run(states, ops) && i <= j < |ops|
    requires t < |states[i].core.turns| && states[i].core.turns[t].done
    requires c in states[j].callers && Pending(states[j].callers[c], t)
    ensures var key := states[j].callers[c].key;
            var got := states[j + 1].callers[c];
            && (got.Acquired? <==> ops[j] == TakeSlot(c) && StandsAtSlot(states[i], c, t, key) && Holder(states[j].core, key) == None)
            && (got.Acquired? ==>
                  && key != states[i].core.turns[t].address
                  && got.turn < |states[j + 1].core.turns| && states[j + 1].core.turns[got.turn].cancelled)
  {
    assert Step(states[j], ops[j], states[j + 1]);
    if ops[j] == TakeSlot(c) {
      var key := states[j].callers[c].key;
      StoodAtSlot(states, ops, i, j, t, c, key);
      RunGrows(states, ops, i, j);
      NeverAtOwnSlot(states, ops, j, c, t);
      RunKeepsInv(states, ops, j);
      assert PhaseOk(states[j].core.turns[t], states[j].works[t]);
    }
  }

  /** What a caller does with the address of the very turn its context comes from. */
  ghost predicate OwnAddressOk(s: Sys, p: Caller) {
    forall t: nat :: Pending(p, t) && t < |s.core.turns| && p.key == s.core.turns[t].address ==>
      p.Nesting? || (p.AtLoop? && s.core.turns[t].done)
  }

  /** A context never gets as far as the slot check for the address of its own turn: it is nested while
      the turn holds the address, and fails afterwards. */
  lemma NeverAtOwnSlot(states: seq<Sys>, ops: seq<Op>, n: nat, c: nat, t: nat)
    requires Run(states, ops) && n <= |ops| && t < |states[n].core.turns|
    ensures !StandsAtSlot(states[n], c, t, states[n].core.turns[t].address)
  {
    if c in states[n].callers {
      OwnAddressAlwaysOk(states, ops, n, c);
    }
  }

  lemma {:induction false} OwnAddressAlwaysOk(states: seq<Sys>, ops: seq<Op>, n: nat, c: nat)
    requires Run(states, ops) && n <= |ops| && c in states[n].callers
    ensures OwnAddressOk(states[n], states[n].callers[c])
  {
    assert n > 0;
    assert Step(states[n - 1], ops[n - 1], states[n]);
    RunKeepsInv(states, ops, n - 1);
    if c in states[n - 1].callers {
      OwnAddressAlwaysOk(states, ops, n - 1, c);
    }
    StepKeepsOwnAddress(states[n - 1], ops[n - 1], c);
  }

  predicate MovesCaller(op: Op) {
    op.Enter? || op.CheckNested? || op.LoopTop? || op.TakeSlot? || op.Wake? || op.GiveUp? || op.CancelCaller?
  }

  lemma StepKeepsOwnAddress(s: Sys, op: Op, c: nat)
    requires Inv(s) && Enabled(s, op) && c in Next(s, op).callers
    requires c in s.callers ==> OwnAddressOk(s, s.callers[c])
    ensures OwnAddressOk(Next(s, op), Next(s, op).callers[c])
  {
    if MovesCaller(op) && op.caller == c {
      OwnMoveOk(s, op);
    } else {
      OthersMoveOk(s, op, c);
    }
  }

  lemma OthersMoveOk(s: Sys, op: Op, c: nat)
    requires Inv(s) && Enabled(s, op) && !(MovesCaller(op) && op.caller == c)
    requires c in s.callers && OwnAddressOk(s, s.callers[c])
    ensures c in Next(s, op).callers && OwnAddressOk(Next(s, op), Next(s, op).callers[c])
  {
    var p := s.callers[c];
    assert CallerOk(s, p);
    assert Next(s, op).callers[c] == p;
  }

  lemma OwnMoveOk(s: Sys, op: Op)
    requires Inv(s) && Enabled(s, op) && MovesCaller(op)
    requires op.caller in s.callers ==> OwnAddressOk(s, s.callers[op.caller])
    ensures OwnAddressOk(Next(s, op), Next(s, op).callers[op.caller])
  {
    var c := op.caller;
    if c in s.callers {
      var p := s.callers[c];
      assert CallerOk(s, p);
      if op.CheckNested? && p.ctx.holder.Some? {
        var t := p.ctx.holder.value;
        assert SlotMatchesDone(s, t) && PhaseOk(s.core.turns[t], s.works[t]);
      }
      if p.AtLoop? && p.ctx.holder.Some? {
        var t := p.ctx.holder.value;
        assert PhaseOk(s.core.turns[t], s.works[t]);
      }
    }
  }

  /** Turn 0 holds `a`, and caller 1, with its context, has passed the context check for `b`. */
  function InTheWindow(a: Address, b: Address, project: string): Sys {
    Sys(Core(map[a := 0], [Turn(a, project, Starting, false, false, [], None)]), [Work(Working, [])],
        map[0 := Acquired(0), 1 := AtSlot(Ctx(Some(0), false), b, project, true)], [])
  }

  lemma OpensWindow(a: Address, b: Address, project: string) returns (s: seq<Sys>, ops: seq<Op>)
    requires a != b
    ensures |s| == 6 && |ops| == 5 && s[0] == START && s[5] == InTheWindow(a, b, project)
    ensures forall n :: 0 <= n < 5 ==> Step(s[n], ops[n], s[n + 1])
  {
    var outside, inside := Ctx(None, false), Ctx(Some(0), false);
    ops := [Enter(0, outside, a, project, true), LoopTop(0), TakeSlot(0), Enter(1, inside, b, project, true), LoopTop(1)];
    var s1 := Next(START, ops[0]);
    var s2 := Next(s1, ops[1]);
    var s3 := Next(s2, ops[2]);
    var s4 := Next(s3, ops[3]);
    s := [START, s1, s2, s3, s4, Next(s4, ops[4])];
    assert s[5].callers == InTheWindow(a, b, project).callers;
  }

  /** The same after turn 0 has been released. */
  function WindowPassed(a: Address, b: Address, project: string): Sys {
    Sys(Core(map[], [Turn(a, project, Finishing, true, true, [], None)]), [Work(Gone, [])],
        map[0 := Acquired(0), 1 := AtSlot(Ctx(Some(0), false), b, project, true)], [])
  }

  lemma ReleaseInWindow(a: Address, b: Address, project: string, s: Sys)
    requires s == InTheWindow(a, b, project).(core := Core(map[a := 0], [Turn(a, project, Finishing, true, false, [], None)]),
                                              works := [Work(Cancelled, [])])
    ensures Step(s, Release(0), WindowPassed(a, b, project))
  {
    assert map[a := 0] - {a} == map[];
  }

  lemma ReleasesInWindow(a: Address, b: Address, project: string) returns (s: seq<Sys>)
    requires a != b
    ensures |s| == 4 && s[0] == InTheWindow(a, b, project) && s[3] == WindowPassed(a, b, project)
    ensures Step(s[0], CloseIntake(0), s[1]) && Step(s[1], CancelOwn(0), s[2]) && Step(s[2], Release(0), s[3])
  {
    var s0 := InTheWindow(a, b, project);
    var closing := Turn(a, project, Finishing, false, false, [], None);
    var s1 := s0.(core := Core(map[a := 0], [closing]), works := [Work(CleaningUp, [])]);
    var s2 := s1.(core := Core(map[a := 0], [closing.(cancelled := true)]), works := [Work(Cancelled, [])]);
    assert Step(s0, CloseIntake(0), s1);
    assert Step(s1, CancelOwn(0), s2);
    ReleaseInWindow(a, b, project, s2);
    s := [s0, s1, s2, WindowPassed(a, b, project)];
  }

  lemma UsesWindow(a: Address, b: Address, project: string) returns (s: seq<Sys>, ops: seq<Op>)
    requires a != b
    ensures |s| == 5 && |ops| == 4 && s[0] == InTheWindow(a, b, project) && ops[2] == Release(0)
    ensures forall n :: 0 <= n < 4 ==> Step(s[n], ops[n], s[n + 1])
    ensures |s[3].core.turns| == 1 && s[3].core.turns[0].done && StandsAtSlot(s[3], 1, 0, b)
    ensures 1 in s[4].callers && s[4].callers[1] == Acquired(1)
  {
    s := ReleasesInWindow(a, b, project);
    ops := [CloseIntake(0), CancelOwn(0), Release(0), TakeSlot(1)];
    s := s + [Next(WindowPassed(a, b, project), TakeSlot(1))];
  }

  /** The window is real: turn 0 is released after a caller with its context has passed the context check
      for another address, and that caller then acquires. */
  lemma RetiredContextCanAcquire(a: Address, b: Address, project: string) returns (states: seq<Sys>, ops: seq<Op>)
    requires a != b
    ensures Run(states, ops) && |ops| == 9 && ops[7] == Release(0)
    ensures |states[8].core.turns| == 1 && states[8].core.turns[0].done && StandsAtSlot(states[8], 1, 0, b)
    ensures 1 in states[9].callers && states[9].callers[1] == Acquired(1)
  {
    var s, p := OpensWindow(a, b, project);
    var s', p' := UsesWindow(a, b, project);
    states, ops := s + s'[1..], p + p';
    forall n | 0 <= n < |ops| ensures Step(states[n], ops[n], states[n + 1]) {
      if n < 5 {
        assert Step(s[n], p[n], s[n + 1]);
      } else {
        assert Step(s'[n - 5], p'[n - 5], s'[n - 4]);
      }
    }
  }

  lemma ReleasedHoldsNothing(s: Sys, t: nat)
    requires Inv(s) && t < |s.core.turns| && s.core.turns[t].done
    ensures forall key :: Holder(s.core, key) != Some(t)
  {
    assert SlotMatchesDone(s, t);
  }

  // ---------------------------------------------------------------- steering

  /** The op closes the inbox of turn t: a stop, the start of its cleanup, a cancelled parent, or a
      checkpoint drain that finds the inbox empty. */
  ghost predicate Closes(s: Sys, op: Op, t: nat) {
    && t < |s.core.turns|
    && match op
       case Stop(key) => Holder(s.core, key) == Some(t)
       case CloseIntake(u) => u == t
       case CancelParent(u) => u == t
       case Drain(u, finishIfEmpty) => u == t && finishIfEmpty && s.core.turns[t].steer == []
       case _ => false
  }

  /** After the inbox of a turn has been closed, no message is accepted for that turn again. */
  lemma ClosedInboxStaysClosed(states: seq<Sys>, ops: seq<Op>, i: nat, j: nat, t: nat)
    requires Run(states, ops) && i < j < |ops|
    requires Closes(states[i], ops[i], t)
    requires ops[j].Push? && Holder(states[j].core, ops[j].key) == Some(t)
    ensures !PushResult(states[j].core, ops[j].key, ops[j].msg).buffered
  {
    assert Step(states[i], ops[i], states[i + 1]) && Step(states[j], ops[j], states[j + 1]);
    assert Closed(states[i + 1].core.turns[t]);
    RunGrows(states, ops, i + 1, j);
  }

  /** The messages answered Buffered for turn t among the first n operations, in order. */
  function Accepted(states: seq<Sys>, ops: seq<Op>, n: nat, t: nat): seq<string>
    requires n <= |ops| && |states| == |ops| + 1
  {
    if n == 0 then []
    else Accepted(states, ops, n - 1, t) + AcceptedBy(states[n - 1], ops[n - 1], t)
  }

  function AcceptedBy(s: Sys, op: Op, t: nat): seq<string> {
    if op.Push? && Holder(s.core, op.key) == Some(t) && PushResult(s.core, op.key, op.msg).buffered then [op.msg]
    else []
  }

  /** What has been appended to sessions on behalf of turn t, in order. */
  function AppendedFor(log: seq<Entry>, t: nat): seq<string> {
    if log == [] then []
    else AppendedFor(log[..|log| - 1], t) + (if log[|log| - 1].turn == t then [log[|log| - 1].msg] else [])
  }

  /** Everything accepted for t is either appended, in the worker's hand, or still in the inbox. */
  function Traced(s: Sys, t: nat): seq<string> {
    AppendedFor(s.log, t) + (if t < |s.works| && t < |s.core.turns| then s.works[t].hand + s.core.turns[t].steer else [])
  }

  lemma AppendedMore(log: seq<Entry>, e: Entry, t: nat)
    ensures AppendedFor(log + [e], t) == AppendedFor(log, t) + (if e.turn == t then [e.msg] else [])
  {
    assert (log + [e])[..|log|] == log;
  }

  lemma StepTraces(s: Sys, op: Op, t: nat)
    requires Inv(s) && Enabled(s, op)
    ensures Traced(Next(s, op), t) == Traced(s, t) + AcceptedBy(s, op, t)
  {
    match op
    case Append(u) => AppendTraces(s, u, t);
    case SaveLeftover(u) => AppendTraces(s, u, t);
    case Push(key, msg) =>
      if key in s.core.active {
        PushTraces(s, op, t);
      }
    case Release(u) => assert PhaseOk(s.core.turns[u], s.works[u]);
    case _ =>
  }

  lemma PushTraces(s: Sys, op: Op, t: nat)
    requires Inv(s) && op.Push? && Enabled(s, op) && op.key in s.core.active
    ensures Traced(Next(s, op), t) == Traced(s, t) + AcceptedBy(s, op, t)
  {
    if t == s.core.active[op.key] {
      var a, h := AppendedFor(s.log, t), s.works[t].hand;
      assert a + (h + (s.core.turns[t].steer + [op.msg])) == a + (h + s.core.turns[t].steer) + [op.msg];
    }
  }

  lemma AppendTraces(s: Sys, u: nat, t: nat)
    requires InPhase(s, u, Working) || InPhase(s, u, CleaningUp)
    requires s.works[u].hand != []
    ensures Traced(AppendHand(s, u), t) == Traced(s, t)
  {
    var s' := AppendHand(s, u);
    AppendedMore(s.log, s'.log[|s.log|], t);
    if t == u {
      var a, h, rest := AppendedFor(s.log, t), s.works[t].hand, s.core.turns[t].steer;
      assert h == [h[0]] + h[1..];
      assert a + [h[0]] + (h[1..] + rest) == a + (h + rest);
    }
  }

  ghost predicate StepTraced(states: seq<Sys>, ops: seq<Op>, n: nat, t: nat)
    requires n < |ops| && |states| == |ops| + 1
  {
    Traced(states[n + 1], t) == Traced(states[n], t) + AcceptedBy(states[n], ops[n], t)
  }

  lemma {:induction false} TracesAddUp(states: seq<Sys>, ops: seq<Op>, n: nat, t: nat)
    requires |states| == |ops| + 1 && n <= |ops| && Traced(states[0], t) == []
    requires forall k :: 0 <= k < |ops| ==> StepTraced(states, ops, k, t)
    ensures Traced(states[n], t) == Accepted(states, ops, n, t)
  {
    if n > 0 {
      TracesAddUp(states, ops, n - 1, t);
      assert StepTraced(states, ops, n - 1, t);
    }
  }

  /** At every moment everything accepted for a turn is appended, in its worker's hand or in its inbox. */
  lemma SteeringTraced(states: seq<Sys>, ops: seq<Op>, n: nat, t: nat)
    requires Run(states, ops) && n <= |ops|
    ensures Traced(states[n], t) == Accepted(states, ops, n, t)
  {
    forall k | 0 <= k < |ops| ensures StepTraced(states, ops, k, t) {
      RunKeepsInv(states, ops, k);
      assert Step(states[k], ops[k], states[k + 1]);
      StepTraces(states[k], ops[k], t);
    }
    TracesAddUp(states, ops, n, t);
  }

  /** Steering conservation: at every moment of every run the appended messages of a turn are a prefix
      of the accepted ones, and once the turn is released they are exactly the accepted ones: each
      once, in acceptance order, none lost. */
  lemma SteeringConserved(states: seq<Sys>, ops: seq<Op>, n: nat, t: nat)
    requires Run(states, ops) && n <= |ops|
    ensures AppendedFor(states[n].log, t) <= Accepted(states, ops, n, t)
    ensures t < |states[n].core.turns| && states[n].core.turns[t].done
            ==> AppendedFor(states[n].log, t) == Accepted(states, ops, n, t)
  {
    SteeringTraced(states, ops, n, t);
    RunKeepsInv(states, ops, n);
    if t < |states[n].core.turns| {
      assert PhaseOk(states[n].core.turns[t], states[n].works[t]);
    }
  }

  /** Entry k of the log went to its turn's own session, or to the address and project it was reserved for. */
  ghost predicate HomeAt(s: Sys, k: nat)
    requires k < |s.log|
  {
    var e := s.log[k];
    && e.turn < |s.core.turns|
    && (e.session.LookedUp? ==> e.session == LookedUp(s.core.turns[e.turn].address, s.core.turns[e.turn].project))
  }

  ghost predicate LogHome(s: Sys) {
    forall k :: 0 <= k < |s.log| ==> HomeAt(s, k)
  }

  lemma StepKeepsHome(s: Sys, op: Op)
    requires Inv(s) && Enabled(s, op) && LogHome(s)
    ensures LogHome(Next(s, op))
  {
    var s' := Next(s, op);
    forall k | 0 <= k < |s'.log| ensures HomeAt(s', k) {
      if k < |s.log| {
        assert HomeAt(s, k) && s'.log[k] == s.log[k];
      }
    }
  }

  lemma {:induction false} RunKeepsHome(states: seq<Sys>, ops: seq<Op>, n: nat)
    requires Run(states, ops) && n <= |ops|
    ensures LogHome(states[n])
  {
    if n > 0 {
      RunKeepsHome(states, ops, n - 1);
      RunKeepsInv(states, ops, n - 1);
      assert Step(states[n - 1], ops[n - 1], states[n]);
      StepKeepsHome(states[n - 1], ops[n - 1]);
    }
  }

  /** A message saved without a bound session goes to the address and project the turn was reserved for. */
  lemma LeftoversGoHome(states: seq<Sys>, ops: seq<Op>, n: nat, k: nat)
    requires Run(states, ops) && n <= |ops| && k < |states[n].log|
    ensures var e := states[n].log[k];
            && e.turn < |states[n].core.turns|
            && (e.session.LookedUp? ==>
                  e.session == LookedUp(states[n].core.turns[e.turn].address, states[n].core.turns[e.turn].project))
  {
    RunKeepsHome(states, ops, n);
    assert HomeAt(states[n], k);
  }
}
