/** What the operations on the turn slots bring about, over every run: how a turn answers, when its context
    is done, who gets a slot, and where its messages go (internal/agent/turns.go). */
module TurnEffects {
  import opened Optional
  import opened Turns
  import opened TurnRuns

  // ---------------------------------------------------------------- cancellation

  /** Turn t is made by this step, for a caller whose own context is already done. */
  ghost predicate BornCancelled(s: Sys, op: Op, t: nat) {
    && t == |s.core.turns| && op.TakeSlot? && op.caller in s.callers && s.callers[op.caller].AtSlot?
    && Holder(s.core, s.callers[op.caller].key) == None
    && ContextOver(s, s.callers[op.caller].ctx)
  }

  /** A context is over when it was cancelled itself or when the turn it comes from was. */
  ghost predicate ContextOver(s: Sys, ctx: Ctx) {
    ctx.done || exists t: nat :: ctx.holder == Some(t) && t < |s.core.turns| && s.core.turns[t].cancelled
  }

  ghost predicate Cancels(s: Sys, op: Op, t: nat) {
    || BornCancelled(s, op, t)
    || (t < |s.core.turns|
        && ((op.Stop? && Holder(s.core, op.key) == Some(t)) || op == CancelParent(t) || op == CancelOwn(t)))
  }

  /** A turn's context is done exactly when the turn was stopped, its parent was cancelled, its own cleanup
      came that far, or its caller's context was already done as it got the slot. */
  lemma {:induction false} CancelledIff(states: seq<Sys>, ops: seq<Op>, n: nat, t: nat)
    requires Run(states, ops) && n <= |ops| && t < |states[n].core.turns|
    ensures states[n].core.turns[t].cancelled <==> exists i :: 0 <= i < n && Cancels(states[i], ops[i], t)
  {
    assert n > 0;
    CancelledStep(states, ops, n - 1, t);
    if t < |states[n - 1].core.turns| {
      CancelledIff(states, ops, n - 1, t);
    } else {
      NothingCancelsBefore(states, ops, n - 1, t);
    }
  }

  lemma CancelledStep(states: seq<Sys>, ops: seq<Op>, n: nat, t: nat)
    requires Run(states, ops) && n < |ops| && t < |states[n + 1].core.turns|
    ensures states[n + 1].core.turns[t].cancelled <==>
            (t < |states[n].core.turns| && states[n].core.turns[t].cancelled) || Cancels(states[n], ops[n], t)
  {
    assert Step(states[n], ops[n], states[n + 1]);
    if t < |states[n].core.turns| {
      CancelStep(states[n], ops[n], t);
    } else {
      RunKeepsInv(states, ops, n);
      NewTurnCancelled(states[n], ops[n], t);
    }
  }

  /** Nothing can cancel a turn before it is made. */
  lemma NothingCancelsBefore(states: seq<Sys>, ops: seq<Op>, n: nat, t: nat)
    requires Run(states, ops) && n <= |ops| && |states[n].core.turns| <= t
    ensures forall i :: 0 <= i < n ==> !Cancels(states[i], ops[i], t)
  {
    forall i | 0 <= i < n ensures !Cancels(states[i], ops[i], t) {
      RunGrows(states, ops, i + 1, n);
      assert Step(states[i], ops[i], states[i + 1]);
    }
  }

  lemma CancelStep(s: Sys, op: Op, t: nat)
    requires Enabled(s, op) && t < |s.core.turns|
    ensures t < |Next(s, op).core.turns|
    ensures Next(s, op).core.turns[t].cancelled <==> s.core.turns[t].cancelled || Cancels(s, op, t)
  {
  }

  lemma NewTurnCancelled(s: Sys, op: Op, t: nat)
    requires Inv(s) && Enabled(s, op) && |s.core.turns| <= t < |Next(s, op).core.turns|
    ensures Next(s, op).core.turns[t].cancelled <==> Cancels(s, op, t)
  {
  }

  /** A stop cancels the turn that holds the address, for ever. */
  lemma StopCancels(states: seq<Sys>, ops: seq<Op>, i: nat, j: nat, key: Address, t: nat)
    requires Run(states, ops) && i < j <= |ops| && ops[i] == Stop(key) && Holder(states[i].core, key) == Some(t)
    ensures t < |states[j].core.turns| && states[j].core.turns[t].cancelled
  {
    RunKeepsInv(states, ops, i);
    RunGrows(states, ops, i, j);
    assert Cancels(states[i], ops[i], t);
    CancelledIff(states, ops, j, t);
  }

  /** A context that is over fails on entering and at the top of the loop, and only such a one; and a turn
      that is got with one all the same is cancelled from birth. */
  lemma OnlyLiveContextsPass(states: seq<Sys>, ops: seq<Op>, j: nat)
    requires Run(states, ops) && j < |ops|
    ensures ops[j].Enter? ==> (states[j + 1].callers[ops[j].caller].Failed? <==> ContextOver(states[j], ops[j].ctx))
    ensures ops[j].LoopTop? ==>
      (states[j + 1].callers[ops[j].caller].Failed? <==> ContextOver(states[j], states[j].callers[ops[j].caller].ctx))
    ensures ops[j].TakeSlot? && states[j + 1].callers[ops[j].caller].Acquired? ==>
      var t := states[j + 1].callers[ops[j].caller].turn;
      t < |states[j + 1].core.turns|
      && (states[j + 1].core.turns[t].cancelled <==> ContextOver(states[j], states[j].callers[ops[j].caller].ctx))
  {
    assert Step(states[j], ops[j], states[j + 1]);
  }

  /** So after a stop, whoever acts with a context of the stopped turn fails, or gets a turn that is cancelled
      from birth. */
  lemma StoppedContextFails(states: seq<Sys>, ops: seq<Op>, i: nat, j: nat, key: Address, t: nat)
    requires Run(states, ops) && i < j < |ops| && ops[i] == Stop(key) && Holder(states[i].core, key) == Some(t)
    ensures ops[j].Enter? && ops[j].ctx.holder == Some(t) ==> states[j + 1].callers[ops[j].caller].Failed?
    ensures ops[j].LoopTop? && ops[j].caller in states[j].callers && Pending(states[j].callers[ops[j].caller], t)
      ==> states[j + 1].callers[ops[j].caller].Failed?
    ensures ops[j].TakeSlot? && ops[j].caller in states[j].callers && Pending(states[j].callers[ops[j].caller], t)
      && states[j + 1].callers[ops[j].caller].Acquired?
      ==> var u := states[j + 1].callers[ops[j].caller].turn;
          u < |states[j + 1].core.turns| && states[j + 1].core.turns[u].cancelled
  {
    StopCancels(states, ops, i, j, key, t);
    OnlyLiveContextsPass(states, ops, j);
  }

  // ---------------------------------------------------------------- how a turn answers

  /** The turn's worker is through with its inbox: its cleanup has begun, or a last drain found it empty. */
  ghost predicate Finishes(s: Sys, op: Op, t: nat) {
    && t < |s.core.turns|
    && (op == CloseIntake(t) || (op == Drain(t, true) && s.core.turns[t].steer == []))
  }

  ghost predicate Finished(states: seq<Sys>, ops: seq<Op>, n: nat, t: nat)
    requires n <= |ops| && |states| == |ops| + 1
  {
    exists i :: 0 <= i < n && Finishes(states[i], ops[i], t)
  }

  /** A stop always interrupts; a cancelled context only before the worker is through. */
  ghost predicate Interrupts(s: Sys, op: Op, t: nat, finished: bool) {
    || (op.Stop? && Holder(s.core, op.key) == Some(t))
    || ((op == CancelParent(t) || BornCancelled(s, op, t)) && !finished)
  }

  ghost predicate Interrupted(states: seq<Sys>, ops: seq<Op>, n: nat, t: nat)
    requires n <= |ops| && |states| == |ops| + 1
  {
    exists i :: 0 <= i < n && Interrupts(states[i], ops[i], t, Finished(states, ops, i, t))
  }

  ghost predicate BoundAt(states: seq<Sys>, ops: seq<Op>, n: nat, t: nat)
    requires n <= |ops| && |states| == |ops| + 1
  {
    exists i :: 0 <= i < n && ops[i].Bind? && ops[i].turn == t
  }

  function Answer(interrupted: bool, finished: bool, bound: bool): TurnState {
    if interrupted then Stopping else if finished then Finishing else if bound then Running else Starting
  }

  /** What a turn is in, from what has happened to it. */
  ghost predicate AnswersAs(t: Turn, interrupted: bool, finished: bool, bound: bool) {
    && Seen(t) == Answer(interrupted, finished, bound)
    && (t.state == Starting || t.state == Running ==> (t.state == Running <==> bound))
    && (t.session.Some? <==> bound)
  }

  ghost predicate Tracks(c: Core, t: nat, interrupted: bool, finished: bool, bound: bool) {
    if t < |c.turns| then AnswersAs(c.turns[t], interrupted, finished, bound) else !interrupted && !finished && !bound
  }

  /** One step brings the answer in line with the step. */
  ghost predicate KeepsTrack(s: Sys, op: Op, t: nat, interrupted: bool, finished: bool, bound: bool)
    requires Enabled(s, op)
  {
    Tracks(Next(s, op).core, t,
           interrupted || Interrupts(s, op, t, finished),
           finished || Finishes(s, op, t),
           bound || (op.Bind? && op.turn == t))
  }

  lemma AnswerStep(s: Sys, op: Op, t: nat, interrupted: bool, finished: bool, bound: bool)
    requires Inv(s) && Enabled(s, op) && Tracks(s.core, t, interrupted, finished, bound)
    ensures KeepsTrack(s, op, t, interrupted, finished, bound)
  {
    if op.TakeSlot? {
      SlotAnswers(s, op, t, interrupted, finished, bound);
    } else if op.Stop? {
      StopAnswers(s, op, t, interrupted, finished, bound);
    } else if op.Push? || op.Query? {
      HolderAnswers(s, op, t, interrupted, finished, bound);
    } else if op.Bind? || op.Drain? || op.CloseIntake? {
      WorkerAnswers(s, op, t, interrupted, finished, bound);
    } else if op.CancelOwn? || op.CancelParent? {
      assert op.CancelOwn? ==> PhaseOk(s.core.turns[op.turn], s.works[op.turn]);
      ContextAnswers(s, op, t, interrupted, finished, bound);
    } else {
      OtherAnswers(s, op, t, interrupted, finished, bound);
    }
  }

  lemma SlotAnswers(s: Sys, op: Op, t: nat, interrupted: bool, finished: bool, bound: bool)
    requires Enabled(s, op) && op.TakeSlot? && Tracks(s.core, t, interrupted, finished, bound)
    ensures KeepsTrack(s, op, t, interrupted, finished, bound)
  {
  }

  lemma StopAnswers(s: Sys, op: Op, t: nat, interrupted: bool, finished: bool, bound: bool)
    requires Enabled(s, op) && op.Stop? && Tracks(s.core, t, interrupted, finished, bound)
    ensures KeepsTrack(s, op, t, interrupted, finished, bound)
  {
  }

  lemma HolderAnswers(s: Sys, op: Op, t: nat, interrupted: bool, finished: bool, bound: bool)
    requires Enabled(s, op) && Tracks(s.core, t, interrupted, finished, bound)
    requires op.Push? || op.Query?
    ensures KeepsTrack(s, op, t, interrupted, finished, bound)
  {
  }

  lemma WorkerAnswers(s: Sys, op: Op, t: nat, interrupted: bool, finished: bool, bound: bool)
    requires Enabled(s, op) && Tracks(s.core, t, interrupted, finished, bound)
    requires op.Bind? || op.Drain? || op.CloseIntake?
    ensures KeepsTrack(s, op, t, interrupted, finished, bound)
  {
  }

  lemma ContextAnswers(s: Sys, op: Op, t: nat, interrupted: bool, finished: bool, bound: bool)
    requires Enabled(s, op) && Tracks(s.core, t, interrupted, finished, bound)
    requires op.CancelParent? || (op.CancelOwn? && Closed(s.core.turns[op.turn]))
    ensures KeepsTrack(s, op, t, interrupted, finished, bound)
  {
  }

  lemma OtherAnswers(s: Sys, op: Op, t: nat, interrupted: bool, finished: bool, bound: bool)
    requires Enabled(s, op) && Tracks(s.core, t, interrupted, finished, bound)
    requires op.Append? || op.SaveLeftover? || op.Release? || (MovesCaller(op) && !op.TakeSlot?)
    ensures KeepsTrack(s, op, t, interrupted, finished, bound)
  {
  }

  lemma {:induction false} TurnAnswersAs(states: seq<Sys>, ops: seq<Op>, n: nat, t: nat)
    requires Run(states, ops) && n <= |ops|
    ensures Tracks(states[n].core, t, Interrupted(states, ops, n, t), Finished(states, ops, n, t), BoundAt(states, ops, n, t))
  {
    if n > 0 {
      TurnAnswersAs(states, ops, n - 1, t);
      assert Step(states[n - 1], ops[n - 1], states[n]);
      RunKeepsInv(states, ops, n - 1);
      FlagsStep(states, ops, n - 1, t);
      AnswerStep(states[n - 1], ops[n - 1], t, Interrupted(states, ops, n - 1, t), Finished(states, ops, n - 1, t),
                 BoundAt(states, ops, n - 1, t));
    }
  }

  lemma FlagsStep(states: seq<Sys>, ops: seq<Op>, n: nat, t: nat)
    requires |states| == |ops| + 1 && n < |ops|
    ensures Finished(states, ops, n + 1, t) <==> Finished(states, ops, n, t) || Finishes(states[n], ops[n], t)
    ensures Interrupted(states, ops, n + 1, t) <==>
            Interrupted(states, ops, n, t) || Interrupts(states[n], ops[n], t, Finished(states, ops, n, t))
    ensures BoundAt(states, ops, n + 1, t) <==> BoundAt(states, ops, n, t) || (ops[n].Bind? && ops[n].turn == t)
  {
  }

  /** What the turn that holds an address is seen in: stopping once interrupted, else finishing once its
      worker is through, else running once a session is bound, else starting. */
  lemma SeenStateMeans(states: seq<Sys>, ops: seq<Op>, n: nat, t: nat)
    requires Run(states, ops) && n <= |ops| && t < |states[n].core.turns|
    ensures Seen(states[n].core.turns[t]) ==
            if Interrupted(states, ops, n, t) then Stopping
            else if Finished(states, ops, n, t) then Finishing
            else if BoundAt(states, ops, n, t) then Running
            else Starting
  {
    TurnAnswersAs(states, ops, n, t);
  }

  /** A message pushed to an address is buffered exactly when a turn holds it that was neither interrupted
      nor is through; then it goes to the end of that turn's inbox, else no inbox changes. */
  lemma PushAnswered(states: seq<Sys>, ops: seq<Op>, n: nat)
    requires Run(states, ops) && n < |ops| && ops[n].Push?
    ensures var r := PushResult(states[n].core, ops[n].key, ops[n].msg);
            match Holder(states[n].core, ops[n].key)
            case None => r == SteerResult(false, Idle) && states[n + 1] == states[n]
            case Some(t) =>
              && t < |states[n].core.turns| == |states[n + 1].core.turns|
              && (r.buffered <==> !Interrupted(states, ops, n, t) && !Finished(states, ops, n, t))
              && r.state == Answer(Interrupted(states, ops, n, t), Finished(states, ops, n, t), BoundAt(states, ops, n, t))
              && states[n + 1].core.turns[t].steer == states[n].core.turns[t].steer + (if r.buffered then [ops[n].msg] else [])
              && forall u :: 0 <= u < |states[n].core.turns| && u != t ==> states[n + 1].core.turns[u] == states[n].core.turns[u]
  {
    assert Step(states[n], ops[n], states[n + 1]);
    RunKeepsInv(states, ops, n);
    if Holder(states[n].core, ops[n].key).Some? {
      TurnAnswersAs(states, ops, n, states[n].core.active[ops[n].key]);
    }
  }

  // ---------------------------------------------------------------- who gets a slot

  /** A free address goes to the caller at the slot: as a new turn for its address and project, with an empty
      inbox and no session. A held one stays with its holder: the caller waits for that turn, or is
      told that it is busy. */
  lemma SlotTaken(states: seq<Sys>, ops: seq<Op>, n: nat)
    requires Run(states, ops) && n < |ops| && ops[n].TakeSlot?
    ensures ops[n].caller in states[n].callers && states[n].callers[ops[n].caller].AtSlot?
    ensures var p := states[n].callers[ops[n].caller];
            var got := states[n + 1].callers[ops[n].caller];
            match Holder(states[n].core, p.key)
            case None =>
              && got == Acquired(|states[n].core.turns|) && Holder(states[n + 1].core, p.key) == Some(got.turn)
              && |states[n + 1].core.turns| == got.turn + 1
              && var turn := states[n + 1].core.turns[got.turn];
                 turn.address == p.key && turn.project == p.project && !turn.done && turn.steer == [] && turn.session == None
            case Some(t) =>
              && got == (if p.wait then Waiting(p.ctx, p.key, p.project, t) else Busy)
              && states[n + 1].core == states[n].core
  {
    assert Step(states[n], ops[n], states[n + 1]);
  }

  /** A live context gets to the nested check for the address of its own turn and to the slot for any other;
      the check makes it nested exactly while its turn is not released. */
  lemma NestedWhileHeld(states: seq<Sys>, ops: seq<Op>, n: nat)
    requires Run(states, ops) && n < |ops|
    ensures ops[n].Enter? && !ContextOver(states[n], ops[n].ctx) ==>
      states[n + 1].callers[ops[n].caller] ==
        if exists t: nat :: ops[n].ctx.holder == Some(t) && t < |states[n].core.turns| && states[n].core.turns[t].address == ops[n].key
        then Nesting(ops[n].ctx, ops[n].key, ops[n].project, ops[n].wait)
        else AtLoop(ops[n].ctx, ops[n].key, ops[n].project, ops[n].wait)
    ensures ops[n].CheckNested? ==> ops[n].caller in states[n].callers && states[n].callers[ops[n].caller].Nesting?
    ensures ops[n].CheckNested? ==>
      var p := states[n].callers[ops[n].caller];
      && p.ctx.holder.Some? && p.ctx.holder.value < |states[n].core.turns|
      && states[n + 1].callers[ops[n].caller] ==
         if states[n].core.turns[p.ctx.holder.value].done then AtLoop(p.ctx, p.key, p.project, p.wait)
         else Nested(p.ctx.holder.value)
    ensures ops[n].LoopTop? ==> ops[n].caller in states[n].callers && states[n].callers[ops[n].caller].AtLoop?
    ensures ops[n].LoopTop? && !ContextOver(states[n], states[n].callers[ops[n].caller].ctx) ==>
      var p := states[n].callers[ops[n].caller];
      states[n + 1].callers[ops[n].caller] == AtSlot(p.ctx, p.key, p.project, p.wait)
  {
    assert Step(states[n], ops[n], states[n + 1]);
    if ops[n].CheckNested? {
      NestingOwn(states, ops, n, ops[n].caller);
      RunKeepsInv(states, ops, n);
      assert SlotMatchesDone(states[n], states[n].callers[ops[n].caller].ctx.holder.value);
    }
  }

  /** A waiter wakes only once the turn it waits for is released, and tries again, ready to wait once more; it
      gives up, and fails, only when its context is over. */
  lemma WaiterTriesAgain(states: seq<Sys>, ops: seq<Op>, n: nat)
    requires Run(states, ops) && n < |ops| && (ops[n].Wake? || ops[n].GiveUp?)
    ensures ops[n].caller in states[n].callers && states[n].callers[ops[n].caller].Waiting?
    ensures var p := states[n].callers[ops[n].caller];
            && states[n + 1].core == states[n].core
            && (ops[n].Wake? ==>
                  && p.on < |states[n].core.turns| && states[n].core.turns[p.on].done
                  && states[n + 1].callers[ops[n].caller] == AtLoop(p.ctx, p.key, p.project, true))
            && (ops[n].GiveUp? ==> ContextOver(states[n], p.ctx) && states[n + 1].callers[ops[n].caller].Failed?)
  {
    assert Step(states[n], ops[n], states[n + 1]);
  }

  ghost predicate OwnAddress(s: Sys, p: Caller) {
    p.Nesting? ==> p.ctx.holder.Some? && p.ctx.holder.value < |s.core.turns| && s.core.turns[p.ctx.holder.value].address == p.key
  }

  /** Only the address of the own turn is checked for nesting. */
  lemma {:induction false} NestingOwn(states: seq<Sys>, ops: seq<Op>, n: nat, c: nat)
    requires Run(states, ops) && n <= |ops| && c in states[n].callers
    ensures OwnAddress(states[n], states[n].callers[c])
  {
    assert n > 0;
    assert Step(states[n - 1], ops[n - 1], states[n]);
    StepGrows(states, ops, n - 1);
    if c in states[n - 1].callers {
      NestingOwn(states, ops, n - 1, c);
    }
    if MovesCaller(ops[n - 1]) && ops[n - 1].caller == c {
      NestingMoves(states[n - 1], ops[n - 1]);
    } else {
      OthersStand(states[n - 1], ops[n - 1], c);
      OwnAddressKept(states[n - 1], states[n], states[n].callers[c]);
    }
  }

  lemma NestingMoves(s: Sys, op: Op)
    requires Enabled(s, op) && MovesCaller(op)
    requires op.caller in s.callers ==> OwnAddress(s, s.callers[op.caller])
    ensures op.caller in Next(s, op).callers && OwnAddress(Next(s, op), Next(s, op).callers[op.caller])
  {
  }

  lemma OthersStand(s: Sys, op: Op, c: nat)
    requires Enabled(s, op) && c in Next(s, op).callers && !(MovesCaller(op) && op.caller == c)
    ensures c in s.callers && Next(s, op).callers[c] == s.callers[c]
  {
  }

  lemma OwnAddressKept(s: Sys, s': Sys, p: Caller)
    requires OwnAddress(s, p) && Grows(s.core, s'.core)
    ensures OwnAddress(s', p)
  {
  }

  // ---------------------------------------------------------------- where messages go

  /** A drain, and the start of the cleanup, take the whole inbox into the worker's hand. */
  lemma WholeInboxTaken(states: seq<Sys>, ops: seq<Op>, n: nat)
    requires Run(states, ops) && n < |ops| && (ops[n].Drain? || ops[n].CloseIntake?)
    ensures var t := ops[n].turn;
            && t < |states[n].core.turns| == |states[n + 1].core.turns| && t < |states[n + 1].works|
            && states[n + 1].works[t].hand == states[n].core.turns[t].steer && states[n + 1].core.turns[t].steer == []
            && states[n + 1].log == states[n].log
  {
    assert Step(states[n], ops[n], states[n + 1]);
  }

  /** A turn's session is the one bound last. */
  ghost predicate LastBound(ops: seq<Op>, n: nat, t: nat, session: Option<string>)
    requires n <= |ops|
  {
    match session
    case None => forall i :: 0 <= i < n ==> !(ops[i].Bind? && ops[i].turn == t)
    case Some(id) => exists i :: 0 <= i < n && ops[i] == Bind(t, id)
                       && forall k :: i < k < n ==> !(ops[k].Bind? && ops[k].turn == t)
  }

  lemma SessionStep(s: Sys, op: Op, t: nat)
    requires Enabled(s, op) && t < |s.core.turns|
    ensures t < |Next(s, op).core.turns|
    ensures Next(s, op).core.turns[t].session == if op.Bind? && op.turn == t then Some(op.session) else s.core.turns[t].session
  {
  }

  lemma LastBoundMore(ops: seq<Op>, n: nat, t: nat, session: Option<string>)
    requires n < |ops| && LastBound(ops, n, t, session)
    ensures LastBound(ops, n + 1, t, if ops[n].Bind? && ops[n].turn == t then Some(ops[n].session) else session)
  {
    if ops[n].Bind? && ops[n].turn == t {
      assert ops[n] == Bind(t, ops[n].session);
    }
  }

  lemma {:induction false} SessionIsLastBound(states: seq<Sys>, ops: seq<Op>, n: nat, t: nat)
    requires Run(states, ops) && n <= |ops| && t < |states[n].core.turns|
    ensures LastBound(ops, n, t, states[n].core.turns[t].session)
  {
    assert n > 0;
    assert Step(states[n - 1], ops[n - 1], states[n]);
    if t < |states[n - 1].core.turns| {
      SessionIsLastBound(states, ops, n - 1, t);
      SessionStep(states[n - 1], ops[n - 1], t);
      LastBoundMore(ops, n - 1, t, states[n - 1].core.turns[t].session);
    } else {
      TurnAnswersAs(states, ops, n, t);
      NewTurnUnbound(states, ops, n, t);
    }
  }

  lemma NewTurnUnbound(states: seq<Sys>, ops: seq<Op>, n: nat, t: nat)
    requires Run(states, ops) && 0 < n <= |ops| && |states[n - 1].core.turns| <= t < |states[n].core.turns|
    ensures states[n].core.turns[t].session == None
  {
    assert Step(states[n - 1], ops[n - 1], states[n]);
  }

  /** Appended messages go to the session bound last, or to the reserved address and project while none is:
      the next message in the worker's hand each time. */
  lemma AppendedWhere(states: seq<Sys>, ops: seq<Op>, n: nat)
    requires Run(states, ops) && n < |ops| && (ops[n].Append? || ops[n].SaveLeftover?)
    ensures var t := ops[n].turn;
            && t < |states[n].works| && t < |states[n].core.turns| && states[n].works[t].hand != []
            && states[n + 1].core == states[n].core
            && states[n + 1].works == states[n].works[t := states[n].works[t].(hand := states[n].works[t].hand[1..])]
            && |states[n + 1].log| == |states[n].log| + 1 && states[n + 1].log[..|states[n].log|] == states[n].log
            && var e := states[n + 1].log[|states[n].log|];
               && e.turn == t && e.msg == states[n].works[t].hand[0]
               && match e.session
                  case LookedUp(address, project) =>
                    LastBound(ops, n, t, None)
                    && address == states[n].core.turns[t].address && project == states[n].core.turns[t].project
                  case BoundTo(id) => LastBound(ops, n, t, Some(id))
  {
    assert Step(states[n], ops[n], states[n + 1]);
    SessionIsLastBound(states, ops, n, ops[n].turn);
  }
}
