/** From the steering inbox to the saved session: the inbox protocol of `TurnRuns` and the loop of `ReAct`
    together (internal/agent/turns.go, internal/agent/loop.go). */
module Steering {
  import opened Messages
  import opened Optional
  import Turns
  import TurnRuns
  import R = ReAct
  import ToolRounds

  // ---------------------------------------------------------------- what the inbox hands out

  function Flat<T>(batches: seq<seq<T>>): seq<T> {
    if batches == [] then [] else Flat(batches[..|batches| - 1]) + batches[|batches| - 1]
  }

  function Inbox(s: TurnRuns.Sys, t: nat): seq<string> {
    if t < |s.core.turns| then s.core.turns[t].steer else []
  }

  /** What the drains of turn t among the first n operations hand to its worker, drain by drain. */
  function Batches(states: seq<TurnRuns.Sys>, ops: seq<TurnRuns.Op>, n: nat, t: nat): seq<seq<string>>
    requires n <= |ops| && |states| == |ops| + 1
  {
    if n == 0 then []
    else Batches(states, ops, n - 1, t) + if ops[n - 1].Drain? && ops[n - 1].turn == t then [Inbox(states[n - 1], t)] else []
  }

  /** What closing the intake of turn t leaves to its cleanup. */
  function Leftover(states: seq<TurnRuns.Sys>, ops: seq<TurnRuns.Op>, n: nat, t: nat): seq<string>
    requires n <= |ops| && |states| == |ops| + 1
  {
    if n == 0 then []
    else Leftover(states, ops, n - 1, t) + if ops[n - 1] == TurnRuns.CloseIntake(t) then Inbox(states[n - 1], t) else []
  }

  /** Turn t is not cleaning up yet. */
  predicate Open(s: TurnRuns.Sys, t: nat) {
    t < |s.works| ==> s.works[t].phase.Working?
  }

  lemma StepOpen(s: TurnRuns.Sys, op: TurnRuns.Op, t: nat)
    requires TurnRuns.Inv(s) && TurnRuns.Enabled(s, op)
    ensures var s' := TurnRuns.Next(s, op);
            && (Open(s', t) ==> Open(s, t))
            && (op.Drain? && op.turn == t ==> Open(s, t))
            && (op == TurnRuns.CloseIntake(t) ==> Open(s, t) && !Open(s', t))
  {
  }

  predicate Takes(op: TurnRuns.Op, t: nat) {
    (op.Drain? && op.turn == t) || op == TurnRuns.CloseIntake(t)
  }

  /** One operation: what is accepted goes to the end of the inbox, and a drain or a close takes all of it. */
  lemma StepTakes(s: TurnRuns.Sys, op: TurnRuns.Op, t: nat)
    requires TurnRuns.Inv(s) && TurnRuns.Enabled(s, op)
    ensures Inbox(s, t) + TurnRuns.AcceptedBy(s, op, t) ==
            (if Takes(op, t) then Inbox(s, t) else []) + Inbox(TurnRuns.Next(s, op), t)
  {
    if op.Push? {
      PushTakes(s, op, t);
    } else {
      Nothing(Inbox(s, t));
      assert [] + Inbox(TurnRuns.Next(s, op), t) == Inbox(TurnRuns.Next(s, op), t);
    }
  }

  lemma PushTakes(s: TurnRuns.Sys, op: TurnRuns.Op, t: nat)
    requires TurnRuns.Inv(s) && op.Push? && TurnRuns.Enabled(s, op)
    ensures Inbox(s, t) + TurnRuns.AcceptedBy(s, op, t) == [] + Inbox(TurnRuns.Next(s, op), t)
  {
    Nothing(Inbox(s, t));
    assert [] + Inbox(TurnRuns.Next(s, op), t) == Inbox(TurnRuns.Next(s, op), t);
  }

  /** Everything accepted for turn t has been handed to its worker, was left over, or waits. */
  ghost predicate Accounted(states: seq<TurnRuns.Sys>, ops: seq<TurnRuns.Op>, n: nat, t: nat)
    requires n <= |ops| && |states| == |ops| + 1
  {
    && TurnRuns.Accepted(states, ops, n, t) == Flat(Batches(states, ops, n, t)) + Leftover(states, ops, n, t) + Inbox(states[n], t)
    && (Open(states[n], t) ==> Leftover(states, ops, n, t) == [])
  }

  lemma FlatMore<T>(batches: seq<seq<T>>, batch: seq<T>)
    ensures Flat(batches + [batch]) == Flat(batches) + batch
  {
    assert (batches + [batch])[..|batches|] == batches;
  }

  lemma Nothing<T>(a: seq<T>)
    ensures a + [] == a
  {
  }

  lemma SumDrain<T>(f: seq<T>, inbox: seq<T>, more: seq<T>, left: seq<T>)
    requires inbox + more == inbox + left
    ensures f + [] + inbox + more == f + inbox + [] + left
  {
    Nothing(f);
    Nothing(f + inbox);
    assert f + inbox + more == f + (inbox + more);
    assert f + inbox + left == f + (inbox + left);
  }

  lemma SumClose<T>(f: seq<T>, l: seq<T>, inbox: seq<T>, more: seq<T>, left: seq<T>)
    requires inbox + more == inbox + left
    ensures f + l + inbox + more == f + (l + inbox) + left
  {
    assert f + l + inbox + more == f + l + (inbox + more);
    assert f + (l + inbox) + left == f + l + (inbox + left);
  }

  lemma SumOther<T>(f: seq<T>, l: seq<T>, inbox: seq<T>, more: seq<T>, left: seq<T>)
    requires inbox + more == [] + left
    ensures f + l + inbox + more == f + l + left
  {
    assert f + l + inbox + more == f + l + (inbox + more);
    assert [] + left == left;
  }

  lemma StepAccounted(states: seq<TurnRuns.Sys>, ops: seq<TurnRuns.Op>, n: nat, t: nat)
    requires n < |ops| && |states| == |ops| + 1
    requires TurnRuns.Inv(states[n]) && TurnRuns.Step(states[n], ops[n], states[n + 1])
    requires Accounted(states, ops, n, t)
    ensures Accounted(states, ops, n + 1, t)
  {
    var s, op, s' := states[n], ops[n], states[n + 1];
    var f, l := Flat(Batches(states, ops, n, t)), Leftover(states, ops, n, t);
    StepTakes(s, op, t);
    StepOpen(s, op, t);
    Nothing(Batches(states, ops, n, t));
    Nothing(l);
    if op.Drain? && op.turn == t {
      FlatMore(Batches(states, ops, n, t), Inbox(s, t));
      SumDrain(f, Inbox(s, t), TurnRuns.AcceptedBy(s, op, t), Inbox(s', t));
    } else if op == TurnRuns.CloseIntake(t) {
      SumClose(f, l, Inbox(s, t), TurnRuns.AcceptedBy(s, op, t), Inbox(s', t));
    } else {
      SumOther(f, l, Inbox(s, t), TurnRuns.AcceptedBy(s, op, t), Inbox(s', t));
    }
  }

  ghost predicate KeepsAccounted(states: seq<TurnRuns.Sys>, ops: seq<TurnRuns.Op>, n: nat, t: nat)
    requires n < |ops| && |states| == |ops| + 1
  {
    Accounted(states, ops, n, t) ==> Accounted(states, ops, n + 1, t)
  }

  lemma {:induction false} AccountedUpTo(states: seq<TurnRuns.Sys>, ops: seq<TurnRuns.Op>, n: nat, t: nat)
    requires |states| == |ops| + 1 && n <= |ops| && Inbox(states[0], t) == []
    requires forall k :: 0 <= k < |ops| ==> KeepsAccounted(states, ops, k, t)
    ensures Accounted(states, ops, n, t)
  {
    if n > 0 {
      AccountedUpTo(states, ops, n - 1, t);
      assert KeepsAccounted(states, ops, n - 1, t);
    }
  }

  lemma AlwaysAccounted(states: seq<TurnRuns.Sys>, ops: seq<TurnRuns.Op>, n: nat, t: nat)
    requires TurnRuns.Run(states, ops) && n <= |ops|
    ensures Accounted(states, ops, n, t)
  {
    forall k | 0 <= k < |ops| ensures KeepsAccounted(states, ops, k, t) {
      TurnRuns.RunKeepsInv(states, ops, k);
      assert TurnRuns.Step(states[k], ops[k], states[k + 1]);
      if Accounted(states, ops, k, t) {
        StepAccounted(states, ops, k, t);
      }
    }
    AccountedUpTo(states, ops, n, t);
  }

  /** Once turn t is released, what was accepted for it is what its drains handed out, then its leftover. */
  lemma AcceptedIsHandedOut(states: seq<TurnRuns.Sys>, ops: seq<TurnRuns.Op>, n: nat, t: nat)
    requires TurnRuns.Run(states, ops) && n <= |ops|
    requires t < |states[n].core.turns| && states[n].core.turns[t].done
    ensures TurnRuns.Accepted(states, ops, n, t) == Flat(Batches(states, ops, n, t)) + Leftover(states, ops, n, t)
  {
    AlwaysAccounted(states, ops, n, t);
    TurnRuns.RunKeepsInv(states, ops, n);
    assert TurnRuns.PhaseOk(states[n].core.turns[t], states[n].works[t]);
    Nothing(Flat(Batches(states, ops, n, t)) + Leftover(states, ops, n, t));
  }

  // ---------------------------------------------------------------- what the loop saves

  /** Everything a turn appends to its session, in order. */
  function Appended(cfg: R.Config, t: seq<R.Event>): seq<Message> {
    if t == [] then [] else Appended(cfg, t[..|t| - 1]) + R.Added(cfg, t[|t| - 1])
  }

  /** The messages of the user in a list. */
  function Users(ms: seq<Message>): seq<Message> {
    if ms == [] then [] else Users(ms[..|ms| - 1]) + if ms[|ms| - 1].role.User? then [ms[|ms| - 1]] else []
  }

  lemma {:induction false} UsersConcat(a: seq<Message>, b: seq<Message>)
    ensures Users(a + b) == Users(a) + Users(b)
  {
    if b == [] {
      Nothing(a);
      Nothing(Users(a));
    } else {
      var front := b[..|b| - 1];
      UsersConcat(a, front);
      assert (a + b)[..|a + b| - 1] == a + front;
      assert (a + b)[|a + b| - 1] == b[|b| - 1];
    }
  }

  lemma {:induction false} NoUsers(ms: seq<Message>)
    requires forall k :: 0 <= k < |ms| ==> !ms[k].role.User?
    ensures Users(ms) == []
  {
    if ms != [] {
      NoUsers(ms[..|ms| - 1]);
    }
  }

  lemma {:induction false} AllUsers(ms: seq<Message>)
    requires forall k :: 0 <= k < |ms| ==> ms[k].role.User?
    ensures Users(ms) == ms
  {
    if ms != [] {
      AllUsers(ms[..|ms| - 1]);
    }
  }

  /** The first k drains of the loop's world. */
  function Drains(w: R.World, k: nat): seq<seq<Message>> {
    if k == 0 then [] else Drains(w, k - 1) + [w.steer(k - 1)]
  }

  /** The user's messages of a log so far are its drains so far. */
  ghost predicate UsersMatch(cfg: R.Config, w: R.World, t: seq<R.Event>) {
    Users(Appended(cfg, t)) == Flat(Drains(w, R.Tells(t)))
  }

  lemma AppendedMore(cfg: R.Config, t: seq<R.Event>, e: R.Event)
    ensures Appended(cfg, t + [e]) == Appended(cfg, t) + R.Added(cfg, e)
    ensures R.Tells(t + [e]) == R.Tells(t) + if e.Tell? then 1 else 0
  {
    assert (t + [e])[..|t|] == t;
  }

  lemma UsersPlusNone(a: seq<Message>, b: seq<Message>)
    requires Users(b) == []
    ensures Users(a + b) == Users(a)
  {
    UsersConcat(a, b);
    Nothing(Users(a));
  }

  lemma UsersPlusAll(a: seq<Message>, b: seq<Message>)
    requires forall k :: 0 <= k < |b| ==> b[k].role.User?
    ensures Users(a + b) == Users(a) + b
  {
    UsersConcat(a, b);
    AllUsers(b);
  }

  lemma OneMoreDrain(w: R.World, k: nat)
    ensures Flat(Drains(w, k + 1)) == Flat(Drains(w, k)) + w.steer(k)
  {
    FlatMore(Drains(w, k), w.steer(k));
  }

  lemma ToldByUser(cfg: R.Config, w: R.World, base: seq<Message>, pre: seq<R.Event>, e: R.Event)
    requires R.Legal(cfg, w, base, pre, e) && R.Fair(cfg, w) && e.Tell?
    ensures e.steer == w.steer(R.Tells(pre)) == R.Added(cfg, e)
    ensures forall k :: 0 <= k < |e.steer| ==> e.steer[k].role.User?
  {
  }

  lemma UsersTold(cfg: R.Config, w: R.World, pre: seq<R.Event>, e: R.Event)
    requires e.Tell? && e.steer == w.steer(R.Tells(pre)) && UsersMatch(cfg, w, pre)
    requires forall k :: 0 <= k < |e.steer| ==> e.steer[k].role.User?
    ensures UsersMatch(cfg, w, pre + [e])
  {
    AppendedMore(cfg, pre, e);
    UsersPlusAll(Appended(cfg, pre), e.steer);
    OneMoreDrain(w, R.Tells(pre));
  }

  lemma UsersElse(cfg: R.Config, w: R.World, pre: seq<R.Event>, e: R.Event)
    requires !e.Tell? && Users(R.Added(cfg, e)) == [] && UsersMatch(cfg, w, pre)
    ensures UsersMatch(cfg, w, pre + [e])
  {
    AppendedMore(cfg, pre, e);
    UsersPlusNone(Appended(cfg, pre), R.Added(cfg, e));
  }

  lemma UsersStep(cfg: R.Config, w: R.World, base: seq<Message>, pre: seq<R.Event>, e: R.Event)
    requires R.Legal(cfg, w, base, pre, e) && R.Fair(cfg, w) && UsersMatch(cfg, w, pre)
    ensures UsersMatch(cfg, w, pre + [e])
  {
    if e.Tell? {
      ToldByUser(cfg, w, base, pre, e);
      UsersTold(cfg, w, pre, e);
    } else {
      AddedNoUsers(cfg, w, base, pre, e);
      UsersElse(cfg, w, pre, e);
    }
  }

  /** Of all a turn appends, the user's messages are its drains, in order. */
  lemma {:induction false} UsersAreDrains(cfg: R.Config, w: R.World, base: seq<Message>, t: seq<R.Event>)
    requires R.LegalRun(cfg, w, base, t) && R.Fair(cfg, w)
    ensures UsersMatch(cfg, w, t)
  {
    if t != [] {
      var pre, e := t[..|t| - 1], t[|t| - 1];
      R.LegalLast(cfg, w, base, t);
      UsersAreDrains(cfg, w, base, pre);
      UsersStep(cfg, w, base, pre, e);
      assert t == pre + [e];
    }
  }

  lemma AddedNoUsers(cfg: R.Config, w: R.World, base: seq<Message>, pre: seq<R.Event>, e: R.Event)
    requires R.Legal(cfg, w, base, pre, e) && !e.Tell?
    ensures Users(R.Added(cfg, e)) == []
  {
    NoUsers(R.Added(cfg, e));
  }

  function AsMessages(texts: seq<string>): (ms: seq<Message>)
    ensures |ms| == |texts|
    ensures forall k :: 0 <= k < |ms| ==> ms[k] == Plain(User, texts[k])
  {
    seq(|texts|, k requires 0 <= k < |texts| => Plain(User, texts[k]))
  }

  /** The loop's drains are those of turn t. */
  ghost predicate SameDrains(w: R.World, batches: seq<seq<string>>) {
    forall k :: 0 <= k < |batches| ==> w.steer(k) == AsMessages(batches[k])
  }

  lemma {:induction false} DrainsAreBatches(w: R.World, batches: seq<seq<string>>)
    requires SameDrains(w, batches)
    ensures Flat(Drains(w, |batches|)) == AsMessages(Flat(batches))
  {
    if batches != [] {
      var front, last := batches[..|batches| - 1], batches[|batches| - 1];
      DrainsAreBatches(w, front);
      FlatMore(Drains(w, |front|), w.steer(|front|));
      assert AsMessages(Flat(front) + last) == AsMessages(Flat(front)) + AsMessages(last);
    }
  }

  lemma LoopSide(cfg: R.Config, w: R.World, base: seq<Message>, t: seq<R.Event>, batches: seq<seq<string>>)
    requires R.LegalRun(cfg, w, base, t) && R.Fair(cfg, w) && R.Tells(t) == |batches| && SameDrains(w, batches)
    ensures Users(Appended(cfg, t)) == AsMessages(Flat(batches))
  {
    UsersAreDrains(cfg, w, base, t);
    DrainsAreBatches(w, batches);
  }

  lemma AsMessagesConcat(a: seq<string>, b: seq<string>)
    ensures AsMessages(a + b) == AsMessages(a) + AsMessages(b)
  {
  }

  /** From inbox to session: when turn u is over, the user's messages its loop appended, followed by what
      finishing it appends, are exactly the steering accepted for it: each message once, in the order of
      acceptance. */
  lemma SteeringReachesSession(states: seq<TurnRuns.Sys>, ops: seq<TurnRuns.Op>, n: nat, u: nat,
                               cfg: R.Config, w: R.World, base: seq<Message>, t: seq<R.Event>)
    requires TurnRuns.Run(states, ops) && n <= |ops|
    requires u < |states[n].core.turns| && states[n].core.turns[u].done
    requires R.LegalRun(cfg, w, base, t) && R.Fair(cfg, w)
    requires R.Tells(t) == |Batches(states, ops, n, u)| && SameDrains(w, Batches(states, ops, n, u))
    ensures Users(Appended(cfg, t)) + AsMessages(Leftover(states, ops, n, u)) == AsMessages(TurnRuns.Accepted(states, ops, n, u))
  {
    LoopSide(cfg, w, base, t, Batches(states, ops, n, u));
    AcceptedIsHandedOut(states, ops, n, u);
    AsMessagesConcat(Flat(Batches(states, ops, n, u)), Leftover(states, ops, n, u));
  }

  lemma {:induction false} SessionIsAppended(cfg: R.Config, base: seq<Message>, t: seq<R.Event>)
    requires !R.Rebuilt(t)
    ensures R.SessionAfter(cfg, base, t) == base + Appended(cfg, t)
  {
    if t == [] {
      Nothing(base);
    } else {
      var pre, e := t[..|t| - 1], t[|t| - 1];
      assert t == pre + [e];
      R.SnocFlags(pre, e);
      SessionIsAppended(cfg, base, pre);
      assert base + Appended(cfg, pre) + R.Added(cfg, e) == base + (Appended(cfg, pre) + R.Added(cfg, e));
    }
  }

  lemma RepairAddsNoUsers(ms: seq<Message>)
    ensures Users(ToolRounds.Repaired(ms)) == Users(ms)
  {
    ToolRounds.LastCallerMeans(ms);
    var n := ToolRounds.LastCaller(ms);
    if n >= 0 {
      PaddedNoUsers(ms, ms[n].toolCalls, ToolRounds.Resolved(ms[n + 1..]));
    }
  }

  lemma PaddedNoUsers(ms: seq<Message>, calls: seq<ToolCall>, resolved: set<string>)
    ensures Users(ms + ToolRounds.Padding(calls, resolved)) == Users(ms)
  {
    PaddingNoUsers(calls, resolved);
    UsersConcat(ms, ToolRounds.Padding(calls, resolved));
    Nothing(Users(ms));
  }

  lemma {:induction false} PaddingNoUsers(calls: seq<ToolCall>, resolved: set<string>)
    ensures Users(ToolRounds.Padding(calls, resolved)) == []
  {
    if calls != [] {
      PaddingNoUsers(calls[1..], resolved);
      var head := if calls[0].id in resolved then [] else [ToolResult(calls[0].id, calls[0].name, ToolRounds.STOPPED_RESULT)];
      NoUsers(head);
      UsersConcat(head, ToolRounds.Padding(calls[1..], resolved));
    }
  }

  lemma Assoc<T>(a: seq<T>, b: seq<T>, c: seq<T>)
    ensures a + b + c == a + (b + c)
  {
  }

  lemma UsersOfFinal(fixed: seq<Message>, base: seq<Message>, added: seq<Message>, left: seq<Message>)
    requires Users(fixed) == Users(base + added) && forall k :: 0 <= k < |left| ==> left[k].role.User?
    ensures Users(fixed + left) == Users(base) + (Users(added) + left)
  {
    UsersPlusAll(fixed, left);
    UsersConcat(base, added);
    Assoc(Users(base), Users(added), left);
  }

  lemma FinalUsers(cfg: R.Config, base: seq<Message>, t: seq<R.Event>, left: seq<string>)
    requires !R.Rebuilt(t)
    ensures Users(ToolRounds.Repaired(R.SessionAfter(cfg, base, t)) + AsMessages(left))
         == Users(base) + (Users(Appended(cfg, t)) + AsMessages(left))
  {
    SessionIsAppended(cfg, base, t);
    RepairAddsNoUsers(base + Appended(cfg, t));
    UsersOfFinal(ToolRounds.Repaired(base + Appended(cfg, t)), base, Appended(cfg, t), AsMessages(left));
  }

  /** And in the session a turn leaves, unless it was compacted on the way: the user's messages are those
      the turn found, then the steering accepted for it. */
  lemma SteeringInFinalSession(states: seq<TurnRuns.Sys>, ops: seq<TurnRuns.Op>, n: nat, u: nat,
                               cfg: R.Config, w: R.World, base: seq<Message>, t: seq<R.Event>)
    requires TurnRuns.Run(states, ops) && n <= |ops|
    requires u < |states[n].core.turns| && states[n].core.turns[u].done
    requires R.LegalRun(cfg, w, base, t) && R.Fair(cfg, w) && !R.Rebuilt(t)
    requires R.Tells(t) == |Batches(states, ops, n, u)| && SameDrains(w, Batches(states, ops, n, u))
    ensures Users(ToolRounds.Repaired(R.SessionAfter(cfg, base, t)) + AsMessages(Leftover(states, ops, n, u)))
         == Users(base) + AsMessages(TurnRuns.Accepted(states, ops, n, u))
  {
    SteeringReachesSession(states, ops, n, u, cfg, w, base, t);
    FinalUsers(cfg, base, t, Leftover(states, ops, n, u));
  }
}
