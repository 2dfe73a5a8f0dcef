/** The loop of HandleMessage (internal/agent/loop.go) step by step. Every run of it writes a log that is
    legal in the sense of `ReAct`, and keeps the session equal to what the log says. */
module ReActLoop {
  import opened Optional
  import opened Messages
  import opened Compaction
  import opened FailurePolicy
  import opened ToolRounds
  import opened ReAct
  import Bubbles

  // ---------------------------------------------------------------- loop detection

  /** The detector's memory after `passed` calls: the last signature and how often it stands at the end. */
  ghost predicate Tracks(passed: seq<Sig>, lastSig: Option<Sig>, count: nat) {
    if passed == [] then lastSig.None? && count == 0
    else
      && lastSig == Some(passed[|passed| - 1])
      && count == if |passed| > 1 && passed[|passed| - 2] == passed[|passed| - 1] then 2 else 1
  }

  lemma NoTriplePrefix(p: seq<Sig>, q: seq<Sig>)
    requires !NoTriple(p)
    ensures !NoTriple(p + q)
  {
    var k :| 0 <= k < |p| - 2 && p[k] == p[k + 1] == p[k + 2];
    assert (p + q)[k] == (p + q)[k + 1] == (p + q)[k + 2];
  }

  /** One more call: the counter reaches three exactly when it completes a triple. */
  lemma OneMore(p: seq<Sig>, lastSig: Option<Sig>, count: nat, s: Sig)
    requires Tracks(p, lastSig, count) && NoTriple(p)
    ensures lastSig == Some(s) ==> (NoTriple(p + [s]) <==> count + 1 < 3)
    ensures lastSig == Some(s) && count + 1 < 3 ==> Tracks(p + [s], lastSig, count + 1)
    ensures lastSig != Some(s) ==> NoTriple(p + [s]) && Tracks(p + [s], Some(s), 1)
  {
    var q := p + [s];
    forall k | 0 <= k < |q| - 3 ensures !(q[k] == q[k + 1] == q[k + 2]) {
      assert q[k] == p[k] && q[k + 1] == p[k + 1] && q[k + 2] == p[k + 2];
    }
    if |q| >= 3 {
      assert q[|q| - 3] == p[|p| - 2] && q[|q| - 2] == p[|p| - 1];
      assert NoTriple(q) <==> !(q[|q| - 3] == q[|q| - 2] == q[|q| - 1]);
    }
  }

  lemma DetectStep(passed: seq<Sig>, calls: seq<ToolCall>, i: nat, lastSig: Option<Sig>, count: nat)
    requires i < |calls|
    requires Tracks(passed + Sigs(calls)[..i], lastSig, count) && NoTriple(passed + Sigs(calls)[..i])
    ensures var sig, seen := Sig(calls[i].name, calls[i].args), passed + Sigs(calls)[..i + 1];
            if lastSig == Some(sig) then
              if count + 1 < 3 then NoTriple(seen) && Tracks(seen, lastSig, count + 1)
              else !NoTriple(passed + Sigs(calls))
            else NoTriple(seen) && Tracks(seen, Some(sig), 1)
  {
    var sig, seen := Sig(calls[i].name, calls[i].args), passed + Sigs(calls)[..i];
    OneMore(seen, lastSig, count, sig);
    assert seen + [sig] == passed + Sigs(calls)[..i + 1];
    if !NoTriple(seen + [sig]) {
      NoTriplePrefix(seen + [sig], Sigs(calls)[i + 1..]);
      assert seen + [sig] + Sigs(calls)[i + 1..] == passed + Sigs(calls);
    }
  }

  method DetectLoop(ghost passed: seq<Sig>, lastSig: Option<Sig>, count: nat, calls: seq<ToolCall>)
    returns (lastSig': Option<Sig>, count': nat, loopDetected: bool)
    requires Tracks(passed, lastSig, count) && NoTriple(passed)
    ensures loopDetected <==> !NoTriple(passed + Sigs(calls))
    ensures !loopDetected ==> Tracks(passed + Sigs(calls), lastSig', count')
  {
    lastSig', count', loopDetected := lastSig, count, false;
    assert passed + Sigs(calls)[..0] == passed;
    for i := 0 to |calls|
      invariant Tracks(passed + Sigs(calls)[..i], lastSig', count') && NoTriple(passed + Sigs(calls)[..i])
    {
      DetectStep(passed, calls, i, lastSig', count');
      var sig := Sig(calls[i].name, calls[i].args);
      if lastSig' == Some(sig) {
        count' := count' + 1;
      } else {
        count' := 1;
        lastSig' := Some(sig);
      }
      if count' >= 3 {
        return lastSig', count', true;
      }
    }
    assert Sigs(calls)[..|calls|] == Sigs(calls);
  }

  // ---------------------------------------------------------------- the session

  class Session {
    var messages: seq<Message>

    constructor (ms: seq<Message>)
      ensures messages == ms
    {
      messages := ms;
    }

    method Append(m: Message)
      modifies this
      ensures messages == old(messages) + [m]
    {
      messages := messages + [m];
    }

    method ReplaceMessages(ms: seq<Message>)
      modifies this
      ensures messages == ms
    {
      messages := ms;
    }
  }

  /** Saves each message and folds it into the live request. */
  method AppendEach(sess: Session, messages: seq<Message>, more: seq<Message>) returns (out: seq<Message>)
    modifies sess
    ensures sess.messages == old(sess.messages) + more
    ensures out == messages + more
  {
    out := messages;
    for i := 0 to |more|
      invariant sess.messages == old(sess.messages) + more[..i]
      invariant out == messages + more[..i]
    {
      assert more[..i + 1] == more[..i] + [more[i]];
      sess.Append(more[i]);
      out := out + [more[i]];
    }
    assert more[..|more|] == more;
  }

  // ---------------------------------------------------------------- the turn's own state

  /** The local variables of the loop. */
  datatype Locals = Locals(messages: seq<Message>, lastSig: Option<Sig>, count: nat,
                           retried: bool, toolsOff: bool, parts: seq<string>)

  /** How the loop's variables, the session and the reminder follow from the log. */
  ghost predicate Inv(cfg: Config, w: World, base: seq<Message>, t: seq<Event>, l: Locals,
                      session: seq<Message>, rounds: nat) {
    && LegalRun(cfg, w, base, t)
    && session == SessionAfter(cfg, base, t)
    && l.messages == cfg.options.overhead + Visible(cfg, base, t)
    && l.toolsOff == Tripped(t)
    && l.retried == Rebuilt(t)
    && NoTriple(Passed(t)) && (!l.toolsOff ==> Tracks(Passed(t), l.lastSig, l.count))
    && rounds == Counter(Fails(t))
    && l.parts == Parts(t)
  }

  lemma Assoc<T>(a: seq<T>, b: seq<T>, c: seq<T>)
    ensures a + b + c == a + (b + c)
    ensures a + [] == a
  {
  }

  /** An event that appends the same to session and request and is no round, guard or rebuild. */
  lemma PlainStep(cfg: Config, w: World, base: seq<Message>, t: seq<Event>, l: Locals,
                  session: seq<Message>, rounds: nat, e: Event)
    requires Inv(cfg, w, base, t, l, session, rounds) && Legal(cfg, w, base, t, e)
    requires !e.Round? && !e.Guard? && !e.Rebuild?
    ensures Inv(cfg, w, base, t + [e],
                l.(messages := l.messages + Shown(cfg, e), parts := l.parts + Said(e)),
                session + Added(cfg, e), rounds)
  {
    Snoc(cfg, base, t, e);
    LegalSnoc(cfg, w, base, t, e);
    Assoc(cfg.options.overhead, Visible(cfg, base, t), Shown(cfg, e));
    Assoc(Passed(t), [], []);
    Assoc(Fails(t), [], []);
  }

  lemma TellStep(cfg: Config, w: World, base: seq<Message>, t: seq<Event>, l: Locals,
                 session: seq<Message>, rounds: nat, steer: seq<Message>)
    requires Inv(cfg, w, base, t, l, session, rounds) && Drainable(w, t) && steer == w.steer(Tells(t))
    ensures Inv(cfg, w, base, t + [Tell(steer)], l.(messages := l.messages + steer), session + steer, rounds)
    ensures Asks(t + [Tell(steer)]) == Asks(t) && Rebuilt(t + [Tell(steer)]) == Rebuilt(t)
  {
    PlainStep(cfg, w, base, t, l, session, rounds, Tell(steer));
    Snoc(cfg, base, t, Tell(steer));
    Assoc(l.parts, [], []);
  }

  /** Folds in what waits in the inbox. */
  method Drain(cfg: Config, w: World, sess: Session, ghost base: seq<Message>, l: Locals, t: seq<Event>, ghost rounds: nat)
    returns (l': Locals, t': seq<Event>, any: bool)
    requires Inv(cfg, w, base, t, l, sess.messages, rounds) && Drainable(w, t)
    modifies sess
    ensures Inv(cfg, w, base, t', l', sess.messages, rounds)
    ensures t' == t + [Tell(w.steer(Tells(t)))] && any == (w.steer(Tells(t)) != [])
    ensures Asks(t') == Asks(t) && Rebuilt(t') == Rebuilt(t) && l'.toolsOff == l.toolsOff
  {
    var steer := w.steer(Tells(t));
    TellStep(cfg, w, base, t, l, sess.messages, rounds, steer);
    var messages := AppendEach(sess, l.messages, steer);
    l' := l.(messages := messages);
    t' := t + [Tell(steer)];
    any := |steer| > 0;
  }

  // ---------------------------------------------------------------- one model call

  /** The moment for a model call: a drained inbox and nothing broken, or a rebuilt session. */
  predicate Due(w: World, t: seq<Event>) {
    t != [] && !Closed(t) && ((t[|t| - 1].Tell? && !w.broken(|t|)) || t[|t| - 1].Rebuild?)
  }

  /** The turn is not over, and no answer is waiting for its drain. */
  predicate AtTop(t: seq<Event>) {
    Quiet(t) && (t != [] ==> !t[|t| - 1].Answer?)
  }

  lemma AskLegal(cfg: Config, w: World, base: seq<Message>, t: seq<Event>, e: Event)
    requires LegalRun(cfg, w, base, t) && Due(w, t) && Tries(t) < cfg.maxIterations
    requires e.Ask? && e.request == cfg.options.overhead + Visible(cfg, base, t) && !e.last
    requires e.tools == (cfg.hasTools && !Tripped(t)) && e.outcome == w.reply(Asks(t))
    ensures LegalRun(cfg, w, base, t + [e])
  {
    Assoc(e.request, [], []);
    LegalSnoc(cfg, w, base, t, e);
  }

  lemma AskStep(cfg: Config, w: World, base: seq<Message>, t: seq<Event>, l: Locals,
                session: seq<Message>, rounds: nat, e: Event)
    requires Inv(cfg, w, base, t, l, session, rounds)
    requires e.Ask? && LegalRun(cfg, w, base, t + [e])
    ensures Inv(cfg, w, base, t + [e], l, session, rounds)
  {
    Snoc(cfg, base, t, e);
    Assoc(l.messages, [], []);
    Assoc(l.parts, [], []);
    Assoc(session, [], []);
    Assoc(Passed(t), [], []);
    Assoc(Fails(t), [], []);
  }

  lemma CountAsk(t: seq<Event>, e: Event)
    requires e.Ask?
    ensures Tries(t + [e]) == Tries(t) + 1
  {
    SnocFlags(t, e);
    assert (t + [e])[..|t|] == t;
  }

  lemma RebuildStep(cfg: Config, w: World, base: seq<Message>, t: seq<Event>, l: Locals,
                    session: seq<Message>, rounds: nat, ms: seq<Message>)
    requires Inv(cfg, w, base, t, l, session, rounds) && Legal(cfg, w, base, t, Rebuild(ms))
    ensures Inv(cfg, w, base, t + [Rebuild(ms)],
                l.(messages := cfg.options.overhead + ms, retried := true), ms, rounds)
    ensures Tries(t + [Rebuild(ms)]) == Tries(t) - 1 && Asks(t + [Rebuild(ms)]) == Asks(t)
  {
    Snoc(cfg, base, t, Rebuild(ms));
    LegalSnoc(cfg, w, base, t, Rebuild(ms));
    Assoc(Passed(t), [], []);
    Assoc(Fails(t), [], []);
    Assoc(l.parts, [], []);
  }

  /** The emergency retry is spent, or compaction has nothing to offer. */
  ghost predicate RetryUsed(cfg: Config, w: World, base: seq<Message>, t: seq<Event>) {
    || Rebuilt(t)
    || !Compacted(SessionAfter(cfg, base, t), cfg.options.(mode := Emergency), w.retryNote, w.retrySummary).pruned
  }

  /** Calls the model; after a context-limit error, once a turn, compacts the session and calls again. */
  method CallWithEmergencyRetry(cfg: Config, w: World, sess: Session, ghost base: seq<Message>, l: Locals,
                                t: seq<Event>, ghost rounds: nat)
    returns (l': Locals, t': seq<Event>, tools: bool, outcome: Outcome)
    requires Inv(cfg, w, base, t, l, sess.messages, rounds)
    requires t != [] && t[|t| - 1].Tell? && !Closed(t) && !w.broken(|t|) && Tries(t) < cfg.maxIterations
    modifies sess
    ensures Inv(cfg, w, base, t', l', sess.messages, rounds)
    ensures t' != [] && t'[|t'| - 1].Ask? && !t'[|t'| - 1].last
    ensures t'[|t'| - 1].outcome == outcome && t'[|t'| - 1].tools == tools
    ensures outcome.ContextLimit? ==> RetryUsed(cfg, w, base, t')
    ensures Tries(t') == Tries(t) + 1
  {
    tools := cfg.hasTools && !l.toolsOff;
    l' := l;
    t', outcome := AskModel(cfg, w, base, l, t, sess.messages, rounds, tools);
    if !outcome.ContextLimit? || l.retried {
      return;
    }
    var rebuilt;
    l', t', rebuilt := CompactSession(cfg, w, sess, base, l', t', rounds);
    if rebuilt {
      t', outcome := AskModel(cfg, w, base, l', t', sess.messages, rounds, tools);
    }
  }

  /** The emergency compaction of the session; nothing happens when it would change nothing. */
  method CompactSession(cfg: Config, w: World, sess: Session, ghost base: seq<Message>, l: Locals,
                        t: seq<Event>, ghost rounds: nat)
    returns (l': Locals, t': seq<Event>, rebuilt: bool)
    requires Inv(cfg, w, base, t, l, sess.messages, rounds) && !l.retried
    requires t != [] && t[|t| - 1].Ask? && !t[|t| - 1].last && t[|t| - 1].outcome.ContextLimit?
    modifies sess
    ensures Inv(cfg, w, base, t', l', sess.messages, rounds) && l'.toolsOff == l.toolsOff
    ensures if rebuilt then t' != [] && t'[|t'| - 1].Rebuild? && Tries(t') == Tries(t) - 1
            else t' == t && RetryUsed(cfg, w, base, t)
  {
    l', t', rebuilt := l, t, false;
    var result := CompactMessages(sess.messages, cfg.options.(mode := Emergency), w.retryNote, w.retrySummary);
    if !result.pruned {
      return;
    }
    RebuildStep(cfg, w, base, t, l, sess.messages, rounds, result.messages);
    sess.ReplaceMessages(result.messages);
    l' := l.(messages := cfg.options.overhead + result.messages, retried := true);
    t' := t + [Rebuild(result.messages)];
    rebuilt := true;
  }

  /** One call with the messages as they stand. */
  method AskModel(cfg: Config, w: World, ghost base: seq<Message>, l: Locals, t: seq<Event>,
                  ghost session: seq<Message>, ghost rounds: nat, tools: bool)
    returns (t': seq<Event>, outcome: Outcome)
    requires Inv(cfg, w, base, t, l, session, rounds) && tools == (cfg.hasTools && !l.toolsOff)
    requires Due(w, t) && Tries(t) < cfg.maxIterations
    ensures Inv(cfg, w, base, t', l, session, rounds)
    ensures t' == t + [Ask(l.messages, tools, false, outcome)] && outcome == w.reply(Asks(t))
    ensures Tries(t') == Tries(t) + 1
  {
    outcome := w.reply(Asks(t));
    var e := Ask(l.messages, tools, false, outcome);
    AskLegal(cfg, w, base, t, e);
    AskStep(cfg, w, base, t, l, session, rounds, e);
    CountAsk(t, e);
    t' := t + [e];
  }

  // ---------------------------------------------------------------- a round of tool calls

  /** What a round that ran leaves to be logged. */
  ghost predicate RanRound(cfg: Config, w: World, t: seq<Event>, rounds: nat, e: Event) {
    && e.Round?
    && RoundDone(cfg, w, t, e.caller.toolCalls, e.ran, e.results, e.failed)
    && e.reminded == Observed(rounds, e.failed).1
  }

  lemma ReminderDue(flags: seq<bool>, rounds: nat, failed: bool)
    requires rounds == Counter(flags)
    ensures Counter(flags + [failed]) == Observed(rounds, failed).0
    ensures Observed(rounds, failed).1 <==> Streak(flags + [failed]) == 3
  {
    CounterIsStreak(flags + [failed]);
    assert (flags + [failed])[..|flags|] == flags;
  }

  lemma RoundIsLegal(cfg: Config, w: World, t: seq<Event>, rounds: nat, e: Event)
    requires RanRound(cfg, w, t, rounds, e) && rounds == Counter(Fails(t))
    requires Calling(t, e.caller) && !w.broken(|t| + 1) && NoTriple(Passed(t) + Sigs(e.caller.toolCalls))
    ensures LegalRound(cfg, w, t, e)
    ensures Counter(Fails(t) + [e.failed]) == Observed(rounds, e.failed).0
  {
    ReminderDue(Fails(t), rounds, e.failed);
  }

  lemma LoggedRound(cfg: Config, w: World, base: seq<Message>, t: seq<Event>, e: Event)
    requires LegalRun(cfg, w, base, t) && e.Round? && LegalRound(cfg, w, t, e)
    ensures LegalRun(cfg, w, base, t + [e])
  {
    LegalSnoc(cfg, w, base, t, e);
  }

  /** A logged round, as the loop's variables see it. */
  lemma RoundStep(cfg: Config, w: World, base: seq<Message>, t: seq<Event>, l: Locals,
                  session: seq<Message>, rounds: nat, e: Event, lastSig: Option<Sig>, count: nat, rounds': nat)
    requires Inv(cfg, w, base, t, l, session, rounds) && e.Round? && LegalRun(cfg, w, base, t + [e])
    requires NoTriple(Passed(t) + Sigs(e.caller.toolCalls))
    requires Tracks(Passed(t) + Sigs(e.caller.toolCalls), lastSig, count)
    requires rounds' == Counter(Fails(t) + [e.failed])
    ensures Inv(cfg, w, base, t + [e],
                l.(messages := l.messages + Added(cfg, e), lastSig := lastSig, count := count, parts := l.parts + Said(e)),
                session + Added(cfg, e), rounds')
    ensures Tries(t + [e]) == Tries(t)
  {
    Snoc(cfg, base, t, e);
    Assoc(cfg.options.overhead, Visible(cfg, base, t), Added(cfg, e));
  }

  lemma GuardStep(cfg: Config, w: World, base: seq<Message>, t: seq<Event>, l: Locals,
                  session: seq<Message>, rounds: nat, e: Event)
    requires Inv(cfg, w, base, t, l, session, rounds) && e.Guard? && Legal(cfg, w, base, t, e)
    ensures Inv(cfg, w, base, t + [e],
                l.(messages := l.messages + Added(cfg, e), toolsOff := true, parts := l.parts + Said(e)),
                session + Added(cfg, e), rounds)
    ensures Tries(t + [e]) == Tries(t)
  {
    Snoc(cfg, base, t, e);
    LegalSnoc(cfg, w, base, t, e);
    Assoc(cfg.options.overhead, Visible(cfg, base, t), Added(cfg, e));
    Assoc(Passed(t), [], []);
    Assoc(Fails(t), [], []);
  }

  /** With tools off there is nothing left to guard. */
  lemma CallingMeansToolsOn(cfg: Config, w: World, base: seq<Message>, t: seq<Event>, a: Message)
    requires LegalRun(cfg, w, base, t) && Calling(t, a)
    ensures !Tripped(t)
  {
    LegalLast(cfg, w, base, t);
    SnocFlags(t[..|t| - 1], t[|t| - 1]);
    assert t == t[..|t| - 1] + [t[|t| - 1]];
  }

  /** How the turn came to its end. */
  datatype Ending = Broken | ModelFailed | Delivered(text: string)

  ghost predicate Exit(cfg: Config, w: World, base: seq<Message>, t: seq<Event>, session: seq<Message>, end: Ending) {
    && LegalRun(cfg, w, base, t)
    && session == SessionAfter(cfg, base, t)
    && match end
       case Broken => w.broken(|t|)
       case ModelFailed =>
         && t != [] && t[|t| - 1].Ask? && !t[|t| - 1].last && !t[|t| - 1].outcome.Replied?
         && (t[|t| - 1].outcome.ContextLimit? ==> RetryUsed(cfg, w, base, t))
       case Delivered(text) => Closed(t) && text == Bubbles.Joined(Parts(t))
  }

  lemma StopStep(cfg: Config, w: World, base: seq<Message>, t: seq<Event>, session: seq<Message>, a: Message)
    requires LegalRun(cfg, w, base, t) && Calling(t, a) && session == SessionAfter(cfg, base, t)
    requires w.broken(|t| + 1)
    ensures Exit(cfg, w, base, t + [Stop(a)], session + [a], Broken)
    ensures Tries(t + [Stop(a)]) == Tries(t)
  {
    Snoc(cfg, base, t, Stop(a));
    LegalSnoc(cfg, w, base, t, Stop(a));
  }

  lemma CallerFields(r: Reply)
    ensures AssistantMessage(r).toolCalls == r.calls && AssistantMessage(r).content == r.content
  {
  }

  /** A round has just been run or guarded. */
  predicate Acted(t: seq<Event>) {
    t != [] && (t[|t| - 1].Round? || t[|t| - 1].Guard?)
  }

  /** Saves the caller, then either guards or runs its calls. */
  method ToolRound(cfg: Config, w: World, sess: Session, failures: FailureReminder, ghost base: seq<Message>,
                   l: Locals, t: seq<Event>, p: Reply)
    returns (l': Locals, t': seq<Event>, end: Option<Ending>)
    requires Inv(cfg, w, base, t, l, sess.messages, failures.rounds)
    requires Replying(t) && p == PreparedReply(t) && p.calls != []
    modifies sess, failures
    ensures end.None? ==> Inv(cfg, w, base, t', l', sess.messages, failures.rounds) && Acted(t')
    ensures end.Some? ==> Exit(cfg, w, base, t', sess.messages, end.value)
    ensures Tries(t') == Tries(t)
  {
    var asst := AssistantMessage(p);
    CallerFields(p);
    var parts := l.parts;
    if p.content != "" {
      parts := parts + [p.content];
    }
    Assoc(l.parts, [], []);
    ghost var session := sess.messages;
    sess.Append(asst);
    if w.broken(|t| + 1) {
      StopStep(cfg, w, base, t, session, asst);
      return l, t + [Stop(asst)], Some(Broken);
    }
    CallingMeansToolsOn(cfg, w, base, t, asst);
    var lastSig, count, loopDetected := DetectLoop(Passed(t), l.lastSig, l.count, p.calls);
    end := None;
    if loopDetected {
      l', t' := GuardRound(cfg, w, sess, base, l.(parts := parts), t, asst, session, failures.rounds, l);
    } else {
      var next := l.(lastSig := lastSig, count := count, parts := parts);
      l', t' := ExecuteRound(cfg, w, sess, failures, base, next, t, asst, session, l);
    }
  }

  /** A repeated call: every call of the round is answered unrun, and tools go off for good. */
  method GuardRound(cfg: Config, w: World, sess: Session, ghost base: seq<Message>, l: Locals, t: seq<Event>,
                    asst: Message, ghost session: seq<Message>, ghost rounds: nat, ghost before: Locals)
    returns (l': Locals, t': seq<Event>)
    requires Inv(cfg, w, base, t, before, session, rounds) && Calling(t, asst) && !w.broken(|t| + 1)
    requires l == before.(parts := before.parts + SaidBy(asst)) && sess.messages == session + [asst]
    requires !NoTriple(Passed(t) + Sigs(asst.toolCalls))
    modifies sess
    ensures Inv(cfg, w, base, t', l', sess.messages, rounds) && Acted(t') && Tries(t') == Tries(t)
  {
    var results := GuardMessages(asst.toolCalls);
    GuardStep(cfg, w, base, t, before, session, rounds, Guard(asst, results));
    var messages := AppendEach(sess, l.messages + [asst], results + [Plain(System, GUARD_WARNING)]);
    Assoc3(session, asst, results, [Plain(System, GUARD_WARNING)]);
    Assoc3(l.messages, asst, results, [Plain(System, GUARD_WARNING)]);
    l' := l.(messages := messages, toolsOff := true);
    t' := t + [Guard(asst, results)];
  }

  /** A round that passed the detector: results for all its calls, and the reminder when it is due. */
  method ExecuteRound(cfg: Config, w: World, sess: Session, failures: FailureReminder, ghost base: seq<Message>,
                      l: Locals, t: seq<Event>, asst: Message, ghost session: seq<Message>, ghost before: Locals)
    returns (l': Locals, t': seq<Event>)
    requires Inv(cfg, w, base, t, before, session, failures.rounds) && Calling(t, asst) && !w.broken(|t| + 1)
    requires l == before.(lastSig := l.lastSig, count := l.count, parts := before.parts + SaidBy(asst))
    requires sess.messages == session + [asst]
    requires NoTriple(Passed(t) + Sigs(asst.toolCalls))
    requires Tracks(Passed(t) + Sigs(asst.toolCalls), l.lastSig, l.count)
    modifies sess, failures
    ensures Inv(cfg, w, base, t', l', sess.messages, failures.rounds) && Acted(t') && Tries(t') == Tries(t)
  {
    ghost var rounds := failures.rounds;
    var e := RunAndRemind(cfg, w, failures, t, asst);
    RoundIsLegal(cfg, w, t, rounds, e);
    LoggedRound(cfg, w, base, t, e);
    RoundStep(cfg, w, base, t, before, session, rounds, e, l.lastSig, l.count, failures.rounds);
    var messages := AppendEach(sess, l.messages + [asst], e.results + Reminder(cfg, e));
    RoundAppended(cfg, session, e);
    RoundAppended(cfg, l.messages, e);
    l' := l.(messages := messages);
    t' := t + [e];
  }

  lemma RoundAppended(cfg: Config, s: seq<Message>, e: Event)
    requires e.Round?
    ensures s + [e.caller] + (e.results + Reminder(cfg, e)) == s + Added(cfg, e)
    ensures Said(e) == SaidBy(e.caller)
  {
    Assoc3(s, e.caller, e.results, Reminder(cfg, e));
  }

  function Reminder(cfg: Config, e: Event): seq<Message>
    requires e.Round?
  {
    if e.reminded then [Plain(System, cfg.reminder)] else []
  }

  /** Runs the round and asks the failure reminder. */
  method RunAndRemind(cfg: Config, w: World, failures: FailureReminder, t: seq<Event>, asst: Message) returns (e: Event)
    modifies failures
    ensures RanRound(cfg, w, t, old(failures.rounds), e) && e.caller == asst
    ensures failures.rounds == Observed(old(failures.rounds), e.failed).0
  {
    var calls := asst.toolCalls;
    var ran, results, failed := RunRound(calls, cfg.cap, w.executor(|Fails(t)|), w.deferral(|calls|));
    var reminded := failures.Observe(failed);
    e := Round(asst, ran, results, failed, reminded);
  }

  function SaidBy(asst: Message): seq<string> {
    if asst.content == "" then [] else [asst.content]
  }

  lemma Assoc3(s: seq<Message>, a: Message, b: seq<Message>, c: seq<Message>)
    ensures s + [a] + (b + c) == s + ([a] + b + c)
  {
  }

  // ---------------------------------------------------------------- an answer

  lemma AnswerStep(cfg: Config, w: World, base: seq<Message>, t: seq<Event>, l: Locals,
                   session: seq<Message>, rounds: nat, e: Event)
    requires Inv(cfg, w, base, t, l, session, rounds) && e.Answer? && Legal(cfg, w, base, t, e)
    ensures Inv(cfg, w, base, t + [e],
                l.(messages := l.messages + Shown(cfg, e), parts := l.parts + SaidBy(e.message)),
                session + [e.message], rounds)
    ensures Tries(t + [e]) == Tries(t) && Asks(t + [e]) == Asks(t)
  {
    PlainStep(cfg, w, base, t, l, session, rounds, e);
    Snoc(cfg, base, t, e);
  }

  /** Saves an answer; the request and the reply take it over when it has text. */
  method SaveAnswer(cfg: Config, w: World, sess: Session, ghost base: seq<Message>, l: Locals, t: seq<Event>,
                    ghost rounds: nat, asst: Message, last: bool)
    returns (l': Locals, t': seq<Event>, broken: bool)
    requires Inv(cfg, w, base, t, l, sess.messages, rounds) && Legal(cfg, w, base, t, Answer(asst, last))
    modifies sess
    ensures Inv(cfg, w, base, t', l', sess.messages, rounds)
    ensures t' == t + [Answer(asst, last)] && Tries(t') == Tries(t) && Asks(t') == Asks(t)
    ensures broken == w.broken(|t'|)
  {
    AnswerStep(cfg, w, base, t, l, sess.messages, rounds, Answer(asst, last));
    sess.Append(asst);
    t' := t + [Answer(asst, last)];
    broken := w.broken(|t'|);
    l' := l;
    if asst.content != "" {
      l' := l.(messages := l.messages + [asst], parts := l.parts + [asst.content]);
    }
    Assoc(l.messages, [], []);
    Assoc(l.parts, [], []);
  }

  lemma CloseStep(cfg: Config, w: World, base: seq<Message>, t: seq<Event>, l: Locals, session: seq<Message>, rounds: nat)
    requires Inv(cfg, w, base, t, l, session, rounds)
    ensures Closed(t) ==> Exit(cfg, w, base, t, session, Delivered(Bubbles.Joined(l.parts)))
    ensures w.broken(|t|) ==> Exit(cfg, w, base, t, session, Broken)
  {
  }

  /** A reply without tool calls ends the turn, unless something waits in the inbox. */
  method AnswerRound(cfg: Config, w: World, sess: Session, ghost base: seq<Message>, l: Locals, t: seq<Event>,
                     ghost rounds: nat, p: Reply)
    returns (l': Locals, t': seq<Event>, end: Option<Ending>)
    requires Inv(cfg, w, base, t, l, sess.messages, rounds)
    requires Replying(t) && p == PreparedReply(t) && p.calls == []
    modifies sess
    ensures end.None? ==> Inv(cfg, w, base, t', l', sess.messages, rounds) && AtTop(t')
    ensures end.Some? ==> Exit(cfg, w, base, t', sess.messages, end.value)
    ensures Tries(t') == Tries(t)
  {
    var broken, any;
    l', t', broken := SaveAnswer(cfg, w, sess, base, l, t, rounds, AssistantMessage(p), false);
    if broken {
      CloseStep(cfg, w, base, t', l', sess.messages, rounds);
      return l', t', Some(Broken);
    }
    l', t', any := Drain(cfg, w, sess, base, l', t', rounds);
    CloseStep(cfg, w, base, t', l', sess.messages, rounds);
    if any {
      if w.broken(|t'|) {
        return l', t', Some(Broken);
      }
      return l', t', None;
    }
    var text := Bubbles.JoinReplyParts(l'.parts);
    return l', t', Some(Delivered(text));
  }

  method RunTools(cfg: Config, w: World, sess: Session, failures: FailureReminder, ghost base: seq<Message>,
                  l: Locals, t: seq<Event>, p: Reply)
    returns (l': Locals, t': seq<Event>, end: Option<Ending>)
    requires Inv(cfg, w, base, t, l, sess.messages, failures.rounds)
    requires Replying(t) && p == PreparedReply(t) && p.calls != []
    modifies sess, failures
    ensures end.None? ==> Inv(cfg, w, base, t', l', sess.messages, failures.rounds) && AtTop(t')
    ensures end.Some? ==> Exit(cfg, w, base, t', sess.messages, end.value)
    ensures Tries(t') == Tries(t)
  {
    l', t', end := ToolRound(cfg, w, sess, failures, base, l, t, p);
    if end.Some? || t'[|t'| - 1].Guard? {
      return;
    }
    ghost var acted := t';
    var any;
    l', t', any := Drain(cfg, w, sess, base, l', t', failures.rounds);
    StillOpen(acted, t');
    if any && w.broken(|t'|) {
      CloseStep(cfg, w, base, t', l', sess.messages, failures.rounds);
      end := Some(Broken);
    }
  }

  // ---------------------------------------------------------------- the loop

  method Prepare(r: Reply, toolsAllowed: bool) returns (p: Reply)
    ensures p == Prepared(r, toolsAllowed)
  {
    var resp := new ModelResponse(r);
    resp.PrepareToolResponse(toolsAllowed, r.recovered, r.residual);
    p := resp.View(r.recovered, r.residual);
  }

  /** Before each model call: stops if saving has failed, and folds in what waits. */
  method CheckAndDrain(cfg: Config, w: World, sess: Session, ghost base: seq<Message>, l: Locals, t: seq<Event>,
                       ghost rounds: nat)
    returns (l': Locals, t': seq<Event>, broken: bool)
    requires Inv(cfg, w, base, t, l, sess.messages, rounds) && AtTop(t)
    modifies sess
    ensures if broken then Exit(cfg, w, base, t', sess.messages, Broken)
            else
              && Inv(cfg, w, base, t', l', sess.messages, rounds) && Tries(t') == Tries(t)
              && t' != [] && t'[|t'| - 1].Tell? && !Closed(t') && !w.broken(|t'|)
  {
    if w.broken(|t|) {
      CloseStep(cfg, w, base, t, l, sess.messages, rounds);
      return l, t, true;
    }
    var any;
    l', t', any := Drain(cfg, w, sess, base, l, t, rounds);
    StillOpen(t, t');
    broken := w.broken(|t'|);
    if broken {
      CloseStep(cfg, w, base, t', l', sess.messages, rounds);
    }
  }

  lemma StillOpen(t: seq<Event>, t': seq<Event>)
    requires AtTop(t) && t' != [] && t'[|t'| - 1].Tell? && t == t'[..|t'| - 1]
    ensures !Closed(t')
  {
  }

  /** One pass of the loop. */
  method Iterate(cfg: Config, w: World, sess: Session, failures: FailureReminder, ghost base: seq<Message>,
                 l: Locals, t: seq<Event>)
    returns (l': Locals, t': seq<Event>, end: Option<Ending>)
    requires Inv(cfg, w, base, t, l, sess.messages, failures.rounds) && AtTop(t) && Tries(t) < cfg.maxIterations
    modifies sess, failures
    ensures end.None? ==>
      Inv(cfg, w, base, t', l', sess.messages, failures.rounds) && AtTop(t') && Tries(t') == Tries(t) + 1
    ensures end.Some? ==> Exit(cfg, w, base, t', sess.messages, end.value)
  {
    var broken, tools, outcome;
    l', t', broken := CheckAndDrain(cfg, w, sess, base, l, t, failures.rounds);
    if broken {
      return l', t', Some(Broken);
    }
    l', t', tools, outcome := CallWithEmergencyRetry(cfg, w, sess, base, l', t', failures.rounds);
    if !outcome.Replied? {
      FailStep(cfg, w, base, t', l', sess.messages, failures.rounds);
      return l', t', Some(ModelFailed);
    }
    var p := Prepare(outcome.reply, tools);
    if p.calls == [] {
      l', t', end := AnswerRound(cfg, w, sess, base, l', t', failures.rounds, p);
    } else {
      l', t', end := RunTools(cfg, w, sess, failures, base, l', t', p);
    }
  }

  lemma FailStep(cfg: Config, w: World, base: seq<Message>, t: seq<Event>, l: Locals, session: seq<Message>, rounds: nat)
    requires Inv(cfg, w, base, t, l, session, rounds)
    requires t != [] && t[|t| - 1].Ask? && !t[|t| - 1].last && !t[|t| - 1].outcome.Replied?
    requires t[|t| - 1].outcome.ContextLimit? ==> RetryUsed(cfg, w, base, t)
    ensures Exit(cfg, w, base, t, session, ModelFailed)
  {
  }

  lemma FinalAskLegal(cfg: Config, w: World, base: seq<Message>, t: seq<Event>, e: Event)
    requires LegalRun(cfg, w, base, t) && t != [] && t[|t| - 1].Tell? && !Closed(t) && !w.broken(|t|) && Tries(t) == cfg.maxIterations
    requires e.Ask? && e.request == cfg.options.overhead + Visible(cfg, base, t) + [Plain(System, cfg.nudge)]
    requires e.last && !e.tools && e.outcome == w.reply(Asks(t))
    ensures LegalRun(cfg, w, base, t + [e])
  {
    LegalSnoc(cfg, w, base, t, e);
  }

  lemma FinalAnswerLegal(cfg: Config, w: World, base: seq<Message>, t: seq<Event>, m: Message)
    requires t != [] && t[|t| - 1].Ask? && t[|t| - 1].last
    requires m == Plain(Assistant, FinalText(cfg, t[|t| - 1].outcome))
    ensures Legal(cfg, w, base, t, Answer(m, true))
  {
  }

  /** The last request, with the nudge and without tools. */
  method AskFinal(cfg: Config, w: World, ghost base: seq<Message>, l: Locals, t: seq<Event>,
                  ghost session: seq<Message>, ghost rounds: nat)
    returns (t': seq<Event>, finalContent: string)
    requires Inv(cfg, w, base, t, l, session, rounds)
    requires t != [] && t[|t| - 1].Tell? && !Closed(t) && !w.broken(|t|) && Tries(t) == cfg.maxIterations
    ensures Inv(cfg, w, base, t', l, session, rounds)
    ensures Legal(cfg, w, base, t', Answer(Plain(Assistant, finalContent), true))
  {
    var outcome := w.reply(Asks(t));
    var finalMessages := l.messages + [Plain(System, cfg.nudge)];
    var e := Ask(finalMessages, false, true, outcome);
    FinalAskLegal(cfg, w, base, t, e);
    AskStep(cfg, w, base, t, l, session, rounds, e);
    CountAsk(t, e);
    t' := t + [e];
    finalContent := "";
    if outcome.Replied? {
      finalContent := outcome.reply.content;
    }
    if finalContent == "" {
      finalContent := cfg.fallback;
    }
    FinalAnswerLegal(cfg, w, base, t', Plain(Assistant, finalContent));
  }

  /** With the iterations used up: one more request, without tools, for a final text. */
  method DeliverFinal(cfg: Config, w: World, sess: Session, ghost base: seq<Message>, l: Locals, t: seq<Event>,
                      ghost rounds: nat)
    returns (t': seq<Event>, end: Ending)
    requires Inv(cfg, w, base, t, l, sess.messages, rounds) && AtTop(t) && Tries(t) == cfg.maxIterations
    modifies sess
    ensures Exit(cfg, w, base, t', sess.messages, end)
  {
    var l', broken;
    l', t', broken := CheckAndDrain(cfg, w, sess, base, l, t, rounds);
    if broken {
      return t', Broken;
    }
    t', end := FinalAnswer(cfg, w, sess, base, l', t', rounds);
  }

  method FinalAnswer(cfg: Config, w: World, sess: Session, ghost base: seq<Message>, l: Locals, t: seq<Event>,
                     ghost rounds: nat)
    returns (t': seq<Event>, end: Ending)
    requires Inv(cfg, w, base, t, l, sess.messages, rounds)
    requires t != [] && t[|t| - 1].Tell? && !Closed(t) && !w.broken(|t|) && Tries(t) == cfg.maxIterations
    modifies sess
    ensures Exit(cfg, w, base, t', sess.messages, end)
  {
    var l', broken, finalContent;
    t', finalContent := AskFinal(cfg, w, base, l, t, sess.messages, rounds);
    l', t', broken := SaveAnswer(cfg, w, sess, base, l, t', rounds, Plain(Assistant, finalContent), true);
    CloseStep(cfg, w, base, t', l', sess.messages, rounds);
    if broken {
      return t', Broken;
    }
    var text := Bubbles.JoinReplyParts(l'.parts);
    end := Delivered(text);
  }

  /** The session the loop starts from. */
  ghost function Base(cfg: Config, w: World, history: seq<Message>): seq<Message> {
    Compacted(history, cfg.options.(mode := Proactive), w.startNote, w.startSummary).messages
  }

  /** Proactive compaction completes whatever history it is given. */
  lemma BaseIsSound(cfg: Config, w: World, history: seq<Message>)
    ensures WellFormed(Base(cfg, w, history))
    ensures Named(history) ==> Named(Base(cfg, w, history))
  {
    CompactionKeepsStructure(history, cfg.options.(mode := Proactive), w.startNote, w.startSummary);
    if Named(history) {
      CompactedNamed(history, cfg.options.(mode := Proactive), w.startNote, w.startSummary);
    }
  }

  lemma SoundFrom(cfg: Config, w: World, base: seq<Message>, t: seq<Event>)
    requires Fair(cfg, w) && LegalRun(cfg, w, base, t) && WellFormed(base)
    ensures forall i :: 0 <= i < |t| && t[i].Ask? ==> WellFormed(t[i].request)
    ensures Named(base) ==> WellFormed(Repaired(SessionAfter(cfg, base, t)))
  {
    forall i | 0 <= i < |t| && t[i].Ask? ensures WellFormed(t[i].request) {
      EveryRequestWellFormed(cfg, w, base, t, i);
    }
    if Named(base) {
      EveryTurnRepaired(cfg, w, base, t);
    }
  }

  /** Whatever the history was: every request of the turn is well-formed, and if the history's calls have
      IDs, so is the session once the turn is closed. */
  lemma TurnIsSound(cfg: Config, w: World, history: seq<Message>, t: seq<Event>)
    requires Fair(cfg, w) && LegalRun(cfg, w, Base(cfg, w, history), t)
    ensures forall i :: 0 <= i < |t| && t[i].Ask? ==> WellFormed(t[i].request)
    ensures Named(history) ==> WellFormed(Repaired(SessionAfter(cfg, Base(cfg, w, history), t)))
  {
    BaseIsSound(cfg, w, history);
    SoundFrom(cfg, w, Base(cfg, w, history), t);
  }

  lemma StartInv(cfg: Config, w: World, base: seq<Message>)
    ensures Inv(cfg, w, base, [], Locals(cfg.options.overhead + base, None, 0, false, false, []), base, 0)
  {
  }

  method RunTurn(cfg: Config, w: World, sess: Session) returns (t: seq<Event>, end: Ending)
    modifies sess
    ensures Exit(cfg, w, Base(cfg, w, old(sess.messages)), t, sess.messages, end)
  {
    var sessionMsgs := sess.messages;
    var result := CompactMessages(sessionMsgs, cfg.options.(mode := Proactive), w.startNote, w.startSummary);
    CompactionKeepsStructure(sessionMsgs, cfg.options.(mode := Proactive), w.startNote, w.startSummary);
    if result.pruned {
      sess.ReplaceMessages(result.messages);
      sessionMsgs := result.messages;
    }
    ghost var base := sessionMsgs;
    var failures := new FailureReminder();
    var l := Locals(cfg.options.overhead + sessionMsgs, None, 0, false, false, []);
    t := [];
    StartInv(cfg, w, base);
    for i := 0 to cfg.maxIterations
      invariant Inv(cfg, w, base, t, l, sess.messages, failures.rounds) && AtTop(t)
      invariant Tries(t) == i
    {
      var stop: Option<Ending>;
      l, t, stop := Iterate(cfg, w, sess, failures, base, l, t);
      if stop.Some? {
        return t, stop.value;
      }
    }
    t, end := DeliverFinal(cfg, w, sess, base, l, t, failures.rounds);
  }

  /** What finishing a turn does to the session: close an open round, then save unread steering. */
  method FinishSession(sess: Session, leftover: seq<Message>)
    modifies sess
    ensures sess.messages == Repaired(old(sess.messages)) + leftover
  {
    var repaired := PadOrphanToolResults(sess.messages);
    sess.ReplaceMessages(repaired);
    var _ := AppendEach(sess, [], leftover);
  }

  lemma FinishedWellFormed(session: seq<Message>, leftover: seq<Message>)
    requires WellFormed(Repaired(session))
    requires forall k :: 0 <= k < |leftover| ==> leftover[k].role.User?
    ensures WellFormed(Repaired(session) + leftover)
  {
    NeutralWellFormed(leftover);
    WellFormedConcat(Repaired(session), leftover);
  }

  /** A whole turn, its deferred finish included. */
  method HandleMessage(cfg: Config, w: World, sess: Session, leftover: seq<Message>)
    returns (t: seq<Event>, end: Ending)
    requires forall k :: 0 <= k < |leftover| ==> leftover[k].role.User?
    modifies sess
    ensures var saved := SessionAfter(cfg, Base(cfg, w, old(sess.messages)), t);
            && Exit(cfg, w, Base(cfg, w, old(sess.messages)), t, saved, end)
            && sess.messages == Repaired(saved) + leftover
    ensures Asks(t) <= cfg.maxIterations + 2
    ensures Fair(cfg, w) ==> forall i :: 0 <= i < |t| && t[i].Ask? ==> WellFormed(t[i].request)
    ensures Fair(cfg, w) && Named(old(sess.messages)) ==> WellFormed(sess.messages)
  {
    ghost var history := sess.messages;
    t, end := RunTurn(cfg, w, sess);
    CallsBounded(cfg, w, Base(cfg, w, history), t);
    if Fair(cfg, w) {
      TurnIsSound(cfg, w, history, t);
      if Named(history) {
        FinishedWellFormed(sess.messages, leftover);
      }
    }
    FinishSession(sess, leftover);
  }
}
