/** One agent turn (HandleMessage in internal/agent/loop.go) as a log of events: what each event must
    look like given the log before it, and what follows for every log that obeys this. `ReActLoop` holds
    the loop itself and shows that it only writes such logs. */
module ReAct {
  import opened Messages
  import opened ToolPairs
  import opened Compaction
  import opened FailurePolicy
  import opened ToolRounds

  /** What a model call comes back with. */
  datatype Outcome = Replied(reply: Reply) | ContextLimit | OtherError

  datatype Config = Config(maxIterations: nat, cap: nat, hasTools: bool, options: Options,
                           nudge: string, reminder: string, fallback: string)

  /** Everything the turn does not decide: the model, the executor, the user, the store. */
  datatype World = World(
    reply: nat -> Outcome,                // by number of model calls so far
    executor: nat -> Executor,            // by number of executed rounds so far
    steer: nat -> seq<Message>,           // by number of inbox drains so far
    broken: nat -> bool,                  // has saving failed by the n-th event?
    deferral: nat -> string,              // the deferral text for a round of n calls
    startNote: nat -> string, startSummary: string,
    retryNote: nat -> string, retrySummary: string)

  datatype Event =
    | Ask(request: seq<Message>, tools: bool, last: bool, outcome: Outcome)
    | Rebuild(messages: seq<Message>)
    | Tell(steer: seq<Message>)
    | Answer(message: Message, last: bool)
    | Round(caller: Message, ran: seq<ToolCall>, results: seq<Message>, failed: bool, reminded: bool)
    | Guard(caller: Message, results: seq<Message>)
    | Stop(caller: Message)

  // ---------------------------------------------------------------- what a log amounts to

  /** The messages an event appends to the session. */
  function Added(cfg: Config, e: Event): seq<Message> {
    match e
    case Tell(ms) => ms
    case Answer(m, _) => [m]
    case Round(a, _, rs, _, reminded) => [a] + rs + (if reminded then [Plain(System, cfg.reminder)] else [])
    case Guard(a, rs) => [a] + rs + [Plain(System, GUARD_WARNING)]
    case Stop(a) => [a]
    case _ => []
  }

  /** The messages an event adds to later requests: a textless answer is not sent again. */
  function Shown(cfg: Config, e: Event): seq<Message> {
    if e.Answer? && e.message.content == "" then [] else Added(cfg, e)
  }

  function SessionAfter(cfg: Config, base: seq<Message>, t: seq<Event>): seq<Message> {
    if t == [] then base
    else if t[|t| - 1].Rebuild? then t[|t| - 1].messages
    else SessionAfter(cfg, base, t[..|t| - 1]) + Added(cfg, t[|t| - 1])
  }

  function Visible(cfg: Config, base: seq<Message>, t: seq<Event>): seq<Message> {
    if t == [] then base
    else if t[|t| - 1].Rebuild? then t[|t| - 1].messages
    else Visible(cfg, base, t[..|t| - 1]) + Shown(cfg, t[|t| - 1])
  }

  function Asks(t: seq<Event>): nat {
    if t == [] then 0 else Asks(t[..|t| - 1]) + if t[|t| - 1].Ask? then 1 else 0
  }

  /** Model calls not owed to the emergency retry: one for each pass of the loop. */
  function Tries(t: seq<Event>): int {
    Asks(t) - if Rebuilt(t) then 1 else 0
  }

  function Tells(t: seq<Event>): nat {
    if t == [] then 0 else Tells(t[..|t| - 1]) + if t[|t| - 1].Tell? then 1 else 0
  }

  predicate Rebuilt(t: seq<Event>) {
    exists i :: 0 <= i < |t| && t[i].Rebuild?
  }

  predicate Tripped(t: seq<Event>) {
    exists i :: 0 <= i < |t| && t[i].Guard?
  }

  /** Outcomes of the executed rounds, oldest first. */
  function Fails(t: seq<Event>): seq<bool> {
    if t == [] then [] else Fails(t[..|t| - 1]) + if t[|t| - 1].Round? then [t[|t| - 1].failed] else []
  }

  datatype Sig = Sig(name: string, args: string)

  function Sigs(calls: seq<ToolCall>): (s: seq<Sig>)
    ensures |s| == |calls| && forall k :: 0 <= k < |calls| ==> s[k] == Sig(calls[k].name, calls[k].args)
  {
    seq(|calls|, k requires 0 <= k < |calls| => Sig(calls[k].name, calls[k].args))
  }

  /** The calls the loop detector let pass, oldest first. */
  function Passed(t: seq<Event>): seq<Sig> {
    if t == [] then [] else Passed(t[..|t| - 1]) + if t[|t| - 1].Round? then Sigs(t[|t| - 1].caller.toolCalls) else []
  }

  /** The assistant text an event contributes to the reply. */
  function Said(e: Event): seq<string> {
    var text := if e.Answer? then e.message.content
                else if e.Round? || e.Guard? || e.Stop? then e.caller.content
                else "";
    if text == "" then [] else [text]
  }

  function Parts(t: seq<Event>): seq<string> {
    if t == [] then [] else Parts(t[..|t| - 1]) + Said(t[|t| - 1])
  }

  /** Appending an event changes each of these as its definition says. */
  lemma Snoc(cfg: Config, base: seq<Message>, t: seq<Event>, e: Event)
    ensures SessionAfter(cfg, base, t + [e]) ==
            if e.Rebuild? then e.messages else SessionAfter(cfg, base, t) + Added(cfg, e)
    ensures Visible(cfg, base, t + [e]) ==
            if e.Rebuild? then e.messages else Visible(cfg, base, t) + Shown(cfg, e)
    ensures Asks(t + [e]) == Asks(t) + if e.Ask? then 1 else 0
    ensures Tells(t + [e]) == Tells(t) + if e.Tell? then 1 else 0
    ensures Fails(t + [e]) == Fails(t) + if e.Round? then [e.failed] else []
    ensures Passed(t + [e]) == Passed(t) + if e.Round? then Sigs(e.caller.toolCalls) else []
    ensures Parts(t + [e]) == Parts(t) + Said(e)
    ensures Rebuilt(t + [e]) <==> Rebuilt(t) || e.Rebuild?
    ensures Tripped(t + [e]) <==> Tripped(t) || e.Guard?
  {
    var u := t + [e];
    assert u[..|u| - 1] == t && u[|u| - 1] == e;
    SnocFlags(t, e);
  }

  lemma SnocFlags(t: seq<Event>, e: Event)
    ensures Rebuilt(t + [e]) <==> Rebuilt(t) || e.Rebuild?
    ensures Tripped(t + [e]) <==> Tripped(t) || e.Guard?
  {
    var u := t + [e];
    assert u[|t|] == e;
    if Rebuilt(t) {
      var i :| 0 <= i < |t| && t[i].Rebuild?;
      assert u[i].Rebuild?;
    }
    if Tripped(t) {
      var i :| 0 <= i < |t| && t[i].Guard?;
      assert u[i].Guard?;
    }
  }

  /** What the executor says to the calls handed to it in the round that follows the log. */
  function Responses(w: World, t: seq<Event>, ran: seq<ToolCall>): seq<Response> {
    w.executor(|Fails(t)|)(ran)
  }

  // ---------------------------------------------------------------- legal logs

  /** No three equal signatures in a row. */
  ghost predicate NoTriple(p: seq<Sig>) {
    forall k :: 0 <= k < |p| - 2 ==> !(p[k] == p[k + 1] == p[k + 2])
  }

  /** The log ends with a reply to an ordinary request. */
  predicate Replying(t: seq<Event>) {
    t != [] && t[|t| - 1].Ask? && !t[|t| - 1].last && t[|t| - 1].outcome.Replied?
  }

  function PreparedReply(t: seq<Event>): Reply
    requires Replying(t)
  {
    Prepared(t[|t| - 1].outcome.reply, t[|t| - 1].tools)
  }

  /** `a` is the assistant message of a reply that asks for tools. */
  predicate Calling(t: seq<Event>, a: Message) {
    Replying(t) && PreparedReply(t).calls != [] && a == AssistantMessage(PreparedReply(t))
  }

  /** The turn closed with an answer: the forced one, or one after which the inbox was empty. */
  predicate Closed(t: seq<Event>) {
    || (t != [] && t[|t| - 1].Answer? && t[|t| - 1].last)
    || (|t| > 1 && t[|t| - 1].Tell? && t[|t| - 1].steer == [] && t[|t| - 2].Answer?)
  }

  /** The loop is between two model calls. */
  predicate Quiet(t: seq<Event>) {
    && (t == [] || t[|t| - 1].Tell? || t[|t| - 1].Round? || t[|t| - 1].Guard? || t[|t| - 1].Answer?)
    && !Closed(t)
  }

  /** The inbox may be drained: between calls, and after an answer only if it was saved. */
  predicate Drainable(w: World, t: seq<Event>) {
    Quiet(t) && (t != [] && t[|t| - 1].Answer? ==> !w.broken(|t|))
  }

  function FinalText(cfg: Config, o: Outcome): string {
    if o.Replied? && o.reply.content != "" then o.reply.content else cfg.fallback
  }

  /** The round that follows the log: the leading calls are run, and every call gets its message. */
  ghost predicate RoundDone(cfg: Config, w: World, t: seq<Event>, calls: seq<ToolCall>, ran: seq<ToolCall>,
                            results: seq<Message>, failed: bool) {
    && ran == calls[..CapCount(|calls|, cfg.cap)]
    && RoundMessages(calls, cfg.cap, Responses(w, t, ran), w.deferral(|calls|), results)
    && (failed <==> RoundFailed(calls, cfg.cap, Responses(w, t, ran), w.deferral(|calls|)))
  }

  /** A model call follows a drained inbox with nothing broken, or a rebuild. It is given all that is
      visible; the last one also the nudge, and no tools. */
  ghost predicate LegalAsk(cfg: Config, w: World, base: seq<Message>, pre: seq<Event>, e: Event)
    requires e.Ask?
  {
    && pre != [] && !Closed(pre) && ((pre[|pre| - 1].Tell? && !w.broken(|pre|)) || (pre[|pre| - 1].Rebuild? && !e.last))
    && (if e.last then Tries(pre) == cfg.maxIterations else Tries(pre) < cfg.maxIterations)
    && e.outcome == w.reply(Asks(pre))
    && e.tools == (cfg.hasTools && !e.last && !Tripped(pre))
    && e.request == cfg.options.overhead + Visible(cfg, base, pre) + if e.last then [Plain(System, cfg.nudge)] else []
  }

  /** Once a turn, after a context-limit error, the session gives way to its emergency compaction. */
  ghost predicate LegalRebuild(cfg: Config, w: World, base: seq<Message>, pre: seq<Event>, e: Event)
    requires e.Rebuild?
  {
    && pre != [] && pre[|pre| - 1].Ask? && !pre[|pre| - 1].last && pre[|pre| - 1].outcome.ContextLimit?
    && !Rebuilt(pre)
    && Compacted(SessionAfter(cfg, base, pre), cfg.options.(mode := Emergency), w.retryNote, w.retrySummary)
       == CompactResult(e.messages, true)
  }

  /** An answer is a reply without calls, or whatever the last call came back with. */
  ghost predicate LegalAnswer(cfg: Config, pre: seq<Event>, e: Event)
    requires e.Answer?
  {
    if e.last then
      && pre != [] && pre[|pre| - 1].Ask? && pre[|pre| - 1].last
      && e.message == Plain(Assistant, FinalText(cfg, pre[|pre| - 1].outcome))
    else Replying(pre) && PreparedReply(pre).calls == [] && e.message == AssistantMessage(PreparedReply(pre))
  }

  /** A round runs when its caller was saved and completes no triple; the reminder follows the third of a
      streak of failed rounds. */
  ghost predicate LegalRound(cfg: Config, w: World, pre: seq<Event>, e: Event)
    requires e.Round?
  {
    && Calling(pre, e.caller) && !w.broken(|pre| + 1)
    && NoTriple(Passed(pre) + Sigs(e.caller.toolCalls))
    && RoundDone(cfg, w, pre, e.caller.toolCalls, e.ran, e.results, e.failed)
    && (e.reminded <==> Streak(Fails(pre) + [e.failed]) == 3)
  }

  /** A round that completes a triple is answered unrun. */
  ghost predicate LegalGuard(w: World, pre: seq<Event>, e: Event)
    requires e.Guard?
  {
    && Calling(pre, e.caller) && !w.broken(|pre| + 1)
    && !NoTriple(Passed(pre) + Sigs(e.caller.toolCalls)) && Guarded(e.caller.toolCalls, e.results)
  }

  /** What the source does next, given all it did before. */
  ghost predicate Legal(cfg: Config, w: World, base: seq<Message>, pre: seq<Event>, e: Event) {
    match e
    case Ask(_, _, _, _) => LegalAsk(cfg, w, base, pre, e)
    case Rebuild(_) => LegalRebuild(cfg, w, base, pre, e)
    case Tell(ms) => Drainable(w, pre) && ms == w.steer(Tells(pre))
    case Answer(_, _) => LegalAnswer(cfg, pre, e)
    case Round(_, _, _, _, _) => LegalRound(cfg, w, pre, e)
    case Guard(_, _) => LegalGuard(w, pre, e)
    case Stop(a) => Calling(pre, a) && w.broken(|pre| + 1)
  }

  ghost predicate LegalAt(cfg: Config, w: World, base: seq<Message>, t: seq<Event>, i: nat)
    requires i < |t|
  {
    Legal(cfg, w, base, t[..i], t[i])
  }

  ghost predicate LegalRun(cfg: Config, w: World, base: seq<Message>, t: seq<Event>) {
    forall i :: 0 <= i < |t| ==> LegalAt(cfg, w, base, t, i)
  }

  lemma LegalSnoc(cfg: Config, w: World, base: seq<Message>, t: seq<Event>, e: Event)
    requires LegalRun(cfg, w, base, t) && Legal(cfg, w, base, t, e)
    ensures LegalRun(cfg, w, base, t + [e])
  {
    var u := t + [e];
    forall i | 0 <= i < |u| ensures LegalAt(cfg, w, base, u, i) {
      if i < |t| {
        assert LegalAt(cfg, w, base, t, i);
        assert u[..i] == t[..i];
      } else {
        assert u[..i] == t;
      }
    }
  }

  lemma LegalPrefix(cfg: Config, w: World, base: seq<Message>, t: seq<Event>, i: nat)
    requires LegalRun(cfg, w, base, t) && i <= |t|
    ensures LegalRun(cfg, w, base, t[..i])
  {
    forall k | 0 <= k < i ensures LegalAt(cfg, w, base, t[..i], k) {
      assert LegalAt(cfg, w, base, t, k);
      assert t[..i][..k] == t[..k];
    }
  }

  lemma LegalNow(cfg: Config, w: World, base: seq<Message>, t: seq<Event>, i: nat)
    requires LegalRun(cfg, w, base, t) && i < |t|
    ensures Legal(cfg, w, base, t[..i], t[i])
  {
    assert LegalAt(cfg, w, base, t, i);
  }

  /** The last event of a legal log is legal after a legal log. */
  lemma LegalLast(cfg: Config, w: World, base: seq<Message>, t: seq<Event>)
    requires LegalRun(cfg, w, base, t) && t != []
    ensures LegalRun(cfg, w, base, t[..|t| - 1]) && Legal(cfg, w, base, t[..|t| - 1], t[|t| - 1])
  {
    assert LegalAt(cfg, w, base, t, |t| - 1);
    LegalPrefix(cfg, w, base, t, |t| - 1);
  }

  // ---------------------------------------------------------------- every request is well-formed

  /** What the turn relies on: consistent replies, user steering, a prompt of plain messages. */
  ghost predicate Fair(cfg: Config, w: World) {
    && (forall n :: w.reply(n).Replied? ==> GoodReply(w.reply(n).reply))
    && (forall n, k :: 0 <= k < |w.steer(n)| ==> w.steer(n)[k].role == User)
    && (forall k :: 0 <= k < |cfg.options.overhead| ==> Neutral(cfg.options.overhead[k]))
  }

  lemma CallerGood(cfg: Config, w: World, base: seq<Message>, pre: seq<Event>)
    requires LegalRun(cfg, w, base, pre) && Fair(cfg, w) && Replying(pre)
    ensures GoodCalls(PreparedReply(pre).calls)
    ensures ExpectedIDs(AssistantMessage(PreparedReply(pre))) == CallIDs(PreparedReply(pre).calls)
    ensures !pre[|pre| - 1].tools ==> PreparedReply(pre).calls == []
  {
    LegalLast(cfg, w, base, pre);
    var ask := pre[|pre| - 1];
    PreparedGood(ask.outcome.reply, ask.tools);
    AssistantExpects(PreparedReply(pre));
  }

  lemma RoundPiece(a: Message, results: seq<Message>, after: seq<Message>)
    requires a.role.Assistant? && Answers(results, ExpectedIDs(a)) && WellFormed(after)
    ensures WellFormed([a] + results + after)
  {
    BlockWellFormed(a, results);
    WellFormedConcat([a] + results, after);
  }

  /** Each event but an interrupted round adds a complete piece. */
  lemma AddedWellFormed(cfg: Config, w: World, base: seq<Message>, pre: seq<Event>, e: Event)
    requires LegalRun(cfg, w, base, pre) && Legal(cfg, w, base, pre, e) && Fair(cfg, w) && !e.Stop?
    ensures WellFormed(Added(cfg, e)) && WellFormed(Shown(cfg, e))
  {
    match e
    case Tell(ms) => NeutralWellFormed(ms);
    case Answer(m, last) =>
      if !last {
        CallerGood(cfg, w, base, pre);
      }
      NeutralWellFormed([m]);
    case Round(a, _, results, _, _) =>
      RoundWellFormed(cfg, w, base, pre, e);
    case Guard(a, results) =>
      GuardWellFormed(cfg, w, base, pre, e);
    case _ =>
  }

  lemma RoundWellFormed(cfg: Config, w: World, base: seq<Message>, pre: seq<Event>, e: Event)
    requires LegalRun(cfg, w, base, pre) && Legal(cfg, w, base, pre, e) && Fair(cfg, w) && e.Round?
    ensures WellFormed(Added(cfg, e))
  {
    var calls := e.caller.toolCalls;
    CallerGood(cfg, w, base, pre);
    RoundAnswersCalls(calls, cfg.cap, Responses(w, pre, e.ran), w.deferral(|calls|), e.results);
    NeutralWellFormed([Plain(System, cfg.reminder)]);
    RoundPiece(e.caller, e.results, if e.reminded then [Plain(System, cfg.reminder)] else []);
  }

  lemma GuardWellFormed(cfg: Config, w: World, base: seq<Message>, pre: seq<Event>, e: Event)
    requires LegalRun(cfg, w, base, pre) && Legal(cfg, w, base, pre, e) && Fair(cfg, w) && e.Guard?
    ensures WellFormed(Added(cfg, e))
  {
    CallerGood(cfg, w, base, pre);
    InCallOrderAnswers(e.results, e.caller.toolCalls);
    NeutralWellFormed([Plain(System, GUARD_WARNING)]);
    RoundPiece(e.caller, e.results, [Plain(System, GUARD_WARNING)]);
  }

  predicate Stopped(t: seq<Event>) {
    t != [] && t[|t| - 1].Stop?
  }

  /** Unless the turn was cut off inside a round, session and request are complete at every moment. */
  lemma {:induction false} AlwaysWellFormed(cfg: Config, w: World, base: seq<Message>, t: seq<Event>)
    requires LegalRun(cfg, w, base, t) && Fair(cfg, w) && WellFormed(base) && !Stopped(t)
    ensures WellFormed(SessionAfter(cfg, base, t)) && WellFormed(Visible(cfg, base, t))
  {
    if t != [] {
      var pre, e := t[..|t| - 1], t[|t| - 1];
      LegalLast(cfg, w, base, t);
      AlwaysWellFormed(cfg, w, base, pre);
      if e.Rebuild? {
        CompactionKeepsStructure(SessionAfter(cfg, base, pre), cfg.options.(mode := Emergency), w.retryNote, w.retrySummary);
      } else {
        AddedWellFormed(cfg, w, base, pre, e);
        WellFormedConcat(SessionAfter(cfg, base, pre), Added(cfg, e));
        WellFormedConcat(Visible(cfg, base, pre), Shown(cfg, e));
      }
    }
  }

  /** Every request ever sent is well-formed: one result per tool call, directly after its caller. */
  lemma EveryRequestWellFormed(cfg: Config, w: World, base: seq<Message>, t: seq<Event>, i: nat)
    requires LegalRun(cfg, w, base, t) && Fair(cfg, w) && WellFormed(base)
    requires i < |t| && t[i].Ask?
    ensures WellFormed(t[i].request)
  {
    var pre := t[..i];
    assert LegalAt(cfg, w, base, t, i);
    LegalPrefix(cfg, w, base, t, i);
    AlwaysWellFormed(cfg, w, base, pre);
    NeutralWellFormed(cfg.options.overhead);
    WellFormedConcat(cfg.options.overhead, Visible(cfg, base, pre));
    var end := if t[i].last then [Plain(System, cfg.nudge)] else [];
    NeutralWellFormed(end);
    WellFormedConcat(cfg.options.overhead + Visible(cfg, base, pre), end);
  }

  // ---------------------------------------------------------------- the repaired session

  /** All calls of the assistant have IDs. */
  ghost predicate Named(ms: seq<Message>) {
    forall k :: 0 <= k < |ms| ==> NamedMessage(ms[k])
  }

  ghost predicate NamedMessage(m: Message) {
    m.role.Assistant? ==> forall c :: c in m.toolCalls ==> c.id != ""
  }

  lemma {:induction false} ThinnedNamed(ms: seq<Message>, out: seq<Message>)
    requires Named(ms) && Thinned(ms, out)
    ensures Named(out)
    decreases |ms|
  {
    if ms != [] {
      assert NamedMessage(ms[0]);
      if out != [] && Thinned(ms[1..], out[1..]) && (out[0] == ms[0] || out[0] == Strip(ms[0])) {
        ThinnedNamed(ms[1..], out[1..]);
        assert out == [out[0]] + out[1..];
      } else {
        ThinnedNamed(ms[1..], out);
      }
    }
  }

  lemma NamedConcat(a: seq<Message>, b: seq<Message>)
    requires Named(a) && Named(b)
    ensures Named(a + b)
  {
  }

  /** Compaction never makes up a call. */
  lemma CompactedNamed(ms: seq<Message>, opts: Options, note: nat -> string, summary: string)
    requires Named(ms)
    ensures Named(Compacted(ms, opts, note, summary).messages)
  {
    var o := Normalize(opts);
    SanitizedThins(ms);
    ThinnedNamed(ms, Sanitized(ms));
    PrunedNamed(ms, o, note);
    var p := PrunedList(ms, o, note);
    if TailStart(p, o) > 0 || o.mode.Emergency? {
      NamedConcat([SummaryMessage(o, summary)], p[TailStart(p, o)..]);
    }
  }

  lemma PrunedNamed(ms: seq<Message>, o: Options, note: nat -> string)
    requires Named(Sanitized(ms))
    ensures Named(PrunedList(ms, o, note))
  {
    var s, p := Sanitized(ms), PrunedList(ms, o, note);
    forall k | 0 <= k < |p| ensures NamedMessage(p[k]) {
      assert NamedMessage(s[k]) && SameShape(s[k], p[k]);
    }
  }

  lemma AddedNamed(cfg: Config, w: World, base: seq<Message>, pre: seq<Event>, e: Event)
    requires LegalRun(cfg, w, base, pre) && Legal(cfg, w, base, pre, e) && Fair(cfg, w)
    ensures Named(Added(cfg, e))
  {
    if Replying(pre) {
      CallerGood(cfg, w, base, pre);
    }
  }

  lemma {:induction false} AlwaysNamed(cfg: Config, w: World, base: seq<Message>, t: seq<Event>)
    requires LegalRun(cfg, w, base, t) && Fair(cfg, w) && Named(base)
    ensures Named(SessionAfter(cfg, base, t))
  {
    if t != [] {
      var pre, e := t[..|t| - 1], t[|t| - 1];
      LegalLast(cfg, w, base, t);
      AlwaysNamed(cfg, w, base, pre);
      if e.Rebuild? {
        CompactedNamed(SessionAfter(cfg, base, pre), cfg.options.(mode := Emergency), w.retryNote, w.retrySummary);
      } else {
        AddedNamed(cfg, w, base, pre, e);
      }
    }
  }

  /** Wherever the turn ends, cut off inside a round or not, the repair that closes it leaves a
      well-formed session. */
  lemma EveryTurnRepaired(cfg: Config, w: World, base: seq<Message>, t: seq<Event>)
    requires LegalRun(cfg, w, base, t) && Fair(cfg, w)
    requires WellFormed(base) && Named(base)
    ensures WellFormed(Repaired(SessionAfter(cfg, base, t)))
  {
    if Stopped(t) {
      StoppedTurnRepaired(cfg, w, base, t);
    } else {
      AlwaysWellFormed(cfg, w, base, t);
      AlwaysNamed(cfg, w, base, t);
      LastCallerMeans(SessionAfter(cfg, base, t));
      NamedCallerFromNamed(SessionAfter(cfg, base, t));
      RepairHarmlessIff(SessionAfter(cfg, base, t));
    }
  }

  lemma NamedCallerFromNamed(ms: seq<Message>)
    requires Named(ms)
    ensures NamedCaller(ms)
  {
    LastCallerMeans(ms);
    if LastCaller(ms) >= 0 {
      assert NamedMessage(ms[LastCaller(ms)]);
    }
  }

  lemma StoppedTurnRepaired(cfg: Config, w: World, base: seq<Message>, t: seq<Event>)
    requires LegalRun(cfg, w, base, t) && Fair(cfg, w) && WellFormed(base) && Stopped(t)
    ensures WellFormed(Repaired(SessionAfter(cfg, base, t)))
  {
    var pre, a := t[..|t| - 1], t[|t| - 1].caller;
    LegalLast(cfg, w, base, t);
    AlwaysWellFormed(cfg, w, base, pre);
    var front := SessionAfter(cfg, base, pre);
    StopCallerGood(cfg, w, base, pre, a);
    RepairInterruptedRound(front, a, []);
    assert front + [a] + [] == front + [a];
  }

  lemma StopCallerGood(cfg: Config, w: World, base: seq<Message>, pre: seq<Event>, a: Message)
    requires LegalRun(cfg, w, base, pre) && Fair(cfg, w) && Calling(pre, a)
    ensures GoodCaller(a)
  {
    CallerGood(cfg, w, base, pre);
  }

  // ---------------------------------------------------------------- the guard

  /** Once the guard has tripped, no tool runs again and no request offers any. */
  lemma GuardIsPermanent(cfg: Config, w: World, base: seq<Message>, t: seq<Event>, i: nat, j: nat)
    requires LegalRun(cfg, w, base, t) && i < j < |t| && t[i].Guard?
    ensures !t[j].Round? && !t[j].Guard? && !t[j].Stop? && (t[j].Ask? ==> !t[j].tools)
  {
    assert LegalAt(cfg, w, base, t, j);
    assert t[..j][i].Guard?;
    if Replying(t[..j]) {
      assert t[..j][j - 1] == t[j - 1];
      assert LegalAt(cfg, w, base, t, j - 1);
      assert t[..j - 1][i].Guard?;
    }
  }

  /** Among all calls the detector let pass in the turn, no three in a row are the same. */
  lemma {:induction false} NoThreeInARow(cfg: Config, w: World, base: seq<Message>, t: seq<Event>)
    requires LegalRun(cfg, w, base, t)
    ensures NoTriple(Passed(t))
  {
    if t != [] {
      LegalLast(cfg, w, base, t);
      NoThreeInARow(cfg, w, base, t[..|t| - 1]);
      assert Passed(t[..|t| - 1]) + [] == Passed(t[..|t| - 1]);
    }
  }

  /** The executor is handed the leading calls of the round, as many as the cap lets through; their results
      are what it said to exactly those calls, and every other call of the round is answered with a
      deferral. A round has failed when nothing was deferred and every call failed. */
  lemma RunsWithinCap(cfg: Config, w: World, base: seq<Message>, t: seq<Event>, i: nat)
    requires LegalRun(cfg, w, base, t) && i < |t| && t[i].Round?
    ensures t[i].ran <= t[i].caller.toolCalls && t[i].ran != []
    ensures |t[i].ran| == if 0 < cfg.cap < |t[i].caller.toolCalls| then cfg.cap else |t[i].caller.toolCalls|
    ensures |t[i].results| == |t[i].caller.toolCalls|
    ensures forall k :: 0 <= k < |t[i].results| ==>
      var c := t[i].caller.toolCalls[k];
      t[i].results[k] == ToolResult(c.id, c.name,
        if k < |t[i].ran| then ResultFor(c, Responses(w, t[..i], t[i].ran)).text
        else w.deferral(|t[i].caller.toolCalls|))
    ensures t[i].failed <==>
            && |t[i].ran| == |t[i].caller.toolCalls|
            && forall c :: c in t[i].caller.toolCalls ==> ResultFor(c, Responses(w, t[..i], t[i].ran)).failed
  {
    assert LegalAt(cfg, w, base, t, i);
    var calls := t[i].caller.toolCalls;
    FailedMeans(calls, cfg.cap, Responses(w, t[..i], t[i].ran), w.deferral(|calls|));
  }

  // ---------------------------------------------------------------- one retry, one final request

  lemma RebuiltBefore(cfg: Config, w: World, base: seq<Message>, t: seq<Event>, i: nat, j: nat)
    requires LegalRun(cfg, w, base, t) && i < j < |t| && t[i].Rebuild?
    ensures !t[j].Rebuild?
  {
    assert LegalAt(cfg, w, base, t, j);
    assert t[..j][i].Rebuild?;
  }

  lemma RebuildFollowsLimit(cfg: Config, w: World, base: seq<Message>, t: seq<Event>, i: nat)
    requires LegalRun(cfg, w, base, t) && i < |t| && t[i].Rebuild?
    ensures i > 0 && t[i - 1].Ask? && !t[i - 1].last && t[i - 1].outcome.ContextLimit?
    ensures Compacted(SessionAfter(cfg, base, t[..i]), cfg.options.(mode := Emergency), w.retryNote, w.retrySummary)
         == CompactResult(t[i].messages, true)
  {
    assert LegalAt(cfg, w, base, t, i);
  }

  lemma TrippedBetween(t: seq<Event>, i: nat, j: nat)
    requires i <= j <= |t|
    requires forall k :: i <= k < j ==> !t[k].Guard?
    ensures Tripped(t[..i]) == Tripped(t[..j])
  {
    if Tripped(t[..i]) {
      var k :| 0 <= k < i && t[..i][k].Guard?;
      assert t[..j][k].Guard?;
    }
    if Tripped(t[..j]) {
      var k :| 0 <= k < j && t[..j][k].Guard?;
      assert t[k].Guard? && t[..i][k].Guard?;
    }
  }

  lemma ToolsOffered(cfg: Config, w: World, base: seq<Message>, t: seq<Event>, i: nat)
    requires LegalRun(cfg, w, base, t) && i < |t| && t[i].Ask?
    ensures t[i].tools == (cfg.hasTools && !t[i].last && !Tripped(t[..i]))
  {
    assert LegalAt(cfg, w, base, t, i);
  }

  /** The emergency retry: a rebuild directly answers a context-limit error with the emergency compaction of the
      session, is the only one of the turn, and is followed by nothing but the failed request anew. */
  lemma RetryAsksTheSame(cfg: Config, w: World, base: seq<Message>, t: seq<Event>, i: nat)
    requires LegalRun(cfg, w, base, t) && i < |t| && t[i].Rebuild?
    ensures i > 0 && t[i - 1].Ask? && t[i - 1].outcome.ContextLimit?
    ensures Compacted(SessionAfter(cfg, base, t[..i]), cfg.options.(mode := Emergency), w.retryNote, w.retrySummary)
         == CompactResult(t[i].messages, true)
    ensures forall j :: 0 <= j < |t| && j != i ==> !t[j].Rebuild?
    ensures i + 1 < |t| ==>
      && t[i + 1].Ask? && t[i + 1].tools == t[i - 1].tools
      && t[i + 1].request == cfg.options.overhead + t[i].messages
  {
    RebuildFollowsLimit(cfg, w, base, t, i);
    forall j | 0 <= j < |t| && j != i ensures !t[j].Rebuild? {
      if t[j].Rebuild? {
        RebuiltBefore(cfg, w, base, t, if i < j then i else j, if i < j then j else i);
      }
    }
    if i + 1 < |t| {
      TrippedBetween(t, i - 1, i + 1);
      ToolsOffered(cfg, w, base, t, i - 1);
      NextIsAsk(cfg, w, base, t, i);
    }
  }

  lemma NextIsAsk(cfg: Config, w: World, base: seq<Message>, t: seq<Event>, i: nat)
    requires LegalRun(cfg, w, base, t) && i < |t| - 1 && t[i].Rebuild?
    ensures t[i + 1].Ask? && !t[i + 1].last && t[i + 1].tools == (cfg.hasTools && !Tripped(t[..i + 1]))
    ensures t[i + 1].request == cfg.options.overhead + t[i].messages
  {
    assert LegalAt(cfg, w, base, t, i + 1);
    var pre := t[..i + 1];
    assert pre[|pre| - 1] == t[i];
    assert Visible(cfg, base, pre) == t[i].messages;
    assert cfg.options.overhead + t[i].messages + [] == cfg.options.overhead + t[i].messages;
  }

  /** The request without tools that forces a final answer comes when every iteration has made its call, and is
      the last one: only its answer follows. */
  lemma FinalRequestIsLast(cfg: Config, w: World, base: seq<Message>, t: seq<Event>, i: nat)
    requires LegalRun(cfg, w, base, t) && i < |t| && t[i].Ask? && t[i].last
    ensures |t| <= i + 2 && (i + 1 < |t| ==> t[i + 1].Answer? && t[i + 1].last)
    ensures !t[i].tools && Asks(t[..i]) == cfg.maxIterations + if Rebuilt(t[..i]) then 1 else 0
  {
    assert LegalAt(cfg, w, base, t, i);
    if i + 1 < |t| {
      assert LegalAt(cfg, w, base, t, i + 1);
      assert t[..i + 1][i] == t[i];
    }
    if i + 2 < |t| {
      LegalNow(cfg, w, base, t, i + 2);
    }
  }

  /** A closed turn does nothing more. */
  lemma NothingAfterClosing(cfg: Config, w: World, base: seq<Message>, t: seq<Event>, i: nat)
    requires LegalRun(cfg, w, base, t) && i <= |t| && Closed(t[..i])
    ensures i == |t|
  {
    if i < |t| {
      LegalNow(cfg, w, base, t, i);
    }
  }

  /** The log has reached its forced final request. */
  predicate Final(t: seq<Event>) {
    t != [] && (t[|t| - 1].Ask? || t[|t| - 1].Answer?) && t[|t| - 1].last
  }

  lemma TriesSnoc(cfg: Config, w: World, base: seq<Message>, t: seq<Event>, e: Event)
    requires Legal(cfg, w, base, t, e)
    ensures Tries(t + [e]) == Tries(t) + if e.Ask? then 1 else if e.Rebuild? then -1 else 0
  {
    SnocFlags(t, e);
    assert (t + [e])[..|t|] == t;
  }

  lemma TriesStep(cfg: Config, w: World, base: seq<Message>, t: seq<Event>, e: Event)
    requires Legal(cfg, w, base, t, e)
    requires Tries(t) <= cfg.maxIterations + if Final(t) then 1 else 0
    ensures Tries(t + [e]) <= cfg.maxIterations + if Final(t + [e]) then 1 else 0
  {
    TriesSnoc(cfg, w, base, t, e);
    assert (t + [e])[|t|] == e;
  }

  /** A turn makes at most one model call per iteration, the forced one, and one retry. */
  lemma {:induction false} CallsBounded(cfg: Config, w: World, base: seq<Message>, t: seq<Event>)
    requires LegalRun(cfg, w, base, t)
    ensures Tries(t) <= cfg.maxIterations + if Final(t) then 1 else 0
    ensures Asks(t) <= cfg.maxIterations + 2
  {
    if t != [] {
      LegalLast(cfg, w, base, t);
      CallsBounded(cfg, w, base, t[..|t| - 1]);
      TriesStep(cfg, w, base, t[..|t| - 1], t[|t| - 1]);
      assert t == t[..|t| - 1] + [t[|t| - 1]];
    }
  }

  // ---------------------------------------------------------------- the failure reminder

  lemma {:induction false} FailsPrefix(t: seq<Event>, i: nat)
    requires i <= |t|
    ensures Fails(t[..i]) <= Fails(t)
    decreases |t|
  {
    if i == |t| {
      assert t[..i] == t;
    } else {
      FailsPrefix(t[..|t| - 1], i);
      assert t[..|t| - 1][..i] == t[..i];
    }
  }

  lemma FailsAt(t: seq<Event>, i: nat)
    requires i < |t| && t[i].Round?
    ensures |Fails(t[..i])| < |Fails(t)|
    ensures Fails(t)[..|Fails(t[..i])| + 1] == Fails(t[..i]) + [t[i].failed]
  {
    assert t[..i + 1][..i] == t[..i];
    FailsPrefix(t, i + 1);
  }

  lemma RemindedIff(cfg: Config, w: World, base: seq<Message>, t: seq<Event>, i: nat)
    requires LegalRun(cfg, w, base, t) && i < |t| && t[i].Round?
    ensures t[i].reminded <==> Streak(Fails(t[..i]) + [t[i].failed]) == 3
  {
    assert LegalAt(cfg, w, base, t, i);
  }

  lemma RemindedInStreak(cfg: Config, w: World, base: seq<Message>, t: seq<Event>, i: nat, lo: nat, hi: nat)
    requires LegalRun(cfg, w, base, t) && i < |t| && t[i].Round?
    requires MaximalStreak(Fails(t), lo, hi) && lo <= |Fails(t[..i])| < hi
    ensures t[i].reminded <==> |Fails(t[..i])| == lo + 2
  {
    var n := |Fails(t[..i])| + 1;
    RemindedIff(cfg, w, base, t, i);
    FailsAt(t, i);
    OneReminderPerStreak(Fails(t), lo, hi, n);
    CounterIsStreak(Fails(t)[..n]);
  }

  /** The reminder follows exactly the third round of each maximal streak of all-failed executed rounds,
      and no round with a success. */
  lemma ReminderOncePerStreak(cfg: Config, w: World, base: seq<Message>, t: seq<Event>, i: nat)
    requires LegalRun(cfg, w, base, t) && i < |t| && t[i].Round?
    ensures !t[i].failed ==> !t[i].reminded
    ensures forall lo: nat, hi: nat :: MaximalStreak(Fails(t), lo, hi) && lo <= |Fails(t[..i])| < hi ==>
      (t[i].reminded <==> |Fails(t[..i])| == lo + 2)
  {
    RemindedIff(cfg, w, base, t, i);
    forall lo: nat, hi: nat | MaximalStreak(Fails(t), lo, hi) && lo <= |Fails(t[..i])| < hi
      ensures t[i].reminded <==> |Fails(t[..i])| == lo + 2
    {
      RemindedInStreak(cfg, w, base, t, i, lo, hi);
    }
  }
}
