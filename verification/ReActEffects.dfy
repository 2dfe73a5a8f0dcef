/** What the logs of a turn amount to in plain terms: each request from the one before it, the session after
    each event, the text delivered at the end (internal/agent/loop.go). */
module ReActEffects {
  import opened Messages
  import opened ToolPairs
  import opened Compaction
  import opened FailurePolicy
  import opened ToolRounds
  import opened ReAct
  import opened ReActLoop
  import Bubbles
  import Text

  // ---------------------------------------------------------------- what follows what

  /** The steering drained in a stretch of the log, in order. */
  function Told(t: seq<Event>): seq<Message> {
    if t == [] then [] else Told(t[..|t| - 1]) + if t[|t| - 1].Tell? then t[|t| - 1].steer else []
  }

  /** A model call is followed by what was made of its outcome. */
  lemma AfterAsk(cfg: Config, w: World, base: seq<Message>, t: seq<Event>, i: nat)
    requires LegalRun(cfg, w, base, t) && 0 < i < |t| && t[i - 1].Ask?
    ensures t[i].Rebuild? || t[i].Answer? || t[i].Round? || t[i].Guard? || t[i].Stop?
  {
    LegalNow(cfg, w, base, t, i);
  }

  /** Anything else is followed by a model call or a drain. */
  lemma AfterOther(cfg: Config, w: World, base: seq<Message>, t: seq<Event>, i: nat)
    requires LegalRun(cfg, w, base, t) && i < |t| && (i > 0 ==> !t[i - 1].Ask?)
    ensures t[i].Ask? || t[i].Tell?
    ensures i > 0 && t[i - 1].Rebuild? ==> t[i].Ask?
    ensures i > 0 && t[i].Ask? ==> t[i - 1].Tell? || t[i - 1].Rebuild?
  {
    LegalNow(cfg, w, base, t, i);
  }

  lemma {:induction false} ToldOnly(cfg: Config, base: seq<Message>, t: seq<Event>, a: nat, b: nat)
    requires a <= b <= |t| && forall i :: a <= i < b ==> t[i].Tell?
    ensures Visible(cfg, base, t[..b]) == Visible(cfg, base, t[..a]) + Told(t[a..b])
    decreases b
  {
    if a < b {
      ToldOnly(cfg, base, t, a, b - 1);
      assert t[..b][..b - 1] == t[..b - 1];
      assert t[a..b][..b - 1 - a] == t[a..b - 1];
      Assoc(Visible(cfg, base, t[..a]), Told(t[a..b - 1]), t[b - 1].steer);
    } else {
      Assoc(Visible(cfg, base, t[..a]), [], []);
    }
  }

  /** A turn whose history is below the trigger limit starts from the sanitized history; any other from its
      proactive compaction, which ends with the history's protected tail. */
  lemma StartsFrom(cfg: Config, w: World, history: seq<Message>)
    ensures var o := Normalize(cfg.options.(mode := Proactive));
            !Reaches(history, o, o.triggerPercent) ==> Base(cfg, w, history) == Sanitized(history)
    ensures var o := cfg.options.(mode := Proactive);
            TailStart(Sanitized(history), o) > 0 ==>
              EndsWith(Base(cfg, w, history), Sanitized(history)[TailStart(Sanitized(history), o)..])
  {
    CompactionOutcome(history, cfg.options.(mode := Proactive), w.startNote, w.startSummary);
    if TailStart(Sanitized(history), cfg.options.(mode := Proactive)) > 0 {
      ProtectedTailSurvives(history, cfg.options.(mode := Proactive), w.startNote, w.startSummary);
    }
  }

  // ---------------------------------------------------------------- each request from the one before

  /** The first request is the prompt, the session the turn started from, and the steering so far. */
  lemma FirstRequest(cfg: Config, w: World, base: seq<Message>, t: seq<Event>, k: nat)
    requires LegalRun(cfg, w, base, t) && k < |t| && t[k].Ask?
    requires forall i :: 0 <= i < k ==> !t[i].Ask?
    ensures t[k].request == cfg.options.overhead + (base + Told(t[..k])) + if t[k].last then [Plain(System, cfg.nudge)] else []
  {
    forall i | 0 <= i < k ensures t[i].Tell? {
      AfterOther(cfg, w, base, t, i);
    }
    ToldOnly(cfg, base, t, 0, k);
    assert t[0..k] == t[..k] && t[..0] == [];
    LegalNow(cfg, w, base, t, k);
  }

  /** `next` is `request` and what came of it, the steering drained since, and the nudge if it is the last. */
  ghost predicate Continues(cfg: Config, next: Event, request: seq<Message>, piece: seq<Message>, told: seq<Message>)
    requires next.Ask?
  {
    next.request == request + piece + told + if next.last then [Plain(System, cfg.nudge)] else []
  }

  /** Each request but the first, from the one before it. After an emergency rebuild it is the prompt and the
      rebuilt session. Otherwise it is the earlier request, and behind it: an answer, if it has text; or a
      caller with the results of its round and the reminder when it was due; or a caller with the guard's
      answers and warning; then the steering drained since. */
  lemma RequestGrows(cfg: Config, w: World, base: seq<Message>, t: seq<Event>, j: nat, k: nat)
    requires LegalRun(cfg, w, base, t) && j < k < |t| && t[j].Ask? && t[k].Ask?
    requires forall i :: j < i < k ==> !t[i].Ask?
    ensures !t[j].last && j + 1 < k
    ensures t[j + 1].Rebuild? || t[j + 1].Answer? || t[j + 1].Round? || t[j + 1].Guard?
    ensures t[j + 1].Rebuild? ==> k == j + 2 && t[k].request == cfg.options.overhead + t[j + 1].messages && !t[k].last
    ensures !t[j + 1].Rebuild? ==> forall i :: j + 1 < i < k ==> t[i].Tell?
    ensures t[j + 1].Answer? ==>
      Continues(cfg, t[k], t[j].request, if t[j + 1].message.content == "" then [] else [t[j + 1].message], Told(t[j + 2..k]))
    ensures t[j + 1].Round? ==>
      Continues(cfg, t[k], t[j].request,
                [t[j + 1].caller] + t[j + 1].results + (if t[j + 1].reminded then [Plain(System, cfg.reminder)] else []),
                Told(t[j + 2..k]))
    ensures t[j + 1].Guard? ==>
      Continues(cfg, t[k], t[j].request,
                [t[j + 1].caller] + t[j + 1].results + [Plain(System, GUARD_WARNING)], Told(t[j + 2..k]))
  {
    var e := t[j + 1];
    AfterAsk(cfg, w, base, t, j + 1);
    AfterOther(cfg, w, base, t, j + 2);
    NotAfterLast(cfg, w, base, t, j, k);
    if e.Rebuild? {
      NextIsAsk(cfg, w, base, t, j + 1);
    } else {
      NotAfterStop(cfg, w, base, t, j + 1);
      forall i | j + 1 < i < k ensures t[i].Tell? {
        AfterOther(cfg, w, base, t, i);
      }
      ToldOnly(cfg, base, t, j + 2, k);
      VisibleAfter(cfg, base, t, j, e);
      LegalNow(cfg, w, base, t, j);
      LegalNow(cfg, w, base, t, k);
      Regroup(cfg.options.overhead, Visible(cfg, base, t[..j]), Shown(cfg, e), Told(t[j + 2..k]));
    }
  }

  lemma NotAfterLast(cfg: Config, w: World, base: seq<Message>, t: seq<Event>, j: nat, k: nat)
    requires LegalRun(cfg, w, base, t) && j < k < |t| && t[j].Ask? && t[k].Ask?
    ensures !t[j].last
  {
    if t[j].last {
      FinalRequestIsLast(cfg, w, base, t, j);
    }
  }

  lemma NotAfterStop(cfg: Config, w: World, base: seq<Message>, t: seq<Event>, i: nat)
    requires LegalRun(cfg, w, base, t) && i + 1 < |t|
    ensures !t[i].Stop?
  {
    LegalNow(cfg, w, base, t, i + 1);
  }

  lemma VisibleAfter(cfg: Config, base: seq<Message>, t: seq<Event>, j: nat, e: Event)
    requires j + 1 < |t| && t[j].Ask? && t[j + 1] == e && !e.Rebuild?
    ensures Visible(cfg, base, t[..j + 2]) == Visible(cfg, base, t[..j]) + Shown(cfg, e)
  {
    assert t[..j + 2][..j + 1] == t[..j + 1] && t[..j + 1][..j] == t[..j];
    Assoc(Visible(cfg, base, t[..j]), [], []);
  }

  lemma Regroup(a: seq<Message>, b: seq<Message>, c: seq<Message>, d: seq<Message>)
    ensures a + (b + c + d) == a + b + [] + c + d
  {
  }

  // ---------------------------------------------------------------- the session

  /** What each event does to the session. Every answer is saved, with or without text. */
  lemma SessionGrows(cfg: Config, base: seq<Message>, t: seq<Event>, i: nat)
    requires i < |t|
    ensures var before, after := SessionAfter(cfg, base, t[..i]), SessionAfter(cfg, base, t[..i + 1]);
            match t[i]
            case Ask(_, _, _, _) => after == before
            case Rebuild(ms) => after == ms
            case Tell(steer) => after == before + steer
            case Answer(m, _) => after == before + [m]
            case Round(caller, _, results, _, reminded) =>
              after == before + ([caller] + results + if reminded then [Plain(System, cfg.reminder)] else [])
            case Guard(caller, results) => after == before + ([caller] + results + [Plain(System, GUARD_WARNING)])
            case Stop(caller) => after == before + [caller]
  {
    assert t[..i + 1][..i] == t[..i];
    Assoc(SessionAfter(cfg, base, t[..i]), [], []);
  }

  /** A request shows the whole session, but for answers without text. */
  lemma {:induction false} SessionShown(cfg: Config, base: seq<Message>, t: seq<Event>)
    requires forall i :: 0 <= i < |t| && t[i].Answer? ==> t[i].message.content != ""
    ensures Visible(cfg, base, t) == SessionAfter(cfg, base, t)
  {
    if t != [] {
      SessionShown(cfg, base, t[..|t| - 1]);
    }
  }

  lemma RequestShowsSession(cfg: Config, w: World, base: seq<Message>, t: seq<Event>, k: nat)
    requires LegalRun(cfg, w, base, t) && k < |t| && t[k].Ask?
    requires forall i :: 0 <= i < k && t[i].Answer? ==> t[i].message.content != ""
    ensures t[k].request ==
            cfg.options.overhead + SessionAfter(cfg, base, t[..k]) + if t[k].last then [Plain(System, cfg.nudge)] else []
  {
    LegalNow(cfg, w, base, t, k);
    SessionShown(cfg, base, t[..k]);
  }

  // ---------------------------------------------------------------- guard and rounds

  /** A round of calls is guarded exactly when, among all calls of the turn up to its end, three in a row
      have the same name and arguments. */
  lemma GuardIffTriple(cfg: Config, w: World, base: seq<Message>, t: seq<Event>, i: nat, seen: seq<Sig>)
    requires LegalRun(cfg, w, base, t) && i < |t| && (t[i].Round? || t[i].Guard?)
    requires seen == Passed(t[..i]) + Sigs(t[i].caller.toolCalls)
    ensures t[i].Guard? <==> exists k: nat :: k + 2 < |seen| && seen[k] == seen[k + 1] && seen[k + 1] == seen[k + 2]
  {
    LegalNow(cfg, w, base, t, i);
    if t[i].Guard? {
      var k :| 0 <= k < |seen| - 2 && seen[k] == seen[k + 1] == seen[k + 2];
    }
  }

  /** Tools are offered unless there are none, the guard has tripped, or this is the last request. */
  lemma OfferedIff(cfg: Config, w: World, base: seq<Message>, t: seq<Event>, i: nat)
    requires LegalRun(cfg, w, base, t) && i < |t| && t[i].Ask?
    ensures t[i].tools <==> cfg.hasTools && !t[i].last && forall k :: 0 <= k < i ==> !t[k].Guard?
  {
    ToolsOffered(cfg, w, base, t, i);
    if Tripped(t[..i]) {
      var k :| 0 <= k < i && t[..i][k].Guard?;
      assert t[k].Guard?;
    } else {
      forall k | 0 <= k < i ensures !t[k].Guard? {
        assert !t[..i][k].Guard?;
      }
    }
  }

  // ---------------------------------------------------------------- answers

  /** An answer is what the model said. The forced one is the text of the reply to the last request, or the
      fallback line if there is none. Any other is the text of a reply that, once prepared, calls no tool. */
  lemma AnswerMeans(cfg: Config, w: World, base: seq<Message>, t: seq<Event>, i: nat)
    requires LegalRun(cfg, w, base, t) && i < |t| && t[i].Answer?
    ensures i > 0 && t[i - 1].Ask? && t[i - 1].last == t[i].last
    ensures var o := t[i - 1].outcome;
            if t[i].last then
              t[i].message == Message(Assistant, if o.Replied? && o.reply.content != "" then o.reply.content else cfg.fallback,
                                      0, "", [], "", "", "", "", NoRaw, "")
            else
              && o.Replied?
              && var p := Prepared(o.reply, t[i - 1].tools);
                 p.calls == [] && t[i].message == Message(Assistant, p.content, 0, "", [], "", "", p.thinking, "", p.raw, "")
  {
    LegalNow(cfg, w, base, t, i);
  }

  /** The caller of a round, run, guarded or cut off, is the prepared reply that asks for it, all its calls and
      its raw JSON included. */
  lemma CallerMeans(cfg: Config, w: World, base: seq<Message>, t: seq<Event>, i: nat)
    requires LegalRun(cfg, w, base, t) && i < |t| && (t[i].Round? || t[i].Guard? || t[i].Stop?)
    ensures i > 0 && t[i - 1].Ask? && !t[i - 1].last && t[i - 1].outcome.Replied?
    ensures var p := Prepared(t[i - 1].outcome.reply, t[i - 1].tools);
            p.calls != [] && t[i].caller == Message(Assistant, p.content, 0, "", p.calls, "", "", p.thinking, "", p.raw, "")
  {
    LegalNow(cfg, w, base, t, i);
  }

  /** The assistant's text in an event. */
  function TextOf(e: Event): string {
    match e
    case Answer(m, _) => m.content
    case Round(caller, _, _, _, _) => caller.content
    case Guard(caller, _) => caller.content
    case Stop(caller) => caller.content
    case _ => ""
  }

  lemma {:induction false} PartsPrefix(t: seq<Event>, k: nat)
    requires k <= |t|
    ensures Parts(t[..k]) <= Parts(t)
    decreases |t|
  {
    if k == |t| {
      assert t[..k] == t;
    } else {
      PartsPrefix(t[..|t| - 1], k);
      assert t[..|t| - 1][..k] == t[..k];
    }
  }

  /** The reply's parts are the assistant's non-empty texts, each at its place; nothing else is a part. */
  lemma PartsAt(t: seq<Event>, k: nat)
    requires k < |t|
    ensures TextOf(t[k]) == "" ==> Parts(t[..k + 1]) == Parts(t[..k])
    ensures TextOf(t[k]) != "" ==>
      && Parts(t[..k + 1]) == Parts(t[..k]) + [TextOf(t[k])]
      && |Parts(t[..k])| < |Parts(t)| && Parts(t)[|Parts(t[..k])|] == TextOf(t[k])
  {
    assert t[..k + 1][..k] == t[..k];
    PartsPrefix(t, k + 1);
    var front, last := Parts(t[..k]), Said(t[k]);
    assert Parts(t[..k + 1]) == front + last;
    if TextOf(t[k]) != "" {
      assert last == [TextOf(t[k])];
      assert (front + last)[|front|] == TextOf(t[k]);
    }
  }

  ghost predicate EndsIn(text: string, end: string) {
    |end| <= |text| && text[|text| - |end|..] == end
  }

  /** A delivered turn closed with an answer, and what is delivered ends with the text of that answer,
      unless that is blank. */
  lemma DeliveredAnswer(cfg: Config, w: World, base: seq<Message>, t: seq<Event>, session: seq<Message>, text: string)
    returns (a: nat)
    requires Exit(cfg, w, base, t, session, Delivered(text))
    ensures a < |t| <= a + 2 && t[a].Answer?
    ensures t[a].last || (a + 1 < |t| && t[a + 1] == Tell([]))
    ensures Text.Trim(t[a].message.content) != "" ==> EndsIn(text, t[a].message.content)
  {
    a := if t[|t| - 1].Answer? then |t| - 1 else |t| - 2;
    var c := t[a].message.content;
    PartsAt(t, a);
    if a + 1 < |t| {
      PartsAt(t, a + 1);
    }
    assert t[..|t|] == t;
    if Text.Trim(c) != "" {
      assert Parts(t) == Parts(t[..a]) + [c];
      Bubbles.JoinedEndsWith(Parts(t[..a]), c);
    }
  }
}
