/** One round of tool calls (internal/agent/loop.go; executeToolsConcurrently in internal/agent/sdkbridge.go):
    how executor responses, deferrals, guard skips and interrupted rounds become tool messages. */
module ToolRounds {
  import opened Messages
  import opened FailurePolicy

  // ---------------------------------------------------------------- one message per call

  /** The i-th message is a result for the i-th call. */
  ghost predicate InCallOrder(tools: seq<Message>, calls: seq<ToolCall>) {
    && |tools| == |calls|
    && forall k :: 0 <= k < |calls| ==> tools[k].role.Tool? && tools[k].toolCallID == calls[k].id
  }

  lemma InCallOrderAnswers(tools: seq<Message>, calls: seq<ToolCall>)
    requires GoodCalls(calls) && InCallOrder(tools, calls)
    ensures Answers(tools, CallIDs(calls))
  {
    forall id | id in CallIDs(calls) ensures exists k :: 0 <= k < |tools| && tools[k].toolCallID == id {
      var c :| c in calls && c.id == id;
      var k :| 0 <= k < |calls| && calls[k] == c;
      assert tools[k].toolCallID == id;
    }
    AnswersIntro(tools, CallIDs(calls));
  }

  // ---------------------------------------------------------------- executing

  /** What the executor says about one call; it may say nothing, too much, or out of order. */
  datatype Response = Response(id: string, text: string, failed: bool)

  /** The executor answers the calls it is handed. */
  type Executor = seq<ToolCall> -> seq<Response>

  datatype Result = Result(id: string, name: string, text: string, failed: bool)

  const NO_RESPONSE := "tool execution did not return a result (sandbox or executor failure — check gateway logs)"
  const MISSING_RESULT := "tool execution did not return a result"

  /** The response that counts for an ID: the last one. */
  function LastFor(responses: seq<Response>, id: string): seq<Response> {
    if responses == [] then []
    else if responses[|responses| - 1].id == id then [responses[|responses| - 1]]
    else LastFor(responses[..|responses| - 1], id)
  }

  function ResultFor(call: ToolCall, responses: seq<Response>): Result {
    var r := LastFor(responses, call.id);
    if r == [] then Result(call.id, call.name, NO_RESPONSE, true)
    else Result(call.id, call.name, r[0].text, r[0].failed)
  }

  /** Runs the calls; results are realigned to them by ID, whatever came back. */
  method ExecuteTools(calls: seq<ToolCall>, executor: Executor) returns (results: seq<Result>)
    ensures |results| == |calls|
    ensures forall k :: 0 <= k < |calls| ==> results[k] == ResultFor(calls[k], executor(calls))
  {
    var responses := executor(calls);
    var byID: map<string, Response> := map[];
    for i := 0 to |responses|
      invariant forall id :: LastFor(responses[..i], id) == if id in byID then [byID[id]] else []
    {
      assert responses[..i + 1][..i] == responses[..i];
      byID := byID[responses[i].id := responses[i]];
    }
    assert responses[..|responses|] == responses;
    results := [];
    for i := 0 to |calls|
      invariant |results| == i
      invariant forall k :: 0 <= k < i ==> results[k] == ResultFor(calls[k], responses)
    {
      var tc := calls[i];
      if tc.id !in byID {
        results := results + [Result(tc.id, tc.name, NO_RESPONSE, true)];
      } else {
        var r := byID[tc.id];
        results := results + [Result(tc.id, tc.name, r.text, r.failed)];
      }
    }
  }

  /** A call's result is the last response with its ID, wherever that stood. */
  lemma {:induction false} RealignedByID(responses: seq<Response>, k: nat, call: ToolCall)
    requires k < |responses| && responses[k].id == call.id
    requires forall j :: k < j < |responses| ==> responses[j].id != call.id
    ensures ResultFor(call, responses) == Result(call.id, call.name, responses[k].text, responses[k].failed)
    decreases |responses|
  {
    if k < |responses| - 1 {
      RealignedByID(responses[..|responses| - 1], k, call);
    }
  }

  /** A call nothing was said about has failed. */
  lemma {:induction false} UnansweredFails(responses: seq<Response>, call: ToolCall)
    requires forall j :: 0 <= j < |responses| ==> responses[j].id != call.id
    ensures ResultFor(call, responses) == Result(call.id, call.name, NO_RESPONSE, true)
  {
    if responses != [] {
      UnansweredFails(responses[..|responses| - 1], call);
    }
  }

  /** How many of the emitted calls run at once; 0 means no cap. */
  function CapCount(n: nat, cap: nat): nat {
    if cap > 0 && n > cap then cap else n
  }

  /** The outcome of call `k` of a round: its own response if it ran, a deferral if it was over the cap. */
  function RoundResult(calls: seq<ToolCall>, cap: nat, responses: seq<Response>, deferral: string, k: nat): Result
    requires k < |calls|
  {
    if k < CapCount(|calls|, cap) then ResultFor(calls[k], responses)
    else Result(calls[k].id, calls[k].name, deferral, false)
  }

  /** The executed calls' results followed by one synthetic result per deferred call. */
  method RunWithCap(calls: seq<ToolCall>, cap: nat, executor: Executor, deferral: string)
    returns (executeCalls: seq<ToolCall>, results: seq<Result>)
    ensures executeCalls == calls[..CapCount(|calls|, cap)]
    ensures |results| == |calls|
    ensures forall k :: 0 <= k < |calls| ==>
      results[k] == RoundResult(calls, cap, executor(executeCalls), deferral, k)
  {
    var deferredCalls := [];
    executeCalls := calls;
    if cap > 0 && |calls| > cap {
      executeCalls, deferredCalls := calls[..cap], calls[cap..];
    }
    results := ExecuteTools(executeCalls, executor);
    for i := 0 to |deferredCalls|
      invariant |results| == |executeCalls| + i
      invariant forall k :: 0 <= k < |results| ==>
        results[k] == RoundResult(calls, cap, executor(executeCalls), deferral, k)
    {
      results := results + [Result(deferredCalls[i].id, deferredCalls[i].name, deferral, false)];
    }
    results := PadMissing(results, calls);
  }

  /** The backstop: a short list of results is completed by ID; a full one is left alone. */
  method PadMissing(results: seq<Result>, calls: seq<ToolCall>) returns (padded: seq<Result>)
    ensures |results| >= |calls| ==> padded == results
    ensures |results| < |calls| ==> |padded| == |calls| && forall k :: 0 <= k < |calls| ==>
      && padded[k].id == calls[k].id
      && (padded[k] in results || padded[k] == Result(calls[k].id, calls[k].name, MISSING_RESULT, true))
      && (forall r :: r in results && r.id == calls[k].id ==> padded[k] in results)
  {
    if |results| >= |calls| {
      return results;
    }
    var gotByID: map<string, Result> := map[];
    for i := 0 to |results|
      invariant forall id :: id in gotByID ==> gotByID[id] in results && gotByID[id].id == id
      invariant forall j :: 0 <= j < i ==> results[j].id in gotByID
    {
      gotByID := gotByID[results[i].id := results[i]];
    }
    padded := [];
    for i := 0 to |calls|
      invariant |padded| == i
      invariant forall k :: 0 <= k < i ==>
        padded[k] == if calls[k].id in gotByID then gotByID[calls[k].id]
                     else Result(calls[k].id, calls[k].name, MISSING_RESULT, true)
    {
      if calls[i].id in gotByID {
        padded := padded + [gotByID[calls[i].id]];
      } else {
        padded := padded + [Result(calls[i].id, calls[i].name, MISSING_RESULT, true)];
      }
    }
  }

  /** The tool messages of an executed round, and whether every call of it failed. */
  method ResultMessages(results: seq<Result>, calls: seq<ToolCall>) returns (tools: seq<Message>, allFailed: bool)
    requires |results| == |calls|
    ensures InCallOrder(tools, calls)
    ensures forall k :: 0 <= k < |tools| ==> tools[k] == ToolResult(calls[k].id, results[k].name, results[k].text)
    ensures allFailed <==> results != [] && forall k :: 0 <= k < |results| ==> results[k].failed
  {
    tools, allFailed := [], |results| > 0;
    for i := 0 to |results|
      invariant |tools| == i
      invariant forall k :: 0 <= k < i ==> tools[k] == ToolResult(calls[k].id, results[k].name, results[k].text)
      invariant allFailed <==> results != [] && forall k :: 0 <= k < i ==> results[k].failed
    {
      if !results[i].failed {
        allFailed := false;
      }
      tools := tools + [ToolResult(calls[i].id, results[i].name, results[i].text)];
    }
  }

  /** The tool messages a round adds to the session. */
  ghost predicate RoundMessages(calls: seq<ToolCall>, cap: nat, responses: seq<Response>, deferral: string,
                                tools: seq<Message>) {
    && |tools| == |calls|
    && forall k :: 0 <= k < |calls| ==>
         tools[k] == ToolResult(calls[k].id, calls[k].name, RoundResult(calls, cap, responses, deferral, k).text)
  }

  ghost predicate RoundFailed(calls: seq<ToolCall>, cap: nat, responses: seq<Response>, deferral: string) {
    calls != [] && forall k :: 0 <= k < |calls| ==> RoundResult(calls, cap, responses, deferral, k).failed
  }

  /** A round has failed when nothing of it was deferred and every call failed. */
  lemma FailedMeans(calls: seq<ToolCall>, cap: nat, responses: seq<Response>, deferral: string)
    ensures RoundFailed(calls, cap, responses, deferral) <==>
            calls != [] && !(0 < cap < |calls|) && forall c :: c in calls ==> ResultFor(c, responses).failed
  {
    if RoundFailed(calls, cap, responses, deferral) {
      assert 0 < cap < |calls| ==> !RoundResult(calls, cap, responses, deferral, cap).failed;
      forall c | c in calls ensures ResultFor(c, responses).failed {
        var k :| 0 <= k < |calls| && calls[k] == c;
        assert RoundResult(calls, cap, responses, deferral, k).failed;
      }
    }
  }

  method RunRound(calls: seq<ToolCall>, cap: nat, executor: Executor, deferral: string)
    returns (ran: seq<ToolCall>, tools: seq<Message>, allFailed: bool)
    ensures ran == calls[..CapCount(|calls|, cap)]
    ensures |ran| == if 0 < cap < |calls| then cap else |calls|
    ensures RoundMessages(calls, cap, executor(ran), deferral, tools)
    ensures allFailed <==> RoundFailed(calls, cap, executor(ran), deferral)
  {
    var results;
    ran, results := RunWithCap(calls, cap, executor, deferral);
    tools, allFailed := ResultMessages(results, calls);
  }

  /** Whatever the executor returned, a round answers each of its calls, in call order. */
  lemma RoundAnswersCalls(calls: seq<ToolCall>, cap: nat, responses: seq<Response>, deferral: string, tools: seq<Message>)
    requires GoodCalls(calls) && RoundMessages(calls, cap, responses, deferral, tools)
    ensures Answers(tools, CallIDs(calls))
  {
    InCallOrderAnswers(tools, calls);
  }

  const GUARD_WARNING := "Loop detected: the same tool was requested with the same arguments 3 times in a row. Tools are disabled for the final response; answer directly using the results already available, and clearly note anything still unresolved."

  const GUARD_PREFIX := "Skipped "
  const GUARD_SUFFIX := ": the same tool with the same arguments was requested 3 times in a row. Tools are disabled for the final response."

  function GuardResult(name: string): string {
    GUARD_PREFIX + name + GUARD_SUFFIX
  }

  /** The tool messages a guarded round adds to the session. */
  ghost predicate Guarded(calls: seq<ToolCall>, tools: seq<Message>) {
    && |tools| == |calls|
    && forall k :: 0 <= k < |calls| ==> tools[k] == ToolResult(calls[k].id, calls[k].name, GuardResult(calls[k].name))
  }

  /** A guarded round answers every call without running any. */
  method GuardMessages(calls: seq<ToolCall>) returns (tools: seq<Message>)
    ensures Guarded(calls, tools)
  {
    tools := [];
    for i := 0 to |calls|
      invariant |tools| == i
      invariant forall k :: 0 <= k < i ==> tools[k] == ToolResult(calls[k].id, calls[k].name, GuardResult(calls[k].name))
    {
      tools := tools + [ToolResult(calls[i].id, calls[i].name, GuardResult(calls[i].name))];
    }
  }

  // ---------------------------------------------------------------- interrupted rounds

  const STOPPED_RESULT := "(stopped — execution was interrupted before the tool returned)"

  /** Index of the newest assistant message with tool calls, or -1. */
  function LastCaller(ms: seq<Message>): int {
    if ms == [] then -1
    else if ms[|ms| - 1].role.Assistant? && ms[|ms| - 1].toolCalls != [] then |ms| - 1
    else LastCaller(ms[..|ms| - 1])
  }

  lemma {:induction false} LastCallerMeans(ms: seq<Message>)
    ensures -1 <= LastCaller(ms) < |ms|
    ensures LastCaller(ms) >= 0 ==> ms[LastCaller(ms)].role.Assistant? && ms[LastCaller(ms)].toolCalls != []
    ensures forall k :: LastCaller(ms) < k < |ms| ==> !(ms[k].role.Assistant? && ms[k].toolCalls != [])
  {
    if ms != [] {
      LastCallerMeans(ms[..|ms| - 1]);
    }
  }

  /** The IDs answered by the tool messages of a list. */
  function Resolved(ms: seq<Message>): set<string> {
    set m | m in ms && m.role.Tool? && m.toolCallID != "" :: m.toolCallID
  }

  function Padding(calls: seq<ToolCall>, resolved: set<string>): seq<Message> {
    if calls == [] then []
    else (if calls[0].id in resolved then [] else [ToolResult(calls[0].id, calls[0].name, STOPPED_RESULT)])
         + Padding(calls[1..], resolved)
  }

  /** The repaired session: a synthetic result for every call of the newest caller without one. */
  function Repaired(ms: seq<Message>): seq<Message> {
    LastCallerMeans(ms);
    if LastCaller(ms) < 0 then ms
    else ms + Padding(ms[LastCaller(ms)].toolCalls, Resolved(ms[LastCaller(ms) + 1..]))
  }

  method PadOrphanToolResults(session: seq<Message>) returns (out: seq<Message>)
    ensures out == Repaired(session)
  {
    LastCallerMeans(session);
    var last := NewestCaller(session);
    if last < 0 {
      return session;
    }
    var resolved := ResolvedIDs(session[last + 1..]);
    out := AppendPadding(session, session[last].toolCalls, resolved);
  }

  /** The repair only appends: for each call of the newest caller that no message behind it answers, a result
      that says it was stopped, and nothing else. */
  lemma RepairAppends(ms: seq<Message>, k: nat) returns (c: ToolCall)
    requires |ms| <= k < |Repaired(ms)|
    ensures ms <= Repaired(ms)
    ensures 0 <= LastCaller(ms) < |ms|
    ensures c in ms[LastCaller(ms)].toolCalls && Repaired(ms)[k] == ToolResult(c.id, c.name, STOPPED_RESULT)
    ensures forall j :: LastCaller(ms) < j < |ms| && ms[j].role.Tool? && ms[j].toolCallID != "" ==> ms[j].toolCallID != c.id
  {
    LastCallerMeans(ms);
    var n := LastCaller(ms);
    c := PaddingIs(ms[n].toolCalls, Resolved(ms[n + 1..]), k - |ms|);
    forall j | n < j < |ms| && ms[j].role.Tool? && ms[j].toolCallID != "" ensures ms[j].toolCallID != c.id {
      assert ms[n + 1..][j - n - 1] == ms[j];
    }
  }

  lemma {:induction false} PaddingIs(calls: seq<ToolCall>, resolved: set<string>, k: nat) returns (c: ToolCall)
    requires k < |Padding(calls, resolved)|
    ensures c in calls && c.id !in resolved && Padding(calls, resolved)[k] == ToolResult(c.id, c.name, STOPPED_RESULT)
  {
    if calls[0].id in resolved {
      c := PaddingIs(calls[1..], resolved, k);
    } else if k == 0 {
      c := calls[0];
    } else {
      c := PaddingIs(calls[1..], resolved, k - 1);
    }
  }

  method NewestCaller(session: seq<Message>) returns (last: int)
    ensures last == LastCaller(session)
  {
    last := |session| - 1;
    assert session[..|session|] == session;
    while last >= 0 && !(session[last].role.Assistant? && session[last].toolCalls != [])
      invariant -1 <= last < |session|
      invariant LastCaller(session) == LastCaller(session[..last + 1])
    {
      assert session[..last + 1][..last] == session[..last];
      last := last - 1;
    }
  }

  method ResolvedIDs(msgs: seq<Message>) returns (resolved: set<string>)
    ensures resolved == Resolved(msgs)
  {
    resolved := {};
    for k := 0 to |msgs|
      invariant resolved == Resolved(msgs[..k])
    {
      assert msgs[..k + 1] == msgs[..k] + [msgs[k]];
      if msgs[k].role.Tool? && msgs[k].toolCallID != "" {
        resolved := resolved + {msgs[k].toolCallID};
      }
    }
    assert msgs[..|msgs|] == msgs;
  }

  method AppendPadding(session: seq<Message>, calls: seq<ToolCall>, resolved: set<string>) returns (out: seq<Message>)
    ensures out == session + Padding(calls, resolved)
  {
    out := session;
    for i := 0 to |calls|
      invariant out + Padding(calls[i..], resolved) == session + Padding(calls, resolved)
    {
      assert calls[i..][1..] == calls[i + 1..];
      if calls[i].id !in resolved {
        out := out + [ToolResult(calls[i].id, calls[i].name, STOPPED_RESULT)];
      }
    }
  }

  function AnsweredIDs(tools: seq<Message>): set<string> {
    set m | m in tools :: m.toolCallID
  }

  /** Messages for distinct pending IDs first, then answers to the rest. */
  lemma {:induction false} AnswersConcat(a: seq<Message>, b: seq<Message>, pending: set<string>)
    requires forall k :: 0 <= k < |a| ==> a[k].role.Tool? && a[k].toolCallID in pending
    requires forall j, k :: 0 <= j < k < |a| ==> a[j].toolCallID != a[k].toolCallID
    requires Answers(b, pending - AnsweredIDs(a))
    ensures Answers(a + b, pending)
  {
    if a == [] {
      assert a + b == b && pending - AnsweredIDs(a) == pending;
    } else {
      var id0 := a[0].toolCallID;
      assert a == [a[0]] + a[1..];
      assert pending - {id0} - AnsweredIDs(a[1..]) == pending - AnsweredIDs(a);
      AnswersConcat(a[1..], b, pending - {id0});
      assert (a + b)[1..] == a[1..] + b;
    }
  }

  lemma FirstCallID(calls: seq<ToolCall>)
    requires GoodCalls(calls) && calls != []
    ensures CallIDs(calls) == {calls[0].id} + CallIDs(calls[1..])
    ensures calls[0].id !in CallIDs(calls[1..]) && GoodCalls(calls[1..])
  {
    assert calls == [calls[0]] + calls[1..];
    forall c | c in calls[1..] ensures c.id != calls[0].id {
      var k :| 0 <= k < |calls[1..]| && calls[1..][k] == c;
      assert calls[k + 1] == c;
    }
  }

  lemma AnswersCons(m: Message, rest: seq<Message>, pending: set<string>)
    requires m.role.Tool? && m.toolCallID in pending && Answers(rest, pending - {m.toolCallID})
    ensures Answers([m] + rest, pending)
  {
    assert ([m] + rest)[1..] == rest;
  }

  lemma {:induction false} PaddingAnswers(calls: seq<ToolCall>, resolved: set<string>)
    requires GoodCalls(calls)
    ensures Answers(Padding(calls, resolved), CallIDs(calls) - resolved)
  {
    if calls != [] {
      var id0 := calls[0].id;
      var rest := Padding(calls[1..], resolved);
      FirstCallID(calls);
      PaddingAnswers(calls[1..], resolved);
      if id0 in resolved {
        assert CallIDs(calls) - resolved == CallIDs(calls[1..]) - resolved;
        assert [] + rest == rest;
      } else {
        assert CallIDs(calls) - resolved - {id0} == CallIDs(calls[1..]) - resolved;
        AnswersCons(ToolResult(id0, calls[0].name, STOPPED_RESULT), rest, CallIDs(calls) - resolved);
      }
    }
  }

  /** Tool results for some of the calls of `asst`, none twice. */
  ghost predicate PartOfRound(asst: Message, tools: seq<Message>) {
    && (forall k :: 0 <= k < |tools| ==> tools[k].role.Tool? && tools[k].toolCallID in ExpectedIDs(asst))
    && (forall j, k :: 0 <= j < k < |tools| ==> tools[j].toolCallID != tools[k].toolCallID)
  }

  ghost predicate GoodCaller(asst: Message) {
    && asst.role.Assistant? && asst.toolCalls != []
    && GoodCalls(asst.toolCalls) && ExpectedIDs(asst) == CallIDs(asst.toolCalls)
  }

  /** The padding answers exactly what the results so far leave open. */
  lemma PaddedRoundAnswers(asst: Message, tools: seq<Message>)
    requires GoodCaller(asst) && PartOfRound(asst, tools)
    ensures Answers(tools + Padding(asst.toolCalls, Resolved(tools)), ExpectedIDs(asst))
  {
    var ids := CallIDs(asst.toolCalls);
    ResolvedAll(tools, ids);
    PaddingAnswers(asst.toolCalls, Resolved(tools));
    AnswersConcat(tools, Padding(asst.toolCalls, Resolved(tools)), ids);
  }

  /** A round cut off after any of its results is repaired into a well-formed one. */
  lemma RepairInterruptedRound(front: seq<Message>, asst: Message, tools: seq<Message>)
    requires WellFormed(front) && GoodCaller(asst) && PartOfRound(asst, tools)
    ensures WellFormed(Repaired(front + [asst] + tools))
  {
    var p := Padding(asst.toolCalls, Resolved(tools));
    PaddedRoundAnswers(asst, tools);
    BlockWellFormed(asst, tools + p);
    WellFormedConcat(front, [asst] + (tools + p));
    LastCallerIs(front, asst, tools);
    Regroup(front, asst, tools, p);
  }

  lemma Regroup(front: seq<Message>, asst: Message, tools: seq<Message>, p: seq<Message>)
    ensures front + [asst] + tools + p == front + ([asst] + (tools + p))
  {
  }

  lemma ResolvedAll(tools: seq<Message>, ids: set<string>)
    requires "" !in ids
    requires forall k :: 0 <= k < |tools| ==> tools[k].role.Tool? && tools[k].toolCallID in ids
    ensures ids - AnsweredIDs(tools) == ids - Resolved(tools)
  {
  }

  lemma LastCallerIs(front: seq<Message>, asst: Message, tools: seq<Message>)
    requires asst.role.Assistant? && asst.toolCalls != []
    requires forall k :: 0 <= k < |tools| ==> tools[k].role.Tool?
    ensures LastCaller(front + [asst] + tools) == |front|
    ensures Repaired(front + [asst] + tools) == front + [asst] + tools + Padding(asst.toolCalls, Resolved(tools))
  {
    var ms := front + [asst] + tools;
    LastCallerMeans(ms);
    assert ms[|front|] == asst && ms[|front| + 1..] == tools;
    assert forall k :: |front| < k < |ms| ==> ms[k] == tools[k - |front| - 1];
  }

  /** A well-formed session whose tool calls all carry IDs is left alone. */
  lemma RepairLeavesWellFormed(ms: seq<Message>)
    requires WellFormed(ms) && NamedCaller(ms)
    ensures Repaired(ms) == ms
  {
    LastCallerMeans(ms);
    var n := LastCaller(ms);
    if n >= 0 {
      forall c | c in ms[n].toolCalls ensures c.id in Resolved(ms[n + 1..]) {
        CallResolved(ms, n, c);
      }
      NothingToPad(ms[n].toolCalls, Resolved(ms[n + 1..]));
      NothingAdded(ms);
    }
  }

  lemma CallResolved(ms: seq<Message>, n: nat, c: ToolCall)
    requires WellFormed(ms) && n < |ms| && ms[n].role.Assistant? && c in ms[n].toolCalls && c.id != ""
    ensures c.id in Resolved(ms[n + 1..])
  {
    WellFormedMeans(ms, n);
    AnsweredHas(ms, n, c.id);
  }

  lemma AnsweredHas(ms: seq<Message>, n: nat, id: string)
    requires n < |ms| && Answered(ms, n) && id in ExpectedIDs(ms[n])
    ensures id in Resolved(ms[n + 1..])
  {
    var rest := ms[n + 1..];
    var j :| 0 <= j < ToolRun(rest) && rest[j].toolCallID == id;
    assert rest[j] in rest && rest[j].role.Tool?;
  }

  lemma NothingAdded(ms: seq<Message>)
    ensures ms + [] == ms
  {
  }

  lemma {:induction false} NothingToPad(calls: seq<ToolCall>, resolved: set<string>)
    requires forall c :: c in calls ==> c.id in resolved
    ensures Padding(calls, resolved) == []
  {
    if calls != [] {
      NothingToPad(calls[1..], resolved);
    }
  }

  lemma {:induction false} PaddingCovers(calls: seq<ToolCall>, resolved: set<string>, c: ToolCall) returns (k: nat)
    requires c in calls && c.id !in resolved
    ensures k < |Padding(calls, resolved)|
    ensures Padding(calls, resolved)[k].role.Tool? && Padding(calls, resolved)[k].toolCallID == c.id
  {
    if calls[0].id == c.id {
      k := 0;
    } else {
      assert c in calls[1..];
      k := PaddingCovers(calls[1..], resolved, c);
      k := k + if calls[0].id in resolved then 0 else 1;
    }
  }

  /** The newest caller has an ID for each of its calls. */
  ghost predicate NamedCaller(ms: seq<Message>) {
    LastCallerMeans(ms);
    LastCaller(ms) >= 0 ==> forall c :: c in ms[LastCaller(ms)].toolCalls ==> c.id != ""
  }

  /** Exactly when repairing a complete session is harmless: a nameless call in its newest caller gets a
      stray result, since an empty ID never counts as answered. */
  lemma RepairHarmlessIff(ms: seq<Message>)
    requires WellFormed(ms)
    ensures WellFormed(Repaired(ms)) <==> NamedCaller(ms)
  {
    LastCallerMeans(ms);
    if NamedCaller(ms) {
      RepairLeavesWellFormed(ms);
    } else {
      NamelessBreaksRepair(ms);
    }
  }

  lemma NamelessBreaksRepair(ms: seq<Message>)
    requires !NamedCaller(ms)
    ensures !WellFormed(Repaired(ms))
  {
    LastCallerMeans(ms);
    var n := LastCaller(ms);
    var c :| c in ms[n].toolCalls && c.id == "";
    var k := PaddingCovers(ms[n].toolCalls, Resolved(ms[n + 1..]), c);
    assert Repaired(ms)[|ms| + k] == Padding(ms[n].toolCalls, Resolved(ms[n + 1..]))[k];
    if WellFormed(Repaired(ms)) {
      ToolIDsNamed(Repaired(ms), |ms| + k);
    }
  }

  lemma ToolIDsNamed(ms: seq<Message>, k: nat)
    requires WellFormed(ms) && k < |ms| && ms[k].role.Tool?
    ensures ms[k].toolCallID != ""
  {
    WellFormedMeans(ms, k);
    var a :| 0 <= a < k && OwnedBy(ms, k, a);
  }
}
