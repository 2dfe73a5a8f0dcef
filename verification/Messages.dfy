/** Conversation messages as the agent loop and the compactor see them
    (internal/provider/provider.go). Text is a sequence of bytes, one `char` a byte. */
module Messages {

  datatype Role = System | User | Assistant | Tool | OtherRole(tag: string)

  datatype ToolCall = ToolCall(id: string, name: string, args: string)

  /** The exact assistant JSON kept for replay. Only the tool-call IDs inside it matter here. */
  datatype RawAssistant = NoRaw | Raw(ids: seq<string>)

  datatype Message = Message(
    role: Role,
    content: string,
    parts: nat,             // number of multimodal content parts
    partsText: string,      // what TextContent yields for those parts
    toolCalls: seq<ToolCall>,
    toolCallID: string,
    name: string,
    thinking: string,
    metadata: string,
    raw: RawAssistant,
    origin: string)

  function Plain(role: Role, content: string): Message {
    Message(role, content, 0, "", [], "", "", "", "", NoRaw, "")
  }

  function ToolResult(id: string, name: string, content: string): Message {
    Message(Tool, content, 0, "", [], id, name, "", "", NoRaw, "")
  }

  /** The IDs an assistant message promises results for: every non-empty tool-call ID,
      parsed or inside the raw JSON. */
  function ExpectedIDs(m: Message): set<string> {
    (set c | c in m.toolCalls && c.id != "" :: c.id) +
    (if m.raw.Raw? then set id | id in m.raw.ids && id != "" else {})
  }

  lemma ExpectedMeans(m: Message, id: string)
    ensures id in ExpectedIDs(m) <==>
            && id != ""
            && ((exists k :: 0 <= k < |m.toolCalls| && m.toolCalls[k].id == id) || (m.raw.Raw? && id in m.raw.ids))
  {
    if exists c :: c in m.toolCalls && c.id == id {
      var c :| c in m.toolCalls && c.id == id;
      var k :| 0 <= k < |m.toolCalls| && m.toolCalls[k] == c;
    }
  }

  /** Length of the block of tool messages a list starts with. */
  function ToolRun(ms: seq<Message>): (n: nat)
    ensures n <= |ms|
    ensures forall k :: 0 <= k < n ==> ms[k].role.Tool?
    ensures n < |ms| ==> !ms[n].role.Tool?
  {
    if ms == [] || !ms[0].role.Tool? then 0 else 1 + ToolRun(ms[1..])
  }

  /** `tools` answers every pending ID once and nothing else. */
  predicate Answers(tools: seq<Message>, pending: set<string>) {
    if tools == [] then pending == {}
    else
      && tools[0].role.Tool?
      && tools[0].toolCallID in pending
      && Answers(tools[1..], pending - {tools[0].toolCallID})
  }

  /** A list a provider accepts: each assistant message with tool calls is followed at once by
      exactly one result per call, and no tool message stands anywhere else.
      `WellFormedMeans` says what that means for every position. */
  predicate WellFormed(ms: seq<Message>)
    decreases |ms|
  {
    if ms == [] then true
    else if ms[0].role.Tool? then false
    else if ms[0].role.Assistant? && ExpectedIDs(ms[0]) != {} then
      var n := ToolRun(ms[1..]);
      Answers(ms[1..1 + n], ExpectedIDs(ms[0])) && WellFormed(ms[1 + n..])
    else WellFormed(ms[1..])
  }

  lemma {:induction false} AnswersMeans(tools: seq<Message>, pending: set<string>)
    requires Answers(tools, pending)
    ensures |tools| == |pending|
    ensures forall k :: 0 <= k < |tools| ==> tools[k].role.Tool? && tools[k].toolCallID in pending
    ensures forall id :: id in pending ==> exists k :: 0 <= k < |tools| && tools[k].toolCallID == id
    ensures forall j, k :: 0 <= j < k < |tools| ==> tools[j].toolCallID != tools[k].toolCallID
  {
    if tools != [] {
      var id0 := tools[0].toolCallID;
      AnswersMeans(tools[1..], pending - {id0});
      assert forall k :: 0 < k < |tools| ==> tools[k] == tools[1..][k - 1];
      forall id | id in pending
        ensures exists k :: 0 <= k < |tools| && tools[k].toolCallID == id
      {
        if id == id0 {
          assert tools[0].toolCallID == id;
        } else {
          assert id in pending - {id0};
          var k :| 0 <= k < |tools[1..]| && tools[1..][k].toolCallID == id;
          assert tools[k + 1].toolCallID == id;
        }
      }
    }
  }

  /** The tool message at `k` belongs to the assistant message its block directly follows. */
  ghost predicate Owned(ms: seq<Message>, k: nat)
    requires k < |ms|
  {
    exists a :: 0 <= a < k && OwnedBy(ms, k, a)
  }

  ghost predicate OwnedBy(ms: seq<Message>, k: nat, a: nat)
    requires a < k < |ms|
  {
    && ms[a].role.Assistant? && ms[k].toolCallID in ExpectedIDs(ms[a])
    && forall j :: a < j <= k ==> ms[j].role.Tool?
  }

  /** The tool block directly after `k` holds exactly one result per expected ID of `k`. */
  ghost predicate Answered(ms: seq<Message>, k: nat)
    requires k < |ms|
  {
    var block := ms[k + 1..][..ToolRun(ms[k + 1..])];
    && |block| == |ExpectedIDs(ms[k])|
    && (forall id :: id in ExpectedIDs(ms[k]) ==> exists j :: 0 <= j < |block| && block[j].toolCallID == id)
    && (forall i, j :: 0 <= i < j < |block| ==> block[i].toolCallID != block[j].toolCallID)
  }

  ghost predicate PositionOk(ms: seq<Message>, k: nat)
    requires k < |ms|
  {
    (ms[k].role.Tool? ==> Owned(ms, k)) && (ms[k].role.Assistant? ==> Answered(ms, k))
  }

  /** What well-formed says of every position, without recursion. */
  lemma {:induction false} WellFormedMeans(ms: seq<Message>, k: nat)
    requires WellFormed(ms) && k < |ms|
    ensures ms[k].role.Tool? ==> Owned(ms, k)
    ensures ms[k].role.Assistant? ==> Answered(ms, k)
  {
    EveryPositionOk(ms, k);
  }

  lemma {:induction false} EveryPositionOk(ms: seq<Message>, k: nat)
    requires WellFormed(ms) && k < |ms|
    ensures PositionOk(ms, k)
    decreases |ms|
  {
    var called := ms[0].role.Assistant? && ExpectedIDs(ms[0]) != {};
    var step := if called then 1 + ToolRun(ms[1..]) else 1;
    if k >= step {
      EveryPositionOk(ms[step..], k - step);
      PositionShift(ms, step, k);
    } else if called {
      HeadBlockMeans(ms, k);
    }
  }

  lemma PositionShift(ms: seq<Message>, s: nat, k: nat)
    requires s <= k < |ms| && PositionOk(ms[s..], k - s)
    ensures PositionOk(ms, k)
  {
    OwnedShift(ms, s, k);
    AnsweredShift(ms, s, k);
  }

  lemma HeadBlockMeans(ms: seq<Message>, k: nat)
    requires WellFormed(ms) && ms != [] && ms[0].role.Assistant? && ExpectedIDs(ms[0]) != {}
    requires k <= ToolRun(ms[1..])
    ensures if k == 0 then Answered(ms, 0) else Owned(ms, k) && !ms[k].role.Assistant?
  {
    var n := ToolRun(ms[1..]);
    var block := ms[1..1 + n];
    AnswersMeans(block, ExpectedIDs(ms[0]));
    assert ms[1..][..n] == block;
    if k > 0 {
      assert forall j :: 0 < j <= n ==> ms[j] == ms[1..][j - 1] == block[j - 1];
      HeadOwns(ms, k, n);
    }
  }

  lemma HeadOwns(ms: seq<Message>, k: nat, n: nat)
    requires 0 < k <= n < |ms| && ms[0].role.Assistant? && ms[k].toolCallID in ExpectedIDs(ms[0])
    requires forall j :: 0 < j <= n ==> ms[j].role.Tool?
    ensures Owned(ms, k)
  {
    assert OwnedBy(ms, k, 0);
  }

  lemma OwnedShift(ms: seq<Message>, s: nat, k: nat)
    requires s <= k < |ms|
    ensures Owned(ms[s..], k - s) ==> Owned(ms, k)
  {
    if Owned(ms[s..], k - s) {
      var a :| 0 <= a < k - s && OwnedBy(ms[s..], k - s, a);
      assert forall j :: s + a < j <= k ==> ms[j] == ms[s..][j - s];
      assert OwnedBy(ms, k, s + a);
    }
  }

  lemma AnsweredShift(ms: seq<Message>, s: nat, k: nat)
    requires s <= k < |ms|
    ensures Answered(ms[s..], k - s) == Answered(ms, k)
  {
    assert ms[s..][k - s + 1..] == ms[k + 1..];
  }

  lemma {:induction false} ToolRunConcat(a: seq<Message>, b: seq<Message>)
    requires b == [] || !b[0].role.Tool?
    ensures ToolRun(a + b) == ToolRun(a)
  {
    if a == [] {
      assert a + b == b;
    } else {
      assert (a + b)[1..] == a[1..] + b;
      ToolRunConcat(a[1..], b);
    }
  }

  lemma {:induction false} ToolRunAll(tools: seq<Message>)
    requires forall k :: 0 <= k < |tools| ==> tools[k].role.Tool?
    ensures ToolRun(tools) == |tools|
  {
    if tools != [] {
      ToolRunAll(tools[1..]);
    }
  }

  /** Well-formed lists can be joined. */
  lemma {:induction false} WellFormedConcat(a: seq<Message>, b: seq<Message>)
    requires WellFormed(a) && WellFormed(b)
    ensures WellFormed(a + b)
    decreases |a|
  {
    if a == [] {
      assert a + b == b;
    } else {
      assert (a + b)[1..] == a[1..] + b;
      if a[0].role.Assistant? && ExpectedIDs(a[0]) != {} {
        WellFormedConcat(a[1 + ToolRun(a[1..])..], b);
        ConcatBlock(a, b);
      } else {
        WellFormedConcat(a[1..], b);
      }
    }
  }

  lemma ConcatBlock(a: seq<Message>, b: seq<Message>)
    requires a != [] && a[0].role.Assistant? && ExpectedIDs(a[0]) != {}
    requires Answers(a[1..1 + ToolRun(a[1..])], ExpectedIDs(a[0]))
    requires WellFormed(a[1 + ToolRun(a[1..])..] + b)
    ensures WellFormed(a + b)
  {
    var n := ToolRun(a[1..]);
    BlockThenRest(a[0], a[1..1 + n], a[1 + n..] + b);
    CutThree(a, b, n);
  }

  lemma CutThree(a: seq<Message>, b: seq<Message>, n: nat)
    requires n < |a|
    ensures a + b == [a[0]] + a[1..1 + n] + (a[1 + n..] + b)
  {
  }

  lemma BlockThenRest(asst: Message, tools: seq<Message>, rest: seq<Message>)
    requires asst.role.Assistant? && ExpectedIDs(asst) != {} && Answers(tools, ExpectedIDs(asst))
    requires WellFormed(rest)
    ensures WellFormed([asst] + tools + rest)
  {
    AnswersMeans(tools, ExpectedIDs(asst));
    ToolRunAll(tools);
    ToolRunConcat(tools, rest);
    ThreePieces(asst, tools, rest);
  }

  lemma ThreePieces(asst: Message, tools: seq<Message>, rest: seq<Message>)
    ensures var ms := [asst] + tools + rest;
            ms[0] == asst && ms[1..] == tools + rest && ms[1..1 + |tools|] == tools && ms[1 + |tools|..] == rest
  {
  }

  /** Cutting a well-formed list where no tool message starts leaves a well-formed tail. */
  lemma {:induction false} WellFormedSuffix(ms: seq<Message>, c: nat)
    requires WellFormed(ms) && c <= |ms|
    requires c < |ms| ==> !ms[c].role.Tool?
    ensures WellFormed(ms[c..])
    decreases |ms|
  {
    if c == 0 {
      assert ms[0..] == ms;
    } else if ms[0].role.Assistant? && ExpectedIDs(ms[0]) != {} {
      var n := ToolRun(ms[1..]);
      if c < |ms| {
        assert ms[1..][c - 1] == ms[c];
      }
      WellFormedSuffix(ms[1 + n..], c - (1 + n));
      assert ms[1 + n..][c - (1 + n)..] == ms[c..];
    } else {
      WellFormedSuffix(ms[1..], c - 1);
      assert ms[1..][c - 1..] == ms[c..];
    }
  }

  /** A single message that neither calls nor answers a tool. */
  predicate Neutral(m: Message) {
    !m.role.Tool? && (m.role.Assistant? ==> ExpectedIDs(m) == {})
  }

  lemma {:induction false} NeutralWellFormed(ms: seq<Message>)
    requires forall k :: 0 <= k < |ms| ==> Neutral(ms[k])
    ensures WellFormed(ms)
  {
    if ms != [] {
      NeutralWellFormed(ms[1..]);
    }
  }

  /** An assistant call block with its answers is well-formed by itself. */
  lemma BlockWellFormed(asst: Message, tools: seq<Message>)
    requires asst.role.Assistant?
    requires Answers(tools, ExpectedIDs(asst))
    ensures WellFormed([asst] + tools)
  {
    if ExpectedIDs(asst) != {} {
      BlockThenRest(asst, tools, []);
      assert [asst] + tools + [] == [asst] + tools;
    } else {
      AnswersMeans(tools, ExpectedIDs(asst));
      assert [asst] + tools == [asst];
      NeutralWellFormed([asst]);
    }
  }

  /** Tool messages with exactly the IDs of `pending`, each once. */
  lemma {:induction false} AnswersIntro(tools: seq<Message>, pending: set<string>)
    requires forall k :: 0 <= k < |tools| ==> tools[k].role.Tool? && tools[k].toolCallID in pending
    requires forall j, k :: 0 <= j < k < |tools| ==> tools[j].toolCallID != tools[k].toolCallID
    requires forall id :: id in pending ==> exists k :: 0 <= k < |tools| && tools[k].toolCallID == id
    ensures Answers(tools, pending)
  {
    if tools != [] {
      var id0 := tools[0].toolCallID;
      forall id | id in pending - {id0} ensures exists k :: 0 <= k < |tools[1..]| && tools[1..][k].toolCallID == id {
        var k :| 0 <= k < |tools| && tools[k].toolCallID == id;
        assert tools[1..][k - 1].toolCallID == id;
      }
      AnswersIntro(tools[1..], pending - {id0});
    }
  }

  // ---------------------------------------------------------------- the meaning is exact

  /** The head of a list whose positions are all right: no tool message, and its block answers it. */
  lemma HeadAnswered(ms: seq<Message>)
    requires ms != [] && ms[0].role.Assistant?
    requires forall k :: 0 <= k < |ms| ==> PositionOk(ms, k)
    ensures Answers(ms[1..1 + ToolRun(ms[1..])], ExpectedIDs(ms[0]))
  {
    var n := ToolRun(ms[1..]);
    assert PositionOk(ms, 0);
    forall k | 0 < k <= n ensures ms[k].role.Tool? && ms[k].toolCallID in ExpectedIDs(ms[0]) {
      OwnerInBlock(ms, k, n);
    }
    BlockAnswers(ms, n);
  }

  lemma BlockAnswers(ms: seq<Message>, n: nat)
    requires ms != [] && n == ToolRun(ms[1..]) && Answered(ms, 0)
    requires forall k :: 0 < k <= n ==> ms[k].role.Tool? && ms[k].toolCallID in ExpectedIDs(ms[0])
    ensures Answers(ms[1..1 + n], ExpectedIDs(ms[0]))
  {
    var block := ms[1..1 + n];
    assert ms[1..][..n] == block;
    assert forall k :: 0 <= k < n ==> block[k] == ms[k + 1];
    AnswersIntro(block, ExpectedIDs(ms[0]));
  }

  lemma OwnerInBlock(ms: seq<Message>, k: nat, n: nat)
    requires ms != [] && 0 < k <= n <= ToolRun(ms[1..]) && PositionOk(ms, k)
    ensures ms[k].role.Tool? && ms[k].toolCallID in ExpectedIDs(ms[0])
  {
    assert forall j :: 0 < j <= n ==> ms[j] == ms[1..][j - 1];
    var a :| 0 <= a < k && OwnedBy(ms, k, a);
  }

  /** Behind a message that is no tool result every position keeps its meaning. */
  lemma PositionBack(ms: seq<Message>, s: nat, k: nat)
    requires s <= k < |ms| && !ms[s].role.Tool? && PositionOk(ms, k)
    ensures PositionOk(ms[s..], k - s)
  {
    AnsweredShift(ms, s, k);
    if ms[k].role.Tool? {
      var a :| 0 <= a < k && OwnedBy(ms, k, a);
      assert s <= a;
      assert forall j :: s <= j <= k ==> ms[s..][j - s] == ms[j];
      assert OwnedBy(ms[s..], k - s, a - s);
    }
  }

  /** Well-formed says exactly what it says of every position. */
  lemma WellFormedIff(ms: seq<Message>)
    ensures WellFormed(ms) <==> forall k :: 0 <= k < |ms| ==> PositionOk(ms, k)
  {
    if WellFormed(ms) {
      forall k | 0 <= k < |ms| ensures PositionOk(ms, k) {
        EveryPositionOk(ms, k);
      }
    }
    if forall k :: 0 <= k < |ms| ==> PositionOk(ms, k) {
      PositionsMakeWellFormed(ms);
    }
  }

  lemma {:induction false} PositionsMakeWellFormed(ms: seq<Message>)
    requires forall k :: 0 <= k < |ms| ==> PositionOk(ms, k)
    ensures WellFormed(ms)
    decreases |ms|
  {
    if ms != [] {
      assert PositionOk(ms, 0);
      var step := HeadStep(ms);
      if step < |ms| {
        forall k | 0 <= k < |ms| - step ensures PositionOk(ms[step..], k) {
          PositionBack(ms, step, k + step);
        }
      }
      PositionsMakeWellFormed(ms[step..]);
    }
  }

  /** How far the head reaches, and that no tool message follows it. */
  lemma HeadStep(ms: seq<Message>) returns (step: nat)
    requires ms != [] && forall k :: 0 <= k < |ms| ==> PositionOk(ms, k)
    ensures 0 < step <= |ms| && (step < |ms| ==> !ms[step].role.Tool?) && !ms[0].role.Tool?
    ensures WellFormed(ms[step..]) ==> WellFormed(ms)
  {
    assert PositionOk(ms, 0);
    var n := ToolRun(ms[1..]);
    if ms[0].role.Assistant? {
      HeadAnswered(ms);
    }
    if ms[0].role.Assistant? && ExpectedIDs(ms[0]) != {} {
      step := 1 + n;
    } else {
      step := 1;
      if |ms| > 1 && ms[1].role.Tool? {
        OwnerInBlock(ms, 1, n);
      }
    }
  }
}
