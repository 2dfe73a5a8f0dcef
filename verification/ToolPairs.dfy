/** Sanitizing tool pairs (internal/agent/compaction_tool.go). */
module ToolPairs {
  import opened Messages

  predicate HasText(m: Message) {
    m.content != "" || m.parts > 0 || m.thinking != ""
  }

  function Strip(m: Message): Message {
    m.(toolCalls := [], raw := NoRaw)
  }

  /** The results kept for `pending`: the first message for each ID, in order. */
  function FirstAnswers(tools: seq<Message>, pending: set<string>): seq<Message> {
    if tools == [] then []
    else if tools[0].toolCallID in pending then
      [tools[0]] + FirstAnswers(tools[1..], pending - {tools[0].toolCallID})
    else FirstAnswers(tools[1..], pending)
  }

  /** The IDs no message of the block answers. */
  function Unanswered(tools: seq<Message>, pending: set<string>): set<string> {
    if tools == [] then pending
    else Unanswered(tools[1..], pending - {tools[0].toolCallID})
  }

  /** What sanitizing makes of a list. */
  function Sanitized(ms: seq<Message>): seq<Message>
    decreases |ms|
  {
    if ms == [] then []
    else if ms[0].role.Tool? then Sanitized(ms[1..])
    else if !ms[0].role.Assistant? || ExpectedIDs(ms[0]) == {} then [ms[0]] + Sanitized(ms[1..])
    else
      var n := ToolRun(ms[1..]);
      SanitizedBlock(ms[0], ms[1..1 + n]) + Sanitized(ms[1 + n..])
  }

  function SanitizedBlock(asst: Message, tools: seq<Message>): seq<Message> {
    if Unanswered(tools, ExpectedIDs(asst)) == {} then [asst] + FirstAnswers(tools, ExpectedIDs(asst))
    else if HasText(asst) then [Strip(asst)]
    else []
  }

  // ---------------------------------------------------------------- every output is well-formed

  lemma {:induction false} FirstAnswersComplete(tools: seq<Message>, pending: set<string>)
    requires forall k :: 0 <= k < |tools| ==> tools[k].role.Tool?
    ensures Unanswered(tools, pending) == {} ==> Answers(FirstAnswers(tools, pending), pending)
  {
    if tools != [] {
      var id := tools[0].toolCallID;
      FirstAnswersComplete(tools[1..], pending - {id});
      if id !in pending {
        assert pending - {id} == pending;
      }
    }
  }

  lemma SanitizedBlockWellFormed(asst: Message, tools: seq<Message>)
    requires asst.role.Assistant?
    requires forall k :: 0 <= k < |tools| ==> tools[k].role.Tool?
    ensures WellFormed(SanitizedBlock(asst, tools))
  {
    var ids := ExpectedIDs(asst);
    if Unanswered(tools, ids) == {} {
      FirstAnswersComplete(tools, ids);
      BlockWellFormed(asst, FirstAnswers(tools, ids));
    } else {
      assert ExpectedIDs(Strip(asst)) == {};
    }
  }

  lemma {:induction false} SanitizedWellFormed(ms: seq<Message>)
    ensures WellFormed(Sanitized(ms))
    decreases |ms|
  {
    if ms == [] {
    } else if ms[0].role.Tool? {
      SanitizedWellFormed(ms[1..]);
    } else if !ms[0].role.Assistant? || ExpectedIDs(ms[0]) == {} {
      SanitizedWellFormed(ms[1..]);
      NeutralWellFormed([ms[0]]);
      WellFormedConcat([ms[0]], Sanitized(ms[1..]));
    } else {
      var n := ToolRun(ms[1..]);
      SanitizedWellFormed(ms[1 + n..]);
      assert forall k :: 0 <= k < n ==> ms[1..1 + n][k] == ms[1..][k];
      SanitizedBlockWellFormed(ms[0], ms[1..1 + n]);
      WellFormedConcat(SanitizedBlock(ms[0], ms[1..1 + n]), Sanitized(ms[1 + n..]));
    }
  }

  // ---------------------------------------------------------------- nothing changes iff well-formed

  lemma {:induction false} AnswersKept(tools: seq<Message>, pending: set<string>)
    requires Answers(tools, pending)
    ensures FirstAnswers(tools, pending) == tools
    ensures Unanswered(tools, pending) == {}
  {
    if tools != [] {
      AnswersKept(tools[1..], pending - {tools[0].toolCallID});
    }
  }

  lemma {:induction false} WellFormedUntouched(ms: seq<Message>)
    requires WellFormed(ms)
    ensures Sanitized(ms) == ms
    decreases |ms|
  {
    if ms == [] {
    } else if ms[0].role.Assistant? && ExpectedIDs(ms[0]) != {} {
      var n := ToolRun(ms[1..]);
      AnswersKept(ms[1..1 + n], ExpectedIDs(ms[0]));
      WellFormedUntouched(ms[1 + n..]);
      assert ms == [ms[0]] + ms[1..1 + n] + ms[1 + n..];
    } else {
      WellFormedUntouched(ms[1..]);
    }
  }

  /** Sanitizing leaves a list alone exactly when it is already well-formed; so it is idempotent. */
  lemma UntouchedIffWellFormed(ms: seq<Message>)
    ensures Sanitized(ms) == ms <==> WellFormed(ms)
    ensures Sanitized(Sanitized(ms)) == Sanitized(ms)
  {
    SanitizedWellFormed(ms);
    WellFormedUntouched(Sanitized(ms));
    if WellFormed(ms) {
      WellFormedUntouched(ms);
    }
  }

  // ---------------------------------------------------------------- only tool traffic is ever dropped

  /** `out` is `ms` with some tool messages and text-less incomplete callers dropped, and some
      incomplete callers that have text stripped of their calls. */
  predicate Thinned(ms: seq<Message>, out: seq<Message>) {
    if ms == [] then out == []
    else
      || (out != [] && out[0] == ms[0] && Thinned(ms[1..], out[1..]))
      || (Caller(ms[0]) && HasText(ms[0]) && out != [] && out[0] == Strip(ms[0]) && Thinned(ms[1..], out[1..]))
      || ((ms[0].role.Tool? || (Caller(ms[0]) && !HasText(ms[0]))) && Thinned(ms[1..], out))
  }

  predicate Caller(m: Message) {
    m.role.Assistant? && ExpectedIDs(m) != {}
  }

  lemma {:induction false} ThinnedBlock(tools: seq<Message>, kept: set<string>, rest: seq<Message>, out: seq<Message>)
    requires forall k :: 0 <= k < |tools| ==> tools[k].role.Tool?
    requires Thinned(rest, out)
    ensures Thinned(tools + rest, FirstAnswers(tools, kept) + out)
  {
    if tools == [] {
      assert tools + rest == rest;
      assert FirstAnswers(tools, kept) + out == out;
    } else {
      var id := tools[0].toolCallID;
      var all := tools + rest;
      var got := FirstAnswers(tools, kept) + out;
      assert all[1..] == tools[1..] + rest;
      if id in kept {
        ThinnedBlock(tools[1..], kept - {id}, rest, out);
        assert got[1..] == FirstAnswers(tools[1..], kept - {id}) + out;
      } else {
        ThinnedBlock(tools[1..], kept, rest, out);
      }
    }
  }

  lemma {:induction false} FirstAnswersNone(tools: seq<Message>)
    ensures FirstAnswers(tools, {}) == []
  {
    if tools != [] {
      FirstAnswersNone(tools[1..]);
    }
  }

  lemma {:induction false} SanitizedThins(ms: seq<Message>)
    ensures Thinned(ms, Sanitized(ms))
    decreases |ms|
  {
    if ms == [] {
    } else if ms[0].role.Tool? {
      SanitizedThins(ms[1..]);
    } else if !Caller(ms[0]) {
      SanitizedThins(ms[1..]);
    } else {
      var n := ToolRun(ms[1..]);
      var tools, rest := ms[1..1 + n], ms[1 + n..];
      assert forall k :: 0 <= k < n ==> tools[k] == ms[1..][k];
      SanitizedThins(rest);
      assert ms == [ms[0]] + (tools + rest);
      BlockThins(ms[0], tools, rest, Sanitized(rest));
    }
  }

  lemma BlockThins(asst: Message, tools: seq<Message>, rest: seq<Message>, out: seq<Message>)
    requires Caller(asst)
    requires forall k :: 0 <= k < |tools| ==> tools[k].role.Tool?
    requires Thinned(rest, out)
    ensures Thinned([asst] + (tools + rest), SanitizedBlock(asst, tools) + out)
  {
    var ids := ExpectedIDs(asst);
    var ms := [asst] + (tools + rest);
    var got := SanitizedBlock(asst, tools) + out;
    assert ms[1..] == tools + rest;
    if Unanswered(tools, ids) == {} {
      ThinnedBlock(tools, ids, rest, out);
      assert got[1..] == FirstAnswers(tools, ids) + out;
    } else {
      ThinnedBlock(tools, {}, rest, out);
      FirstAnswersNone(tools);
      assert [] + out == out;
      if HasText(asst) {
        assert got[1..] == out;
      }
    }
  }

  function Bystanders(ms: seq<Message>): seq<Message> {
    if ms == [] then []
    else (if ms[0].role.Tool? || ms[0].role.Assistant? then [] else [ms[0]]) + Bystanders(ms[1..])
  }

  lemma {:induction false} ThinnedKeepsBystanders(ms: seq<Message>, out: seq<Message>)
    requires Thinned(ms, out)
    ensures Bystanders(out) == Bystanders(ms)
    ensures |out| <= |ms|
  {
    if ms != [] {
      if out != [] && out[0] == ms[0] && Thinned(ms[1..], out[1..]) {
        ThinnedKeepsBystanders(ms[1..], out[1..]);
      } else if Caller(ms[0]) && HasText(ms[0]) && out != [] && out[0] == Strip(ms[0]) && Thinned(ms[1..], out[1..]) {
        ThinnedKeepsBystanders(ms[1..], out[1..]);
      } else {
        ThinnedKeepsBystanders(ms[1..], out);
      }
    }
  }

  /** Every message that is neither tool nor assistant survives sanitizing, in order. */
  lemma SanitizedKeepsBystanders(ms: seq<Message>)
    ensures Bystanders(Sanitized(ms)) == Bystanders(ms)
  {
    SanitizedThins(ms);
    ThinnedKeepsBystanders(ms, Sanitized(ms));
  }

  /** A block whose calls are all answered keeps its caller and, for each call, the first answer. */
  lemma CompleteBlockSurvives(asst: Message, tools: seq<Message>, rest: seq<Message>)
    requires Caller(asst)
    requires forall k :: 0 <= k < |tools| ==> tools[k].role.Tool?
    requires rest == [] || !rest[0].role.Tool?
    requires forall id :: id in ExpectedIDs(asst) ==> exists k :: 0 <= k < |tools| && tools[k].toolCallID == id
    ensures Sanitized([asst] + tools + rest)
         == [asst] + FirstAnswers(tools, ExpectedIDs(asst)) + Sanitized(rest)
  {
    var ms := [asst] + tools + rest;
    assert ms[1..] == tools + rest;
    ToolRunConcat(tools, rest);
    ToolRunAll(tools);
    assert ms[1..1 + |tools|] == tools;
    assert ms[1 + |tools|..] == rest;
    UnansweredNone(tools, ExpectedIDs(asst));
  }

  /** An incomplete block loses its results; its caller is kept, without its calls, when it has content, a
      content part or thinking, and keeps everything else it had. */
  lemma IncompleteBlockStripped(asst: Message, tools: seq<Message>, rest: seq<Message>, id: string)
    requires Caller(asst) && id in ExpectedIDs(asst)
    requires forall k :: 0 <= k < |tools| ==> tools[k].role.Tool? && tools[k].toolCallID != id
    requires rest == [] || !rest[0].role.Tool?
    ensures asst.content != "" || asst.parts > 0 || asst.thinking != "" ==>
      Sanitized([asst] + tools + rest) ==
      [Message(asst.role, asst.content, asst.parts, asst.partsText, [], asst.toolCallID, asst.name, asst.thinking,
               asst.metadata, NoRaw, asst.origin)] + Sanitized(rest)
    ensures asst.content == "" && asst.parts == 0 && asst.thinking == "" ==>
      Sanitized([asst] + tools + rest) == Sanitized(rest)
  {
    var ms := [asst] + tools + rest;
    assert ms[1..] == tools + rest;
    ToolRunConcat(tools, rest);
    ToolRunAll(tools);
    assert ms[1..1 + |tools|] == tools;
    assert ms[1 + |tools|..] == rest;
    StillUnanswered(tools, ExpectedIDs(asst), id);
    assert [] + Sanitized(rest) == Sanitized(rest);
  }

  lemma {:induction false} StillUnanswered(tools: seq<Message>, pending: set<string>, id: string)
    requires id in pending && forall k :: 0 <= k < |tools| ==> tools[k].toolCallID != id
    ensures id in Unanswered(tools, pending)
  {
    if tools != [] {
      StillUnanswered(tools[1..], pending - {tools[0].toolCallID}, id);
    }
  }

  /** No message of the block before `k` has the same ID. */
  ghost predicate FirstOfItsID(tools: seq<Message>, k: nat)
    requires k < |tools|
  {
    forall j :: 0 <= j < k ==> tools[j].toolCallID != tools[k].toolCallID
  }

  /** The answers kept are the first ones, whatever came later for the same call. */
  lemma {:induction false} KeepsFirst(tools: seq<Message>, pending: set<string>, m: Message)
    requires m in FirstAnswers(tools, pending)
    ensures exists k :: 0 <= k < |tools| && tools[k] == m && m.toolCallID in pending && FirstOfItsID(tools, k)
  {
    var id := tools[0].toolCallID;
    if m == tools[0] && id in pending {
      assert FirstOfItsID(tools, 0);
    } else {
      var left := if id in pending then pending - {id} else pending;
      KeepsFirst(tools[1..], left, m);
      var k :| 0 <= k < |tools[1..]| && tools[1..][k] == m && m.toolCallID in left && FirstOfItsID(tools[1..], k);
      assert forall j :: 0 < j <= k ==> tools[j] == tools[1..][j - 1];
      assert tools[k + 1] == m && FirstOfItsID(tools, k + 1);
    }
  }

  lemma {:induction false} UnansweredNone(tools: seq<Message>, pending: set<string>)
    requires forall id :: id in pending ==> exists k :: 0 <= k < |tools| && tools[k].toolCallID == id
    ensures Unanswered(tools, pending) == {}
  {
    if tools != [] {
      forall id | id in pending - {tools[0].toolCallID}
        ensures exists k :: 0 <= k < |tools[1..]| && tools[1..][k].toolCallID == id
      {
        var k :| 0 <= k < |tools| && tools[k].toolCallID == id;
        assert tools[1..][k - 1].toolCallID == id;
      }
      UnansweredNone(tools[1..], pending - {tools[0].toolCallID});
    }
  }

  // ---------------------------------------------------------------- the loop

  /** Strictly smaller whenever sanitizing changed anything: the change flag is exact. */
  function Weight(ms: seq<Message>): nat {
    if ms == [] then 0
    else Weight(ms[..|ms| - 1]) + MessageWeight(ms[|ms| - 1])
  }

  function MessageWeight(m: Message): nat {
    1 + |m.toolCalls| + (if m.raw.Raw? then 1 else 0)
  }

  lemma {:induction false} WeightConcat(a: seq<Message>, b: seq<Message>)
    ensures Weight(a + b) == Weight(a) + Weight(b)
  {
    if b == [] {
      assert a + b == a;
    } else {
      assert (a + b)[..|a + b| - 1] == a + b[..|b| - 1];
      WeightConcat(a, b[..|b| - 1]);
    }
  }

  lemma CallerWeight(m: Message)
    requires Caller(m)
    ensures MessageWeight(Strip(m)) < MessageWeight(m)
  {
    assert m.raw.Raw? || exists c :: c in m.toolCalls && c.id != "";
  }

  method ExpectedToolCallIDs(m: Message) returns (ids: set<string>)
    ensures ids == ExpectedIDs(m)
  {
    ids := {};
    for i := 0 to |m.toolCalls|
      invariant ids == set c | c in m.toolCalls[..i] && c.id != "" :: c.id
    {
      assert m.toolCalls[..i + 1] == m.toolCalls[..i] + [m.toolCalls[i]];
      if m.toolCalls[i].id != "" {
        ids := ids + {m.toolCalls[i].id};
      }
    }
    assert m.toolCalls[..|m.toolCalls|] == m.toolCalls;
    if m.raw.Raw? {
      ghost var parsed := ids;
      for i := 0 to |m.raw.ids|
        invariant ids == parsed + set id | id in m.raw.ids[..i] && id != ""
      {
        assert m.raw.ids[..i + 1] == m.raw.ids[..i] + [m.raw.ids[i]];
        if m.raw.ids[i] != "" {
          ids := ids + {m.raw.ids[i]};
        }
      }
      assert m.raw.ids[..|m.raw.ids|] == m.raw.ids;
    }
  }

  /** The results picked from one block, and whether any was passed over. */
  method PickAnswers(tools: seq<Message>, expected: set<string>)
    returns (picked: seq<Message>, seen: set<string>, dropped: bool)
    ensures picked == FirstAnswers(tools, expected)
    ensures seen <= expected && expected - seen == Unanswered(tools, expected)
    ensures if dropped then Weight(picked) < Weight(tools) else picked == tools
  {
    picked, seen, dropped := [], {}, false;
    assert tools[0..] == tools && expected - {} == expected;
    for k := 0 to |tools|
      invariant seen <= expected
      invariant picked + FirstAnswers(tools[k..], expected - seen) == FirstAnswers(tools, expected)
      invariant Unanswered(tools[k..], expected - seen) == Unanswered(tools, expected)
      invariant if dropped then Weight(picked) < Weight(tools[..k]) else picked == tools[..k]
    {
      var id := tools[k].toolCallID;
      PickStep(tools, k, expected, seen);
      PickWeight(tools, k, picked);
      if id !in expected || id in seen {
        dropped := true;
      } else {
        Moved(picked, tools[k], FirstAnswers(tools[k + 1..], expected - (seen + {id})));
        seen := seen + {id};
        picked := picked + [tools[k]];
      }
    }
    assert tools[..|tools|] == tools;
  }

  lemma PickStep(tools: seq<Message>, k: nat, expected: set<string>, seen: set<string>)
    requires k < |tools|
    ensures var id := tools[k].toolCallID;
            if id !in expected || id in seen then
              && FirstAnswers(tools[k..], expected - seen) == FirstAnswers(tools[k + 1..], expected - seen)
              && Unanswered(tools[k..], expected - seen) == Unanswered(tools[k + 1..], expected - seen)
            else
              && FirstAnswers(tools[k..], expected - seen) == [tools[k]] + FirstAnswers(tools[k + 1..], expected - (seen + {id}))
              && Unanswered(tools[k..], expected - seen) == Unanswered(tools[k + 1..], expected - (seen + {id}))
  {
    var id := tools[k].toolCallID;
    assert tools[k..][0] == tools[k] && tools[k..][1..] == tools[k + 1..];
    if id !in expected || id in seen {
      assert expected - seen - {id} == expected - seen;
    } else {
      assert expected - seen - {id} == expected - (seen + {id});
    }
  }

  lemma PickWeight(tools: seq<Message>, k: nat, picked: seq<Message>)
    requires k < |tools|
    ensures tools[..k + 1] == tools[..k] + [tools[k]]
    ensures Weight(tools[..k + 1]) == Weight(tools[..k]) + MessageWeight(tools[k])
    ensures Weight(picked + [tools[k]]) == Weight(picked) + MessageWeight(tools[k])
  {
    assert tools[..k + 1][..k] == tools[..k];
    assert (picked + [tools[k]])[..|picked|] == picked;
  }

  lemma Moved(picked: seq<Message>, m: Message, rest: seq<Message>)
    ensures picked + ([m] + rest) == picked + [m] + rest
  {
  }

  /** What is kept of one assistant message and the tool block behind it. */
  method SanitizeBlock(msg: Message, block: seq<Message>, expected: set<string>)
    returns (piece: seq<Message>, touched: bool)
    requires Caller(msg) && expected == ExpectedIDs(msg)
    ensures piece == SanitizedBlock(msg, block)
    ensures if touched then Weight(piece) < Weight([msg]) + Weight(block) else piece == [msg] + block
  {
    var tools, seen, dropped := PickAnswers(block, expected);
    SameSizeSubset(seen, expected);
    if |seen| == |expected| {
      WeightConcat([msg], tools);
      return [msg] + tools, dropped;
    }
    CallerWeight(msg);
    assert Weight([msg]) == MessageWeight(msg) && Weight([Strip(msg)]) == MessageWeight(Strip(msg));
    if HasText(msg) {
      return [Strip(msg)], true;
    }
    return [], true;
  }

  /** One iteration: `messages[i..j]` is consumed and `piece` kept of it. */
  method SanitizeNext(messages: seq<Message>, i: nat) returns (j: nat, piece: seq<Message>, touched: bool)
    requires i < |messages|
    ensures i < j <= |messages|
    ensures Sanitized(messages[i..]) == piece + Sanitized(messages[j..])
    ensures Tracked(messages[i..j], piece, touched)
  {
    var msg := messages[i];
    assert messages[i..][0] == msg && messages[i..][1..] == messages[i + 1..];
    assert messages[i..i + 1] == [msg];
    if msg.role.Tool? {
      return i + 1, [], true;
    }
    var expected := ExpectedToolCallIDs(msg);
    if !msg.role.Assistant? || expected == {} {
      return i + 1, [msg], false;
    }
    j := i + 1;
    while j < |messages| && messages[j].role.Tool?
      invariant i + 1 <= j <= |messages|
      invariant ToolRun(messages[i + 1..]) == j - (i + 1) + ToolRun(messages[j..])
    {
      assert messages[j..][0] == messages[j] && messages[j..][1..] == messages[j + 1..];
      j := j + 1;
    }
    assert ToolRun(messages[j..]) == 0;
    assert messages[i..][1..j - i] == messages[i + 1..j] && messages[i..][j - i..] == messages[j..];
    assert messages[i..j] == [msg] + messages[i + 1..j];
    WeightConcat([msg], messages[i + 1..j]);
    piece, touched := SanitizeBlock(msg, messages[i + 1..j], expected);
  }

  /** `out` is what is left of `done`, and `changed` says whether anything went. */
  ghost predicate Tracked(done: seq<Message>, out: seq<Message>, changed: bool) {
    if changed then Weight(out) < Weight(done) else out == done
  }

  lemma TrackedStep(done: seq<Message>, out: seq<Message>, changed: bool,
                    more: seq<Message>, piece: seq<Message>, touched: bool)
    requires Tracked(done, out, changed) && Tracked(more, piece, touched)
    ensures Tracked(done + more, out + piece, changed || touched)
  {
    WeightConcat(done, more);
    WeightConcat(out, piece);
  }

  lemma TrackedExact(ms: seq<Message>, out: seq<Message>, changed: bool)
    requires Tracked(ms, out, changed)
    ensures changed <==> out != ms
  {
  }

  /** The sanitizer: its output is `Sanitized`, and the flag it reports is true exactly when
      the output differs from the input. */
  method SanitizeToolPairs(messages: seq<Message>) returns (out: seq<Message>, changed: bool)
    ensures out == Sanitized(messages)
    ensures changed <==> out != messages
  {
    out, changed := [], false;
    var i := 0;
    while i < |messages|
      invariant 0 <= i <= |messages|
      invariant Progress(messages, i, out, changed)
    {
      var j, piece, touched := SanitizeNext(messages, i);
      ProgressStep(messages, i, j, out, changed, piece, touched);
      out := out + piece;
      changed := changed || touched;
      i := j;
    }
    ProgressDone(messages, out, changed);
    if !changed {
      return messages, false;
    }
  }

  /** After the first `i` messages: what is left to do completes `out`, and the flag is exact so far. */
  ghost predicate Progress(messages: seq<Message>, i: nat, out: seq<Message>, changed: bool)
    requires i <= |messages|
  {
    && out + Sanitized(messages[i..]) == Sanitized(messages)
    && Tracked(messages[..i], out, changed)
  }

  lemma ProgressStep(messages: seq<Message>, i: nat, j: nat, out: seq<Message>, changed: bool,
                     piece: seq<Message>, touched: bool)
    requires i <= j <= |messages| && Progress(messages, i, out, changed)
    requires Sanitized(messages[i..]) == piece + Sanitized(messages[j..])
    requires Tracked(messages[i..j], piece, touched)
    ensures Progress(messages, j, out + piece, changed || touched)
  {
    Regroup(messages, i, j, out, piece, Sanitized(messages[j..]));
    TrackedStep(messages[..i], out, changed, messages[i..j], piece, touched);
  }

  lemma Regroup(messages: seq<Message>, i: nat, j: nat, out: seq<Message>, piece: seq<Message>, rest: seq<Message>)
    requires i <= j <= |messages|
    ensures messages[..j] == messages[..i] + messages[i..j]
    ensures out + (piece + rest) == (out + piece) + rest
  {
  }

  lemma ProgressDone(messages: seq<Message>, out: seq<Message>, changed: bool)
    requires Progress(messages, |messages|, out, changed)
    ensures out == Sanitized(messages)
    ensures changed <==> out != messages
  {
    assert messages[..|messages|] == messages && messages[|messages|..] == [];
    TrackedExact(messages, out, changed);
  }

  lemma SameSizeSubset(a: set<string>, b: set<string>)
    requires a <= b
    ensures |a| == |b| <==> b - a == {}
  {
    assert b == a + (b - a);
    assert |b| == |a| + |b - a|;
  }
}
