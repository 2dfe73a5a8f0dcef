/** The failure reminder and the tools-off rule for replies (internal/agent/failure_policy.go), with the
    call recovery it relies on (internal/agent/tool_recovery.go) as given data. */
module FailurePolicy {
  import opened Messages

  // ---------------------------------------------------------------- three failed rounds in a row

  function Observed(rounds: nat, allFailed: bool): (nat, bool) {
    if !allFailed then (0, false)
    else if rounds >= 3 then (rounds, false)
    else (rounds + 1, rounds + 1 == 3)
  }

  class FailureReminder {
    var rounds: nat

    constructor ()
      ensures rounds == 0
    {
      rounds := 0;
    }

    method Observe(allFailed: bool) returns (fire: bool)
      modifies this
      ensures (rounds, fire) == Observed(old(rounds), allFailed)
    {
      if !allFailed {
        rounds := 0;
        return false;
      }
      if rounds >= 3 {
        return false;
      }
      rounds := rounds + 1;
      return rounds == 3;
    }
  }

  /** Length of the streak of failed rounds that ends the history. */
  function Streak(flags: seq<bool>): nat {
    if flags == [] || !flags[|flags| - 1] then 0 else 1 + Streak(flags[..|flags| - 1])
  }

  function Counter(flags: seq<bool>): nat {
    if flags == [] then 0 else Observed(Counter(flags[..|flags| - 1]), flags[|flags| - 1]).0
  }

  /** Whether the reminder fires after the last round of the history. */
  predicate Fires(flags: seq<bool>) {
    flags != [] && Observed(Counter(flags[..|flags| - 1]), flags[|flags| - 1]).1
  }

  lemma {:induction false} CounterIsStreak(flags: seq<bool>)
    ensures Counter(flags) == if Streak(flags) < 3 then Streak(flags) else 3
    ensures Fires(flags) <==> Streak(flags) == 3
  {
    if flags != [] {
      CounterIsStreak(flags[..|flags| - 1]);
    }
  }

  /** Rounds lo..hi-1 all failed, and the streak extends neither way. */
  predicate MaximalStreak(flags: seq<bool>, lo: nat, hi: nat) {
    && lo < hi <= |flags|
    && (forall k :: lo <= k < hi ==> flags[k])
    && (lo > 0 ==> !flags[lo - 1])
    && (hi < |flags| ==> !flags[hi])
  }

  lemma {:induction false} StreakInside(flags: seq<bool>, lo: nat, n: nat)
    requires lo <= n <= |flags|
    requires forall k :: lo <= k < n ==> flags[k]
    requires lo > 0 ==> !flags[lo - 1]
    ensures Streak(flags[..n]) == n - lo
  {
    if n > lo {
      StreakInside(flags, lo, n - 1);
      assert flags[..n][..n - 1] == flags[..n - 1];
    }
  }

  /** The reminder fires exactly once in every maximal streak of three or more failed rounds, after its
      third round, never in a shorter one, and never after a round with a success. */
  lemma OneReminderPerStreak(flags: seq<bool>, lo: nat, hi: nat, n: nat)
    requires MaximalStreak(flags, lo, hi) && lo < n <= hi
    ensures Fires(flags[..n]) <==> n == lo + 3
  {
    StreakInside(flags, lo, n);
    CounterIsStreak(flags[..n]);
  }

  lemma NoReminderAfterSuccess(flags: seq<bool>, n: nat)
    requires 0 < n <= |flags| && !flags[n - 1]
    ensures !Fires(flags[..n])
  {
    CounterIsStreak(flags[..n]);
  }

  // ---------------------------------------------------------------- replies

  /** A model reply, with what call recovery finds in its text and the text it would leave. */
  datatype Reply = Reply(content: string, thinking: string, calls: seq<ToolCall>, raw: RawAssistant,
                         recovered: seq<ToolCall>, residual: string)

  const TOOLS_DISABLED_NOTICE := "Tools are disabled for this final response. The requested additional tool calls were not executed; the task remains incomplete."

  function Prepared(r: Reply, toolsAllowed: bool): Reply {
    if toolsAllowed then
      if r.calls != [] || r.content == "" then r
      else if r.recovered == [] then (if r.residual != r.content then r.(content := r.residual, raw := NoRaw) else r)
      else r.(calls := r.recovered, content := r.residual, raw := NoRaw)
    else if r.calls != [] || r.recovered != [] || r.residual != r.content then
      r.(content := if r.residual == "" then TOOLS_DISABLED_NOTICE else r.residual, calls := [], raw := NoRaw)
    else r
  }

  /** A reply as the provider layer hands it over, to be rewritten in place. */
  class ModelResponse {
    var content: string
    var thinking: string
    var calls: seq<ToolCall>
    var raw: RawAssistant

    constructor (r: Reply)
      ensures View(r.recovered, r.residual) == r
    {
      content, thinking, calls, raw := r.content, r.thinking, r.calls, r.raw;
    }

    function View(recovered: seq<ToolCall>, residual: string): Reply
      reads this
    {
      Reply(content, thinking, calls, raw, recovered, residual)
    }

    method MaybeRecoverToolCalls(recovered: seq<ToolCall>, residual: string)
      modifies this
      ensures View(recovered, residual) == Prepared(old(View(recovered, residual)), true)
    {
      if calls != [] || content == "" {
        return;
      }
      if recovered == [] {
        if residual != content {
          content := residual;
          raw := NoRaw;
        }
        return;
      }
      calls := recovered;
      content := residual;
      raw := NoRaw;
    }

    /** `recovered` and `residual` are what call recovery reads out of `content`. */
    method PrepareToolResponse(toolsAllowed: bool, recovered: seq<ToolCall>, residual: string)
      modifies this
      ensures View(recovered, residual) == Prepared(old(View(recovered, residual)), toolsAllowed)
    {
      if toolsAllowed {
        MaybeRecoverToolCalls(recovered, residual);
        return;
      }
      if calls != [] || recovered != [] || residual != content {
        content := residual;
        calls := [];
        raw := NoRaw;
        if content == "" {
          content := TOOLS_DISABLED_NOTICE;
        }
      }
    }
  }

  /** Distinct, non-empty call IDs. */
  ghost predicate GoodCalls(calls: seq<ToolCall>) {
    && (forall i :: 0 <= i < |calls| ==> calls[i].id != "")
    && (forall i, j :: 0 <= i < j < |calls| ==> calls[i].id != calls[j].id)
  }

  function CallIDs(calls: seq<ToolCall>): set<string> {
    set c | c in calls :: c.id
  }

  function RawIDs(raw: RawAssistant): set<string> {
    if raw.Raw? then set id | id in raw.ids && id != "" else {}
  }

  /** What is asked of the model and of recovery: good IDs, and no ID in the raw JSON beyond the parsed calls. */
  ghost predicate GoodReply(r: Reply) {
    GoodCalls(r.calls) && GoodCalls(r.recovered) && RawIDs(r.raw) <= CallIDs(r.calls)
  }

  /** A prepared reply is still consistent, and with tools off it asks for none, natively or in its text. */
  lemma PreparedGood(r: Reply, toolsAllowed: bool)
    requires GoodReply(r)
    ensures var p := Prepared(r, toolsAllowed);
            && GoodCalls(p.calls) && RawIDs(p.raw) <= CallIDs(p.calls)
            && (!toolsAllowed ==> p.calls == [])
  {
  }

  /** What preparing does, field by field. With tools allowed a reply with text and no calls gets the calls
      recovered from its text, and the text they leave. Without, it keeps no call, and the text left or the
      notice. The raw JSON goes as soon as calls or text change, and the thinking stays. */
  lemma PreparedMeans(r: Reply, toolsAllowed: bool)
    ensures var p := Prepared(r, toolsAllowed);
            && p.thinking == r.thinking
            && (toolsAllowed && (r.calls != [] || r.content == "") ==> p == r)
            && (toolsAllowed && r.calls == [] && r.content != "" ==>
                  p.calls == r.recovered && p.content == if r.recovered == [] && r.residual == r.content then r.content else r.residual)
            && (!toolsAllowed ==> p.calls == [])
            && (!toolsAllowed && r.calls == [] && r.recovered == [] && r.residual == r.content ==> p.content == r.content)
            && (!toolsAllowed && !(r.calls == [] && r.recovered == [] && r.residual == r.content) ==>
                  p.content == if r.residual == "" then TOOLS_DISABLED_NOTICE else r.residual)
            && p.raw == if p.calls == r.calls && p.content == r.content && (toolsAllowed || (r.recovered == [] && r.residual == r.content))
                        then r.raw else NoRaw
  {
  }

  function AssistantMessage(r: Reply): Message {
    Message(Assistant, r.content, 0, "", r.calls, "", "", r.thinking, "", r.raw, "")
  }

  lemma AssistantExpects(r: Reply)
    requires GoodCalls(r.calls) && RawIDs(r.raw) <= CallIDs(r.calls)
    ensures ExpectedIDs(AssistantMessage(r)) == CallIDs(r.calls)
  {
    var m := AssistantMessage(r);
    forall id | id in CallIDs(r.calls) ensures id in ExpectedIDs(m) {
      var c :| c in m.toolCalls && c.id == id;
    }
  }
}
