/**
 * Protocol translation of src/openai-service.ts: the rewrite of a target-format
 * chat request into the upstream request (system messages folded into the first
 * user message, roles collapsed), the token estimate, and the completion
 * envelopes.
 */
module Translator {
  import opened Wrappers
  import opened JsText
  import opened ChatTypes

  /** `m.content || ""`: a null content reads as the empty string. */
  function ContentText(c: Option<string>): string {
    c.GetOr("")
  }

  /** The text `${c}` produces in a template literal: null prints as "null". */
  function TemplateText(c: Option<string>): string {
    match c
    case Some(s) => s
    case None => "null"
  }

  function ModelOrDefault(model: string): string {
    if model == "" then DefaultModel else model
  }

  // ---------------------------------------------------------------------------
  // Reference definitions of the rewrite

  /** The contents of the system messages, in message order. */
  function SystemContents(msgs: seq<ChatMessage>): seq<string> {
    if msgs == [] then []
    else
      var init := SystemContents(msgs[..|msgs| - 1]);
      var last := msgs[|msgs| - 1];
      if last.role == System then init + [ContentText(last.content)] else init
  }

  /** The messages that are not system messages, in message order. */
  function NonSystem(msgs: seq<ChatMessage>): seq<ChatMessage> {
    if msgs == [] then []
    else
      var init := NonSystem(msgs[..|msgs| - 1]);
      var last := msgs[|msgs| - 1];
      if last.role == System then init else init + [last]
  }

  function DropLeadingEmpty(cs: seq<string>): seq<string> {
    if cs != [] && cs[0] == "" then DropLeadingEmpty(cs[1..]) else cs
  }

  /** The folded system text. The source adds the "\n" separator only once the
      accumulated text is non-empty, so leading empty contents vanish: this is the
      newline-join of the contents after the leading empty ones. */
  function JoinedSystem(msgs: seq<ChatMessage>): string {
    Join(DropLeadingEmpty(SystemContents(msgs)), "\n")
  }

  function Bracketed(sys: string): string {
    "[System Instruction: " + sys + "]"
  }

  /** The first user message's new content: the bracketed system text, a blank
      line, then its own text. */
  function FoldSystem(sys: string, content: Option<string>): string {
    Bracketed(sys) + "\n\n" + ContentText(content)
  }

  /** The same, as the template literal at src/openai-service.ts:87 writes it:
      a null content is rendered as the four letters "null". */
  function FoldSystemAsWritten(sys: string, content: Option<string>): string {
    Bracketed(sys) + "\n\n" + TemplateText(content)
  }

  function FirstUserIndex(msgs: seq<ChatMessage>): (r: Option<nat>)
    ensures r.Some? ==> r.value < |msgs| && msgs[r.value].role == User
                        && forall j | 0 <= j < r.value :: msgs[j].role != User
    ensures r.None? ==> forall j | 0 <= j < |msgs| :: msgs[j].role != User
  {
    if msgs == [] then None
    else if msgs[0].role == User then Some(0)
    else match FirstUserIndex(msgs[1..])
      case Some(k) => Some(k + 1)
      case None => None
  }

  function WithSystem(rest: seq<ChatMessage>, sys: string, fold: (string, Option<string>) -> string): seq<ChatMessage> {
    if sys == "" then rest
    else match FirstUserIndex(rest)
      case Some(k) => rest[k := rest[k].(content := Some(fold(sys, rest[k].content)))]
      case None => [ChatMessage(User, Some(Bracketed(sys)), None)] + rest
  }

  /** The final `map`: assistant stays assistant, every other role becomes user. */
  function Collapse(m: ChatMessage): UpstreamMessage {
    UpstreamMessage(if m.role == Assistant then Assistant else User, ContentText(m.content))
  }

  function CollapseAll(ms: seq<ChatMessage>): (r: seq<UpstreamMessage>)
    ensures |r| == |ms|
    ensures forall i | 0 <= i < |ms| :: r[i] == Collapse(ms[i])
  {
    seq(|ms|, i requires 0 <= i < |ms| => Collapse(ms[i]))
  }

  function UpstreamRequest(req: ChatRequest): DuckAIRequest {
    var msgs := req.messages;
    DuckAIRequest(ModelOrDefault(req.model),
                  CollapseAll(WithSystem(NonSystem(msgs), JoinedSystem(msgs), FoldSystem)))
  }

  function UpstreamRequestAsWritten(req: ChatRequest): DuckAIRequest {
    var msgs := req.messages;
    DuckAIRequest(ModelOrDefault(req.model),
                  CollapseAll(WithSystem(NonSystem(msgs), JoinedSystem(msgs), FoldSystemAsWritten)))
  }

  // ---------------------------------------------------------------------------
  // The rewrite, step by step

  /** transformToDuckAIRequest: one pass accumulating the system text and the
      other messages, then the fold into the first user message or a new leading
      one, then the role collapse. */
  method TransformToDuckAIRequest(req: ChatRequest) returns (r: DuckAIRequest)
    ensures r == UpstreamRequest(req)
  {
    var model := if req.model == "" then DefaultModel else req.model;
    var msgs := req.messages;
    var systemContent := "";
    var filtered: seq<ChatMessage> := [];
    var i := 0;
    while i < |msgs|
      invariant 0 <= i <= |msgs|
      invariant systemContent == JoinedSystem(msgs[..i])
      invariant filtered == NonSystem(msgs[..i])
    {
      var msg := msgs[i];
      assert msgs[..i + 1][..i] == msgs[..i];
      if msg.role == System {
        AccumulateStep(SystemContents(msgs[..i]), ContentText(msg.content));
        systemContent := systemContent + (if systemContent != "" then "\n" else "") + ContentText(msg.content);
      } else {
        filtered := filtered + [msg];
      }
      i := i + 1;
    }
    assert msgs[..i] == msgs;
    if systemContent != "" {
      match FirstUserIndex(filtered)
      case Some(k) =>
        filtered := filtered[k := filtered[k].(content := Some(FoldSystem(systemContent, filtered[k].content)))];
      case None =>
        filtered := [ChatMessage(User, Some(Bracketed(systemContent)), None)] + filtered;
    }
    r := DuckAIRequest(model, CollapseAll(filtered));
  }

  lemma {:induction false} DropLeadingEmptyAppend(cs: seq<string>, c: string)
    ensures DropLeadingEmpty(cs) == [] ==> DropLeadingEmpty(cs + [c]) == (if c == "" then [] else [c])
    ensures DropLeadingEmpty(cs) != [] ==> DropLeadingEmpty(cs + [c]) == DropLeadingEmpty(cs) + [c]
  {
    if cs == [] {
      assert cs + [c] == [c];
      assert [c][1..] == [];
    } else {
      assert (cs + [c])[1..] == cs[1..] + [c];
      if cs[0] == "" { DropLeadingEmptyAppend(cs[1..], c); }
    }
  }

  lemma {:induction false} DropLeadingEmptyHead(cs: seq<string>)
    ensures DropLeadingEmpty(cs) != [] ==> DropLeadingEmpty(cs)[0] != ""
  {
    if cs != [] && cs[0] == "" { DropLeadingEmptyHead(cs[1..]); }
  }

  /** One step of the source's accumulation `s += (s ? "\n" : "") + c`. */
  lemma AccumulateStep(cs: seq<string>, c: string)
    ensures var a := Join(DropLeadingEmpty(cs), "\n");
      Join(DropLeadingEmpty(cs + [c]), "\n") == a + (if a != "" then "\n" else "") + c
  {
    var d := DropLeadingEmpty(cs);
    DropLeadingEmptyAppend(cs, c);
    DropLeadingEmptyHead(cs);
    if d != [] {
      JoinAppend(d, c, "\n");
      if |d| > 1 { assert Join(d, "\n") == d[0] + "\n" + Join(d[1..], "\n"); }
      assert Join(d, "\n") != "";
    }
  }

  // ---------------------------------------------------------------------------
  // Properties of the rewrite

  /** The upstream request has no system or tool role: every role is user or assistant. */
  lemma UpstreamRolesCollapsed(req: ChatRequest)
    ensures forall i | 0 <= i < |UpstreamRequest(req).messages| ::
      UpstreamRequest(req).messages[i].role in {User, Assistant}
  {
  }

  lemma {:induction false} NonSystemIsFilter(msgs: seq<ChatMessage>)
    ensures forall m :: m in NonSystem(msgs) <==> m in msgs && m.role != System
    ensures |NonSystem(msgs)| + |SystemContents(msgs)| == |msgs|
  {
    if msgs != [] {
      var init := msgs[..|msgs| - 1];
      NonSystemIsFilter(init);
      assert msgs == init + [msgs[|msgs| - 1]];
    }
  }

  /** A leading non-system message is kept in front and adds no system text. */
  lemma {:induction false} NonSystemPrepend(m: ChatMessage, msgs: seq<ChatMessage>)
    requires m.role != System
    ensures NonSystem([m] + msgs) == [m] + NonSystem(msgs)
    ensures SystemContents([m] + msgs) == SystemContents(msgs)
    decreases |msgs|
  {
    if msgs == [] {
      assert [m] + msgs == [m];
      assert [m][..0] == [];
    } else {
      var init := msgs[..|msgs| - 1];
      NonSystemPrepend(m, init);
      assert ([m] + msgs)[..|[m] + msgs| - 1] == [m] + init;
      assert ([m] + msgs)[|[m] + msgs| - 1] == msgs[|msgs| - 1];
    }
  }

  /** Where the system text goes: nowhere when empty, into the first user message
      when there is one (every other message keeping its text), otherwise into one
      new leading user message; the non-system messages keep their order. */
  lemma UpstreamPlacement(req: ChatRequest)
    ensures var rest := NonSystem(req.messages);
      var sys := JoinedSystem(req.messages);
      var out := UpstreamRequest(req).messages;
      && (sys == "" ==> out == CollapseAll(rest))
      && (sys != "" && FirstUserIndex(rest).Some? ==>
            var k := FirstUserIndex(rest).value;
            && |out| == |rest|
            && out[k] == UpstreamMessage(User, Bracketed(sys) + "\n\n" + Collapse(rest[k]).content)
            && forall i | 0 <= i < |rest| && i != k :: out[i] == Collapse(rest[i]))
      && (sys != "" && FirstUserIndex(rest).None? ==>
            out == [UpstreamMessage(User, Bracketed(sys))] + CollapseAll(rest))
  {
    var rest := NonSystem(req.messages);
    var sys := JoinedSystem(req.messages);
    var out := UpstreamRequest(req).messages;
    if sys != "" && FirstUserIndex(rest).None? {
      var w := [ChatMessage(User, Some(Bracketed(sys)), None)] + rest;
      assert out == CollapseAll(w);
      assert CollapseAll(w) == [UpstreamMessage(User, Bracketed(sys))] + CollapseAll(rest);
    }
  }

  /** The folded text is empty exactly when every system content is empty. */
  lemma {:induction false} JoinedSystemEmpty(cs: seq<string>)
    ensures Join(DropLeadingEmpty(cs), "\n") == "" <==> forall i | 0 <= i < |cs| :: cs[i] == ""
  {
    if cs != [] {
      if cs[0] == "" {
        JoinedSystemEmpty(cs[1..]);
        assert forall i | 1 <= i < |cs| :: cs[i] == cs[1..][i - 1];
      } else {
        if |cs| > 1 { assert Join(cs, "\n") == cs[0] + "\n" + Join(cs[1..], "\n"); }
      }
    }
  }

  /** When the first system message has text, the fold is the plain newline-join. */
  lemma JoinedSystemPlain(msgs: seq<ChatMessage>)
    requires SystemContents(msgs) != [] && SystemContents(msgs)[0] != ""
    ensures JoinedSystem(msgs) == Join(SystemContents(msgs), "\n")
  {
  }

  /** Two system messages "A" and "B" and one user message "hi" become the one
      user message "[System Instruction: A\nB]\n\nhi". */
  lemma TwoSystemMessagesExample(sampling: SamplingParams)
    ensures var req := ChatRequest(DefaultModel,
              [ChatMessage(System, Some("A"), None), ChatMessage(System, Some("B"), None),
               ChatMessage(User, Some("hi"), None)], false, sampling, None, None);
      UpstreamRequest(req).messages == [UpstreamMessage(User, "[System Instruction: A\nB]\n\nhi")]
  {
    var a := ChatMessage(System, Some("A"), None);
    var b := ChatMessage(System, Some("B"), None);
    var u := ChatMessage(User, Some("hi"), None);
    var msgs := [a, b, u];
    assert msgs[..2] == [a, b] && [a, b][..1] == [a] && [a][..0] == [];
    assert SystemContents([a]) == ["A"] && NonSystem([a]) == [];
    assert SystemContents([a, b]) == ["A", "B"] && NonSystem([a, b]) == [];
    assert SystemContents(msgs) == ["A", "B"];
    assert NonSystem(msgs) == [u];
    assert DropLeadingEmpty(["A", "B"]) == ["A", "B"];
    assert Join(["A", "B"], "\n") == "A\nB" by {
      assert ["A", "B"][1..] == ["B"];
    }
    assert JoinedSystem(msgs) == "A\nB";
    assert FirstUserIndex([u]) == Some(0);
    var folded := u.(content := Some(FoldSystem("A\nB", u.content)));
    assert WithSystem([u], "A\nB", FoldSystem) == [folded];
    assert CollapseAll([folded]) == [Collapse(folded)];
    assert Collapse(folded) == UpstreamMessage(User, "[System Instruction: A\nB]\n\nhi");
    var req := ChatRequest(DefaultModel, msgs, false, sampling, None, None);
    assert UpstreamRequest(req).messages == CollapseAll(WithSystem([u], "A\nB", FoldSystem));
  }

  /** The first user message ends with the same text the role collapse would send
      for it: `Bracketed(sys) + "\n\n"` is the only thing added. */
  lemma FoldAddsOnlyThePrefix(sys: string, m: ChatMessage)
    ensures Collapse(m.(content := Some(FoldSystem(sys, m.content)))).content
            == Bracketed(sys) + "\n\n" + Collapse(m).content
  {
  }

  /** As written, a first user message with null content is sent as "...\n\nnull". */
  lemma NullUserContentAsWritten(sampling: SamplingParams)
    ensures var req := ChatRequest(DefaultModel,
              [ChatMessage(System, Some("S"), None), ChatMessage(User, None, None)],
              false, sampling, None, None);
      && UpstreamRequestAsWritten(req).messages == [UpstreamMessage(User, "[System Instruction: S]\n\nnull")]
      && UpstreamRequest(req).messages == [UpstreamMessage(User, "[System Instruction: S]\n\n")]
  {
    var s := ChatMessage(System, Some("S"), None);
    var u := ChatMessage(User, None, None);
    assert [s, u][..1] == [s] && [s][..0] == [];
    assert SystemContents([s]) == ["S"] && NonSystem([s]) == [];
    assert SystemContents([s, u]) == ["S"];
    assert NonSystem([s, u]) == [u];
    assert JoinedSystem([s, u]) == "S";
    assert FirstUserIndex([u]) == Some(0);
    var folded := u.(content := Some(FoldSystem("S", None)));
    var written := u.(content := Some(FoldSystemAsWritten("S", None)));
    assert WithSystem([u], "S", FoldSystem) == [folded];
    assert WithSystem([u], "S", FoldSystemAsWritten) == [written];
    assert CollapseAll([folded]) == [Collapse(folded)];
    assert CollapseAll([written]) == [Collapse(written)];
    assert Collapse(folded) == UpstreamMessage(User, "[System Instruction: S]\n\n");
    assert Collapse(written) == UpstreamMessage(User, "[System Instruction: S]\n\nnull");
    var req := ChatRequest(DefaultModel, [s, u], false, sampling, None, None);
    assert UpstreamRequest(req).messages == CollapseAll(WithSystem([u], "S", FoldSystem));
    assert UpstreamRequestAsWritten(req).messages == CollapseAll(WithSystem([u], "S", FoldSystemAsWritten));
  }

  // ---------------------------------------------------------------------------
  // Token estimate and envelopes

  /** estimateTokens: the length divided by four, rounded up. */
  function EstimateTokens(text: string): (n: nat)
    ensures 4 * n >= |text|
    ensures n > 0 ==> 4 * (n - 1) < |text|
  {
    (|text| + 3) / 4
  }

  /** `messages.map(m => m.content || "").join(" ")`. */
  function PromptText(msgs: seq<ChatMessage>): string {
    Join(seq(|msgs|, i requires 0 <= i < |msgs| => ContentText(msgs[i].content)), " ")
  }

  function MakeUsage(promptText: string, completionText: string): Usage {
    var p := EstimateTokens(promptText);
    var c := EstimateTokens(completionText);
    Usage(p, c, p + c)
  }

  /** What every envelope the translator builds satisfies: the total is the sum,
      and a completion either carries text and finishes with "stop", or carries
      tool calls, no text, and finishes with "tool_calls". */
  predicate WellFormedCompletion(c: Completion) {
    && c.usage.totalTokens == c.usage.promptTokens + c.usage.completionTokens
    && (c.finishReason == Stop <==> c.message.toolCalls.None?)
    && (c.message.content.None? <==> c.message.toolCalls.Some?)
  }

  function TextCompletion(id: string, created: int, model: string, promptText: string, text: string): (c: Completion)
    ensures WellFormedCompletion(c)
    ensures c.message.content == Some(text)
    ensures c.usage.promptTokens == EstimateTokens(promptText)
    ensures c.usage.completionTokens == EstimateTokens(text)
  {
    Completion(id, created, model, AssistantMessage(Some(text), None), Stop, MakeUsage(promptText, text))
  }

  function ToolCallCompletion(id: string, created: int, model: string, promptText: string,
                              calls: seq<ToolCall>, completionText: string): (c: Completion)
    ensures WellFormedCompletion(c)
    ensures c.message.toolCalls == Some(calls) && c.finishReason == ToolCalls
    ensures c.usage.promptTokens == EstimateTokens(promptText)
    ensures c.usage.completionTokens == EstimateTokens(completionText)
  {
    Completion(id, created, model, AssistantMessage(None, Some(calls)), ToolCalls, MakeUsage(promptText, completionText))
  }
}
