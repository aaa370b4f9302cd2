/**
 * The OpenAIService class of src/openai-service.ts: the entry points that
 * route a chat request either straight through the translator or through the
 * tool-calling path, call the DuckAI client, and build the completion or the
 * stream of completion chunks.
 *
 * Everything the outside world contributes to one call is gathered in `Env`:
 * the random completion id, the three clock readings, the outcome of the
 * challenge request, the chat endpoint as a function of the request sent, and
 * the JSON parser of event lines.
 */
module OpenAIService {
  import opened Wrappers
  import opened JsText
  import opened ChatTypes
  import opened Translator
  import opened ForcedToolCall
  import opened Streaming
  import opened RateWindow
  import opened EventStream
  import opened DuckAIClient

  datatype Env = Env(
    id: string,                          // generateId()
    createdMs: int,                      // the clock as getCurrentTimestamp reads it
    chatMs: int,                         // the clock as DuckAI.chat / chatStream read it
    callMs: nat,                         // the clock as the forced call id reads it
    challenge: Result<string, string>,   // getVQD: the challenge hash, or why it failed
    server: DuckAIRequest -> UpstreamResponse,
    parse: Parser)

  datatype ServiceError =
    | InvalidTools(message: string)      // "Invalid tools: <errors joined by ', '>"
    | ChatFailed(cause: ChatError)       // whatever DuckAI.chat / chatStream threw
    | MissingLastMessage                 // the forced path read past an empty message list

  /** The callable registered under a name. The built-ins' bodies (the clock, the
      expression evaluator, the random weather) are not modelled; a registered
      function is an opaque handle. */
  datatype FunctionRef = CurrentTimeFunction | CalculateFunction | WeatherFunction | Registered(handle: nat)

  datatype ModelEntry = ModelEntry(id: string, created: int, ownedBy: string)

  /** getCurrentTimestamp: whole seconds, rounded down. */
  function Timestamp(ms: int): (s: int)
    ensures 1000 * s <= ms < 1000 * s + 1000
  {
    ms / 1000
  }

  function BuiltInFunctions(): (m: map<string, FunctionRef>)
    ensures m.Keys == {TimeTool, CalcTool, WeatherTool}
  {
    map[TimeTool := CurrentTimeFunction, CalcTool := CalculateFunction, WeatherTool := WeatherFunction]
  }

  /** getModels: one entry per advertised model, in order, owned by "duckai". */
  function ModelsList(createdMs: int): (r: seq<ModelEntry>)
    ensures |r| == |AvailableModels()|
    ensures forall i | 0 <= i < |r| ::
      r[i].id == AvailableModels()[i] && r[i].created == Timestamp(createdMs) && r[i].ownedBy == "duckai"
  {
    var models := AvailableModels();
    seq(|models|, i requires 0 <= i < |models| => ModelEntry(models[i], Timestamp(createdMs), "duckai"))
  }

  // ---------------------------------------------------------------------------
  // The tool-calling path, as functions

  function ToolInstruction(prompt: string): string {
    "[SYSTEM INSTRUCTIONS] " + prompt
      + "\n\nPlease follow these instructions when responding to the following user message."
  }

  /** The messages sent on the tool path: a leading user message carrying the tool
      instructions when at least one tool is offered. */
  function ModifiedMessages(req: ChatRequest, svc: ToolService): seq<ChatMessage> {
    if req.tools.Some? && |req.tools.value| > 0 then
      [ChatMessage(User, Some(ToolInstruction(svc.generateToolSystemPrompt(req.tools.value, req.toolChoice))), None)]
        + req.messages
    else req.messages
  }

  /** The tool check: any present tools array, even an empty one, is validated. */
  function ToolsCheck(req: ChatRequest, svc: ToolService): Option<ServiceError> {
    if req.tools.Some? && !svc.validateTools(req.tools.value).valid then
      Some(InvalidTools("Invalid tools: " + Join(svc.validateTools(req.tools.value).errors, ", ")))
    else None
  }

  /** What DuckAI.chat answers for `upstream`. */
  function ChatResult(upstream: DuckAIRequest, env: Env): Result<string, ServiceError> {
    if env.challenge.Failure? then Failure(ChatFailed(ChallengeFailed(env.challenge.error)))
    else match ChatOutcome(env.server(upstream), env.parse)
      case Success(reply) => Success(reply)
      case Failure(e) => Failure(ChatFailed(e))
  }

  /** The envelope built from the reply: the calls the tool service extracts, else
      the forced call when tool use is demanded, else the reply as text. */
  function AnswerWithTools(req: ChatRequest, svc: ToolService, env: Env, reply: string): Result<Completion, ServiceError> {
    var prompt := PromptText(ModifiedMessages(req, svc));
    var created := Timestamp(env.createdMs);
    if svc.detectFunctionCalls(reply) && |svc.extractFunctionCalls(reply)| > 0 then
      Success(ToolCallCompletion(env.id, created, req.model, prompt, svc.extractFunctionCalls(reply), reply))
    else if ForcedPathApplies(req.tools, req.toolChoice) then
      if req.messages == [] then Failure(MissingLastMessage)
      else
        var call := ForcedCall(req.tools.value, req.toolChoice, ContentText(req.messages[|req.messages| - 1].content), env.callMs);
        Success(ToolCallCompletion(env.id, created, req.model, prompt, [call], SerializeToolCall(call)))
    else Success(TextCompletion(env.id, created, req.model, prompt, reply))
  }

  function WithToolsOutcome(req: ChatRequest, svc: ToolService, env: Env): Result<Completion, ServiceError> {
    match ToolsCheck(req, svc)
    case Some(e) => Failure(e)
    case None =>
      match ChatResult(UpstreamRequest(req.(messages := ModifiedMessages(req, svc))), env)
      case Failure(e) => Failure(e)
      case Success(reply) => AnswerWithTools(req, svc, env, reply)
  }

  /** createChatCompletion. */
  function CompletionOutcome(req: ChatRequest, svc: ToolService, env: Env): Result<Completion, ServiceError> {
    if svc.shouldUseFunctionCalling(req.tools, req.toolChoice) then WithToolsOutcome(req, svc, env)
    else match ChatResult(UpstreamRequest(req), env)
      case Failure(e) => Failure(e)
      case Success(reply) =>
        Success(TextCompletion(env.id, Timestamp(env.createdMs), req.model, PromptText(req.messages), reply))
  }

  /** createChatCompletionStream. */
  function CompletionStreamOutcome(req: ChatRequest, svc: ToolService, env: Env): Result<seq<StreamEvent>, ServiceError> {
    if svc.shouldUseFunctionCalling(req.tools, req.toolChoice) then
      match WithToolsOutcome(req, svc, env)
      case Failure(e) => Failure(e)
      case Success(c) => Success(ReplayEvents(c, req.model))
    else if env.challenge.Failure? then Failure(ChatFailed(ChallengeFailed(env.challenge.error)))
    else match DuckAIClient.StreamOutcome(env.server(UpstreamRequest(req)), env.parse)
      case Failure(e) => Failure(ChatFailed(e))
      case Success(fragments) => Success(RelayEvents(Meta(env.id, Timestamp(env.createdMs), req.model), fragments))
  }

  /** Whether the call reaches the DuckAI client's bookkeeping: the challenge
      succeeds and, on the tool path, the tools pass validation. */
  predicate ChatReached(req: ChatRequest, svc: ToolService, env: Env) {
    && env.challenge.Success?
    && (svc.shouldUseFunctionCalling(req.tools, req.toolChoice) ==> ToolsCheck(req, svc).None?)
  }

  // ---------------------------------------------------------------------------
  // The service object

  class OpenAIService {
    const duckAI: DuckAI
    const toolService: ToolService
    var availableFunctions: map<string, FunctionRef>

    constructor(toolService: ToolService, stored: Option<StoredRecord>, nowMs: int)
      ensures fresh(duckAI) && duckAI.rateLimitInfo == Loaded(InitialInfo, stored, nowMs)
      ensures this.toolService == toolService
      ensures availableFunctions == BuiltInFunctions()
    {
      duckAI := new DuckAI(stored, nowMs);
      this.toolService := toolService;
      availableFunctions := BuiltInFunctions();
    }

    /** registerFunction: adds or replaces one entry. */
    method RegisterFunction(name: string, f: FunctionRef)
      modifies this
      ensures availableFunctions == old(availableFunctions)[name := f]
      ensures name in availableFunctions && availableFunctions[name] == f
      ensures forall k | k in old(availableFunctions) && k != name ::
        k in availableFunctions && availableFunctions[k] == old(availableFunctions)[k]
    {
      availableFunctions := availableFunctions[name := f];
    }

    method CreateChatCompletion(request: ChatRequest, env: Env)
      returns (r: Result<Completion, ServiceError>, written: Option<StoredRecord>)
      modifies duckAI
      ensures r == CompletionOutcome(request, toolService, env)
      ensures ChatReached(request, toolService, env) ==>
        && duckAI.rateLimitInfo == Cleaned(Recorded(old(duckAI.rateLimitInfo), env.chatMs), env.chatMs)
        && written == Some(ToStored(duckAI.rateLimitInfo))
      ensures !ChatReached(request, toolService, env) ==>
        duckAI.rateLimitInfo == old(duckAI.rateLimitInfo) && written.None?
    {
      if toolService.shouldUseFunctionCalling(request.tools, request.toolChoice) {
        r, written := CreateChatCompletionWithTools(request, env);
        return;
      }
      var upstream := TransformToDuckAIRequest(request);
      var reply;
      reply, written := duckAI.Chat(upstream, env.chatMs, env.challenge, env.server, env.parse);
      if reply.Failure? {
        return Failure(ChatFailed(reply.error)), written;
      }
      var created := Timestamp(env.createdMs);
      r := Success(TextCompletion(env.id, created, request.model, PromptText(request.messages), reply.value));
    }

    method CreateChatCompletionWithTools(request: ChatRequest, env: Env)
      returns (r: Result<Completion, ServiceError>, written: Option<StoredRecord>)
      modifies duckAI
      ensures r == WithToolsOutcome(request, toolService, env)
      ensures env.challenge.Success? && ToolsCheck(request, toolService).None? ==>
        && duckAI.rateLimitInfo == Cleaned(Recorded(old(duckAI.rateLimitInfo), env.chatMs), env.chatMs)
        && written == Some(ToStored(duckAI.rateLimitInfo))
      ensures !(env.challenge.Success? && ToolsCheck(request, toolService).None?) ==>
        duckAI.rateLimitInfo == old(duckAI.rateLimitInfo) && written.None?
    {
      var check := ToolsCheck(request, toolService);
      if check.Some? {
        return Failure(check.value), None;
      }
      var modified := ModifiedMessages(request, toolService);
      var upstream := TransformToDuckAIRequest(request.(messages := modified));
      var reply;
      reply, written := duckAI.Chat(upstream, env.chatMs, env.challenge, env.server, env.parse);
      if reply.Failure? {
        return Failure(ChatFailed(reply.error)), written;
      }
      r := AnswerWithTools(request, toolService, env, reply.value);
    }

    method CreateChatCompletionStream(request: ChatRequest, env: Env)
      returns (r: Result<seq<StreamEvent>, ServiceError>, written: Option<StoredRecord>)
      modifies duckAI
      ensures r == CompletionStreamOutcome(request, toolService, env)
      ensures ChatReached(request, toolService, env) ==>
        && duckAI.rateLimitInfo == Cleaned(Recorded(old(duckAI.rateLimitInfo), env.chatMs), env.chatMs)
        && written == Some(ToStored(duckAI.rateLimitInfo))
      ensures !ChatReached(request, toolService, env) ==>
        duckAI.rateLimitInfo == old(duckAI.rateLimitInfo) && written.None?
    {
      if toolService.shouldUseFunctionCalling(request.tools, request.toolChoice) {
        var completion;
        completion, written := CreateChatCompletionWithTools(request, env);
        if completion.Failure? {
          return Failure(completion.error), written;
        }
        var events := StreamWithTools(completion.value, request.model);
        return Success(events), written;
      }
      var upstream := TransformToDuckAIRequest(request);
      var fragments;
      fragments, written := duckAI.ChatStream(upstream, env.chatMs, env.challenge, env.server, env.parse);
      if fragments.Failure? {
        return Failure(ChatFailed(fragments.error)), written;
      }
      var meta := Meta(env.id, Timestamp(env.createdMs), request.model);
      r := Success(RelayEvents(meta, fragments.value));
    }

    /** getRateLimitStatus: the DuckAI client's status, reloaded from the store. */
    method GetRateLimitStatus(stored: Option<StoredRecord>, now: int) returns (status: RateLimitStatus)
      modifies duckAI
      ensures duckAI.rateLimitInfo == Cleaned(Loaded(old(duckAI.rateLimitInfo), stored, now), now)
      ensures status == StatusOf(duckAI.rateLimitInfo, now)
    {
      status := duckAI.GetRateLimitStatus(stored, now);
    }
  }

  // ---------------------------------------------------------------------------
  // Properties of the entry points

  /** Every completion the service returns is well formed (the total is the sum,
      text with "stop" or calls with "tool_calls") and carries the call's id,
      timestamp and the requested model name as given. */
  lemma CompletionEnvelope(req: ChatRequest, svc: ToolService, env: Env)
    requires CompletionOutcome(req, svc, env).Success?
    ensures var c := CompletionOutcome(req, svc, env).value;
      && WellFormedCompletion(c)
      && c.id == env.id && c.created == Timestamp(env.createdMs) && c.model == req.model
  {
    if svc.shouldUseFunctionCalling(req.tools, req.toolChoice) {
      var reply := ChatResult(UpstreamRequest(req.(messages := ModifiedMessages(req, svc))), env).value;
      AnswerEnvelope(req, svc, env, reply);
    }
  }

  lemma AnswerEnvelope(req: ChatRequest, svc: ToolService, env: Env, reply: string)
    requires AnswerWithTools(req, svc, env, reply).Success?
    ensures var c := AnswerWithTools(req, svc, env, reply).value;
      && WellFormedCompletion(c)
      && c.id == env.id && c.created == Timestamp(env.createdMs) && c.model == req.model
  {
    var prompt := PromptText(ModifiedMessages(req, svc));
    var created := Timestamp(env.createdMs);
    var c := AnswerWithTools(req, svc, env, reply).value;
    if svc.detectFunctionCalls(reply) && |svc.extractFunctionCalls(reply)| > 0 {
      assert c == ToolCallCompletion(env.id, created, req.model, prompt, svc.extractFunctionCalls(reply), reply);
    } else if ForcedPathApplies(req.tools, req.toolChoice) {
      var call := ForcedCall(req.tools.value, req.toolChoice, ContentText(req.messages[|req.messages| - 1].content), env.callMs);
      assert c == ToolCallCompletion(env.id, created, req.model, prompt, [call], SerializeToolCall(call));
    } else {
      assert c == TextCompletion(env.id, created, req.model, prompt, reply);
    }
  }

  /** Without tool calling the completion is the translated request's reply, as
      text, finishing with "stop". */
  lemma PlainRequestGetsText(req: ChatRequest, svc: ToolService, env: Env)
    requires !svc.shouldUseFunctionCalling(req.tools, req.toolChoice)
    requires env.challenge.Success? && Ok(env.server(UpstreamRequest(req)).status)
    ensures CompletionOutcome(req, svc, env).Success?
    ensures var c := CompletionOutcome(req, svc, env).value;
      && c.finishReason == Stop
      && c.message.content == Some(ChatReply(Concat(env.server(UpstreamRequest(req)).chunks), env.parse))
      && c.usage.promptTokens == EstimateTokens(PromptText(req.messages))
  {
  }

  /** Invalid tools are rejected before anything is sent upstream, whatever the
      world would have answered. */
  lemma InvalidToolsRejected(req: ChatRequest, svc: ToolService, env: Env, other: Env)
    requires svc.shouldUseFunctionCalling(req.tools, req.toolChoice)
    requires req.tools.Some? && !svc.validateTools(req.tools.value).valid
    ensures CompletionOutcome(req, svc, env)
            == Failure(InvalidTools("Invalid tools: " + Join(svc.validateTools(req.tools.value).errors, ", ")))
    ensures CompletionOutcome(req, svc, env) == CompletionOutcome(req, svc, other)
    ensures !ChatReached(req, svc, env)
  {
  }

  /** When tool use is demanded and the reply yields no extracted call, a single
      call is forced: to the named function, or to the tool the keyword heuristic
      picks, with arguments from the last message. */
  lemma ForcedFallback(req: ChatRequest, svc: ToolService, env: Env)
    requires svc.shouldUseFunctionCalling(req.tools, req.toolChoice)
    requires ToolsCheck(req, svc).None? && ForcedPathApplies(req.tools, req.toolChoice)
    requires ChatResult(UpstreamRequest(req.(messages := ModifiedMessages(req, svc))), env).Success?
    requires var reply := ChatResult(UpstreamRequest(req.(messages := ModifiedMessages(req, svc))), env).value;
      !(svc.detectFunctionCalls(reply) && |svc.extractFunctionCalls(reply)| > 0)
    requires req.messages != []
    ensures CompletionOutcome(req, svc, env).Success?
    ensures var c := CompletionOutcome(req, svc, env).value;
      var lastText := ContentText(req.messages[|req.messages| - 1].content);
      && c.finishReason == ToolCalls && c.message.content.None?
      && c.message.toolCalls == Some([ForcedCall(req.tools.value, req.toolChoice, lastText, env.callMs)])
      && c.message.toolCalls.value[0].name == ForcedToolName(req.tools.value, req.toolChoice, lastText)
      && c.usage.completionTokens
         == EstimateTokens(SerializeToolCall(ForcedCall(req.tools.value, req.toolChoice, lastText, env.callMs)))
  {
  }

  /** With "auto" (or no choice) and no extracted call, the reply is returned as text. */
  lemma AutoChoiceKeepsText(req: ChatRequest, svc: ToolService, env: Env)
    requires svc.shouldUseFunctionCalling(req.tools, req.toolChoice)
    requires ToolsCheck(req, svc).None? && !ForcedPathApplies(req.tools, req.toolChoice)
    requires ChatResult(UpstreamRequest(req.(messages := ModifiedMessages(req, svc))), env).Success?
    requires var reply := ChatResult(UpstreamRequest(req.(messages := ModifiedMessages(req, svc))), env).value;
      !(svc.detectFunctionCalls(reply) && |svc.extractFunctionCalls(reply)| > 0)
    ensures CompletionOutcome(req, svc, env).Success?
    ensures var c := CompletionOutcome(req, svc, env).value;
      && c.finishReason == Stop
      && c.message.content == Some(ChatResult(UpstreamRequest(req.(messages := ModifiedMessages(req, svc))), env).value)
  {
  }

  /** The tool instructions lead the upstream conversation: the first upstream
      message is a user message holding them, prefixed by the folded system text
      when there is any, and the non-system messages follow it unchanged but for
      their collapsed roles. */
  lemma ToolInstructionLeads(req: ChatRequest, svc: ToolService)
    requires req.tools.Some? && |req.tools.value| > 0
    ensures var up := UpstreamRequest(req.(messages := ModifiedMessages(req, svc))).messages;
      var text := ToolInstruction(svc.generateToolSystemPrompt(req.tools.value, req.toolChoice));
      var sys := JoinedSystem(req.messages);
      && |up| == 1 + |NonSystem(req.messages)|
      && up[1..] == CollapseAll(NonSystem(req.messages))
      && up[0].role == User
      && up[0].content == (if sys == "" then text else Bracketed(sys) + "\n\n" + text)
  {
    var text := ToolInstruction(svc.generateToolSystemPrompt(req.tools.value, req.toolChoice));
    var lead := ChatMessage(User, Some(text), None);
    var modified := [lead] + req.messages;
    assert ModifiedMessages(req, svc) == modified;
    NonSystemPrepend(lead, req.messages);
    assert FirstUserIndex([lead] + NonSystem(req.messages)) == Some(0);
    UpstreamPlacement(req.(messages := modified));
  }

  /** On the tool path the stream replays the completion: the same text, the same
      finish reason, one id and timestamp throughout. */
  lemma StreamReplaysCompletion(req: ChatRequest, svc: ToolService, env: Env)
    requires svc.shouldUseFunctionCalling(req.tools, req.toolChoice)
    ensures CompletionStreamOutcome(req, svc, env).Success? <==> CompletionOutcome(req, svc, env).Success?
    ensures CompletionOutcome(req, svc, env).Success? ==>
      var c := CompletionOutcome(req, svc, env).value;
      var events := CompletionStreamOutcome(req, svc, env).value;
      && Reassemble(events) == ContentText(c.message.content)
      && FinishOf(events) == Some(c.finishReason)
      && WellFramed(events, Meta(env.id, Timestamp(env.createdMs), req.model))
  {
    var w := WithToolsOutcome(req, svc, env);
    assert CompletionOutcome(req, svc, env) == w;
    if w.Success? {
      assert CompletionStreamOutcome(req, svc, env) == Success(ReplayEvents(w.value, req.model));
      CompletionEnvelope(req, svc, env);
      ReplayRoundTrip(w.value, req.model);
    } else {
      assert CompletionStreamOutcome(req, svc, env) == Failure(w.error);
    }
  }

  /** Without tool calling the stream relays the upstream fragments in order,
      framed by one id, and finishes with "stop". */
  lemma StreamRelaysFragments(req: ChatRequest, svc: ToolService, env: Env)
    requires !svc.shouldUseFunctionCalling(req.tools, req.toolChoice)
    requires env.challenge.Success? && Ok(env.server(UpstreamRequest(req)).status)
    ensures CompletionStreamOutcome(req, svc, env).Success?
    ensures var events := CompletionStreamOutcome(req, svc, env).value;
      var fragments := StreamFragments(env.server(UpstreamRequest(req)).chunks, env.parse);
      && Reassemble(events) == Concat(fragments)
      && FinishOf(events) == Some(Stop)
      && WellFramed(events, Meta(env.id, Timestamp(env.createdMs), req.model))
  {
    var fragments := StreamFragments(env.server(UpstreamRequest(req)).chunks, env.parse);
    RelayRoundTrip(Meta(env.id, Timestamp(env.createdMs), req.model), fragments);
  }
}
