/**
 * The request and response shapes the bridge works with: the target-format chat
 * request (after validation), the upstream request, tool definitions and calls,
 * completion envelopes and stream chunks. The source imports them from
 * src/types.ts, which is not part of this model; the fields here are the ones
 * src/openai-service.ts and src/duckai.ts read or build.
 */
module ChatTypes {
  import opened Wrappers

  datatype Role = System | User | Assistant | Tool

  /** A validated message; `content == None` is JSON `null`. */
  datatype ChatMessage = ChatMessage(role: Role, content: Option<string>, toolCallId: Option<string>)

  /** A tool definition; only the function name is read by the bridge itself. */
  datatype ToolDefinition = ToolDefinition(name: string, description: Option<string>)

  /** `tool_choice`: "none", "auto", "required" or `{type: "function", function: {name}}`. */
  datatype ToolChoice = ChoiceNone | ChoiceAuto | ChoiceRequired | ChoiceFunction(name: string)

  /** Sampling parameters: accepted and passed along, never forwarded upstream. */
  datatype SamplingParams = SamplingParams(
    temperature: Option<real>,
    maxTokens: Option<int>,
    topP: Option<real>,
    frequencyPenalty: Option<real>,
    presencePenalty: Option<real>,
    stop: Option<seq<string>>)

  datatype ChatRequest = ChatRequest(
    model: string,
    messages: seq<ChatMessage>,
    stream: bool,
    sampling: SamplingParams,
    tools: Option<seq<ToolDefinition>>,
    toolChoice: Option<ToolChoice>)

  /** What is sent upstream: every role is `User` or `Assistant`, content is text. */
  datatype UpstreamMessage = UpstreamMessage(role: Role, content: string)
  datatype DuckAIRequest = DuckAIRequest(model: string, messages: seq<UpstreamMessage>)

  /** A tool call; its `type` is always "function". */
  datatype ToolCall = ToolCall(id: string, name: string, arguments: string)

  datatype FinishReason = Stop | ToolCalls

  datatype AssistantMessage = AssistantMessage(content: Option<string>, toolCalls: Option<seq<ToolCall>>)

  datatype Usage = Usage(promptTokens: nat, completionTokens: nat, totalTokens: nat)

  /** A non-streaming completion envelope (`object: "chat.completion"`, one choice). */
  datatype Completion = Completion(
    id: string,
    created: int,
    model: string,
    message: AssistantMessage,
    finishReason: FinishReason,
    usage: Usage)

  /** The caller-supplied tool-simulation service; its code is not part of this model. */
  datatype ToolValidation = ToolValidation(valid: bool, errors: seq<string>)

  datatype ToolService = ToolService(
    shouldUseFunctionCalling: (Option<seq<ToolDefinition>>, Option<ToolChoice>) -> bool,
    validateTools: seq<ToolDefinition> -> ToolValidation,
    detectFunctionCalls: string -> bool,
    extractFunctionCalls: string -> seq<ToolCall>,
    generateToolSystemPrompt: (seq<ToolDefinition>, Option<ToolChoice>) -> string)

  const DefaultModel: string := "mistralai/Mistral-Small-24B-Instruct-2501"
}
