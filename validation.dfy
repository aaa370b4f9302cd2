/**
 * validateRequest of src/openai-service.ts: the checks an incoming chat request
 * passes before anything is sent upstream. The incoming body is untyped JSON;
 * `RawRequest` keeps exactly the distinctions the checks make.
 */
module Validation {
  import opened Wrappers
  import opened ChatTypes

  /** A message's `content` as the checks see it: undefined, null, a string, or
      a value of another type. */
  datatype RawContent = Undefined | Null | Text(text: string) | NonString

  /** `role` is `None` when it is missing or not a string; `toolCallId` is `None`
      when it is missing. */
  datatype RawMessage = RawMessage(role: Option<string>, content: RawContent, toolCallId: Option<string>)

  /** `messages`: missing (or otherwise falsy), present but not an array, or an array. */
  datatype RawMessages = Missing | NotAnArray | Items(items: seq<RawMessage>)

  datatype RawRequest = RawRequest(
    model: Option<string>,
    messages: RawMessages,
    stream: Option<bool>,
    sampling: SamplingParams,
    tools: Option<seq<ToolDefinition>>,
    toolChoice: Option<ToolChoice>)

  /** One error per `throw` of the source. */
  datatype ValidationError =
    | MessagesNotArray      // "messages field is required and must be an array"
    | MessagesEmpty         // "messages array cannot be empty"
    | InvalidRole           // "Each message must have a valid role ..."
    | ToolMissingCallId     // "Tool messages must have a tool_call_id"
    | ToolContentNotString  // "Tool messages must have content as a string"
    | ContentNotStringOrNull  // "Each message must have content as a string or null"
    | InvalidTools(errors: seq<string>)  // "Invalid tools: ..."

  function RoleOf(name: string): Option<Role> {
    if name == "system" then Some(System)
    else if name == "user" then Some(User)
    else if name == "assistant" then Some(Assistant)
    else if name == "tool" then Some(Tool)
    else None
  }

  function RoleName(r: Role): string {
    match r
    case System => "system"
    case User => "user"
    case Assistant => "assistant"
    case Tool => "tool"
  }

  /** A JavaScript truthiness test on an optional string: missing and "" are falsy. */
  predicate Truthy(s: Option<string>) {
    s.Some? && s.value != ""
  }

  /** The first check one message fails, in the order the source tests them. */
  function MessageError(m: RawMessage): Option<ValidationError> {
    if m.role.None? || RoleOf(m.role.value).None? then Some(InvalidRole)
    else if m.role.value == "tool" then
      if !Truthy(m.toolCallId) then Some(ToolMissingCallId)
      else if !m.content.Text? then Some(ToolContentNotString)
      else None
    else if m.content.Undefined? || m.content.NonString? then Some(ContentNotStringOrNull)
    else None
  }

  /** The typed message a valid raw message stands for. */
  function Decode(m: RawMessage): ChatMessage
    requires MessageError(m).None?
  {
    ChatMessage(RoleOf(m.role.value).value,
                if m.content.Text? then Some(m.content.text) else None,
                m.toolCallId)
  }

  function Encode(m: ChatMessage): RawMessage {
    RawMessage(Some(RoleName(m.role)),
               if m.content.Some? then Text(m.content.value) else Null,
               m.toolCallId)
  }

  function DecodeAll(items: seq<RawMessage>): (r: seq<ChatMessage>)
    requires forall i | 0 <= i < |items| :: MessageError(items[i]).None?
    ensures |r| == |items|
    ensures forall i | 0 <= i < |items| :: r[i] == Decode(items[i])
  {
    if items == [] then [] else [Decode(items[0])] + DecodeAll(items[1..])
  }

  /** What the data model asks of a message: a tool message names its call and
      carries text. */
  predicate WellFormed(m: ChatMessage) {
    m.role == Tool ==> Truthy(m.toolCallId) && m.content.Some?
  }

  /** A well-formed typed message passes the checks and decodes back to itself,
      and a raw message that passes decodes to a well-formed one that encodes
      back to it. */
  lemma MessageRoundTrip(m: ChatMessage, raw: RawMessage)
    ensures WellFormed(m) ==> MessageError(Encode(m)).None? && Decode(Encode(m)) == m
    ensures MessageError(raw).None? ==> WellFormed(Decode(raw)) && Encode(Decode(raw)) == raw
  {
  }

  /** A request after validation: model and stream defaulted, the rest passed through. */
  function Validated(raw: RawRequest, msgs: seq<ChatMessage>): ChatRequest {
    ChatRequest(
      if raw.model.Some? && raw.model.value != "" then raw.model.value else DefaultModel,
      msgs,
      raw.stream == Some(true),
      raw.sampling,
      raw.tools,
      raw.toolChoice)
  }

  /** validateRequest: the messages checks one message at a time, stopping at the
      first failure, then the tool check (an empty `tools` array is still checked:
      an array is truthy). */
  method ValidateRequest(raw: RawRequest, validateTools: seq<ToolDefinition> -> ToolValidation)
    returns (r: Result<ChatRequest, ValidationError>)
    ensures !raw.messages.Items? ==> r == Failure(MessagesNotArray)
    ensures raw.messages == Items([]) ==> r == Failure(MessagesEmpty)
    ensures r.Success? <==>
      && raw.messages.Items? && |raw.messages.items| > 0
      && (forall i | 0 <= i < |raw.messages.items| :: MessageError(raw.messages.items[i]).None?)
      && (raw.tools.Some? ==> validateTools(raw.tools.value).valid)
    ensures r.Success? ==>
      && r.value == Validated(raw, DecodeAll(raw.messages.items))
      && |r.value.messages| > 0
      && forall i | 0 <= i < |r.value.messages| :: WellFormed(r.value.messages[i])
    ensures r.Failure? && raw.messages.Items? && |raw.messages.items| > 0 ==>
      (exists i | 0 <= i < |raw.messages.items| ::
         MessageError(raw.messages.items[i]) == Some(r.error)
         && forall j | 0 <= j < i :: MessageError(raw.messages.items[j]).None?)
      || ((forall i | 0 <= i < |raw.messages.items| :: MessageError(raw.messages.items[i]).None?)
          && raw.tools.Some? && r.error == InvalidTools(validateTools(raw.tools.value).errors))
  {
    if !raw.messages.Items? {
      return Failure(MessagesNotArray);
    }
    var items := raw.messages.items;
    if |items| == 0 {
      return Failure(MessagesEmpty);
    }
    var i := 0;
    while i < |items|
      invariant 0 <= i <= |items|
      invariant forall j | 0 <= j < i :: MessageError(items[j]).None?
    {
      var e := MessageError(items[i]);
      if e.Some? {
        return Failure(e.value);
      }
      i := i + 1;
    }
    if raw.tools.Some? {
      var validation := validateTools(raw.tools.value);
      if !validation.valid {
        return Failure(InvalidTools(validation.errors));
      }
    }
    var msgs := DecodeAll(items);
    forall k | 0 <= k < |msgs| ensures WellFormed(msgs[k]) {
      MessageRoundTrip(msgs[k], items[k]);
    }
    r := Success(Validated(raw, msgs));
  }
}
