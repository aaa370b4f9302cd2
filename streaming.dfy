/**
 * The two event streams of src/openai-service.ts. A streamed request without
 * tools relays the upstream text fragments one chunk each
 * (createChatCompletionStream); a streamed request with tools first builds the
 * whole completion, then replays it (createChatCompletionStreamWithTools): tool
 * calls as one delta, text as ten-character pieces. Every stream ends with a
 * chunk carrying only a finish reason, then the `[DONE]` sentinel. Events are
 * modelled as values; their `data: <json>\n\n` framing is described in README.
 */
module Streaming {
  import opened Wrappers
  import opened ChatTypes
  import opened JsText
  import opened Translator

  /** The fields every chunk of one stream shares (`object` is always
      "chat.completion.chunk" and the single choice has index 0). */
  datatype Meta = Meta(id: string, created: int, model: string)

  /** A chunk's delta; an absent field is left out of the JSON. */
  datatype Delta = Delta(role: Option<Role>, content: Option<string>, toolCalls: Option<seq<ToolCall>>)

  datatype StreamEvent =
    | Chunk(meta: Meta, delta: Delta, finishReason: Option<FinishReason>)
    | Done

  const ChunkSize: nat := 10

  const EmptyDelta: Delta := Delta(None, None, None)

  /** The two closing events: a chunk with an empty delta and the finish reason,
      then the sentinel. */
  function Closing(meta: Meta, reason: FinishReason): seq<StreamEvent> {
    [Chunk(meta, EmptyDelta, Some(reason)), Done]
  }

  function ContentEvent(meta: Meta, piece: string): StreamEvent {
    Chunk(meta, Delta(None, Some(piece), None), None)
  }

  // ---------------------------------------------------------------------------
  // Reading a stream back

  /** The text a client accumulates from the deltas. */
  function Reassemble(events: seq<StreamEvent>): string {
    if events == [] then ""
    else
      var last := events[|events| - 1];
      Reassemble(events[..|events| - 1])
        + if last.Chunk? && last.delta.content.Some? then last.delta.content.value else ""
  }

  /** The last finish reason the stream carries, if any. */
  function FinishOf(events: seq<StreamEvent>): Option<FinishReason> {
    if events == [] then None
    else
      var last := events[|events| - 1];
      if last.Chunk? && last.finishReason.Some? then last.finishReason
      else FinishOf(events[..|events| - 1])
  }

  /** A stream as clients expect it: the sentinel last and only there, the
      finish reason only on the chunk just before it, and all chunks sharing
      one id, timestamp and model. */
  predicate WellFramed(events: seq<StreamEvent>, meta: Meta) {
    && |events| >= 2
    && events[|events| - 1] == Done
    && (forall k | 0 <= k < |events| - 1 :: events[k].Chunk? && events[k].meta == meta)
    && events[|events| - 2].finishReason.Some?
    && (forall k | 0 <= k < |events| - 2 :: events[k].finishReason.None?)
  }

  lemma {:induction false} ReassembleAppend(a: seq<StreamEvent>, b: seq<StreamEvent>)
    ensures Reassemble(a + b) == Reassemble(a) + Reassemble(b)
    decreases |b|
  {
    if b == [] {
      assert a + b == a;
    } else {
      var b' := b[..|b| - 1];
      assert (a + b)[..|a + b| - 1] == a + b';
      ReassembleAppend(a, b');
    }
  }

  /** The closing events add no text and finish with their reason. */
  lemma ClosingFacts(body: seq<StreamEvent>, meta: Meta, reason: FinishReason)
    ensures Reassemble(body + Closing(meta, reason)) == Reassemble(body)
    ensures FinishOf(body + Closing(meta, reason)) == Some(reason)
  {
    var ev := body + Closing(meta, reason);
    ReassembleAppend(body, Closing(meta, reason));
    assert Closing(meta, reason)[..1] == [Chunk(meta, EmptyDelta, Some(reason))];
    assert ev[..|ev| - 1] == body + [Chunk(meta, EmptyDelta, Some(reason))];
  }

  /** Chunks of one stream without a finish reason, closed, are well framed. */
  lemma FramedClosing(body: seq<StreamEvent>, meta: Meta, reason: FinishReason)
    requires forall k | 0 <= k < |body| :: body[k].Chunk? && body[k].meta == meta && body[k].finishReason.None?
    ensures WellFramed(body + Closing(meta, reason), meta)
  {
    var ev := body + Closing(meta, reason);
    forall k | 0 <= k < |ev| - 1 ensures ev[k].Chunk? && ev[k].meta == meta {
      if k < |body| { assert ev[k] == body[k]; }
    }
    forall k | 0 <= k < |ev| - 2 ensures ev[k].finishReason.None? {
      assert ev[k] == body[k];
    }
  }

  // ---------------------------------------------------------------------------
  // Replaying a completion (createChatCompletionStreamWithTools)

  /** `content.slice(i, i + 10)` for i = 0, 10, 20, … while i < |content|. */
  function Slices(content: string): seq<string>
    decreases |content|
  {
    if content == [] then []
    else if |content| <= ChunkSize then [content]
    else [content[..ChunkSize]] + Slices(content[ChunkSize..])
  }

  function ContentEvents(meta: Meta, pieces: seq<string>): (r: seq<StreamEvent>)
    ensures |r| == |pieces|
    ensures forall k | 0 <= k < |pieces| :: r[k] == ContentEvent(meta, pieces[k])
  {
    seq(|pieces|, k requires 0 <= k < |pieces| => ContentEvent(meta, pieces[k]))
  }

  /** The events of a replayed completion. */
  function ReplayEvents(completion: Completion, model: string): seq<StreamEvent> {
    var meta := Meta(completion.id, completion.created, model);
    match completion.message.toolCalls
    case Some(calls) =>
      [Chunk(meta, Delta(Some(Assistant), None, Some(calls)), None)] + Closing(meta, ToolCalls)
    case None =>
      [Chunk(meta, Delta(Some(Assistant), None, None), None)]
        + ContentEvents(meta, Slices(ContentText(completion.message.content)))
        + Closing(meta, Stop)
  }

  /** The replay loop: a role chunk, one chunk per ten-character slice, the
      closing pair. */
  method StreamWithTools(completion: Completion, model: string) returns (events: seq<StreamEvent>)
    ensures events == ReplayEvents(completion, model)
  {
    var meta := Meta(completion.id, completion.created, model);
    if completion.message.toolCalls.Some? {
      events := [Chunk(meta, Delta(Some(Assistant), None, completion.message.toolCalls), None)];
      events := events + Closing(meta, ToolCalls);
      return;
    }
    var content := ContentText(completion.message.content);
    var n := |content|;
    events := [Chunk(meta, Delta(Some(Assistant), None, None), None)];
    var i := 0;
    ghost var pieces: seq<string> := [];
    while i < n
      invariant i % ChunkSize == 0
      invariant pieces + Slices(content[if i <= n then i else n..]) == Slices(content)
      invariant events == [Chunk(meta, Delta(Some(Assistant), None, None), None)] + ContentEvents(meta, pieces)
      decreases n - i
    {
      var end := if i + ChunkSize <= n then i + ChunkSize else n;
      var piece := content[i..end];
      SlicesStep(content, i);
      events := events + [ContentEvent(meta, piece)];
      pieces := pieces + [piece];
      i := i + ChunkSize;
    }
    assert content[n..] == [];
    events := events + Closing(meta, Stop);
  }

  lemma SlicesStep(content: string, i: nat)
    requires i < |content|
    ensures Slices(content[i..]) ==
      [content[i..if i + ChunkSize <= |content| then i + ChunkSize else |content|]]
        + Slices(content[if i + ChunkSize <= |content| then i + ChunkSize else |content|..])
  {
    var rest := content[i..];
    if |rest| <= ChunkSize {
      assert content[i..|content|] == rest;
      assert content[|content|..] == [];
      assert Slices(content[|content|..]) == [];
    } else {
      assert rest[..ChunkSize] == content[i..i + ChunkSize];
      assert rest[ChunkSize..] == content[i + ChunkSize..];
    }
  }

  /** The slices put back together are the text. */
  lemma {:induction false} SlicesConcat(content: string)
    ensures Concat(Slices(content)) == content
    decreases |content|
  {
    if |content| > ChunkSize {
      SlicesConcat(content[ChunkSize..]);
      ConcatAppend([content[..ChunkSize]], Slices(content[ChunkSize..]));
      assert content[..ChunkSize] + content[ChunkSize..] == content;
    }
  }

  /** Every slice holds one to ten characters, all but the last exactly ten, and
      there are ⌈|content| / 10⌉ of them. */
  lemma {:induction false} SlicesShape(content: string)
    ensures |Slices(content)| == (|content| + ChunkSize - 1) / ChunkSize
    ensures forall k | 0 <= k < |Slices(content)| :: 1 <= |Slices(content)[k]| <= ChunkSize
    ensures forall k | 0 <= k < |Slices(content)| - 1 :: |Slices(content)[k]| == ChunkSize
    decreases |content|
  {
    if |content| > ChunkSize {
      SlicesShape(content[ChunkSize..]);
    }
  }

  lemma {:induction false} ContentEventsText(meta: Meta, pieces: seq<string>)
    ensures Reassemble(ContentEvents(meta, pieces)) == Concat(pieces)
    ensures forall k | 0 <= k < |pieces| :: ContentEvents(meta, pieces)[k].finishReason.None?
    decreases |pieces|
  {
    if pieces != [] {
      var rest := pieces[1..];
      ContentEventsText(meta, rest);
      assert ContentEvents(meta, pieces) == [ContentEvent(meta, pieces[0])] + ContentEvents(meta, rest);
      ReassembleAppend([ContentEvent(meta, pieces[0])], ContentEvents(meta, rest));
      assert Reassemble([ContentEvent(meta, pieces[0])]) == pieces[0];
    }
  }

  /** Replaying a completion loses nothing: the reassembled text is the
      completion's text (empty for a tool-calls completion), the finish reason is
      the completion's, and the stream is well framed. */
  lemma ReplayRoundTrip(completion: Completion, model: string)
    requires WellFormedCompletion(completion)
    ensures Reassemble(ReplayEvents(completion, model)) == ContentText(completion.message.content)
    ensures FinishOf(ReplayEvents(completion, model)) == Some(completion.finishReason)
    ensures WellFramed(ReplayEvents(completion, model), Meta(completion.id, completion.created, model))
  {
    var meta := Meta(completion.id, completion.created, model);
    if completion.message.toolCalls.Some? {
      ReplayCallsText(meta, completion.message.toolCalls.value);
    } else {
      ReplayText(meta, ContentText(completion.message.content));
    }
  }

  lemma ReplayCallsText(meta: Meta, calls: seq<ToolCall>)
    ensures var ev := [Chunk(meta, Delta(Some(Assistant), None, Some(calls)), None)] + Closing(meta, ToolCalls);
      Reassemble(ev) == "" && FinishOf(ev) == Some(ToolCalls) && WellFramed(ev, meta)
  {
    var head := [Chunk(meta, Delta(Some(Assistant), None, Some(calls)), None)];
    ClosingFacts(head, meta, ToolCalls);
    FramedClosing(head, meta, ToolCalls);
    assert Reassemble(head) == "" by { assert head[..0] == []; }
  }

  lemma ReplayText(meta: Meta, text: string)
    ensures var ev := [Chunk(meta, Delta(Some(Assistant), None, None), None)]
                        + ContentEvents(meta, Slices(text)) + Closing(meta, Stop);
      Reassemble(ev) == text && FinishOf(ev) == Some(Stop) && WellFramed(ev, meta)
  {
    var head := [Chunk(meta, Delta(Some(Assistant), None, None), None)];
    var body := ContentEvents(meta, Slices(text));
    ClosingFacts(head + body, meta, Stop);
    ReassembleAppend(head, body);
    assert Reassemble(head) == "" by { assert head[..0] == []; }
    ContentEventsText(meta, Slices(text));
    SlicesConcat(text);
    forall k | 0 <= k < |head + body|
      ensures (head + body)[k].Chunk? && (head + body)[k].meta == meta && (head + body)[k].finishReason.None?
    {
      if k > 0 { assert (head + body)[k] == body[k - 1]; }
    }
    FramedClosing(head + body, meta, Stop);
  }

  /** A tool-calls completion is replayed as exactly three events: the calls with
      the assistant role, the "tool_calls" finish, the sentinel. */
  lemma ReplayToolCalls(completion: Completion, model: string, calls: seq<ToolCall>)
    requires completion.message.toolCalls == Some(calls)
    ensures var meta := Meta(completion.id, completion.created, model);
      ReplayEvents(completion, model) ==
        [Chunk(meta, Delta(Some(Assistant), None, Some(calls)), None),
         Chunk(meta, EmptyDelta, Some(ToolCalls)),
         Done]
  {
  }

  /** A text completion is replayed as a role chunk, ⌈|text| / 10⌉ content
      chunks, and the closing pair. */
  lemma ReplayTextLength(completion: Completion, model: string)
    requires completion.message.toolCalls.None?
    ensures |ReplayEvents(completion, model)|
            == 3 + (|ContentText(completion.message.content)| + ChunkSize - 1) / ChunkSize
  {
    SlicesShape(ContentText(completion.message.content));
  }

  // ---------------------------------------------------------------------------
  // Relaying upstream fragments (createChatCompletionStream)

  /** One chunk per fragment; only the first carries the assistant role. */
  function RelayChunks(meta: Meta, fragments: seq<string>, isFirst: bool): (r: seq<StreamEvent>)
    ensures |r| == |fragments|
    decreases |fragments|
  {
    if fragments == [] then []
    else
      [Chunk(meta, Delta(if isFirst then Some(Assistant) else None, Some(fragments[0]), None), None)]
        + RelayChunks(meta, fragments[1..], false)
  }

  function RelayEvents(meta: Meta, fragments: seq<string>): seq<StreamEvent> {
    RelayChunks(meta, fragments, true) + Closing(meta, Stop)
  }

  lemma {:induction false} RelayChunksFacts(meta: Meta, fragments: seq<string>, isFirst: bool)
    ensures Reassemble(RelayChunks(meta, fragments, isFirst)) == Concat(fragments)
    ensures forall k | 0 <= k < |fragments| ::
      var e := RelayChunks(meta, fragments, isFirst)[k];
      && e.Chunk? && e.meta == meta && e.finishReason.None?
      && e.delta.content == Some(fragments[k]) && e.delta.toolCalls.None?
      && (e.delta.role.Some? <==> isFirst && k == 0)
    decreases |fragments|
  {
    if fragments != [] {
      var head := [Chunk(meta, Delta(if isFirst then Some(Assistant) else None, Some(fragments[0]), None), None)];
      RelayChunksFacts(meta, fragments[1..], false);
      ReassembleAppend(head, RelayChunks(meta, fragments[1..], false));
      assert Reassemble(head) == fragments[0] by { assert head[..0] == []; }
    }
  }

  /** The relayed stream carries the fragments in order and nothing else, the
      role only on the first chunk, and closes with "stop". */
  lemma RelayRoundTrip(meta: Meta, fragments: seq<string>)
    ensures Reassemble(RelayEvents(meta, fragments)) == Concat(fragments)
    ensures FinishOf(RelayEvents(meta, fragments)) == Some(Stop)
    ensures |RelayEvents(meta, fragments)| == |fragments| + 2
    ensures WellFramed(RelayEvents(meta, fragments), meta)
    ensures forall k | 0 <= k < |RelayEvents(meta, fragments)| - 2 ::
      RelayEvents(meta, fragments)[k].delta.content == Some(fragments[k])
      && (RelayEvents(meta, fragments)[k].delta.role.Some? <==> k == 0)
  {
    RelayChunksFacts(meta, fragments, true);
    ClosingFacts(RelayChunks(meta, fragments, true), meta, Stop);
    FramedClosing(RelayChunks(meta, fragments, true), meta, Stop);
  }

  /** An upstream that sends nothing still yields a well-framed stream: the
      stop chunk and the sentinel, with no role chunk. */
  lemma RelayEmpty(meta: Meta)
    ensures RelayEvents(meta, []) == [Chunk(meta, EmptyDelta, Some(Stop)), Done]
  {
  }
}
