/**
 * The upstream body parsing of src/duckai.ts, a simplified form of the
 * event-stream format of the WHATWG HTML Living Standard, section 9.2: the
 * body is split on line feeds, lines starting with `data: ` carry a JSON
 * object, and the object's `message` field, when truthy, is a text fragment.
 * JSON parsing of a line's remainder is the caller-supplied `parse`: `None` for
 * malformed JSON, `Some(None)` for an object whose `message` is missing or
 * falsy (`""`, `0`, `false`, `null`), which `if (json.message)` skips, and
 * `Some(Some(m))` otherwise, `m` being the truthy message as text.
 */
module EventStream {
  import opened Wrappers
  import opened JsText

  const DataPrefix: string := "data: "

  const FallbackReply: string := "I apologize, but I'm unable to provide a response at the moment."

  type Parser = string -> Option<Option<string>>

  /** The fragment one line contributes, if any: a malformed line, a line
      without the prefix and an empty message all contribute nothing. */
  function LineMessage(line: string, parse: Parser): (r: Option<string>)
    ensures r.Some? ==> r.value != ""
    ensures r.Some? <==> StartsWith(line, DataPrefix)
                         && parse(line[|DataPrefix|..]).Some?
                         && parse(line[|DataPrefix|..]).value.Some?
                         && parse(line[|DataPrefix|..]).value.value != ""
  {
    if StartsWith(line, DataPrefix) then
      match parse(line[|DataPrefix|..])
      case Some(Some(m)) => if m != "" then Some(m) else None
      case _ => None
    else None
  }

  /** The fragments of a list of lines, in line order. */
  function Fragments(lines: seq<string>, parse: Parser): (r: seq<string>)
    ensures |r| <= |lines|
    ensures forall k | 0 <= k < |r| :: r[k] != ""
  {
    if lines == [] then []
    else
      var rest := Fragments(lines[..|lines| - 1], parse);
      match LineMessage(lines[|lines| - 1], parse)
      case Some(m) => rest + [m]
      case None => rest
  }

  /** The reply `chat` returns for accumulated text: trimmed, with the fixed
      apology in place of an empty result. */
  function ReplyText(collected: string): (r: string)
    ensures r != ""
    ensures r == Trim(collected) || (AllSpace(collected) && r == FallbackReply)
  {
    var t := Trim(collected);
    if t == "" then FallbackReply else t
  }

  /** What `chat` makes of a response body. */
  function ChatReply(body: string, parse: Parser): string {
    ReplyText(Concat(Fragments(Split(body, '\n'), parse)))
  }

  /** The loop of `chat`: append the message of every line, then trim. */
  method ParseEventBody(body: string, parse: Parser) returns (reply: string)
    ensures reply == ChatReply(body, parse)
  {
    var lines := Split(body, '\n');
    var llmResponse := "";
    for i := 0 to |lines|
      invariant llmResponse == Concat(Fragments(lines[..i], parse))
    {
      var line := lines[i];
      assert lines[..i + 1][..i] == lines[..i];
      if StartsWith(line, DataPrefix) {
        var json := parse(line[|DataPrefix|..]);
        if json.Some? && json.value.Some? && json.value.value != "" {
          ConcatAppend(Fragments(lines[..i], parse), [json.value.value]);
          llmResponse := llmResponse + json.value.value;
        }
      }
    }
    assert lines[..|lines|] == lines;
    reply := ReplyText(llmResponse);
  }

  /** The fragments `chatStream` enqueues for one decoded network chunk. Each
      chunk is split on its own, so a line cut by a chunk boundary is seen as
      two lines. */
  function ChunkFragments(chunk: string, parse: Parser): seq<string> {
    Fragments(Split(chunk, '\n'), parse)
  }

  method ParseStreamChunk(chunk: string, parse: Parser) returns (fragments: seq<string>)
    ensures fragments == ChunkFragments(chunk, parse)
  {
    var lines := Split(chunk, '\n');
    fragments := [];
    for i := 0 to |lines|
      invariant fragments == Fragments(lines[..i], parse)
    {
      var line := lines[i];
      assert lines[..i + 1][..i] == lines[..i];
      if StartsWith(line, DataPrefix) {
        var json := parse(line[|DataPrefix|..]);
        if json.Some? && json.value.Some? && json.value.value != "" {
          fragments := fragments + [json.value.value];
        }
      }
    }
    assert lines[..|lines|] == lines;
  }

  /** All fragments of a stream of chunks, chunk after chunk. */
  function StreamFragments(chunks: seq<string>, parse: Parser): seq<string> {
    if chunks == [] then []
    else StreamFragments(chunks[..|chunks| - 1], parse) + ChunkFragments(chunks[|chunks| - 1], parse)
  }

  // ---------------------------------------------------------------------------
  // Properties

  /** The fragments of consecutive line lists follow each other. */
  lemma {:induction false} FragmentsAppend(a: seq<string>, b: seq<string>, parse: Parser)
    ensures Fragments(a + b, parse) == Fragments(a, parse) + Fragments(b, parse)
    decreases |b|
  {
    if b == [] {
      assert a + b == a;
    } else {
      var b' := b[..|b| - 1];
      assert (a + b)[..|a + b| - 1] == a + b';
      assert (a + b)[|a + b| - 1] == b[|b| - 1];
      FragmentsAppend(a, b', parse);
    }
  }

  lemma FragmentsSingle(line: string, parse: Parser)
    ensures Fragments([line], parse) == if LineMessage(line, parse).Some? then [LineMessage(line, parse).value] else []
  {
    assert [line][..0] == [];
  }

  /** A line that contributes nothing (malformed JSON, no prefix, no message)
      can be dropped anywhere without changing the result. */
  lemma SkippedLine(before: seq<string>, line: string, after: seq<string>, parse: Parser)
    requires LineMessage(line, parse).None?
    ensures Fragments(before + [line] + after, parse) == Fragments(before + after, parse)
  {
    FragmentsAppend(before + [line], after, parse);
    FragmentsAppend(before, [line], parse);
    FragmentsSingle(line, parse);
    FragmentsAppend(before, after, parse);
  }

  /** A line that carries a message adds exactly that message, in its place. */
  lemma MessageLine(before: seq<string>, line: string, after: seq<string>, parse: Parser)
    requires LineMessage(line, parse).Some?
    ensures Fragments(before + [line] + after, parse)
            == Fragments(before, parse) + [LineMessage(line, parse).value] + Fragments(after, parse)
  {
    FragmentsAppend(before + [line], after, parse);
    FragmentsAppend(before, [line], parse);
    FragmentsSingle(line, parse);
  }

  lemma SplitTwoLines(l1: string, l2: string)
    requires '\n' !in l1 && '\n' !in l2
    ensures Split(l1 + "\n" + l2, '\n') == [l1, l2]
  {
    var parts := [l1, l2];
    assert parts[1..] == [l2];
    assert Join(parts[1..], "\n") == l2;
    assert Join(parts, "\n") == l1 + "\n" + l2;
    SplitJoin(parts, '\n');
  }

  lemma DataLine(payload: string, parse: Parser)
    ensures LineMessage(DataPrefix + payload, parse) ==
      match parse(payload)
      case Some(Some(m)) => if m != "" then Some(m) else None
      case _ => None
  {
    var l := DataPrefix + payload;
    assert l[..|DataPrefix|] == DataPrefix;
    assert l[|DataPrefix|..] == payload;
  }

  /** One well-formed `message` line and one malformed line: the reply is the
      well-formed fragment alone, and no error arises. */
  lemma WellFormedAndMalformedLines(good: string, bad: string, m: string, parse: Parser)
    requires '\n' !in good && '\n' !in bad
    requires parse(good) == Some(Some(m)) && m != ""
    requires !IsJsSpace(m[0]) && !IsJsSpace(m[|m| - 1])
    requires parse(bad).None?
    ensures ChatReply(DataPrefix + good + "\n" + DataPrefix + bad, parse) == m
  {
    var l1 := DataPrefix + good;
    var l2 := DataPrefix + bad;
    assert '\n' !in l1 && '\n' !in l2;
    assert DataPrefix + good + "\n" + DataPrefix + bad == l1 + "\n" + l2;
    SplitTwoLines(l1, l2);
    DataLine(good, parse);
    DataLine(bad, parse);
    assert [l1, l2] == [l1] + [l2];
    FragmentsAppend([l1], [l2], parse);
    FragmentsSingle(l1, parse);
    FragmentsSingle(l2, parse);
    assert Fragments([l1, l2], parse) == [m];
    assert Concat([m]) == m;
    TrimUnchanged(m);
  }

  /** A body that arrives as one chunk: the streamed fragments, concatenated and
      trimmed, are what the blocking call returns. */
  lemma SingleChunkAgrees(body: string, parse: Parser)
    ensures ReplyText(Concat(StreamFragments([body], parse))) == ChatReply(body, parse)
  {
    var chunks := [body];
    assert chunks[..|chunks| - 1] == [];
    assert StreamFragments(chunks, parse) == [] + ChunkFragments(body, parse);
    assert [] + ChunkFragments(body, parse) == Fragments(Split(body, '\n'), parse);
  }

  /** The stream's fragments are those of each chunk in turn. */
  lemma {:induction false} StreamFragmentsAppend(a: seq<string>, b: seq<string>, parse: Parser)
    ensures StreamFragments(a + b, parse) == StreamFragments(a, parse) + StreamFragments(b, parse)
    decreases |b|
  {
    if b == [] {
      assert a + b == a;
    } else {
      var b' := b[..|b| - 1];
      assert (a + b)[..|a + b| - 1] == a + b';
      assert (a + b)[|a + b| - 1] == b[|b| - 1];
      assert StreamFragments(a + b, parse)
             == StreamFragments(a + b', parse) + ChunkFragments(b[|b| - 1], parse);
      StreamFragmentsAppend(a, b', parse);
      assert StreamFragments(b, parse) == StreamFragments(b', parse) + ChunkFragments(b[|b| - 1], parse);
    }
  }
}
