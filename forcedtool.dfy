/**
 * The forced tool call of createChatCompletionWithTools (src/openai-service.ts):
 * when the caller demands a tool call and the model's reply held none, a
 * keyword chain over the last message picks the function, and two pattern
 * scanners synthesize its arguments. The scanners decide exactly what the
 * source's regular expressions `/\d+\s*[+\-*\/]\s*\d+/` and
 * `/(?:in|for|at)\s+([A-Za-z\s,]+)/i` match, leftmost first and greedy.
 */
module ForcedToolCall {
  import opened Wrappers
  import opened JsText
  import opened ChatTypes

  const TimeTool: string := "get_current_time"
  const CalcTool: string := "calculate"
  const WeatherTool: string := "get_weather"

  // ---------------------------------------------------------------------------
  // The arithmetic pattern  \d+ \s* [+\-*/] \s* \d+

  predicate IsOperator(c: char) {
    c == '+' || c == '-' || c == '*' || c == '/'
  }

  predicate InArithmetic(c: char) {
    IsDigit(c) || IsJsSpace(c) || IsOperator(c)
  }

  /** The end of the arithmetic match that starts at `i`, if one does. Each part
      is taken greedily; giving characters back never helps, since the character
      after a shorter run would still belong to that run. */
  function ArithmeticAt(s: string, i: nat): (r: Option<nat>)
    requires i <= |s|
    ensures r.Some? ==> i < r.value <= |s|
    ensures r.Some? ==> IsDigit(s[i])
    ensures r.Some? ==> r.value == |s| || !IsDigit(s[r.value])
  {
    var a := SpanEnd(s, i, IsDigit);
    if a == i then None
    else
      var b := SpanEnd(s, a, IsJsSpace);
      if b == |s| || !IsOperator(s[b]) then None
      else
        var c := SpanEnd(s, b + 1, IsJsSpace);
        var d := SpanEnd(s, c, IsDigit);
        if d == c then None else Some(d)
  }

  /** The pattern laid out from `i` to `d`: digits in `i..a`, white space in
      `a..b`, one operator at `b`, white space in `b + 1..c`, digits in `c..d`. */
  predicate ArithmeticParts(s: string, i: nat, a: nat, b: nat, c: nat, d: nat) {
    && i < a <= b < c && c < d <= |s|
    && AllIn(s, i, a, IsDigit) && AllIn(s, a, b, IsJsSpace) && IsOperator(s[b])
    && AllIn(s, b + 1, c, IsJsSpace) && AllIn(s, c, d, IsDigit)
  }

  /** `s[i..d]` is a match of `\d+\s*[+\-*\/]\s*\d+`. */
  ghost predicate ArithmeticForm(s: string, i: nat, d: nat) {
    exists a, b, c :: ArithmeticParts(s, i, a, b, c, d)
  }

  /** What the scanner finds at `i` is a match of the pattern. */
  lemma ArithmeticAtShape(s: string, i: nat)
    requires i <= |s| && ArithmeticAt(s, i).Some?
    ensures ArithmeticForm(s, i, ArithmeticAt(s, i).value)
  {
    var a := SpanEnd(s, i, IsDigit);
    var b := SpanEnd(s, a, IsJsSpace);
    var c := SpanEnd(s, b + 1, IsJsSpace);
    var d := SpanEnd(s, c, IsDigit);
    SpanEndRun(s, i, IsDigit);
    SpanEndRun(s, a, IsJsSpace);
    SpanEndRun(s, b + 1, IsJsSpace);
    SpanEndRun(s, c, IsDigit);
    assert ArithmeticParts(s, i, a, b, c, d);
  }

  /** Every match of the pattern at `i` is found, and none is longer than what
      the scanner returns: the digit and white-space runs before the second
      number are forced, and the last run is taken greedily. */
  lemma ArithmeticAtComplete(s: string, i: nat, a: nat, b: nat, c: nat, d: nat)
    requires ArithmeticParts(s, i, a, b, c, d)
    ensures ArithmeticAt(s, i).Some? && d <= ArithmeticAt(s, i).value
  {
    SpanEndStops(s, i, a, IsDigit);
    SpanEndStops(s, a, b, IsJsSpace);
    SpanEndStops(s, b + 1, c, IsJsSpace);
    SpanEndCovers(s, c, d, IsDigit);
  }

  /** The scanner decides the pattern at `i`: it succeeds exactly when some
      match starts there, and it returns the end of the longest one. */
  lemma ArithmeticAtLongest(s: string, i: nat)
    requires i <= |s|
    ensures ArithmeticAt(s, i).Some? <==> exists d: nat :: ArithmeticForm(s, i, d)
    ensures ArithmeticAt(s, i).Some? ==>
      && ArithmeticForm(s, i, ArithmeticAt(s, i).value)
      && forall d: nat | ArithmeticForm(s, i, d) :: d <= ArithmeticAt(s, i).value
  {
    if ArithmeticAt(s, i).Some? {
      ArithmeticAtShape(s, i);
    }
    forall d: nat | ArithmeticForm(s, i, d)
      ensures ArithmeticAt(s, i).Some? && d <= ArithmeticAt(s, i).value
    {
      var a, b, c :| ArithmeticParts(s, i, a, b, c, d);
      ArithmeticAtComplete(s, i, a, b, c, d);
    }
  }

  /** Whether an arithmetic match starts at `k`. */
  predicate ArithmeticStarts(s: string, k: nat) {
    k <= |s| && ArithmeticAt(s, k).Some?
  }

  /** The leftmost start position of an arithmetic match at or after `from`. */
  function FirstArithmetic(s: string, from: nat): (r: Option<nat>)
    requires from <= |s|
    ensures r.Some? ==> from <= r.value <= |s| && ArithmeticAt(s, r.value).Some?
  {
    FirstWhere((k: nat) => ArithmeticStarts(s, k), from, |s|)
  }

  /** The search finds the leftmost match, and finds nothing only when no
      position matches. */
  lemma FirstArithmeticLeftmost(s: string, from: nat)
    requires from <= |s|
    ensures FirstArithmetic(s, from).Some? ==>
      forall k | from <= k < FirstArithmetic(s, from).value :: ArithmeticAt(s, k).None?
    ensures FirstArithmetic(s, from).None? ==> forall k | from <= k <= |s| :: ArithmeticAt(s, k).None?
  {
    var p := (k: nat) => ArithmeticStarts(s, k);
    assert FirstArithmetic(s, from) == FirstWhere(p, from, |s|);
    FirstWhereLeftmost(p, from, |s|);
    var last := if FirstArithmetic(s, from).Some? then FirstArithmetic(s, from).value else |s| + 1;
    forall k | from <= k < last ensures ArithmeticAt(s, k).None? {
      assert !p(k);
    }
  }

  /** `/\d+\s*[+\-*\/]\s*\d+/.test(s)`. */
  predicate HasArithmetic(s: string) {
    exists k | 0 <= k <= |s| :: ArithmeticAt(s, k).Some?
  }

  /** The text of `s.match(/(\d+\s*[+\-*\/]\s*\d+)/)[1]`, if it matches. */
  function ArithmeticMatch(s: string): (r: Option<string>)
    ensures r.Some? <==> HasArithmetic(s)
  {
    FirstArithmeticLeftmost(s, 0);
    match FirstArithmetic(s, 0)
    case Some(i) => Some(s[i..ArithmeticAt(s, i).value])
    case None => None
  }

  /** `match` returns the leftmost, and there the longest, match of the pattern,
      and finds none exactly when the pattern occurs nowhere. */
  lemma ArithmeticMatchLeftmostLongest(s: string)
    ensures ArithmeticMatch(s).Some? <==> exists k: nat, d: nat :: ArithmeticForm(s, k, d)
    ensures ArithmeticMatch(s).Some? ==>
      var i := FirstArithmetic(s, 0).value;
      var d := ArithmeticAt(s, i).value;
      && ArithmeticMatch(s).value == s[i..d]
      && ArithmeticForm(s, i, d)
      && (forall e: nat | ArithmeticForm(s, i, e) :: e <= d)
      && (forall k: nat, e: nat | k < i :: !ArithmeticForm(s, k, e))
  {
    FirstArithmeticLeftmost(s, 0);
    if FirstArithmetic(s, 0).Some? {
      var i := FirstArithmetic(s, 0).value;
      ArithmeticAtLongest(s, i);
      forall k: nat, e: nat | k < i && ArithmeticForm(s, k, e) ensures false {
        var a, b, c :| ArithmeticParts(s, k, a, b, c, e);
        ArithmeticAtComplete(s, k, a, b, c, e);
      }
    } else {
      forall k: nat, e: nat | ArithmeticForm(s, k, e) ensures false {
        var a, b, c :| ArithmeticParts(s, k, a, b, c, e);
        ArithmeticAtComplete(s, k, a, b, c, e);
      }
    }
  }

  // ---------------------------------------------------------------------------
  // The location pattern  (?:in|for|at) \s+ ([A-Za-z\s,]+), case-insensitive

  predicate InLocation(c: char) {
    IsAsciiLetter(c) || IsJsSpace(c) || c == ','
  }

  /** `kw` (lower case) occurs at `i`, compared without regard to ASCII case. */
  predicate KeywordAt(s: string, i: nat, kw: string) {
    i + |kw| <= |s| && ToLower(s[i..i + |kw|]) == kw
  }

  function KeywordEnd(s: string, i: nat): (r: Option<nat>)
    ensures r.Some? ==> i < r.value <= |s|
  {
    if KeywordAt(s, i, "in") then Some(i + 2)
    else if KeywordAt(s, i, "for") then Some(i + 3)
    else if KeywordAt(s, i, "at") then Some(i + 2)
    else None
  }

  /** The bounds of the captured group of a location match starting at `i`. The
      white-space run is taken greedily; when what follows it cannot start the
      group, one white-space character is given back to the group, which then
      holds only that character. */
  function LocationAt(s: string, i: nat): (r: Option<(nat, nat)>)
    requires i <= |s|
    ensures r.Some? ==> KeywordEnd(s, i).Some? && KeywordEnd(s, i).value < r.value.0 < r.value.1 <= |s|
  {
    match KeywordEnd(s, i)
    case None => None
    case Some(k) =>
      var w := SpanEnd(s, k, IsJsSpace);
      if w == k then None
      else if w < |s| && InLocation(s[w]) then Some((w, SpanEnd(s, w, InLocation)))
      else if w - k >= 2 then Some((w - 1, w))
      else None
  }

  /** The captured group consists of letters, white space and commas, and
      extends as far as such characters do. */
  lemma LocationAtShape(s: string, i: nat)
    requires i <= |s| && LocationAt(s, i).Some?
    ensures var (a, b) := LocationAt(s, i).value;
      && (forall k | a <= k < b :: InLocation(s[k]))
      && (b == |s| || !InLocation(s[b]))
  {
    var k := KeywordEnd(s, i).value;
    var w := SpanEnd(s, k, IsJsSpace);
    if w < |s| && InLocation(s[w]) {
      SpanEndRun(s, w, InLocation);
    } else {
      SpanEndRun(s, k, IsJsSpace);
    }
  }

  /** One of the keywords, in any ASCII case, runs from `i` to `k`. */
  predicate KeywordSpan(s: string, i: nat, k: nat) {
    || (KeywordAt(s, i, "in") && k == i + 2)
    || (KeywordAt(s, i, "for") && k == i + 3)
    || (KeywordAt(s, i, "at") && k == i + 2)
  }

  /** The pattern laid out from `i`: a keyword up to `k`, a non-empty run of
      white space in `k..a`, and the group `a..b` of letters, white space and
      commas. */
  predicate LocationParts(s: string, i: nat, k: nat, a: nat, b: nat) {
    && KeywordSpan(s, i, k) && k < a < b <= |s|
    && AllIn(s, k, a, IsJsSpace) && AllIn(s, a, b, InLocation)
  }

  /** A match of `(?:in|for|at)\s+([A-Za-z\s,]+)` starts at `i` with group `a..b`. */
  ghost predicate LocationForm(s: string, i: nat, a: nat, b: nat) {
    exists k :: LocationParts(s, i, k, a, b)
  }

  /** The keywords start with different letters, so at most one matches. */
  lemma KeywordSpanEnd(s: string, i: nat, k: nat)
    requires KeywordSpan(s, i, k)
    ensures KeywordEnd(s, i) == Some(k)
  {
    if KeywordAt(s, i, "in") { KeywordFirstChar(s, i, "in"); }
    if KeywordAt(s, i, "for") { KeywordFirstChar(s, i, "for"); }
    if KeywordAt(s, i, "at") { KeywordFirstChar(s, i, "at"); }
  }

  lemma KeywordFirstChar(s: string, i: nat, kw: string)
    requires KeywordAt(s, i, kw) && |kw| > 0
    ensures i < |s| && ToLowerChar(s[i]) == kw[0]
  {
    KeywordChars(s, i, kw);
  }

  /** What the scanner finds at `i` is a match of the pattern. */
  lemma LocationAtForm(s: string, i: nat)
    requires i <= |s| && LocationAt(s, i).Some?
    ensures LocationForm(s, i, LocationAt(s, i).value.0, LocationAt(s, i).value.1)
  {
    var (a, b) := LocationAt(s, i).value;
    var k := KeywordEnd(s, i).value;
    var w := SpanEnd(s, k, IsJsSpace);
    SpanEndRun(s, k, IsJsSpace);
    if w < |s| && InLocation(s[w]) {
      SpanEndRun(s, w, InLocation);
    }
    assert LocationParts(s, i, k, a, b);
  }

  /** Every match of the pattern at `i` is found, and the scanner's group is the
      one the backtracking search settles on: the latest start, and there the
      latest end. */
  lemma LocationAtComplete(s: string, i: nat, k: nat, a: nat, b: nat)
    requires LocationParts(s, i, k, a, b)
    ensures LocationAt(s, i).Some?
    ensures var (a', b') := LocationAt(s, i).value; a < a' || (a == a' && b <= b')
  {
    KeywordSpanEnd(s, i, k);
    SpanEndCovers(s, k, a, IsJsSpace);
    var w := SpanEnd(s, k, IsJsSpace);
    if w < |s| && InLocation(s[w]) && a == w {
      SpanEndCovers(s, w, b, InLocation);
    }
  }

  /** The scanner decides the pattern at `i`: it succeeds exactly when some
      match starts there, and its group is the greatest of all such groups. */
  lemma LocationAtGreatest(s: string, i: nat)
    requires i <= |s|
    ensures LocationAt(s, i).Some? <==> exists a: nat, b: nat :: LocationForm(s, i, a, b)
    ensures LocationAt(s, i).Some? ==>
      var (a, b) := LocationAt(s, i).value;
      && LocationForm(s, i, a, b)
      && forall a': nat, b': nat | LocationForm(s, i, a', b') :: a' < a || (a' == a && b' <= b)
  {
    if LocationAt(s, i).Some? {
      LocationAtForm(s, i);
    }
    forall a': nat, b': nat | LocationForm(s, i, a', b')
      ensures LocationAt(s, i).Some?
      ensures var (a, b) := LocationAt(s, i).value; a' < a || (a' == a && b' <= b)
    {
      var k :| LocationParts(s, i, k, a', b');
      LocationAtComplete(s, i, k, a', b');
    }
  }

  /** Whether a location match starts at `k`. */
  predicate LocationStarts(s: string, k: nat) {
    k <= |s| && LocationAt(s, k).Some?
  }

  /** The leftmost start position of a location match at or after `from`. */
  function FirstLocation(s: string, from: nat): (r: Option<nat>)
    requires from <= |s|
    ensures r.Some? ==> from <= r.value <= |s| && LocationAt(s, r.value).Some?
  {
    FirstWhere((k: nat) => LocationStarts(s, k), from, |s|)
  }

  /** The search finds the leftmost match, and finds nothing only when no
      position matches. */
  lemma FirstLocationLeftmost(s: string, from: nat)
    requires from <= |s|
    ensures FirstLocation(s, from).Some? ==>
      forall k | from <= k < FirstLocation(s, from).value :: LocationAt(s, k).None?
    ensures FirstLocation(s, from).None? ==> forall k | from <= k <= |s| :: LocationAt(s, k).None?
  {
    var p := (k: nat) => LocationStarts(s, k);
    assert FirstLocation(s, from) == FirstWhere(p, from, |s|);
    FirstWhereLeftmost(p, from, |s|);
    var last := if FirstLocation(s, from).Some? then FirstLocation(s, from).value else |s| + 1;
    forall k | from <= k < last ensures LocationAt(s, k).None? {
      assert !p(k);
    }
  }

  /** The trimmed captured group of the location pattern, if it matches. */
  function LocationMatch(s: string): Option<string> {
    match FirstLocation(s, 0)
    case Some(k) =>
      var (a, b) := LocationAt(s, k).value;
      Some(Trim(s[a..b]))
    case None => None
  }

  /** `match` takes the leftmost start of the pattern and there the greatest
      group, and finds none exactly when the pattern occurs nowhere. */
  lemma LocationMatchLeftmostGreatest(s: string)
    ensures LocationMatch(s).Some? <==> exists k: nat, a: nat, b: nat :: LocationForm(s, k, a, b)
    ensures LocationMatch(s).Some? ==>
      var i := FirstLocation(s, 0).value;
      var (a, b) := LocationAt(s, i).value;
      && LocationMatch(s).value == Trim(s[a..b])
      && LocationForm(s, i, a, b)
      && (forall a': nat, b': nat | LocationForm(s, i, a', b') :: a' < a || (a' == a && b' <= b))
      && (forall k: nat, a': nat, b': nat | k < i :: !LocationForm(s, k, a', b'))
  {
    FirstLocationLeftmost(s, 0);
    if FirstLocation(s, 0).Some? {
      var i := FirstLocation(s, 0).value;
      LocationAtGreatest(s, i);
      forall k: nat, a': nat, b': nat | k < i && LocationForm(s, k, a', b') ensures false {
        var j :| LocationParts(s, k, j, a', b');
        LocationAtComplete(s, k, j, a', b');
      }
    } else {
      forall k: nat, a': nat, b': nat | LocationForm(s, k, a', b') ensures false {
        var j :| LocationParts(s, k, j, a', b');
        LocationAtComplete(s, k, j, a', b');
      }
    }
  }

  // ---------------------------------------------------------------------------
  // Choosing the function and its arguments

  predicate Offers(tools: seq<ToolDefinition>, name: string) {
    exists t | t in tools :: t.name == name
  }

  /** The forced function: an explicit `tool_choice` function wins; otherwise the
      first tool, unless the first keyword branch that matches names a builtin the
      caller offers. Only that first branch is tried. */
  function ForcedToolName(tools: seq<ToolDefinition>, choice: Option<ToolChoice>, userContent: string): (name: string)
    requires |tools| > 0
    ensures (choice.Some? && choice.value.ChoiceFunction?) ==> name == choice.value.name
    ensures !(choice.Some? && choice.value.ChoiceFunction?) ==> Offers(tools, name)
  {
    if choice.Some? && choice.value.ChoiceFunction? then choice.value.name
    else
      var lower := ToLower(userContent);
      var fallback := tools[0].name;
      if Includes(lower, "time") then
        (if Offers(tools, TimeTool) then TimeTool else fallback)
      else if Includes(lower, "calculate") || HasArithmetic(userContent) then
        (if Offers(tools, CalcTool) then CalcTool else fallback)
      else if Includes(lower, "weather") then
        (if Offers(tools, WeatherTool) then WeatherTool else fallback)
      else fallback
  }

  /** The forced arguments: an expression for the calculator, a location for the
      weather tool, `{}` otherwise or when the pattern does not match. */
  function ForcedArguments(name: string, userContent: string): string {
    if name == CalcTool then
      match ArithmeticMatch(userContent)
      case Some(e) => "{\"expression\":" + JsonQuote(e) + "}"
      case None => "{}"
    else if name == WeatherTool then
      match LocationMatch(userContent)
      case Some(l) => "{\"location\":" + JsonQuote(l) + "}"
      case None => "{}"
    else "{}"
  }

  /** `JSON.stringify(forcedToolCall)`, whose length feeds the completion-token estimate. */
  function SerializeToolCall(call: ToolCall): string {
    "{\"id\":" + JsonQuote(call.id) + ",\"type\":\"function\",\"function\":{\"name\":"
      + JsonQuote(call.name) + ",\"arguments\":" + JsonQuote(call.arguments) + "}}"
  }

  /** The forced call, whose id is `call_` followed by the clock reading `now`. */
  function ForcedCall(tools: seq<ToolDefinition>, choice: Option<ToolChoice>, userContent: string, now: nat): ToolCall
    requires |tools| > 0
  {
    var name := ForcedToolName(tools, choice, userContent);
    ToolCall("call_" + NatToDecimal(now), name, ForcedArguments(name, userContent))
  }

  /** The forced path applies when tool use is required or a function is named,
      and at least one tool is offered. */
  predicate ForcedPathApplies(tools: Option<seq<ToolDefinition>>, choice: Option<ToolChoice>) {
    && choice.Some? && (choice.value == ChoiceRequired || choice.value.ChoiceFunction?)
    && tools.Some? && |tools.value| > 0
  }

  // ---------------------------------------------------------------------------
  // Properties of the heuristic

  /** The keyword priority: "time" is tried first and, when it is present, the
      later cues are never consulted. */
  lemma TimeCueFirst(tools: seq<ToolDefinition>, userContent: string)
    requires |tools| > 0 && Includes(ToLower(userContent), "time")
    ensures ForcedToolName(tools, Some(ChoiceRequired), userContent)
            == if Offers(tools, TimeTool) then TimeTool else tools[0].name
  {
  }

  /** Without a "time" cue, the arithmetic pattern selects the calculator when it is
      offered, and the calculator then always receives an expression. */
  lemma ArithmeticCueGivesExpression(tools: seq<ToolDefinition>, userContent: string)
    requires |tools| > 0 && Offers(tools, CalcTool)
    requires !Includes(ToLower(userContent), "time") && HasArithmetic(userContent)
    ensures ForcedToolName(tools, Some(ChoiceRequired), userContent) == CalcTool
    ensures ForcedArguments(CalcTool, userContent) != "{}"
  {
  }

  /** Only the first branch whose cue is present is tried: with a calculator cue
      and no calculator on offer the first tool is used, whatever the weather
      cue and the weather tool say. */
  lemma CalcCueWithoutCalculator(tools: seq<ToolDefinition>, userContent: string)
    requires |tools| > 0 && !Offers(tools, CalcTool)
    requires !Includes(ToLower(userContent), "time")
    requires Includes(ToLower(userContent), "calculate") || HasArithmetic(userContent)
    ensures ForcedToolName(tools, Some(ChoiceRequired), userContent) == tools[0].name
  {
  }

  /** The weather branch: its cue, with no earlier cue, picks the weather tool
      when it is offered and the first tool otherwise. */
  lemma WeatherCue(tools: seq<ToolDefinition>, userContent: string)
    requires |tools| > 0
    requires !Includes(ToLower(userContent), "time")
    requires !Includes(ToLower(userContent), "calculate") && !HasArithmetic(userContent)
    requires Includes(ToLower(userContent), "weather")
    ensures ForcedToolName(tools, Some(ChoiceRequired), userContent)
            == if Offers(tools, WeatherTool) then WeatherTool else tools[0].name
  {
  }

  /** Without any cue the first tool is used. */
  lemma NoCueDefault(tools: seq<ToolDefinition>, userContent: string)
    requires |tools| > 0
    requires !Includes(ToLower(userContent), "time")
    requires !Includes(ToLower(userContent), "calculate") && !HasArithmetic(userContent)
    requires !Includes(ToLower(userContent), "weather")
    ensures ForcedToolName(tools, Some(ChoiceRequired), userContent) == tools[0].name
  {
  }

  /** A tool that is neither the calculator nor the weather tool gets `{}`. */
  lemma OtherToolsGetEmptyArguments(name: string, userContent: string)
    requires name != CalcTool && name != WeatherTool
    ensures ForcedArguments(name, userContent) == "{}"
  {
  }

  // ---------------------------------------------------------------------------
  // Two worked requests
  //
  // The lemmas from here to the end are the steps of the two worked requests
  // "what is 4 + 5" and "weather in Tokyo": the search skipped position by
  // position, the runs of each scanner evaluated on those texts, and their
  // quoting. Apart from the first few general facts they are about these
  // inputs only.

  /** A string lacking one of `t`'s characters does not include `t`. */
  lemma NotIncludesMissingChar(s: string, t: string, j: nat)
    requires j < |t| && forall k | 0 <= k < |s| :: s[k] != t[j]
    ensures !Includes(s, t)
  {
    forall k: nat | k + |t| <= |s| ensures !OccursAt(s, t, k) {
      assert s[k..k + |t|][j] == s[k + j];
    }
  }

  /** Without a digit there is no arithmetic match. */
  lemma NoDigitNoArithmetic(s: string)
    requires forall k | 0 <= k < |s| :: !IsDigit(s[k])
    ensures !HasArithmetic(s)
  {
  }

  /** Positions before the first digit start no arithmetic match. */
  lemma {:induction false} FirstArithmeticSkip(s: string, from: nat, stop: nat)
    requires from <= stop <= |s|
    requires forall k | from <= k < stop :: !IsDigit(s[k])
    ensures FirstArithmetic(s, from) == FirstArithmetic(s, stop)
    decreases stop - from
  {
    if from < stop {
      StepArithmetic(s, from);
      FirstArithmeticSkip(s, from + 1, stop);
    }
  }

  lemma StepArithmetic(s: string, from: nat)
    requires from < |s| && !IsDigit(s[from])
    ensures FirstArithmetic(s, from) == FirstArithmetic(s, from + 1)
  {
    NoArithmeticAt(s, from);
  }

  lemma NoArithmeticAt(s: string, i: nat)
    requires i < |s| && !IsDigit(s[i])
    ensures ArithmeticAt(s, i).None?
  {
    assert SpanEnd(s, i, IsDigit) == i;
  }

  lemma StepLocation(s: string, from: nat)
    requires from < |s| && LocationAt(s, from).None?
    ensures FirstLocation(s, from) == FirstLocation(s, from + 1)
  {
  }

  /** When none of the first eight positions starts a location match, the search
      resumes at the ninth. */
  lemma SkipEightLocations(s: string)
    requires |s| >= 8
    requires LocationAt(s, 0).None? && LocationAt(s, 1).None? && LocationAt(s, 2).None? && LocationAt(s, 3).None?
    requires LocationAt(s, 4).None? && LocationAt(s, 5).None? && LocationAt(s, 6).None? && LocationAt(s, 7).None?
    ensures FirstLocation(s, 0) == FirstLocation(s, 8)
  {
    StepLocation(s, 0); StepLocation(s, 1); StepLocation(s, 2); StepLocation(s, 3);
    StepLocation(s, 4); StepLocation(s, 5); StepLocation(s, 6); StepLocation(s, 7);
  }

  lemma KeywordChars(s: string, i: nat, kw: string)
    requires KeywordAt(s, i, kw)
    ensures forall j | 0 <= j < |kw| :: ToLowerChar(s[i + j]) == kw[j]
  {
    forall j | 0 <= j < |kw| ensures ToLowerChar(s[i + j]) == kw[j] {
      assert s[i..i + |kw|][j] == s[i + j];
    }
  }

  /** No keyword, hence no location match, starts at a character other than
      i, f or a. */
  lemma NoLocationAt(s: string, i: nat)
    requires i <= |s|
    requires i < |s| ==> ToLowerChar(s[i]) != 'i' && ToLowerChar(s[i]) != 'f' && ToLowerChar(s[i]) != 'a'
    ensures LocationAt(s, i).None?
  {
    if KeywordAt(s, i, "in") { KeywordFirstChar(s, i, "in"); }
    if KeywordAt(s, i, "for") { KeywordFirstChar(s, i, "for"); }
    if KeywordAt(s, i, "at") { KeywordFirstChar(s, i, "at"); }
    assert KeywordEnd(s, i).None?;
  }

  /** The arithmetic pattern finds "4 + 5" in "what is 4 + 5". */
  lemma CalculatorMatch(s: string)
    requires s == "what is 4 + 5"
    ensures ArithmeticMatch(s) == Some("4 + 5")
  {
    FirstArithmeticSkip(s, 0, 8);
    assert SpanEnd(s, 9, IsDigit) == 9;
    assert SpanEnd(s, 8, IsDigit) == 9;
    assert SpanEnd(s, 10, IsJsSpace) == 10;
    assert SpanEnd(s, 9, IsJsSpace) == 10;
    assert SpanEnd(s, 12, IsJsSpace) == 12;
    assert SpanEnd(s, 11, IsJsSpace) == 12;
    assert SpanEnd(s, 13, IsDigit) == 13;
    assert SpanEnd(s, 12, IsDigit) == 13;
    assert ArithmeticAt(s, 8) == Some(13);
    assert s[8..13] == "4 + 5";
  }

  /** "what is 4 + 5" holds no "time" cue. */
  lemma CalculatorCues(s: string)
    requires s == "what is 4 + 5"
    ensures !Includes(ToLower(s), "time")
  {
    assert ToLower(s) == s;
    NotIncludesMissingChar(s, "time", 2);
  }

  lemma TokyoNoLocationA(s: string)
    requires s == "weather in Tokyo"
    ensures LocationAt(s, 0).None? && LocationAt(s, 1).None? && LocationAt(s, 3).None?
  {
    NoLocationAt(s, 0);
    NoLocationAt(s, 1);
    NoLocationAt(s, 3);
  }

  lemma TokyoNoLocationB(s: string)
    requires s == "weather in Tokyo"
    ensures LocationAt(s, 4).None? && LocationAt(s, 5).None?
  {
    NoLocationAt(s, 4);
    NoLocationAt(s, 5);
  }

  lemma TokyoNoLocationC(s: string)
    requires s == "weather in Tokyo"
    ensures LocationAt(s, 6).None? && LocationAt(s, 7).None?
  {
    NoLocationAt(s, 6);
    NoLocationAt(s, 7);
  }

  /** The "at" inside "weather" is followed by no white space, so it starts no match. */
  lemma TokyoAtInWeather(s: string)
    requires s == "weather in Tokyo"
    ensures LocationAt(s, 2).None?
  {
    assert KeywordAt(s, 2, "at") by { assert ToLower(s[2..4]) == "at"; }
    assert SpanEnd(s, 4, IsJsSpace) == 4;
  }

  /** "in", one space, then the group "Tokyo" up to the end. */
  lemma TokyoLocationAt(s: string)
    requires s == "weather in Tokyo"
    ensures LocationAt(s, 8) == Some((11, 16))
  {
    assert KeywordAt(s, 8, "in") by { assert ToLower(s[8..10]) == "in"; }
    assert SpanEnd(s, 11, IsJsSpace) == 11;
    assert SpanEnd(s, 10, IsJsSpace) == 11;
    assert SpanEnd(s, 16, InLocation) == 16;
    assert SpanEnd(s, 15, InLocation) == 16;
    assert SpanEnd(s, 14, InLocation) == 16;
    assert SpanEnd(s, 13, InLocation) == 16;
    assert SpanEnd(s, 12, InLocation) == 16;
    assert SpanEnd(s, 11, InLocation) == 16;
  }

  lemma TokyoFirstLocation(s: string)
    requires s == "weather in Tokyo"
    ensures FirstLocation(s, 0) == Some(8)
  {
    TokyoNoLocationA(s); TokyoNoLocationB(s); TokyoNoLocationC(s); TokyoAtInWeather(s);
    SkipEightLocations(s);
    TokyoLocationAt(s);
  }

  lemma TokyoSlice(s: string)
    requires s == "weather in Tokyo"
    ensures s[11..16] == "Tokyo"
  {
  }

  lemma TrimTokyo(t: string)
    requires t == "Tokyo"
    ensures Trim(t) == t
  {
    TrimUnchanged(t);
  }

  /** The location pattern captures "Tokyo" in "weather in Tokyo"; the "at" inside
      "weather" is passed over. */
  lemma TokyoMatch(s: string)
    requires s == "weather in Tokyo"
    ensures LocationMatch(s) == Some("Tokyo")
  {
    TokyoFirstLocation(s);
    TokyoLocationAt(s);
    TokyoSlice(s);
    TrimTokyo(s[11..16]);
  }

  /** "weather in Tokyo" holds neither a "time" nor a calculator cue, and does
      hold the weather cue. */
  lemma WeatherCues(s: string)
    requires s == "weather in Tokyo"
    ensures !Includes(ToLower(s), "time") && !Includes(ToLower(s), "calculate")
    ensures !HasArithmetic(s) && Includes(ToLower(s), "weather")
  {
    var lower := ToLower(s);
    assert lower == "weather in tokyo";
    NotIncludesMissingChar(lower, "time", 2);
    NotIncludesMissingChar(lower, "calculate", 0);
    NoDigitNoArithmetic(s);
    assert OccursAt(lower, "weather", 0);
  }

  lemma QuotePlain(t: string)
    requires forall k | 0 <= k < |t| :: JsonPlain(t[k])
    ensures JsonQuote(t) == "\"" + t + "\""
  {
    JsonEscapePlain(t);
  }

  /** The two example arguments need no escaping. */
  lemma ExampleQuoted(t: string)
    requires t == "4 + 5" || t == "Tokyo"
    ensures t == "4 + 5" ==> JsonQuote(t) == "\"4 + 5\""
    ensures t == "Tokyo" ==> JsonQuote(t) == "\"Tokyo\""
  {
    QuotePlain(t);
  }

  lemma ExpressionObject(q: string)
    requires q == "\"4 + 5\""
    ensures "{\"expression\":" + q + "}" == "{\"expression\":\"4 + 5\"}"
  {
  }

  lemma LocationObject(q: string)
    requires q == "\"Tokyo\""
    ensures "{\"location\":" + q + "}" == "{\"location\":\"Tokyo\"}"
  {
  }

  /** "what is 4 + 5" with the calculator on offer and a tool call required: the
      calculator, with the expression "4 + 5". */
  lemma CalculatorExample(tools: seq<ToolDefinition>, userContent: string)
    requires |tools| > 0 && Offers(tools, CalcTool)
    requires userContent == "what is 4 + 5"
    ensures ForcedToolName(tools, Some(ChoiceRequired), userContent) == CalcTool
    ensures ForcedArguments(CalcTool, userContent) == "{\"expression\":\"4 + 5\"}"
  {
    CalculatorCues(userContent);
    CalculatorMatch(userContent);
    ArithmeticCueGivesExpression(tools, userContent);
    var e := ArithmeticMatch(userContent).value;
    ExampleQuoted(e);
    ExpressionObject(JsonQuote(e));
  }

  /** "weather in Tokyo" with the weather tool on offer and a tool call required:
      the weather tool, with the location "Tokyo". */
  lemma WeatherExample(tools: seq<ToolDefinition>, userContent: string)
    requires |tools| > 0 && Offers(tools, WeatherTool)
    requires userContent == "weather in Tokyo"
    ensures ForcedToolName(tools, Some(ChoiceRequired), userContent) == WeatherTool
    ensures ForcedArguments(WeatherTool, userContent) == "{\"location\":\"Tokyo\"}"
  {
    WeatherCues(userContent);
    WeatherArguments(userContent);
  }

  lemma WeatherArguments(userContent: string)
    requires userContent == "weather in Tokyo"
    ensures ForcedArguments(WeatherTool, userContent) == "{\"location\":\"Tokyo\"}"
  {
    TokyoMatch(userContent);
    var l := LocationMatch(userContent).value;
    ExampleQuoted(l);
    LocationObject(JsonQuote(l));
  }
}
