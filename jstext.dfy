/**
 * The few JavaScript string built-ins the bridge relies on, written out so that
 * their edge cases are explicit: the white-space set shared by `\s` and
 * `String.prototype.trim`, ASCII `toLowerCase`, `includes`, `startsWith`,
 * `split` and `join`, `JSON.stringify` of a string, the decimal rendering of a
 * non-negative integer and `parseInt` with no radix (ECMA-262, sections 19.2.5,
 * 22.1.3 and 25.5.2).
 *
 * A Dafny `char` is one Unicode scalar value, while the lengths and slices of
 * the source's strings count UTF-16 code units; the two agree on text inside
 * the Basic Multilingual Plane.
 */
module JsText {
  import opened Wrappers

  /** WhiteSpace and LineTerminator code points of ECMAScript: what `\s` matches
      and what `trim` removes. */
  predicate IsJsSpace(c: char) {
    c == '\t' || c == '\n' || c == '\U{000B}' || c == '\U{000C}' || c == '\r' || c == ' '
    || c == '\U{00A0}' || c == '\U{1680}' || ('\U{2000}' <= c <= '\U{200A}')
    || c == '\U{2028}' || c == '\U{2029}' || c == '\U{202F}' || c == '\U{205F}'
    || c == '\U{3000}' || c == '\U{FEFF}'
  }

  /** `\d` without the `u` flag: ASCII digits only. */
  predicate IsDigit(c: char) {
    '0' <= c <= '9'
  }

  predicate IsHexDigit(c: char) {
    IsDigit(c) || 'a' <= c <= 'f' || 'A' <= c <= 'F'
  }

  predicate IsAsciiLetter(c: char) {
    'a' <= c <= 'z' || 'A' <= c <= 'Z'
  }

  predicate AllSpace(s: string) {
    forall k | 0 <= k < |s| :: IsJsSpace(s[k])
  }

  /** The end of the longest run of characters satisfying `p` that starts at `i`. */
  function SpanEnd(s: string, i: nat, p: char -> bool): (j: nat)
    requires i <= |s|
    ensures i <= j <= |s|
    ensures j < |s| ==> !p(s[j])
    decreases |s| - i
  {
    if i < |s| && p(s[i]) then SpanEnd(s, i + 1, p) else i
  }

  /** Every character of the run satisfies `p`. */
  lemma {:induction false} SpanEndRun(s: string, i: nat, p: char -> bool)
    requires i <= |s|
    ensures forall k | i <= k < SpanEnd(s, i, p) :: p(s[k])
    decreases |s| - i
  {
    if i < |s| && p(s[i]) { SpanEndRun(s, i + 1, p); }
  }

  /** Every character of `s[lo..hi]` satisfies `p`. */
  predicate AllIn(s: string, lo: nat, hi: nat, p: char -> bool)
    requires lo <= hi <= |s|
  {
    forall k | lo <= k < hi :: p(s[k])
  }

  /** A run of `p` characters from `i` to `j` lies inside the greedy run. */
  lemma {:induction false} SpanEndCovers(s: string, i: nat, j: nat, p: char -> bool)
    requires i <= j <= |s| && AllIn(s, i, j, p)
    ensures j <= SpanEnd(s, i, p)
    decreases j - i
  {
    if i < j { SpanEndCovers(s, i + 1, j, p); }
  }

  /** A run of `p` characters that ends before a non-`p` character is the
      greedy run. */
  lemma SpanEndStops(s: string, i: nat, j: nat, p: char -> bool)
    requires i <= j <= |s| && AllIn(s, i, j, p)
    requires j < |s| ==> !p(s[j])
    ensures SpanEnd(s, i, p) == j
  {
    SpanEndCovers(s, i, j, p);
    SpanEndRun(s, i, p);
  }

  /** The leftmost position in `from..last` where `p` holds: how a regular
      expression search tries its start positions one after another. */
  function FirstWhere(p: nat -> bool, from: nat, last: nat): (r: Option<nat>)
    requires from <= last
    ensures r.Some? ==> from <= r.value <= last && p(r.value)
    decreases last - from
  {
    if p(from) then Some(from)
    else if from == last then None
    else FirstWhere(p, from + 1, last)
  }

  /** The search skips only positions where `p` fails, and finds nothing only
      when `p` fails everywhere. */
  lemma {:induction false} FirstWhereLeftmost(p: nat -> bool, from: nat, last: nat)
    requires from <= last
    ensures FirstWhere(p, from, last).Some? ==>
      forall k | from <= k < FirstWhere(p, from, last).value :: !p(k)
    ensures FirstWhere(p, from, last).None? ==> forall k | from <= k <= last :: !p(k)
    decreases last - from
  {
    if !p(from) && from < last {
      FirstWhereLeftmost(p, from + 1, last);
    }
  }

  // ---------------------------------------------------------------------------
  // Case mapping, search, prefix test

  /** `toLowerCase` restricted to ASCII letters. */
  function ToLowerChar(c: char): char {
    if 'A' <= c <= 'Z' then (c as int + 32) as char else c
  }

  function ToLower(s: string): (r: string)
    ensures |r| == |s|
    ensures forall k | 0 <= k < |s| :: r[k] == ToLowerChar(s[k])
  {
    seq(|s|, k requires 0 <= k < |s| => ToLowerChar(s[k]))
  }

  /** `t` occurs in `s` at position `k`. */
  predicate OccursAt(s: string, t: string, k: nat) {
    k + |t| <= |s| && s[k..k + |t|] == t
  }

  /** `s.includes(t)`, searched from position `i` on. */
  predicate IncludesFrom(s: string, t: string, i: nat)
    requires i <= |s|
    ensures IncludesFrom(s, t, i) <==> exists k :: i <= k && OccursAt(s, t, k)
    decreases |s| - i
  {
    if i + |t| > |s| then false
    else if OccursAt(s, t, i) then true
    else IncludesFrom(s, t, i + 1)
  }

  predicate Includes(s: string, t: string) {
    IncludesFrom(s, t, 0)
  }

  predicate StartsWith(s: string, prefix: string) {
    |prefix| <= |s| && s[..|prefix|] == prefix
  }

  // ---------------------------------------------------------------------------
  // trim

  function TrimStart(s: string): (r: string)
    ensures |r| <= |s| && r == s[|s| - |r|..]
    ensures AllSpace(s[..|s| - |r|])
    ensures r != [] ==> !IsJsSpace(r[0])
  {
    if |s| > 0 && IsJsSpace(s[0]) then
      var r := TrimStart(s[1..]);
      assert s[..|s| - |r|] == [s[0]] + s[1..][..|s| - 1 - |r|];
      r
    else s
  }

  function TrimEnd(s: string): (r: string)
    ensures |r| <= |s| && r == s[..|r|]
    ensures AllSpace(s[|r|..])
    ensures r != [] ==> !IsJsSpace(r[|r| - 1])
  {
    if |s| > 0 && IsJsSpace(s[|s| - 1]) then
      var r := TrimEnd(s[..|s| - 1]);
      assert s[|r|..] == s[..|s| - 1][|r|..] + [s[|s| - 1]];
      r
    else s
  }

  /** `s.trim()`: the part of `s` between its leading and trailing white space. */
  function Trim(s: string): (r: string)
    ensures |r| <= |s|
    ensures r == [] <==> AllSpace(s)
    ensures r != [] ==> !IsJsSpace(r[0]) && !IsJsSpace(r[|r| - 1])
    ensures exists i :: Trimmed(s, r, i)
  {
    TrimFacts(s);
    TrimEnd(TrimStart(s))
  }

  /** `r` occurs in `s` at `i` with only white space before and after it. */
  predicate Trimmed(s: string, r: string, i: nat) {
    OccursAt(s, r, i) && AllSpace(s[..i]) && AllSpace(s[i + |r|..])
  }

  lemma TrimFacts(s: string)
    ensures var r := TrimEnd(TrimStart(s));
      && (r == [] <==> AllSpace(s))
      && Trimmed(s, r, |s| - |TrimStart(s)|)
  {
    var t := TrimStart(s);
    var r := TrimEnd(t);
    var lead := |s| - |t|;
    TrimmedAtLead(s, t, r, lead);
    if r == [] {
      TrimEmpty(s, t, lead);
    } else {
      assert t[0] == s[lead];
      assert !AllSpace(s) by { assert !IsJsSpace(s[lead]); }
    }
  }

  /** Trimming leaves a string whose ends are not white space unchanged. */
  lemma TrimUnchanged(s: string)
    requires s != [] ==> !IsJsSpace(s[0]) && !IsJsSpace(s[|s| - 1])
    ensures Trim(s) == s
  {
    assert TrimStart(s) == s;
    assert TrimEnd(s) == s;
  }

  lemma TrimmedAtLead(s: string, t: string, r: string, lead: nat)
    requires t == TrimStart(s) && r == TrimEnd(t) && lead == |s| - |t|
    ensures Trimmed(s, r, lead)
  {
    TrimOccurs(s, t, r, lead);
    TrimTail(s, t, r, lead);
  }

  lemma TrimTail(s: string, t: string, r: string, lead: nat)
    requires lead <= |s| && t == s[lead..] && |r| <= |t| && AllSpace(t[|r|..])
    ensures AllSpace(s[lead + |r|..])
  {
    assert s[lead + |r|..] == t[|r|..];
  }

  lemma TrimOccurs(s: string, t: string, r: string, lead: nat)
    requires lead <= |s| && t == s[lead..] && |r| <= |t| && r == t[..|r|]
    ensures OccursAt(s, r, lead)
  {
    assert s[lead..lead + |r|] == r;
  }

  lemma TrimEmpty(s: string, t: string, lead: nat)
    requires lead <= |s| && t == s[lead..] && AllSpace(s[..lead]) && AllSpace(t)
    ensures AllSpace(s)
  {
    AllSpaceConcat(s[..lead], t);
    assert s[..lead] + t == s;
  }

  lemma AllSpaceConcat(a: string, b: string)
    requires AllSpace(a) && AllSpace(b)
    ensures AllSpace(a + b)
  {
    forall k | 0 <= k < |a + b| ensures IsJsSpace((a + b)[k]) {
      if k < |a| { assert (a + b)[k] == a[k]; } else { assert (a + b)[k] == b[k - |a|]; }
    }
  }

  // ---------------------------------------------------------------------------
  // split and join

  /** `s.split(sep)` for a one-character separator: never empty, and no piece
      contains the separator. */
  function Split(s: string, sep: char): (parts: seq<string>)
    ensures |parts| >= 1
    ensures forall k | 0 <= k < |parts| :: sep !in parts[k]
  {
    if s == [] then [[]]
    else
      var rest := Split(s[1..], sep);
      if s[0] == sep then [[]] + rest
      else [[s[0]] + rest[0]] + rest[1..]
  }

  /** `parts.join(sep)`: the empty list joins to the empty string. */
  function Join(parts: seq<string>, sep: string): string {
    if |parts| == 0 then []
    else if |parts| == 1 then parts[0]
    else parts[0] + sep + Join(parts[1..], sep)
  }

  /** The pieces written one after another. */
  function Concat(pieces: seq<string>): string {
    if pieces == [] then "" else pieces[0] + Concat(pieces[1..])
  }

  lemma {:induction false} ConcatAppend(a: seq<string>, b: seq<string>)
    ensures Concat(a + b) == Concat(a) + Concat(b)
    decreases |a|
  {
    if a == [] {
      assert a + b == b;
    } else {
      assert (a + b)[1..] == a[1..] + b;
      ConcatAppend(a[1..], b);
    }
  }

  lemma {:induction false} JoinAppend(parts: seq<string>, x: string, sep: string)
    requires |parts| > 0
    ensures Join(parts + [x], sep) == Join(parts, sep) + sep + x
  {
    if |parts| == 1 {
      assert parts + [x] == [parts[0], x];
      assert [parts[0], x][1..] == [x];
    } else {
      assert (parts + [x])[1..] == parts[1..] + [x];
      JoinAppend(parts[1..], x, sep);
    }
  }

  /** Splitting on a separator and joining on it again gives the string back. */
  lemma {:induction false} JoinSplit(s: string, sep: char)
    ensures Join(Split(s, sep), [sep]) == s
  {
    if s != [] {
      var rest := Split(s[1..], sep);
      JoinSplit(s[1..], sep);
      if s[0] == sep {
        assert ([[]] + rest)[1..] == rest;
      } else if |rest| > 1 {
        var parts := [[s[0]] + rest[0]] + rest[1..];
        assert parts[1..] == rest[1..];
        assert Join(rest, [sep]) == rest[0] + [sep] + Join(rest[1..], [sep]);
      }
    }
  }

  /** Joining separator-free pieces and splitting again gives the pieces back. */
  lemma {:induction false} SplitJoin(parts: seq<string>, sep: char)
    requires |parts| >= 1
    requires forall k | 0 <= k < |parts| :: sep !in parts[k]
    ensures Split(Join(parts, [sep]), sep) == parts
  {
    if |parts| == 1 {
      SplitNoSep(parts[0], sep);
    } else {
      SplitJoin(parts[1..], sep);
      SplitPrefix(parts[0], Join(parts[1..], [sep]), sep);
      assert [parts[0]] + parts[1..] == parts;
    }
  }

  lemma {:induction false} SplitNoSep(s: string, sep: char)
    requires sep !in s
    ensures Split(s, sep) == [s]
  {
    if s != [] {
      SplitNoSep(s[1..], sep);
      assert [s[0]] + s[1..] == s;
    }
  }

  lemma {:induction false} SplitPrefix(x: string, y: string, sep: char)
    requires sep !in x
    ensures Split(x + [sep] + y, sep) == [x] + Split(y, sep)
  {
    if x == [] {
      assert x + [sep] + y == [sep] + y;
      assert ([sep] + y)[1..] == y;
    } else {
      assert (x + [sep] + y)[1..] == x[1..] + [sep] + y;
      SplitPrefix(x[1..], y, sep);
      assert [x[0]] + x[1..] == x;
    }
  }

  // ---------------------------------------------------------------------------
  // JSON.stringify of a string value (ECMA-262, section 25.5.2.3, QuoteJSONString)

  function HexChar(n: nat): char
    requires n < 16
  {
    if n < 10 then ('0' as int + n) as char else ('a' as int + n - 10) as char
  }

  function JsonEscapeChar(c: char): string {
    if c == '"' then "\\\""
    else if c == '\\' then "\\\\"
    else if c == '\U{0008}' then "\\b"
    else if c == '\t' then "\\t"
    else if c == '\n' then "\\n"
    else if c == '\U{000C}' then "\\f"
    else if c == '\r' then "\\r"
    else if (c as int) < 0x20 then "\\u00" + [HexChar(c as int / 16), HexChar(c as int % 16)]
    else [c]
  }

  /** A character JSON.stringify copies unchanged. */
  predicate JsonPlain(c: char) {
    c != '"' && c != '\\' && (c as int) >= 0x20
  }

  function JsonEscape(s: string): string {
    if s == [] then [] else JsonEscapeChar(s[0]) + JsonEscape(s[1..])
  }

  function JsonQuote(s: string): string {
    "\"" + JsonEscape(s) + "\""
  }

  /** A string without quotes, backslashes or control characters is quoted verbatim. */
  lemma {:induction false} JsonEscapePlain(s: string)
    requires forall k | 0 <= k < |s| :: JsonPlain(s[k])
    ensures JsonEscape(s) == s
  {
    if s != [] {
      JsonEscapePlain(s[1..]);
      assert [s[0]] + s[1..] == s;
    }
  }

  // ---------------------------------------------------------------------------
  // Numbers as text

  function HexDigitValue(c: char): (v: nat)
    requires IsHexDigit(c)
    ensures v < 16
    ensures IsDigit(c) ==> v < 10
  {
    if IsDigit(c) then c as int - '0' as int
    else if 'a' <= c <= 'f' then c as int - 'a' as int + 10
    else c as int - 'A' as int + 10
  }

  /** The value of a digit string in base `radix`, most significant digit first. */
  function DigitsValue(ds: string, radix: nat): nat
    requires forall k | 0 <= k < |ds| :: IsHexDigit(ds[k])
  {
    if ds == [] then 0
    else DigitsValue(ds[..|ds| - 1], radix) * radix + HexDigitValue(ds[|ds| - 1])
  }

  /** `String(n)` for a non-negative integer: shortest decimal form. */
  function NatToDecimal(n: nat): (r: string)
    ensures |r| >= 1
    ensures forall k | 0 <= k < |r| :: IsDigit(r[k])
    ensures r[0] == '0' ==> n == 0 && r == "0"
    ensures DigitsValue(r, 10) == n
  {
    var d := [('0' as int + n % 10) as char];
    if n < 10 then d
    else
      var r := NatToDecimal(n / 10) + d;
      assert r[..|r| - 1] == NatToDecimal(n / 10);
      r
  }

  /** `parseInt(s)` with no radix: leading white space skipped, an optional sign,
      then the unsigned part; `None` stands for NaN. */
  function ParseInt(s: string): Option<int> {
    var t := TrimStart(s);
    var negative := |t| > 0 && t[0] == '-';
    var u := if |t| > 0 && (t[0] == '-' || t[0] == '+') then t[1..] else t;
    match ParseUnsigned(u)
    case None => None
    case Some(magnitude) => Some(if negative then -(magnitude as int) else magnitude)
  }

  /** The unsigned part of `parseInt`: a `0x`/`0X` prefix selecting base 16, then
      the longest run of digits, of which there must be at least one. */
  function ParseUnsigned(u: string): Option<nat> {
    var hex := |u| >= 2 && u[0] == '0' && (u[1] == 'x' || u[1] == 'X');
    var radix := if hex then 16 else 10;
    var body := if hex then u[2..] else u;
    var digit := if hex then IsHexDigit else IsDigit;
    var n := SpanEnd(body, 0, digit);
    SpanEndRun(body, 0, digit);
    if n == 0 then None else Some(DigitsValue(body[..n], radix))
  }

  /** parseInt reads back what NatToDecimal writes. */
  lemma ParseIntOfDecimal(n: nat)
    ensures ParseInt(NatToDecimal(n)) == Some(n)
  {
    var r := NatToDecimal(n);
    TrimStartUnchanged(r);
    assert IsDigit(r[0]);
    UnsignedOfDecimal(n);
  }

  lemma TrimStartUnchanged(s: string)
    requires s != [] && !IsJsSpace(s[0])
    ensures TrimStart(s) == s
  {
  }

  lemma UnsignedOfDecimal(n: nat)
    ensures ParseUnsigned(NatToDecimal(n)) == Some(n)
  {
    var r := NatToDecimal(n);
    assert !(|r| >= 2 && r[0] == '0');
    SpanEndAll(r, 0, IsDigit);
    assert r[..|r|] == r;
  }

  lemma {:induction false} SpanEndAll(s: string, i: nat, p: char -> bool)
    requires i <= |s|
    requires forall k | i <= k < |s| :: p(s[k])
    ensures SpanEnd(s, i, p) == |s|
    decreases |s| - i
  {
    if i < |s| { SpanEndAll(s, i + 1, p); }
  }
}
