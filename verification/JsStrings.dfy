/**
  The JavaScript string built-ins the extractor relies on: `trim`, `split`
  on a one-character separator, and the decimal rendering of a small
  non-negative number inside a template literal.
 */
module JsStrings {

  import opened Wrappers

  /** The characters `String.prototype.trim` strips: the ECMAScript
      WhiteSpace production (tab, vertical tab, form feed, no-break space,
      byte order mark and every space separator) and the LineTerminator
      production (line feed, carriage return, line and paragraph separators). */
  predicate IsWhitespace(c: char)
  {
    || c == '\t' || c == '\U{B}' || c == '\U{C}' || c == ' ' || c == '\U{A0}'
    || c == '\U{1680}' || ('\U{2000}' <= c <= '\U{200A}') || c == '\U{202F}'
    || c == '\U{205F}' || c == '\U{3000}' || c == '\U{FEFF}'
    || c == '\n' || c == '\r' || c == '\U{2028}' || c == '\U{2029}'
  }

  predicate AllWhitespace(s: string)
  {
    forall i :: 0 <= i < |s| ==> IsWhitespace(s[i])
  }

  /** `s` with its leading whitespace removed: a suffix of `s`, everything cut
      off is whitespace, and what is left does not start with whitespace. */
  function TrimStart(s: string): (r: string)
    ensures |r| <= |s| && r == s[|s| - |r|..]
    ensures forall i :: 0 <= i < |s| - |r| ==> IsWhitespace(s[i])
    ensures r == [] || !IsWhitespace(r[0])
    decreases |s|
  {
    if s != [] && IsWhitespace(s[0]) then TrimStart(s[1..]) else s
  }

  /** `s` with its trailing whitespace removed: a prefix of `s`, everything cut
      off is whitespace, and what is left does not end with whitespace. */
  function TrimEnd(s: string): (r: string)
    ensures |r| <= |s| && r == s[..|r|]
    ensures forall i :: |r| <= i < |s| ==> IsWhitespace(s[i])
    ensures r == [] || !IsWhitespace(r[|r| - 1])
    decreases |s|
  {
    if s != [] && IsWhitespace(s[|s| - 1]) then TrimEnd(s[..|s| - 1]) else s
  }

  /** `r` is the slice of `s` that starts at `k`, with only whitespace
      before and after it. */
  predicate SliceBetweenWhitespace(s: string, k: nat, r: string)
  {
    && k + |r| <= |s| && r == s[k..k + |r|]
    && AllWhitespace(s[..k]) && AllWhitespace(s[k + |r|..])
  }

  /** `String.prototype.trim`: the slice of `s` between its leading and its
      trailing whitespace. The result is empty exactly when `s` is all
      whitespace, and otherwise begins and ends with a non-whitespace
      character, so the whitespace cut from either end is all there is. */
  function Trim(s: string): (r: string)
    ensures |r| <= |s|
    ensures SliceBetweenWhitespace(s, |s| - |TrimStart(s)|, r)
    ensures r == [] <==> AllWhitespace(s)
    ensures r != [] ==> !IsWhitespace(r[0]) && !IsWhitespace(r[|r| - 1])
  {
    var t := TrimStart(s);
    var u := TrimEnd(t);
    TrimmedSlice(s, t, u);
    u
  }

  /** Cutting whitespace off the front and then off the back leaves a slice
      of `s` with whitespace on both sides of it, which is empty exactly when
      `s` is all whitespace. */
  lemma TrimmedSlice(s: string, t: string, u: string)
    requires |t| <= |s| && t == s[|s| - |t|..]
    requires forall i :: 0 <= i < |s| - |t| ==> IsWhitespace(s[i])
    requires t == [] || !IsWhitespace(t[0])
    requires |u| <= |t| && u == t[..|u|]
    requires forall i :: |u| <= i < |t| ==> IsWhitespace(t[i])
    requires u == [] || !IsWhitespace(u[|u| - 1])
    ensures SliceBetweenWhitespace(s, |s| - |t|, u)
    ensures u == [] <==> AllWhitespace(s)
    ensures u != [] ==> !IsWhitespace(u[0]) && !IsWhitespace(u[|u| - 1])
  {
    var k := |s| - |t|;
    assert s[k..k + |u|] == t[..|u|];
    forall j | k + |u| <= j < |s|
      ensures IsWhitespace(s[j])
    {
      assert s[j] == t[j - k];
    }
    assert AllWhitespace(s[k + |u|..]);
    if u == [] {
      assert forall j :: 0 <= j < |s| ==> IsWhitespace(s[j]);
    } else {
      assert s[k] == u[0];
    }
  }

  /** The text of `s` before the first `sep`, or all of `s` when there is none. */
  function BeforeFirst(s: string, sep: char): (r: string)
    ensures |r| <= |s| && r == s[..|r|]
    ensures sep !in r
    ensures |r| == |s| || s[|r|] == sep
    decreases |s|
  {
    if s == [] || s[0] == sep then [] else [s[0]] + BeforeFirst(s[1..], sep)
  }

  /** `s.split(sep)` for a one-character separator: the pieces between
      separators, one more piece than there are separators. */
  function Split(s: string, sep: char): (parts: seq<string>)
    ensures |parts| >= 1
    ensures forall i :: 0 <= i < |parts| ==> sep !in parts[i]
    ensures |parts| == 1 <==> sep !in s
    decreases |s|
  {
    var head := BeforeFirst(s, sep);
    if |head| == |s| then
      [s]
    else
      assert s[|head|] in s;
      [head] + Split(s[|head| + 1..], sep)
  }

  /** `parts.join(sep)`. */
  function Join(parts: seq<string>, sep: char): string
    requires |parts| >= 1
  {
    if |parts| == 1 then parts[0] else parts[0] + [sep] + Join(parts[1..], sep)
  }

  /** Splitting loses nothing: joining the pieces gives back the string. */
  lemma {:induction false} JoinSplit(s: string, sep: char)
    ensures Join(Split(s, sep), sep) == s
    decreases |s|
  {
    var head := BeforeFirst(s, sep);
    if |head| < |s| {
      var rest := s[|head| + 1..];
      assert s == head + [sep] + rest;
      SplitOfJoined(head, sep, rest);
      var parts := Split(s, sep);
      assert parts[1..] == Split(rest, sep);
      JoinSplit(rest, sep);
    }
  }

  lemma {:induction false} BeforeFirstOfJoined(p: string, sep: char, rest: string)
    requires sep !in p
    ensures BeforeFirst(p + [sep] + rest, sep) == p
    decreases |p|
  {
    if p != [] {
      assert (p + [sep] + rest)[1..] == p[1..] + [sep] + rest;
      BeforeFirstOfJoined(p[1..], sep, rest);
    }
  }

  lemma SplitOfJoined(p: string, sep: char, rest: string)
    requires sep !in p
    ensures Split(p + [sep] + rest, sep) == [p] + Split(rest, sep)
  {
    var s := p + [sep] + rest;
    BeforeFirstOfJoined(p, sep, rest);
    assert s[|p| + 1..] == rest;
  }

  /** Pieces free of the separator are recovered by splitting their join. */
  lemma {:induction false} SplitJoin(parts: seq<string>, sep: char)
    requires |parts| >= 1
    requires forall i :: 0 <= i < |parts| ==> sep !in parts[i]
    ensures Split(Join(parts, sep), sep) == parts
    decreases |parts|
  {
    if |parts| > 1 {
      var tail := parts[1..];
      assert forall i :: 0 <= i < |tail| ==> sep !in tail[i] by {
        forall i | 0 <= i < |tail| ensures sep !in tail[i] {
          assert tail[i] == parts[i + 1];
        }
      }
      SplitOfJoined(parts[0], sep, Join(tail, sep));
      SplitJoin(tail, sep);
      assert parts == [parts[0]] + tail;
    }
  }

  /** `s.split(sep)[1]`: the second piece, which JavaScript reports as
      `undefined` when `s` holds no separator. */
  function SecondField(s: string, sep: char): (r: Option<string>)
    ensures r.Some? <==> sep in s
    ensures r.Some? ==> sep !in r.value
  {
    var parts := Split(s, sep);
    if |parts| > 1 then Some(parts[1]) else None
  }

  /** With exactly one separator, the second piece is everything after it. */
  lemma SecondFieldOfOneSeparator(a: string, sep: char, b: string)
    requires sep !in a && sep !in b
    ensures SecondField(a + [sep] + b, sep) == Some(b)
  {
    SplitJoin([a, b], sep);
  }

  /** With more separators, the second piece stops at the next one. */
  lemma SecondFieldStopsAtNextSeparator(a: string, sep: char, b: string, c: string)
    requires sep !in a && sep !in b
    ensures SecondField(a + [sep] + b + [sep] + c, sep) == Some(b)
  {
    var rest := b + [sep] + c;
    var s := a + [sep] + rest;
    assert a + [sep] + b + [sep] + c == s;
    SplitOfJoined(a, sep, rest);
    assert Split(s, sep) == [a] + Split(rest, sep);
    SplitOfJoined(b, sep, c);
    assert Split(rest, sep) == [b] + Split(c, sep);
    assert Split(s, sep)[1] == b;
  }

  /** `s.split(sep).pop()`: the text after the last `sep`, or all of `s`. It
      is the suffix of `s` that holds no separator and is preceded by one,
      unless it is the whole string; `LastFieldUnique` shows that this
      determines it. */
  function LastField(s: string, sep: char): (r: string)
    ensures sep !in r
    ensures |r| <= |s| && r == s[|s| - |r|..]
    ensures |r| == |s| || s[|s| - |r| - 1] == sep
    decreases |s|
  {
    if s == [] || s[|s| - 1] == sep then [] else LastField(s[..|s| - 1], sep) + [s[|s| - 1]]
  }

  /** Only one suffix of `s` is free of the separator and preceded by it (or
      is all of `s`): the last piece of the split is well defined. */
  lemma {:induction false} LastFieldUnique(s: string, sep: char, t: string)
    requires sep !in t
    requires |t| <= |s| && t == s[|s| - |t|..]
    requires |t| == |s| || s[|s| - |t| - 1] == sep
    ensures t == LastField(s, sep)
    decreases |s|
  {
    if s != [] && s[|s| - 1] != sep {
      assert |t| > 0;
      var last := s[|s| - 1];
      var s' := s[..|s| - 1];
      var t' := t[..|t| - 1];
      assert t == t' + [last];
      assert t' == s[|s| - |t|..|s| - 1];
      assert s'[|s'| - |t'|..] == s[|s| - |t|..|s| - 1];
      assert |t'| == |s'| || s'[|s'| - |t'| - 1] == sep;
      assert sep !in t';
      LastFieldUnique(s', sep, t');
    }
  }

  /** The decimal digit for `d`. */
  function DigitChar(d: nat): (c: char)
    requires d < 10
    ensures '0' <= c <= '9'
  {
    (48 + d) as char
  }

  predicate AllDigits(s: string)
  {
    forall i :: 0 <= i < |s| ==> '0' <= s[i] <= '9'
  }

  /** The value of a string of decimal digits. */
  function DecimalValue(s: string): nat
    requires AllDigits(s)
  {
    if s == [] then 0 else DecimalValue(s[..|s| - 1]) * 10 + (s[|s| - 1] as int - 48)
  }

  /** How a non-negative integer below 10^21 prints in a template literal:
      its decimal digits, without leading zeros. */
  function DecimalString(n: nat): (r: string)
    ensures |r| >= 1 && AllDigits(r)
    ensures r[0] == '0' ==> n == 0
    decreases n
  {
    if n < 10 then [DigitChar(n)] else DecimalString(n / 10) + [DigitChar(n % 10)]
  }

  /** Reading the digits back gives the number. */
  lemma {:induction false} DecimalRoundTrip(n: nat)
    ensures DecimalValue(DecimalString(n)) == n
    decreases n
  {
    if n >= 10 {
      var s := DecimalString(n);
      DecimalRoundTrip(n / 10);
      assert s[..|s| - 1] == DecimalString(n / 10);
    }
  }

  /** Different numbers print differently. */
  lemma DecimalStringInjective(a: nat, b: nat)
    ensures DecimalString(a) == DecimalString(b) ==> a == b
  {
    DecimalRoundTrip(a);
    DecimalRoundTrip(b);
  }

  /** A fixed prefix followed by a number yields a different label for each number. */
  lemma NumberedLabelsDistinct(prefix: string, a: nat, b: nat)
    requires a != b
    ensures prefix + DecimalString(a) != prefix + DecimalString(b)
  {
    if prefix + DecimalString(a) == prefix + DecimalString(b) {
      assert (prefix + DecimalString(a))[|prefix|..] == DecimalString(a);
      assert (prefix + DecimalString(b))[|prefix|..] == DecimalString(b);
      DecimalStringInjective(a, b);
    }
  }
}
