/** String helpers with the JavaScript meaning the scraper relies on:
    character classes, `trim`, `split(" ")`, `join`, `includes`, truthiness
    of an optional string, and the decimal rendering of `Number.toString`. */
module Text {
  import opened Wrappers

  /** The code points matched by `\s` and removed by `String.prototype.trim`
      (WhiteSpace and LineTerminator of ECMA-262). */
  predicate IsSpace(c: char) {
    || c == '\t' || c == '\n' || c == '\U{000B}' || c == '\U{000C}' || c == '\r' || c == ' '
    || c == '\U{00A0}' || c == '\U{1680}' || ('\U{2000}' <= c <= '\U{200A}')
    || c == '\U{2028}' || c == '\U{2029}' || c == '\U{202F}' || c == '\U{205F}'
    || c == '\U{3000}' || c == '\U{FEFF}'
  }

  /** `\w`: the ASCII letters, the digits and the underscore. */
  predicate IsWordChar(c: char) {
    ('a' <= c <= 'z') || ('A' <= c <= 'Z') || ('0' <= c <= '9') || c == '_'
  }

  /** `[^"]` */
  predicate NotDoubleQuote(c: char) { c != '"' }

  /** `["']` */
  predicate IsQuote(c: char) { c == '"' || c == '\'' }

  /** `[^"']` */
  predicate NotQuote(c: char) { !IsQuote(c) }

  predicate All(s: string, p: char -> bool) {
    forall k :: 0 <= k < |s| ==> p(s[k])
  }

  /** Length of the longest prefix of `t` whose characters all satisfy `p`:
      what a greedy `[class]*` consumes when the next token lies outside the class. */
  function SpanLen(t: string, p: char -> bool): (n: nat)
    ensures n <= |t|
    ensures All(t[..n], p)
    ensures n == |t| || !p(t[n])
  {
    if t == [] || !p(t[0]) then 0 else 1 + SpanLen(t[1..], p)
  }

  /** A run of `p` characters followed by a non-`p` character (or the end)
      is exactly what `SpanLen` measures. */
  lemma {:induction false} SpanLenExact(a: string, b: string, p: char -> bool)
    requires All(a, p)
    requires b == [] || !p(b[0])
    ensures SpanLen(a + b, p) == |a|
    decreases |a|
  {
    if a == [] {
      assert a + b == b;
    } else {
      assert (a + b)[0] == a[0];
      assert (a + b)[1..] == a[1..] + b;
      assert All(a[1..], p) by { assert forall k :: 0 <= k < |a| - 1 ==> a[1..][k] == a[k + 1]; }
      SpanLenExact(a[1..], b, p);
    }
  }

  /** A greedy `[class]*`: the run it takes and the text after it. */
  function Span(t: string, p: char -> bool): (r: (string, string))
    ensures |r.0| + |r.1| == |t| && All(r.0, p)
    ensures r.1 == [] || !p(r.1[0])
  {
    var n := SpanLen(t, p);
    (t[..n], t[n..])
  }

  lemma SpanSplit(t: string, p: char -> bool)
    ensures t == Span(t, p).0 + Span(t, p).1
  {
    var n := SpanLen(t, p);
    assert t == t[..n] + t[n..];
  }

  lemma SpanOver(a: string, b: string, p: char -> bool)
    requires All(a, p)
    requires b == [] || !p(b[0])
    ensures Span(a + b, p) == (a, b)
  {
    SpanLenExact(a, b, p);
    assert (a + b)[..|a|] == a;
    assert (a + b)[|a|..] == b;
  }

  function After(t: string, lit: string): (r: Option<string>)
    ensures r.Some? ==> |r.value| == |t| - |lit|
  {
    if lit <= t then Some(t[|lit|..]) else None
  }

  lemma AfterSplit(t: string, lit: string)
    requires After(t, lit).Some?
    ensures t == lit + After(t, lit).value
  {
    assert t == t[..|lit|] + t[|lit|..];
  }

  lemma AfterOver(lit: string, rest: string)
    ensures After(lit + rest, lit) == Some(rest)
  {
    assert (lit + rest)[..|lit|] == lit;
    assert (lit + rest)[|lit|..] == rest;
  }

  /** What is left after a greedy `\s*`. */
  function SkipSpaces(t: string): (r: string)
    ensures |r| <= |t|
    ensures r == [] || !IsSpace(r[0])
  {
    t[SpanLen(t, IsSpace)..]
  }

  /** The spaces `\s*` passed over. */
  lemma SkipSpacesSplit(u: string) returns (w: string)
    ensures All(w, IsSpace) && u == w + SkipSpaces(u)
  {
    w := u[..SpanLen(u, IsSpace)];
    assert u == w + u[SpanLen(u, IsSpace)..];
  }

  lemma SkipSpacesOver(w: string, u: string)
    requires All(w, IsSpace)
    requires u == [] || !IsSpace(u[0])
    ensures SkipSpaces(w + u) == u
  {
    SpanLenExact(w, u, IsSpace);
    assert (w + u)[|w|..] == u;
  }

  /** `s.endsWith(suffix)` (`s.startsWith(prefix)` is `prefix <= s`). */
  predicate EndsWith(s: string, suffix: string) {
    |suffix| <= |s| && s[|s| - |suffix|..] == suffix
  }

  /** `s.includes(sub)` */
  predicate Contains(s: string, sub: string)
    decreases |s|
  {
    sub <= s || (s != [] && Contains(s[1..], sub))
  }

  /** Truthiness of a `string | null`: present and not the empty string. */
  predicate Truthy(s: Option<string>) {
    s.Some? && s.value != ""
  }

  // ---------------------------------------------------------------- trim

  function TrimStart(s: string): (r: string)
    ensures |r| <= |s| && r == s[|s| - |r|..]
    ensures All(s[..|s| - |r|], IsSpace)
    ensures r == [] || !IsSpace(r[0])
  {
    s[SpanLen(s, IsSpace)..]
  }

  function TrimEnd(s: string): (r: string)
    ensures r <= s
    ensures All(s[|r|..], IsSpace)
    ensures r == [] || !IsSpace(r[|r| - 1])
    decreases |s|
  {
    if s == [] || !IsSpace(s[|s| - 1]) then s
    else
      var r := TrimEnd(s[..|s| - 1]);
      assert s[|r|..] == s[..|s| - 1][|r|..] + [s[|s| - 1]];
      r
  }

  /** `s.trim()`: the text between the leading and the trailing whitespace. */
  function Trim(s: string): (r: string)
    ensures |r| <= |s|
    ensures r == [] || (!IsSpace(r[0]) && !IsSpace(r[|r| - 1]))
  {
    TrimEnd(TrimStart(s))
  }

  /** What `Trim` removed is whitespace on both sides. */
  lemma TrimSplit(s: string) returns (w1: string, w2: string)
    ensures All(w1, IsSpace) && All(w2, IsSpace) && s == w1 + (Trim(s) + w2)
  {
    var a := TrimStart(s);
    var r := TrimEnd(a);
    w1 := s[..|s| - |a|];
    w2 := a[|r|..];
    PrefixSplit(a, r);
    SuffixSplit(s, a);
  }

  lemma PrefixSplit(a: string, r: string)
    requires r <= a
    ensures a == r + a[|r|..]
  {
    assert r == a[..|r|];
  }

  lemma SuffixSplit(s: string, a: string)
    requires |a| <= |s| && a == s[|s| - |a|..]
    ensures s == s[..|s| - |a|] + a
  {
  }

  /** `s.trim()` is empty exactly when `s` is all whitespace. */
  lemma TrimEmptyIff(s: string)
    ensures Trim(s) == [] <==> All(s, IsSpace)
  {
    var w1, w2 := TrimSplit(s);
    var r := Trim(s);
    if r == [] {
      assert s == w1 + w2 by { assert r + w2 == w2; }
      forall k | 0 <= k < |s| ensures IsSpace(s[k]) {
        if k < |w1| { assert s[k] == w1[k]; } else { assert s[k] == w2[k - |w1|]; }
      }
    } else {
      assert s[|w1|] == r[0];
    }
  }

  /** Trimming pads of whitespace around an unpadded text gives that text back. */
  lemma TrimPadded(w1: string, x: string, w2: string)
    requires All(w1, IsSpace) && All(w2, IsSpace)
    requires x == [] || (!IsSpace(x[0]) && !IsSpace(x[|x| - 1]))
    ensures Trim(w1 + (x + w2)) == x
  {
    var t := w1 + (x + w2);
    if x == [] {
      assert t == w1 + w2;
      assert All(t, IsSpace) by {
        forall k | 0 <= k < |t| ensures IsSpace(t[k]) {
          if k >= |w1| { assert t[k] == w2[k - |w1|]; }
        }
      }
      SpanLenExact(t, [], IsSpace);
      assert TrimStart(t) == [];
    } else {
      SpanLenExact(w1, x + w2, IsSpace);
      assert TrimStart(t) == x + w2;
      TrimEndOver(x, w2);
    }
  }

  lemma {:induction false} TrimEndOver(x: string, w: string)
    requires All(w, IsSpace)
    requires x == [] || !IsSpace(x[|x| - 1])
    ensures TrimEnd(x + w) == x
    decreases |w|
  {
    if w == [] {
      assert x + w == x;
    } else {
      var s := x + w;
      assert s[..|s| - 1] == x + w[..|w| - 1];
      assert s[|s| - 1] == w[|w| - 1];
      assert All(w[..|w| - 1], IsSpace) by { assert forall k :: 0 <= k < |w| - 1 ==> w[..|w| - 1][k] == w[k]; }
      TrimEndOver(x, w[..|w| - 1]);
    }
  }

  // ---------------------------------------------------------- split, join

  /** `parts.join(sep)` */
  function Join(parts: seq<string>, sep: string): (r: string)
    decreases |parts|
  {
    if |parts| == 0 then ""
    else if |parts| == 1 then parts[0]
    else parts[0] + sep + Join(parts[1..], sep)
  }

  /** `s.split(sep)` for a one-character separator: the pieces between the
      separators, including empty ones; the empty string gives `[""]`. */
  function Split(s: string, sep: char): (parts: seq<string>)
    ensures |parts| >= 1
    ensures forall k :: 0 <= k < |parts| ==> sep !in parts[k]
    decreases |s|
  {
    if s == [] then [""]
    else
      var rest := Split(s[1..], sep);
      if s[0] == sep then [""] + rest else [[s[0]] + rest[0]] + rest[1..]
  }

  lemma JoinConsFirst(c: char, parts: seq<string>, sep: string)
    requires |parts| >= 1
    ensures Join([[c] + parts[0]] + parts[1..], sep) == [c] + Join(parts, sep)
  {
    var q := [[c] + parts[0]] + parts[1..];
    assert q[1..] == parts[1..];
  }

  /** Joining the pieces of a split with the separator gives the string back. */
  lemma {:induction false} JoinSplit(s: string, sep: char)
    ensures Join(Split(s, sep), [sep]) == s
    decreases |s|
  {
    if s != [] {
      var rest := Split(s[1..], sep);
      JoinSplit(s[1..], sep);
      if s[0] == sep {
        assert ([""] + rest)[1..] == rest;
      } else {
        JoinConsFirst(s[0], rest, [sep]);
      }
      assert s == [s[0]] + s[1..];
    }
  }

  lemma {:induction false} SplitNoSeparator(x: string, sep: char)
    requires sep !in x
    ensures Split(x, sep) == [x]
    decreases |x|
  {
    if x != [] {
      assert sep !in x[1..] by { assert forall k :: 0 <= k < |x[1..]| ==> x[1..][k] == x[k + 1]; }
      SplitNoSeparator(x[1..], sep);
      assert [x[0]] + x[1..] == x;
    }
  }

  lemma {:induction false} SplitAtSeparator(x: string, sep: char, y: string)
    requires sep !in x
    ensures Split(x + [sep] + y, sep) == [x] + Split(y, sep)
    decreases |x|
  {
    var s := x + [sep] + y;
    if x == [] {
      assert s[0] == sep && s[1..] == y;
    } else {
      assert sep !in x[1..] by { assert forall k :: 0 <= k < |x[1..]| ==> x[1..][k] == x[k + 1]; }
      assert s[1..] == x[1..] + [sep] + y;
      SplitAtSeparator(x[1..], sep, y);
      assert [x[0]] + x[1..] == x;
    }
  }

  /** Splitting a join of separator-free pieces gives the pieces back. */
  lemma {:induction false} SplitJoin(parts: seq<string>, sep: char)
    requires |parts| >= 1
    requires forall k :: 0 <= k < |parts| ==> sep !in parts[k]
    ensures Split(Join(parts, [sep]), sep) == parts
    decreases |parts|
  {
    if |parts| == 1 {
      SplitNoSeparator(parts[0], sep);
    } else {
      SplitJoin(parts[1..], sep);
      assert Join(parts, [sep]) == parts[0] + [sep] + Join(parts[1..], [sep]);
      SplitAtSeparator(parts[0], sep, Join(parts[1..], [sep]));
      assert [parts[0]] + parts[1..] == parts;
    }
  }

  /** `parts.filter((part) => part !== undefined)` */
  function Present(parts: seq<Option<string>>): (r: seq<string>)
    ensures |r| <= |parts|
    decreases |parts|
  {
    if parts == [] then []
    else (if parts[0].Some? then [parts[0].value] else []) + Present(parts[1..])
  }

  // ------------------------------------------------------------- decimal

  predicate IsDigit(c: char) { '0' <= c <= '9' }

  function DigitChar(d: nat): (c: char)
    requires d < 10
    ensures IsDigit(c) && (c as int) - ('0' as int) == d
  {
    (('0' as int) + d) as char
  }

  /** Decimal digits of `n` without leading zeros. */
  function NatToDecimal(n: nat): (r: string)
    ensures |r| >= 1 && All(r, IsDigit)
    ensures r[0] == '0' ==> n == 0
    decreases n
  {
    if n < 10 then [DigitChar(n)] else NatToDecimal(n / 10) + [DigitChar(n % 10)]
  }

  /** The value of a string of decimal digits. */
  function DecimalValue(s: string): nat
    requires All(s, IsDigit)
    decreases |s|
  {
    if s == [] then 0
    else
      assert All(s[..|s| - 1], IsDigit) by { assert forall k :: 0 <= k < |s| - 1 ==> s[..|s| - 1][k] == s[k]; }
      DecimalValue(s[..|s| - 1]) * 10 + ((s[|s| - 1] as int) - ('0' as int))
  }

  lemma {:induction false} DecimalRoundTrip(n: nat)
    ensures DecimalValue(NatToDecimal(n)) == n
    decreases n
  {
    if n >= 10 {
      DecimalRoundTrip(n / 10);
      var s := NatToDecimal(n);
      assert s[..|s| - 1] == NatToDecimal(n / 10);
    }
  }

  /** `Number.prototype.toString()` on an integer: optional `-`, then digits. */
  function IntToDecimal(i: int): (r: string)
    ensures |r| >= 1 && (r[0] == '-' <==> i < 0)
  {
    if i < 0 then "-" + NatToDecimal(-i) else NatToDecimal(i)
  }

  /** Different integers render differently, so comparing rendered ids is
      comparing ids. */
  lemma IntToDecimalInjective(a: int, b: int)
    requires IntToDecimal(a) == IntToDecimal(b)
    ensures a == b
  {
    if a < 0 && b < 0 {
      NegativeDigits(a);
      NegativeDigits(b);
      NatToDecimalInjective(-a, -b);
    } else if a >= 0 && b >= 0 {
      NatToDecimalInjective(a, b);
    } else {
      // the two renderings differ in their sign character
      assert false;
    }
  }

  lemma NegativeDigits(i: int)
    requires i < 0
    ensures IntToDecimal(i)[1..] == NatToDecimal(-i)
  {
    assert ("-" + NatToDecimal(-i))[1..] == NatToDecimal(-i);
  }

  lemma NatToDecimalInjective(m: nat, n: nat)
    requires NatToDecimal(m) == NatToDecimal(n)
    ensures m == n
  {
    DecimalRoundTrip(m);
    DecimalRoundTrip(n);
  }
}
