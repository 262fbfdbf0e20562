/** The string primitives of ECMAScript that the application uses:
    `trim`, `toLowerCase`, `split`, `join`, `includes`, `startsWith`,
    number-to-string and string-to-number conversion. */
module Strings {
  import opened Values

  /** ECMAScript WhiteSpace and LineTerminator code points: what `trim`
      removes and what the regular expression `\s` matches. */
  predicate IsSpace(c: char) {
    || c == ' ' || c == '\t' || c == '\n' || c == '\r' || c == '\U{B}' || c == '\U{C}'
    || c == '\U{A0}' || c == '\U{1680}' || ('\U{2000}' <= c <= '\U{200A}')
    || c == '\U{2028}' || c == '\U{2029}' || c == '\U{202F}' || c == '\U{205F}'
    || c == '\U{3000}' || c == '\U{FEFF}'
  }

  /** A string with no white space at either end. */
  predicate IsTrimmed(s: string) {
    |s| == 0 || (!IsSpace(s[0]) && !IsSpace(s[|s| - 1]))
  }

  function TrimStart(s: string): (r: string)
    ensures |r| <= |s| && r == s[|s| - |r|..]
    ensures |r| > 0 ==> !IsSpace(r[0])
    ensures forall i :: 0 <= i < |s| - |r| ==> IsSpace(s[i])
  {
    if |s| > 0 && IsSpace(s[0]) then TrimStart(s[1..]) else s
  }

  function TrimEnd(s: string): (r: string)
    ensures |r| <= |s| && r == s[..|r|]
    ensures |r| > 0 ==> !IsSpace(r[|r| - 1])
    ensures forall i :: |r| <= i < |s| ==> IsSpace(s[i])
  {
    if |s| > 0 && IsSpace(s[|s| - 1]) then TrimEnd(s[..|s| - 1]) else s
  }

  /** `String.prototype.trim`: the longest infix of `s` with no white space
      at its ends, obtained by dropping only white space. */
  function Trim(s: string): (r: string)
    ensures IsTrimmed(r)
    ensures forall c :: c in r ==> c in s
    ensures IsTrimmed(s) ==> r == s
    ensures exists k :: InfixAt(s, r, k)
  {
    TrimEndsClean(s);
    TrimKeepsChars(s);
    TrimOfTrimmed(s);
    TrimInfix(s);
    TrimEnd(TrimStart(s))
  }

  /** Nothing but white space. */
  predicate AllSpace(t: string) {
    forall i :: 0 <= i < |t| ==> IsSpace(t[i])
  }

  /** `r` is the infix of `s` starting at `k`, and everything of `s` before
      and after it is white space. */
  predicate InfixAt(s: string, r: string, k: int) {
    && 0 <= k <= |s| - |r|
    && r == s[k..k + |r|]
    && AllSpace(s[..k])
    && AllSpace(s[k + |r|..])
  }

  /** What `Trim` keeps is the infix left after dropping white space only,
      at the front and at the back. */
  lemma TrimInfix(s: string)
    ensures exists k :: InfixAt(s, TrimEnd(TrimStart(s)), k)
  {
    var a := TrimStart(s);
    var r := TrimEnd(a);
    var k := |s| - |a|;
    assert r == s[k..k + |r|] by {
      assert a == s[k..];
      assert r == a[..|r|];
    }
    assert AllSpace(s[..k]) by {
      var front := s[..k];
      forall i | 0 <= i < |front| ensures IsSpace(front[i]) {
        assert front[i] == s[i];
      }
    }
    assert AllSpace(s[k + |r|..]) by {
      var back := s[k + |r|..];
      forall i | 0 <= i < |back| ensures IsSpace(back[i]) {
        assert back[i] == s[k + |r| + i] == a[|r| + i];
      }
    }
    assert InfixAt(s, r, k);
  }

  lemma TrimEndsClean(s: string)
    ensures IsTrimmed(TrimEnd(TrimStart(s)))
  {
    var a := TrimStart(s);
    var r := TrimEnd(a);
    if |r| > 0 {
      assert r[0] == a[0];
    }
  }

  lemma TrimKeepsChars(s: string)
    ensures forall c :: c in TrimEnd(TrimStart(s)) ==> c in s
  {
    var a := TrimStart(s);
    var r := TrimEnd(a);
    PrefixMembers(a, |r|);
    SuffixMembers(s, |s| - |a|);
  }

  lemma PrefixMembers(a: string, n: nat)
    requires n <= |a|
    ensures forall c :: c in a[..n] ==> c in a
  {
    forall c | c in a[..n] ensures c in a {
      var j :| 0 <= j < n && a[..n][j] == c;
      assert a[j] == c;
    }
  }

  lemma SuffixMembers(a: string, n: nat)
    requires n <= |a|
    ensures forall c :: c in a[n..] ==> c in a
  {
    forall c | c in a[n..] ensures c in a {
      var j :| 0 <= j < |a| - n && a[n..][j] == c;
      assert a[n + j] == c;
    }
  }

  lemma TrimOfTrimmed(s: string)
    ensures IsTrimmed(s) ==> TrimEnd(TrimStart(s)) == s
  {
  }

  /** `toLowerCase` on one character; only the ASCII letters are folded. */
  function LowerChar(c: char): char {
    if 'A' <= c <= 'Z' then (c as int + 32) as char else c
  }

  function Lower(s: string): (r: string)
    ensures |r| == |s|
    ensures forall i :: 0 <= i < |s| ==> r[i] == LowerChar(s[i])
  {
    seq(|s|, i requires 0 <= i < |s| => LowerChar(s[i]))
  }

  /** A combining diacritical mark, U+0300 to U+036F. */
  predicate IsMark(c: char) {
    '\U{300}' <= c <= '\U{36F}'
  }

  /** `.replace(/[̀-ͯ]/g, "")`: every combining mark removed,
      every other character kept in order. */
  function StripMarks(s: string): (r: string)
    ensures |r| <= |s|
    ensures forall c :: c in r <==> c in s && !IsMark(c)
  {
    if s == [] then []
    else if IsMark(s[0]) then StripMarks(s[1..])
    else [s[0]] + StripMarks(s[1..])
  }

  /** Removing marks distributes over concatenation. */
  lemma {:induction false} StripMarksAppend(a: string, b: string)
    ensures StripMarks(a + b) == StripMarks(a) + StripMarks(b)
    decreases |a|
  {
    if a != [] {
      assert (a + b)[0] == a[0];
      assert (a + b)[1..] == a[1..] + b;
      StripMarksAppend(a[1..], b);
    } else {
      assert a + b == b;
    }
  }

  /** A text without combining marks is left as it is. */
  lemma {:induction false} StripMarksNoMarks(s: string)
    requires forall i :: 0 <= i < |s| ==> !IsMark(s[i])
    ensures StripMarks(s) == s
    decreases |s|
  {
    if s != [] {
      assert !IsMark(s[0]);
      var rest := s[1..];
      assert forall i :: 0 <= i < |rest| ==> rest[i] == s[i + 1];
      StripMarksNoMarks(rest);
      assert [s[0]] + rest == s;
    }
  }

  /** The index of the first `c` in `s`. */
  function IndexOf(s: string, c: char): (i: nat)
    requires c in s
    ensures i < |s| && s[i] == c && c !in s[..i]
  {
    if s[0] == c then 0 else 1 + IndexOf(s[1..], c)
  }

  /** The first `c` after a prefix without `c` is the one right after it. */
  lemma {:induction false} IndexOfAfter(a: string, c: char, rest: string)
    requires c !in a
    ensures c in a + [c] + rest && IndexOf(a + [c] + rest, c) == |a|
  {
    assert (a + [c] + rest)[|a|] == c;
    if a != [] {
      assert (a + [c] + rest)[1..] == a[1..] + [c] + rest;
      IndexOfAfter(a[1..], c, rest);
    }
  }

  /** `s.split(sep)` for a one-character separator: the pieces between
      separators, at least one, none containing the separator. */
  function Split(s: string, sep: char): (r: seq<string>)
    ensures |r| >= 1
    ensures forall p :: p in r ==> sep !in p
    decreases |s|
  {
    if sep !in s then [s]
    else
      var i := IndexOf(s, sep);
      [s[..i]] + Split(s[i + 1..], sep)
  }

  /** `parts.join(sep)` for a one-character separator. */
  function Join(parts: seq<string>, sep: char): string {
    if |parts| == 0 then ""
    else if |parts| == 1 then parts[0]
    else parts[0] + [sep] + Join(parts[1..], sep)
  }

  /** Splitting a joined list gives the list back when no part contains the
      separator; the empty list joins to "" which splits to one empty piece. */
  lemma {:induction false} SplitJoin(parts: seq<string>, sep: char)
    requires |parts| >= 1
    requires forall p :: p in parts ==> sep !in p
    ensures Split(Join(parts, sep), sep) == parts
    decreases |parts|
  {
    if |parts| > 1 {
      var s := Join(parts, sep);
      assert s == parts[0] + [sep] + Join(parts[1..], sep);
      assert parts[0] in parts;
      IndexOfAfter(parts[0], sep, Join(parts[1..], sep));
      var i := IndexOf(s, sep);
      assert s[..i] == parts[0];
      assert s[i + 1..] == Join(parts[1..], sep);
      SplitJoin(parts[1..], sep);
    } else {
      assert parts[0] in parts;
    }
  }

  /** `needle` occurs in `hay` starting at index `i`. */
  predicate OccursAt(hay: string, needle: string, i: int) {
    0 <= i && i + |needle| <= |hay| && hay[i..i + |needle|] == needle
  }

  /** `hay.includes(needle)`. */
  predicate Contains(hay: string, needle: string) {
    exists i | 0 <= i <= |hay| :: OccursAt(hay, needle, i)
  }

  /** `s.startsWith(prefix)`. */
  predicate StartsWith(s: string, prefix: string) {
    |prefix| <= |s| && s[..|prefix|] == prefix
  }

  predicate IsDigit(c: char) {
    '0' <= c <= '9'
  }

  function DigitChar(d: nat): char
    requires d < 10
  {
    ('0' as int + d) as char
  }

  /** Decimal representation of a natural number, as `String(n)` prints it. */
  function NatToString(n: nat): (r: string)
    ensures |r| >= 1
    ensures forall c :: c in r ==> IsDigit(c)
  {
    if n < 10 then [DigitChar(n)] else NatToString(n / 10) + [DigitChar(n % 10)]
  }

  /** `String(n)` for an integer. */
  function IntToString(n: int): string {
    if n < 0 then "-" + NatToString(-n) else NatToString(n)
  }

  /** The value of a non-empty string of decimal digits. */
  function DigitsValue(s: string): nat
    requires forall c :: c in s ==> IsDigit(c)
  {
    if s == [] then 0
    else
      var last := s[|s| - 1];
      assert last in s;
      assert IsDigit(last);
      assert forall c :: c in s[..|s| - 1] ==> c in s;
      10 * DigitsValue(s[..|s| - 1]) + (last as int - '0' as int)
  }

  lemma {:induction false} DigitsRoundTrip(n: nat)
    ensures DigitsValue(NatToString(n)) == n
  {
    if n >= 10 {
      var s := NatToString(n);
      assert s[..|s| - 1] == NatToString(n / 10);
      DigitsRoundTrip(n / 10);
    }
  }

  predicate AllDigits(s: string) {
    |s| > 0 && forall c :: c in s ==> IsDigit(c)
  }

  /** `Number(s)` for a string: white space around the text is ignored, an
      empty text is 0, an optionally signed run of decimal digits is its
      value, and anything else is NaN (`None`). */
  function ParseNumber(s: string): (r: Option<int>)
    ensures AllDigits(Trim(s)) ==> r == Some(DigitsValue(Trim(s)))
    ensures Trim(s) == "" ==> r == Some(0)
    ensures var t := Trim(s); t != [] && t[0] == '+' && AllDigits(t[1..]) ==> r == Some(DigitsValue(t[1..]))
    ensures var t := Trim(s); t != [] && t[0] == '-' && AllDigits(t[1..]) ==> r.Some? && r.value == -(DigitsValue(t[1..]) as int)
    ensures var t := Trim(s);
      r.None? <==> t != [] && !AllDigits(t) && !((t[0] == '+' || t[0] == '-') && AllDigits(t[1..]))
  {
    ParseTrimmed(Trim(s))
  }

  /** `Number` on text that has already been trimmed. */
  function ParseTrimmed(t: string): (r: Option<int>)
    ensures AllDigits(t) ==> r == Some(DigitsValue(t))
    ensures t == "" ==> r == Some(0)
    ensures t != [] && t[0] == '+' && AllDigits(t[1..]) ==> r == Some(DigitsValue(t[1..]))
    ensures t != [] && t[0] == '-' && AllDigits(t[1..]) ==> r.Some? && r.value == -(DigitsValue(t[1..]) as int)
    ensures r.None? <==> t != [] && !AllDigits(t) && !((t[0] == '+' || t[0] == '-') && AllDigits(t[1..]))
  {
    if t == "" then Some(0)
    else if AllDigits(t) then
      assert t[0] in t;
      Some(DigitsValue(t))
    else if (t[0] == '+' || t[0] == '-') && AllDigits(t[1..]) then
      var v: int := DigitsValue(t[1..]);
      Some(if t[0] == '-' then -v else v)
    else None
  }

  /** The text `String(n)` prints reads back as `n`. */
  lemma ParseNumberOfInt(n: int)
    ensures ParseNumber(IntToString(n)) == Some(n)
  {
    var m: nat := if n < 0 then -n else n;
    var d := NatToString(m);
    var t := IntToString(n);
    assert ParseNumber(t) == ParseTrimmed(t) by {
      IntToStringTrimmed(n);
    }
    DigitsRoundTrip(m);
    assert AllDigits(d);
    if n < 0 {
      assert t[0] == '-' && t[1..] == d;
    } else {
      assert t == d;
    }
  }

  /** `String(n)` has no white space at its ends. */
  lemma IntToStringTrimmed(n: int)
    ensures IsTrimmed(IntToString(n))
  {
    var d := NatToString(if n < 0 then -n else n);
    var t := IntToString(n);
    assert d[|d| - 1] in d;
    assert t[|t| - 1] == d[|d| - 1];
    if n >= 0 {
      assert d[0] in d;
    }
  }

  /** `Number(v)` for a scalar JSON value: undefined is NaN, null is 0,
      booleans are 0 and 1. */
  function ToNumber(v: Scalar): Option<int> {
    match v
    case Undefined => None
    case Null => Some(0)
    case Bool(b) => Some(if b then 1 else 0)
    case Num(n) => Some(n)
    case Str(s) => ParseNumber(s)
  }

  /** `String(v || "")`: every falsy scalar becomes "". */
  function TextOrEmpty(v: Scalar): (r: string)
    ensures !Truthy(v) ==> r == ""
    ensures v.Str? ==> r == v.s
  {
    if !Truthy(v) then ""
    else match v
      case Bool(_) => "true"
      case Num(n) => IntToString(n)
      case Str(s) => s
      case _ => ""
  }
}
