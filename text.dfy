/** The parts of Python's `str` behaviour the core relies on: whitespace
    (`isspace`, `strip`, `split`), `find`/`rfind`, `join`, `lower` on ASCII,
    decimal rendering and parsing (`str(int)`, `int(str)`, `float(str)`) and
    the ordering `sorted` uses. */
module Text {
  import opened Wrappers

  /** The code points `str.isspace()` accepts, as inclusive ranges;
      `strip()` and `split()` with no argument remove exactly these. */
  const SpaceRanges: seq<(char, char)> :=
    [('\t', '\r'), ('\U{1c}', ' '), ('\U{85}', '\U{85}'), ('\U{a0}', '\U{a0}'), ('\U{1680}', '\U{1680}'),
     ('\U{2000}', '\U{200a}'), ('\U{2028}', '\U{2029}'), ('\U{202f}', '\U{202f}'), ('\U{205f}', '\U{205f}'),
     ('\U{3000}', '\U{3000}')]

  predicate InRanges(c: char, rs: seq<(char, char)>) {
    rs != [] && (rs[0].0 <= c <= rs[0].1 || InRanges(c, rs[1..]))
  }

  predicate IsSpace(c: char) {
    InRanges(c, SpaceRanges)
  }

  /** A character outside every range is outside their union. */
  lemma {:induction false} OutsideRanges(c: char, rs: seq<(char, char)>)
    requires forall i :: 0 <= i < |rs| ==> !(rs[i].0 <= c <= rs[i].1)
    ensures !InRanges(c, rs)
  {
    if rs != [] {
      OutsideRanges(c, rs[1..]);
    }
  }

  /** Printable ASCII other than the space is not whitespace. */
  lemma PrintableIsNotSpace(c: char)
    requires '!' <= c <= '~'
    ensures !IsSpace(c)
  {
    OutsideRanges(c, SpaceRanges);
  }

  /** The ASCII whitespace: tab, newline, vertical tab, form feed, carriage
      return and the space. */
  lemma AsciiSpaces(c: char)
    requires '\t' <= c <= '\r' || c == ' '
    ensures IsSpace(c)
  {
    if c != ' ' {
      assert SpaceRanges[0] == ('\t', '\r');
    } else {
      assert SpaceRanges[1..][0] == ('\U{1c}', ' ');
      assert InRanges(c, SpaceRanges[1..]);
    }
  }

  predicate AllSpace(s: string) {
    forall i :: 0 <= i < |s| ==> IsSpace(s[i])
  }

  predicate NoSpace(s: string) {
    forall i :: 0 <= i < |s| ==> !IsSpace(s[i])
  }

  /** `s.lstrip()` */
  function StripLeft(s: string): (r: string)
    ensures |r| <= |s| && r == s[|s| - |r|..]
    ensures r == [] || !IsSpace(r[0])
  {
    if s != [] && IsSpace(s[0]) then StripLeft(s[1..]) else s
  }

  /** What `lstrip` removes is whitespace. */
  lemma {:induction false} StripLeftRemovesSpace(s: string)
    ensures AllSpace(s[..|s| - |StripLeft(s)|])
  {
    if s != [] && IsSpace(s[0]) {
      var r := StripLeft(s[1..]);
      StripLeftRemovesSpace(s[1..]);
      assert s[..|s| - |r|] == [s[0]] + s[1..][..|s| - 1 - |r|];
    }
  }

  /** `s.rstrip()` */
  function StripRight(s: string): (r: string)
    ensures |r| <= |s| && r == s[..|r|]
    ensures AllSpace(s[|r|..])
    ensures r == [] || !IsSpace(r[|r| - 1])
  {
    if s != [] && IsSpace(s[|s| - 1]) then
      var r := StripRight(s[..|s| - 1]);
      assert s[|r|..] == s[..|s| - 1][|r|..] + [s[|s| - 1]];
      r
    else s
  }

  /** `s.strip()`: the text from the first to the last non-whitespace character;
      what it removes on either side is whitespace only. */
  function Strip(s: string): (r: string)
    ensures |r| <= |s|
    ensures r == [] || (!IsSpace(r[0]) && !IsSpace(r[|r| - 1]))
  {
    StripRight(StripLeft(s))
  }

  /** What `strip` keeps is a slice of `s` with only whitespace around it,
      so it is empty exactly when `s` is all whitespace. */
  lemma StripSlice(s: string)
    ensures var r := Strip(s);
      exists a :: 0 <= a <= |s| - |r| && r == s[a..a + |r|] && AllSpace(s[..a]) && AllSpace(s[a + |r|..])
    ensures Strip(s) == [] <==> AllSpace(s)
  {
    var l := StripLeft(s);
    var r := StripRight(l);
    var a := |s| - |l|;
    StripLeftRemovesSpace(s);
    assert r == s[a..a + |r|];
    assert s[a + |r|..] == l[|r|..];
    assert r == [] ==> s == s[..a] + l[|r|..];
  }

  /** Every character `strip` keeps comes from `s`. */
  lemma StripKeeps(s: string, c: char)
    requires c in Strip(s)
    ensures c in s
  {
    var l := StripLeft(s);
    var r := StripRight(l);
    var i :| 0 <= i < |r| && r[i] == c;
    assert l[i] == c;
    assert s[|s| - |l| + i] == c;
  }

  /** Stripping changes nothing once there is no whitespace at either end. */
  lemma StripUnchanged(s: string)
    requires s == [] || (!IsSpace(s[0]) && !IsSpace(s[|s| - 1]))
    ensures Strip(s) == s
  {
  }

  /** Index of the first whitespace character of `s`, or `|s|` when there is none. */
  function FirstSpace(s: string): (k: nat)
    ensures k <= |s| && (k < |s| ==> IsSpace(s[k]))
  {
    if s == [] || IsSpace(s[0]) then 0 else FirstSpace(s[1..]) + 1
  }

  /** No whitespace comes before the first whitespace character. */
  lemma {:induction false} FirstSpaceAfterWord(s: string)
    ensures NoSpace(s[..FirstSpace(s)])
  {
    if s != [] && !IsSpace(s[0]) {
      var k := FirstSpace(s[1..]);
      FirstSpaceAfterWord(s[1..]);
      assert s[..k + 1] == [s[0]] + s[1..][..k];
    }
  }

  /** `s.split()`: the maximal runs of non-whitespace characters, in order. */
  function Words(s: string): (ws: seq<string>)
    decreases |s|
  {
    var t := StripLeft(s);
    if t == [] then []
    else
      var k := FirstSpace(t);
      [t[..k]] + Words(t[k..])
  }

  /** How many words `s.split()` gives, counted by a scan that is between
      words at the start of `s`. */
  function WordCount(s: string): nat
    decreases |s|
  {
    if s == [] then 0
    else if IsSpace(s[0]) then WordCount(s[1..])
    else 1 + WordRest(s[1..])
  }

  /** The same scan inside a word. */
  function WordRest(s: string): nat
    decreases |s|
  {
    if s == [] then 0
    else if IsSpace(s[0]) then WordCount(s[1..])
    else WordRest(s[1..])
  }

  lemma {:induction false} WordCountOfStripped(s: string)
    ensures WordCount(s) == WordCount(StripLeft(s))
  {
    if s != [] && IsSpace(s[0]) {
      WordCountOfStripped(s[1..]);
    }
  }

  lemma {:induction false} WordRestToSpace(u: string)
    ensures WordRest(u) == WordCount(u[FirstSpace(u)..])
  {
    if u != [] && !IsSpace(u[0]) {
      WordRestToSpace(u[1..]);
      assert u[FirstSpace(u)..] == u[1..][FirstSpace(u[1..])..];
    }
  }

  /** The scan counts exactly the words `split()` returns. */
  lemma {:induction false} WordCountIsWords(s: string)
    ensures WordCount(s) == |Words(s)|
    decreases |s|
  {
    WordCountOfStripped(s);
    var t := StripLeft(s);
    if t != [] {
      var k := FirstSpace(t);
      assert !IsSpace(t[0]) && k == FirstSpace(t[1..]) + 1;
      assert WordCount(t) == 1 + WordRest(t[1..]);
      assert |Words(s)| == 1 + |Words(t[k..])|;
      WordRestToSpace(t[1..]);
      assert t[k..] == t[1..][FirstSpace(t[1..])..];
      WordCountIsWords(t[k..]);
    }
  }

  /** Every word is non-empty and holds no whitespace. */
  lemma {:induction false} WordsAreWords(s: string)
    ensures forall i :: 0 <= i < |Words(s)| ==> Words(s)[i] != [] && NoSpace(Words(s)[i])
    decreases |s|
  {
    var t := StripLeft(s);
    if t != [] {
      var k := FirstSpace(t);
      FirstSpaceAfterWord(t);
      WordsAreWords(t[k..]);
      var rest := Words(t[k..]);
      assert Words(s) == [t[..k]] + rest;
      assert k > 0;
      forall i | 0 < i < |Words(s)|
        ensures Words(s)[i] != [] && NoSpace(Words(s)[i])
      {
        assert Words(s)[i] == rest[i - 1];
      }
    }
  }

  /** `sep.join(parts)` */
  function Join(sep: string, parts: seq<string>): (r: string)
  {
    if |parts| == 0 then ""
    else if |parts| == 1 then parts[0]
    else parts[0] + sep + Join(sep, parts[1..])
  }

  lemma FirstSpaceOfConcat(w: string, x: string)
    requires NoSpace(w) && (x == [] || IsSpace(x[0]))
    ensures FirstSpace(w + x) == |w|
  {
    if w != [] {
      assert (w + x)[1..] == w[1..] + x;
      FirstSpaceOfConcat(w[1..], x);
    }
  }

  /** A word followed by whitespace (or nothing) is the first word. */
  lemma WordsOfWord(w: string, x: string)
    requires w != [] && NoSpace(w) && (x == [] || IsSpace(x[0]))
    ensures Words(w + x) == [w] + Words(x)
  {
    var t := w + x;
    assert StripLeft(t) == t;
    FirstSpaceOfConcat(w, x);
    assert t[..|w|] == w;
    assert t[|w|..] == x;
  }

  /** A leading space does not change the words. */
  lemma WordsOfSpace(rest: string)
    ensures Words(" " + rest) == Words(rest)
  {
    var t := " " + rest;
    assert t[1..] == rest;
    AsciiSpaces(' ');
    assert StripLeft(t) == StripLeft(rest);
  }

  /** One word, a single space, then the rest. */
  lemma WordsOfWordSpace(w: string, rest: string)
    requires w != [] && NoSpace(w)
    ensures Words(w + " " + rest) == [w] + Words(rest)
  {
    var tail := " " + rest;
    assert w + " " + rest == w + tail;
    AsciiSpaces(' ');
    WordsOfWord(w, tail);
    WordsOfSpace(rest);
  }

  /** A single word splits to itself. */
  lemma WordsOfSingle(w: string)
    requires w != [] && NoSpace(w)
    ensures Words(w) == [w]
  {
    WordsOfWord(w, []);
    assert w + [] == w;
  }

  /** The inductive step of `WordsOfJoin`. */
  lemma WordsOfJoinCons(ws: seq<string>)
    requires |ws| > 1 && ws[0] != [] && NoSpace(ws[0])
    requires Words(Join(" ", ws[1..])) == ws[1..]
    ensures Words(Join(" ", ws)) == ws
  {
    WordsOfWordSpace(ws[0], Join(" ", ws[1..]));
    assert ws == [ws[0]] + ws[1..];
  }

  /** Splitting words joined by single spaces gives the words back. */
  lemma {:induction false} WordsOfJoin(ws: seq<string>)
    requires forall i :: 0 <= i < |ws| ==> ws[i] != [] && NoSpace(ws[i])
    ensures Words(Join(" ", ws)) == ws
  {
    if |ws| == 1 {
      WordsOfSingle(ws[0]);
    } else if |ws| > 1 {
      WordsOfJoin(ws[1..]);
      WordsOfJoinCons(ws);
    }
  }

  /** The join of non-empty parts starts with the first part's first character. */
  lemma JoinStartsWith(sep: string, parts: seq<string>)
    requires |parts| > 0 && parts[0] != []
    ensures Join(sep, parts) != [] && Join(sep, parts)[0] == parts[0][0]
  {
  }

  /** `s.find(c)`: the first index holding `c`, or -1. */
  function Find(s: string, c: char): (r: int)
    ensures -1 <= r < |s|
    ensures r == -1 <==> c !in s
    ensures 0 <= r ==> s[r] == c && c !in s[..r]
  {
    if s == [] then -1
    else if s[0] == c then 0
    else
      var k := Find(s[1..], c);
      assert s == [s[0]] + s[1..];
      if k == -1 then -1
      else
        assert s[..k + 1] == [s[0]] + s[1..][..k];
        k + 1
  }

  /** `s.rfind(c)`: the last index holding `c`, or -1. */
  function RFind(s: string, c: char): (r: int)
    ensures -1 <= r < |s|
    ensures r == -1 <==> c !in s
    ensures 0 <= r ==> s[r] == c && c !in s[r + 1..]
  {
    if s == [] then -1
    else if s[|s| - 1] == c then |s| - 1
    else
      var k := RFind(s[..|s| - 1], c);
      assert s == s[..|s| - 1] + [s[|s| - 1]];
      assert 0 <= k ==> s[k + 1..] == s[..|s| - 1][k + 1..] + [s[|s| - 1]];
      k
  }

  /** `s.split(c)` for a one-character separator. */
  function SplitOn(s: string, c: char): (parts: seq<string>)
    ensures |parts| >= 1
    decreases |s|
  {
    if c !in s then [s]
    else
      var k := Find(s, c);
      [s[..k]] + SplitOn(s[k + 1..], c)
  }

  /** Splitting a join at its separator gives the parts back, provided no part
      contains the separator. */
  lemma {:induction false} SplitOnJoin(parts: seq<string>, c: char)
    requires |parts| >= 1
    requires forall i :: 0 <= i < |parts| ==> c !in parts[i]
    ensures SplitOn(Join([c], parts), c) == parts
  {
    if |parts| > 1 {
      var p := parts[0];
      var rest := Join([c], parts[1..]);
      var j := p + [c] + rest;
      assert j == Join([c], parts);
      assert j[|p|] == c;
      assert j[..|p|] == p;
      assert Find(j, c) == |p|;
      assert j[|p| + 1..] == rest;
      SplitOnJoin(parts[1..], c);
    }
  }

  /** ASCII `str.lower()`; non-ASCII characters are left as they are. */
  function Lower(s: string): (r: string)
    ensures |r| == |s|
  {
    if s == [] then []
    else [if 'A' <= s[0] <= 'Z' then (s[0] as int + 32) as char else s[0]] + Lower(s[1..])
  }

  /** Lower-casing leaves no ASCII capital and keeps every other character. */
  lemma {:induction false} LowerFolds(s: string)
    ensures forall i :: 0 <= i < |s| ==> !('A' <= Lower(s)[i] <= 'Z')
    ensures forall i :: 0 <= i < |s| && !('A' <= s[i] <= 'Z') ==> Lower(s)[i] == s[i]
  {
    if s != [] {
      LowerFolds(s[1..]);
      assert forall i :: 1 <= i < |s| ==> Lower(s)[i] == Lower(s[1..])[i - 1] && s[i] == s[1..][i - 1];
    }
  }

  predicate IsDigit(c: char) {
    '0' <= c <= '9'
  }

  predicate AllDigits(s: string) {
    forall i :: 0 <= i < |s| ==> IsDigit(s[i])
  }

  function DigitChar(d: nat): (c: char)
    requires d < 10
    ensures IsDigit(c) && c as int - '0' as int == d
  {
    ('0' as int + d) as char
  }

  function DigitValue(c: char): (d: nat)
    requires IsDigit(c)
    ensures d < 10
  {
    c as int - '0' as int
  }

  /** `str(n)` for a natural number. */
  function NatToString(n: nat): (r: string)
    ensures r != []
  {
    if n < 10 then [DigitChar(n)] else NatToString(n / 10) + [DigitChar(n % 10)]
  }

  /** `str(i)` for an integer. */
  function IntToString(i: int): (r: string)
    ensures r != []
  {
    if i < 0 then "-" + NatToString(-i) else NatToString(i)
  }

  /** The value of a string of decimal digits (leading zeros allowed, as `int()` allows them). */
  function DigitsValue(s: string): nat
    requires AllDigits(s)
  {
    if s == [] then 0 else 10 * DigitsValue(s[..|s| - 1]) + DigitValue(s[|s| - 1])
  }

  /** `str(n)` is all digits, and reading them back gives `n`. */
  lemma {:induction false} DigitsValueOfNatToString(n: nat)
    ensures AllDigits(NatToString(n)) && DigitsValue(NatToString(n)) == n
  {
    if n >= 10 {
      var r := NatToString(n);
      DigitsValueOfNatToString(n / 10);
      assert r[..|r| - 1] == NatToString(n / 10);
    }
  }

  /** `[+|-]digits`, the signed integer syntax with nothing around it. */
  function ParseSignedDigits(t: string): Option<int>
  {
    if |t| >= 2 && (t[0] == '-' || t[0] == '+') && AllDigits(t[1..]) then
      var v: int := DigitsValue(t[1..]);
      Some(if t[0] == '-' then -v else v)
    else if t != [] && AllDigits(t) then Some(DigitsValue(t))
    else None
  }

  /** `int(s)` for a string: optional surrounding whitespace, an optional sign
      and at least one decimal digit. */
  function ParseInt(s: string): (r: Option<int>)
    ensures r.Some? ==> Strip(s) != [] && !AllSpace(s)
  {
    StripSlice(s);
    ParseSignedDigits(Strip(s))
  }

  lemma ParseSignedDigitsOfNat(n: nat)
    ensures ParseSignedDigits(NatToString(n)) == Some(n)
  {
    var t := NatToString(n);
    DigitsValueOfNatToString(n);
    assert IsDigit(t[0]);
  }

  lemma ParseSignedDigitsOfNegative(n: nat)
    ensures ParseSignedDigits("-" + NatToString(n)) == Some(-(n as int))
  {
    var d := NatToString(n);
    var t := "-" + d;
    assert t[1..] == d;
    DigitsValueOfNatToString(n);
  }

  /** `int(str(i)) == i` */
  lemma ParseIntOfIntToString(i: int)
    ensures ParseInt(IntToString(i)) == Some(i)
  {
    var s := IntToString(i);
    var d := NatToString(if i < 0 then -i else i);
    DigitsValueOfNatToString(if i < 0 then -i else i);
    assert IsDigit(d[0]) && IsDigit(d[|d| - 1]);
    assert s[|s| - 1] == d[|d| - 1];
    PrintableIsNotSpace(s[0]);
    PrintableIsNotSpace(s[|s| - 1]);
    StripUnchanged(s);
    if i < 0 {
      ParseSignedDigitsOfNegative(-i);
    } else {
      ParseSignedDigitsOfNat(i);
    }
  }

  /** `max(1, n)` */
  function AtLeastOne(n: int): (r: nat)
    ensures r >= 1 && r >= n
    ensures n >= 1 ==> r == n
  {
    if n > 1 then n else 1
  }

  function Pow10(e: nat): (p: nat)
    ensures p >= 1
  {
    if e == 0 then 1 else 10 * Pow10(e - 1)
  }

  /** What `float()` yields: a finite value, or one of inf, -inf and nan. */
  datatype FloatValue = Finite(r: real) | NonFinite

  /** Index of the first exponent marker `e`/`E`, or `|s|`. */
  function ExpIndex(s: string): (k: nat)
    ensures k <= |s|
    ensures k < |s| ==> s[k] == 'e' || s[k] == 'E'
  {
    if s == [] || s[0] == 'e' || s[0] == 'E' then 0 else 1 + ExpIndex(s[1..])
  }

  /** `digits`, `digits.`, `.digits` or `digits.digits` */
  function MantissaValue(m: string): Option<real>
  {
    var d := Find(m, '.');
    if d == -1 then
      if m != [] && AllDigits(m) then Some(DigitsValue(m) as real) else None
    else
      var ip := m[..d];
      var fp := m[d + 1..];
      if (ip != [] || fp != []) && AllDigits(ip) && AllDigits(fp) then
        Some(DigitsValue(ip) as real + DigitsValue(fp) as real / Pow10(|fp|) as real)
      else None
  }

  function Scale(m: real, e: int): real
  {
    if e >= 0 then m * Pow10(e) as real else m / Pow10(-e) as real
  }

  /** `float(s)` for a string: surrounding whitespace, a sign, a decimal
      mantissa and an optional exponent, or the words inf, infinity and nan. */
  function ParseFloat(s: string): Option<FloatValue>
  {
    var t := Strip(s);
    var neg := t != [] && t[0] == '-';
    var body := if t != [] && (t[0] == '-' || t[0] == '+') then t[1..] else t;
    var word := Lower(body);
    if word == "inf" || word == "infinity" || word == "nan" then Some(NonFinite)
    else
      var k := ExpIndex(body);
      var exponent := if k == |body| then Some(0) else ParseSignedDigits(body[k + 1..]);
      match (MantissaValue(body[..k]), exponent)
      case (Some(m), Some(e)) =>
        var v := Scale(m, e);
        Some(Finite(if neg then -v else v))
      case _ => None
  }

  /** Python's `a <= b` on strings: lexicographic by code point, a proper
      prefix before the longer string. */
  predicate StrLe(a: string, b: string)
    decreases |a|
  {
    |a| == 0 || (|b| > 0 && (a[0] < b[0] || (a[0] == b[0] && StrLe(a[1..], b[1..]))))
  }

  lemma {:induction false} StrLeTotal(a: string, b: string)
    ensures StrLe(a, b) || StrLe(b, a)
    decreases |a|
  {
    if |a| > 0 && |b| > 0 && a[0] == b[0] {
      StrLeTotal(a[1..], b[1..]);
    }
  }

  predicate Sorted(s: seq<string>) {
    forall i :: 0 < i < |s| ==> StrLe(s[i - 1], s[i])
  }

  function Insert(x: string, s: seq<string>): (r: seq<string>)
    requires Sorted(s)
    ensures Sorted(r) && multiset(r) == multiset(s) + multiset{x}
    ensures r[0] == x || (|s| > 0 && r[0] == s[0])
  {
    if s == [] then [x]
    else if StrLe(x, s[0]) then [x] + s
    else
      StrLeTotal(x, s[0]);
      var t := Insert(x, s[1..]);
      assert s == [s[0]] + s[1..];
      [s[0]] + t
  }

  /** `sorted(xs)` for strings. */
  function Sort(xs: seq<string>): (r: seq<string>)
    ensures Sorted(r) && multiset(r) == multiset(xs)
  {
    if xs == [] then []
    else
      assert xs == xs[..|xs| - 1] + [xs[|xs| - 1]];
      Insert(xs[|xs| - 1], Sort(xs[..|xs| - 1]))
  }
}
