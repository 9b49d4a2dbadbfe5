/** Input cleaning and host-name validation shared by the setup endpoints
    (app/security.py). */
module Security {
  import opened Wrappers
  import opened Text
  import opened PyJson

  /** `value.replace("\x00", "")` */
  function RemoveNul(s: string): (r: string)
    ensures '\0' !in r
    ensures '\0' !in s ==> r == s
    ensures |r| + multiset(s)['\0'] == |s|
  {
    if s == [] then []
    else
      assert s == [s[0]] + s[1..];
      (if s[0] == '\0' then [] else [s[0]]) + RemoveNul(s[1..])
  }

  /** `sanitize_text_input(value, field, max_length=maxLength)`: the text with
      NUL characters removed and surrounding whitespace stripped, or the
      message of the `ValueError` it raises. */
  function Sanitize(value: Json, field: string, maxLength: int): (r: Result<string, string>)
    ensures !value.JStr? ==> r == Err(field + " must be a string")
    ensures value.JStr? && Strip(RemoveNul(value.s)) == [] ==> r == Err(field + " must be a non-empty string")
    ensures value.JStr? && Strip(RemoveNul(value.s)) != [] ==>
      (r.Ok? <==> |Strip(RemoveNul(value.s))| <= maxLength) &&
      (r.Err? ==> r.error == field + " is too long")
    ensures r.Ok? ==> value.JStr? && r.value == Strip(RemoveNul(value.s))
  {
    if !value.JStr? then Err(field + " must be a string")
    else
      var cleaned := Strip(RemoveNul(value.s));
      if cleaned == [] then Err(field + " must be a non-empty string")
      else if |cleaned| > maxLength then Err(field + " is too long")
      else Ok(cleaned)
  }

  lemma NoNulSurvivesStrip(s: string)
    requires '\0' !in s
    ensures '\0' !in Strip(s)
  {
    if '\0' in Strip(s) {
      StripKeeps(s, '\0');
    }
  }

  /** An accepted value is clean: no NUL character, not empty, within the
      length limit, and without whitespace at either end. */
  lemma SanitizedIsClean(value: Json, field: string, maxLength: int)
    requires Sanitize(value, field, maxLength).Ok?
    ensures var c := Sanitize(value, field, maxLength).value;
      '\0' !in c && c != [] && |c| <= maxLength && !IsSpace(c[0]) && !IsSpace(c[|c| - 1])
  {
    NoNulSurvivesStrip(RemoveNul(value.s));
  }

  /** Sanitizing a sanitized value gives it back unchanged. */
  lemma SanitizeIdempotent(value: Json, field: string, maxLength: int)
    requires Sanitize(value, field, maxLength).Ok?
    ensures Sanitize(JStr(Sanitize(value, field, maxLength).value), field, maxLength)
         == Sanitize(value, field, maxLength)
  {
    var c := Sanitize(value, field, maxLength).value;
    assert RemoveNul(c) == c;
    StripUnchanged(c);
  }

  /** The characters `[A-Za-z0-9.-]` of the host-name pattern. */
  predicate HostChar(c: char) {
    'A' <= c <= 'Z' || 'a' <= c <= 'z' || '0' <= c <= '9' || c == '.' || c == '-'
  }

  /** A whole-string match of `^[A-Za-z0-9.-]+$`. */
  predicate MatchesHostPattern(h: string) {
    h != [] && forall i :: 0 <= i < |h| ==> HostChar(h[i])
  }

  /** No character of the pattern is whitespace. */
  lemma HostCharsAreNotSpace(h: string)
    ensures (forall i :: 0 <= i < |h| ==> HostChar(h[i])) ==> forall i :: 0 <= i < |h| ==> !IsSpace(h[i])
  {
    forall i | 0 <= i < |h| && HostChar(h[i])
      ensures !IsSpace(h[i])
    {
      PrintableIsNotSpace(h[i]);
    }
  }

  /** What `re.match(r"^[A-Za-z0-9.-]+$", h)` accepts: `$` also matches just
      before a final newline, so one trailing `"\n"` gets through. */
  predicate MatchesHostPatternAsWritten(h: string) {
    MatchesHostPattern(h) || (|h| >= 2 && h[|h| - 1] == '\n' && MatchesHostPattern(h[..|h| - 1]))
  }

  predicate IsOctet(p: string) {
    1 <= |p| <= 3 && AllDigits(p) && DigitsValue(p) <= 255 && (|p| == 1 || p[0] != '0')
  }

  /** `ipaddress.ip_address(h)` succeeds on a dotted-quad IPv4 address: four
      decimal octets without leading zeros, each at most 255. */
  predicate IsIPv4(h: string) {
    var parts := SplitOn(h, '.');
    |parts| == 4 && forall i :: 0 <= i < 4 ==> IsOctet(parts[i])
  }

  /** The names accepted before any other test. */
  predicate IsLoopbackName(h: string) {
    h == "localhost" || h == "127.0.0.1" || h == "::1"
  }

  /** The last test of `validate_host`: no leading or trailing `-` and no `..`. */
  predicate DashesAndDotsOk(h: string) {
    !(h != [] && h[0] == '-') && !(h != [] && h[|h| - 1] == '-') && !IsSubstring("..", h)
  }

  /** `validate_host(h)` as written, with the pattern's trailing-newline gap. */
  function ValidateHostAsWritten(h: string): bool
  {
    if IsLoopbackName(h) then true
    else if !MatchesHostPatternAsWritten(h) then false
    else if IsIPv4(h) then true
    else DashesAndDotsOk(h)
  }

  /** `validate_host(h)` with the pattern matched against the whole string. */
  function ValidateHost(h: string): (r: bool)
    ensures r <==> IsLoopbackName(h) || (MatchesHostPattern(h) && DashesAndDotsOk(h))
    ensures r && !IsLoopbackName(h) ==> forall i :: 0 <= i < |h| ==> !IsSpace(h[i])
  {
    IPv4Shape(h);
    HostCharsAreNotSpace(h);
    if IsLoopbackName(h) then true
    else if !MatchesHostPattern(h) then false
    else if IsIPv4(h) then true
    else DashesAndDotsOk(h)
  }

  /** Joining parts on `c` after splitting on `c` gives the string back. */
  lemma {:induction false} JoinSplitOn(s: string, c: char)
    ensures Join([c], SplitOn(s, c)) == s
    decreases |s|
  {
    if c in s {
      var k := Find(s, c);
      var rest := s[k + 1..];
      var tail := SplitOn(rest, c);
      var all := [s[..k]] + tail;
      JoinSplitOn(rest, c);
      assert SplitOn(s, c) == all;
      assert all[0] == s[..k] && all[1..] == tail && |all| > 1;
      assert Join([c], all) == s[..k] + [c] + Join([c], tail);
      assert s == s[..k] + [c] + rest;
    }
  }

  predicate NoDoubleDot(s: string) {
    forall i :: 0 <= i < |s| - 1 ==> !(s[i] == '.' && s[i + 1] == '.')
  }

  /** Non-empty dot-free parts joined on `.` have no `..` and no dot at either end. */
  lemma {:induction false} JoinedOctetsShape(parts: seq<string>)
    requires |parts| >= 1
    requires forall i :: 0 <= i < |parts| ==> parts[i] != [] && '.' !in parts[i]
    ensures var s := Join(".", parts); s != [] && s[0] != '.' && s[|s| - 1] != '.' && NoDoubleDot(s)
  {
    if |parts| > 1 {
      JoinedOctetsShape(parts[1..]);
      var p := parts[0];
      var t := Join(".", parts[1..]);
      var s := Join(".", parts);
      assert s == p + "." + t;
      forall i | 0 <= i < |s| - 1
        ensures !(s[i] == '.' && s[i + 1] == '.')
      {
        if i < |p| {
          assert s[i] == p[i];
        } else if i == |p| {
          assert s[i + 1] == t[0];
        } else {
          assert s[i] == t[i - |p| - 1] && s[i + 1] == t[i - |p|];
        }
      }
    }
  }

  lemma SubstringDoubleDot(s: string)
    requires NoDoubleDot(s)
    ensures !IsSubstring("..", s)
  {
    forall i | 0 <= i <= |s|
      ensures !(".." <= s[i..])
    {
      if i < |s| - 1 {
        assert s[i..][0] == s[i] && s[i..][1] == s[i + 1];
      }
    }
  }

  /** An IPv4 address also passes the host-name tests, so the address branch
      of `validate_host` never changes its answer. */
  lemma IPv4Shape(h: string)
    ensures IsIPv4(h) ==> MatchesHostPattern(h) && DashesAndDotsOk(h)
  {
    if IsIPv4(h) {
      var parts := SplitOn(h, '.');
      JoinSplitOn(h, '.');
      forall i | 0 <= i < |parts|
        ensures parts[i] != [] && '.' !in parts[i] && AllDigits(parts[i])
      {
        OctetHasNoDot(parts[i]);
      }
      assert Join(".", parts) == h;
      JoinedOctetsShape(parts);
      SubstringDoubleDot(h);
      JoinChars(parts);
      assert forall i :: 0 <= i < |h| ==> DigitOrDot(h[i]);
      assert IsDigit(h[0]) && IsDigit(h[|h| - 1]);
    }
  }

  lemma OctetHasNoDot(p: string)
    requires IsOctet(p)
    ensures p != [] && '.' !in p && AllDigits(p)
  {
  }

  predicate DigitOrDot(c: char) {
    IsDigit(c) || c == '.'
  }

  /** Every character of digit strings joined on `.` is a digit or a dot. */
  lemma {:induction false} JoinChars(parts: seq<string>)
    requires forall i :: 0 <= i < |parts| ==> AllDigits(parts[i])
    ensures forall i :: 0 <= i < |Join(".", parts)| ==> DigitOrDot(Join(".", parts)[i])
  {
    if |parts| > 1 {
      JoinChars(parts[1..]);
      var p := parts[0];
      var s := Join(".", parts);
      var t := Join(".", parts[1..]);
      assert s == p + "." + t;
      assert AllDigits(p);
      forall i | 0 <= i < |s|
        ensures DigitOrDot(s[i])
      {
        if i < |p| {
          assert s[i] == p[i];
        } else if i > |p| {
          assert s[i] == t[i - |p| - 1];
          assert DigitOrDot(t[i - |p| - 1]);
        }
      }
    } else if |parts| == 1 {
      assert AllDigits(parts[0]);
    }
  }

  /** With the text sanitized first, as every caller does, the trailing-newline
      gap cannot be reached: both versions agree. */
  lemma AsWrittenAgreesOnStripped(h: string)
    requires h == [] || !IsSpace(h[|h| - 1])
    ensures ValidateHostAsWritten(h) == ValidateHost(h)
  {
    AsciiSpaces('\n');
    IPv4Shape(h);
  }

  /** The input that shows the gap: `"a\n"` passes as written, and is refused
      when the whole string must match. */
  lemma TrailingNewlineAccepted()
    ensures ValidateHostAsWritten("a\n")
    ensures !ValidateHost("a\n")
  {
    var h := "a\n";
    assert h[..1] == "a";
    assert MatchesHostPattern("a");
    assert SplitOn(h, '.') == [h];
    assert !MatchesHostPattern(h) by { assert !HostChar(h[1]); }
    assert !IsSubstring("..", h) by {
      SubstringDoubleDot(h);
    }
  }
}
