/** String helpers with the semantics of the Python built-ins the audit core
    uses: strip, lower, find/rfind, replace, str.count, slicing, the decimal
    number grammar accepted by Decimal() and float(), and int-to-text. */
module Text {
  import opened Wrappers

  predicate IsDigit(c: char) { '0' <= c <= '9' }

  /** The ASCII characters str.strip() removes: space, tab, the line and
      page breaks \n, \v, \f, \r, and the separators \x1c to \x1f. */
  predicate IsSpace(c: char)
  {
    c == ' ' || c == '\t' || c == '\n' || c == '\r' || c == '\U{000B}' || c == '\U{000C}'
    || ('\U{001C}' <= c <= '\U{001F}')
  }

  predicate AllDigits(s: string) { forall i :: 0 <= i < |s| ==> IsDigit(s[i]) }

  // ---------------------------------------------------------------------
  // strip, lower, prefixes, substrings

  function StripLeft(s: string): (r: string)
    ensures |r| <= |s| && forall x :: x in r ==> x in s
    ensures r == [] || !IsSpace(r[0])
    ensures forall k :: 0 <= k < |s| - |r| ==> IsSpace(s[k])
  {
    if s != [] && IsSpace(s[0]) then StripLeft(s[1..]) else s
  }

  function StripRight(s: string): (r: string)
    ensures |r| <= |s| && forall x :: x in r ==> x in s
    ensures r == [] || (!IsSpace(r[|r| - 1]) && r[0] == s[0])
    ensures forall k :: |r| <= k < |s| ==> IsSpace(s[k])
  {
    if s != [] && IsSpace(s[|s| - 1]) then StripRight(s[..|s| - 1]) else s
  }

  /** lstrip keeps a suffix of the text. Stated apart from StripLeft, as an
      equation between a text and its own slices weighs on every proof that
      sees it. */
  lemma {:induction false} StripLeftSuffix(s: string)
    ensures StripLeft(s) == s[|s| - |StripLeft(s)|..]
  {
    if s != [] && IsSpace(s[0]) {
      StripLeftSuffix(s[1..]);
      assert s[1..][|s| - 1 - |StripLeft(s[1..])|..] == s[|s| - |StripLeft(s[1..])|..];
    }
  }

  /** rstrip keeps a prefix of the text. */
  lemma {:induction false} StripRightPrefix(s: string)
    ensures StripRight(s) == s[..|StripRight(s)|]
  {
    if s != [] && IsSpace(s[|s| - 1]) {
      StripRightPrefix(s[..|s| - 1]);
      assert s[..|s| - 1][..|StripRight(s[..|s| - 1])|] == s[..|StripRight(s[..|s| - 1])|];
    }
  }

  /** Python's str.strip() with no argument (ASCII whitespace): the slice
      of the text left after removing the whitespace at both ends. */
  function Strip(s: string): (r: string)
    ensures |r| <= |s| && forall x :: x in r ==> x in s
    ensures r == [] || (!IsSpace(r[0]) && !IsSpace(r[|r| - 1]))
    ensures exists i :: TrimmedAt(s, r, i)
  {
    var left := StripLeft(s);
    var i := |s| - |left|;
    StripLeftSuffix(s);
    StripRightPrefix(left);
    var r := StripRight(left);
    assert r == s[i..i + |r|] by {
      assert left == s[i..];
      assert r == left[..|r|];
    }
    assert forall k :: i + |r| <= k < |s| ==> IsSpace(s[k]) by {
      forall k | i + |r| <= k < |s|
        ensures IsSpace(s[k])
      {
        assert s[k] == left[k - i];
      }
    }
    assert TrimmedAt(s, r, i);
    r
  }

  /** `r` is the slice of `s` at `i` with only whitespace before and after it. */
  predicate TrimmedAt(s: string, r: string, i: int)
  {
    0 <= i <= |s| - |r| && r == s[i..i + |r|]
    && (forall k :: 0 <= k < i ==> IsSpace(s[k]))
    && (forall k :: i + |r| <= k < |s| ==> IsSpace(s[k]))
  }

  lemma {:induction false} StripUnchanged(s: string)
    requires s == [] || (!IsSpace(s[0]) && !IsSpace(s[|s| - 1]))
    ensures Strip(s) == s
  {
  }

  function LowerChar(c: char): char
  {
    if 'A' <= c <= 'Z' then (c as int + 32) as char else c
  }

  /** Python's str.lower() on ASCII letters. */
  function Lower(s: string): (r: string)
    ensures |r| == |s| && forall i :: 0 <= i < |s| ==> r[i] == LowerChar(s[i])
  {
    if s == [] then [] else [LowerChar(s[0])] + Lower(s[1..])
  }

  predicate StartsWith(s: string, p: string)
  {
    |p| <= |s| && s[..|p|] == p
  }

  /** Python's `p in s` for strings. */
  predicate Contains(p: string, s: string)
    decreases |s|
  {
    StartsWith(s, p) || (s != [] && Contains(p, s[1..]))
  }

  lemma {:induction false} ContainsAt(p: string, s: string, i: nat)
    requires i + |p| <= |s| && s[i..i + |p|] == p
    ensures Contains(p, s)
  {
    if i > 0 {
      assert s[1..][i - 1..i - 1 + |p|] == s[i..i + |p|];
      ContainsAt(p, s[1..], i - 1);
    }
  }

  /** `s.startswith(p)`: p's characters begin s, one by one. */
  lemma StartsWithMeaning(s: string, p: string)
    ensures StartsWith(s, p) <==> |p| <= |s| && forall k :: 0 <= k < |p| ==> s[k] == p[k]
  {
    if |p| <= |s| && forall k :: 0 <= k < |p| ==> s[k] == p[k] {
      assert s[..|p|] == p;
    }
  }

  /** p occurs in s starting at index i. */
  predicate OccursAt(p: string, s: string, i: int)
  {
    0 <= i && i + |p| <= |s| && s[i..i + |p|] == p
  }

  /** `p in s`: p occurs at some position of s. */
  lemma {:induction false} ContainsMeaning(p: string, s: string)
    ensures Contains(p, s) <==> exists i :: OccursAt(p, s, i)
    decreases |s|
  {
    if exists i :: OccursAt(p, s, i) {
      var i :| OccursAt(p, s, i);
      ContainsAt(p, s, i);
    }
    if Contains(p, s) {
      if StartsWith(s, p) {
        assert s[0..0 + |p|] == p;
        assert OccursAt(p, s, 0);
      } else {
        ContainsMeaning(p, s[1..]);
        var i :| OccursAt(p, s[1..], i);
        assert s[i + 1..i + 1 + |p|] == s[1..][i..i + |p|];
        assert OccursAt(p, s, i + 1);
      }
    }
  }

  /** A text lacking one of the characters of p cannot contain p. */
  lemma {:induction false} MissingCharNotContained(p: string, s: string, c: char)
    requires c in p && c !in s
    ensures !Contains(p, s)
    decreases |s|
  {
    if s != [] {
      MissingCharNotContained(p, s[1..], c);
    }
  }

  // ---------------------------------------------------------------------
  // find / rfind

  /** Python's str.find for one character: the first index of c, or -1. */
  function Find(s: string, c: char): (r: int)
    ensures -1 <= r < |s|
    ensures r == -1 <==> c !in s
    ensures r >= 0 ==> s[r] == c && c !in s[..r]
  {
    if s == [] then -1
    else if s[0] == c then 0
    else
      var k := Find(s[1..], c);
      if k == -1 then -1
      else
        assert s[..k + 1] == [s[0]] + s[1..][..k];
        k + 1
  }

  /** Python's str.rfind for one character: the last index of c, or -1. */
  function RFind(s: string, c: char): (r: int)
    ensures -1 <= r < |s|
    ensures r == -1 <==> c !in s
    ensures r >= 0 ==> s[r] == c
    ensures forall j :: r < j < |s| ==> s[j] != c
  {
    if s == [] then -1
    else if s[|s| - 1] == c then |s| - 1
    else
      var init := s[..|s| - 1];
      assert forall j :: 0 <= j < |init| ==> init[j] == s[j];
      assert s == init + [s[|s| - 1]];
      RFind(init, c)
  }

  // ---------------------------------------------------------------------
  // replace

  /** Python's s.replace(c, repl) for a one-character pattern c. */
  function Replace(s: string, c: char, repl: string): (r: string)
    ensures c !in repl ==> c !in r
    ensures forall x :: x in r ==> x in s || x in repl
    ensures c !in s ==> r == s
  {
    if s == [] then []
    else (if s[0] == c then repl else [s[0]]) + Replace(s[1..], c, repl)
  }

  lemma {:induction false} ReplaceConcat(a: string, b: string, c: char, repl: string)
    ensures Replace(a + b, c, repl) == Replace(a, c, repl) + Replace(b, c, repl)
  {
    if a == [] {
      assert a + b == b;
    } else {
      assert (a + b)[0] == a[0];
      assert (a + b)[1..] == a[1..] + b;
      ReplaceConcat(a[1..], b, c, repl);
    }
  }

  // ---------------------------------------------------------------------
  // Python slicing

  /** Normalises a Python slice bound against a length. */
  function SliceBound(i: int, n: nat): (r: nat)
    ensures r <= n
    ensures 0 <= i <= n ==> r == i
    ensures i < 0 && -i <= n ==> r == n + i
  {
    if i < 0 then (if n + i < 0 then 0 else n + i) else if i > n then n else i
  }

  /** Python's s[start:stop]. */
  function Slice<T>(s: seq<T>, start: int, stop: int): (r: seq<T>)
    ensures |r| <= |s|
  {
    var a, b := SliceBound(start, |s|), SliceBound(stop, |s|);
    if a <= b then s[a..b] else []
  }

  /** The slices the core takes: s[start:stop] within bounds, s[start:-k]
      counted from the end, and the empty slice once the normalised start
      is not before the normalised stop. */
  lemma SliceMeaning<T>(s: seq<T>, start: int, stop: int)
    ensures 0 <= start <= stop <= |s| ==> Slice(s, start, stop) == s[start..stop]
    ensures 0 <= start && stop < 0 && start <= |s| + stop ==> Slice(s, start, stop) == s[start..|s| + stop]
    ensures SliceBound(stop, |s|) <= SliceBound(start, |s|) ==> Slice(s, start, stop) == []
  {
  }

  /** Python's s[:k] for k >= 0. */
  function Take<T>(s: seq<T>, k: nat): (r: seq<T>)
    ensures |r| == if k <= |s| then k else |s|
    ensures r == s[..|r|]
  {
    if k <= |s| then s[..k] else s
  }

  // ---------------------------------------------------------------------
  // counting

  /** Python's s.count(p) for a non-empty p: non-overlapping occurrences
      found scanning from the left. */
  function Count(s: string, p: string): (r: nat)
    requires |p| > 0
    ensures r * |p| <= |s|
    decreases |s|
  {
    if |s| < |p| then 0
    else if s[..|p|] == p then 1 + Count(s[|p|..], p)
    else Count(s[1..], p)
  }

  /** len(re.findall(r'\d+', s)) for ASCII digits: the number of maximal
      runs of digits. */
  function DigitRuns(s: string): (r: nat)
    ensures r * 2 <= |s| + 1
    ensures AllDigits(s) && s != [] ==> r == 1
  {
    if s == [] then 0
    else if IsDigit(s[0]) && (|s| == 1 || !IsDigit(s[1])) then 1 + DigitRuns(s[1..])
    else DigitRuns(s[1..])
  }

  /** The length of the first alternative of a regular-expression
      alternation `a1|a2|...` that matches at the start of s. */
  function MatchAlternative(s: string, alternatives: seq<string>): (r: Option<nat>)
    ensures r.Some? ==> r.value in AlternativeLengths(alternatives) && r.value <= |s|
  {
    if alternatives == [] then None
    else if StartsWith(s, alternatives[0]) then Some(|alternatives[0]|)
    else MatchAlternative(s, alternatives[1..])
  }

  function AlternativeLengths(alternatives: seq<string>): set<nat>
  {
    set a | a in alternatives :: |a|
  }

  /** len(re.findall('a1|a2|...', s)) for literal, non-empty alternatives:
      leftmost matches, the first alternative winning at each position,
      scanning resumes after the match. */
  function CountAlternation(s: string, alternatives: seq<string>): (r: nat)
    requires forall a :: a in alternatives ==> |a| > 0
    ensures r <= |s|
    decreases |s|
  {
    if s == [] then 0
    else match MatchAlternative(s, alternatives)
      case Some(k) => 1 + CountAlternation(s[k..], alternatives)
      case None => CountAlternation(s[1..], alternatives)
  }

  // ---------------------------------------------------------------------
  // numbers as text

  function DigitValue(c: char): nat
    requires IsDigit(c)
  {
    c as int - '0' as int
  }

  /** The natural number a string of ASCII digits denotes ("" denotes 0). */
  function DigitsValue(s: string): nat
    requires AllDigits(s)
  {
    if s == [] then 0 else DigitsValue(s[..|s| - 1]) * 10 + DigitValue(s[|s| - 1])
  }

  /** The value of the digits after a decimal point, 0.d1d2...: each digit
      weighs a tenth of the one before it. */
  function FractionValue(s: string): (r: real)
    requires AllDigits(s)
    ensures 0.0 <= r <= 1.0
  {
    if s == [] then 0.0 else (DigitValue(s[0]) as real + FractionValue(s[1..])) / 10.0
  }

  /** str(n) for a natural number. */
  function NatToString(n: nat): (s: string)
    ensures s != [] && AllDigits(s)
    ensures DigitsValue(s) == n
  {
    var last := ['0' + (n % 10) as char];
    assert DigitValue(last[0]) == n % 10;
    if n < 10 then
      assert DigitsValue(last) == DigitsValue([]) * 10 + n % 10;
      last
    else
      var s := NatToString(n / 10) + last;
      assert s[..|s| - 1] == NatToString(n / 10);
      s
  }

  /** The value of an unsigned decimal literal `digits [. digits]` with at
      least one digit, as Decimal() and float() read it on these inputs. */
  function ParseUnsigned(s: string): (r: Option<real>)
    ensures r.Some? ==> r.value >= 0.0
    ensures AllDigits(s) ==> (r.Some? <==> s != [])
  {
    var dot := Find(s, '.');
    if dot == -1 then
      if s != [] && AllDigits(s) then Some(DigitsValue(s) as real) else None
    else
      var whole, fraction := s[..dot], s[dot + 1..];
      if AllDigits(whole) && AllDigits(fraction) && |whole| + |fraction| > 0 then
        Some(DigitsValue(whole) as real + FractionValue(fraction))
      else None
  }

  /** 10 raised to `n`. */
  function Pow10(n: nat): (r: real)
    ensures r >= 1.0
  {
    if n == 0 then 1.0 else 10.0 * Pow10(n - 1)
  }

  /** `m` times 10 raised to `e`, for an exponent of either sign. */
  function Scale(m: real, e: int): (r: real)
    ensures m >= 0.0 ==> r >= 0.0
  {
    if e >= 0 then
      var p := Pow10(e);
      assert m >= 0.0 ==> m * p >= 0.0 * p;
      m * p
    else
      m / Pow10(-e)
  }

  /** The index of the first exponent indicator 'e' or 'E', -1 without one. */
  function ExponentAt(s: string): (r: int)
    ensures -1 <= r < |s|
    ensures r == -1 <==> 'e' !in s && 'E' !in s
    ensures r >= 0 ==> s[r] == 'e' || s[r] == 'E'
  {
    if s == [] then -1
    else if s[0] == 'e' || s[0] == 'E' then 0
    else
      var k := ExponentAt(s[1..]);
      assert s == [s[0]] + s[1..];
      if k == -1 then -1 else k + 1
  }

  /** The exponent after its indicator: an optional sign, then at least one digit. */
  function ParseExponent(s: string): (r: Option<int>)
    ensures r.Some? <==> s != [] && (if s[0] == '-' || s[0] == '+' then s[1..] != [] && AllDigits(s[1..]) else AllDigits(s))
  {
    if s != [] && (s[0] == '-' || s[0] == '+') then
      var d := s[1..];
      if d != [] && AllDigits(d) then
        Some(if s[0] == '-' then -(DigitsValue(d) as int) else DigitsValue(d))
      else None
    else if s != [] && AllDigits(s) then Some(DigitsValue(s))
    else None
  }

  /** An unsigned number with an optional exponent part: a mantissa accepted
      by ParseUnsigned, then 'e' or 'E', an optional sign and digits. */
  function ParseScientific(s: string): (r: Option<real>)
    ensures r.Some? ==> r.value >= 0.0
    ensures 'e' !in s && 'E' !in s ==> r == ParseUnsigned(s)
  {
    var e := ExponentAt(s);
    if e == -1 then ParseUnsigned(s)
    else
      match (ParseUnsigned(s[..e]), ParseExponent(s[e + 1..]))
      case (Some(m), Some(x)) => Some(Scale(m, x))
      case _ => None
  }

  /** Python's float() accepts an underscore only between two digits. */
  predicate UnderscoresBetweenDigits(s: string)
  {
    forall i :: 0 <= i < |s| && s[i] == '_' ==> 0 < i < |s| - 1 && IsDigit(s[i - 1]) && IsDigit(s[i + 1])
  }

  /** A signed decimal literal: an optional '-' or '+' then ParseScientific.
      Signs are the only text before the number; a sign flips the value. */
  function ParseDecimal(s: string): (r: Option<real>)
    ensures s != [] && s[0] == '-' ==> r == (match ParseScientific(s[1..])
                                             case Some(v) => Some(-v)
                                             case None => None)
    ensures s != [] && s[0] == '+' ==> r == ParseScientific(s[1..])
    ensures (s == [] || (s[0] != '-' && s[0] != '+')) ==> r == ParseScientific(s)
  {
    if s != [] && s[0] == '-' then
      match ParseScientific(s[1..])
      case Some(v) => Some(-v)
      case None => None
    else if s != [] && s[0] == '+' then ParseScientific(s[1..])
    else ParseScientific(s)
  }

  /** A digit string reads back as the number it denotes; in particular
      every str(n) parses to n. */
  lemma ParseDigits(d: string)
    requires d != [] && AllDigits(d)
    ensures ParseDecimal(d) == Some(DigitsValue(d) as real)
  {
    assert d[0] != '-' && d[0] != '+' by { assert IsDigit(d[0]); }
    DigitsHaveNoExponent(d);
  }

  lemma DigitsHaveNoExponent(d: string)
    requires AllDigits(d)
    ensures 'e' !in d && 'E' !in d && '_' !in d && '.' !in d
  {
    forall k | 0 <= k < |d|
      ensures d[k] != 'e' && d[k] != 'E' && d[k] != '_' && d[k] != '.'
    {
      assert IsDigit(d[k]);
    }
  }

  lemma DigitChars(d: string)
    requires AllDigits(d)
    ensures forall c :: c in d ==> IsDigit(c)
  {
    forall c | c in d
      ensures IsDigit(c)
    {
      var k :| 0 <= k < |d| && d[k] == c;
    }
  }

  /** Scientific notation: digits, an exponent indicator and digits read as
      the mantissa scaled up by that power of ten, and scaled down when a
      '-' follows the indicator (see ScaleUp and ScaleDown). */
  lemma ParseExponentForm(m: string, ind: char, x: string)
    requires m != [] && AllDigits(m) && x != [] && AllDigits(x)
    requires ind == 'e' || ind == 'E'
    ensures ParseDecimal(m + [ind] + x) == Some(Scale(DigitsValue(m) as real, DigitsValue(x)))
    ensures ParseDecimal(m + [ind, '-'] + x) == Some(Scale(DigitsValue(m) as real, -(DigitsValue(x) as int)))
  {
    ParseExponentDigits(x);
    ParseMantissaExponent(m, ind, x, DigitsValue(x));
    assert m + [ind, '-'] + x == m + [ind] + (['-'] + x);
    ParseMantissaExponent(m, ind, ['-'] + x, -(DigitsValue(x) as int));
  }

  lemma ParseExponentDigits(x: string)
    requires x != [] && AllDigits(x)
    ensures ParseExponent(x) == Some(DigitsValue(x))
    ensures ParseExponent(['-'] + x) == Some(-(DigitsValue(x) as int))
  {
    assert IsDigit(x[0]);
    assert (['-'] + x)[1..] == x;
  }

  /** Scale multiplies by a power of ten for a non-negative exponent ... */
  lemma ScaleUp(v: real, n: nat)
    ensures Scale(v, n) == v * Pow10(n)
  {
  }

  /** ... and divides by one for a negative exponent. */
  lemma ScaleDown(v: real, n: nat)
    ensures Scale(v, -(n as int)) == v / Pow10(n)
  {
    if n == 0 {
      assert Pow10(n) == 1.0;
    }
  }

  /** Digits, an indicator and a well-formed exponent scale the digits. */
  lemma ParseMantissaExponent(m: string, ind: char, x: string, e: int)
    requires m != [] && AllDigits(m) && (ind == 'e' || ind == 'E')
    requires ParseExponent(x) == Some(e)
    ensures ParseDecimal(m + [ind] + x) == Some(Scale(DigitsValue(m) as real, e))
  {
    DigitsHaveNoExponent(m);
    var s := m + [ind] + x;
    assert s == m + ([ind] + x);
    ExponentPrefix(m, [ind] + x);
    assert s[..|m|] == m;
    assert s[|m| + 1..] == x;
    ParseUnsignedDigits(m);
    assert ParseScientific(s) == Some(Scale(DigitsValue(m) as real, e));
    assert s[0] == m[0] && IsDigit(m[0]);
  }

  lemma ParseUnsignedDigits(d: string)
    requires d != [] && AllDigits(d)
    ensures ParseUnsigned(d) == Some(DigitsValue(d) as real)
  {
    DigitsHaveNoExponent(d);
  }

  lemma {:induction false} ExponentPrefix(m: string, rest: string)
    requires 'e' !in m && 'E' !in m && rest != [] && (rest[0] == 'e' || rest[0] == 'E')
    ensures ExponentAt(m + rest) == |m|
    decreases |m|
  {
    if m == [] {
      assert m + rest == rest;
    } else {
      assert (m + rest)[1..] == m[1..] + rest;
      assert m[0] in m;
      assert forall c :: c in m[1..] ==> c in m;
      ExponentPrefix(m[1..], rest);
    }
  }

  lemma ParseNatToString(n: nat)
    ensures ParseDecimal(NatToString(n)) == Some(n as real)
  {
    ParseDigits(NatToString(n));
  }
}
