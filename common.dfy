/**
 * Shared vocabulary for the whole model: an optional value, decimal digit
 * strings (rendering, zero padding and parsing), character-class filters,
 * lower-casing and substring search as the Python and JavaScript code uses them.
 */
module Common {

  datatype Option<T> = None | Some(value: T)

  // ---------------------------------------------------------------------------
  // Digits

  predicate IsDigit(c: char) { '0' <= c <= '9' }

  predicate AllDigits(s: string) { forall i :: 0 <= i < |s| ==> IsDigit(s[i]) }

  function DigitValue(c: char): (d: nat)
    requires IsDigit(c)
    ensures d < 10
  {
    (c as int - '0' as int) as nat
  }

  function DigitChar(d: nat): (c: char)
    requires d < 10
    ensures IsDigit(c) && DigitValue(c) == d
  {
    ('0' as int + d) as char
  }

  /** The value of a string of decimal digits, most significant first. */
  function DigitsValue(s: string): nat
    requires AllDigits(s)
  {
    if |s| == 0 then 0 else DigitsValue(s[..|s| - 1]) * 10 + DigitValue(s[|s| - 1])
  }

  /** The decimal rendering of `n` without leading zeros (`str(n)` in Python). */
  function NatToDecimal(n: nat): (s: string)
    ensures |s| >= 1 && AllDigits(s)
    ensures |s| > 1 ==> s[0] != '0'
  {
    if n < 10 then [DigitChar(n)] else NatToDecimal(n / 10) + [DigitChar(n % 10)]
  }

  /**
   * Python's `int(s)` on a string, restricted to plain decimal digits: a
   * non-empty run of digits parses to its value, anything else is a failure.
   */
  function ParseNat(s: string): (r: Option<nat>)
  {
    if |s| == 0 || !IsDigit(s[|s| - 1]) then None
    else if |s| == 1 then Some(DigitValue(s[0]))
    else match ParseNat(s[..|s| - 1])
         case None => None
         case Some(v) => Some(v * 10 + DigitValue(s[|s| - 1]))
  }

  /** A string parses exactly when it is a non-empty run of digits, and then to their value. */
  lemma {:induction false} ParseNatDigits(s: string)
    ensures ParseNat(s) == if |s| > 0 && AllDigits(s) then Some(DigitsValue(s)) else None
  {
    if |s| > 1 {
      var init := s[..|s| - 1];
      ParseNatDigits(init);
      assert AllDigits(s) <==> AllDigits(init) && IsDigit(s[|s| - 1]) by {
        assert forall i :: 0 <= i < |init| ==> init[i] == s[i];
      }
    } else if |s| == 1 {
      assert s[..0] == "";
    }
  }

  function Zeros(k: nat): (z: string)
    ensures |z| == k && forall i :: 0 <= i < k ==> z[i] == '0'
  {
    if k == 0 then "" else Zeros(k - 1) + "0"
  }

  /** Left-pads with zeros to at least `width` characters, as the `:0Nd` format does. */
  function ZeroPad(s: string, width: nat): (r: string)
    ensures |r| == if |s| >= width then |s| else width
  {
    if |s| >= width then s else Zeros(width - |s|) + s
  }

  lemma {:induction false} DecimalRoundTrip(n: nat)
    ensures DigitsValue(NatToDecimal(n)) == n
  {
    if n >= 10 {
      var s := NatToDecimal(n);
      assert s[..|s| - 1] == NatToDecimal(n / 10);
      DecimalRoundTrip(n / 10);
    }
  }

  lemma {:induction false} LeadingZerosValue(z: string, s: string)
    requires forall i :: 0 <= i < |z| ==> z[i] == '0'
    requires AllDigits(s)
    ensures AllDigits(z + s)
    ensures DigitsValue(z + s) == DigitsValue(s)
    decreases |s|, |z|
  {
    assert AllDigits(z + s) by {
      forall i | 0 <= i < |z + s| ensures IsDigit((z + s)[i]) {
        if i < |z| { assert (z + s)[i] == z[i]; } else { assert (z + s)[i] == s[i - |z|]; }
      }
    }
    if |s| == 0 {
      if |z| > 0 {
        assert (z + s)[..|z + s| - 1] == z[..|z| - 1] + "";
        LeadingZerosValue(z[..|z| - 1], "");
        assert z + s == z;
      }
    } else {
      assert (z + s)[..|z + s| - 1] == z + s[..|s| - 1];
      LeadingZerosValue(z, s[..|s| - 1]);
    }
  }

  /** Parsing a zero-padded rendering gives back the number. */
  lemma PaddedDecimalRoundTrip(n: nat, width: nat)
    ensures ParseNat(ZeroPad(NatToDecimal(n), width)) == Some(n)
  {
    var s := NatToDecimal(n);
    DecimalRoundTrip(n);
    ParseNatDigits(ZeroPad(s, width));
    if |s| < width {
      LeadingZerosValue(Zeros(width - |s|), s);
    }
  }

  // ---------------------------------------------------------------------------
  // Python's `int()` on text

  /**
   * Python's `str.isspace()`, the whitespace `int()` and `Decimal` strip
   * around the text of a number: the ASCII spaces and controls 9-13 and
   * 28-31, next line, no-break space, and the Unicode space separators.
   */
  predicate IsSpace(c: char)
  {
    c == ' ' || '\t' <= c <= '\r' || '\U{001C}' <= c <= '\U{001F}' || c == '\U{0085}' || c == '\U{00A0}' ||
    c == '\U{1680}' || '\U{2000}' <= c <= '\U{200A}' || c == '\U{2028}' || c == '\U{2029}' ||
    c == '\U{202F}' || c == '\U{205F}' || c == '\U{3000}'
  }

  /** `s.strip()` for that whitespace. */
  function Strip(s: string): (r: string)
    ensures |r| <= |s|
    ensures |r| > 0 ==> !IsSpace(r[0]) && !IsSpace(r[|r| - 1])
  {
    if |s| > 0 && IsSpace(s[0]) then Strip(s[1..])
    else if |s| > 0 && IsSpace(s[|s| - 1]) then Strip(s[..|s| - 1])
    else s
  }

  /** Stripping removes exactly the whitespace padding around a text that neither starts nor ends with it. */
  lemma {:induction false} StripPadding(a: string, t: string, b: string)
    requires forall i :: 0 <= i < |a| ==> IsSpace(a[i])
    requires forall i :: 0 <= i < |b| ==> IsSpace(b[i])
    requires |t| > 0 && !IsSpace(t[0]) && !IsSpace(t[|t| - 1])
    ensures Strip(a + t + b) == t
    decreases |a| + |b|
  {
    var s := a + t + b;
    if |a| > 0 {
      assert s[0] == a[0];
      assert s[1..] == a[1..] + t + b;
      StripPadding(a[1..], t, b);
    } else if |b| > 0 {
      assert s[0] == t[0] && s[|s| - 1] == b[|b| - 1];
      assert s[..|s| - 1] == a + t + b[..|b| - 1];
      StripPadding(a, t, b[..|b| - 1]);
    } else {
      assert s == t;
    }
  }

  /** A character that is not whitespace survives stripping. */
  lemma {:induction false} StripKeeps(s: string, i: nat)
    requires i < |s| && !IsSpace(s[i])
    ensures exists m :: 0 <= m < |Strip(s)| && Strip(s)[m] == s[i]
  {
    if IsSpace(s[0]) {
      StripKeeps(s[1..], i - 1);
      assert s[1..][i - 1] == s[i] && Strip(s) == Strip(s[1..]);
    } else if IsSpace(s[|s| - 1]) {
      StripKeeps(s[..|s| - 1], i);
      assert s[..|s| - 1][i] == s[i] && Strip(s) == Strip(s[..|s| - 1]);
    } else {
      assert Strip(s)[i] == s[i];
    }
  }

  /**
   * Python's `int(s)` on text: surrounding whitespace is ignored, an optional
   * `+` or `-` sign comes first, then a non-empty run of decimal digits;
   * anything else raises `ValueError`, here `None`.
   */
  function PyInt(s: string): (r: Option<int>)
  {
    var t := Strip(s);
    if |t| > 0 && (t[0] == '+' || t[0] == '-') then
      match ParseNat(t[1..])
      case None => None
      case Some(v) => var n: int := v; Some(if t[0] == '-' then -n else n)
    else
      match ParseNat(t)
      case None => None
      case Some(v) => Some(v)
  }

  /** Text that strips to a run of digits reads as their value. */
  lemma PyIntDigits(s: string)
    requires |Strip(s)| > 0 && AllDigits(Strip(s))
    ensures PyInt(s) == Some(DigitsValue(Strip(s)) as int)
  {
    ParseNatDigits(Strip(s));
  }

  /** Whitespace around a run of digits does not change the number read. */
  lemma PyIntPadded(a: string, t: string, b: string)
    requires forall i :: 0 <= i < |a| ==> IsSpace(a[i])
    requires forall i :: 0 <= i < |b| ==> IsSpace(b[i])
    requires |t| > 0 && AllDigits(t)
    ensures PyInt(a + t + b) == Some(DigitsValue(t) as int)
  {
    assert IsDigit(t[0]) && IsDigit(t[|t| - 1]);
    StripPadding(a, t, b);
    PyIntDigits(a + t + b);
  }

  /** Whitespace around the digits and leading zeros do not change the number read. */
  lemma PyIntNumeral(a: string, z: string, n: nat, b: string)
    requires forall i :: 0 <= i < |a| ==> IsSpace(a[i])
    requires forall i :: 0 <= i < |b| ==> IsSpace(b[i])
    requires forall i :: 0 <= i < |z| ==> z[i] == '0'
    ensures PyInt(a + z + NatToDecimal(n) + b) == Some(n)
  {
    var d := NatToDecimal(n);
    LeadingZerosValue(z, d);
    DecimalRoundTrip(n);
    assert a + z + d + b == a + (z + d) + b;
    PyIntPadded(a, z + d, b);
  }

  /** A character that is neither a digit, whitespace nor a sign makes `int()` fail. */
  lemma PyIntRejects(s: string, i: nat)
    requires i < |s| && !IsDigit(s[i]) && !IsSpace(s[i]) && s[i] != '+' && s[i] != '-'
    ensures PyInt(s) == None
  {
    StripKeeps(s, i);
    var t := Strip(s);
    var m :| 0 <= m < |t| && t[m] == s[i];
    ParseNatDigits(t);
    if |t| > 0 && (t[0] == '+' || t[0] == '-') {
      assert m > 0 && t[1..][m - 1] == t[m];
      ParseNatDigits(t[1..]);
    }
  }

  // ---------------------------------------------------------------------------
  // Character-class filters

  /** `s.replace(/\D/g, '')`: the digits of `s`, in order. */
  function DigitsOnly(s: string): (r: string)
    ensures AllDigits(r) && |r| <= |s|
  {
    if |s| == 0 then ""
    else if IsDigit(s[0]) then [s[0]] + DigitsOnly(s[1..])
    else DigitsOnly(s[1..])
  }

  lemma {:induction false} DigitsOnlyOfDigits(s: string)
    requires AllDigits(s)
    ensures DigitsOnly(s) == s
  {
    if |s| > 0 { DigitsOnlyOfDigits(s[1..]); }
  }

  lemma {:induction false} DigitsOnlyAppend(a: string, b: string)
    ensures DigitsOnly(a + b) == DigitsOnly(a) + DigitsOnly(b)
  {
    if |a| > 0 {
      assert (a + b)[1..] == a[1..] + b;
      DigitsOnlyAppend(a[1..], b);
    } else {
      assert a + b == b;
    }
  }

  predicate IsUpperAscii(c: char) { 'A' <= c <= 'Z' }
  predicate IsAsciiLetterOrDigit(c: char) { 'A' <= c <= 'Z' || 'a' <= c <= 'z' || IsDigit(c) }

  // ---------------------------------------------------------------------------
  // Lower-casing and substring search

  /**
   * Lower-cases ASCII capitals and the Azerbaijani capitals Ə, Ö, Ü, Ç, Ş, Ğ;
   * every other character is left as it is.
   */
  function LowerChar(c: char): (l: char)
    ensures !IsUpperAscii(l)
  {
    if IsUpperAscii(c) then (c as int + 32) as char
    else if c == 'Ə' then 'ə'
    else if c == 'Ö' then 'ö'
    else if c == 'Ü' then 'ü'
    else if c == 'Ç' then 'ç'
    else if c == 'Ş' then 'ş'
    else if c == 'Ğ' then 'ğ'
    else c
  }

  function Lower(s: string): (r: string)
    ensures |r| == |s| && forall i :: 0 <= i < |s| ==> r[i] == LowerChar(s[i])
  {
    if |s| == 0 then "" else [LowerChar(s[0])] + Lower(s[1..])
  }

  /** Lower-casing twice is lower-casing once. */
  lemma LowerIdempotent(s: string)
    ensures Lower(Lower(s)) == Lower(s)
  {
  }

  predicate StartsWith(s: string, p: string) { |p| <= |s| && s[..|p|] == p }

  /** `sub` occurs in `s` starting at position `i`. */
  predicate OccursAt(s: string, sub: string, i: int)
  {
    0 <= i <= |s| - |sub| && s[i..i + |sub|] == sub
  }

  /** `s.includes(sub)` / `sub in s`: `sub` occurs in `s` at some position. */
  predicate Contains(s: string, sub: string)
  {
    exists i | 0 <= i <= |s| - |sub| :: OccursAt(s, sub, i)
  }

  /** `s.toLowerCase().includes(term.toLowerCase())`: a case-insensitive search. */
  predicate IncludesIgnoringCase(s: string, term: string)
  {
    Contains(Lower(s), Lower(term))
  }

  /** The empty term occurs in every string. */
  lemma ContainsEmpty(s: string)
    ensures Contains(s, "")
  {
    assert OccursAt(s, "", 0);
  }

  lemma ContainsSelfPrefix(s: string, p: string)
    requires StartsWith(s, p)
    ensures Contains(s, p)
  {
    assert OccursAt(s, p, 0);
  }

  lemma ContainsInfix(a: string, sub: string, b: string)
    ensures Contains(a + sub + b, sub)
  {
    var s := a + sub + b;
    assert s[|a|..|a| + |sub|] == sub;
    assert OccursAt(s, sub, |a|);
  }

  // ---------------------------------------------------------------------------
  // Filtering (a queryset `.filter(...)` or a JavaScript `.filter`)

  /** The elements of `s` satisfying `p`, in their original order. */
  function Filter<T(!new)>(s: seq<T>, p: T -> bool): (r: seq<T>)
    ensures forall x :: x in r <==> x in s && p(x)
    ensures |r| <= |s|
  {
    if |s| == 0 then []
    else if p(s[0]) then [s[0]] + Filter(s[1..], p)
    else Filter(s[1..], p)
  }

  /** A weaker condition never selects fewer elements. */
  lemma {:induction false} FilterMonotone<T(!new)>(s: seq<T>, p: T -> bool, q: T -> bool)
    requires forall x :: x in s && p(x) ==> q(x)
    ensures |Filter(s, p)| <= |Filter(s, q)|
  {
    if |s| > 0 {
      assert forall x :: x in s[1..] ==> x in s;
      FilterMonotone(s[1..], p, q);
    }
  }

  /** Filtering by a condition that holds of nothing in `s` leaves nothing. */
  lemma {:induction false} FilterNone<T(!new)>(s: seq<T>, p: T -> bool)
    requires forall x :: x in s ==> !p(x)
    ensures Filter(s, p) == []
  {
    if |s| > 0 {
      assert forall x :: x in s[1..] ==> x in s;
      FilterNone(s[1..], p);
    }
  }

  /** Filtering distributes over concatenation. */
  lemma {:induction false} FilterAppend<T(!new)>(a: seq<T>, b: seq<T>, p: T -> bool)
    ensures Filter(a + b, p) == Filter(a, p) + Filter(b, p)
  {
    if |a| == 0 {
      assert a + b == b;
    } else {
      assert (a + b)[1..] == a[1..] + b;
      FilterAppend(a[1..], b, p);
    }
  }

  /** Two conditions that agree on every element of `s` select the same elements. */
  lemma {:induction false} FilterSame<T(!new)>(s: seq<T>, p: T -> bool, q: T -> bool)
    requires forall x :: x in s ==> p(x) == q(x)
    ensures Filter(s, p) == Filter(s, q)
  {
    if |s| > 0 {
      assert forall x :: x in s[1..] ==> x in s;
      FilterSame(s[1..], p, q);
    }
  }

  /** Filtering a sequence extended by one element. */
  lemma FilterSnoc<T(!new)>(a: seq<T>, x: T, p: T -> bool)
    ensures Filter(a + [x], p) == if p(x) then Filter(a, p) + [x] else Filter(a, p)
  {
    FilterAppend(a, [x], p);
    assert [x][1..] == [];
    if !p(x) {
      assert Filter(a, p) + [] == Filter(a, p);
    }
  }
}
