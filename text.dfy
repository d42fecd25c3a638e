/**
 * Strings as the code base uses them: Python truthiness of optional text,
 * prefix and substring tests, `sep.join(parts)`, decimal digits, and the
 * decimal numbers that `float()` and `int()` read and `str()`/`format` write.
 */
module Text {
  import opened Wrappers

  /** Python truthiness of a possibly-missing string: present and non-empty. */
  predicate Truthy(o: Option<string>)
  {
    o.Some? && o.value != ""
  }

  /** `s.startswith(prefix)` */
  predicate StartsWith(s: string, prefix: string)
  {
    |prefix| <= |s| && s[..|prefix|] == prefix
  }

  /** `sub in s` for strings: `sub` occurs somewhere in `s` (the empty string occurs everywhere). */
  predicate Contains(s: string, sub: string)
    decreases |s|
  {
    StartsWith(s, sub) || (s != [] && Contains(s[1..], sub))
  }

  lemma {:induction false} ContainsAt(s: string, sub: string, i: nat)
    requires i + |sub| <= |s| && s[i..i + |sub|] == sub
    ensures Contains(s, sub)
    decreases i
  {
    if i > 0 {
      assert s[1..][i - 1..i - 1 + |sub|] == s[i..i + |sub|];
      ContainsAt(s[1..], sub, i - 1);
    }
  }

  lemma {:induction false} ContainsWitness(s: string, sub: string) returns (i: nat)
    requires Contains(s, sub)
    ensures i + |sub| <= |s| && s[i..i + |sub|] == sub
    decreases |s|
  {
    if StartsWith(s, sub) {
      i := 0;
    } else {
      var j := ContainsWitness(s[1..], sub);
      assert s[1..][j..j + |sub|] == s[j + 1..j + 1 + |sub|];
      i := j + 1;
    }
  }

  /** `sep.join(parts)` */
  function Join(parts: seq<string>, sep: string): string
  {
    if |parts| == 0 then ""
    else if |parts| == 1 then parts[0]
    else parts[0] + sep + Join(parts[1..], sep)
  }

  /** The texts `f` gives for each element, written one after another. */
  function ConcatMap<T>(xs: seq<T>, f: T -> string): string
  {
    if xs == [] then "" else ConcatMap(xs[..|xs| - 1], f) + f(xs[|xs| - 1])
  }

  /** Writing two sequences one after the other writes the first's texts, then the second's. */
  lemma {:induction false} ConcatMapAppend<T>(a: seq<T>, b: seq<T>, f: T -> string)
    ensures ConcatMap(a + b, f) == ConcatMap(a, f) + ConcatMap(b, f)
    decreases |b|
  {
    if b != [] {
      var b' := b[..|b| - 1];
      assert (a + b)[..|a + b| - 1] == a + b';
      ConcatMapAppend(a, b', f);
    } else {
      assert a + b == a;
    }
  }

  /** The `i`-th element's text sits between the texts of the elements before and after it. */
  lemma ConcatMapAt<T>(xs: seq<T>, i: nat, f: T -> string)
    requires i < |xs|
    ensures ConcatMap(xs, f) == ConcatMap(xs[..i], f) + f(xs[i]) + ConcatMap(xs[i + 1..], f)
  {
    assert ConcatMap(xs[..i + 1], f) == ConcatMap(xs[..i], f) + f(xs[i]) by {
      assert xs[..i + 1][..i] == xs[..i];
    }
    assert xs == xs[..i + 1] + xs[i + 1..];
    ConcatMapAppend(xs[..i + 1], xs[i + 1..], f);
  }

  /** Joining keeps the first part in front and the last part at the end. */
  lemma {:induction false} JoinEnds(parts: seq<string>, sep: string)
    requires |parts| > 0
    ensures StartsWith(Join(parts, sep), parts[0])
    ensures |Join(parts, sep)| >= |parts[|parts| - 1]|
    ensures Join(parts, sep)[|Join(parts, sep)| - |parts[|parts| - 1]|..] == parts[|parts| - 1]
  {
    if |parts| > 1 {
      JoinEnds(parts[1..], sep);
      var rest := Join(parts[1..], sep);
      assert Join(parts, sep) == parts[0] + sep + rest;
      assert (parts[0] + sep + rest)[..|parts[0]|] == parts[0];
    }
  }

  /** A join of non-empty parts is empty exactly when there are no parts. */
  lemma JoinNonEmpty(parts: seq<string>, sep: string)
    requires forall i :: 0 <= i < |parts| ==> parts[i] != ""
    ensures Join(parts, sep) == "" <==> parts == []
  {
    if |parts| > 0 {
      JoinEnds(parts, sep);
    }
  }

  // ---- digits ----

  predicate IsDigit(c: char)
  {
    '0' <= c <= '9'
  }

  /** Every character is an ASCII digit (the empty string qualifies). */
  predicate OnlyDigits(s: string)
  {
    forall i :: 0 <= i < |s| ==> IsDigit(s[i])
  }

  /** `s.isdigit()` restricted to ASCII: non-empty and only the digits 0-9. */
  predicate AllDigits(s: string)
  {
    s != [] && OnlyDigits(s)
  }

  function DigitChar(d: nat): (c: char)
    requires d < 10
    ensures IsDigit(c)
  {
    ('0' as int + d) as char
  }

  /** The value of a string of ASCII digits (0 for the empty string). */
  function DigitsValue(s: string): nat
    requires OnlyDigits(s)
  {
    if s == [] then 0
    else
      assert IsDigit(s[|s| - 1]);
      DigitsValue(s[..|s| - 1]) * 10 + (s[|s| - 1] as int - '0' as int)
  }

  /** `str(n)` for a natural number: its shortest decimal representation. */
  function NatToString(n: nat): (s: string)
    ensures AllDigits(s)
    ensures |s| > 1 ==> s[0] != '0'
  {
    if n < 10 then [DigitChar(n)] else NatToString(n / 10) + [DigitChar(n % 10)]
  }

  /** Reading back what `NatToString` wrote gives the number. */
  lemma {:induction false} NatToStringValue(n: nat)
    ensures DigitsValue(NatToString(n)) == n
  {
    if n >= 10 {
      NatToStringValue(n / 10);
      var s := NatToString(n);
      assert s[..|s| - 1] == NatToString(n / 10);
    }
  }

  lemma {:induction false} NatToStringBound(n: nat, width: nat)
    requires n < Pow10(width)
    ensures |NatToString(n)| <= if width == 0 then 1 else width
  {
    if n >= 10 {
      NatToStringBound(n / 10, width - 1);
    }
  }

  function Pow10(k: nat): (p: nat)
    ensures p >= 1
  {
    if k == 0 then 1 else 10 * Pow10(k - 1)
  }

  function Zeros(k: nat): (s: string)
    ensures |s| == k && forall i :: 0 <= i < k ==> s[i] == '0'
  {
    if k == 0 then "" else Zeros(k - 1) + "0"
  }

  /** Leading zeros do not change the value of a digit string. */
  lemma {:induction false} ZerosPrefixValue(k: nat, s: string)
    requires OnlyDigits(s)
    ensures OnlyDigits(Zeros(k) + s)
    ensures DigitsValue(Zeros(k) + s) == DigitsValue(s)
    decreases |s|, k
  {
    var z := Zeros(k) + s;
    if s == [] {
      if k > 0 {
        assert z[..|z| - 1] == Zeros(k - 1) + s;
        ZerosPrefixValue(k - 1, s);
      }
    } else {
      assert z[..|z| - 1] == Zeros(k) + s[..|s| - 1];
      ZerosPrefixValue(k, s[..|s| - 1]);
    }
  }

  /** `n` written with at least `width` digits, zero-padded on the left (`%0*d`). */
  function PadLeft(n: nat, width: nat): (s: string)
    ensures OnlyDigits(s)
    ensures |s| >= width && s != []
  {
    var digits := NatToString(n);
    if |digits| >= width then digits else Zeros(width - |digits|) + digits
  }

  /** A zero-padded number below `10^width` has exactly `width` digits and reads back as itself. */
  lemma PadLeftValue(n: nat, width: nat)
    requires 0 < width && n < Pow10(width)
    ensures |PadLeft(n, width)| == width
    ensures DigitsValue(PadLeft(n, width)) == n
  {
    NatToStringBound(n, width);
    NatToStringValue(n);
    var digits := NatToString(n);
    if |digits| < width {
      ZerosPrefixValue(width - |digits|, digits);
    }
  }

  /** `str(i)` for an integer. */
  function IntToString(i: int): string
  {
    if i < 0 then "-" + NatToString(-i) else NatToString(i)
  }

  /** `int(s)` for a plain decimal integer with an optional minus sign. */
  function ParseInt(s: string): Option<int>
  {
    if s != [] && s[0] == '-' then
      (if AllDigits(s[1..]) then Some(-(DigitsValue(s[1..]) as int)) else None)
    else if AllDigits(s) then Some(DigitsValue(s) as int)
    else None
  }

  /** Every integer written by `IntToString` reads back as itself. */
  lemma IntToStringRoundTrip(i: int)
    ensures ParseInt(IntToString(i)) == Some(i)
  {
    if i < 0 {
      NatToStringValue(-i);
      assert IntToString(i)[1..] == NatToString(-i);
    } else {
      NatToStringValue(i);
    }
  }

  // ---- decimal numbers ----

  /** The position of the first `c` in `s`. */
  function IndexOf(s: string, c: char): (r: Option<nat>)
    ensures r.Some? ==> r.value < |s| && s[r.value] == c && forall j :: 0 <= j < r.value ==> s[j] != c
    ensures r.None? ==> forall j :: 0 <= j < |s| ==> s[j] != c
  {
    if s == [] then None
    else if s[0] == c then Some(0)
    else match IndexOf(s[1..], c)
      case None => None
      case Some(k) => Some(k + 1)
  }

  /** The first `c` of a text whose prefix `a` holds none is the one right after `a`. */
  lemma {:induction false} IndexOfAfter(a: string, c: char, b: string)
    requires forall j :: 0 <= j < |a| ==> a[j] != c
    ensures IndexOf(a + [c] + b, c) == Some(|a|)
  {
    if a != [] {
      assert (a + [c] + b)[1..] == a[1..] + [c] + b;
      IndexOfAfter(a[1..], c, b);
    }
  }

  /** Digits, a point and digits parse as the whole part plus the fraction shifted by its length. */
  lemma ParsePointed(whole: string, frac: string)
    requires whole != [] && OnlyDigits(whole) && OnlyDigits(frac)
    ensures ParseUnsigned(whole + "." + frac)
            == Some(DigitsValue(whole) as real + Shifted(DigitsValue(frac), |frac|))
  {
    PointAfterDigits(whole, frac);
    AroundPoint(whole, frac);
  }

  /** The first point of digits, a point and more text is the one after the digits. */
  lemma PointAfterDigits(whole: string, frac: string)
    requires OnlyDigits(whole)
    ensures IndexOf(whole + "." + frac, '.') == Some(|whole|)
  {
    forall j | 0 <= j < |whole|
      ensures whole[j] != '.'
    {
      assert IsDigit(whole[j]);
    }
    IndexOfAfter(whole, '.', frac);
  }

  /** The texts on either side of the point. */
  lemma AroundPoint(whole: string, frac: string)
    ensures (whole + "." + frac)[..|whole|] == whole
    ensures (whole + "." + frac)[|whole| + 1..] == frac
  {
    var u := whole + "." + frac;
    assert u[..|whole|] == whole;
    assert u[|whole| + 1..] == frac;
  }

  /** `n` with the decimal point moved `k` places to the left: `n / 10^k`. */
  function Shifted(n: nat, k: nat): (r: real)
    ensures r * Pow10(k) as real == n as real
  {
    if k == 0 then n as real else Shifted(n, k - 1) / 10.0
  }

  /** An unsigned decimal: digits, optionally a point and more digits, with at least one digit. */
  function ParseUnsigned(s: string): Option<real>
  {
    match IndexOf(s, '.')
    case None =>
      if AllDigits(s) then Some(DigitsValue(s) as real) else None
    case Some(k) => PointedValue(s[..k], s[k + 1..])
  }

  /** The value of the digits around a decimal point; at least one side must hold a digit. */
  function PointedValue(whole: string, frac: string): Option<real>
  {
    if (whole != [] || frac != []) && OnlyDigits(whole) && OnlyDigits(frac)
    then Some(DigitsValue(whole) as real + Shifted(DigitsValue(frac), |frac|))
    else None
  }

  /**
   * `float(s)` for plain decimal notation: an optional sign, then an unsigned
   * decimal; anything else is the `ValueError` case, `None`.
   */
  function ParseDecimal(s: string): Option<real>
  {
    if s != [] && s[0] == '-' then
      match ParseUnsigned(s[1..])
      case None => None
      case Some(v) => Some(-v)
    else if s != [] && s[0] == '+' then ParseUnsigned(s[1..])
    else ParseUnsigned(s)
  }

  /** An unsigned number starting with a digit reads the same through `float()`, and negated behind a minus sign. */
  lemma SignedDecimal(u: string, v: real)
    requires u != [] && IsDigit(u[0]) && ParseUnsigned(u) == Some(v)
    ensures ParseDecimal(u) == Some(v)
    ensures ParseDecimal("-" + u) == Some(-v)
  {
    assert ("-" + u)[1..] == u;
  }

  /** A text without any digit is never a number. */
  lemma NoDigitsNotNumber(s: string)
    requires forall i :: 0 <= i < |s| ==> !IsDigit(s[i])
    ensures ParseDecimal(s) == None
  {
    if s != [] && (s[0] == '-' || s[0] == '+') {
      assert forall i :: 0 <= i < |s[1..]| ==> !IsDigit(s[1..][i]);
      UnsignedNeedsDigit(s[1..]);
    } else {
      UnsignedNeedsDigit(s);
    }
  }

  lemma UnsignedNeedsDigit(s: string)
    requires forall i :: 0 <= i < |s| ==> !IsDigit(s[i])
    ensures ParseUnsigned(s) == None
  {
    match IndexOf(s, '.')
    case None =>
    case Some(k) =>
      var whole, frac := s[..k], s[k + 1..];
      if whole != [] {
        assert !IsDigit(whole[0]);
      } else if frac != [] {
        assert !IsDigit(frac[0]);
      }
  }

  /** A natural number's decimal digits read back as that number. */
  lemma NatParsesAsDecimal(n: nat)
    ensures ParseDecimal(NatToString(n)) == Some(n as real)
  {
    var s := NatToString(n);
    NatToStringValue(n);
    assert forall j :: 0 <= j < |s| ==> s[j] != '.';
    assert s[0] != '-' && s[0] != '+';
  }
}
