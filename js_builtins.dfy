/**
 * The pieces of the JavaScript runtime that the quote service and the
 * widgets rely on: String.prototype.toLowerCase, String.prototype.includes,
 * Array.prototype.filter, parseFloat and Math.round.  Strings are sequences
 * of characters; numbers are exact integers and reals.
 */
module JsBuiltins {

  datatype Option<+T> = None | Some(value: T)

  // ---------------------------------------------------------------------
  // String.prototype.toLowerCase
  // ---------------------------------------------------------------------

  /** LATIN CAPITAL LETTER I WITH DOT ABOVE: the one character whose lower-case form is two characters long. */
  const DottedCapitalI: char := '\U{0130}'
  const CombiningDotAbove: char := '\U{0307}'

  predicate IsAsciiUpper(c: char) { 'A' <= c <= 'Z' }

  /** The ASCII case fold of one character: A-Z become a-z, every other character is kept. */
  function AsciiFold(c: char): char
  {
    if IsAsciiUpper(c) then (c as int + 32) as char else c
  }

  function LowerChar(c: char): seq<char>
  {
    if IsAsciiUpper(c) then [AsciiFold(c)]
    else if c == DottedCapitalI then ['i', CombiningDotAbove]
    else [c]
  }

  /** toLowerCase: each character is replaced by its lower-case form. */
  function LowerCase(s: string): string
  {
    if s == [] then [] else LowerChar(s[0]) + LowerCase(s[1..])
  }

  /** Lower-casing keeps the length, except that each dotted capital I adds one character. */
  lemma {:induction false} LowerCaseLength(s: string)
    ensures |LowerCase(s)| == |s| + multiset(s)[DottedCapitalI]
  {
    if s != [] {
      assert s == [s[0]] + s[1..];
      LowerCaseLength(s[1..]);
    }
  }

  lemma {:induction false} LowerCaseAppend(a: string, b: string)
    ensures LowerCase(a + b) == LowerCase(a) + LowerCase(b)
  {
    if a == [] {
      assert a + b == b;
    } else {
      assert (a + b)[0] == a[0];
      assert (a + b)[1..] == a[1..] + b;
      LowerCaseAppend(a[1..], b);
    }
  }

  /** The lower-case form of one character is already lower case. */
  lemma LowerCharIsLower(c: char)
    ensures LowerCase(LowerChar(c)) == LowerChar(c)
  {
    var l := LowerChar(c);
    if c == DottedCapitalI {
      assert l[1..][1..] == [];
      assert LowerCase(l[1..]) == [CombiningDotAbove];
    } else {
      assert l[1..] == [];
    }
  }

  /** Lower-casing twice is lower-casing once. */
  lemma {:induction false} LowerCaseIdempotent(s: string)
    ensures LowerCase(LowerCase(s)) == LowerCase(s)
  {
    if s != [] {
      LowerCaseAppend(LowerChar(s[0]), LowerCase(s[1..]));
      LowerCharIsLower(s[0]);
      LowerCaseIdempotent(s[1..]);
    }
  }

  /** Lower-cased text holds no ASCII capital letter. */
  lemma {:induction false} LowerCaseNoAsciiCapitals(s: string)
    ensures forall k :: 0 <= k < |LowerCase(s)| ==> !IsAsciiUpper(LowerCase(s)[k])
  {
    if s != [] {
      LowerCaseNoAsciiCapitals(s[1..]);
      var head, rest := LowerChar(s[0]), LowerCase(s[1..]);
      forall k | 0 <= k < |head + rest|
        ensures !IsAsciiUpper((head + rest)[k])
      {
        if k >= |head| {
          assert (head + rest)[k] == rest[k - |head|];
        }
      }
    }
  }

  /** Two strings that differ only in the case of ASCII letters. */
  ghost predicate SameUpToAsciiCase(a: string, b: string)
  {
    |a| == |b| && forall i :: 0 <= i < |a| ==> AsciiFold(a[i]) == AsciiFold(b[i])
  }

  /** Strings that differ only in the case of ASCII letters have the same lower-case form. */
  lemma {:induction false} LowerCaseIgnoresAsciiCase(a: string, b: string)
    requires SameUpToAsciiCase(a, b)
    ensures LowerCase(a) == LowerCase(b)
  {
    if a != [] {
      assert AsciiFold(a[0]) == AsciiFold(b[0]);
      assert LowerChar(a[0]) == LowerChar(b[0]);
      assert SameUpToAsciiCase(a[1..], b[1..]) by {
        forall i | 0 <= i < |a| - 1
          ensures AsciiFold(a[1..][i]) == AsciiFold(b[1..][i])
        {
          assert AsciiFold(a[i + 1]) == AsciiFold(b[i + 1]);
        }
      }
      LowerCaseIgnoresAsciiCase(a[1..], b[1..]);
    }
  }

  /** The ASCII capital of a lower-case ASCII letter; any other character is its own. */
  function AsciiCapital(c: char): (r: char)
    ensures 'a' <= c <= 'z' ==> IsAsciiUpper(r) && AsciiFold(r) == c
  {
    if 'a' <= c <= 'z' then (c as int - 32) as char else c
  }

  /** A character is its own fold or the capital of it. */
  lemma FoldedFrom(x: char)
    ensures x == AsciiFold(x) || x == AsciiCapital(AsciiFold(x))
  {
  }

  /** Some character of `s` folds to `c`. */
  predicate Mentions(s: string, c: char)
  {
    exists x :: x in s && AsciiFold(x) == c
  }

  /** Without a dotted capital I, lower-casing folds each character in place. */
  lemma {:induction false} LowerCaseAt(s: string, k: int)
    requires DottedCapitalI !in s && 0 <= k < |s|
    ensures |LowerCase(s)| == |s| && LowerCase(s)[k] == AsciiFold(s[k])
  {
    if k > 0 {
      assert DottedCapitalI !in s[1..] by {
        assert forall x :: x in s[1..] ==> x in s;
      }
      LowerCaseAt(s[1..], k - 1);
    } else if |s| > 1 {
      LowerCaseAt(s[1..], 0);
    }
  }

  /** Every character of the lower-case form, other than the two a dotted capital I becomes, is the fold of a character of the string. */
  lemma {:induction false} LowerCaseMentions(s: string, c: char)
    requires c in LowerCase(s) && c != 'i' && c != CombiningDotAbove
    ensures Mentions(s, c)
  {
    assert LowerCase(s) == LowerChar(s[0]) + LowerCase(s[1..]);
    if c in LowerChar(s[0]) {
      assert AsciiFold(s[0]) == c;
    } else {
      LowerCaseMentions(s[1..], c);
      var x :| x in s[1..] && AsciiFold(x) == c;
      assert x in s;
    }
  }

  // ---------------------------------------------------------------------
  // String.prototype.includes
  // ---------------------------------------------------------------------

  predicate StartsWith(s: string, prefix: string)
  {
    |prefix| <= |s| && s[..|prefix|] == prefix
  }

  /** includes: does `needle` occur in `s` starting at some position? */
  predicate Includes(s: string, needle: string)
  {
    StartsWith(s, needle) || (s != [] && Includes(s[1..], needle))
  }

  /** Includes holds exactly when the needle starts at some index of `s`. */
  lemma {:induction false} IncludesAt(s: string, needle: string)
    ensures Includes(s, needle) <==> exists i :: 0 <= i <= |s| && StartsWith(s[i..], needle)
  {
    if Includes(s, needle) {
      if StartsWith(s, needle) {
        assert s[0..] == s;
      } else {
        IncludesAt(s[1..], needle);
        var j :| 0 <= j <= |s| - 1 && StartsWith(s[1..][j..], needle);
        assert s[1..][j..] == s[j + 1..];
      }
    }
    if exists i :: 0 <= i <= |s| && StartsWith(s[i..], needle) {
      var i :| 0 <= i <= |s| && StartsWith(s[i..], needle);
      if i == 0 {
        assert s[0..] == s;
      } else {
        assert s[1..][i - 1..] == s[i..];
        IncludesAt(s[1..], needle);
      }
    }
  }

  /** Every character of an included string occurs in the text. */
  lemma {:induction false} IncludesCharacters(s: string, needle: string, k: int)
    requires Includes(s, needle) && 0 <= k < |needle|
    ensures needle[k] in s
  {
    if StartsWith(s, needle) {
      assert s[..|needle|][k] == s[k];
    } else {
      IncludesCharacters(s[1..], needle, k);
    }
  }

  // ---------------------------------------------------------------------
  // Array.prototype.filter
  // ---------------------------------------------------------------------

  /** `a` is obtained from `b` by deleting elements, keeping the order of the rest. */
  predicate IsSubsequence<T(==)>(a: seq<T>, b: seq<T>)
  {
    a == [] || (b != [] && ((a[0] == b[0] && IsSubsequence(a[1..], b[1..])) || IsSubsequence(a, b[1..])))
  }

  /** filter: the elements of `s` that satisfy `keep`, in their original order and multiplicity. */
  function Filter<T(==,!new)>(s: seq<T>, keep: T -> bool): (r: seq<T>)
    ensures forall x :: x in r <==> x in s && keep(x)
    ensures forall x :: multiset(r)[x] == if keep(x) then multiset(s)[x] else 0
    ensures IsSubsequence(r, s)
  {
    if s == [] then []
    else
      assert s == [s[0]] + s[1..];
      var rest := Filter(s[1..], keep);
      if keep(s[0]) then
        assert ([s[0]] + rest)[1..] == rest;
        [s[0]] + rest
      else
        rest
  }

  // ---------------------------------------------------------------------
  // parseFloat
  // ---------------------------------------------------------------------

  predicate IsDigit(c: char) { '0' <= c <= '9' }

  predicate AllDigits(s: string) { forall i :: 0 <= i < |s| ==> IsDigit(s[i]) }

  /** The white space and line terminators that parseFloat skips before the number. */
  predicate IsWhiteSpace(c: char)
  {
    c == '\t' || c == '\n' || c == '\U{000B}' || c == '\U{000C}' || c == '\r' || c == ' '
    || c == '\U{00A0}' || c == '\U{1680}' || ('\U{2000}' <= c <= '\U{200A}')
    || c == '\U{2028}' || c == '\U{2029}' || c == '\U{202F}' || c == '\U{205F}'
    || c == '\U{3000}' || c == '\U{FEFF}'
  }

  function TrimStart(s: string): (r: string)
    ensures |r| <= |s| && r == s[|s| - |r|..]
    ensures r == [] || !IsWhiteSpace(r[0])
  {
    if s != [] && IsWhiteSpace(s[0]) then TrimStart(s[1..]) else s
  }

  /** The length of the run of digits at the start of `s`. */
  function DigitRun(s: string): (n: nat)
    ensures n <= |s| && AllDigits(s[..n])
    ensures n < |s| ==> !IsDigit(s[n])
  {
    if s != [] && IsDigit(s[0]) then
      var n := 1 + DigitRun(s[1..]);
      assert forall i :: 1 <= i < n ==> s[..n][i] == s[1..][..n - 1][i - 1];
      n
    else 0
  }

  function Pow10(n: nat): (r: nat)
    ensures r >= 1
  {
    if n == 0 then 1 else 10 * Pow10(n - 1)
  }

  /** The value of a run of decimal digits, read most significant first. */
  function DigitsValue(d: string): nat
    requires AllDigits(d)
  {
    if d == [] then 0
    else DigitsValue(d[..|d| - 1]) * 10 + (d[|d| - 1] as int - '0' as int)
  }

  /** A run of n digits is worth less than ten to the n. */
  lemma {:induction false} DigitsValueBelow(d: string)
    requires AllDigits(d)
    ensures DigitsValue(d) < Pow10(|d|)
  {
    if d != [] {
      DigitsValueBelow(d[..|d| - 1]);
    }
  }

  /** A natural number over a larger one is a proper fraction. */
  lemma ProperRatio(a: nat, b: nat)
    requires a < b
    ensures 0.0 <= a as real / b as real < 1.0
  {
  }

  /** The value of the digits after a decimal point: their integer value over ten to their count, a proper fraction. */
  function FractionValue(f: string): (r: real)
    requires AllDigits(f)
    ensures 0.0 <= r < 1.0
  {
    DigitsValueBelow(f);
    ProperRatio(DigitsValue(f), Pow10(|f|));
    DigitsValue(f) as real / Pow10(|f|) as real
  }

  /**
   * parseFloat on the decimal numbers it accepts: leading white space, an
   * optional sign, digits, and an optional '.' followed by digits.  Anything
   * after the number is ignored; with no digit at all the result is NaN
   * (None here).
   */
  function ParseFloat(s: string): Option<real>
  {
    SignedDecimal(TrimStart(s))
  }

  /** The number at the start of `t`, after an optional sign. */
  function SignedDecimal(t: string): Option<real>
  {
    if t != [] && (t[0] == '-' || t[0] == '+') then
      match UnsignedDecimal(t[1..])
      case None => None
      case Some(m) => Some(if t[0] == '-' then -m else m)
    else
      UnsignedDecimal(t)
  }

  /** The unsigned number at the start of `u`, if it has a digit before or after its '.'. */
  function UnsignedDecimal(u: string): Option<real>
  {
    Decimal(u[..DigitRun(u)], FractionDigits(u[DigitRun(u)..]))
  }

  /** The digits after a '.' at the start of `rest`; none without the '.'. */
  function FractionDigits(rest: string): (f: string)
    ensures AllDigits(f)
  {
    if rest != [] && rest[0] == '.' then rest[1..][..DigitRun(rest[1..])] else []
  }

  /** The number with the given whole and fractional digits; there must be a digit on one side of the point. */
  function Decimal(whole: string, fraction: string): Option<real>
    requires AllDigits(whole) && AllDigits(fraction)
  {
    if whole == [] && fraction == [] then None
    else Some(DigitsValue(whole) as real + FractionValue(fraction))
  }

  /** The decimal numeral of a natural number, without leading zeros. */
  function DecimalString(n: nat): (s: string)
    ensures s != [] && AllDigits(s)
  {
    var last := [(n % 10 + '0' as int) as char];
    if n < 10 then last else DecimalString(n / 10) + last
  }

  lemma {:induction false} DecimalStringValue(n: nat)
    ensures DigitsValue(DecimalString(n)) == n
  {
    var s := DecimalString(n);
    if n >= 10 {
      DecimalStringValue(n / 10);
      assert s[..|s| - 1] == DecimalString(n / 10);
    }
  }

  lemma {:induction false} DigitRunOfDigits(s: string)
    requires AllDigits(s)
    ensures DigitRun(s) == |s|
  {
    if s != [] {
      DigitRunOfDigits(s[1..]);
    }
  }

  /** parseFloat reads back every decimal numeral as its value. */
  lemma UnsignedDecimalDigits(s: string)
    requires s != [] && AllDigits(s)
    ensures UnsignedDecimal(s).Some? && UnsignedDecimal(s).value == DigitsValue(s) as real
  {
    DigitRunOfDigits(s);
    assert s[..|s|] == s;
    assert s[|s|..] == [];
  }

  /** A run of digits alone reads back as its value. */
  lemma ParseFloatDigits(s: string)
    requires s != [] && AllDigits(s)
    ensures ParseFloat(s).Some? && ParseFloat(s).value == DigitsValue(s) as real
  {
    ParseFloatUnsigned(s);
    UnsignedDecimalDigits(s);
  }

  lemma ParseFloatDecimal(n: nat)
    ensures ParseFloat(DecimalString(n)) == Some(n as real)
  {
    ParseFloatDigits(DecimalString(n));
    DecimalStringValue(n);
  }

  /** A digit run stops at the first character that is not a digit. */
  lemma {:induction false} DigitRunStops(d: string, t: string)
    requires AllDigits(d) && (t == [] || !IsDigit(t[0]))
    ensures DigitRun(d + t) == |d|
  {
    if d != [] {
      assert (d + t)[1..] == d[1..] + t;
      DigitRunStops(d[1..], t);
    } else {
      assert d + t == t;
    }
  }

  /** Digits, a '.', more digits and then anything but a digit: the two runs are the whole and fractional parts. */
  lemma DecimalParts(d: string, f: string, t: string)
    requires AllDigits(d) && AllDigits(f)
    requires t == [] || !IsDigit(t[0])
    ensures UnsignedDecimal(d + "." + f + t) == Decimal(d, f)
  {
    var rest := "." + f + t;
    var u := d + rest;
    assert d + "." + f + t == u;
    assert u[..DigitRun(u)] == d && u[DigitRun(u)..] == rest by {
      DigitRunStops(d, rest);
    }
    assert FractionDigits(rest) == f by {
      assert rest[1..] == f + t;
      DigitRunStops(f, t);
      assert (f + t)[..|f|] == f;
    }
  }

  /** With a digit on either side of the point, the number is the whole part plus the fraction. */
  lemma DecimalValue(d: string, f: string)
    requires AllDigits(d) && AllDigits(f) && d + f != []
    ensures Decimal(d, f) == Some(DigitsValue(d) as real + FractionValue(f))
  {
    assert !(d == [] && f == []);
  }

  /** Digits, a '.', more digits and then anything but a digit: the number the two runs spell. */
  lemma UnsignedDecimalFraction(d: string, f: string, t: string)
    requires AllDigits(d) && AllDigits(f) && d + f != []
    requires t == [] || !IsDigit(t[0])
    ensures UnsignedDecimal(d + "." + f + t).Some?
    ensures UnsignedDecimal(d + "." + f + t).value == DigitsValue(d) as real + FractionValue(f)
  {
    DecimalParts(d, f, t);
    DecimalValue(d, f);
  }

  /** Trimming keeps text that starts with a digit. */
  lemma TrimStartKeepsDigit(u: string)
    requires u != [] && IsDigit(u[0])
    ensures TrimStart(u) == u
  {
  }

  /** Text starting with a digit carries no sign. */
  lemma SignedDecimalOfDigit(u: string)
    requires u != [] && IsDigit(u[0])
    ensures SignedDecimal(u) == UnsignedDecimal(u)
  {
  }

  /** Text starting with a digit is read as an unsigned number. */
  lemma ParseFloatUnsigned(u: string)
    requires u != [] && IsDigit(u[0])
    ensures ParseFloat(u) == UnsignedDecimal(u)
  {
    TrimStartKeepsDigit(u);
    SignedDecimalOfDigit(u);
  }

  /** A leading '-' negates the number that follows it. */
  lemma ParseFloatNegated(s: string, u: string)
    requires s == "-" + u && UnsignedDecimal(u).Some?
    ensures ParseFloat(s).Some? && ParseFloat(s).value == -UnsignedDecimal(u).value
  {
    assert TrimStart(s) == s;
    assert s[1..] == u;
  }

  /** Digits, a '.' and more digits read back as the whole part plus the fraction, whatever text follows. */
  lemma ParseFloatDigitsFraction(s: string, d: string, f: string, t: string)
    requires s == d + "." + f + t
    requires d != [] && AllDigits(d)
    requires AllDigits(f) && (t == [] || !IsDigit(t[0]))
    ensures ParseFloat(s).Some? && ParseFloat(s).value == DigitsValue(d) as real + FractionValue(f)
  {
    assert s[0] == d[0];
    ParseFloatUnsigned(s);
    UnsignedDecimalFraction(d, f, t);
  }

  /** The same after a '-': the number comes back negated. */
  lemma ParseFloatNegatedDigitsFraction(s: string, d: string, f: string, t: string)
    requires s == "-" + d + "." + f + t
    requires d != [] && AllDigits(d)
    requires AllDigits(f) && (t == [] || !IsDigit(t[0]))
    ensures ParseFloat(s).Some? && ParseFloat(s).value == -(DigitsValue(d) as real + FractionValue(f))
  {
    var u := d + "." + f + t;
    UnsignedDecimalFraction(d, f, t);
    Regrouped("-", d, ".", f, t);
    ParseFloatNegated(s, u);
  }

  /** A sign in front of a concatenation may be grouped with the rest. */
  lemma Regrouped(a: string, b: string, c: string, d: string, e: string)
    ensures a + b + c + d + e == a + (b + c + d + e)
  {
  }

  /** parseFloat reads back a decimal fraction, whatever text follows it. */
  lemma ParseFloatFraction(n: nat, f: string, t: string)
    requires AllDigits(f) && (t == [] || !IsDigit(t[0]))
    ensures ParseFloat(DecimalString(n) + "." + f + t).Some?
    ensures ParseFloat(DecimalString(n) + "." + f + t).value
            == n as real + DigitsValue(f) as real / Pow10(|f|) as real
  {
    DecimalStringValue(n);
    ParseFloatDigitsFraction(DecimalString(n) + "." + f + t, DecimalString(n), f, t);
  }

  /** parseFloat reads back a negative decimal fraction, whatever text follows it. */
  lemma ParseFloatNegativeFraction(n: nat, f: string, t: string)
    requires AllDigits(f) && (t == [] || !IsDigit(t[0]))
    ensures ParseFloat("-" + DecimalString(n) + "." + f + t).Some?
    ensures ParseFloat("-" + DecimalString(n) + "." + f + t).value
            == -(n as real + DigitsValue(f) as real / Pow10(|f|) as real)
  {
    DecimalStringValue(n);
    ParseFloatNegatedDigitsFraction("-" + DecimalString(n) + "." + f + t, DecimalString(n), f, t);
  }

  /** Trimming removes a white-space prefix. */
  lemma {:induction false} TrimStartSkips(w: string, s: string)
    requires forall i :: 0 <= i < |w| ==> IsWhiteSpace(w[i])
    ensures TrimStart(w + s) == TrimStart(s)
  {
    if w != [] {
      assert (w + s)[0] == w[0];
      assert (w + s)[1..] == w[1..] + s;
      TrimStartSkips(w[1..], s);
    } else {
      assert w + s == s;
    }
  }

  /** parseFloat skips leading white space. */
  lemma ParseFloatSkipsWhiteSpace(w: string, s: string)
    requires forall i :: 0 <= i < |w| ==> IsWhiteSpace(w[i])
    ensures ParseFloat(w + s) == ParseFloat(s)
  {
    TrimStartSkips(w, s);
  }

  /** parseFloat yields NaN when, after white space, the text starts with neither a sign, a digit nor a '.'. */
  lemma ParseFloatNaN(s: string)
    requires var t := TrimStart(s); t == [] || !(IsDigit(t[0]) || t[0] in "+-.")
    ensures ParseFloat(s) == None
  {
  }

  // ---------------------------------------------------------------------
  // Math.round
  // ---------------------------------------------------------------------

  /** Math.round: the nearest integer, halves rounded up. */
  function MathRound(x: real): (r: int)
    ensures r as real - 0.5 <= x < r as real + 0.5
  {
    (x + 0.5).Floor
  }

  lemma MathRoundMonotone(x: real, y: real)
    requires x <= y
    ensures MathRound(x) <= MathRound(y)
  {
  }
}
