/** The few PHP built-ins the guardian's rules depend on, with the PHP 8
    semantics: `empty()` on strings, `strpos`, `explode` on the line
    separator, `is_numeric` and the `(int)` cast of a numeric string. */
module PhpBuiltins {

  datatype Option<T> = None | Some(value: T)

  /** PHP's `empty()` applied to a string: only "" and "0" are empty. Other
      numeric strings worth 0, such as "00" or "0.0", are not. */
  predicate IsEmpty(s: string)
    ensures IsEmpty(s) ==> s == "" || (IsNumeric(s) && IntCast(s) == 0)
  {
    IntCastOfIntToString(0);
    s == "" || s == "0"
  }

  // ---------------------------------------------------------------------
  // strpos
  // ---------------------------------------------------------------------

  /** `needle` occurs in `haystack` starting at index `i`. */
  predicate OccursAt(haystack: string, needle: string, i: int) {
    0 <= i && i + |needle| <= |haystack| && haystack[i..i + |needle|] == needle
  }

  /** The declarative meaning of `false !== strpos(haystack, needle)`. */
  ghost predicate Contains(haystack: string, needle: string) {
    exists i :: OccursAt(haystack, needle, i)
  }

  /** An occurrence in `s` is still one after anything is put in front of `s`. */
  lemma ContainsAfterPrefix(prefix: string, s: string, needle: string)
    requires Contains(s, needle)
    ensures Contains(prefix + s, needle)
  {
    var i :| OccursAt(s, needle, i);
    assert (prefix + s)[|prefix| + i..|prefix| + i + |needle|] == s[i..i + |needle|];
    assert OccursAt(prefix + s, needle, |prefix| + i);
  }

  /** Search for the first occurrence of `needle` at or after `from`. */
  function StrPosFrom(haystack: string, needle: string, from: nat): (r: Option<nat>)
    requires from <= |haystack| + 1
    decreases |haystack| + 1 - from
    ensures r.Some? ==> from <= r.value && OccursAt(haystack, needle, r.value)
    ensures r.Some? ==> forall j :: from <= j < r.value ==> !OccursAt(haystack, needle, j)
    ensures r.None? ==> forall j :: from <= j ==> !OccursAt(haystack, needle, j)
  {
    if from + |needle| > |haystack| then None
    else if haystack[from..from + |needle|] == needle then Some(from)
    else StrPosFrom(haystack, needle, from + 1)
  }

  /** `strpos(haystack, needle)`: the index of the first occurrence, or
      `None` for PHP's `false`. An empty needle is found at 0 (PHP 8). */
  function StrPos(haystack: string, needle: string): (r: Option<nat>)
    ensures r.Some? <==> Contains(haystack, needle)
    ensures r.Some? ==> OccursAt(haystack, needle, r.value)
    ensures r.Some? ==> forall j :: 0 <= j < r.value ==> !OccursAt(haystack, needle, j)
  {
    StrPosFrom(haystack, needle, 0)
  }

  // ---------------------------------------------------------------------
  // explode(PHP_EOL, s)
  // ---------------------------------------------------------------------

  /** PHP_EOL on the Unix hosts WordPress runs on. */
  const EOL: char := '\n'

  /** `explode(PHP_EOL, s)`: the pieces between separators, always at least one. */
  function Explode(s: string): (parts: seq<string>)
    ensures |parts| >= 1
  {
    if s == [] then [""]
    else
      var rest := Explode(s[1..]);
      if s[0] == EOL then [""] + rest
      else [[s[0]] + rest[0]] + rest[1..]
  }

  /** `implode(PHP_EOL, parts)`, the inverse of `Explode`. */
  function Implode(parts: seq<string>): string {
    if |parts| == 0 then ""
    else if |parts| == 1 then parts[0]
    else parts[0] + [EOL] + Implode(parts[1..])
  }

  predicate NoSeparator(piece: string) {
    EOL !in piece
  }

  /** Joining the pieces back with the separator gives the original string. */
  lemma {:induction false} ImplodeExplode(s: string)
    ensures Implode(Explode(s)) == s
  {
    if s != [] {
      var rest := Explode(s[1..]);
      ImplodeExplode(s[1..]);
      if s[0] == EOL {
        assert Explode(s) == [""] + rest;
        assert Implode(Explode(s)) == "" + [EOL] + Implode(rest);
        assert s == [s[0]] + s[1..];
      } else {
        var head := [[s[0]] + rest[0]];
        assert Explode(s) == head + rest[1..];
        if |rest| == 1 {
          assert Implode(Explode(s)) == [s[0]] + rest[0];
          assert s == [s[0]] + s[1..];
        } else {
          assert (head + rest[1..])[1..] == rest[1..];
          assert Implode(Explode(s)) == [s[0]] + rest[0] + [EOL] + Implode(rest[1..]);
          assert Implode(rest) == rest[0] + [EOL] + Implode(rest[1..]);
          assert s == [s[0]] + s[1..];
        }
      }
    }
  }

  /** No piece of an explode contains the separator. */
  lemma {:induction false} ExplodeSeparatorFree(s: string)
    ensures forall i :: 0 <= i < |Explode(s)| ==> NoSeparator(Explode(s)[i])
  {
    if s != [] {
      ExplodeSeparatorFree(s[1..]);
      var rest := Explode(s[1..]);
      if s[0] != EOL {
        assert NoSeparator([s[0]] + rest[0]);
      }
    }
  }

  /** Splitting separator-free pieces joined by the separator gives them back. */
  lemma {:induction false} ExplodeImplode(parts: seq<string>)
    requires |parts| >= 1
    requires forall i :: 0 <= i < |parts| ==> NoSeparator(parts[i])
    ensures Explode(Implode(parts)) == parts
  {
    if |parts| == 1 {
      ExplodePiece(parts[0], []);
      assert parts[0] + [] == parts[0] && Explode([]) == [""];
      assert parts[0] + "" == parts[0];
    } else {
      ExplodeImplode(parts[1..]);
      var tail := Implode(parts[1..]);
      ExplodePiece(parts[0], [EOL] + tail);
      assert Implode(parts) == parts[0] + ([EOL] + tail);
      assert ([EOL] + tail)[1..] == tail;
      var st := [EOL] + tail;
      assert st[0] == EOL && st[1..] == tail;
      assert Explode(st) == [""] + parts[1..];
      assert Explode(st)[0] == "" && Explode(st)[1..] == parts[1..];
      assert parts[0] + "" == parts[0];
      assert parts == [parts[0]] + parts[1..];
    }
  }

  /** A separator-free piece is glued onto the first part of what follows it. */
  lemma {:induction false} ExplodePiece(piece: string, after: string)
    requires NoSeparator(piece)
    ensures Explode(piece + after) == [piece + Explode(after)[0]] + Explode(after)[1..]
  {
    if piece != [] {
      ExplodePiece(piece[1..], after);
      assert (piece + after)[1..] == piece[1..] + after;
      assert (piece + after)[0] == piece[0] != EOL;
      assert [piece[0]] + (piece[1..] + Explode(after)[0]) == piece + Explode(after)[0];
    } else {
      var e := Explode(after);
      assert piece + after == after;
      assert piece + e[0] == e[0];
      assert e == [e[0]] + e[1..];
    }
  }

  /** A string that ends in the separator explodes to a last piece that is empty. */
  lemma {:induction false} ExplodeTrailingSeparator(s: string)
    ensures var parts := Explode(s + [EOL]); parts[|parts| - 1] == ""
  {
    if s == [] {
      assert Explode([EOL]) == [""] + Explode([]);
    } else {
      ExplodeTrailingSeparator(s[1..]);
      assert (s + [EOL])[1..] == s[1..] + [EOL];
      assert (s + [EOL])[0] == s[0];
    }
  }

  // ---------------------------------------------------------------------
  // is_numeric and the (int) cast
  // ---------------------------------------------------------------------

  const PHP_INT_MAX: int := 0x7fff_ffff_ffff_ffff
  const PHP_INT_MIN: int := -0x8000_0000_0000_0000

  predicate IsDigit(c: char) {
    '0' <= c <= '9'
  }

  /** The white space PHP skips around a numeric string: space, \t, \n, \r, \v, \f. */
  predicate IsSpace(c: char) {
    c == ' ' || c == '\t' || c == '\n' || c == '\r' || c as int == 11 || c as int == 12
  }

  predicate AllDigits(s: string) {
    forall i :: 0 <= i < |s| ==> IsDigit(s[i])
  }

  /** Length of the longest prefix of digits. */
  function DigitRun(s: string): (n: nat)
    ensures n <= |s| && AllDigits(s[..n])
    ensures n < |s| ==> !IsDigit(s[n])
  {
    if s == [] || !IsDigit(s[0]) then 0
    else
      var n := 1 + DigitRun(s[1..]);
      assert s[..n] == [s[0]] + s[1..][..n - 1];
      n
  }

  /** Length of the longest prefix of white space. */
  function LeadingSpace(s: string): (n: nat)
    ensures n <= |s|
    ensures n < |s| ==> !IsSpace(s[n])
  {
    if s == [] || !IsSpace(s[0]) then 0 else 1 + LeadingSpace(s[1..])
  }

  /** Length of the longest suffix of white space. */
  function TrailingSpace(s: string): (n: nat)
    ensures n <= |s|
    ensures n < |s| ==> !IsSpace(s[|s| - 1 - n])
  {
    if s == [] || !IsSpace(s[|s| - 1]) then 0 else 1 + TrailingSpace(s[..|s| - 1])
  }

  /** A numeric string taken apart: sign, digits before and after the
      decimal point, and the decimal exponent. */
  datatype Numeral = Numeral(negative: bool, whole: string, fraction: string, exponent: int)

  /** The value of a digit (0 for anything else). */
  function DigitValue(c: char): nat {
    if IsDigit(c) then (c as int) - ('0' as int) else 0
  }

  /** The value of a string of decimal digits, most significant first. */
  function DigitsValue(d: string): nat {
    if d == [] then 0 else DigitsValue(d[..|d| - 1]) * 10 + DigitValue(d[|d| - 1])
  }

  /** `e` or `E`, an optional sign, and at least one digit, filling `r` entirely. */
  function ParseExponent(r: string): Option<int> {
    if |r| == 0 || (r[0] != 'e' && r[0] != 'E') then None
    else
      var t := r[1..];
      var negative := |t| > 0 && t[0] == '-';
      var u := if |t| > 0 && (t[0] == '-' || t[0] == '+') then t[1..] else t;
      if |u| > 0 && DigitRun(u) == |u| then
        Some(if negative then -(DigitsValue(u) as int) else DigitsValue(u))
      else None
  }

  /** The PHP numeric-literal grammar without surrounding white space:
      [+-]? (digits ('.' digits*)? | '.' digits) ([eE] [+-]? digits)? */
  function ParseNumber(t: string): (r: Option<Numeral>)
    ensures r.Some? ==> AllDigits(r.value.whole) && AllDigits(r.value.fraction)
    ensures r.Some? ==> |r.value.whole| + |r.value.fraction| >= 1
  {
    var negative := |t| > 0 && t[0] == '-';
    var u := if |t| > 0 && (t[0] == '-' || t[0] == '+') then t[1..] else t;
    var w := DigitRun(u);
    var afterWhole := u[w..];
    var hasDot := |afterWhole| > 0 && afterWhole[0] == '.';
    var afterDot := if hasDot then afterWhole[1..] else afterWhole;
    var f := if hasDot then DigitRun(afterDot) else 0;
    var rest := afterDot[f..];
    if w + f == 0 then None
    else if rest == [] then Some(Numeral(negative, u[..w], afterDot[..f], 0))
    else match ParseExponent(rest)
      case None => None
      case Some(e) => Some(Numeral(negative, u[..w], afterDot[..f], e))
  }

  /** A numeric string: a number with optional leading and trailing white space. */
  function ParseNumeral(s: string): (r: Option<Numeral>)
    ensures r.Some? ==> AllDigits(r.value.whole) && AllDigits(r.value.fraction)
    ensures r.Some? ==> |r.value.whole| + |r.value.fraction| >= 1
    ensures r.Some? ==> |s| >= 1
  {
    var lead := LeadingSpace(s);
    var body := s[lead..];
    ParseNumber(body[..|body| - TrailingSpace(body)])
  }

  /** PHP's `is_numeric` on a string. */
  predicate IsNumeric(s: string) {
    ParseNumeral(s).Some?
  }

  /** `m` times ten to the `k`. */
  function ShiftLeft(m: nat, k: nat): nat {
    if k == 0 then m else 10 * ShiftLeft(m, k - 1)
  }

  /** `m` divided by ten to the `k`, rounded down. */
  function ShiftRight(m: nat, k: nat): nat {
    if k == 0 then m else ShiftRight(m, k - 1) / 10
  }

  /** The magnitude of a numeral truncated toward zero. */
  function Truncated(n: Numeral): nat {
    var m := DigitsValue(n.whole + n.fraction);
    var e := n.exponent - |n.fraction|;
    if e >= 0 then ShiftLeft(m, e) else ShiftRight(m, -e)
  }

  /** Out-of-range values stick to the nearest end of the 64-bit range. */
  function Saturate(v: int): (r: int)
    ensures PHP_INT_MIN <= r <= PHP_INT_MAX
    ensures PHP_INT_MIN <= v <= PHP_INT_MAX ==> r == v
    ensures v > PHP_INT_MAX ==> r == PHP_INT_MAX
    ensures v < PHP_INT_MIN ==> r == PHP_INT_MIN
  {
    if v > PHP_INT_MAX then PHP_INT_MAX else if v < PHP_INT_MIN then PHP_INT_MIN else v
  }

  /** `(int) $s` for a numeric string: truncation toward zero, saturated. */
  function IntCast(s: string): (r: int)
    requires IsNumeric(s)
    ensures PHP_INT_MIN <= r <= PHP_INT_MAX
  {
    var n := ParseNumeral(s).value;
    Saturate(if n.negative then -(Truncated(n) as int) else Truncated(n))
  }

  // ---------------------------------------------------------------------
  // Decimal rendering, the partner of IntCast
  // ---------------------------------------------------------------------

  /** The canonical decimal rendering of a natural number. */
  function NatToString(n: nat): (s: string)
    ensures |s| >= 1 && AllDigits(s)
    decreases n
  {
    var last := ['0' + ((n % 10) as char)];
    if n < 10 then last else NatToString(n / 10) + last
  }

  /** The canonical decimal rendering of an integer, with '-' when negative. */
  function IntToString(i: int): string {
    if i < 0 then "-" + NatToString(-i) else NatToString(i)
  }

  lemma {:induction false} DigitsValueOfNatToString(n: nat)
    ensures DigitsValue(NatToString(n)) == n
  {
    var s := NatToString(n);
    assert s[..|s| - 1] == if n < 10 then "" else NatToString(n / 10);
    if n >= 10 {
      DigitsValueOfNatToString(n / 10);
    }
  }

  lemma DigitRunOfDigits(s: string)
    requires AllDigits(s)
    ensures DigitRun(s) == |s|
  {
  }

  /** A string of digits parses as a whole number with no fraction and no exponent. */
  lemma ParseDigits(s: string, negative: bool)
    requires |s| >= 1 && AllDigits(s)
    ensures ParseNumeral(if negative then "-" + s else s) == Some(Numeral(negative, s, "", 0))
  {
    var t := if negative then "-" + s else s;
    assert !IsSpace(t[0]) && !IsSpace(t[|t| - 1]);
    ParseUnpadded(t);
    ParseNumberDigits(s, negative);
  }

  /** The grammar reads a string of digits as a whole part only. */
  lemma ParseNumberDigits(s: string, negative: bool)
    requires |s| >= 1 && AllDigits(s)
    ensures ParseNumber(if negative then "-" + s else s) == Some(Numeral(negative, s, "", 0))
  {
    var t := if negative then "-" + s else s;
    assert (if negative then t[1..] else t) == s;
    DigitRunOfDigits(s);
    assert s[|s|..] == [];
    assert s[..|s|] == s;
  }

  /** Among the numeric strings worth 0, only "0" is empty: "00" is numeric,
      casts to 0, and is not empty. */
  lemma EmptyAmongZeroNumerals(s: string)
    ensures IsNumeric(s) && IntCast(s) == 0 ==> (IsEmpty(s) <==> s == "0")
    ensures IsNumeric("00") && IntCast("00") == 0 && !IsEmpty("00")
  {
    ParseDigits("00", false);
    assert Truncated(Numeral(false, "00", "", 0)) == DigitsValue("00") by {
      TruncatedWithoutExponent(false, "00", "");
      assert "00" + "" == "00";
    }
    assert DigitsValue("00") == DigitsValue("0") * 10 + 0;
  }

  /** `(int)` of an integer's decimal rendering gives the integer back:
      `(int) (string) $i === $i` on 64-bit PHP. */
  lemma IntCastOfIntToString(i: int)
    requires PHP_INT_MIN <= i <= PHP_INT_MAX
    ensures IsNumeric(IntToString(i)) && IntCast(IntToString(i)) == i
  {
    var n: nat := if i < 0 then -i else i;
    ParseDigits(NatToString(n), i < 0);
    DigitsValueOfNatToString(n);
    assert NatToString(n) + "" == NatToString(n);
  }

  // ---------------------------------------------------------------------
  // Truncation of a decimal fraction by (int)
  // ---------------------------------------------------------------------

  /** Digits written after others shift the others' value left. */
  lemma {:induction false} DigitsValueAppend(a: string, b: string)
    ensures DigitsValue(a + b) == ShiftLeft(DigitsValue(a), |b|) + DigitsValue(b)
  {
    if b == [] {
      assert a + b == a;
    } else {
      var init := b[..|b| - 1];
      assert (a + b)[..|a + b| - 1] == a + init;
      assert (a + b)[|a + b| - 1] == b[|b| - 1];
      DigitsValueAppend(a, init);
    }
  }

  /** A string of k digits is worth less than ten to the k. */
  lemma {:induction false} DigitsValueBound(b: string)
    ensures DigitsValue(b) < ShiftLeft(1, |b|)
  {
    if b != [] {
      DigitsValueBound(b[..|b| - 1]);
    }
  }

  /** Shifting right k + 1 places is dropping one digit, then k more. */
  lemma {:induction false} ShiftRightFirst(m: nat, k: nat)
    ensures ShiftRight(m, k + 1) == ShiftRight(m / 10, k)
  {
    if k > 0 {
      ShiftRightFirst(m, k - 1);
    }
  }

  /** Shifting right undoes shifting left, whatever lower digits were added. */
  lemma {:induction false} ShiftRightOfShiftLeft(x: nat, y: nat, k: nat)
    requires y < ShiftLeft(1, k)
    ensures ShiftRight(ShiftLeft(x, k) + y, k) == x
  {
    if k > 0 {
      ShiftRightFirst(ShiftLeft(x, k) + y, k - 1);
      assert (ShiftLeft(x, k) + y) / 10 == ShiftLeft(x, k - 1) + y / 10;
      ShiftRightOfShiftLeft(x, y / 10, k - 1);
    }
  }

  /** The digit run of digits followed by a non-digit stops at the non-digit. */
  lemma {:induction false} DigitRunStops(d: string, rest: string)
    requires AllDigits(d) && |rest| >= 1 && !IsDigit(rest[0])
    ensures DigitRun(d + rest) == |d|
  {
    if d != [] {
      assert (d + rest)[1..] == d[1..] + rest;
      DigitRunStops(d[1..], rest);
    } else {
      assert d + rest == rest;
    }
  }

  /** Without white space at either end, `is_numeric` parses the string as it is. */
  lemma ParseUnpadded(t: string)
    requires |t| >= 1 && !IsSpace(t[0]) && !IsSpace(t[|t| - 1])
    ensures ParseNumeral(t) == ParseNumber(t)
  {
    assert LeadingSpace(t) == 0 && t[0..] == t;
    assert TrailingSpace(t) == 0 && t[..|t|] == t;
  }

  /** Digits, a point and digits: the grammar's whole and fraction parts. */
  lemma ParseNumberDecimal(whole: string, fraction: string)
    requires |whole| >= 1 && AllDigits(whole) && AllDigits(fraction)
    ensures ParseNumber(whole + ("." + fraction)) == Some(Numeral(false, whole, fraction, 0))
  {
    var t := whole + ("." + fraction);
    assert t[0] == whole[0];
    DigitRunStops(whole, "." + fraction);
    assert t[|whole|..] == "." + fraction;
    assert t[..|whole|] == whole;
    assert ("." + fraction)[1..] == fraction;
    DigitRunOfDigits(fraction);
    assert fraction[|fraction|..] == [] && fraction[..|fraction|] == fraction;
  }

  /** A decimal fraction `whole.fraction` parses with no exponent. */
  lemma ParseDecimal(whole: string, fraction: string)
    requires |whole| >= 1 && AllDigits(whole) && AllDigits(fraction)
    ensures ParseNumeral(whole + "." + fraction) == Some(Numeral(false, whole, fraction, 0))
  {
    var t := whole + "." + fraction;
    assert t == whole + ("." + fraction);
    assert t[0] == whole[0];
    assert t[|t| - 1] == '.' || t[|t| - 1] == fraction[|fraction| - 1];
    ParseUnpadded(t);
    ParseNumberDecimal(whole, fraction);
  }

  /** `(int)` drops the digits after the decimal point: (int) "12.7" is 12. */
  lemma IntCastTruncatesFraction(whole: string, fraction: string)
    requires |whole| >= 1 && AllDigits(whole) && AllDigits(fraction)
    ensures IsNumeric(whole + "." + fraction)
    ensures IntCast(whole + "." + fraction) == Saturate(DigitsValue(whole))
  {
    var t := whole + "." + fraction;
    ParseDecimal(whole, fraction);
    TruncatedWithoutExponent(false, whole, fraction);
    DropFraction(whole, fraction);
    IntCastOfNumeral(t, Numeral(false, whole, fraction, 0));
  }

  /** Shifting out the fraction's digits leaves the whole part. */
  lemma DropFraction(whole: string, fraction: string)
    ensures ShiftRight(DigitsValue(whole + fraction), |fraction|) == DigitsValue(whole)
  {
    var x, y, k := DigitsValue(whole), DigitsValue(fraction), |fraction|;
    DigitsValueAppend(whole, fraction);
    DigitsValueBound(fraction);
    ShiftRightOfShiftLeft(x, y, k);
  }

  /** `(int)` reads the value off the parsed numeral. */
  lemma IntCastOfNumeral(s: string, n: Numeral)
    requires ParseNumeral(s) == Some(n)
    ensures IsNumeric(s) && IntCast(s) == Saturate(if n.negative then -(Truncated(n) as int) else Truncated(n))
  {
  }

  /** Without an exponent, the fraction's digits are shifted out. */
  lemma TruncatedWithoutExponent(negative: bool, whole: string, fraction: string)
    ensures Truncated(Numeral(negative, whole, fraction, 0)) == ShiftRight(DigitsValue(whole + fraction), |fraction|)
  {
    if fraction == [] {
      assert ShiftLeft(DigitsValue(whole + fraction), 0) == DigitsValue(whole + fraction);
    }
  }

  /** The rendering of a natural number is PHP-empty only for 0. */
  lemma NatToStringIsNotEmpty(n: nat)
    ensures IsEmpty(NatToString(n)) <==> n == 0
  {
    if n >= 10 {
      var s := NatToString(n);
      assert |NatToString(n / 10)| >= 1;
      assert |s| >= 2;
    }
  }
}
