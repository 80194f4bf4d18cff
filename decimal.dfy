/** Decimal text of integers: Kotlin's `Int.toString()` / Swift's `String(Int)`
    and the parsers Kotlin's `String.toInt()` and Swift's `Int(String)`.
    Both parsers accept an optional `+` or `-` followed by one or more
    ASCII decimal digits and fail when the value is outside the target width. */
module Decimal {

  import opened Values

  predicate IsDigit(c: char) { '0' <= c <= '9' }

  predicate AllDigits(s: string) { forall i :: 0 <= i < |s| ==> IsDigit(s[i]) }

  function DigitChar(d: nat): (c: char)
    requires d < 10
    ensures IsDigit(c)
  {
    ['0', '1', '2', '3', '4', '5', '6', '7', '8', '9'][d]
  }

  function DigitValue(c: char): (d: nat)
    requires IsDigit(c)
    ensures d < 10 && DigitChar(d) == c
  {
    (c as int - '0' as int) as nat
  }

  /** Digits of `n`, most significant first, without leading zeros. */
  function NatToString(n: nat): (s: string)
    decreases n
  {
    if n < 10 then [DigitChar(n)] else NatToString(n / 10) + [DigitChar(n % 10)]
  }

  /** Decimal text of an integer, with a leading `-` when negative. */
  function IntToString(n: int): (s: string)
  {
    if n < 0 then "-" + NatToString(-n) else NatToString(n)
  }

  /** Value of a string of digits, read left to right. */
  function DigitsValue(s: string): (n: nat)
    requires AllDigits(s)
  {
    if |s| == 0 then 0 else DigitsValue(s[..|s| - 1]) * 10 + DigitValue(s[|s| - 1])
  }

  /** An optional `+` or `-` followed by one or more digits. */
  predicate IsDecimalText(s: string)
  {
    (|s| > 0 && AllDigits(s)) || (|s| > 1 && (s[0] == '-' || s[0] == '+') && AllDigits(s[1..]))
  }

  /** The number an optionally signed digit string denotes, if it is one. */
  function SignedValue(s: string): (r: Option<int>)
    ensures r.Some? <==> IsDecimalText(s)
    ensures r.Some? && AllDigits(s) ==> r.value == DigitsValue(s)
    ensures r.Some? && s[0] == '+' ==> r.value == DigitsValue(s[1..])
    ensures r.Some? && s[0] == '-' ==> r.value == -(DigitsValue(s[1..]) as int)
  {
    if |s| > 0 && (s[0] == '-' || s[0] == '+') then
      if |s| > 1 && AllDigits(s[1..]) then
        var magnitude: int := DigitsValue(s[1..]);
        Some(if s[0] == '-' then -magnitude else magnitude)
      else None
    else if |s| > 0 && AllDigits(s) then Some(DigitsValue(s))
    else None
  }

  /** Parse `s` as an integer in `[lo, hi]`; `None` is Kotlin's
      NumberFormatException and Swift's `nil`. It succeeds exactly on an
      optionally signed digit string whose value lies in range, with that
      value. */
  function ParseInt(s: string, lo: int, hi: int): (r: Option<int>)
    ensures r.Some? <==> IsDecimalText(s) && lo <= SignedValue(s).value <= hi
    ensures r.Some? ==> r == SignedValue(s)
    ensures r.Some? ==> lo <= r.value <= hi
    ensures r.Some? ==> |s| > 0
    ensures s == "" || s == "-" || s == "+" ==> r.None?
  {
    var v := SignedValue(s);
    if v.Some? && lo <= v.value <= hi then v else None
  }

  /** Kotlin `String.toInt()` */
  function ToInt32(s: string): (r: Option<int32>)
    ensures r.Some? <==> ParseInt(s, MinInt32, MaxInt32).Some?
    ensures r.Some? ==> r.value as int == ParseInt(s, MinInt32, MaxInt32).value
  {
    var v := ParseInt(s, MinInt32, MaxInt32);
    if v.Some? then Some(v.value as int32) else None
  }

  /** Swift `Int(String)` (64-bit) */
  function ToInt64(s: string): (r: Option<int64>)
    ensures r.Some? <==> ParseInt(s, MinInt64, MaxInt64).Some?
    ensures r.Some? ==> r.value as int == ParseInt(s, MinInt64, MaxInt64).value
  {
    var v := ParseInt(s, MinInt64, MaxInt64);
    if v.Some? then Some(v.value as int64) else None
  }

  lemma {:induction false} NatToStringDigits(n: nat)
    ensures |NatToString(n)| > 0 && AllDigits(NatToString(n))
    ensures DigitsValue(NatToString(n)) == n
    decreases n
  {
    if n >= 10 {
      NatToStringDigits(n / 10);
      var s := NatToString(n / 10) + [DigitChar(n % 10)];
      assert s[..|s| - 1] == NatToString(n / 10);
      assert DigitValue(s[|s| - 1]) == n % 10;
      assert n == (n / 10) * 10 + n % 10;
    }
  }

  /** The decimal text of an integer contains only digits and a leading minus. */
  lemma IntToStringChars(n: int)
    ensures |IntToString(n)| > 0
    ensures forall i :: 0 <= i < |IntToString(n)| ==>
      IsDigit(IntToString(n)[i]) || (i == 0 && n < 0 && IntToString(n)[i] == '-')
  {
    var s := IntToString(n);
    if n < 0 {
      var digits := NatToString(-n);
      NatToStringDigits(-n);
      assert s == "-" + digits;
      forall i | 0 < i < |s|
        ensures IsDigit(s[i])
      {
        assert s[i] == digits[i - 1];
      }
    } else {
      NatToStringDigits(n);
    }
  }

  /** Round trip: parsing the decimal text of an in-range integer gives it back. */
  lemma ParseIntToString(n: int, lo: int, hi: int)
    requires lo <= n <= hi
    ensures ParseInt(IntToString(n), lo, hi) == Some(n)
  {
    var s := IntToString(n);
    if n < 0 {
      NatToStringDigits(-n);
      assert s[0] == '-' && s[1..] == NatToString(-n);
      assert SignedValue(s) == Some(n);
    } else {
      NatToStringDigits(n);
      assert IsDigit(s[0]);
      assert SignedValue(s) == Some(n);
    }
  }

  lemma ToInt32OfToString(x: int32)
    ensures ToInt32(IntToString(x as int)) == Some(x)
  {
    ParseIntToString(x as int, MinInt32, MaxInt32);
  }

  lemma ToInt64OfToString(x: int64)
    ensures ToInt64(IntToString(x as int)) == Some(x)
  {
    ParseIntToString(x as int, MinInt64, MaxInt64);
  }
}
