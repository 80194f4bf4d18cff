/** The `call_opponents` text: a comma-separated list of user ids.
    Android parses it with `split(',').map { it.toInt() }` (one bad piece throws)
    and writes it with `joinToString(",")`; iOS parses it with
    `components(separatedBy: ",").map { Int($0) ?? 0 }` (a bad piece reads as 0)
    and writes it with `map { String($0) }.joined(separator: ",")`. */
module Opponents {

  import opened Values
  import Decimal
  import Strings

  function ToStrings(xs: seq<int>): (ss: seq<string>)
    ensures |ss| == |xs|
    ensures forall i :: 0 <= i < |xs| ==> ss[i] == Decimal.IntToString(xs[i])
  {
    if |xs| == 0 then [] else [Decimal.IntToString(xs[0])] + ToStrings(xs[1..])
  }

  function Widen(xs: seq<int32>): (ys: seq<int>)
    ensures |ys| == |xs|
    ensures forall i :: 0 <= i < |xs| ==> ys[i] == xs[i] as int
  {
    if |xs| == 0 then [] else [xs[0] as int] + Widen(xs[1..])
  }

  /** Android `joinToString(separator = ",")` of an `ArrayList<Int>`: the
      empty list joins to `""`, and a non-empty one splits back into its
      decimal texts. */
  function JoinKotlin(xs: seq<int32>): (r: string)
    ensures |xs| == 0 ==> r == ""
    ensures |xs| > 0 ==> Strings.Split(r, ',') == ToStrings(Widen(xs))
  {
    JoinSwift(Widen(xs))
  }

  /** iOS `opponents.map { String($0) }.joined(separator: ",")`: the empty
      list joins to `""`, and a non-empty one splits back into its decimal
      texts. */
  function JoinSwift(xs: seq<int>): (r: string)
    ensures |xs| == 0 ==> r == ""
    ensures |xs| > 0 ==> Strings.Split(r, ',') == ToStrings(xs)
  {
    if |xs| > 0 then
      NoCommaInDecimals(xs);
      Strings.SplitJoin(ToStrings(xs), ',');
      Strings.Join(ToStrings(xs), ',')
    else ""
  }

  /** `toInt()` of every piece; `None` when some piece throws. */
  function ParsePieces(pieces: seq<string>): (r: Option<seq<int32>>)
    ensures r.Some? <==> forall i :: 0 <= i < |pieces| ==> Decimal.ToInt32(pieces[i]).Some?
    ensures r.Some? ==> |r.value| == |pieces|
    ensures r.Some? ==> forall i :: 0 <= i < |pieces| ==> Some(r.value[i]) == Decimal.ToInt32(pieces[i])
  {
    if |pieces| == 0 then Some([])
    else
      var head := Decimal.ToInt32(pieces[0]);
      var tail := ParsePieces(pieces[1..]);
      if head.Some? && tail.Some? then Some([head.value] + tail.value) else None
  }

  /** Android `s.split(',').map { it.toInt() }`; `None` is the
      NumberFormatException. The result is never empty. */
  function ParseKotlin(s: string): (r: Option<seq<int32>>)
    ensures r.Some? ==> |r.value| == |Strings.Split(s, ',')| > 0
    ensures r.Some? <==> forall i :: 0 <= i < |Strings.Split(s, ',')| ==>
      Decimal.ToInt32(Strings.Split(s, ',')[i]).Some?
    ensures r.Some? ==> forall i :: 0 <= i < |r.value| ==>
      Some(r.value[i]) == Decimal.ToInt32(Strings.Split(s, ',')[i])
  {
    var pieces := Strings.Split(s, ',');
    var parsed := ParsePieces(pieces);
    assert parsed.Some? ==> forall i :: 0 <= i < |pieces| ==> Decimal.ToInt32(pieces[i]).Some?;
    assert (forall i :: 0 <= i < |pieces| ==> Decimal.ToInt32(pieces[i]).Some?) ==> parsed.Some?;
    parsed
  }

  /** iOS: each piece read with `Int(piece) ?? 0`. */
  function ParseSwift(s: string): (r: seq<int>)
    ensures |r| == |Strings.Split(s, ',')|
    ensures forall i :: 0 <= i < |r| ==>
      var piece := Strings.Split(s, ',')[i];
      if Decimal.ToInt64(piece).Some? then r[i] == Decimal.ToInt64(piece).value as int else r[i] == 0
  {
    var pieces := Strings.Split(s, ',');
    seq(|pieces|, i requires 0 <= i < |pieces| =>
      var v := Decimal.ToInt64(pieces[i]); if v.Some? then v.value as int else 0)
  }

  lemma NoCommaInDecimals(xs: seq<int>)
    ensures forall i :: 0 <= i < |ToStrings(xs)| ==> ',' !in ToStrings(xs)[i]
  {
    forall i | 0 <= i < |xs| ensures ',' !in ToStrings(xs)[i] {
      Decimal.IntToStringChars(xs[i]);
    }
  }

  /** Round trip on Android: the opponents a push handler joins are parsed back
      to the same list by `showCallNotification`, provided there is at least
      one; the empty list joins to `""`, which does not parse. */
  lemma OpponentsRoundTripKotlin(xs: seq<int32>)
    ensures |xs| > 0 ==> ParseKotlin(JoinKotlin(xs)) == Some(xs)
    ensures |xs| == 0 ==> JoinKotlin(xs) == "" && ParseKotlin(JoinKotlin(xs)).None?
  {
    var pieces := ToStrings(Widen(xs));
    if |xs| > 0 {
      var r := ParseKotlin(JoinKotlin(xs));
      forall i | 0 <= i < |xs| ensures Decimal.ToInt32(pieces[i]) == Some(xs[i]) {
        Decimal.ToInt32OfToString(xs[i]);
      }
      assert r.Some?;
      assert r.value == xs;
    } else {
      assert Strings.Split("", ',') == [""];
      assert Decimal.ToInt32("").None?;
    }
  }

  /** Round trip on iOS: the list joined by `reportIncomingCall` parses back to
      itself when every id fits in 64 bits and the list is not empty; the empty
      list comes back as `[0]`. */
  lemma OpponentsRoundTripSwift(xs: seq<int>)
    requires forall i :: 0 <= i < |xs| ==> MinInt64 <= xs[i] <= MaxInt64
    ensures |xs| > 0 ==> ParseSwift(JoinSwift(xs)) == xs
    ensures |xs| == 0 ==> ParseSwift(JoinSwift(xs)) == [0]
  {
    var pieces := ToStrings(xs);
    if |xs| > 0 {
      forall i | 0 <= i < |xs| ensures ParseSwift(JoinSwift(xs))[i] == xs[i] {
        Decimal.ParseIntToString(xs[i], MinInt64, MaxInt64);
      }
    } else {
      assert Strings.Split("", ',') == [""];
      assert Decimal.ToInt64("").None?;
    }
  }
}
