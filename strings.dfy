/** Splitting on and joining with a separator character, as Kotlin's
    `split(',')` / `joinToString(",")` and Swift's `components(separatedBy:)` /
    `joined(separator:)` do. Splitting keeps empty pieces, so `""` splits
    into `[""]` and `"1,"` into `["1", ""]`. */
module Strings {

  /** The pieces of `s` between occurrences of `sep`. */
  function Split(s: string, sep: char): (parts: seq<string>)
    ensures |parts| > 0
    decreases |s|
  {
    if |s| == 0 then [""]
    else
      var rest := Split(s[1..], sep);
      if s[0] == sep then [""] + rest else [[s[0]] + rest[0]] + rest[1..]
  }

  /** The pieces of `parts` with `sep` between neighbours. */
  function Join(parts: seq<string>, sep: char): (s: string)
    decreases |parts|
  {
    if |parts| == 0 then ""
    else if |parts| == 1 then parts[0]
    else parts[0] + [sep] + Join(parts[1..], sep)
  }

  /** Splitting never produces a piece that contains the separator, and the
      number of pieces is one more than the number of separators. */
  lemma {:induction false} SplitPieces(s: string, sep: char)
    ensures forall i :: 0 <= i < |Split(s, sep)| ==> sep !in Split(s, sep)[i]
    ensures |Split(s, sep)| == Count(s, sep) + 1
    decreases |s|
  {
    if |s| > 0 {
      SplitPieces(s[1..], sep);
    }
  }

  function Count(s: string, c: char): nat
    decreases |s|
  {
    if |s| == 0 then 0 else (if s[0] == c then 1 else 0) + Count(s[1..], c)
  }

  /** A text without the separator is a single piece. */
  lemma {:induction false} SplitWithoutSeparator(s: string, sep: char)
    requires sep !in s
    ensures Split(s, sep) == [s]
    decreases |s|
  {
    if |s| > 0 {
      assert sep !in s[1..] by {
        forall k | 0 <= k < |s[1..]| ensures s[1..][k] != sep { assert s[1..][k] == s[k + 1]; }
      }
      SplitWithoutSeparator(s[1..], sep);
      assert [s[0]] + s[1..] == s;
    }
  }

  /** Splitting `a + [sep] + b`, where `a` has no separator, gives `a` and then
      the pieces of `b`. */
  lemma {:induction false} SplitAtFirstSeparator(a: string, b: string, sep: char)
    requires sep !in a
    ensures Split(a + [sep] + b, sep) == [a] + Split(b, sep)
    decreases |a|
  {
    var s := a + [sep] + b;
    if |a| == 0 {
      assert s[1..] == b;
    } else {
      assert s[1..] == a[1..] + [sep] + b;
      assert sep !in a[1..] by {
        forall k | 0 <= k < |a[1..]| ensures a[1..][k] != sep { assert a[1..][k] == a[k + 1]; }
      }
      SplitAtFirstSeparator(a[1..], b, sep);
      assert [a[0]] + a[1..] == a;
    }
  }

  /** Round trip: splitting the join of a non-empty list of separator-free
      pieces gives the list back. */
  lemma {:induction false} SplitJoin(parts: seq<string>, sep: char)
    requires |parts| > 0
    requires forall i :: 0 <= i < |parts| ==> sep !in parts[i]
    ensures Split(Join(parts, sep), sep) == parts
    decreases |parts|
  {
    if |parts| == 1 {
      SplitWithoutSeparator(parts[0], sep);
    } else {
      SplitJoin(parts[1..], sep);
      SplitAtFirstSeparator(parts[0], Join(parts[1..], sep), sep);
      assert [parts[0]] + parts[1..] == parts;
    }
  }
}
