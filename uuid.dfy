/** Foundation's `UUID` as the iOS controllers use it: `UUID(uuidString:)`
    accepts the 8-4-4-4-12 hexadecimal form in either case, and
    `uuidString` prints it back in upper case. `String.lowercased()` is
    taken on ASCII text. */
module Uuid {

  import opened Values

  predicate IsHexDigit(c: char) { '0' <= c <= '9' || 'a' <= c <= 'f' || 'A' <= c <= 'F' }

  predicate IsDashAt(i: int) { i == 8 || i == 13 || i == 18 || i == 23 }

  /** What `UUID(uuidString:)` accepts. */
  predicate IsUuidText(s: string)
  {
    |s| == 36 && forall i :: 0 <= i < 36 ==> if IsDashAt(i) then s[i] == '-' else IsHexDigit(s[i])
  }

  function UpperChar(c: char): char
  {
    if 'a' <= c <= 'z' then (c as int - 32) as char else c
  }

  function LowerChar(c: char): char
  {
    if 'A' <= c <= 'Z' then (c as int + 32) as char else c
  }

  function Upper(s: string): (r: string)
    ensures |r| == |s| && forall i :: 0 <= i < |s| ==> r[i] == UpperChar(s[i])
  {
    seq(|s|, i requires 0 <= i < |s| => UpperChar(s[i]))
  }

  /** `String.lowercased()` */
  function Lower(s: string): (r: string)
    ensures |r| == |s| && forall i :: 0 <= i < |s| ==> r[i] == LowerChar(s[i])
  {
    seq(|s|, i requires 0 <= i < |s| => LowerChar(s[i]))
  }

  /** The text `uuidString` produces: the accepted form, in upper case. */
  predicate IsCanonical(s: string)
  {
    IsUuidText(s) && forall i :: 0 <= i < |s| ==> !('a' <= s[i] <= 'f')
  }

  type Uuid = s: string | IsCanonical(s) witness "00000000-0000-0000-0000-000000000000"

  /** `UUID(uuidString: s)?.uuidString` */
  function Parse(s: string): (r: Option<Uuid>)
    ensures r.Some? <==> IsUuidText(s)
    ensures r.Some? ==> r.value == Upper(s)
  {
    if IsUuidText(s) then
      var u := Upper(s);
      assert IsCanonical(u) by {
        forall i | 0 <= i < 36
          ensures (if IsDashAt(i) then u[i] == '-' else IsHexDigit(u[i])) && !('a' <= u[i] <= 'f')
        {
        }
      }
      var canonical: Uuid := u;
      Some(canonical)
    else None
  }

  /** `uuidString` parses back to the same UUID. */
  lemma ParseCanonical(u: Uuid)
    ensures Parse(u) == Some(u)
  {
    assert Upper(u) == u;
  }

  /** Lower-casing the text does not change the UUID it denotes. */
  lemma ParseLower(u: Uuid)
    ensures Parse(Lower(u)) == Some(u)
  {
    var l := Lower(u);
    assert IsUuidText(l) by {
      forall i | 0 <= i < 36
        ensures if IsDashAt(i) then l[i] == '-' else IsHexDigit(l[i])
      {
      }
    }
    assert Upper(l) == u;
  }

  /** The lower-cased text is a different string exactly when the UUID has a
      hexadecimal letter. */
  lemma LowerDiffers(u: Uuid)
    ensures Lower(u) != u <==> exists i :: 0 <= i < |u| && 'A' <= u[i] <= 'F'
  {
    if exists i :: 0 <= i < |u| && 'A' <= u[i] <= 'F' {
      var i :| 0 <= i < |u| && 'A' <= u[i] <= 'F';
      assert Lower(u)[i] != u[i];
    } else {
      assert Lower(u) == u;
    }
  }
}
