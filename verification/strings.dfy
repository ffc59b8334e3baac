/** String helpers shared by the request builder, the normaliser and the tool layer. */
module Strings {

  /** JavaScript's `Array.prototype.join(sep)`: the elements in order, `sep` between neighbours. */
  function Join(xs: seq<string>, sep: string): string
    decreases |xs|
  {
    if |xs| == 0 then ""
    else if |xs| == 1 then xs[0]
    else Join(xs[..|xs| - 1], sep) + sep + xs[|xs| - 1]
  }

  /** Joining non-empty strings yields the empty string only for the empty list. */
  lemma {:induction false} JoinEmptyIff(xs: seq<string>, sep: string)
    requires forall i :: 0 <= i < |xs| ==> xs[i] != ""
    ensures Join(xs, sep) == "" <==> xs == []
    decreases |xs|
  {
    if |xs| > 1 {
      JoinEmptyIff(xs[..|xs| - 1], sep);
    }
  }

  /** A four-element join, written out. */
  lemma JoinFour(xs: seq<string>, sep: string)
    requires |xs| == 4
    ensures Join(xs, sep) == xs[0] + sep + xs[1] + sep + xs[2] + sep + xs[3]
  {
    assert xs[..3][..2] == xs[..2] && xs[..2][..1] == xs[..1];
    assert Join(xs[..2], sep) == xs[0] + sep + xs[1];
    assert Join(xs[..3], sep) == xs[0] + sep + xs[1] + sep + xs[2];
  }

  /** `sub` occurs in `s` starting at index `i`. */
  predicate OccursAt(s: string, sub: string, i: nat)
  {
    i + |sub| <= |s| && s[i..i + |sub|] == sub
  }

  /** JavaScript's `String.prototype.includes(sub)`. */
  predicate Contains(s: string, sub: string)
  {
    exists i: nat | i <= |s| :: OccursAt(s, sub, i)
  }

  /** Whatever contains `sub + ext` contains `sub`. */
  lemma ContainsPrefixOf(s: string, sub: string, ext: string)
    requires Contains(s, sub + ext)
    ensures Contains(s, sub)
  {
    var i: nat :| i <= |s| && OccursAt(s, sub + ext, i);
    assert s[i..i + |sub|] == (sub + ext)[..|sub|] == sub;
    assert OccursAt(s, sub, i);
  }

  /** The character of a decimal digit. */
  function DigitChar(d: nat): (c: char)
    requires d < 10
    ensures '0' <= c <= '9'
  {
    ('0' as int + d) as char
  }

  /** How JavaScript prints a non-negative integer: decimal digits, no leading zeros. */
  function DecimalString(n: nat): (s: string)
    ensures |s| > 0
    ensures forall i :: 0 <= i < |s| ==> '0' <= s[i] <= '9'
    ensures |s| > 1 ==> s[0] != '0'
    decreases n
  {
    if n < 10 then [DigitChar(n)] else DecimalString(n / 10) + [DigitChar(n % 10)]
  }

  /** The value of a string of decimal digits. */
  function DecimalValue(s: string): nat
    requires forall i :: 0 <= i < |s| ==> '0' <= s[i] <= '9'
    decreases |s|
  {
    if s == [] then 0 else 10 * DecimalValue(s[..|s| - 1]) + (s[|s| - 1] as int - '0' as int)
  }

  /** Printing a status code loses nothing: reading the digits back gives the number. */
  lemma {:induction false} DecimalRoundTrip(n: nat)
    ensures DecimalValue(DecimalString(n)) == n
    decreases n
  {
    var s := DecimalString(n);
    if n >= 10 {
      DecimalRoundTrip(n / 10);
      assert s[..|s| - 1] == DecimalString(n / 10);
    }
  }
}
