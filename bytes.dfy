/**
 * Byte strings. Go strings are sequences of bytes: lengths, slices and
 * comparisons in webhook.go all work on bytes, so the model does too.
 */
module Bytes {

  newtype byte = b: int | 0 <= b < 256

  type Bytes = seq<byte>

  /** The bytes of a string literal of the model (all of them are ASCII). */
  function FromString(s: string): (r: Bytes)
    ensures |r| == |s|
    ensures forall k :: 0 <= k < |s| && s[k] as int < 256 ==> r[k] as int == s[k] as int
  {
    seq(|s|, k requires 0 <= k < |s| => (s[k] as int % 256) as byte)
  }

  // ---------------------------------------------------------------------
  // Case folding, as strings.EqualFold does it on ASCII letters
  // ---------------------------------------------------------------------

  /** Maps 'A'..'Z' to 'a'..'z' and leaves every other byte alone. */
  function LowerByte(b: byte): byte
  {
    if 'A' as int <= b as int <= 'Z' as int then b + 32 else b
  }

  /** The byte string with every ASCII upper-case letter lowered. */
  function Lower(s: Bytes): (r: Bytes)
    ensures |r| == |s|
    ensures forall k :: 0 <= k < |s| ==> r[k] == LowerByte(s[k])
  {
    if s == [] then [] else [LowerByte(s[0])] + Lower(s[1..])
  }

  /**
   * Case-insensitive equality, walking both strings byte by byte as
   * strings.EqualFold does; it agrees with comparing the lowered strings.
   */
  function EqualFold(a: Bytes, b: Bytes): (r: bool)
    ensures r <==> Lower(a) == Lower(b)
  {
    if a == [] || b == [] then a == b
    else
      var head := LowerByte(a[0]) == LowerByte(b[0]);
      var tail := EqualFold(a[1..], b[1..]);
      assert Lower(a) == [LowerByte(a[0])] + Lower(a[1..]);
      assert Lower(b) == [LowerByte(b[0])] + Lower(b[1..]);
      assert Lower(a) == Lower(b) ==> Lower(a)[0] == Lower(b)[0] && Lower(a)[1..] == Lower(b)[1..];
      head && tail
  }

  // ---------------------------------------------------------------------
  // Decimal formatting, as fmt's %d verb does it for a non-negative int
  // ---------------------------------------------------------------------

  predicate IsDigit(b: byte)
  {
    '0' as int <= b as int <= '9' as int
  }

  function DigitByte(d: nat): (b: byte)
    requires d < 10
    ensures IsDigit(b)
  {
    ('0' as int + d) as byte
  }

  /** The decimal digits of n, most significant first, without leading zeros. */
  function Decimal(n: nat): (r: Bytes)
    ensures |r| >= 1
    ensures forall k :: 0 <= k < |r| ==> IsDigit(r[k])
    ensures |r| > 1 ==> r[0] != '0' as int as byte
  {
    if n < 10 then [DigitByte(n)] else Decimal(n / 10) + [DigitByte(n % 10)]
  }

  /** Reads a string of decimal digits back as a number: the inverse of Decimal. */
  function ParseDecimal(s: Bytes): nat
    requires forall k :: 0 <= k < |s| ==> IsDigit(s[k])
  {
    if s == [] then 0
    else
      assert IsDigit(s[|s| - 1]);
      ParseDecimal(s[..|s| - 1]) * 10 + (s[|s| - 1] as int - '0' as int)
  }

  lemma {:induction false} DecimalRoundTrip(n: nat)
    ensures ParseDecimal(Decimal(n)) == n
  {
    if n >= 10 {
      var front := Decimal(n / 10);
      assert (front + [DigitByte(n % 10)])[..|front|] == front;
      DecimalRoundTrip(n / 10);
    }
  }

  /** Different numbers have different decimal forms. */
  lemma DecimalInjective(m: nat, n: nat)
    requires m != n
    ensures Decimal(m) != Decimal(n)
  {
    DecimalRoundTrip(m);
    DecimalRoundTrip(n);
  }
}
