/**
 The text form in which an invoice snapshot stores its numbers.

 Amounts are whole cents and instants whole microseconds, both integers, so one
 signed decimal numeral serves both.  The point is the round trip: reading back
 what was written gives the number that was written, for every integer.
 */
module SnapshotText {
  import opened Common

  function DigitChar(d: nat): char
    requires d < 10
  {
    (('0' as int) + d) as char
  }

  function DigitValue(c: char): (d: Option<nat>)
    ensures d.Some? ==> d.value < 10
  {
    if '0' <= c <= '9' then Some((c as int) - ('0' as int)) else None
  }

  function NatText(n: nat): (s: string)
    ensures |s| > 0 && s[0] != '-'
  {
    if n < 10 then [DigitChar(n)] else NatText(n / 10) + [DigitChar(n % 10)]
  }

  function ParseNat(s: string): Option<nat>
  {
    if s == [] then None
    else if |s| == 1 then DigitValue(s[0])
    else
      match (ParseNat(s[..|s| - 1]), DigitValue(s[|s| - 1]))
      case (Some(front), Some(last)) => Some(10 * front + last)
      case _ => None
  }

  /** `str(...)` of a number. */
  function IntText(n: int): (s: string)
    ensures s != []
  {
    if n < 0 then "-" + NatText(-n) else NatText(n)
  }

  /** `Decimal(...)` or `fromisoformat(...)` of stored text; None is the exception a malformed text raises. */
  function ParseInt(s: string): Option<int>
  {
    if s == [] then None
    else if s[0] == '-' then
      match ParseNat(s[1..])
      case Some(n) => Some(0 - n)
      case None => None
    else
      match ParseNat(s)
      case Some(n) => Some(n)
      case None => None
  }

  lemma {:induction false} NatTextRoundTrip(n: nat)
    ensures ParseNat(NatText(n)) == Some(n)
  {
    if n >= 10 {
      NatTextRoundTrip(n / 10);
      var s := NatText(n);
      assert s[..|s| - 1] == NatText(n / 10);
      assert |s| > 1;
    }
  }

  lemma ParseSigned(digits: string, n: nat)
    requires ParseNat(digits) == Some(n)
    ensures ParseInt("-" + digits) == Some(0 - n)
  {
    assert ("-" + digits)[1..] == digits;
  }

  lemma ParseUnsigned(digits: string, n: nat)
    requires digits != [] && digits[0] != '-' && ParseNat(digits) == Some(n)
    ensures ParseInt(digits) == Some(n)
  {
  }

  lemma IntTextRoundTrip(n: int)
    ensures ParseInt(IntText(n)) == Some(n)
  {
    if n < 0 {
      NatTextRoundTrip(-n);
      ParseSigned(NatText(-n), -n);
    } else {
      NatTextRoundTrip(n);
      ParseUnsigned(NatText(n), n);
    }
  }
}
