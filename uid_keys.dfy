/**
 The key under which a storage delivery is counted: `uid.toString()`. The
 handler documents `uid` as a number, whose text is its decimal digits; the
 statistics dialog reads these keys back as "uid,shape" pairs, which is what
 a string argument would give, since a string's text is itself. Both kinds of
 argument are modelled. Two different numeric uids never share a key, which
 the parse round trip below shows.
 */
module UidKeys {

  predicate IsDigit(c: char)
  {
    '0' <= c <= '9'
  }

  function DigitChar(d: nat): (c: char)
    requires d < 10
    ensures IsDigit(c)
  {
    ('0' as int + d) as char
  }

  function DigitValue(c: char): (d: nat)
    requires IsDigit(c)
    ensures d < 10
  {
    c as int - '0' as int
  }

  /** The decimal text of `n`, most significant digit first, no leading zeros. */
  function DecimalString(n: nat): (s: string)
    ensures |s| >= 1
    decreases n
  {
    if n < 10 then [DigitChar(n)] else DecimalString(n / 10) + [DigitChar(n % 10)]
  }

  predicate AllDigits(s: string)
  {
    forall i :: 0 <= i < |s| ==> IsDigit(s[i])
  }

  /** Reads decimal text back as a number. */
  function ParseDecimal(s: string): (r: nat)
    requires AllDigits(s)
    decreases |s|
  {
    if s == [] then 0 else 10 * ParseDecimal(s[..|s| - 1]) + DigitValue(s[|s| - 1])
  }

  /** Parsing the decimal text of `n` gives `n` back. */
  lemma {:induction false} DecimalRoundTrip(n: nat)
    ensures AllDigits(DecimalString(n))
    ensures ParseDecimal(DecimalString(n)) == n
    decreases n
  {
    if n >= 10 {
      DecimalRoundTrip(n / 10);
      var s := DecimalString(n);
      assert s[..|s| - 1] == DecimalString(n / 10);
    }
  }

  /** Distinct uids are counted under distinct keys. */
  lemma DecimalStringInjective(a: nat, b: nat)
    requires a != b
    ensures DecimalString(a) != DecimalString(b)
  {
    DecimalRoundTrip(a);
    DecimalRoundTrip(b);
  }

  /** What the handler is given as `uid`: a number, or text composed by the caller. */
  datatype Uid = NumericUid(n: nat) | TextUid(text: string)

  /**
   The text `toString` gives: decimal digits that parse back to a numeric uid,
   and the text itself for a string.
   */
  function KeyOf(uid: Uid): (key: string)
    ensures uid.NumericUid? ==> AllDigits(key) && ParseDecimal(key) == uid.n
    ensures uid.TextUid? ==> key == uid.text
  {
    match uid
    case NumericUid(n) =>
      DecimalRoundTrip(n);
      DecimalString(n)
    case TextUid(text) => text
  }
}
