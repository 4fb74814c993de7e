/** The string operations the exception messages are built from. */
module Text {

  /** `t` occurs as a contiguous piece of `s`. */
  ghost predicate OccursAt(t: string, s: string, i: nat) {
    i + |t| <= |s| && s[i..i + |t|] == t
  }

  ghost predicate IsInfix(t: string, s: string) {
    exists i: nat :: OccursAt(t, s, i)
  }

  lemma InfixOfConcat(a: string, t: string, b: string)
    ensures IsInfix(t, a + t + b)
  {
    assert (a + t + b)[|a|..|a| + |t|] == t;
    assert OccursAt(t, a + t + b, |a|);
  }

  /** Both pieces placed between three fixed texts occur in the result. */
  lemma InfixesOfJoin(p1: string, x: string, p2: string, y: string, p3: string)
    ensures IsInfix(x, p1 + x + p2 + y + p3) && IsInfix(y, p1 + x + p2 + y + p3)
  {
    assert p1 + x + p2 + y + p3 == p1 + x + (p2 + y + p3);
    InfixOfConcat(p1, x, p2 + y + p3);
    InfixOfConcat(p1 + x + p2, y, p3);
  }

  function DigitChar(d: nat): (c: char)
    requires d < 10
    ensures '0' <= c <= '9'
  {
    ['0', '1', '2', '3', '4', '5', '6', '7', '8', '9'][d]
  }

  function DigitValue(c: char): nat {
    if '0' <= c <= '9' then (c as int) - ('0' as int) else 0
  }

  /** The decimal form of `n`, as .NET formats an unsigned integer (no sign, no leading zeros). */
  function DecimalString(n: nat): (s: string)
    ensures |s| >= 1
    ensures forall k :: 0 <= k < |s| ==> '0' <= s[k] <= '9'
    ensures |s| > 1 ==> s[0] != '0'
    decreases n
  {
    if n < 10 then [DigitChar(n)] else DecimalString(n / 10) + [DigitChar(n % 10)]
  }

  /** Reads a string of decimal digits back as a number. */
  function ParseDecimal(s: string): nat
    decreases |s|
  {
    if s == [] then 0 else 10 * ParseDecimal(s[..|s| - 1]) + DigitValue(s[|s| - 1])
  }

  lemma DigitRoundTrip(d: nat)
    requires d < 10
    ensures DigitValue(DigitChar(d)) == d
  {
    var digits := ['0', '1', '2', '3', '4', '5', '6', '7', '8', '9'];
    assert DigitChar(d) == digits[d];
  }

  /** The decimal form loses nothing: parsing it gives the number back. */
  lemma {:induction false} DecimalRoundTrip(n: nat)
    ensures ParseDecimal(DecimalString(n)) == n
    decreases n
  {
    if n < 10 {
      DigitRoundTrip(n);
      assert [DigitChar(n)][..0] == [];
    } else {
      var s := DecimalString(n);
      assert s == DecimalString(n / 10) + [DigitChar(n % 10)];
      assert s[..|s| - 1] == DecimalString(n / 10);
      DecimalRoundTrip(n / 10);
      DigitRoundTrip(n % 10);
    }
  }

  /** Different numbers have different decimal forms. */
  lemma DecimalStringInjective(m: nat, n: nat)
    requires DecimalString(m) == DecimalString(n)
    ensures m == n
  {
    DecimalRoundTrip(m);
    DecimalRoundTrip(n);
  }
}
