/** Values shared by every part of the model: Java's nullable references as
    `Option`, the ASCII case folding behind `String.equalsIgnoreCase`, and the
    decimal rendering of `Integer.toString` with its reading back. */
module Common {

  /** A Java reference that may be `null`: `None` stands for `null`. */
  datatype Option<+T> = None | Some(value: T)

  /** Folds one ASCII upper-case letter to lower case and keeps every other character. */
  function LowerChar(c: char): (d: char)
    ensures !('A' <= d <= 'Z')
    ensures d != c ==> 'A' <= c <= 'Z' && d as int == c as int + 32
  {
    if 'A' <= c <= 'Z' then (c as int + 32) as char else c
  }

  /** Folds every character of `s` with `LowerChar`. */
  function Lower(s: string): (r: string)
    ensures |r| == |s|
    ensures forall i :: 0 <= i < |s| ==> r[i] == LowerChar(s[i])
  {
    seq(|s|, i requires 0 <= i < |s| => LowerChar(s[i]))
  }

  /** `String.equalsIgnoreCase` on ASCII: the folded strings are equal, which is the
      same as equal length and, position by position, characters that agree once folded. */
  function EqualsIgnoreCase(s: string, t: string): (eq: bool)
    ensures eq <==> |s| == |t| && forall i :: 0 <= i < |s| ==> LowerChar(s[i]) == LowerChar(t[i])
  {
    assert (|s| == |t| && forall i :: 0 <= i < |s| ==> LowerChar(s[i]) == LowerChar(t[i]))
           ==> Lower(s) == Lower(t) by {
      if |s| == |t| && forall i :: 0 <= i < |s| ==> LowerChar(s[i]) == LowerChar(t[i]) {
        assert forall i :: 0 <= i < |s| ==> Lower(s)[i] == Lower(t)[i];
      }
    }
    Lower(s) == Lower(t)
  }

  /** A string with no upper-case ASCII letter folds to itself. */
  lemma LowerOfFolded(s: string)
    requires forall i :: 0 <= i < |s| ==> !('A' <= s[i] <= 'Z')
    ensures Lower(s) == s
  {
  }

  /** Folding is idempotent. */
  lemma LowerIdempotent(s: string)
    ensures Lower(Lower(s)) == Lower(s)
  {
    LowerOfFolded(Lower(s));
  }

  predicate IsDigit(c: char) { '0' <= c <= '9' }

  predicate AllDigits(s: string) { forall i :: 0 <= i < |s| ==> IsDigit(s[i]) }

  function DigitChar(d: nat): (c: char)
    requires d < 10
    ensures IsDigit(c) && c as int - '0' as int == d
  {
    ('0' as int + d) as char
  }

  /** Decimal digits of `n`, most significant first, without leading zeros. */
  function NatToString(n: nat): (s: string)
    ensures |s| >= 1 && AllDigits(s)
    ensures s[0] == '0' ==> n == 0 && s == "0"
    decreases n
  {
    if n < 10 then [DigitChar(n)] else NatToString(n / 10) + [DigitChar(n % 10)]
  }

  /** The value of a string of decimal digits (the empty string reads as 0). */
  function DigitsValue(s: string): nat
    requires AllDigits(s)
  {
    if s == [] then 0 else DigitsValue(s[..|s| - 1]) * 10 + (s[|s| - 1] as int - '0' as int)
  }

  /** Reads an optionally signed decimal integer: an optional minus sign followed
      by at least one digit. Anything else is `None`. */
  function ParseInt(s: string): (r: Option<int>)
    ensures r.Some? <==> (|s| >= 1 && AllDigits(s)) || (|s| >= 2 && s[0] == '-' && AllDigits(s[1..]))
    ensures r.Some? && s[0] != '-' ==> r.value >= 0
    ensures r.Some? && s[0] == '-' ==> r.value <= 0
  {
    if |s| >= 2 && s[0] == '-' && AllDigits(s[1..]) then Some(0 - DigitsValue(s[1..]) as int)
    else if |s| >= 1 && AllDigits(s) then Some(DigitsValue(s))
    else None
  }

  lemma {:induction false} NatToStringValue(n: nat)
    ensures DigitsValue(NatToString(n)) == n
    decreases n
  {
    if n >= 10 {
      var s := NatToString(n);
      NatToStringValue(n / 10);
      assert s[..|s| - 1] == NatToString(n / 10);
    }
  }

  /** `Integer.toString`: a minus sign for negative values, then the digits, with no
      leading zero. Reading the text back gives the original integer, and no other
      text of that shape reads back as it. */
  function IntToString(n: int): (s: string)
    ensures |s| >= 1 && (s[0] == '-' <==> n < 0)
    ensures s[0] == '0' ==> s == "0"
    ensures s[0] == '-' ==> |s| >= 2 && s[1] != '0'
    ensures ParseInt(s) == Some(n)
  {
    if n < 0 then
      var digits := NatToString(-n);
      NatToStringValue(-n);
      assert ("-" + digits)[1..] == digits;
      assert ("-" + digits)[1] == digits[0];
      "-" + digits
    else
      var digits := NatToString(n);
      assert IsDigit(digits[0]);
      NatToStringValue(n);
      digits
  }
}
