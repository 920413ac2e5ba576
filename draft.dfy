/** The integer answer field: which texts the input keeps as its draft, and the number a
    committed draft stands for. */
module IntegerDraft {

  predicate IsDigit(c: char) {
    '0' <= c <= '9'
  }

  predicate IsDigits(s: string) {
    |s| > 0 && forall i :: 0 <= i < |s| ==> IsDigit(s[i])
  }

  /** The pattern /^-?\d+$/: an optional minus sign, then one or more ASCII digits. */
  predicate IsIntegerText(s: string) {
    IsDigits(s) || (|s| > 1 && s[0] == '-' && IsDigits(s[1..]))
  }

  /** Whether the change handler keeps a new text as the draft: the empty text, or an integer. */
  predicate DraftAccepted(s: string) {
    s == "" || IsIntegerText(s)
  }

  /** The accepted drafts read character by character: every character is a digit, except
      that the first may be a minus sign, and a lone minus sign is refused. */
  lemma DraftAcceptedChars(s: string)
    ensures DraftAccepted(s) <==>
            s == "" || (s != "-" && forall i :: 0 <= i < |s| ==> IsDigit(s[i]) || (i == 0 && s[i] == '-'))
  {
    if s != "" && s[0] == '-' {
      assert forall i :: 1 <= i < |s| ==> s[1..][i - 1] == s[i];
    }
  }

  function DigitValue(c: char): (d: nat)
    requires IsDigit(c)
    ensures d < 10
  {
    (c as int) - ('0' as int)
  }

  function DigitChar(d: nat): (c: char)
    requires d < 10
    ensures IsDigit(c) && DigitValue(c) == d
  {
    ('0' as int + d) as char
  }

  /** The decimal value of a digit string, most significant digit first. */
  function DigitsValue(s: string): nat
    requires IsDigits(s)
    decreases |s|
  {
    if |s| == 1 then DigitValue(s[0])
    else DigitsValue(s[..|s| - 1]) * 10 + DigitValue(s[|s| - 1])
  }

  /** parseInt(text, 10) on a text the draft accepts. */
  function ParseInt(s: string): (r: int)
    requires IsIntegerText(s)
    ensures r < 0 ==> s[0] == '-'
    ensures IsDigits(s) ==> r >= 0
  {
    if s[0] == '-' then -(DigitsValue(s[1..]) as int) else DigitsValue(s)
  }

  /** The decimal digits of a natural number, without leading zeros. */
  function NatText(n: nat): (s: string)
    ensures IsDigits(s)
    ensures n > 0 ==> s[0] != '0'
    decreases n
  {
    if n < 10 then [DigitChar(n)] else NatText(n / 10) + [DigitChar(n % 10)]
  }

  /** The text a locked integer field shows for a committed number. */
  function IntText(n: int): (s: string)
    ensures IsIntegerText(s)
    ensures (s[0] == '-') <==> n < 0
  {
    if n < 0 then
      var digits := NatText(-n);
      assert ("-" + digits)[1..] == digits;
      "-" + digits
    else NatText(n)
  }

  lemma {:induction false} NatTextValue(n: nat)
    ensures DigitsValue(NatText(n)) == n
    decreases n
  {
    if n >= 10 {
      var s := NatText(n);
      assert s[..|s| - 1] == NatText(n / 10);
      NatTextValue(n / 10);
    }
  }

  /** Every number is the value of a text the draft accepts: the text the locked field shows
      parses back to the committed number. */
  lemma IntTextRoundTrip(n: int)
    ensures DraftAccepted(IntText(n))
    ensures ParseInt(IntText(n)) == n
  {
    if n < 0 {
      NatTextValue(-n);
      assert IntText(n)[1..] == NatText(-n);
    } else {
      NatTextValue(n);
    }
  }

  /** A digit string is canonical when it has no superfluous leading zero; an integer text is
      canonical when its digits are and it is not "-0". */
  predicate CanonicalDigits(d: string) {
    IsDigits(d) && (|d| > 1 ==> d[0] != '0')
  }

  predicate CanonicalIntText(s: string) {
    IsIntegerText(s) &&
    (if s[0] == '-' then CanonicalDigits(s[1..]) && s[1..] != "0" else CanonicalDigits(s))
  }

  lemma {:induction false} LeadingDigitPositive(d: string)
    requires IsDigits(d) && d[0] != '0'
    ensures DigitsValue(d) > 0
    decreases |d|
  {
    if |d| > 1 {
      var prefix := d[..|d| - 1];
      assert prefix[0] == d[0];
      LeadingDigitPositive(prefix);
    }
  }

  lemma {:induction false} CanonicalDigitsText(d: string)
    requires CanonicalDigits(d)
    ensures NatText(DigitsValue(d)) == d
    decreases |d|
  {
    if |d| > 1 {
      var prefix := d[..|d| - 1];
      assert prefix[0] == d[0];
      LeadingDigitPositive(prefix);
      CanonicalDigitsText(prefix);
      var v := DigitsValue(d);
      assert v / 10 == DigitsValue(prefix) && v % 10 == DigitValue(d[|d| - 1]);
      assert DigitChar(v % 10) == d[|d| - 1];
      assert d == prefix + [d[|d| - 1]];
    } else {
      assert DigitChar(DigitValue(d[0])) == d[0];
    }
  }

  /** The other way round: a canonical draft is exactly the text of the number it parses to,
      so parsing loses nothing but leading zeros and the sign of zero. */
  lemma ParseIntText(s: string)
    requires CanonicalIntText(s)
    ensures IntText(ParseInt(s)) == s
  {
    if s[0] == '-' {
      var d := s[1..];
      CanonicalDigitsText(d);
      LeadingDigitPositive(d);
      assert s == "-" + d;
    } else {
      CanonicalDigitsText(s);
    }
  }
}
