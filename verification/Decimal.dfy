/** Decimal printing and parsing of natural numbers, as text. */
module Decimal {
  function Digit(n: nat): char
    requires n < 10
  {
    "0123456789"[n]
  }

  predicate IsDigit(c: char) {
    '0' <= c <= '9'
  }

  function ValueOf(c: char): nat
    requires IsDigit(c)
  {
    c as int - '0' as int
  }

  predicate AllDigits(s: string) {
    s != [] && forall i :: 0 <= i < |s| ==> IsDigit(s[i])
  }

  function Print(n: nat): (s: string)
    ensures AllDigits(s)
  {
    if n < 10 then [Digit(n)] else Print(n / 10) + [Digit(n % 10)]
  }

  function Parse(s: string): nat
    requires AllDigits(s)
  {
    if |s| == 1 then ValueOf(s[0]) else 10 * Parse(s[..|s| - 1]) + ValueOf(s[|s| - 1])
  }

  lemma DigitValue(n: nat)
    requires n < 10
    ensures IsDigit(Digit(n)) && ValueOf(Digit(n)) == n
  {
  }

  /** Parsing undoes printing, so printing is injective. */
  lemma {:induction false} ParsePrint(n: nat)
    ensures Parse(Print(n)) == n
  {
    DigitValue(n % 10);
    if n >= 10 {
      ParsePrint(n / 10);
      var s := Print(n);
      assert s[..|s| - 1] == Print(n / 10);
    }
  }

  /** Printing undoes parsing exactly on texts without superfluous leading zeros. */
  lemma {:induction false} PrintParse(s: string)
    requires AllDigits(s)
    ensures Print(Parse(s)) == s <==> |s| == 1 || s[0] != '0'
    ensures |s| > 1 && s[0] != '0' ==> Parse(s) >= 10
  {
    var last := ValueOf(s[|s| - 1]);
    assert Digit(last) == s[|s| - 1];
    if |s| > 1 {
      var init := s[..|s| - 1];
      PrintParse(init);
      var p := Parse(init);
      assert Parse(s) / 10 == p && Parse(s) % 10 == last;
      if s[0] != '0' {
        assert p >= 1;
        assert s == init + [s[|s| - 1]];
      } else {
        LeadingZeroShrinks(s);
      }
    }
  }

  /** A text with a leading zero is longer than the print of its value. */
  lemma {:induction false} LeadingZeroShrinks(s: string)
    requires AllDigits(s) && |s| > 1 && s[0] == '0'
    ensures |Print(Parse(s))| < |s|
  {
    var init, last := s[..|s| - 1], ValueOf(s[|s| - 1]);
    var p := Parse(init);
    assert Parse(s) / 10 == p && Parse(s) % 10 == last;
    if |init| > 1 {
      LeadingZeroShrinks(init);
    } else {
      assert p == 0;
    }
  }
}
