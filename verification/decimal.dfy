/**
 * Decimal rendering of natural numbers, as Python's f-strings print them
 * (`f"{n}"`), and the parser that reads such text back.
 */
module Decimal {
  import opened Common

  predicate IsDigit(c: char) {
    '0' <= c <= '9'
  }

  predicate AllDigits(s: string) {
    forall i :: 0 <= i < |s| ==> IsDigit(s[i])
  }

  function DigitValue(c: char): nat
    requires IsDigit(c)
  {
    c as int - '0' as int
  }

  function DigitChar(d: nat): (c: char)
    requires d < 10
    ensures IsDigit(c) && DigitValue(c) == d
  {
    (d + '0' as int) as char
  }

  /** A non-empty digit string without a leading zero, unless it is "0" itself. */
  predicate Canonical(s: string) {
    |s| > 0 && AllDigits(s) && (s[0] == '0' ==> |s| == 1)
  }

  /** The decimal text of `n`: only digits, at least one, no leading zero except for 0 itself. */
  function Show(n: nat): (s: string)
    ensures Canonical(s)
    ensures s[0] == '0' <==> n == 0
    ensures n == 0 ==> s == "0"
  {
    if n < 10 then [DigitChar(n)] else Show(n / 10) + [DigitChar(n % 10)]
  }

  /** The number a string of digits denotes, most significant digit first. */
  function Value(s: string): nat
    requires AllDigits(s)
  {
    if |s| == 0 then 0 else 10 * Value(s[..|s| - 1]) + DigitValue(s[|s| - 1])
  }

  /** Reading back the rendering of `n` gives `n`. */
  lemma {:induction false} ValueOfShow(n: nat)
    ensures Value(Show(n)) == n
  {
    var s := Show(n);
    if n < 10 {
      assert s[..|s| - 1] == [];
    } else {
      assert s[..|s| - 1] == Show(n / 10);
      ValueOfShow(n / 10);
    }
  }

  /** A digit string whose first digit is not zero denotes a positive number. */
  lemma {:induction false} ValuePositive(s: string)
    requires |s| > 0 && AllDigits(s) && s[0] != '0'
    ensures Value(s) > 0
  {
    if |s| > 1 {
      ValuePositive(s[..|s| - 1]);
    }
  }

  /** Rendering the number a canonical digit string denotes gives that string back. */
  lemma {:induction false} ShowOfValue(s: string)
    requires Canonical(s)
    ensures Show(Value(s)) == s
  {
    var init := s[..|s| - 1];
    var last := s[|s| - 1];
    assert DigitChar(DigitValue(last)) == last;
    if |s| == 1 {
      assert s == [last];
    } else {
      ValuePositive(init);
      ShowOfValue(init);
      assert s == init + [last];
    }
  }

  /**
   * Reads the number in a text of the form `prefix + digits + suffix`, where
   * the digits are written as `Show` writes them; None for any other text.
   */
  function ParseFramed(prefix: string, suffix: string, t: string): Option<nat> {
    if |t| < |prefix| + |suffix| then None
    else if t[..|prefix|] != prefix || t[|t| - |suffix|..] != suffix then None
    else
      var digits := t[|prefix|..|t| - |suffix|];
      if Canonical(digits) then Some(Value(digits)) else None
  }

  /** Every number framed by a fixed prefix and suffix parses back to itself. */
  lemma FramedRoundTrip(prefix: string, n: nat, suffix: string)
    ensures ParseFramed(prefix, suffix, prefix + Show(n) + suffix) == Some(n)
  {
    var t := prefix + Show(n) + suffix;
    assert t[..|prefix|] == prefix;
    assert t[|t| - |suffix|..] == suffix;
    assert t[|prefix|..|t| - |suffix|] == Show(n);
    ValueOfShow(n);
  }

  /** A text that parses to `n` is exactly `n` rendered between the prefix and the suffix. */
  lemma FramedParseExact(prefix: string, suffix: string, t: string, n: nat)
    requires ParseFramed(prefix, suffix, t) == Some(n)
    ensures t == prefix + Show(n) + suffix
  {
    var digits := t[|prefix|..|t| - |suffix|];
    ShowOfValue(digits);
    assert t == t[..|prefix|] + digits + t[|t| - |suffix|..];
  }
}
