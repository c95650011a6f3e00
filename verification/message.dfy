/** The two eligibility messages the calculator shows, with the total
    interpolated as a decimal numeral, and the reading of a message back into
    the verdict it reports. */
module Message {
  import opened Applicant
  import opened Eligibility

  // ---------------------------------------------------------------------
  // Decimal numerals

  predicate IsDigit(c: char)
  {
    '0' <= c <= '9'
  }

  predicate AllDigits(s: string)
  {
    forall i :: 0 <= i < |s| ==> IsDigit(s[i])
  }

  function DigitChar(d: nat): (c: char)
    requires d < 10
    ensures IsDigit(c) && c as int - '0' as int == d
  {
    ('0' as int + d) as char
  }

  /** The shortest decimal numeral of n, as a template literal renders a
      non-negative integer: digits only, and no leading zero unless n is 0. */
  function NatToString(n: nat): (s: string)
    ensures |s| > 0 && AllDigits(s)
    ensures s[0] == '0' ==> n == 0
    decreases n
  {
    if n < 10 then [DigitChar(n)]
    else NatToString(n / 10) + [DigitChar(n % 10)]
  }

  /** The value of a string of decimal digits, most significant first. */
  function ParseDigits(s: string): nat
    requires AllDigits(s)
    decreases |s|
  {
    if |s| == 0 then 0
    else ParseDigits(s[..|s| - 1]) * 10 + (s[|s| - 1] as int - '0' as int)
  }

  /** Rendering then reading a numeral gives back the number. */
  lemma {:induction false} ParseNatToString(n: nat)
    ensures ParseDigits(NatToString(n)) == n
    decreases n
  {
    var s := NatToString(n);
    if n >= 10 {
      var init := NatToString(n / 10);
      assert s[..|s| - 1] == init;
      ParseNatToString(n / 10);
    }
  }

  // ---------------------------------------------------------------------
  // The two messages

  const EligiblePrefix: string := "You have "
  const EligibleSuffix: string := " points so you are eligible."
  // Built from short pieces: the solver cannot index into one long literal,
  // and Render needs its fifth character to tell the two messages apart.
  const NotEligiblePrefix: string :=
    "You do not " + "have enough points " + "to be eligible. " + "You currently have "
  const NotEligibleSuffix: string := " points and you need 60 out of 110 points."

  /** The numeral between `prefix` and `suffix`, when m has that shape. */
  function Between(m: string, prefix: string, suffix: string): (r: Option<string>)
    ensures r.Some? ==> m == prefix + r.value + suffix && AllDigits(r.value) && |r.value| > 0
  {
    if |prefix| + |suffix| < |m|
       && m[..|prefix|] == prefix
       && m[|m| - |suffix|..] == suffix
       && AllDigits(m[|prefix|..|m| - |suffix|])
    then
      var middle := m[|prefix|..|m| - |suffix|];
      assert m == m[..|prefix|] + middle + m[|m| - |suffix|..];
      Some(middle)
    else None
  }

  /** Reads a shown message back into the verdict it reports. */
  function ReadMessage(m: string): Option<Verdict>
  {
    match Between(m, EligiblePrefix, EligibleSuffix)
    case Some(digits) => Some(Eligible(ParseDigits(digits)))
    case None =>
      match Between(m, NotEligiblePrefix, NotEligibleSuffix)
      case Some(digits) => Some(NotEligible(ParseDigits(digits)))
      case None => None
  }

  lemma BetweenOfConcat(prefix: string, middle: string, suffix: string)
    requires |middle| > 0 && AllDigits(middle)
    ensures Between(prefix + middle + suffix, prefix, suffix) == Some(middle)
  {
    var m := prefix + middle + suffix;
    assert m[..|prefix|] == prefix;
    assert m[|m| - |suffix|..] == suffix;
    assert m[|prefix|..|m| - |suffix|] == middle;
  }

  /** The two message templates with the total filled in.  Every message
      names its verdict and total unambiguously: it reads back as exactly the
      verdict it was rendered from. */
  function Render(v: Verdict): (m: string)
    ensures ReadMessage(m) == Some(v)
  {
    var digits := NatToString(v.total);
    ParseNatToString(v.total);
    match v
    case Eligible(total) =>
      BetweenOfConcat(EligiblePrefix, digits, EligibleSuffix);
      EligiblePrefix + digits + EligibleSuffix
    case NotEligible(total) =>
      var m := NotEligiblePrefix + digits + NotEligibleSuffix;
      assert m[..|EligiblePrefix|][4] == 'd' != EligiblePrefix[4];
      assert Between(m, EligiblePrefix, EligibleSuffix) == None;
      BetweenOfConcat(NotEligiblePrefix, digits, NotEligibleSuffix);
      m
  }

  /** The message shown for a profile. */
  function EligibilityMessage(p: Profile): (m: string)
    ensures ReadMessage(m) == Some(Evaluate(p))
  {
    Render(Evaluate(p))
  }

  /** The worked example's message. */
  lemma WorkedExampleMessage()
    ensures EligibilityMessage(Profile(25, 3, Bachelors, No, No, No, No, Clb7, No))
         == "You have 67 points so you are eligible."
  {
    var p := Profile(25, 3, Bachelors, No, No, No, No, Clb7, No);
    WorkedExampleEligible();
    assert NatToString(6) == "6";
    assert NatToString(67) == "67";
    assert EligibilityMessage(p) == Render(Eligible(67));
    assert Render(Eligible(67)) == "You have " + "67" + " points so you are eligible.";
    ExampleMessageText();
  }

  /** The eligible template with 67 filled in, spelled out. */
  lemma ExampleMessageText()
    ensures "You have " + "67" + " points so you are eligible." == "You have 67 points so you are eligible."
  {
  }
}
