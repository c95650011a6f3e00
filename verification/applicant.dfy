/** The applicant attributes the calculator scores: one datatype per
    string-literal union of the calculator component (the second-language
    union has the same literals as `YesNo` and reuses it), each with the literal
    text the form uses for it (`Label`) and the inverse reading of that text
    (`Parse`).  `Rank` is the position of a value in the order the union
    declares it, which is also the order the form offers it in. */
module Applicant {

  datatype Option<T> = None | Some(value: T)

  /** Whether the principal applicant works in Canada or holds an LMIA offer. */
  datatype PrincipalCanadaWork = WorkingInCanada | LmiaJobOffer | NoJobOrLmia

  /** Highest completed credential, in the declared order of the union. */
  datatype Education =
    | NoEducation
    | Certificate
    | Diploma
    | Bachelors
    | TradeCertification
    | MastersOrPhd

  datatype YesNo = Yes | No

  /** The second-language answer is its own union with the same two literals. */
  type SecondLanguage = YesNo

  /** The coarse four-level language scale. */
  datatype LanguageScore = BelowAverage | Average | AboveAverage | Excellent

  /** The eight-level Canadian Language Benchmark scale. */
  datatype LanguageProficiency =
    | Clb3OrLess
    | Clb4
    | Clb5
    | Clb6
    | Clb7
    | Clb8
    | Clb9
    | Clb10Plus

  function EducationRank(e: Education): (k: nat)
    ensures k < 6
  {
    match e
    case NoEducation => 0
    case Certificate => 1
    case Diploma => 2
    case Bachelors => 3
    case TradeCertification => 4
    case MastersOrPhd => 5
  }

  function LanguageScoreRank(s: LanguageScore): (k: nat)
    ensures k < 4
  {
    match s
    case BelowAverage => 0
    case Average => 1
    case AboveAverage => 2
    case Excellent => 3
  }

  function ProficiencyRank(p: LanguageProficiency): (k: nat)
    ensures k < 8
  {
    match p
    case Clb3OrLess => 0
    case Clb4 => 1
    case Clb5 => 2
    case Clb6 => 3
    case Clb7 => 4
    case Clb8 => 5
    case Clb9 => 6
    case Clb10Plus => 7
  }

  // ---------------------------------------------------------------------
  // The literal text of each union member.

  function PrincipalCanadaWorkLabel(w: PrincipalCanadaWork): (s: string)
    ensures ParsePrincipalCanadaWork(s) == Some(w)
  {
    match w
    case WorkingInCanada => "Working in Canada"
    case LmiaJobOffer => "LMIA Job Offer"
    case NoJobOrLmia => "No Job or LMIA"
  }

  // The four long credential names, kept as named constants.
  const CertificateLabel: string := "Canadian certificate equivalent or a program lasting at least two semesters but less than two years"
  const DiplomaLabel: string := "Canadian diploma that's equivalent to studies lasting between two to less than three years"
  const BachelorsLabel: string := "Bachelor's degree OR a minimum of a three-year degree from a university or college"
  const MastersOrPhdLabel: string := "Master's or Doctorate(PhD) degree (Canadian equivalency)"

  function EducationLabel(e: Education): (s: string)
    ensures ParseEducation(s) == Some(e)
  {
    match e
    case NoEducation => "None"
    case Certificate => CertificateLabel
    case Diploma => DiplomaLabel
    case Bachelors => BachelorsLabel
    case TradeCertification => "Trade certification"
    case MastersOrPhd => MastersOrPhdLabel
  }

  function YesNoLabel(a: YesNo): (s: string)
    ensures ParseYesNo(s) == Some(a)
  {
    match a
    case Yes => "Yes"
    case No => "No"
  }

  function LanguageScoreLabel(score: LanguageScore): (s: string)
    ensures ParseLanguageScore(s) == Some(score)
  {
    match score
    case BelowAverage => "Below Average"
    case Average => "Average"
    case AboveAverage => "Above Average"
    case Excellent => "Excellent"
  }

  // The benchmark level names, kept as named constants.
  const Clb3OrLessLabel: string := "Less than high basic (CLB3-, IELTS 2.5-3)"
  const Clb4Label: string := "High basic (CLB4, IELTS 3.5)"
  const Clb5Label: string := "Initial intermediate (CLB5, IELTS 4-4.5)"
  const Clb6Label: string := "Developing intermediate (CLB6, IELTS 5-5.5)"
  const Clb7Label: string := "Adequate intermediate (CLB7, IELTS 6)"
  const Clb8Label: string := "High intermediate (CLB8, IELTS 6.5)"
  const Clb9Label: string := "Initial Advanced (CLB9, IELTS 7)"
  const Clb10PlusLabel: string := "Advanced (CLB10+, IELTS 8+)"

  function ProficiencyLabel(p: LanguageProficiency): (s: string)
    ensures ParseProficiency(s) == Some(p)
  {
    match p
    case Clb3OrLess => Clb3OrLessLabel
    case Clb4 => Clb4Label
    case Clb5 => Clb5Label
    case Clb6 => Clb6Label
    case Clb7 => Clb7Label
    case Clb8 => Clb8Label
    case Clb9 => Clb9Label
    case Clb10Plus => Clb10PlusLabel
  }

  // ---------------------------------------------------------------------
  // Reading a form value back: text outside the union reads as None.

  function ParsePrincipalCanadaWork(s: string): Option<PrincipalCanadaWork>
  {
    if s == "Working in Canada" then Some(WorkingInCanada)
    else if s == "LMIA Job Offer" then Some(LmiaJobOffer)
    else if s == "No Job or LMIA" then Some(NoJobOrLmia)
    else None
  }

  function ParseEducation(s: string): Option<Education>
  {
    if s == "None" then Some(NoEducation)
    else if s == CertificateLabel then Some(Certificate)
    else if s == DiplomaLabel then Some(Diploma)
    else if s == BachelorsLabel then Some(Bachelors)
    else if s == "Trade certification" then Some(TradeCertification)
    else if s == MastersOrPhdLabel then Some(MastersOrPhd)
    else None
  }

  function ParseYesNo(s: string): Option<YesNo>
  {
    if s == "Yes" then Some(Yes)
    else if s == "No" then Some(No)
    else None
  }

  function ParseLanguageScore(s: string): Option<LanguageScore>
  {
    if s == "Below Average" then Some(BelowAverage)
    else if s == "Average" then Some(Average)
    else if s == "Above Average" then Some(AboveAverage)
    else if s == "Excellent" then Some(Excellent)
    else None
  }

  function ParseProficiency(s: string): Option<LanguageProficiency>
  {
    if s == Clb3OrLessLabel then Some(Clb3OrLess)
    else if s == Clb4Label then Some(Clb4)
    else if s == Clb5Label then Some(Clb5)
    else if s == Clb6Label then Some(Clb6)
    else if s == Clb7Label then Some(Clb7)
    else if s == Clb8Label then Some(Clb8)
    else if s == Clb9Label then Some(Clb9)
    else if s == Clb10PlusLabel then Some(Clb10Plus)
    else None
  }

  /** Only a member's own literal reads as that member: together with each
      label's contract, Parse and Label are inverse bijections between the
      union's literals and its members. */
  lemma ParsePrincipalCanadaWorkSound(s: string)
    ensures ParsePrincipalCanadaWork(s).Some? ==> PrincipalCanadaWorkLabel(ParsePrincipalCanadaWork(s).value) == s
  {
  }

  lemma ParseEducationSound(s: string)
    ensures ParseEducation(s).Some? ==> EducationLabel(ParseEducation(s).value) == s
  {
  }

  lemma ParseYesNoSound(s: string)
    ensures ParseYesNo(s).Some? ==> YesNoLabel(ParseYesNo(s).value) == s
  {
  }

  lemma ParseLanguageScoreSound(s: string)
    ensures ParseLanguageScore(s).Some? ==> LanguageScoreLabel(ParseLanguageScore(s).value) == s
  {
  }

  lemma ParseProficiencySound(s: string)
    ensures ParseProficiency(s).Some? ==> ProficiencyLabel(ParseProficiency(s).value) == s
  {
  }
}
