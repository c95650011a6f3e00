/** The scoring half of the calculator's submit handler: the form's current
    answers, the six sub-scores that are totalled, and the verdict against the
    fixed cutoff of 60 points. */
module Eligibility {
  import opened Applicant
  import opened Points

  /** The form state the submit handler reads.  The four adaptability answers
      keep the component's names; `languageScore` holds a benchmark level. */
  datatype Profile = Profile(
    age: int,
    workYears: int,
    education: Education,
    principalCanadaWork: YesNo,
    principalPreviousStudy: YesNo,
    previousSaskatchewanWork: YesNo,
    saskatchewanRelative: YesNo,
    languageScore: LanguageProficiency,
    secondLanguage: SecondLanguage)

  /** The points of each totalled category for one evaluation. */
  datatype Breakdown = Breakdown(
    age: nat,
    workYears: nat,
    education: nat,
    adaptability: nat,
    language: nat,
    secondLanguage: nat)
  {
    function Total(): nat
    {
      age + workYears + education + adaptability + language + secondLanguage
    }
  }

  /** The outcome of one evaluation, carrying the final total. */
  datatype Verdict = Eligible(total: nat) | NotEligible(total: nat)

  /** The pass mark of the program. */
  const Cutoff: nat := 60

  /** The highest total any profile can reach: 12 + 15 + 23 + 30 + 24 + 4. */
  const MaxTotal: nat := 108

  /** The six sub-scores the handler adds up.  The work-experience status and
      the four-level language score are not among them. */
  function Score(p: Profile): (b: Breakdown)
    ensures b.age <= 12 && b.workYears <= 15 && b.education <= 23
    ensures b.adaptability <= 30 && b.language <= 24 && b.secondLanguage <= 4
    ensures b.Total() <= MaxTotal
  {
    Breakdown(
      AgePoints(p.age),
      WorkYearsPoints(p.workYears),
      EducationPoints(p.education),
      AdaptabilityPoints(p.principalCanadaWork, p.principalPreviousStudy,
                         p.previousSaskatchewanWork, p.saskatchewanRelative),
      ProficiencyPoints(p.languageScore),
      SecondLanguagePoints(p.secondLanguage))
  }

  /** The threshold test: below the cutoff is not eligible, anything else is. */
  function Decide(total: nat): (v: Verdict)
    ensures v.total == total
    ensures v.Eligible? <==> Cutoff <= total
  {
    if total < 60 then NotEligible(total) else Eligible(total)
  }

  /** One press of the calculate button. */
  function Evaluate(p: Profile): (v: Verdict)
    ensures v.total == Score(p).Total() && v.total <= MaxTotal
    ensures v.Eligible? <==> Cutoff <= Score(p).Total()
  {
    Decide(Score(p).Total())
  }

  /** The final total is exactly age + work years + education + adaptability +
      benchmark language + second language. */
  lemma TotalOfSixSubScores(p: Profile)
    ensures Evaluate(p).total
         == AgePoints(p.age) + WorkYearsPoints(p.workYears) + EducationPoints(p.education)
          + AdaptabilityPoints(p.principalCanadaWork, p.principalPreviousStudy,
                               p.previousSaskatchewanWork, p.saskatchewanRelative)
          + ProficiencyPoints(p.languageScore) + SecondLanguagePoints(p.secondLanguage)
  {
  }

  /** A profile reaches the maximum exactly when every totalled category is at
      its own maximum. */
  lemma MaximumTotalExactly(p: Profile)
    ensures Evaluate(p).total == MaxTotal <==>
      && 22 <= p.age <= 34
      && 5 < p.workYears
      && p.education == MastersOrPhd
      && (p.principalCanadaWork == Yes
          || (p.principalPreviousStudy == Yes && p.previousSaskatchewanWork == Yes
              && p.saskatchewanRelative == Yes))
      && 3 <= ProficiencyRank(p.languageScore)
      && p.secondLanguage == Yes
  {
  }

  /** The lower end of the range [0, MaxTotal] is reached: the form's
      initial state scores nothing. */
  lemma MinimumTotalReached()
    ensures Evaluate(Profile(0, 0, NoEducation, No, No, No, No, Clb3OrLess, No)) == NotEligible(0)
  {
    var p := Profile(0, 0, NoEducation, No, No, No, No, Clb3OrLess, No);
    assert Score(p) == Breakdown(0, 0, 0, 0, 0, 0);
  }

  /** The upper end of the range [0, MaxTotal] is reached. */
  lemma MaximumTotalReached()
    ensures Evaluate(Profile(30, 6, MastersOrPhd, Yes, No, No, No, Clb10Plus, Yes)) == Eligible(MaxTotal)
  {
    var p := Profile(30, 6, MastersOrPhd, Yes, No, No, No, Clb10Plus, Yes);
    assert Score(p) == Breakdown(12, 15, 23, 30, 24, 4);
  }

  /** More years of work never lower the total, so never cost eligibility. */
  lemma MoreWorkYearsNeverHurt(p: Profile, years: int)
    requires p.workYears <= years
    ensures Evaluate(p).total <= Evaluate(p.(workYears := years)).total
    ensures Evaluate(p).Eligible? ==> Evaluate(p.(workYears := years)).Eligible?
  {
    WorkYearsMonotone(p.workYears, years);
  }

  /** A higher benchmark level never lowers the total. */
  lemma BetterLanguageNeverHurts(p: Profile, level: LanguageProficiency)
    requires ProficiencyRank(p.languageScore) <= ProficiencyRank(level)
    ensures Evaluate(p).total <= Evaluate(p.(languageScore := level)).total
    ensures Evaluate(p).Eligible? ==> Evaluate(p.(languageScore := level)).Eligible?
  {
    ProficiencyMonotone(p.languageScore, level);
  }

  /** A credential later in the declared order never lowers the total. */
  lemma HigherEducationNeverHurts(p: Profile, education: Education)
    requires EducationRank(p.education) <= EducationRank(education)
    ensures Evaluate(p).total <= Evaluate(p.(education := education)).total
    ensures Evaluate(p).Eligible? ==> Evaluate(p.(education := education)).Eligible?
  {
    EducationMonotone(p.education, education);
  }

  /** A second official language never lowers the total. */
  lemma SecondLanguageNeverHurts(p: Profile)
    ensures Evaluate(p).total <= Evaluate(p.(secondLanguage := Yes)).total
    ensures Evaluate(p).Eligible? ==> Evaluate(p.(secondLanguage := Yes)).Eligible?
    ensures p.secondLanguage == No ==> Evaluate(p.(secondLanguage := Yes)).total == Evaluate(p).total + 4
  {
  }

  /** Answering "Yes" to more adaptability questions never lowers the total. */
  lemma MoreAdaptabilityNeverHurts(p: Profile, jobOffer: YesNo, previousStudy: YesNo, previousWork: YesNo, relative: YesNo)
    requires Flag(p.principalCanadaWork) <= Flag(jobOffer) && Flag(p.principalPreviousStudy) <= Flag(previousStudy)
    requires Flag(p.previousSaskatchewanWork) <= Flag(previousWork) && Flag(p.saskatchewanRelative) <= Flag(relative)
    ensures var q := p.(principalCanadaWork := jobOffer, principalPreviousStudy := previousStudy,
                        previousSaskatchewanWork := previousWork, saskatchewanRelative := relative);
            Evaluate(p).total <= Evaluate(q).total && (Evaluate(p).Eligible? ==> Evaluate(q).Eligible?)
  {
    AdaptabilityMonotone(p.principalCanadaWork, p.principalPreviousStudy, p.previousSaskatchewanWork,
                         p.saskatchewanRelative, jobOffer, previousStudy, previousWork, relative);
  }

  /** The worked example: 25 years old, a Bachelor's degree, three years of
      work, no adaptability factor, CLB7 and no second language make
      12 + 20 + 11 + 0 + 24 + 0 = 67 points, which is eligible. */
  lemma WorkedExampleEligible()
    ensures Evaluate(Profile(25, 3, Bachelors, No, No, No, No, Clb7, No)) == Eligible(67)
  {
  }

  /** 20 years old with nothing else scores only the 8 age points. */
  lemma WorkedExampleNotEligible()
    ensures Evaluate(Profile(20, 0, NoEducation, No, No, No, No, Clb3OrLess, No)) == NotEligible(8)
  {
  }
}
