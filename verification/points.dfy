/** The eight sub-score functions of the calculator component.  Each body
    follows the source's if-chain or switch; each contract states the band
    table, range or ladder the chain implements.  The lemmas below tie age to
    a band table and work years to a staircase of module Tables, and the
    ordered scales to ladders, constant sequences here whose ordering is
    proved with module Tables. */
module Points {
  import opened Applicant
  import Tables

  function Flag(a: YesNo): nat
  {
    if a == Yes then 1 else 0
  }

  // ---------------------------------------------------------------------
  // Age

  /** The age grid: 8, 12, 10 and 8 points on four disjoint age ranges, and
      0 for everyone younger than 18 or older than 50. */
  function AgePoints(age: int): (r: nat)
    ensures r in {0, 8, 10, 12}
    ensures r == 0 <==> age < 18 || 50 < age
    ensures r == 12 <==> 22 <= age <= 34
    ensures r == 10 <==> 35 <= age <= 45
    ensures r == 8 <==> 18 <= age <= 21 || 46 <= age <= 50
  {
    if age < 18 then 0
    else if age < 22 && age > 17 then 8
    else if age < 35 && age > 21 then 12
    else if age < 46 && age > 34 then 10
    else if age < 51 && age > 45 then 8
    else 0
  }

  const AgeBands: seq<Tables.Band> :=
    [Tables.Band(18, 21, 8), Tables.Band(22, 34, 12), Tables.Band(35, 45, 10), Tables.Band(46, 50, 8)]

  /** The if-chain agrees with the age grid read as a table of disjoint bands. */
  lemma AgeMatchesBandTable(age: int)
    ensures AgePoints(age) == Tables.BandPoints(AgeBands, age)
  {
    assert Tables.Disjoint(AgeBands);
    if 18 <= age <= 21 {
      Tables.BandPointsOfCoveringBand(AgeBands, 0, age);
    } else if 22 <= age <= 34 {
      Tables.BandPointsOfCoveringBand(AgeBands, 1, age);
    } else if 35 <= age <= 45 {
      Tables.BandPointsOfCoveringBand(AgeBands, 2, age);
    } else if 46 <= age <= 50 {
      Tables.BandPointsOfCoveringBand(AgeBands, 3, age);
    }
  }

  // ---------------------------------------------------------------------
  // Education

  /** No credential scores 0; the other five credentials score 12, 15, 20, 20
      and 23, with a Master's or doctorate the single top entry. */
  function EducationPoints(education: Education): (r: nat)
    ensures r in {0, 12, 15, 20, 23}
    ensures r == 0 <==> education == NoEducation
    ensures r == 23 <==> education == MastersOrPhd
    ensures r == 20 <==> education == Bachelors || education == TradeCertification
  {
    match education
    case Certificate => 12
    case Diploma => 15
    case Bachelors => 20
    case TradeCertification => 20
    case MastersOrPhd => 23
    case NoEducation => 0
  }

  /** The education points in the declared order of the credentials. */
  const EducationLadder: seq<int> := [0, 12, 15, 20, 20, 23]

  lemma EducationFollowsLadder(education: Education)
    ensures EducationPoints(education) == EducationLadder[EducationRank(education)]
  {
  }

  /** A credential later in the declared order never scores less. */
  lemma EducationMonotone(a: Education, b: Education)
    requires EducationRank(a) <= EducationRank(b)
    ensures EducationPoints(a) <= EducationPoints(b)
  {
    Tables.StepwiseIsNonDecreasing(EducationLadder);
    EducationFollowsLadder(a);
    EducationFollowsLadder(b);
  }

  // ---------------------------------------------------------------------
  // Work experience status (computed by the component, never totalled)

  /** Working in Canada or holding an LMIA job offer scores 10; neither scores 0. */
  function WorkExperiencePoints(status: PrincipalCanadaWork): (r: nat)
    ensures r in {0, 10}
    ensures r == 0 <==> status.NoJobOrLmia?
  {
    if status == WorkingInCanada || status == LmiaJobOffer then 10 else 0
  }

  // ---------------------------------------------------------------------
  // Work years

  /** 0 for no (or a negative number of) years, 9 for one year, then 11, 13
      and 15 for two to three, four to five and more than five years. */
  function WorkYearsPoints(years: int): (r: nat)
    ensures r in {0, 9, 11, 13, 15}
    ensures r == 0 <==> years <= 0
    ensures r == 15 <==> 5 < years
  {
    if years == 1 then 9
    else if years == 2 || years == 3 then 11
    else if years == 4 || years == 5 then 13
    else if years > 5 then 15
    else 0
  }

  /** The work-years grid as a staircase: the points of the highest threshold reached. */
  const WorkYearsSteps: seq<Tables.Step> :=
    [Tables.Step(1, 9), Tables.Step(2, 11), Tables.Step(4, 13), Tables.Step(6, 15)]

  lemma WorkYearsMatchesStaircase(years: int)
    ensures WorkYearsPoints(years) == Tables.StairPoints(WorkYearsSteps, years)
  {
    var s4 := WorkYearsSteps;
    var s3 := s4[..3];
    var s2 := s3[..2];
    var s1 := s2[..1];
    assert s3 == [Tables.Step(1, 9), Tables.Step(2, 11), Tables.Step(4, 13)];
    assert s2 == [Tables.Step(1, 9), Tables.Step(2, 11)];
    assert s1 == [Tables.Step(1, 9)];
    assert s1[..0] == [];
    assert Tables.StairPoints(s1, years) == if 1 <= years then 9 else 0;
    assert Tables.StairPoints(s2, years) == if 2 <= years then 11 else Tables.StairPoints(s1, years);
    assert Tables.StairPoints(s3, years) == if 4 <= years then 13 else Tables.StairPoints(s2, years);
    assert Tables.StairPoints(s4, years) == if 6 <= years then 15 else Tables.StairPoints(s3, years);
  }

  /** More years of work never score fewer points. */
  lemma WorkYearsMonotone(x: int, y: int)
    requires x <= y
    ensures WorkYearsPoints(x) <= WorkYearsPoints(y)
  {
    WorkYearsMatchesStaircase(x);
    WorkYearsMatchesStaircase(y);
    Tables.StairPointsMonotone(WorkYearsSteps, x, y);
  }

  // ---------------------------------------------------------------------
  // Adaptability

  /** The weighted adaptability sum before the cap: a provincial job offer
      30, prior provincial study 5, prior provincial work 5, a relative in the
      province 20. */
  function UncappedAdaptability(jobOffer: YesNo, previousStudy: YesNo, previousWork: YesNo, relative: YesNo): (r: nat)
    ensures r <= 60
    ensures r == 0 <==> jobOffer == No && previousStudy == No && previousWork == No && relative == No
    ensures jobOffer == No ==> r <= 30
  {
    30 * Flag(jobOffer) + 5 * Flag(previousStudy) + 5 * Flag(previousWork) + 20 * Flag(relative)
  }

  /** The adaptability points: the running sum of the four factors, capped at 30. */
  function AdaptabilityPoints(jobOffer: YesNo, previousStudy: YesNo, previousWork: YesNo, relative: YesNo): (r: nat)
    ensures var raw := UncappedAdaptability(jobOffer, previousStudy, previousWork, relative);
            r <= raw && r <= 30 && (r == raw || r == 30)
    ensures jobOffer == No ==> r == UncappedAdaptability(jobOffer, previousStudy, previousWork, relative)
    ensures r == 30 <==> jobOffer == Yes || (previousStudy == Yes && previousWork == Yes && relative == Yes)
  {
    var points := 0;
    var points := if jobOffer == Yes then points + 30 else points;
    var points := if previousStudy == Yes then points + 5 else points;
    var points := if previousWork == Yes then points + 5 else points;
    var points := if relative == Yes then points + 20 else points;
    if points < 30 then points else 30
  }

  /** Answering "Yes" to more adaptability questions never scores less. */
  lemma AdaptabilityMonotone(
    jobOffer: YesNo, previousStudy: YesNo, previousWork: YesNo, relative: YesNo,
    jobOffer': YesNo, previousStudy': YesNo, previousWork': YesNo, relative': YesNo)
    requires Flag(jobOffer) <= Flag(jobOffer') && Flag(previousStudy) <= Flag(previousStudy')
    requires Flag(previousWork) <= Flag(previousWork') && Flag(relative) <= Flag(relative')
    ensures AdaptabilityPoints(jobOffer, previousStudy, previousWork, relative)
         <= AdaptabilityPoints(jobOffer', previousStudy', previousWork', relative')
  {
  }

  // ---------------------------------------------------------------------
  // Primary language on the four-level scale (computed, never totalled)

  /** Below average 0, average 16, above average 20, excellent 24. */
  function LanguagePoints(score: LanguageScore): (r: nat)
    ensures r in {0, 16, 20, 24}
    ensures r == 0 <==> score == BelowAverage
    ensures r == 24 <==> score == Excellent
  {
    match score
    case BelowAverage => 0
    case Average => 16
    case AboveAverage => 20
    case Excellent => 24
  }

  const LanguageLadder: seq<int> := [0, 16, 20, 24]

  lemma LanguageFollowsLadder(score: LanguageScore)
    ensures LanguagePoints(score) == LanguageLadder[LanguageScoreRank(score)]
  {
  }

  /** On the four-level scale a strictly higher level always scores strictly
      more, and conversely. */
  lemma LanguageStrictlyMonotone(a: LanguageScore, b: LanguageScore)
    ensures LanguageScoreRank(a) < LanguageScoreRank(b) <==> LanguagePoints(a) < LanguagePoints(b)
  {
    LanguageFollowsLadder(a);
    LanguageFollowsLadder(b);
  }

  // ---------------------------------------------------------------------
  // Primary language on the eight-level benchmark scale

  /** CLB3 or less scores 0, CLB4 16, CLB5 20, and every level from CLB6 up 24. */
  function ProficiencyPoints(level: LanguageProficiency): (r: nat)
    ensures r in {0, 16, 20, 24}
    ensures r == 0 <==> level == Clb3OrLess
    ensures r == 24 <==> 3 <= ProficiencyRank(level)
  {
    match level
    case Clb3OrLess => 0
    case Clb4 => 16
    case Clb5 => 20
    case Clb6 => 24
    case Clb7 => 24
    case Clb8 => 24
    case Clb9 => 24
    case Clb10Plus => 24
  }

  const ProficiencyLadder: seq<int> := [0, 16, 20, 24, 24, 24, 24, 24]

  lemma ProficiencyFollowsLadder(level: LanguageProficiency)
    ensures ProficiencyPoints(level) == ProficiencyLadder[ProficiencyRank(level)]
  {
  }

  /** A higher benchmark level never scores less. */
  lemma ProficiencyMonotone(a: LanguageProficiency, b: LanguageProficiency)
    requires ProficiencyRank(a) <= ProficiencyRank(b)
    ensures ProficiencyPoints(a) <= ProficiencyPoints(b)
  {
    Tables.StepwiseIsNonDecreasing(ProficiencyLadder);
    ProficiencyFollowsLadder(a);
    ProficiencyFollowsLadder(b);
  }

  // ---------------------------------------------------------------------
  // Second language

  /** A second official language scores 4; none scores 0. */
  function SecondLanguagePoints(hasSecondLanguage: SecondLanguage): (r: nat)
    ensures r in {0, 4}
    ensures r == 4 <==> hasSecondLanguage == Yes
  {
    if hasSecondLanguage == Yes then 4 else 0
  }
}
