# SINP points calculator — scoring model

A Dafny model of the scoring engine of a browser calculator for the
Saskatchewan Immigrant Nominee Program. The calculator turns an applicant's
answers into integer points: age, education, years of work, four
adaptability questions, a first-language benchmark level and a second
language. It adds six of these sub-scores and compares the total with a
fixed pass mark of 60. The model covers the component's string-literal
union types, its eight `get*Points` functions, and the arithmetic and
threshold test of the submit handler. That includes the two messages, with
the total rendered as a decimal numeral.

Files and modules:

- `applicant.dfy`, module `Applicant`: one datatype for each of the unions
  `PrincipalCanadaWork`, `Education`, `YesNo`, `LanguageScore` and
  `LanguageProficiency`. `SecondLanguage` reuses `YesNo`, since it has the
  same two literals. Each datatype has its literal text (`*Label`) and the
  reading of that text back (`Parse*`). The three ordered scales,
  `Education`, `LanguageScore` and `LanguageProficiency`, also have a
  position in the declared order (`*Rank`).
- `tables.dfy`, module `Tables`: three table shapes used as independent
  reference definitions.
  - Ladders: points by rank, with the lemma that neighbour-wise
    non-decreasing means non-decreasing.
  - Band tables: disjoint closed integer ranges.
  - Staircases: thresholds where the highest one reached pays, with a
    monotonicity proof.
- `points.dfy`, module `Points`: the eight sub-score functions. Each follows
  the source's `if` chain or `switch`.
  - Age is tied to a band table and work years to a staircase, both from
    `Tables`.
  - Education and both language scales are tied to ladders. The ladders are
    constant sequences in `Points`, and `Tables` supplies the proof that they
    never decrease.
  - Adaptability is tied to the uncapped weighted sum `UncappedAdaptability`
    through its own contract.
  - The two yes/no sub-scores (work-experience status and second language)
    are pinned only by their if-and-only-if contracts.
- `eligibility.dfy`, module `Eligibility`: the form state (`Profile`), the six
  totalled sub-scores (`Breakdown`), the verdict `Eligible(total)` /
  `NotEligible(total)`, and lemmas about the total and the verdict.
- `message.dfy`, module `Message`: the two message templates, decimal
  rendering, and the reading of a message back into its verdict.

Points worth knowing:

- The comment in the adaptability function says its result is capped at 10.
  The code caps it at 30, and the model follows the code.
- The submit handler never adds the work-experience-status points
  (`getWorkExperiencePoints`). It also never adds the four-level language
  points (`getLanguagePoints`), because the form's language field holds a
  benchmark level scored by `getProficiencyPoints`. Both functions are
  modelled, but neither is part of the total.
- The ineligible message always says "you need 60 out of 110 points". It does
  not compute a deficit. The model reproduces that text as it is. The
  highest total this engine can produce is 108 (`MaximumTotalExactly`,
  `MaximumTotalReached`), so 110 is display text, not a reachable score.

## Model

| member | source | states |
|---|---|---|
| Applicant.EducationRank | src/components/Calculator.tsx:4-10 | a credential's position among the six in the declared order (0 to 5), which is also the order the form lists them in; the education ladder is read at this position |
| Applicant.LanguageScoreRank | src/components/Calculator.tsx:12 | a four-level score's position in the declared order (0 to 3); the four-level ladder is read at this position |
| Applicant.ProficiencyRank | src/components/Calculator.tsx:13 | a benchmark level's position among the eight in the declared order (0 to 7), which is also the order the form lists them in; the benchmark ladder is read at this position |
| Applicant.PrincipalCanadaWorkLabel | src/components/Calculator.tsx:3 | each work-status member's literal reads back as that member, so the three literals are distinct |
| Applicant.ParsePrincipalCanadaWorkSound | src/components/Calculator.tsx:3 | a string reads as a work-status member only if it is exactly that member's literal |
| Applicant.EducationLabel | src/components/Calculator.tsx:4-10 | each of the six credential literals reads back as its own credential |
| Applicant.ParseEducationSound | src/components/Calculator.tsx:4-10 | a string reads as a credential only if it is exactly that credential's literal |
| Applicant.YesNoLabel | src/components/Calculator.tsx:11 | "Yes" and "No" read back as themselves |
| Applicant.ParseYesNoSound | src/components/Calculator.tsx:11 | only "Yes" and "No" read as answers |
| Applicant.LanguageScoreLabel | src/components/Calculator.tsx:12 | each four-level literal reads back as its own level |
| Applicant.ParseLanguageScoreSound | src/components/Calculator.tsx:12 | a string reads as a four-level score only if it is exactly that level's literal |
| Applicant.ProficiencyLabel | src/components/Calculator.tsx:13 | each of the eight benchmark literals reads back as its own level |
| Applicant.ParseProficiencySound | src/components/Calculator.tsx:13 | a string reads as a benchmark level only if it is exactly that level's literal |
| Points.AgePoints | src/components/Calculator.tsx:16-23 | the result is in {0, 8, 10, 12}: 12 exactly for ages 22–34, 10 exactly for 35–45, 8 exactly for 18–21 and 46–50, and 0 exactly below 18 or above 50 |
| Points.AgeMatchesBandTable | src/components/Calculator.tsx:16-23 | the if-chain equals a lookup in the disjoint band table 18–21→8, 22–34→12, 35–45→10, 46–50→8, 0 elsewhere |
| Points.EducationPoints | src/components/Calculator.tsx:25-34 | the result is in {0, 12, 15, 20, 23}: 0 exactly for no credential, 23 exactly for a Master's or doctorate, 20 exactly for a Bachelor's or a trade certification |
| Points.EducationFollowsLadder | src/components/Calculator.tsx:25-34 | the points are the ladder [0, 12, 15, 20, 20, 23] read at the credential's declared position |
| Points.EducationMonotone | src/components/Calculator.tsx:25-34 | a credential later in the declared order never scores less |
| Points.WorkExperiencePoints | src/components/Calculator.tsx:36-39 | the result is 0 or 10, and 0 exactly for "No Job or LMIA" |
| Points.WorkYearsPoints | src/components/Calculator.tsx:41-47 | the result is in {0, 9, 11, 13, 15}: 0 exactly when years ≤ 0, 15 exactly when years > 5 |
| Points.WorkYearsMatchesStaircase | src/components/Calculator.tsx:41-47 | the if-chain equals the staircase 1→9, 2→11, 4→13, 6→15 (0 below 1) |
| Points.WorkYearsMonotone | src/components/Calculator.tsx:41-47 | more years never score fewer points |
| Points.UncappedAdaptability | src/components/Calculator.tsx:57-70 | the running sum 30·offer + 5·study + 5·work + 20·relative is at most 60, is 0 exactly when all four answers are "No", and is at most 30 without a job offer |
| Points.AdaptabilityPoints | src/components/Calculator.tsx:49-74 | the result is min(30, 30·offer + 5·study + 5·work + 20·relative); without a job offer the cap never binds; the result is 30 exactly when there is a job offer or all three other answers are "Yes" |
| Points.AdaptabilityMonotone | src/components/Calculator.tsx:49-74 | turning any answer from "No" to "Yes" never lowers the points |
| Points.LanguagePoints | src/components/Calculator.tsx:76-84 | the result is in {0, 16, 20, 24}: 0 exactly for Below Average, 24 exactly for Excellent |
| Points.LanguageFollowsLadder | src/components/Calculator.tsx:76-84 | the points are the ladder [0, 16, 20, 24] read at the level's position |
| Points.LanguageStrictlyMonotone | src/components/Calculator.tsx:76-84 | a strictly higher four-level score scores strictly more, and conversely |
| Points.ProficiencyPoints | src/components/Calculator.tsx:87-99 | the result is in {0, 16, 20, 24}: 0 exactly at the bottom level, 24 exactly from CLB6 up |
| Points.ProficiencyFollowsLadder | src/components/Calculator.tsx:87-99 | the points are the ladder [0, 16, 20, 24, 24, 24, 24, 24] read at the level's position |
| Points.ProficiencyMonotone | src/components/Calculator.tsx:87-99 | a higher benchmark level never scores less |
| Points.SecondLanguagePoints | src/components/Calculator.tsx:102-104 | the result is 0 or 4, and 4 exactly for "Yes" |
| Eligibility.Score | src/components/Calculator.tsx:120-125 | each totalled sub-score is within its maximum (12, 15, 23, 30, 24, 4), so the total is at most 108 |
| Eligibility.Decide | src/components/Calculator.tsx:127-131 | the verdict carries the total and is Eligible exactly when the total is at least 60 |
| Eligibility.Evaluate | src/components/Calculator.tsx:119-131 | the verdict's total is the breakdown's total, at most 108, and it is Eligible exactly when that total is at least 60 |
| Eligibility.TotalOfSixSubScores | src/components/Calculator.tsx:120-125 | the total is exactly age + work years + education + adaptability + benchmark language + second language, with no work-status or four-level language points |
| Eligibility.MaximumTotalExactly | src/components/Calculator.tsx:120-125 | the total is 108 exactly when every totalled category is at its own maximum |
| Eligibility.MinimumTotalReached | src/components/Calculator.tsx:107-125 | the form's initial state scores 0 and is not eligible |
| Eligibility.MaximumTotalReached | src/components/Calculator.tsx:120-131 | a profile reaching 108 exists, so the bound is tight |
| Eligibility.MoreWorkYearsNeverHurt | src/components/Calculator.tsx:41-47 | raising the work years never lowers the total and never turns eligible into not eligible |
| Eligibility.BetterLanguageNeverHurts | src/components/Calculator.tsx:87-99 | raising the benchmark level never lowers the total and never turns eligible into not eligible |
| Eligibility.HigherEducationNeverHurts | src/components/Calculator.tsx:25-34 | a credential later in the declared order never lowers the total and never turns eligible into not eligible |
| Eligibility.SecondLanguageNeverHurts | src/components/Calculator.tsx:102-104 | answering "Yes" to the second-language question never lowers the total or loses eligibility, and from "No" it adds exactly 4 |
| Eligibility.MoreAdaptabilityNeverHurts | src/components/Calculator.tsx:49-74 | turning any adaptability answer from "No" to "Yes" never lowers the total or loses eligibility |
| Eligibility.WorkedExampleEligible | src/components/Calculator.tsx:119-131 | age 25, a Bachelor's, 3 years, no adaptability, CLB7, no second language give Eligible(67) |
| Eligibility.WorkedExampleNotEligible | src/components/Calculator.tsx:119-131 | age 20 with every other answer at its lowest gives NotEligible(8) |
| Message.NatToString | src/components/Calculator.tsx:128-130 | the interpolated total is a non-empty string of decimal digits with no leading zero |
| Message.ParseNatToString | src/components/Calculator.tsx:128-130 | reading the rendered numeral gives back the total |
| Message.Render | src/components/Calculator.tsx:127-131 | the two templates with the total filled in; each message reads back as exactly the verdict and total it reports |
| Message.EligibilityMessage | src/components/Calculator.tsx:127-131 | the message shown for a profile reads back as that profile's verdict |
| Message.WorkedExampleMessage | src/components/Calculator.tsx:130 | the worked example shows "You have 67 points so you are eligible." |

## Left out

- React state, the form's JSX, its change handlers and the conditional display blocks (src/components/Calculator.tsx:106-118, 134-277). These only pass values to the scoring functions and show the message.
- Input coercion: `Number(e.target.value)` can yield fractional or NaN ages and work years, which is JavaScript floating point. Ages and years are modelled as `int`. An empty field becomes 0, which is an `int` and so is covered.
- WorkYearsMonotone and MoreWorkYearsNeverHurt hold for whole-number years only. In the source, 1.5 years scores 0, because none of the `=== 1`, `=== 2 || === 3`, `=== 4 || === 5` or `> 5` tests holds, while 1 year scores 9. So with fractional input, more years can score less.
- The `default:` branches of `getLanguagePoints` and `getProficiencyPoints` cannot be reached by a member of the union. In `getEducationPoints` the `default:` branch is how "None" scores 0, and `case NoEducation => 0` models it. A string outside a union reads as `None` through the `Parse*` functions. The model does not score such strings.
- The second-language requirement text and the commented-out required-score block (src/components/Calculator.tsx:245-274) are fixed text, not computation.
- The footer component has no logic.
- Only the table set present in the code is modelled: adaptability cap 30 and pass mark 60. There is no second preset.
