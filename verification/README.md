# Cardiovascular risk estimator — Dafny model

This project models the rule-based cardiovascular risk estimator of a small
patient-assessment web application. The estimator, `predictCardiovascularRisk`,
takes one patient record and returns a `RiskPrediction`. It works in five steps:

- It adds fixed weights for age, gender by age, cholesterol, glucose, BMI and four lifestyle flags, plus a blood-pressure term of 0.2 times the larger normalised excess over 120/80.
- It caps the sum at 1.0.
- It buckets the capped score into Low, Moderate or High.
- It rounds the score to a percentage.
- It lists six factor descriptors and an ordered list of recommendations.

A second, independent utility, `calculateFraminghamRisk`, computes a simplified
Framingham point score. The score is clamped to [1, 30] percent and returned as a fraction.

Layout:

- `medical.dfy` (module `Medical`): the patient record, the BMI value, factors, recommendations and the prediction.
- `ml_model.dfy` (module `MlModel`): the estimator and the Framingham score as pure functions; both source functions are modelled as total.
- `rule_tables.dfy` (module `RuleTables`): reference definitions as declarative rule tables, with lemmas that the estimator matches them.
  - The score is the total of a (condition, weight) table where within each tiered group the conditions are disjoint.
  - The recommendations are the applicable rows of a (condition, advice) table.
- `risk_properties.dfy` (module `RiskProperties`): properties of factors, recommendations, level, percentage and monotonicity, plus worked examples.
- `framingham_properties.dfy` (module `FraminghamProperties`): the point tables as declarative (threshold, points) tier tables, with lemmas that the point functions match them, and properties of the point score.

Modelling choices:

- Every numeric field is a JavaScript `number`; here it is an exact `real`.
- The BMI is `weight / (height/100)^2`. The estimator does not guard a zero height, so the model keeps JavaScript's division by zero: `+Infinity`, `-Infinity` or `NaN` (datatype `BodyMassIndex`), where `NaN >= t` is false. No precondition is needed, and both source functions are modelled as total, as in the source.
- `Math.round` is `(x + 0.5).Floor`: the nearest integer, ties going up.
- Recommendations are the enumeration `Advice`; `Advice.Text` gives the exact sentence the source pushes.
- Factor values keep the numbers (`Years`, `Pressure`, `Concentration`, `BmiReading`) or the fixed label text; string formatting is left out.
- Both functions are pure, so calling them twice on one record gives one result; Dafny functions are deterministic by construction.

## Model

| member | source | states |
|---|---|---|
| `MlModel.Bmi` | src/utils/mlModel.ts:10 | for a non-zero height the BMI times (height/100)^2 gives back the weight; a zero height gives +Infinity, -Infinity or NaN according to the weight's sign |
| `MlModel.PatientBmi` | src/utils/mlModel.ts:10 | the record's BMI times (height/100)^2 gives back its weight for a non-zero height; a zero height gives +Infinity, -Infinity or NaN according to the weight's sign |
| `MlModel.AgeWeight` | src/utils/mlModel.ts:16-19 | the age term lies in [0, 0.25]; it is zero exactly below 35 and at least 0.08 exactly from 45 on |
| `MlModel.GenderAgeWeight` | src/utils/mlModel.ts:22-23 | the gender-by-age term lies in [0, 0.1] and is non-zero exactly for men from 45 and women from 55 |
| `MlModel.BloodPressureWeight` | src/utils/mlModel.ts:26-28 | the pressure term is non-negative, zero exactly when systolic ≤ 120 and diastolic ≤ 80, and at least a fifth of each normalised excess |
| `MlModel.CholesterolWeight` | src/utils/mlModel.ts:31-32 | the cholesterol term lies in [0, 0.15] and is zero exactly below 200 |
| `MlModel.GlucoseWeight` | src/utils/mlModel.ts:35-36 | the glucose term lies in [0, 0.12] and is zero exactly below 100 |
| `MlModel.BmiWeight` | src/utils/mlModel.ts:39-40 | the BMI term lies in [0, 0.1] and is zero exactly when the BMI is not at least 25 |
| `MlModel.LifestyleWeight` | src/utils/mlModel.ts:43-46 | the lifestyle terms total at most 0.38 and are zero exactly for a non-smoking, non-drinking, active patient without family history |
| `MlModel.RawScore` | src/utils/mlModel.ts:13-46 | the accumulated score is never negative |
| `MlModel.RiskScore` | src/utils/mlModel.ts:49 | the capped score lies in [0, 1], never exceeds the accumulated score, equals it when that is at most 1, and is 1 otherwise |
| `MlModel.Classify` | src/utils/mlModel.ts:52-55 | Low iff score < 0.1, Moderate iff 0.1 ≤ score < 0.2, High iff score ≥ 0.2 |
| `MlModel.Round` | src/utils/mlModel.ts:58 | the result is the integer within half a unit of the input, ties going up |
| `MlModel.Percentage` | src/utils/mlModel.ts:58 | for a score in [0, 1] the percentage lies in [0, 100] and is within one half of score × 100 |
| `MlModel.Factors` | src/utils/mlModel.ts:63-106 | the factor list always has six entries |
| `MlModel.ConditionalAdvice` | src/utils/mlModel.ts:111-133 | the six conditional pushes add at most six entries, none of them follow-up, aspirin or cardiology |
| `MlModel.Recommendations` | src/utils/mlModel.ts:109-140 | follow-up and aspirin are always recommended; cardiology is recommended exactly at High level |
| `MlModel.PredictCardiovascularRisk` | src/utils/mlModel.ts:6-149 | score in [0, 1], equal to the accumulated score up to 1 and exactly 1 from there on; level partitions the score; percentage in [0, 100] and rounds score × 100; the factors are exactly the six-factor analysis of the record and the recommendations exactly those for the record at the returned level, follow-up and aspirin always present, cardiology iff High |
| `MlModel.FraminghamAgePoints` | src/utils/mlModel.ts:157-173 | age points lie in [0, 12] and are zero exactly below 40 |
| `MlModel.FraminghamCholesterolPoints` | src/utils/mlModel.ts:176-178 | cholesterol points lie in [0, 3] and are zero exactly below 200 |
| `MlModel.FraminghamSmokingPoints` | src/utils/mlModel.ts:181-183 | a smoker gets 4 points if male and 3 if female; a non-smoker gets none |
| `MlModel.FraminghamPoints` | src/utils/mlModel.ts:154-183 | the point total lies in [0, 18] |
| `MlModel.CalculateFraminghamRisk` | src/utils/mlModel.ts:186-188 | the risk lies in [0.01, 0.30]; it is twice the points as a percentage when that is in [1, 30], 0.01 at zero points and 0.30 from 15 points |
| `RuleTables.FiredTotal` | src/utils/mlModel.ts:13-46 | the total of a rule table whose fired rules all carry non-negative weights is non-negative |
| `RuleTables.FiredTotalAppend` | src/utils/mlModel.ts:13-46 | the total of two concatenated rule lists is the sum of their totals |
| `RuleTables.ScoreTableFiresNonNegative` | src/utils/mlModel.ts:13-46 | every rule of the score table that fires carries a non-negative weight (the pressure rules fire only for a positive excess), so the table total is non-negative |
| `RuleTables.TieredGroupsExclusive` | src/utils/mlModel.ts:16-40 | in each tiered rule group (age, gender, pressure, cholesterol, glucose, BMI) at most one rule fires |
| `RuleTables.ScoreMatchesRuleTable` | src/utils/mlModel.ts:13-46 | the estimator's if-else accumulation equals the total of the declarative rule table |
| `RuleTables.ApplicableMembers` | src/utils/mlModel.ts:109-140 | an advice is in the filtered list exactly when some applicable row carries it |
| `RuleTables.ApplicableLength` | src/utils/mlModel.ts:109-140 | the filtered list has one entry per applicable row |
| `RuleTables.ApplicableKeepsOrder` | src/utils/mlModel.ts:109-140 | filtering a rank-ordered table yields a strictly rank-ordered list |
| `RuleTables.PushIfAppends` | src/utils/mlModel.ts:109-140 | a conditional push keeps every earlier entry in place and adds one entry, the advice, exactly when its condition holds |
| `RuleTables.ConditionalAdviceMatchesTable` | src/utils/mlModel.ts:111-133 | the six conditional pushes equal the applicable rows among the first six rows of the recommendation table |
| `RuleTables.RecommendationsMatchTable` | src/utils/mlModel.ts:109-140 | the estimator's sequence of conditional pushes equals the applicable rows of the nine-row recommendation table |
| `RiskProperties.FactorNamesInOrder` | src/utils/mlModel.ts:63-106 | the six factors are named Age, Blood Pressure, Cholesterol, BMI, Smoking Status, Physical Activity, in that order |
| `RiskProperties.FactorImpactRules` | src/utils/mlModel.ts:63-106 | age is negative iff age ≥ 45, otherwise neutral; BP negative iff ≥ 120/80; cholesterol iff ≥ 200; BMI iff ≥ 25; smoking negative iff smoking; activity positive iff active; only age is ever neutral |
| `RiskProperties.ThreeTierDescriptionTwoTierImpact` | src/utils/mlModel.ts:63-106 | every description as the range that selects it: age advanced iff ≥ 65, moderate iff 45 ≤ age < 65, not significant iff < 45; BP hypertensive iff ≥ 140/90, elevated iff below that but ≥ 120/80, normal iff below 120/80; cholesterol high iff ≥ 240, borderline iff in [200, 240), optimal iff < 200; BMI obese iff ≥ 30, overweight iff in [25, 30), healthy iff not ≥ 25; smoking and activity descriptions iff their flag; the BP, cholesterol and BMI impact is positive exactly for the healthy description |
| `RiskProperties.FactorValues` | src/utils/mlModel.ts:66-102 | each factor displays its own reading (age, both pressures, cholesterol, BMI), and the smoking and activity factors the labels Current smoker / Non-smoker and Active / Sedentary by their flag |
| `RiskProperties.FactorImpactsAgreeWithScore` | src/utils/mlModel.ts:16-93 | a negative age, cholesterol or BMI impact marks a non-zero score term; a positive BP impact means a zero BP term |
| `RiskProperties.BloodPressureBoundary` | src/utils/mlModel.ts:26-77 | at exactly 120 systolic or 80 diastolic the BP factor says negative and elevated while the score's BP term is zero |
| `RiskProperties.RecommendationMembership` | src/utils/mlModel.ts:111-140 | each recommendation is present exactly when its condition holds; follow-up and aspirin always; cardiology iff High |
| `RiskProperties.RecommendationsOrdered` | src/utils/mlModel.ts:109-140 | the recommendations appear in rule order, each at most once |
| `RiskProperties.RecommendationCount` | src/utils/mlModel.ts:109-140 | the list has one entry per applicable row of the recommendation table: 2 plus the number of true conditions plus 1 at High level |
| `RiskProperties.RecommendationsTail` | src/utils/mlModel.ts:135-140 | the list ends with follow-up, aspirin and then cardiology at High level, or with follow-up and aspirin otherwise |
| `RiskProperties.RecommendationsFollowFactors` | src/utils/mlModel.ts:63-133 | the smoking, lipid, weight and exercise recommendations appear exactly when the matching factor is negative, and the BP one exactly when the BP factor says hypertensive |
| `RiskProperties.TextInjective` | src/utils/mlModel.ts:111-140 | the nine recommendation sentences are pairwise different |
| `RiskProperties.RecommendationTextsDistinct` | src/utils/mlModel.ts:109-140 | no sentence appears twice in the returned list of strings |
| `RiskProperties.ClassifyMonotone` | src/utils/mlModel.ts:52-55 | a higher score never gives a lower level |
| `RiskProperties.PercentageAgreesWithLevel` | src/utils/mlModel.ts:52-58 | Low gives at most 10 percent, Moderate between 10 and 20, High at least 20 |
| `RiskProperties.ScoreMonotone` | src/utils/mlModel.ts:15-55 | a patient at least as exposed on every input never gets a lower score or a lower level |
| `RiskProperties.DefaultRecordIsHighRisk` | src/utils/mlModel.ts:16-58 | the form's default record scores 0.26, High, 26 percent, with lipid, follow-up, aspirin and cardiology recommendations |
| `RiskProperties.HealthyRecordIsLowRisk` | src/utils/mlModel.ts:16-58 | a young record with no risks scores 0, Low, 0 percent, with only the two unconditional recommendations |
| `RiskProperties.CapBinds` | src/utils/mlModel.ts:48-58 | with every risk at its worst the sum exceeds 1, the score is capped at 1 and the percentage is 100 |
| `RiskProperties.ZeroHeightBmi` | src/utils/mlModel.ts:10-125 | at height 0 a positive weight gives the full BMI term 0.1, the Obese description and weight advice; a zero or negative weight gives no BMI term, the healthy-weight description and no weight advice |
| `RiskProperties.SystolicBoundary` | src/utils/mlModel.ts:74-77 | at systolic 140 and 139 the BP impact is negative; only the description changes, from elevated to hypertensive |
| `FraminghamProperties.AgePointsMatchTable` | src/utils/mlModel.ts:157-173 | the age points are those of the first tier the age reaches in the gender's table, (70, 11), (65, 10), (60, 8), (55, 6), (50, 4), (45, 2), (40, 1) for men and (70, 12), (65, 11), (60, 9), (55, 7), (50, 5), (45, 3), (40, 1) for women, or 0 below 40 |
| `FraminghamProperties.CholesterolPointsMatchTable` | src/utils/mlModel.ts:176-178 | the cholesterol points are those of the first tier reached in (280, 3), (240, 2), (200, 1), or 0 below 200 |
| `FraminghamProperties.TablesDescending` | src/utils/mlModel.ts:157-178 | in all three point tables the thresholds fall strictly from tier to tier and the points never rise |
| `FraminghamProperties.FirstReachedMonotone` | src/utils/mlModel.ts:157-178 | in a descending tier table a higher reading never earns fewer points |
| `FraminghamProperties.SmokingPoints` | src/utils/mlModel.ts:181-183 | smoking adds 4 points for men and 3 for women |
| `FraminghamProperties.FemaleAgePointsExceedMale` | src/utils/mlModel.ts:157-173 | from 45 on the female age points are one above the male ones; below 45 they agree |
| `FraminghamProperties.AgePointsMonotone` | src/utils/mlModel.ts:157-173 | age points never fall as age rises, derived from the descending age tables |
| `FraminghamProperties.CholesterolPointsMonotone` | src/utils/mlModel.ts:176-178 | cholesterol points never fall as cholesterol rises, derived from the descending cholesterol table |
| `FraminghamProperties.FraminghamMonotone` | src/utils/mlModel.ts:157-188 | greater age, higher cholesterol or smoking never lowers the points or the risk |
| `FraminghamProperties.FraminghamInputs` | src/utils/mlModel.ts:152-189 | only gender, age, cholesterol and smoking affect the Framingham risk |
| `FraminghamProperties.DefaultRecordFramingham` | src/utils/mlModel.ts:152-189 | the form's default record scores 3 points, a risk of 0.06 |

## Left out

- Logging: the two `console.log` calls are side effects with no effect on the result.
- String formatting of factor values: the template literals and `bmi.toFixed(1)` are left out; factor values keep the numbers instead.
- IEEE-754 rounding: arithmetic is exact over the reals, so scores that land within rounding error of 0.1 or 0.2 may be classified differently than with doubles. Division by zero in the BMI is modelled; NaN or infinite inputs in the record are not.
- The form, the page and the result display (`PatientForm.tsx`, `Index.tsx`, `RiskDisplay.tsx`): input widgets, `parseInt` parsing, the 1500 ms simulated delay, and the colour and icon choices are presentation only.
- Monotonicity in weight: the dominance relation behind `RiskProperties.ScoreMonotone` compares BMI thresholds. It says "passes every BMI threshold the other passes", not "same height and at least the weight". Deriving the second from the first needs real division reasoning that is not part of this model.
