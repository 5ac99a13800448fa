/**
 The rule-based cardiovascular risk estimator and the simplified Framingham
 point score. Both are modelled as total functions: the estimator never fails,
 and a zero height reaches the BMI rules as an IEEE infinity or NaN, as it does
 in the JavaScript it models.
 */
module MlModel {
  import opened Medical

  // ---------------------------------------------------------------------------
  // Small numeric helpers (JavaScript's Math.max, Math.min and Math.round)
  // ---------------------------------------------------------------------------

  function Max(a: real, b: real): (m: real)
    ensures m >= a && m >= b
    ensures m == a || m == b
  {
    if a >= b then a else b
  }

  function Min(a: real, b: real): (m: real)
    ensures m <= a && m <= b
    ensures m == a || m == b
  {
    if a <= b then a else b
  }

  /** `Math.round`: the nearest integer, ties going towards +infinity. */
  function Round(x: real): (n: int)
    ensures n as real - 0.5 <= x < n as real + 0.5
  {
    (x + 0.5).Floor
  }

  // ---------------------------------------------------------------------------
  // Body-mass index
  // ---------------------------------------------------------------------------

  /** `weight / Math.pow(height / 100, 2)`, with JavaScript's division by zero. */
  function Bmi(weight: real, height: real): (b: BodyMassIndex)
    ensures height != 0.0 ==> b.Finite? && b.value * ((height / 100.0) * (height / 100.0)) == weight
    ensures height == 0.0 ==> (b.PosInfinity? <==> weight > 0.0)
    ensures height == 0.0 ==> (b.NegInfinity? <==> weight < 0.0)
    ensures height == 0.0 ==> (b.NaN? <==> weight == 0.0)
  {
    // The divisor (height / 100)^2 is zero exactly when the height is.
    if height == 0.0 then
      if weight > 0.0 then PosInfinity
      else if weight < 0.0 then NegInfinity
      else NaN
    else
      var metres := height / 100.0;
      assert metres * metres > 0.0 by {
        if metres < 0.0 { assert metres * metres == (-metres) * (-metres); }
      }
      Finite(weight / (metres * metres))
  }

  /** The BMI of the record, from its weight in kg and height in cm. */
  function PatientBmi(p: PatientData): (b: BodyMassIndex)
    ensures p.height != 0.0 ==> b.Finite? && b.value * ((p.height / 100.0) * (p.height / 100.0)) == p.weight
    ensures p.height == 0.0 ==> (b.PosInfinity? <==> p.weight > 0.0)
    ensures p.height == 0.0 ==> (b.NegInfinity? <==> p.weight < 0.0)
    ensures p.height == 0.0 ==> (b.NaN? <==> p.weight == 0.0)
  {
    Bmi(p.weight, p.height)
  }

  // ---------------------------------------------------------------------------
  // Score contributions, one per rule group of the estimator
  // ---------------------------------------------------------------------------

  /** The age tier: 65, 55, 45 and 35 years open the four tiers. */
  function AgeWeight(age: real): (w: real)
    ensures 0.0 <= w <= 0.25
    ensures w == 0.0 <==> age < 35.0
    ensures w >= 0.08 <==> age >= 45.0
  {
    if age >= 65.0 then 0.25
    else if age >= 55.0 then 0.15
    else if age >= 45.0 then 0.08
    else if age >= 35.0 then 0.03
    else 0.0
  }

  /** The two independent gender-by-age rules; at most one of them fires. */
  function GenderAgeWeight(gender: Gender, age: real): (w: real)
    ensures 0.0 <= w <= 0.1
    ensures w != 0.0 <==> (gender == Male && age >= 45.0) || (gender == Female && age >= 55.0)
  {
    (if gender == Male && age >= 45.0 then 0.1 else 0.0)
    + (if gender == Female && age >= 55.0 then 0.08 else 0.0)
  }

  /** A fifth of the larger of the two normalised excesses over 120/80 mmHg. */
  function BloodPressureWeight(systolic: real, diastolic: real): (w: real)
    ensures w >= 0.0
    ensures w == 0.0 <==> systolic <= 120.0 && diastolic <= 80.0
    ensures w >= (systolic - 120.0) / 160.0 * 0.2 && w >= (diastolic - 80.0) / 100.0 * 0.2
  {
    var systolicRisk := Max(0.0, (systolic - 120.0) / 160.0);
    var diastolicRisk := Max(0.0, (diastolic - 80.0) / 100.0);
    Max(systolicRisk, diastolicRisk) * 0.2
  }

  function CholesterolWeight(cholesterol: real): (w: real)
    ensures 0.0 <= w <= 0.15
    ensures w == 0.0 <==> cholesterol < 200.0
  {
    if cholesterol >= 240.0 then 0.15
    else if cholesterol >= 200.0 then 0.08
    else 0.0
  }

  function GlucoseWeight(glucose: real): (w: real)
    ensures 0.0 <= w <= 0.12
    ensures w == 0.0 <==> glucose < 100.0
  {
    if glucose >= 126.0 then 0.12
    else if glucose >= 100.0 then 0.05
    else 0.0
  }

  function BmiWeight(bmi: BodyMassIndex): (w: real)
    ensures 0.0 <= w <= 0.1
    ensures w == 0.0 <==> !bmi.AtLeast(25.0)
  {
    if bmi.AtLeast(30.0) then 0.1
    else if bmi.AtLeast(25.0) then 0.05
    else 0.0
  }

  /** Smoking, alcohol, inactivity and family history. */
  function LifestyleWeight(p: PatientData): (w: real)
    ensures 0.0 <= w <= 0.38
    ensures w == 0.0 <==> !p.smoking && !p.alcohol && p.physicalActivity && !p.familyHistory
  {
    (if p.smoking then 0.15 else 0.0)
    + (if p.alcohol then 0.05 else 0.0)
    + (if !p.physicalActivity then 0.08 else 0.0)
    + (if p.familyHistory then 0.1 else 0.0)
  }

  /** The accumulated score before the cap. */
  function RawScore(p: PatientData): (s: real)
    ensures s >= 0.0
  {
    AgeWeight(p.age)
    + GenderAgeWeight(p.gender, p.age)
    + BloodPressureWeight(p.systolicBP, p.diastolicBP)
    + CholesterolWeight(p.cholesterol)
    + GlucoseWeight(p.glucose)
    + BmiWeight(PatientBmi(p))
    + LifestyleWeight(p)
  }

  /** `Math.min(riskScore, 1.0)`: the reported score. */
  function RiskScore(p: PatientData): (s: real)
    ensures 0.0 <= s <= 1.0
    ensures s <= RawScore(p)
    ensures RawScore(p) <= 1.0 ==> s == RawScore(p)
    ensures RawScore(p) >= 1.0 ==> s == 1.0
  {
    Min(RawScore(p), 1.0)
  }

  // ---------------------------------------------------------------------------
  // Level and percentage
  // ---------------------------------------------------------------------------

  function Classify(score: real): (level: RiskLevel)
    ensures level == Low <==> score < 0.1
    ensures level == Moderate <==> 0.1 <= score < 0.2
    ensures level == High <==> score >= 0.2
  {
    if score < 0.1 then Low
    else if score < 0.2 then Moderate
    else High
  }

  function Percentage(score: real): (pct: int)
    requires 0.0 <= score <= 1.0
    ensures 0 <= pct <= 100
    ensures pct as real - 0.5 <= score * 100.0 < pct as real + 0.5
  {
    Round(score * 100.0)
  }

  // ---------------------------------------------------------------------------
  // Factor analysis
  // ---------------------------------------------------------------------------

  const AgeName := "Age"
  const BloodPressureName := "Blood Pressure"
  const CholesterolName := "Cholesterol"
  const BmiName := "BMI"
  const SmokingName := "Smoking Status"
  const ActivityName := "Physical Activity"

  const AdvancedAge := "Advanced age significantly increases risk"
  const ModerateAge := "Age is a moderate risk factor"
  const InsignificantAge := "Age is not a significant risk factor"
  const Hypertensive := "Hypertensive - significant risk factor"
  const ElevatedPressure := "Elevated blood pressure"
  const NormalPressure := "Normal blood pressure"
  const HighCholesterol := "High cholesterol - major risk factor"
  const BorderlineCholesterol := "Borderline high cholesterol"
  const OptimalCholesterol := "Optimal cholesterol level"
  const Obese := "Obese - increased cardiovascular risk"
  const Overweight := "Overweight - moderate risk factor"
  const HealthyWeight := "Healthy weight range"
  const SmokerDescription := "Smoking significantly increases cardiovascular risk"
  const NonSmokerDescription := "Non-smoking status reduces risk"
  const ActiveDescription := "Regular exercise reduces cardiovascular risk"
  const SedentaryDescription := "Sedentary lifestyle increases risk"

  function AgeFactor(age: real): RiskFactor {
    RiskFactor(
      AgeName,
      Years(age),
      if age >= 45.0 then Negative else Neutral,
      if age >= 65.0 then AdvancedAge
      else if age >= 45.0 then ModerateAge
      else InsignificantAge)
  }

  /** Both the hypertensive and the elevated tier report a negative impact. */
  function BloodPressureFactor(systolic: real, diastolic: real): RiskFactor {
    RiskFactor(
      BloodPressureName,
      Pressure(systolic, diastolic),
      if systolic >= 140.0 || diastolic >= 90.0 then Negative
      else if systolic >= 120.0 || diastolic >= 80.0 then Negative
      else Positive,
      if systolic >= 140.0 || diastolic >= 90.0 then Hypertensive
      else if systolic >= 120.0 || diastolic >= 80.0 then ElevatedPressure
      else NormalPressure)
  }

  function CholesterolFactor(cholesterol: real): RiskFactor {
    RiskFactor(
      CholesterolName,
      Concentration(cholesterol),
      if cholesterol >= 240.0 then Negative
      else if cholesterol >= 200.0 then Negative
      else Positive,
      if cholesterol >= 240.0 then HighCholesterol
      else if cholesterol >= 200.0 then BorderlineCholesterol
      else OptimalCholesterol)
  }

  function BmiFactor(bmi: BodyMassIndex): RiskFactor {
    RiskFactor(
      BmiName,
      BmiReading(bmi),
      if bmi.AtLeast(30.0) then Negative
      else if bmi.AtLeast(25.0) then Negative
      else Positive,
      if bmi.AtLeast(30.0) then Obese
      else if bmi.AtLeast(25.0) then Overweight
      else HealthyWeight)
  }

  function SmokingFactor(smoking: bool): RiskFactor {
    RiskFactor(
      SmokingName,
      Label(if smoking then "Current smoker" else "Non-smoker"),
      if smoking then Negative else Positive,
      if smoking then SmokerDescription else NonSmokerDescription)
  }

  function ActivityFactor(active: bool): RiskFactor {
    RiskFactor(
      ActivityName,
      Label(if active then "Active" else "Sedentary"),
      if active then Positive else Negative,
      if active then ActiveDescription else SedentaryDescription)
  }

  /** The six factors, always in this order. */
  function Factors(p: PatientData): (fs: seq<RiskFactor>)
    ensures |fs| == 6
  {
    [ AgeFactor(p.age),
      BloodPressureFactor(p.systolicBP, p.diastolicBP),
      CholesterolFactor(p.cholesterol),
      BmiFactor(PatientBmi(p)),
      SmokingFactor(p.smoking),
      ActivityFactor(p.physicalActivity) ]
  }

  // ---------------------------------------------------------------------------
  // Recommendations
  // ---------------------------------------------------------------------------

  /** `if (applies) recommendations.push(advice)`. */
  function PushIf(recommendations: seq<Advice>, applies: bool, advice: Advice): seq<Advice>
  {
    if applies then recommendations + [advice] else recommendations
  }

  /** The six conditional recommendations, pushed in the order the estimator
      tests their conditions. None of them is a closing entry. */
  function ConditionalAdvice(p: PatientData): (rs: seq<Advice>)
    ensures |rs| <= 6
    ensures FollowUp !in rs && Aspirin !in rs && CardiologyConsult !in rs
  {
    var r1 := PushIf([], p.smoking, SmokingCessation);
    var r2 := PushIf(r1, p.systolicBP >= 140.0 || p.diastolicBP >= 90.0, BloodPressureManagement);
    var r3 := PushIf(r2, p.cholesterol >= 200.0, LipidManagement);
    var r4 := PushIf(r3, PatientBmi(p).AtLeast(25.0), WeightManagement);
    var r5 := PushIf(r4, !p.physicalActivity, ExerciseProgram);
    PushIf(r5, p.glucose >= 100.0, GlucoseMonitoring)
  }

  /** The recommendation list: the conditional entries, then follow-up and
      aspirin always, then the cardiology consultation at High level. */
  function Recommendations(p: PatientData, level: RiskLevel): (rs: seq<Advice>)
    ensures FollowUp in rs && Aspirin in rs
    ensures CardiologyConsult in rs <==> level == High
  {
    var r6 := ConditionalAdvice(p);
    var r7 := PushIf(r6, true, FollowUp);
    var r8 := PushIf(r7, true, Aspirin);
    PushIf(r8, level == High, CardiologyConsult)
  }

  // ---------------------------------------------------------------------------
  // The estimator
  // ---------------------------------------------------------------------------

  function PredictCardiovascularRisk(p: PatientData): (r: RiskPrediction)
    ensures 0.0 <= r.riskScore <= 1.0
    ensures r.riskScore <= RawScore(p)
    ensures RawScore(p) <= 1.0 ==> r.riskScore == RawScore(p)
    ensures RawScore(p) >= 1.0 ==> r.riskScore == 1.0
    ensures r.riskLevel == Low <==> r.riskScore < 0.1
    ensures r.riskLevel == Moderate <==> 0.1 <= r.riskScore < 0.2
    ensures r.riskLevel == High <==> r.riskScore >= 0.2
    ensures 0 <= r.riskPercentage <= 100
    ensures r.riskPercentage as real - 0.5 <= r.riskScore * 100.0 < r.riskPercentage as real + 0.5
    ensures r.factors == Factors(p)
    ensures r.recommendations == Recommendations(p, r.riskLevel)
    ensures |r.factors| == 6
    ensures FollowUp in r.recommendations && Aspirin in r.recommendations
    ensures CardiologyConsult in r.recommendations <==> r.riskLevel == High
  {
    var score := RiskScore(p);
    var level := Classify(score);
    RiskPrediction(score, level, Percentage(score), Factors(p), Recommendations(p, level))
  }

  // ---------------------------------------------------------------------------
  // Simplified Framingham point score
  // ---------------------------------------------------------------------------

  /** Age points; the female table runs one point above the male one from 45 on. */
  function FraminghamAgePoints(gender: Gender, age: real): (pts: int)
    ensures 0 <= pts <= 12
    ensures pts == 0 <==> age < 40.0
  {
    if gender == Male then
      if age >= 70.0 then 11
      else if age >= 65.0 then 10
      else if age >= 60.0 then 8
      else if age >= 55.0 then 6
      else if age >= 50.0 then 4
      else if age >= 45.0 then 2
      else if age >= 40.0 then 1
      else 0
    else
      if age >= 70.0 then 12
      else if age >= 65.0 then 11
      else if age >= 60.0 then 9
      else if age >= 55.0 then 7
      else if age >= 50.0 then 5
      else if age >= 45.0 then 3
      else if age >= 40.0 then 1
      else 0
  }

  function FraminghamCholesterolPoints(cholesterol: real): (pts: int)
    ensures 0 <= pts <= 3
    ensures pts == 0 <==> cholesterol < 200.0
  {
    if cholesterol >= 280.0 then 3
    else if cholesterol >= 240.0 then 2
    else if cholesterol >= 200.0 then 1
    else 0
  }

  function FraminghamSmokingPoints(gender: Gender, smoking: bool): (pts: int)
    ensures smoking && gender == Male ==> pts == 4
    ensures smoking && gender == Female ==> pts == 3
    ensures !smoking ==> pts == 0
  {
    if smoking then (if gender == Male then 4 else 3) else 0
  }

  function FraminghamPoints(p: PatientData): (pts: int)
    ensures 0 <= pts <= 18
  {
    FraminghamAgePoints(p.gender, p.age)
    + FraminghamCholesterolPoints(p.cholesterol)
    + FraminghamSmokingPoints(p.gender, p.smoking)
  }

  /** Twice the points as a percentage, clamped to [1, 30], returned as a fraction. */
  function CalculateFraminghamRisk(p: PatientData): (risk: real)
    ensures 0.01 <= risk <= 0.30
    ensures 1 <= 2 * FraminghamPoints(p) <= 30 ==> risk == (2 * FraminghamPoints(p)) as real / 100.0
    ensures FraminghamPoints(p) == 0 ==> risk == 0.01
    ensures FraminghamPoints(p) >= 15 ==> risk == 0.30
  {
    var riskPercentage := Min(Max((FraminghamPoints(p) * 2) as real, 1.0), 30.0);
    riskPercentage / 100.0
  }
}
