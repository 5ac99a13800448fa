/**
 Properties of the estimator as a whole: the shape of the factor analysis, the
 agreement between factors, score and recommendations, the order and count of
 the recommendations, monotonicity of the score, and worked examples.
 */
module RiskProperties {
  import opened Medical
  import opened MlModel
  import opened RuleTables

  // ---------------------------------------------------------------------------
  // Factors
  // ---------------------------------------------------------------------------

  /** The six factors are named, in order, Age, Blood Pressure, Cholesterol,
      BMI, Smoking Status and Physical Activity, whatever the patient. */
  lemma FactorNamesInOrder(p: PatientData)
    ensures |Factors(p)| == 6
    ensures Factors(p)[0].name == "Age"
    ensures Factors(p)[1].name == "Blood Pressure"
    ensures Factors(p)[2].name == "Cholesterol"
    ensures Factors(p)[3].name == "BMI"
    ensures Factors(p)[4].name == "Smoking Status"
    ensures Factors(p)[5].name == "Physical Activity"
  {
    FactorsInOrder(p);
  }

  /** The impact of each factor, stated as a threshold condition. */
  lemma FactorImpactRules(p: PatientData)
    ensures Factors(p)[0].impact != Positive
    ensures Factors(p)[0].impact == Negative <==> p.age >= 45.0
    ensures Factors(p)[1].impact != Neutral
    ensures Factors(p)[1].impact == Negative <==> p.systolicBP >= 120.0 || p.diastolicBP >= 80.0
    ensures Factors(p)[2].impact != Neutral
    ensures Factors(p)[2].impact == Negative <==> p.cholesterol >= 200.0
    ensures Factors(p)[3].impact != Neutral
    ensures Factors(p)[3].impact == Negative <==> PatientBmi(p).AtLeast(25.0)
    ensures Factors(p)[4].impact != Neutral
    ensures Factors(p)[4].impact == Negative <==> p.smoking
    ensures Factors(p)[5].impact != Neutral
    ensures Factors(p)[5].impact == Positive <==> p.physicalActivity
  {
    FactorsInOrder(p);
    AgeImpact(p.age);
    PressureImpact(p.systolicBP, p.diastolicBP);
    CholesterolImpact(p.cholesterol);
    BmiImpact(PatientBmi(p));
  }

  lemma FactorsInOrder(p: PatientData)
    ensures Factors(p)[0] == AgeFactor(p.age)
    ensures Factors(p)[1] == BloodPressureFactor(p.systolicBP, p.diastolicBP)
    ensures Factors(p)[2] == CholesterolFactor(p.cholesterol)
    ensures Factors(p)[3] == BmiFactor(PatientBmi(p))
    ensures Factors(p)[4] == SmokingFactor(p.smoking)
    ensures Factors(p)[5] == ActivityFactor(p.physicalActivity)
  {
  }

  lemma AgeImpact(age: real)
    ensures AgeFactor(age).impact != Positive
    ensures AgeFactor(age).impact == Negative <==> age >= 45.0
    ensures AgeFactor(age).impact == Negative <==> AgeWeight(age) >= 0.08
  {
  }

  lemma PressureImpact(systolic: real, diastolic: real)
    ensures BloodPressureFactor(systolic, diastolic).impact != Neutral
    ensures BloodPressureFactor(systolic, diastolic).impact == Negative <==> systolic >= 120.0 || diastolic >= 80.0
    ensures BloodPressureFactor(systolic, diastolic).impact == Positive ==> BloodPressureWeight(systolic, diastolic) == 0.0
  {
  }

  lemma CholesterolImpact(cholesterol: real)
    ensures CholesterolFactor(cholesterol).impact != Neutral
    ensures CholesterolFactor(cholesterol).impact == Negative <==> cholesterol >= 200.0
    ensures CholesterolFactor(cholesterol).impact == Negative <==> CholesterolWeight(cholesterol) > 0.0
  {
  }

  lemma BmiImpact(bmi: BodyMassIndex)
    ensures BmiFactor(bmi).impact != Neutral
    ensures BmiFactor(bmi).impact == Negative <==> bmi.AtLeast(25.0)
    ensures BmiFactor(bmi).impact == Negative <==> BmiWeight(bmi) > 0.0
  {
  }

  /** Every factor description, stated as the reading range that selects it.
      Age, blood pressure, cholesterol and BMI grade their description in three
      tiers; blood pressure, cholesterol and BMI grade their impact in only two,
      negative exactly when the description is not the healthy one. */
  lemma ThreeTierDescriptionTwoTierImpact(p: PatientData)
    ensures Factors(p)[0].description == "Advanced age significantly increases risk" <==> p.age >= 65.0
    ensures Factors(p)[0].description == "Age is a moderate risk factor" <==> 45.0 <= p.age < 65.0
    ensures Factors(p)[0].description == "Age is not a significant risk factor" <==> p.age < 45.0
    ensures Factors(p)[1].description == "Hypertensive - significant risk factor"
            <==> p.systolicBP >= 140.0 || p.diastolicBP >= 90.0
    ensures Factors(p)[1].description == "Elevated blood pressure"
            <==> !(p.systolicBP >= 140.0 || p.diastolicBP >= 90.0) && (p.systolicBP >= 120.0 || p.diastolicBP >= 80.0)
    ensures Factors(p)[1].description == "Normal blood pressure" <==> p.systolicBP < 120.0 && p.diastolicBP < 80.0
    ensures Factors(p)[1].description == "Normal blood pressure" <==> Factors(p)[1].impact == Positive
    ensures Factors(p)[2].description == "High cholesterol - major risk factor" <==> p.cholesterol >= 240.0
    ensures Factors(p)[2].description == "Borderline high cholesterol" <==> 200.0 <= p.cholesterol < 240.0
    ensures Factors(p)[2].description == "Optimal cholesterol level" <==> p.cholesterol < 200.0
    ensures Factors(p)[2].description == "Optimal cholesterol level" <==> Factors(p)[2].impact == Positive
    ensures Factors(p)[3].description == "Obese - increased cardiovascular risk" <==> PatientBmi(p).AtLeast(30.0)
    ensures Factors(p)[3].description == "Overweight - moderate risk factor"
            <==> PatientBmi(p).AtLeast(25.0) && !PatientBmi(p).AtLeast(30.0)
    ensures Factors(p)[3].description == "Healthy weight range" <==> !PatientBmi(p).AtLeast(25.0)
    ensures Factors(p)[3].description == "Healthy weight range" <==> Factors(p)[3].impact == Positive
    ensures Factors(p)[4].description == "Smoking significantly increases cardiovascular risk" <==> p.smoking
    ensures Factors(p)[4].description == "Non-smoking status reduces risk" <==> !p.smoking
    ensures Factors(p)[5].description == "Regular exercise reduces cardiovascular risk" <==> p.physicalActivity
    ensures Factors(p)[5].description == "Sedentary lifestyle increases risk" <==> !p.physicalActivity
  {
    FactorsInOrder(p);
    PressureImpact(p.systolicBP, p.diastolicBP);
    CholesterolImpact(p.cholesterol);
    BmiImpact(PatientBmi(p));
    AgeDescriptions(p.age);
    PressureDescriptions(p.systolicBP, p.diastolicBP);
    CholesterolDescriptions(p.cholesterol);
    BmiDescriptions(PatientBmi(p));
    SmokingDescriptions(p.smoking);
    ActivityDescriptions(p.physicalActivity);
  }

  lemma AgeDescriptions(age: real)
    ensures AgeFactor(age).description == "Advanced age significantly increases risk" <==> age >= 65.0
    ensures AgeFactor(age).description == "Age is a moderate risk factor" <==> 45.0 <= age < 65.0
    ensures AgeFactor(age).description == "Age is not a significant risk factor" <==> age < 45.0
  {
  }

  lemma PressureDescriptions(systolic: real, diastolic: real)
    ensures BloodPressureFactor(systolic, diastolic).description == "Hypertensive - significant risk factor"
            <==> systolic >= 140.0 || diastolic >= 90.0
    ensures BloodPressureFactor(systolic, diastolic).description == "Elevated blood pressure"
            <==> !(systolic >= 140.0 || diastolic >= 90.0) && (systolic >= 120.0 || diastolic >= 80.0)
    ensures BloodPressureFactor(systolic, diastolic).description == "Normal blood pressure"
            <==> systolic < 120.0 && diastolic < 80.0
  {
  }

  lemma CholesterolDescriptions(cholesterol: real)
    ensures CholesterolFactor(cholesterol).description == "High cholesterol - major risk factor" <==> cholesterol >= 240.0
    ensures CholesterolFactor(cholesterol).description == "Borderline high cholesterol" <==> 200.0 <= cholesterol < 240.0
    ensures CholesterolFactor(cholesterol).description == "Optimal cholesterol level" <==> cholesterol < 200.0
  {
  }

  lemma BmiDescriptions(bmi: BodyMassIndex)
    ensures BmiFactor(bmi).description == "Obese - increased cardiovascular risk" <==> bmi.AtLeast(30.0)
    ensures BmiFactor(bmi).description == "Overweight - moderate risk factor" <==> bmi.AtLeast(25.0) && !bmi.AtLeast(30.0)
    ensures BmiFactor(bmi).description == "Healthy weight range" <==> !bmi.AtLeast(25.0)
  {
  }

  lemma SmokingDescriptions(smoking: bool)
    ensures SmokingFactor(smoking).description == "Smoking significantly increases cardiovascular risk" <==> smoking
    ensures SmokingFactor(smoking).description == "Non-smoking status reduces risk" <==> !smoking
  {
  }

  lemma ActivityDescriptions(active: bool)
    ensures ActivityFactor(active).description == "Regular exercise reduces cardiovascular risk" <==> active
    ensures ActivityFactor(active).description == "Sedentary lifestyle increases risk" <==> !active
  {
  }

  /** The displayed value of each factor: the readings themselves, or the
      smoking and activity labels. */
  lemma FactorValues(p: PatientData)
    ensures Factors(p)[0].value == Years(p.age)
    ensures Factors(p)[1].value == Pressure(p.systolicBP, p.diastolicBP)
    ensures Factors(p)[2].value == Concentration(p.cholesterol)
    ensures Factors(p)[3].value == BmiReading(PatientBmi(p))
    ensures Factors(p)[4].value == Label(if p.smoking then "Current smoker" else "Non-smoker")
    ensures Factors(p)[5].value == Label(if p.physicalActivity then "Active" else "Sedentary")
  {
    FactorsInOrder(p);
  }

  /** The factor impacts use the score's own thresholds: a negative impact marks
      a non-zero score term, except for blood pressure exactly at 120/80 (see
      the next lemma). */
  lemma FactorImpactsAgreeWithScore(p: PatientData)
    ensures Factors(p)[0].impact == Negative <==> AgeWeight(p.age) >= 0.08
    ensures Factors(p)[1].impact == Positive ==> BloodPressureWeight(p.systolicBP, p.diastolicBP) == 0.0
    ensures BloodPressureWeight(p.systolicBP, p.diastolicBP) > 0.0 ==> Factors(p)[1].impact == Negative
    ensures Factors(p)[2].impact == Negative <==> CholesterolWeight(p.cholesterol) > 0.0
    ensures Factors(p)[3].impact == Negative <==> BmiWeight(PatientBmi(p)) > 0.0
  {
    FactorsInOrder(p);
    AgeImpact(p.age);
    PressureImpact(p.systolicBP, p.diastolicBP);
    CholesterolImpact(p.cholesterol);
    BmiImpact(PatientBmi(p));
  }

  /** At exactly 120 systolic or 80 diastolic (and no higher reading) the blood
      pressure factor already reports a negative impact while the score's blood
      pressure term is still zero. */
  lemma BloodPressureBoundary(p: PatientData)
    requires p.systolicBP <= 120.0 && p.diastolicBP <= 80.0
    requires p.systolicBP == 120.0 || p.diastolicBP == 80.0
    ensures Factors(p)[1].impact == Negative
    ensures Factors(p)[1].description == "Elevated blood pressure"
    ensures BloodPressureWeight(p.systolicBP, p.diastolicBP) == 0.0
  {
  }

  // ---------------------------------------------------------------------------
  // Recommendations
  // ---------------------------------------------------------------------------

  /** How many of the six patient conditions that trigger a recommendation hold. */
  function ConditionCount(p: PatientData): nat {
    (if p.smoking then 1 else 0)
    + (if p.systolicBP >= 140.0 || p.diastolicBP >= 90.0 then 1 else 0)
    + (if p.cholesterol >= 200.0 then 1 else 0)
    + (if PatientBmi(p).AtLeast(25.0) then 1 else 0)
    + (if !p.physicalActivity then 1 else 0)
    + (if p.glucose >= 100.0 then 1 else 0)
  }

  /** Each recommendation is made exactly when its condition holds. */
  lemma RecommendationMembership(p: PatientData, level: RiskLevel)
    ensures SmokingCessation in Recommendations(p, level) <==> p.smoking
    ensures BloodPressureManagement in Recommendations(p, level) <==> p.systolicBP >= 140.0 || p.diastolicBP >= 90.0
    ensures LipidManagement in Recommendations(p, level) <==> p.cholesterol >= 200.0
    ensures WeightManagement in Recommendations(p, level) <==> PatientBmi(p).AtLeast(25.0)
    ensures ExerciseProgram in Recommendations(p, level) <==> !p.physicalActivity
    ensures GlucoseMonitoring in Recommendations(p, level) <==> p.glucose >= 100.0
    ensures FollowUp in Recommendations(p, level)
    ensures Aspirin in Recommendations(p, level)
    ensures CardiologyConsult in Recommendations(p, level) <==> level == High
  {
    RecommendationsMatchTable(p, level);
    TableMembership(p, level, 0);
    TableMembership(p, level, 1);
    TableMembership(p, level, 2);
    TableMembership(p, level, 3);
    TableMembership(p, level, 4);
    TableMembership(p, level, 5);
    TableMembership(p, level, 6);
    TableMembership(p, level, 7);
    TableMembership(p, level, 8);
  }

  /** Row i's advice is recommended exactly when row i applies: no other row carries it. */
  lemma TableMembership(p: PatientData, level: RiskLevel, i: nat)
    requires i < 9
    ensures AdviceTable(p, level)[i].advice in Applicable(AdviceTable(p, level)) <==> AdviceTable(p, level)[i].applies
  {
    var t := AdviceTable(p, level);
    var a := t[i].advice;
    AdviceTableRanked(p, level);
    ApplicableMembers(t, a);
    if Recommends(t, a) {
      var j :| 0 <= j < |t| && t[j].applies && t[j].advice == a;
      assert AdviceRank(t[j].advice) == j;
    }
  }

  /** The recommendations come in rule order, each at most once. */
  lemma RecommendationsOrdered(p: PatientData, level: RiskLevel)
    ensures forall i, j :: 0 <= i < j < |Recommendations(p, level)| ==>
      AdviceRank(Recommendations(p, level)[i]) < AdviceRank(Recommendations(p, level)[j])
  {
    RecommendationsMatchTable(p, level);
    AdviceTableRanked(p, level);
    ApplicableKeepsOrder(AdviceTable(p, level));
  }

  /** The length and last letter of each sentence; together they tell the
      nine sentences apart. */
  function TextSignature(a: Advice): (int, char) {
    match a
    case SmokingCessation => (74, 'd')
    case BloodPressureManagement => (72, 'n')
    case LipidManagement => (68, 'y')
    case WeightManagement => (77, 'y')
    case ExerciseProgram => (83, ')')
    case GlucoseMonitoring => (61, 'd')
    case FollowUp => (65, 'g')
    case Aspirin => (62, 's')
    case CardiologyConsult => (61, 'n')
  }

  predicate HasSignature(a: Advice) {
    |a.Text()| > 0 && (|a.Text()|, a.Text()[|a.Text()| - 1]) == TextSignature(a)
  }

  // One lemma per sentence: each unfolds a single literal, which keeps the
  // solver away from comparing all nine at once.
  lemma SmokingCessationSignature()
    ensures HasSignature(SmokingCessation)
  {
  }

  lemma BloodPressureManagementSignature()
    ensures HasSignature(BloodPressureManagement)
  {
  }

  lemma LipidManagementSignature()
    ensures HasSignature(LipidManagement)
  {
  }

  lemma WeightManagementSignature()
    ensures HasSignature(WeightManagement)
  {
  }

  lemma ExerciseProgramSignature()
    ensures HasSignature(ExerciseProgram)
  {
  }

  lemma GlucoseMonitoringSignature()
    ensures HasSignature(GlucoseMonitoring)
  {
  }

  lemma FollowUpSignature()
    ensures HasSignature(FollowUp)
  {
  }

  lemma AspirinSignature()
    ensures HasSignature(Aspirin)
  {
  }

  lemma CardiologyConsultSignature()
    ensures HasSignature(CardiologyConsult)
  {
  }

  lemma TextHasSignature(a: Advice)
    ensures HasSignature(a)
  {
    match a
    case SmokingCessation => SmokingCessationSignature();
    case BloodPressureManagement => BloodPressureManagementSignature();
    case LipidManagement => LipidManagementSignature();
    case WeightManagement => WeightManagementSignature();
    case ExerciseProgram => ExerciseProgramSignature();
    case GlucoseMonitoring => GlucoseMonitoringSignature();
    case FollowUp => FollowUpSignature();
    case Aspirin => AspirinSignature();
    case CardiologyConsult => CardiologyConsultSignature();
  }

  lemma SignatureInjective(a: Advice, b: Advice)
    ensures TextSignature(a) == TextSignature(b) ==> a == b
  {
  }

  lemma SignatureSeparates(s: string, t: string)
    requires |s| > 0 && |t| > 0
    requires (|s|, s[|s| - 1]) != (|t|, t[|t| - 1])
    ensures s != t
  {
  }

  /** Distinct recommendations have distinct sentences, so what holds of the
      advice list holds of the list of strings the estimator returns. */
  lemma TextInjective(a: Advice, b: Advice)
    ensures a != b ==> a.Text() != b.Text()
  {
    if a != b {
      TextHasSignature(a);
      TextHasSignature(b);
      SignatureInjective(a, b);
      SignatureSeparates(a.Text(), b.Text());
    }
  }

  /** No sentence is recommended twice. */
  lemma RecommendationTextsDistinct(p: PatientData, level: RiskLevel)
    ensures forall i, j :: 0 <= i < j < |Recommendations(p, level)| ==>
      Recommendations(p, level)[i].Text() != Recommendations(p, level)[j].Text()
  {
    var rs := Recommendations(p, level);
    RecommendationsOrdered(p, level);
    forall i, j | 0 <= i < j < |rs| ensures rs[i].Text() != rs[j].Text() {
      assert AdviceRank(rs[i]) < AdviceRank(rs[j]);
      TextInjective(rs[i], rs[j]);
    }
  }

  /** One entry per applicable table row: two unconditional entries, one per
      true condition, one more when High. */
  lemma RecommendationCount(p: PatientData, level: RiskLevel)
    ensures |Recommendations(p, level)| == CountApplying(AdviceTable(p, level))
    ensures |Recommendations(p, level)| == 2 + ConditionCount(p) + (if level == High then 1 else 0)
  {
    var t := AdviceTable(p, level);
    RecommendationsMatchTable(p, level);
    ApplicableLength(t);
    assert t[..0] == [];
    CountSnoc(t, 0);
    CountSnoc(t, 1);
    CountSnoc(t, 2);
    CountSnoc(t, 3);
    CountSnoc(t, 4);
    CountSnoc(t, 5);
    CountSnoc(t, 6);
    CountSnoc(t, 7);
    CountSnoc(t, 8);
    assert t[..9] == t;
  }

  lemma CountSnoc(t: seq<AdviceRule>, k: nat)
    requires k < |t|
    ensures CountApplying(t[..k + 1]) == CountApplying(t[..k]) + (if t[k].applies then 1 else 0)
  {
    assert t[..k + 1][..k] == t[..k];
  }

  /** The follow-up and aspirin entries close the list, followed only by the
      cardiology consultation, which is present exactly at High risk. */
  lemma RecommendationsTail(p: PatientData, level: RiskLevel)
    ensures level == High ==>
              (|Recommendations(p, level)| >= 3 &&
               Recommendations(p, level)[|Recommendations(p, level)| - 3..] == [FollowUp, Aspirin, CardiologyConsult])
    ensures level != High ==>
              (|Recommendations(p, level)| >= 2 &&
               Recommendations(p, level)[|Recommendations(p, level)| - 2..] == [FollowUp, Aspirin])
  {
  }

  /** The recommendations repeat what the factor analysis shows. */
  lemma RecommendationsFollowFactors(p: PatientData)
    ensures var r := PredictCardiovascularRisk(p);
      && (SmokingCessation in r.recommendations <==> r.factors[4].impact == Negative)
      && (BloodPressureManagement in r.recommendations
          <==> r.factors[1].description == "Hypertensive - significant risk factor")
      && (LipidManagement in r.recommendations <==> r.factors[2].impact == Negative)
      && (WeightManagement in r.recommendations <==> r.factors[3].impact == Negative)
      && (ExerciseProgram in r.recommendations <==> r.factors[5].impact == Negative)
  {
    var r := PredictCardiovascularRisk(p);
    RecommendationMembership(p, r.riskLevel);
    FactorImpactRules(p);
    ThreeTierDescriptionTwoTierImpact(p);
  }

  // ---------------------------------------------------------------------------
  // Level and percentage
  // ---------------------------------------------------------------------------

  function LevelRank(level: RiskLevel): nat {
    match level
    case Low => 0
    case Moderate => 1
    case High => 2
  }

  /** A higher score never gives a lower level. */
  lemma ClassifyMonotone(s1: real, s2: real)
    requires s1 <= s2
    ensures LevelRank(Classify(s1)) <= LevelRank(Classify(s2))
  {
  }

  /** The rounded percentage stays in the band its level names. */
  lemma PercentageAgreesWithLevel(p: PatientData)
    ensures var r := PredictCardiovascularRisk(p);
      && (r.riskLevel == Low ==> r.riskPercentage <= 10)
      && (r.riskLevel == Moderate ==> 10 <= r.riskPercentage <= 20)
      && (r.riskLevel == High ==> r.riskPercentage >= 20)
  {
  }

  // ---------------------------------------------------------------------------
  // Monotonicity of the score
  // ---------------------------------------------------------------------------

  /** q is at least as exposed as p on every input of the score. */
  ghost predicate Dominates(q: PatientData, p: PatientData) {
    && q.gender == p.gender
    && q.age >= p.age
    && (forall t :: PatientBmi(p).AtLeast(t) ==> PatientBmi(q).AtLeast(t))
    && q.systolicBP >= p.systolicBP
    && q.diastolicBP >= p.diastolicBP
    && q.cholesterol >= p.cholesterol
    && q.glucose >= p.glucose
    && (p.smoking ==> q.smoking)
    && (p.alcohol ==> q.alcohol)
    && (q.physicalActivity ==> p.physicalActivity)
    && (p.familyHistory ==> q.familyHistory)
  }

  /** Worsening any input never lowers the score or the level. */
  lemma ScoreMonotone(p: PatientData, q: PatientData)
    requires Dominates(q, p)
    ensures RawScore(p) <= RawScore(q)
    ensures RiskScore(p) <= RiskScore(q)
    ensures LevelRank(PredictCardiovascularRisk(p).riskLevel) <= LevelRank(PredictCardiovascularRisk(q).riskLevel)
  {
    assert BmiWeight(PatientBmi(p)) <= BmiWeight(PatientBmi(q));
    assert AgeWeight(p.age) <= AgeWeight(q.age);
    assert GenderAgeWeight(p.gender, p.age) <= GenderAgeWeight(q.gender, q.age);
    assert BloodPressureWeight(p.systolicBP, p.diastolicBP) <= BloodPressureWeight(q.systolicBP, q.diastolicBP);
    assert CholesterolWeight(p.cholesterol) <= CholesterolWeight(q.cholesterol);
    assert GlucoseWeight(p.glucose) <= GlucoseWeight(q.glucose);
    assert LifestyleWeight(p) <= LifestyleWeight(q);
    ClassifyMonotone(RiskScore(p), RiskScore(q));
  }

  // ---------------------------------------------------------------------------
  // Worked examples
  // ---------------------------------------------------------------------------

  /** Age 0.08 + male over 45 0.10 + cholesterol 0.08: score 0.26, High, 26%.
      BMI is 70 / 1.7^2, about 24.2, below the overweight threshold. */
  lemma DefaultRecordIsHighRisk()
    ensures var r := PredictCardiovascularRisk(DefaultRecord());
      && r.riskScore == 0.26
      && r.riskLevel == High
      && r.riskPercentage == 26
      && r.recommendations == [LipidManagement, FollowUp, Aspirin, CardiologyConsult]
  {
    var p := DefaultRecord();
    assert !PatientBmi(p).AtLeast(25.0);
    assert RawScore(p) == 0.26;
    assert Round(26.0) == 26;
    assert ConditionalAdvice(p) == [LipidManagement];
  }

  /** A young, healthy record scores zero. */
  lemma HealthyRecordIsLowRisk()
    ensures var r := PredictCardiovascularRisk(
      PatientData(18.0, Female, 170.0, 60.0, 80.0, 40.0, 100.0, 60.0, false, false, true, false));
      && r.riskScore == 0.0
      && r.riskLevel == Low
      && r.riskPercentage == 0
      && r.recommendations == [FollowUp, Aspirin]
  {
    var p := PatientData(18.0, Female, 170.0, 60.0, 80.0, 40.0, 100.0, 60.0, false, false, true, false);
    assert !PatientBmi(p).AtLeast(25.0);
    assert Round(0.0) == 0;
    assert ConditionalAdvice(p) == [];
  }

  /** Every risk at its worst exceeds 1.0 before the cap, which then binds. */
  lemma CapBinds()
    ensures var p := PatientData(70.0, Male, 150.0, 120.0, 200.0, 120.0, 300.0, 150.0, true, true, false, true);
      && RawScore(p) > 1.0
      && PredictCardiovascularRisk(p).riskScore == 1.0
      && PredictCardiovascularRisk(p).riskPercentage == 100
  {
    var p := PatientData(70.0, Male, 150.0, 120.0, 200.0, 120.0, 300.0, 150.0, true, true, false, true);
    assert PatientBmi(p).AtLeast(30.0);
    assert Round(100.0) == 100;
  }

  /** A zero height: JavaScript's division gives an infinite BMI for a positive
      weight, which passes every BMI threshold, and NaN or -Infinity otherwise,
      which passes none. */
  lemma ZeroHeightBmi(p: PatientData, level: RiskLevel)
    requires p.height == 0.0
    ensures p.weight > 0.0 ==>
              && BmiWeight(PatientBmi(p)) == 0.1
              && Factors(p)[3].description == "Obese - increased cardiovascular risk"
              && WeightManagement in Recommendations(p, level)
    ensures p.weight <= 0.0 ==>
              && BmiWeight(PatientBmi(p)) == 0.0
              && Factors(p)[3].description == "Healthy weight range"
              && WeightManagement !in Recommendations(p, level)
  {
    FactorsInOrder(p);
    BmiDescriptions(PatientBmi(p));
    RecommendationMembership(p, level);
  }

  /** Systolic 140 and 139 (diastolic below the hypertensive 90) both give a
      negative impact; only the description changes from elevated to
      hypertensive. */
  lemma SystolicBoundary(p: PatientData)
    requires p.diastolicBP < 90.0
    ensures Factors(p.(systolicBP := 140.0))[1].impact == Negative
    ensures Factors(p.(systolicBP := 139.0))[1].impact == Negative
    ensures Factors(p.(systolicBP := 140.0))[1].description == "Hypertensive - significant risk factor"
    ensures Factors(p.(systolicBP := 139.0))[1].description == "Elevated blood pressure"
  {
  }
}
