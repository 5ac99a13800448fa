/**
 Declarative reference definitions of the estimator: the score as the total of
 a table of (condition, weight) rules, where within each tiered group the
 conditions are disjoint, and the recommendations as the applicable rows of a
 (condition, advice) table.
 The lemmas here show that the estimator's if-else chains compute exactly what
 the tables say.
 */
module RuleTables {
  import opened Medical
  import opened MlModel

  // ---------------------------------------------------------------------------
  // Score rules
  // ---------------------------------------------------------------------------

  datatype ScoreRule = ScoreRule(fires: bool, weight: real)

  /** Every rule that fires carries a non-negative weight. */
  ghost predicate FiredWeightsNonNegative(rules: seq<ScoreRule>) {
    forall i :: 0 <= i < |rules| && rules[i].fires ==> rules[i].weight >= 0.0
  }

  /** The sum of the weights of the rules that fire. */
  function FiredTotal(rules: seq<ScoreRule>): (total: real)
    ensures FiredWeightsNonNegative(rules) ==> total >= 0.0
  {
    if |rules| == 0 then 0.0
    else (if rules[0].fires then rules[0].weight else 0.0) + FiredTotal(rules[1..])
  }

  lemma {:induction false} FiredTotalAppend(a: seq<ScoreRule>, b: seq<ScoreRule>)
    ensures FiredTotal(a + b) == FiredTotal(a) + FiredTotal(b)
    decreases |a|
  {
    if |a| == 0 {
      assert a + b == b;
    } else {
      assert (a + b)[1..] == a[1..] + b;
      FiredTotalAppend(a[1..], b);
    }
  }

  lemma FiredTotalPair(r0: ScoreRule, r1: ScoreRule)
    ensures FiredTotal([r0, r1]) == (if r0.fires then r0.weight else 0.0) + (if r1.fires then r1.weight else 0.0)
  {
    assert [r0, r1][1..] == [r1];
    assert [r1][1..] == [];
    assert FiredTotal([r1]) == (if r1.fires then r1.weight else 0.0) + FiredTotal([]);
  }

  /** At most one rule of the group fires. */
  ghost predicate Exclusive(rules: seq<ScoreRule>) {
    forall i, j :: 0 <= i < |rules| && 0 <= j < |rules| && rules[i].fires && rules[j].fires ==> i == j
  }

  function AgeRules(age: real): seq<ScoreRule> {
    [ ScoreRule(age >= 65.0, 0.25),
      ScoreRule(55.0 <= age < 65.0, 0.15),
      ScoreRule(45.0 <= age < 55.0, 0.08),
      ScoreRule(35.0 <= age < 45.0, 0.03) ]
  }

  function GenderRules(gender: Gender, age: real): seq<ScoreRule> {
    [ ScoreRule(gender == Male && age >= 45.0, 0.1),
      ScoreRule(gender == Female && age >= 55.0, 0.08) ]
  }

  /** The blood-pressure term as two rules: whichever normalised excess over
      120/80 is the larger and positive contributes a fifth of itself. */
  function PressureRules(systolic: real, diastolic: real): seq<ScoreRule> {
    var s := (systolic - 120.0) / 160.0;
    var d := (diastolic - 80.0) / 100.0;
    [ ScoreRule(s > 0.0 && s >= d, s * 0.2),
      ScoreRule(d > 0.0 && d > s, d * 0.2) ]
  }

  function CholesterolRules(cholesterol: real): seq<ScoreRule> {
    [ ScoreRule(cholesterol >= 240.0, 0.15),
      ScoreRule(200.0 <= cholesterol < 240.0, 0.08) ]
  }

  function GlucoseRules(glucose: real): seq<ScoreRule> {
    [ ScoreRule(glucose >= 126.0, 0.12),
      ScoreRule(100.0 <= glucose < 126.0, 0.05) ]
  }

  function BmiRules(bmi: BodyMassIndex): seq<ScoreRule> {
    [ ScoreRule(bmi.AtLeast(30.0), 0.1),
      ScoreRule(bmi.AtLeast(25.0) && !bmi.AtLeast(30.0), 0.05) ]
  }

  function LifestyleRules(p: PatientData): seq<ScoreRule> {
    [ ScoreRule(p.smoking, 0.15),
      ScoreRule(p.alcohol, 0.05),
      ScoreRule(!p.physicalActivity, 0.08),
      ScoreRule(p.familyHistory, 0.1) ]
  }

  /** The whole rule table for one patient, in the estimator's rule order. */
  function ScoreTable(p: PatientData): seq<ScoreRule> {
    AgeRules(p.age)
    + GenderRules(p.gender, p.age)
    + PressureRules(p.systolicBP, p.diastolicBP)
    + CholesterolRules(p.cholesterol)
    + GlucoseRules(p.glucose)
    + BmiRules(PatientBmi(p))
    + LifestyleRules(p)
  }

  /** Every rule of the table that fires carries a non-negative weight; in
      particular the pressure rules fire only for a positive excess. */
  lemma ScoreTableFiresNonNegative(p: PatientData)
    ensures FiredWeightsNonNegative(ScoreTable(p))
    ensures FiredTotal(ScoreTable(p)) >= 0.0
  {
    var t := ScoreTable(p);
    forall i | 0 <= i < |t| && t[i].fires ensures t[i].weight >= 0.0 {
    }
  }

  /** Each tiered rule group has disjoint conditions, as the if-else chains imply. */
  lemma TieredGroupsExclusive(p: PatientData)
    ensures Exclusive(AgeRules(p.age))
    ensures Exclusive(GenderRules(p.gender, p.age))
    ensures Exclusive(PressureRules(p.systolicBP, p.diastolicBP))
    ensures Exclusive(CholesterolRules(p.cholesterol))
    ensures Exclusive(GlucoseRules(p.glucose))
    ensures Exclusive(BmiRules(PatientBmi(p)))
  {
  }

  lemma AgeRulesMatch(age: real)
    ensures FiredTotal(AgeRules(age)) == AgeWeight(age)
  {
    var rs := AgeRules(age);
    assert rs == [rs[0], rs[1]] + [rs[2], rs[3]];
    FiredTotalAppend([rs[0], rs[1]], [rs[2], rs[3]]);
    FiredTotalPair(rs[0], rs[1]);
    FiredTotalPair(rs[2], rs[3]);
  }

  lemma PressureRulesMatch(systolic: real, diastolic: real)
    ensures FiredTotal(PressureRules(systolic, diastolic)) == BloodPressureWeight(systolic, diastolic)
  {
    var rs := PressureRules(systolic, diastolic);
    FiredTotalPair(rs[0], rs[1]);
  }

  lemma LifestyleRulesMatch(p: PatientData)
    ensures FiredTotal(LifestyleRules(p)) == LifestyleWeight(p)
  {
    var rs := LifestyleRules(p);
    assert rs == [rs[0], rs[1]] + [rs[2], rs[3]];
    FiredTotalAppend([rs[0], rs[1]], [rs[2], rs[3]]);
    FiredTotalPair(rs[0], rs[1]);
    FiredTotalPair(rs[2], rs[3]);
  }

  /** The estimator's accumulated score is the total of its rule table. */
  lemma ScoreMatchesRuleTable(p: PatientData)
    ensures RawScore(p) == FiredTotal(ScoreTable(p))
  {
    var age := AgeRules(p.age);
    var gender := GenderRules(p.gender, p.age);
    var pressure := PressureRules(p.systolicBP, p.diastolicBP);
    var cholesterol := CholesterolRules(p.cholesterol);
    var glucose := GlucoseRules(p.glucose);
    var bmi := BmiRules(PatientBmi(p));
    var lifestyle := LifestyleRules(p);
    AgeRulesMatch(p.age);
    FiredTotalPair(gender[0], gender[1]);
    PressureRulesMatch(p.systolicBP, p.diastolicBP);
    FiredTotalPair(cholesterol[0], cholesterol[1]);
    FiredTotalPair(glucose[0], glucose[1]);
    FiredTotalPair(bmi[0], bmi[1]);
    LifestyleRulesMatch(p);
    FiredTotalAppend(age, gender);
    FiredTotalAppend(age + gender, pressure);
    FiredTotalAppend(age + gender + pressure, cholesterol);
    FiredTotalAppend(age + gender + pressure + cholesterol, glucose);
    FiredTotalAppend(age + gender + pressure + cholesterol + glucose, bmi);
    FiredTotalAppend(age + gender + pressure + cholesterol + glucose + bmi, lifestyle);
  }

  // ---------------------------------------------------------------------------
  // Recommendation rules
  // ---------------------------------------------------------------------------

  datatype AdviceRule = AdviceRule(applies: bool, advice: Advice)

  /** The position of each recommendation in the estimator's rule order. */
  function AdviceRank(a: Advice): nat {
    match a
    case SmokingCessation => 0
    case BloodPressureManagement => 1
    case LipidManagement => 2
    case WeightManagement => 3
    case ExerciseProgram => 4
    case GlucoseMonitoring => 5
    case FollowUp => 6
    case Aspirin => 7
    case CardiologyConsult => 8
  }

  ghost predicate Recommends(rules: seq<AdviceRule>, a: Advice) {
    exists i :: 0 <= i < |rules| && rules[i].applies && rules[i].advice == a
  }

  /** Strictly increasing rank: sorted by rule order, no entry twice. */
  ghost predicate RankOrdered(advice: seq<Advice>) {
    forall i, j :: 0 <= i < j < |advice| ==> AdviceRank(advice[i]) < AdviceRank(advice[j])
  }

  ghost predicate RulesRankOrdered(rules: seq<AdviceRule>) {
    forall i, j :: 0 <= i < j < |rules| ==> AdviceRank(rules[i].advice) < AdviceRank(rules[j].advice)
  }

  /** A conditional push keeps every earlier entry in place and grows the list
      by one entry, the advice, exactly when its condition holds. */
  lemma PushIfAppends(recommendations: seq<Advice>, applies: bool, advice: Advice)
    ensures |PushIf(recommendations, applies, advice)| == |recommendations| + (if applies then 1 else 0)
    ensures forall i :: 0 <= i < |recommendations| ==> PushIf(recommendations, applies, advice)[i] == recommendations[i]
    ensures applies ==> PushIf(recommendations, applies, advice)[|recommendations|] == advice
  {
  }

  /** The advice of the applicable rows, in table order: rows are taken one at a
      time from the front, each appending its piece, as the estimator pushes. */
  function Applicable(rules: seq<AdviceRule>): (advice: seq<Advice>)
    ensures |advice| <= |rules|
  {
    if |rules| == 0 then []
    else PushIf(Applicable(rules[..|rules| - 1]), rules[|rules| - 1].applies, rules[|rules| - 1].advice)
  }

  function CountApplying(rules: seq<AdviceRule>): nat {
    if |rules| == 0 then 0
    else CountApplying(rules[..|rules| - 1]) + (if rules[|rules| - 1].applies then 1 else 0)
  }

  lemma {:induction false} ApplicableLength(rules: seq<AdviceRule>)
    ensures |Applicable(rules)| == CountApplying(rules)
    decreases |rules|
  {
    if |rules| > 0 {
      ApplicableLength(rules[..|rules| - 1]);
    }
  }

  /** An advice is in the filtered list exactly when some applicable row carries it. */
  lemma {:induction false} ApplicableMembers(rules: seq<AdviceRule>, a: Advice)
    ensures a in Applicable(rules) <==> Recommends(rules, a)
    decreases |rules|
  {
    if |rules| > 0 {
      var n := |rules| - 1;
      var front := rules[..n];
      ApplicableMembers(front, a);
      if Recommends(front, a) {
        var i :| 0 <= i < |front| && front[i].applies && front[i].advice == a;
        assert rules[i] == front[i];
      }
      if Recommends(rules, a) {
        var i :| 0 <= i < |rules| && rules[i].applies && rules[i].advice == a;
        if i < n {
          assert front[i] == rules[i];
        }
      }
    }
  }

  /** Filtering keeps the order of the table. */
  lemma {:induction false} ApplicableKeepsOrder(rules: seq<AdviceRule>)
    requires RulesRankOrdered(rules)
    ensures RankOrdered(Applicable(rules))
    decreases |rules|
  {
    if |rules| > 0 {
      var n := |rules| - 1;
      var front := rules[..n];
      assert RulesRankOrdered(front) by {
        forall i, j | 0 <= i < j < |front| ensures AdviceRank(front[i].advice) < AdviceRank(front[j].advice) {
          assert front[i] == rules[i] && front[j] == rules[j];
        }
      }
      ApplicableKeepsOrder(front);
      var rest := Applicable(front);
      if rules[n].applies {
        forall k | 0 <= k < |rest| ensures AdviceRank(rest[k]) < AdviceRank(rules[n].advice) {
          ApplicableMembers(front, rest[k]);
          var i :| 0 <= i < |front| && front[i].applies && front[i].advice == rest[k];
          assert front[i] == rules[i];
        }
        RankOrderedSnoc(rest, rules[n].advice);
      }
    }
  }

  lemma RankOrderedSnoc(advice: seq<Advice>, a: Advice)
    requires RankOrdered(advice)
    requires forall k :: 0 <= k < |advice| ==> AdviceRank(advice[k]) < AdviceRank(a)
    ensures RankOrdered(advice + [a])
  {
  }

  /** The nine recommendation rules in the order the estimator evaluates them. */
  function AdviceTable(p: PatientData, level: RiskLevel): seq<AdviceRule> {
    [ AdviceRule(p.smoking, SmokingCessation),
      AdviceRule(p.systolicBP >= 140.0 || p.diastolicBP >= 90.0, BloodPressureManagement),
      AdviceRule(p.cholesterol >= 200.0, LipidManagement),
      AdviceRule(PatientBmi(p).AtLeast(25.0), WeightManagement),
      AdviceRule(!p.physicalActivity, ExerciseProgram),
      AdviceRule(p.glucose >= 100.0, GlucoseMonitoring),
      AdviceRule(true, FollowUp),
      AdviceRule(true, Aspirin),
      AdviceRule(level == High, CardiologyConsult) ]
  }

  lemma AdviceTableRanked(p: PatientData, level: RiskLevel)
    ensures |AdviceTable(p, level)| == 9
    ensures forall i :: 0 <= i < 9 ==> AdviceRank(AdviceTable(p, level)[i].advice) == i
    ensures RulesRankOrdered(AdviceTable(p, level))
  {
  }

  /** One step of the fold on a prefix of the table. */
  lemma ApplicableSnoc(t: seq<AdviceRule>, k: nat)
    requires k < |t|
    ensures Applicable(t[..k + 1]) == PushIf(Applicable(t[..k]), t[k].applies, t[k].advice)
  {
    assert t[..k + 1][..k] == t[..k];
  }

  /** The six conditional pushes produce the applicable rows among the first
      six of the table. */
  lemma ConditionalAdviceMatchesTable(p: PatientData, level: RiskLevel)
    ensures ConditionalAdvice(p) == Applicable(AdviceTable(p, level)[..6])
  {
    var t := AdviceTable(p, level);
    assert t[..0] == [];
    ApplicableSnoc(t, 0);
    ApplicableSnoc(t, 1);
    ApplicableSnoc(t, 2);
    ApplicableSnoc(t, 3);
    ApplicableSnoc(t, 4);
    ApplicableSnoc(t, 5);
  }

  /** The estimator's pushes produce exactly the applicable rows of the table. */
  lemma RecommendationsMatchTable(p: PatientData, level: RiskLevel)
    ensures Recommendations(p, level) == Applicable(AdviceTable(p, level))
  {
    var t := AdviceTable(p, level);
    ConditionalAdviceMatchesTable(p, level);
    ApplicableSnoc(t, 6);
    ApplicableSnoc(t, 7);
    ApplicableSnoc(t, 8);
    assert t[..9] == t;
  }
}
