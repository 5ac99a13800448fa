/**
 Properties of the simplified Framingham point score: the point tables as
 declarative tier tables, what each input adds, monotonicity, which inputs it
 ignores, and the form's default record.
 */
module FraminghamProperties {
  import opened Medical
  import opened MlModel

  // ---------------------------------------------------------------------------
  // Point tables
  // ---------------------------------------------------------------------------

  /** A reading at or above `threshold` earns `points`. */
  datatype Tier = Tier(threshold: real, points: int)

  /** The points of the first tier from position k on whose threshold the
      reading reaches, or none. */
  function FirstReachedFrom(tiers: seq<Tier>, k: nat, reading: real): int
    decreases |tiers| - k
  {
    if k >= |tiers| then 0
    else if reading >= tiers[k].threshold then tiers[k].points
    else FirstReachedFrom(tiers, k + 1, reading)
  }

  function FirstReached(tiers: seq<Tier>, reading: real): int {
    FirstReachedFrom(tiers, 0, reading)
  }

  /** Thresholds fall from tier to tier, points never rise, and no tier is
      worth less than none. */
  ghost predicate Descending(tiers: seq<Tier>) {
    && (forall i :: 0 < i < |tiers| ==> tiers[i].threshold < tiers[i - 1].threshold)
    && (forall i :: 0 < i < |tiers| ==> tiers[i].points <= tiers[i - 1].points)
    && (forall i :: 0 <= i < |tiers| ==> tiers[i].points >= 0)
  }

  const MaleAgeTiers: seq<Tier> :=
    [Tier(70.0, 11), Tier(65.0, 10), Tier(60.0, 8), Tier(55.0, 6), Tier(50.0, 4), Tier(45.0, 2), Tier(40.0, 1)]

  const FemaleAgeTiers: seq<Tier> :=
    [Tier(70.0, 12), Tier(65.0, 11), Tier(60.0, 9), Tier(55.0, 7), Tier(50.0, 5), Tier(45.0, 3), Tier(40.0, 1)]

  const CholesterolTiers: seq<Tier> :=
    [Tier(280.0, 3), Tier(240.0, 2), Tier(200.0, 1)]

  function AgeTiers(gender: Gender): seq<Tier> {
    if gender == Male then MaleAgeTiers else FemaleAgeTiers
  }

  /** The age points are the first age tier the patient reaches. */
  lemma AgePointsMatchTable(gender: Gender, age: real)
    ensures FraminghamAgePoints(gender, age) == FirstReached(AgeTiers(gender), age)
  {
    var t := AgeTiers(gender);
    assert FirstReachedFrom(t, 7, age) == 0;
    assert FirstReachedFrom(t, 6, age) == if age >= 40.0 then 1 else 0;
    assert FirstReachedFrom(t, 5, age) == if age >= 45.0 then t[5].points else FirstReachedFrom(t, 6, age);
    assert FirstReachedFrom(t, 4, age) == if age >= 50.0 then t[4].points else FirstReachedFrom(t, 5, age);
    assert FirstReachedFrom(t, 3, age) == if age >= 55.0 then t[3].points else FirstReachedFrom(t, 4, age);
    assert FirstReachedFrom(t, 2, age) == if age >= 60.0 then t[2].points else FirstReachedFrom(t, 3, age);
    assert FirstReachedFrom(t, 1, age) == if age >= 65.0 then t[1].points else FirstReachedFrom(t, 2, age);
  }

  /** The cholesterol points are the first cholesterol tier reached. */
  lemma CholesterolPointsMatchTable(cholesterol: real)
    ensures FraminghamCholesterolPoints(cholesterol) == FirstReached(CholesterolTiers, cholesterol)
  {
    var t := CholesterolTiers;
    assert FirstReachedFrom(t, 3, cholesterol) == 0;
    assert FirstReachedFrom(t, 2, cholesterol) == if cholesterol >= 200.0 then 1 else 0;
    assert FirstReachedFrom(t, 1, cholesterol) == if cholesterol >= 240.0 then 2 else FirstReachedFrom(t, 2, cholesterol);
  }

  /** The three point tables are descending. */
  lemma TablesDescending()
    ensures Descending(MaleAgeTiers)
    ensures Descending(FemaleAgeTiers)
    ensures Descending(CholesterolTiers)
  {
    AgeTiersDescending(Male);
    AgeTiersDescending(Female);
  }

  lemma AgeTiersDescending(gender: Gender)
    ensures Descending(AgeTiers(gender))
  {
    var t := AgeTiers(gender);
    forall i | 0 < i < |t|
      ensures t[i].threshold < t[i - 1].threshold && t[i].points <= t[i - 1].points
    {
      assert i == 1 || i == 2 || i == 3 || i == 4 || i == 5 || i == 6;
    }
  }

  /** A higher reading never reaches a cheaper tier of a descending table. */
  lemma {:induction false} FirstReachedMonotone(tiers: seq<Tier>, k: nat, a: real, b: real)
    requires Descending(tiers)
    requires a <= b
    ensures FirstReachedFrom(tiers, k, a) <= FirstReachedFrom(tiers, k, b)
    decreases |tiers| - k
  {
    if k < |tiers| {
      if b < tiers[k].threshold {
        FirstReachedMonotone(tiers, k + 1, a, b);
      } else if a < tiers[k].threshold {
        FirstReachedAtMostPrevious(tiers, k + 1, a);
      }
    }
  }

  /** Past the first tier, a descending table never pays more than the tier before. */
  lemma {:induction false} FirstReachedAtMostPrevious(tiers: seq<Tier>, k: nat, reading: real)
    requires Descending(tiers)
    requires 0 < k <= |tiers|
    ensures FirstReachedFrom(tiers, k, reading) <= tiers[k - 1].points
    decreases |tiers| - k
  {
    if k < |tiers| && reading < tiers[k].threshold {
      FirstReachedAtMostPrevious(tiers, k + 1, reading);
    }
  }

  /** Smoking adds four points for men and three for women, and nothing else changes. */
  lemma SmokingPoints(p: PatientData)
    ensures FraminghamPoints(p.(smoking := true))
            == FraminghamPoints(p.(smoking := false)) + (if p.gender == Male then 4 else 3)
  {
  }

  /** From 45 on, the female age table is one point above the male one; below 45
      the two agree. */
  lemma FemaleAgePointsExceedMale(age: real)
    ensures age >= 45.0 ==> FraminghamAgePoints(Female, age) == FraminghamAgePoints(Male, age) + 1
    ensures age < 45.0 ==> FraminghamAgePoints(Female, age) == FraminghamAgePoints(Male, age)
  {
  }

  /** Older, higher cholesterol or smoking never lowers the risk. */
  lemma FraminghamMonotone(p: PatientData, q: PatientData)
    requires q.gender == p.gender
    requires q.age >= p.age
    requires q.cholesterol >= p.cholesterol
    requires p.smoking ==> q.smoking
    ensures FraminghamPoints(p) <= FraminghamPoints(q)
    ensures CalculateFraminghamRisk(p) <= CalculateFraminghamRisk(q)
  {
    AgePointsMonotone(p.gender, p.age, q.age);
    CholesterolPointsMonotone(p.cholesterol, q.cholesterol);
  }

  /** Age points never fall with age: the age table is descending. */
  lemma AgePointsMonotone(gender: Gender, a: real, b: real)
    requires a <= b
    ensures FraminghamAgePoints(gender, a) <= FraminghamAgePoints(gender, b)
  {
    AgePointsMatchTable(gender, a);
    AgePointsMatchTable(gender, b);
    AgeTiersDescending(gender);
    FirstReachedMonotone(AgeTiers(gender), 0, a, b);
  }

  /** Cholesterol points never fall with cholesterol: its table is descending. */
  lemma CholesterolPointsMonotone(a: real, b: real)
    requires a <= b
    ensures FraminghamCholesterolPoints(a) <= FraminghamCholesterolPoints(b)
  {
    CholesterolPointsMatchTable(a);
    CholesterolPointsMatchTable(b);
    TablesDescending();
    FirstReachedMonotone(CholesterolTiers, 0, a, b);
  }

  /** Only gender, age, cholesterol and smoking enter the point score. */
  lemma FraminghamInputs(p: PatientData, q: PatientData)
    requires q.gender == p.gender && q.age == p.age
    requires q.cholesterol == p.cholesterol && q.smoking == p.smoking
    ensures CalculateFraminghamRisk(p) == CalculateFraminghamRisk(q)
  {
  }

  /** The form's default record (male, 45, cholesterol 200, non-smoker): 2 + 1
      points, 6 percent. */
  lemma DefaultRecordFramingham()
    ensures FraminghamPoints(DefaultRecord()) == 3 && CalculateFraminghamRisk(DefaultRecord()) == 0.06
  {
  }
}
