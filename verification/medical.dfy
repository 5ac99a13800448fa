/**
 The data contracts of the cardiovascular risk estimator: the patient record it
 reads and the prediction it returns. Every numeric field of the record is a
 JavaScript `number`; here it is an exact `real`.
 */
module Medical {

  datatype Gender = Male | Female

  /** One patient, as filled in on the form. Heights are in cm, weights in kg,
      pressures in mmHg, cholesterol and glucose in mg/dL. */
  datatype PatientData = PatientData(
    age: real,
    gender: Gender,
    height: real,
    weight: real,
    systolicBP: real,
    diastolicBP: real,
    cholesterol: real,
    glucose: real,
    smoking: bool,
    alcohol: bool,
    physicalActivity: bool,
    familyHistory: bool
  )

  /** The body-mass index as a JavaScript division produces it. A height of zero
      makes the divisor zero, and the quotient is then an infinity whose sign is
      the weight's, or NaN when the weight is zero too. */
  datatype BodyMassIndex = Finite(value: real) | PosInfinity | NegInfinity | NaN
  {
    /** `bmi >= t` with IEEE comparison semantics: NaN compares false. */
    predicate AtLeast(t: real) {
      match this
      case Finite(v) => v >= t
      case PosInfinity => true
      case NegInfinity => false
      case NaN => false
    }
  }

  /** The record the form starts with. */
  function DefaultRecord(): PatientData {
    PatientData(45.0, Male, 170.0, 70.0, 120.0, 80.0, 200.0, 90.0, false, false, true, false)
  }

  datatype RiskLevel = Low | Moderate | High

  datatype Impact = Positive | Negative | Neutral

  /** What a factor displays as its value. The source formats these into text
      (`"45 years"`, `"120/80 mmHg"`, `bmi.toFixed(1)`); the model keeps the
      numbers and leaves the formatting out. */
  datatype FactorValue =
    | Years(age: real)
    | Pressure(systolic: real, diastolic: real)
    | Concentration(mgPerDl: real)
    | BmiReading(bmi: BodyMassIndex)
    | Label(text: string)

  datatype RiskFactor = RiskFactor(name: string, value: FactorValue, impact: Impact, description: string)

  /** The nine recommendations the estimator can make, in the order it considers them. */
  datatype Advice =
    | SmokingCessation
    | BloodPressureManagement
    | LipidManagement
    | WeightManagement
    | ExerciseProgram
    | GlucoseMonitoring
    | FollowUp
    | Aspirin
    | CardiologyConsult
  {
    /** The exact sentence the estimator pushes for this recommendation. */
    function Text(): string {
      match this
      case SmokingCessation => "Smoking cessation counseling and support programs are strongly recommended"
      case BloodPressureManagement => "Blood pressure management with lifestyle modifications and/or medication"
      case LipidManagement => "Lipid management through diet, exercise, and possible statin therapy"
      case WeightManagement => "Weight management through caloric restriction and increased physical activity"
      case ExerciseProgram => "Initiate regular aerobic exercise program (150 minutes moderate intensity per week)"
      case GlucoseMonitoring => "Blood glucose monitoring and diabetes management if indicated"
      case FollowUp => "Regular follow-up appointments for cardiovascular risk monitoring"
      case Aspirin => "Consider aspirin therapy if indicated and no contraindications"
      case CardiologyConsult => "Cardiology consultation for comprehensive risk stratification"
    }
  }

  datatype RiskPrediction = RiskPrediction(
    riskScore: real,
    riskLevel: RiskLevel,
    riskPercentage: int,
    factors: seq<RiskFactor>,
    recommendations: seq<Advice>
  )
}
