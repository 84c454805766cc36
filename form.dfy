/**
  The patient input form of `user_input_features` in bleeding-risk-predictor.py:
  what its widgets can return, how a selection is encoded for the model, and
  the two flags derived from laboratory and vital-sign values.
 */
module Form {

  /** A value of a "No"/"Yes" selectbox. */
  datatype YesNo = No | Yes

  /** A value of the "Male"/"Female" selectbox. */
  datatype GenderChoice = Male | Female

  /** An encoded selection or derived flag: 0 or 1. */
  type Bit = b: int | 0 <= b <= 1

  /** One patient's raw entries, exactly as the form's widgets return them. */
  datatype RawInput = RawInput(
    apacheIvScore: int,
    gcs: int,
    albuminMax: real,
    hematocritMin: int,
    anemia: YesNo,
    plateletMin: int,
    pttMax: int,
    ptMax: int,
    bunMax: int,
    respiratoryRate: int,
    nibpSystolic: int,
    nibpDiastolic: int,
    gender: GenderChoice,
    caucasian: YesNo,
    medsurgIcu: YesNo,
    cardiacIcu: YesNo,
    neuroIcu: YesNo,
    gastrointestinalCondition: YesNo,
    trauma: YesNo,
    historyOfBleed: YesNo,
    historyOfVte: YesNo,
    sepsis: YesNo,
    vascularDisorders: YesNo,
    stressUlcerDrug: YesNo)

  /** The min/max bounds of the number inputs; the widgets admit nothing else. */
  predicate WithinWidgetBounds(r: RawInput) {
    && 0 <= r.apacheIvScore <= 200
    && 3 <= r.gcs <= 15
    && 1.0 <= r.albuminMax <= 6.0
    && 10 <= r.hematocritMin <= 60
    && 10 <= r.plateletMin <= 500
    && 20 <= r.pttMax <= 200
    && 10 <= r.ptMax <= 50
    && 5 <= r.bunMax <= 100
    && 5 <= r.respiratoryRate <= 50
    && 50 <= r.nibpSystolic <= 250
    && 30 <= r.nibpDiastolic <= 150
  }

  /** The form as first shown: every widget at its default value. */
  const Defaults := RawInput(
    50, 12, 3.5, 30, No, 150, 35, 13, 20, 18, 120, 80, Male, Yes,
    No, No, No, No, No, No, No, No, No, No)

  // ---------------------------------------------------------------------
  // Categorical encoding

  /** A "No"/"Yes" selection as the model sees it: 1 exactly for "Yes". */
  function EncodeYesNo(v: YesNo): (b: Bit)
    ensures b == 1 <==> v == Yes
  {
    if v == Yes then 1 else 0
  }

  /** The gender selection as the model sees it: 1 exactly for "Female". */
  function EncodeGender(g: GenderChoice): (b: Bit)
    ensures b == 1 <==> g == Female
  {
    if g == Female then 1 else 0
  }

  // ---------------------------------------------------------------------
  // Derived features

  /** Prolonged PTT or prolonged PT; both cut-offs are strict. */
  function DeriveCoagulationDysfunction(pttMax: int, ptMax: int): (flag: Bit)
    ensures flag == 1 <==> pttMax > 40 || ptMax > 14
  {
    if pttMax > 40 || ptMax > 14 then 1 else 0
  }

  /** Fast breathing or low systolic pressure; both cut-offs are strict. */
  function DeriveRespiratoryFailure(respiratoryRate: int, nibpSystolic: int): (flag: Bit)
    ensures flag == 1 <==> respiratoryRate > 24 || nibpSystolic < 90
  {
    if respiratoryRate > 24 || nibpSystolic < 90 then 1 else 0
  }

  /** The boundary values themselves raise no flag; one step past either does. */
  lemma DerivedFlagBoundaries()
    ensures DeriveCoagulationDysfunction(40, 14) == 0
    ensures DeriveCoagulationDysfunction(41, 14) == 1 && DeriveCoagulationDysfunction(40, 15) == 1
    ensures DeriveRespiratoryFailure(24, 90) == 0
    ensures DeriveRespiratoryFailure(25, 90) == 1 && DeriveRespiratoryFailure(24, 89) == 1
  {
  }

  /** Worse values (longer clotting times, faster breathing, lower pressure) never clear a flag. */
  lemma DerivedFlagsMonotone(ptt1: int, pt1: int, ptt2: int, pt2: int,
                             rr1: int, sys1: int, rr2: int, sys2: int)
    requires ptt1 <= ptt2 && pt1 <= pt2
    requires rr1 <= rr2 && sys1 >= sys2
    ensures DeriveCoagulationDysfunction(ptt1, pt1) <= DeriveCoagulationDysfunction(ptt2, pt2)
    ensures DeriveRespiratoryFailure(rr1, sys1) <= DeriveRespiratoryFailure(rr2, sys2)
  {
  }
}
