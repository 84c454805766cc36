/**
  The reading of the classifier's probability in `main` of
  bleeding-risk-predictor.py: a binary label against the decision threshold
  and a three-way risk band.
 */
module Risk {

  /** The decision threshold. */
  const Threshold: real := 0.5

  /** The upper band cut-off: above it the risk is high. */
  const HighCutoff: real := 0.7

  /** The lower band cut-off: at or below it the risk is low. */
  const LowCutoff: real := 0.3

  /** The prediction shown as "High Risk" or "Low Risk". */
  datatype Label = HighRisk | LowRisk

  /** The interpretation shown under the prediction. */
  datatype Band = Low | Moderate | High

  /** The binary prediction for a probability. */
  function Predict(proba: real): (l: Label)
    ensures l == HighRisk <==> proba >= Threshold
  {
    if proba >= Threshold then HighRisk else LowRisk
  }

  /** The risk band for a probability, from the if/elif/else chain. */
  function RiskBand(proba: real): (b: Band)
    ensures b == High <==> proba > HighCutoff
    ensures b == Moderate <==> LowCutoff < proba <= HighCutoff
    ensures b == Low <==> proba <= LowCutoff
  {
    if proba > HighCutoff then High
    else if proba > LowCutoff then Moderate
    else Low
  }

  /** The order of the bands. */
  function Rank(b: Band): nat {
    match b
    case Low => 0
    case Moderate => 1
    case High => 2
  }

  /** The threshold and cut-offs as exact boundary cases. */
  lemma BoundaryCases()
    ensures Predict(0.5) == HighRisk
    ensures RiskBand(0.7) == Moderate
    ensures RiskBand(0.3) == Low
  {
  }

  /** The band never contradicts the label: high band means "High Risk", low band means "Low Risk". */
  lemma BandAgreesWithLabel(proba: real)
    ensures RiskBand(proba) == High ==> Predict(proba) == HighRisk
    ensures RiskBand(proba) == Low ==> Predict(proba) == LowRisk
  {
  }

  /** A higher probability never gives a lower label or band. */
  lemma Monotone(p: real, q: real)
    requires p <= q
    ensures Predict(p) == HighRisk ==> Predict(q) == HighRisk
    ensures Rank(RiskBand(p)) <= Rank(RiskBand(q))
  {
  }
}
