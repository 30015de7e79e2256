/** Configuration constants of the risk engine: complexity thresholds, the
    four risk weights and the gate thresholds. */
module Settings {

  /** COMPLEXITY_THRESHOLD */
  const ComplexityLow: int := 5
  const ComplexityMedium: int := 10
  const ComplexityHigh: int := 20

  /** RISK_WEIGHTS */
  const WeightComplexityChange: real := 0.3
  const WeightLinesChanged: real := 0.2
  const WeightCriticalFunctions: real := 0.3
  const WeightSecurityIssues: real := 0.2

  /** RISK_GATES */
  const GatePass: real := 30.0
  const GateWarn: real := 70.0
  const GateBlock: real := 100.0

  lemma RiskWeightsSumToOne()
    ensures WeightComplexityChange + WeightLinesChanged
            + WeightCriticalFunctions + WeightSecurityIssues == 1.0
  {
  }

  lemma RiskWeightsInUnitInterval()
    ensures 0.0 <= WeightComplexityChange <= 1.0
    ensures 0.0 <= WeightLinesChanged <= 1.0
    ensures 0.0 <= WeightCriticalFunctions <= 1.0
    ensures 0.0 <= WeightSecurityIssues <= 1.0
  {
  }

  lemma GateThresholdsAscend()
    ensures 0.0 < GatePass < GateWarn < GateBlock
  {
  }

  lemma ComplexityThresholdsAscend()
    ensures 0 < ComplexityLow < ComplexityMedium < ComplexityHigh
  {
  }
}
