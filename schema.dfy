/** The key names of the estimate object: the prompt asks the model for them
    and the normalizer reads and writes them. */
module Schema {

  const ProcedureNameKey := "procedure_name"
  const ProcedureCodeKey := "procedure_code"
  const ZipCodeKey := "zip_code"
  const LowEstimateKey := "low_estimate"
  const HighEstimateKey := "high_estimate"
  const InsuranceCostKey := "typical_insurance_cost"
  const ComplicationsKey := "common_complications"
  const AlternativesKey := "alternative_procedures"
  const RecoveryInfoKey := "recovery_info"
  const AdditionalInfoKey := "additional_info"

  /** Keys of the nested complication, alternative and recovery objects. */
  const NameKey := "name"
  const EstimatedCostKey := "estimated_cost"
  const CostRangeKey := "estimated_cost_range"
  const EstimatedTimeKey := "estimated_time"
  const AssociatedCostsKey := "associated_costs"

  /** The ten keys of a sanitized estimate, in the order the code lists them. */
  const TopLevelKeys: seq<string> := [
    ProcedureNameKey, ProcedureCodeKey, ZipCodeKey, LowEstimateKey, HighEstimateKey,
    InsuranceCostKey, ComplicationsKey, AlternativesKey, RecoveryInfoKey, AdditionalInfoKey
  ]

  const NestedKeys: seq<string> := [
    NameKey, EstimatedCostKey, CostRangeKey, EstimatedTimeKey, AssociatedCostsKey
  ]

  /** Key of the single-entry dict that reports a failure to the client. */
  const ErrorKey := "error"
}
