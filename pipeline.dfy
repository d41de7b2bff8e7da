/**
 * Agreement between the three stages. Each stage hard-codes its own copy of
 * the score thresholds; these lemmas state that the copies agree wherever the
 * stages are meant to agree, and follow one reading through the whole chain.
 */
module Pipeline {
  import RiskEngine
  import AlertEngine
  import EvacuationPlanner

  /** The risk category and the alert level switch at the same three scores. */
  lemma CategoryAndAlertLevelAligned(score: real)
    ensures RiskEngine.GetRiskCategory(score).Rank() == AlertEngine.DetermineAlertLevel(score).Severity()
  {
  }

  /** The summary's priority tier for each risk category. */
  function PriorityTier(c: RiskEngine.RiskCategory): string
  {
    match c
    case Critical => "CRITICAL"
    case High => "HIGH"
    case Moderate => "MODERATE"
    case Low => "LOW"
  }

  /** The summary's action verb for each risk category. */
  function ActionFor(c: RiskEngine.RiskCategory): string
  {
    match c
    case Critical => "IMMEDIATE EVACUATION"
    case High => "PREPARE FOR EVACUATION"
    case Moderate => "ENHANCED MONITORING"
    case Low => "ROUTINE MONITORING"
  }

  /** The action summary's tier and frequency are the risk category's and the
      alert engine's for the same village score. */
  lemma SummaryAgreesWithOtherStages(villageRiskScore: real, households: seq<EvacuationPlanner.Household>,
                                     villageName: string, roadCuts: real, hash: string -> int)
    ensures var s := EvacuationPlanner.GenerateActionSummary(villageRiskScore, households, villageName, roadCuts, hash);
      var c := RiskEngine.GetRiskCategory(villageRiskScore);
      && s.priority == PriorityTier(c)
      && s.action == ActionFor(c)
      && s.alertFrequency == AlertEngine.GetAlertFrequency(villageRiskScore)
  {
  }

  /** The integration scenario 320 mm / 42 degrees / 65% / 20% / 18% scores
      28 + 25.2 + 13 + 20/3 + 3 = 1138/15 (about 75.87): Critical, Evacuate, all
      four channels, every 15 minutes. */
  lemma IntegrationScenario()
    ensures RiskEngine.ComputeRiskScore(320.0, 42.0, 65.0, 20.0, 18.0) == 1138.0 / 15.0
    ensures RiskEngine.GetRiskCategory(1138.0 / 15.0) == RiskEngine.Critical
    ensures AlertEngine.DetermineAlertLevel(1138.0 / 15.0) == AlertEngine.Evacuate
    ensures |AlertEngine.GetDeliveryChannels(1138.0 / 15.0)| == 4
    ensures AlertEngine.GetAlertFrequency(1138.0 / 15.0) == "every 15 minutes"
  {
  }

  /** The alert levels the compatibility test expects for 30, 50, 65 and 80. */
  lemma CompatibilityAlertLevels()
    ensures AlertEngine.DetermineAlertLevel(30.0).Label() == "No Alert"
    ensures AlertEngine.DetermineAlertLevel(50.0).Label() == "Advisory"
    ensures AlertEngine.DetermineAlertLevel(65.0).Label() == "Warning"
    ensures AlertEngine.DetermineAlertLevel(80.0).Label() == "Evacuate"
  {
  }
}
