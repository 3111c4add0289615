/** The vocabulary shared by the router, the gate and the artifact services. */
module Detectability {
  datatype ArtifactType = SigmaRule | AnalystResearchTask | MitigationPlan | TelemetryContract

  datatype Class = DirectlyDetectable | IndirectlyDetectable | EnvironmentDependent | ControlOnly
      | InsufficientInformation

  datatype Recommended = Recommended(artifact: ArtifactType, reason: string, priority: int)
  datatype Skipped = Skipped(artifact: ArtifactType, reason: string)

  datatype Classification = Classification(
    class_: Class, recommended: seq<Recommended>, skipped: seq<Skipped>, requiredTelemetry: seq<string>)

  predicate Recommends(c: Classification, t: ArtifactType) {
    exists i :: 0 <= i < |c.recommended| && c.recommended[i].artifact == t
  }

  predicate Skips(c: Classification, t: ArtifactType) {
    exists i :: 0 <= i < |c.skipped| && c.skipped[i].artifact == t
  }

  /** The classifier's own validator: Sigma is recommended or skipped, not both. */
  predicate ValidClassification(c: Classification) {
    && Recommends(c, SigmaRule) != Skips(c, SigmaRule)
    && (forall i :: 0 <= i < |c.recommended| ==> c.recommended[i].reason != "" && 1 <= c.recommended[i].priority <= 5)
    && (forall i :: 0 <= i < |c.skipped| ==> c.skipped[i].reason != "")
  }

  // ----- the Phase 2c gate, keyed on the class alone -----

  const SIGMA_SKIP_CLASSES := {InsufficientInformation, ControlOnly}

  datatype MaybeClass = NoClass | Known(class_: Class)

  predicate SigmaGenerationGated(c: MaybeClass, enabled: set<Class>) {
    c.Known? && c.class_ in SIGMA_SKIP_CLASSES * enabled
  }

  /** The deliverable a gated Loop 3 run names instead of rules. */
  function Fallback(c: Class): ArtifactType
    requires c in SIGMA_SKIP_CLASSES
  {
    if c == InsufficientInformation then AnalystResearchTask else MitigationPlan
  }
}
