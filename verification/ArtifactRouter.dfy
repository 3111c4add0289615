/** The deterministic routing policy: from a classification to an artifact plan, and its agreement with
    the Sigma-generation gate. */
module ArtifactRouter {
  import opened Detectability
  import opened Sorting

  datatype Planned = Planned(artifact: ArtifactType, reason: string, priority: int, prerequisites: seq<string>)

  datatype Adjustment = Reconciled(artifact: ArtifactType) | Demoted(artifact: ArtifactType, reason: string)
                      | Added(artifact: ArtifactType, reason: string)
                          | Prerequisite(artifact: ArtifactType, text: string)

  datatype RouterPlan = RouterPlan(
    recommended: seq<Planned>, skipped: seq<Skipped>, requiredInputs: seq<string>, confidence: real,
    adjustments: seq<Adjustment>)

  predicate PlanRecommends(p: RouterPlan, t: ArtifactType) {
    exists i :: 0 <= i < |p.recommended| && p.recommended[i].artifact == t
  }

  predicate PlanSkips(p: RouterPlan, t: ArtifactType) {
    exists i :: 0 <= i < |p.skipped| && p.skipped[i].artifact == t
  }

  /** The strict validator of the plan model. */
  ghost predicate ValidPlan(p: RouterPlan) {
    && 0.0 <= p.confidence <= 1.0
    && (PlanRecommends(p, SigmaRule) || PlanSkips(p, SigmaRule))
    && (forall t :: !(PlanRecommends(p, t) && PlanSkips(p, t)))
    && (forall i :: 0 <= i < |p.recommended| ==> p.recommended[i].reason != "" && 1 <= p.recommended[i].priority <= 5)
    && (forall i :: 0 <= i < |p.skipped| ==> p.skipped[i].reason != "")
  }

  // ----- the policy on the two dictionaries of the builder -----

  datatype Draft = Draft(recommended: map<ArtifactType, Planned>, skipped: map<ArtifactType, Skipped>)

  const NEED_EVIDENCE := "policy: insufficient evidence for reliable detection"
  const GATHER := "policy: gather evidence before attempting detection"
  const PREVENT := "policy: control-only class — prevention preferred over detection"
  const MITIGATE := "policy: default deliverable for control-only vulnerabilities"
  const VERIFY_TELEMETRY := "verify required telemetry exists in the target environment"
  const DOCUMENT := "policy: document the telemetry this detection depends on"
  const LOW_CONFIDENCE := "policy: classifier confidence below floor"
  const RESEARCH := "policy: low classification confidence — needs human research"
  const GATE_FAILED := "Loop 2 gate failed — analyst override required before generation"

  function Demote(d: Draft, t: ArtifactType, reason: string): Draft {
    Draft(d.recommended - {t}, if t in d.skipped then d.skipped else d.skipped[t := Skipped(t, reason)])
  }

  function EnsureRecommended(d: Draft, t: ArtifactType, reason: string, priority: int): Draft {
    if t in d.recommended || t in d.skipped then d
    else d.(recommended := d.recommended[t := Planned(t, reason, priority, [])])
  }

  function AddPrerequisite(d: Draft, t: ArtifactType, text: string): Draft {
    if t !in d.recommended || text in d.recommended[t].prerequisites then d
    else
      var p := d.recommended[t];
      d.(recommended := d.recommended[t := p.(prerequisites := p.prerequisites + [text])])
  }

  /** Later entries of a type replace earlier ones. */
  function RecommendedDict(rs: seq<Recommended>): map<ArtifactType, Planned> {
    if rs == [] then map[]
    else
      var r := rs[|rs| - 1];
      RecommendedDict(rs[..|rs| - 1])[r.artifact := Planned(r.artifact, r.reason, r.priority, [])]
  }

  function SkippedDict(ss: seq<Skipped>): map<ArtifactType, Skipped> {
    if ss == [] then map[] else SkippedDict(ss[..|ss| - 1])[ss[|ss| - 1].artifact := ss[|ss| - 1]]
  }

  /** A type the classifier listed twice stays skipped. */
  function Initial(c: Classification): Draft {
    var skipped := SkippedDict(c.skipped);
    Draft(RecommendedDict(c.recommended) - skipped.Keys, skipped)
  }

  function ByClass(d: Draft, c: Class): Draft {
    match c
    case InsufficientInformation =>
      EnsureRecommended(Demote(d, SigmaRule, NEED_EVIDENCE), AnalystResearchTask, GATHER, 1)
    case ControlOnly => EnsureRecommended(Demote(d, SigmaRule, PREVENT), MitigationPlan, MITIGATE, 1)
    case EnvironmentDependent =>
      EnsureRecommended(AddPrerequisite(d, SigmaRule, VERIFY_TELEMETRY), TelemetryContract, DOCUMENT, 2)
    case _ => d
  }

  function ByConfidence(d: Draft, confidence: real, floor: real): Draft {
    if confidence < floor then
      EnsureRecommended(Demote(d, SigmaRule, LOW_CONFIDENCE), AnalystResearchTask, RESEARCH, 1)
    else d
  }

  function ByGate(d: Draft, passed: bool): Draft {
    if passed then d else AddPrerequisite(d, SigmaRule, GATE_FAILED)
  }

  function Policy(c: Classification, confidence: real, passed: bool, floor: real): Draft {
    ByGate(ByConfidence(ByClass(Initial(c), c.class_), confidence, floor), passed)
  }

  // ----- listing the dictionaries -----

  const TYPES := [SigmaRule, AnalystResearchTask, MitigationPlan, TelemetryContract]

  function Listing<V>(m: map<ArtifactType, V>, types: seq<ArtifactType>): seq<V> {
    if types == [] then []
    else (if types[0] in m then [m[types[0]]] else []) + Listing(m, types[1..])
  }

  /** The position of a type's name in alphabetical order. */
  function Alphabetical(t: ArtifactType): int {
    match t
    case AnalystResearchTask => 0
    case MitigationPlan => 1
    case SigmaRule => 2
    case TelemetryContract => 3
  }

  /** Types by name: a research task, a mitigation plan, a Sigma rule, a telemetry contract. */
  lemma AlphabeticalOrder()
    ensures Alphabetical(AnalystResearchTask) < Alphabetical(MitigationPlan) < Alphabetical(SigmaRule)
            < Alphabetical(TelemetryContract)
  {
  }

  predicate PlannedLe(a: Planned, b: Planned) {
    a.priority < b.priority || (a.priority == b.priority && Alphabetical(a.artifact) <= Alphabetical(b.artifact))
  }

  predicate SkippedLe(a: Skipped, b: Skipped) {
    Alphabetical(a.artifact) <= Alphabetical(b.artifact)
  }

  function PlanOf(d: Draft, c: Classification, confidence: real, adjustments: seq<Adjustment>): RouterPlan {
    RouterPlan(Sort(Listing(d.recommended, TYPES), PlannedLe), Sort(Listing(d.skipped, TYPES), SkippedLe),
               c.requiredTelemetry, confidence, adjustments)
  }

  lemma {:induction false} ListingHas<V>(m: map<ArtifactType, V>, types: seq<ArtifactType>, v: V)
    ensures v in Listing(m, types) <==> exists t :: t in types && t in m && m[t] == v
  {
    if types != [] {
      ListingHas(m, types[1..], v);
      assert types == [types[0]] + types[1..];
      assert forall t :: t in types <==> t == types[0] || t in types[1..];
    }
  }

  lemma AllTypes(t: ArtifactType)
    ensures t in TYPES
  {
    match t
    case SigmaRule => assert TYPES[0] == t;
    case AnalystResearchTask => assert TYPES[1] == t;
    case MitigationPlan => assert TYPES[2] == t;
    case TelemetryContract => assert TYPES[3] == t;
  }

  ghost predicate Keyed(d: Draft) {
    && (forall t :: t in d.recommended ==> d.recommended[t].artifact == t)
    && (forall t :: t in d.skipped ==> d.skipped[t].artifact == t)
  }

  lemma SortedListingHas<V(!new)>(m: map<ArtifactType, V>, le: (V, V) -> bool, v: V)
    requires TotalPreorder(le)
    ensures v in Sort(Listing(m, TYPES), le) <==> exists t :: t in m && m[t] == v
  {
    SortSorts(Listing(m, TYPES), le);
    ListingHas(m, TYPES, v);
    forall t ensures t in TYPES { AllTypes(t); }
    assert v in Sort(Listing(m, TYPES), le) <==> v in multiset(Listing(m, TYPES));
  }

  lemma OrdersAreTotal()
    ensures TotalPreorder(PlannedLe) && TotalPreorder(SkippedLe)
  {
  }

  /** The sorted lists hold exactly the entries of the dictionaries. */
  lemma PlanLists(d: Draft, c: Classification, confidence: real, adjustments: seq<Adjustment>)
    requires Keyed(d)
    ensures var p := PlanOf(d, c, confidence, adjustments);
            && (forall t :: PlanRecommends(p, t) <==> t in d.recommended)
            && (forall t :: PlanSkips(p, t) <==> t in d.skipped)
            && (forall x :: x in p.recommended ==> x.artifact in d.recommended && d.recommended[x.artifact] == x)
            && (forall x :: x in p.skipped ==> x.artifact in d.skipped && d.skipped[x.artifact] == x)
            && Sorted(p.recommended, PlannedLe) && Sorted(p.skipped, SkippedLe)
  {
    var p := PlanOf(d, c, confidence, adjustments);
    OrdersAreTotal();
    SortSorts(Listing(d.recommended, TYPES), PlannedLe);
    SortSorts(Listing(d.skipped, TYPES), SkippedLe);
    forall x | x in p.recommended ensures x.artifact in d.recommended && d.recommended[x.artifact] == x {
      SortedListingHas(d.recommended, PlannedLe, x);
    }
    forall x | x in p.skipped ensures x.artifact in d.skipped && d.skipped[x.artifact] == x {
      SortedListingHas(d.skipped, SkippedLe, x);
    }
    forall t | t in d.recommended ensures PlanRecommends(p, t) {
      SortedListingHas(d.recommended, PlannedLe, d.recommended[t]);
    }
    forall t | t in d.skipped ensures PlanSkips(p, t) {
      SortedListingHas(d.skipped, SkippedLe, d.skipped[t]);
    }
  }

  // ----- what the policy guarantees -----

  ghost predicate WellFormed(d: Draft) {
    && Keyed(d)
    && d.recommended.Keys !! d.skipped.Keys
    && (SigmaRule in d.recommended || SigmaRule in d.skipped)
    && (forall t :: t in d.recommended ==> d.recommended[t].reason != "" && 1 <= d.recommended[t].priority <= 5)
    && (forall t :: t in d.skipped ==> d.skipped[t].reason != "")
  }

  lemma {:induction false} RecommendedDictHas(rs: seq<Recommended>)
    ensures forall t :: t in RecommendedDict(rs) <==> exists i :: 0 <= i < |rs| && rs[i].artifact == t
    ensures forall t :: t in RecommendedDict(rs) ==>
              exists i :: 0 <= i < |rs| && RecommendedDict(rs)[t] == Planned(t, rs[i].reason, rs[i].priority, [])
  {
    if rs != [] {
      var n := |rs| - 1;
      RecommendedDictHas(rs[..n]);
      assert forall i :: 0 <= i < n ==> rs[..n][i] == rs[i];
      forall t | t in RecommendedDict(rs)
        ensures exists i :: 0 <= i < |rs| && RecommendedDict(rs)[t] == Planned(t, rs[i].reason, rs[i].priority, [])
      {
        if t == rs[n].artifact {
          assert RecommendedDict(rs)[t] == Planned(t, rs[n].reason, rs[n].priority, []);
        } else {
          var i :| 0 <= i < n && RecommendedDict(rs[..n])[t] == Planned(t, rs[..n][i].reason, rs[..n][i].priority, []);
          assert RecommendedDict(rs)[t] == Planned(t, rs[i].reason, rs[i].priority, []);
        }
      }
    }
  }

  lemma {:induction false} SkippedDictHas(ss: seq<Skipped>)
    ensures forall t :: t in SkippedDict(ss) <==> exists i :: 0 <= i < |ss| && ss[i].artifact == t
    ensures forall t :: t in SkippedDict(ss) ==> SkippedDict(ss)[t] in ss && SkippedDict(ss)[t].artifact == t
  {
    if ss != [] {
      var n := |ss| - 1;
      SkippedDictHas(ss[..n]);
      assert forall i :: 0 <= i < n ==> ss[..n][i] == ss[i];
    }
  }

  lemma InitialDraft(c: Classification)
    requires ValidClassification(c)
    ensures WellFormed(Initial(c))
    ensures forall t :: t in Initial(c).skipped <==> Skips(c, t)
    ensures forall t :: t in Initial(c).recommended <==> Recommends(c, t) && !Skips(c, t)
  {
    RecommendedDictHas(c.recommended);
    SkippedDictHas(c.skipped);
    forall t ensures t in Initial(c).recommended <==> Recommends(c, t) && !Skips(c, t) {
    }
    assert Recommends(c, SigmaRule) || Skips(c, SigmaRule);
  }

  lemma DemoteWellFormed(d: Draft, reason: string)
    requires WellFormed(d) && reason != ""
    ensures WellFormed(Demote(d, SigmaRule, reason))
  {
  }

  lemma EnsureWellFormed(d: Draft, t: ArtifactType, reason: string, priority: int)
    requires WellFormed(d) && reason != "" && 1 <= priority <= 5
    ensures WellFormed(EnsureRecommended(d, t, reason, priority))
  {
  }

  lemma PrerequisiteWellFormed(d: Draft, text: string)
    requires WellFormed(d)
    ensures WellFormed(AddPrerequisite(d, SigmaRule, text))
  {
  }

  lemma PolicyWellFormed(c: Classification, confidence: real, passed: bool, floor: real)
    requires ValidClassification(c)
    ensures WellFormed(Policy(c, confidence, passed, floor))
  {
    InitialDraft(c);
    var d := Initial(c);
    match c.class_ {
      case InsufficientInformation =>
        DemoteWellFormed(d, NEED_EVIDENCE);
        EnsureWellFormed(Demote(d, SigmaRule, NEED_EVIDENCE), AnalystResearchTask, GATHER, 1);
      case ControlOnly =>
        DemoteWellFormed(d, PREVENT);
        EnsureWellFormed(Demote(d, SigmaRule, PREVENT), MitigationPlan, MITIGATE, 1);
      case EnvironmentDependent =>
        PrerequisiteWellFormed(d, VERIFY_TELEMETRY);
        EnsureWellFormed(AddPrerequisite(d, SigmaRule, VERIFY_TELEMETRY), TelemetryContract, DOCUMENT, 2);
      case _ =>
    }
    var d1 := ByClass(d, c.class_);
    DemoteWellFormed(d1, LOW_CONFIDENCE);
    EnsureWellFormed(Demote(d1, SigmaRule, LOW_CONFIDENCE), AnalystResearchTask, RESEARCH, 1);
    PrerequisiteWellFormed(ByConfidence(d1, confidence, floor), GATE_FAILED);
  }

  /** On every valid classification the plan passes the strict validator, whatever the gate and the floor,
      exactly when the confidence it carries lies in [0, 1]. */
  lemma PlanValidIff(c: Classification, confidence: real, passed: bool, floor: real, adjustments: seq<Adjustment>)
    requires ValidClassification(c)
    ensures ValidPlan(PlanOf(Policy(c, confidence, passed, floor), c, confidence, adjustments)) <==>
            0.0 <= confidence <= 1.0
  {
    var d := Policy(c, confidence, passed, floor);
    PolicyWellFormed(c, confidence, passed, floor);
    WellFormedPlan(d, c, confidence, adjustments);
  }

  lemma WellFormedEntries(d: Draft, c: Classification, confidence: real, adjustments: seq<Adjustment>)
    requires WellFormed(d)
    ensures var p := PlanOf(d, c, confidence, adjustments);
            && (forall i :: 0 <= i < |p.recommended| ==>
              p.recommended[i].reason != "" && 1 <= p.recommended[i].priority <= 5)
            && (forall i :: 0 <= i < |p.skipped| ==> p.skipped[i].reason != "")
  {
    PlanLists(d, c, confidence, adjustments);
    var p := PlanOf(d, c, confidence, adjustments);
    assert forall i :: 0 <= i < |p.recommended| ==> p.recommended[i] in p.recommended;
    assert forall i :: 0 <= i < |p.skipped| ==> p.skipped[i] in p.skipped;
  }

  lemma WellFormedPlan(d: Draft, c: Classification, confidence: real, adjustments: seq<Adjustment>)
    requires WellFormed(d)
    ensures ValidPlan(PlanOf(d, c, confidence, adjustments)) <==> 0.0 <= confidence <= 1.0
  {
    PlanLists(d, c, confidence, adjustments);
    WellFormedEntries(d, c, confidence, adjustments);
    var p := PlanOf(d, c, confidence, adjustments);
    assert PlanRecommends(p, SigmaRule) || PlanSkips(p, SigmaRule);
  }

  predicate Declines(c: Class) {
    c == InsufficientInformation || c == ControlOnly
  }

  lemma ClassMembership(d: Draft, c: Class)
    ensures SigmaRule in ByClass(d, c).recommended <==> SigmaRule in d.recommended && !Declines(c)
  {
  }

  lemma LaterMembership(d: Draft, confidence: real, passed: bool, floor: real)
    ensures SigmaRule in ByGate(ByConfidence(d, confidence, floor), passed).recommended <==>
            SigmaRule in d.recommended && confidence >= floor
  {
  }

  lemma SigmaMembership(c: Classification, confidence: real, passed: bool, floor: real)
    requires ValidClassification(c)
    ensures SigmaRule in Policy(c, confidence, passed, floor).recommended <==>
            Recommends(c, SigmaRule) && !Declines(c.class_) && confidence >= floor
  {
    InitialDraft(c);
    ClassMembership(Initial(c), c.class_);
    LaterMembership(ByClass(Initial(c), c.class_), confidence, passed, floor);
  }

  predicate HasPrerequisite(d: Draft, text: string) {
    SigmaRule in d.recommended && text in d.recommended[SigmaRule].prerequisites
  }

  lemma PrerequisiteAdded(d: Draft, text: string)
    requires SigmaRule in d.recommended
    ensures HasPrerequisite(AddPrerequisite(d, SigmaRule, text), text)
  {
  }

  lemma PrerequisiteKept(d: Draft, text: string, confidence: real, passed: bool, floor: real)
    requires HasPrerequisite(d, text) && confidence >= floor
    ensures HasPrerequisite(ByGate(ByConfidence(d, confidence, floor), passed), text)
  {
  }

  /** Sigma is planned exactly when the classifier recommended it, the class is not a decline class and the
      confidence meets the floor; a planned Sigma carries every prerequisite that applies. */
  lemma SigmaPlannedIff(c: Classification, confidence: real, passed: bool, floor: real)
    requires ValidClassification(c)
    ensures var d := Policy(c, confidence, passed, floor);
            && (SigmaRule in d.recommended <==>
                  Recommends(c, SigmaRule) && !Declines(c.class_) && confidence >= floor)
            && (SigmaRule in d.recommended && !passed ==> GATE_FAILED in d.recommended[SigmaRule].prerequisites)
            && (SigmaRule in d.recommended && c.class_ == EnvironmentDependent ==>
                  VERIFY_TELEMETRY in d.recommended[SigmaRule].prerequisites)
  {
    SigmaMembership(c, confidence, passed, floor);
    InitialDraft(c);
    var d1 := ByClass(Initial(c), c.class_);
    if SigmaRule in Policy(c, confidence, passed, floor).recommended {
      if !passed { PrerequisiteAdded(ByConfidence(d1, confidence, floor), GATE_FAILED); }
      if c.class_ == EnvironmentDependent {
        PrerequisiteAdded(Initial(c), VERIFY_TELEMETRY);
        assert HasPrerequisite(d1, VERIFY_TELEMETRY);
        PrerequisiteKept(d1, VERIFY_TELEMETRY, confidence, passed, floor);
      }
    }
  }

  // ----- observation after Loop 3 -----

  datatype Gaps = Unknown | Processed(count: int)

  /** The plan and the outcome of Loop 3 disagree. */
  predicate Diverged(sigmaPlanned: bool, rulesGenerated: nat, gaps: Gaps) {
    if rulesGenerated > 0 then !sigmaPlanned else sigmaPlanned && (gaps.Unknown? || gaps.count > 0)
  }

  /** Plan and outcome agree when rules come exactly if Sigma was planned, or when a planned Sigma had no gap to
      close. */
  lemma AgreesIff(sigmaPlanned: bool, rules: nat, gaps: Gaps)
    ensures !Diverged(sigmaPlanned, rules, gaps) <==>
            (sigmaPlanned <==> rules > 0) || (sigmaPlanned && gaps.Processed? && gaps.count <= 0)
  {
  }

  lemma ByClassDeliverable(d: Draft, c: Class)
    requires Declines(c)
    ensures var t := Fallback(c);
            && (t in ByClass(d, c).recommended <==> t in d.recommended || t !in d.skipped)
            && (t in ByClass(d, c).skipped <==> t in d.skipped)
  {
  }

  lemma LaterRulesKeep(d: Draft, t: ArtifactType, confidence: real, passed: bool, floor: real)
    requires t != SigmaRule && (t in d.recommended || t in d.skipped)
    ensures t in ByGate(ByConfidence(d, confidence, floor), passed).recommended <==> t in d.recommended
  {
  }

  /** A decline class plans its own deliverable unless the classifier skipped it, whatever comes after. */
  lemma DeclineDeliverable(c: Classification, confidence: real, passed: bool, floor: real)
    requires ValidClassification(c) && Declines(c.class_)
    ensures Fallback(c.class_) in Policy(c, confidence, passed, floor).recommended <==> !Skips(c, Fallback(c.class_))
  {
    InitialDraft(c);
    ByClassDeliverable(Initial(c), c.class_);
    LaterRulesKeep(ByClass(Initial(c), c.class_), Fallback(c.class_), confidence, passed, floor);
  }

  /** Whenever the gate skips generation, the plan skips Sigma too, the fallback the gate names is planned
      unless the classifier itself skipped it, and the gated run, which produces no rules, is no divergence. */
  lemma GateAgreesWithPlan(c: Classification, enabled: set<Class>, confidence: real, passed: bool, floor: real)
    requires ValidClassification(c) && SigmaGenerationGated(Known(c.class_), enabled)
    ensures var d := Policy(c, confidence, passed, floor);
            && SigmaRule in d.skipped && SigmaRule !in d.recommended
            && (Fallback(c.class_) in d.recommended <==> !Skips(c, Fallback(c.class_)))
            && forall gaps :: !Diverged(SigmaRule in d.recommended, 0, gaps)
  {
    DeclineDeliverable(c, confidence, passed, floor);
    SigmaPlannedIff(c, confidence, passed, floor);
    PolicyWellFormed(c, confidence, passed, floor);
  }

  /** Plan and gate agree on a classification, the plan skipping Sigma exactly when the gate skips generation,
      exactly when: for a decline class, the gate is enabled for it; for any other class, the classifier
      recommended Sigma and the confidence meets the floor. */
  lemma PlanAndGateAgreeIff(c: Classification, enabled: set<Class>, confidence: real, passed: bool, floor: real)
    requires ValidClassification(c)
    ensures var skips := SigmaRule !in Policy(c, confidence, passed, floor).recommended;
            (skips <==> SigmaGenerationGated(Known(c.class_), enabled)) <==>
            if Declines(c.class_) then c.class_ in enabled else Recommends(c, SigmaRule) && confidence >= floor
  {
    SigmaPlannedIff(c, confidence, passed, floor);
  }

  /** The gate ignores the confidence floor on purpose: below the floor the plan skips Sigma while the gate
      lets Loop 3 generate, so any rule is a divergence. */
  lemma FloorIsNotGated(c: Classification, enabled: set<Class>, confidence: real, passed: bool, floor: real,
                        rules: nat, gaps: Gaps)
    requires ValidClassification(c) && !Declines(c.class_) && confidence < floor && 0 < rules
    ensures !SigmaGenerationGated(Known(c.class_), enabled)
    ensures Diverged(SigmaRule in Policy(c, confidence, passed, floor).recommended, rules, gaps)
  {
    SigmaPlannedIff(c, confidence, passed, floor);
  }
}
