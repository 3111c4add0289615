/** What an artifact plan contains, told from the classification alone, and that the routing policy arrives there. */
module RouterPlans {
  import opened ArtifactRouter
  import opened Detectability
  import opened Sorting

  // ----- the contents of a plan -----

  /** The types the plan recommends: Sigma on the classifier's word, outside the decline classes and from the floor on;
      any other type unless the classifier skipped it, when it or the policy asks for it. */
  predicate Wants(c: Classification, confidence: real, floor: real, t: ArtifactType) {
    match t
    case SigmaRule => Recommends(c, t) && !Declines(c.class_) && confidence >= floor
    case AnalystResearchTask =>
      !Skips(c, t) && (Recommends(c, t) || c.class_ == InsufficientInformation || confidence < floor)
    case MitigationPlan => !Skips(c, t) && (Recommends(c, t) || c.class_ == ControlOnly)
    case TelemetryContract => !Skips(c, t) && (Recommends(c, t) || c.class_ == EnvironmentDependent)
  }

  /** The types the plan skips. */
  predicate Omits(c: Classification, confidence: real, floor: real, t: ArtifactType) {
    Skips(c, t) || (t == SigmaRule && (Declines(c.class_) || confidence < floor))
  }

  /** `r` is the classifier's last word on its type. */
  predicate LastRecommended(c: Classification, r: Recommended) {
    exists i :: 0 <= i < |c.recommended| && c.recommended[i] == r
                && forall j :: i < j < |c.recommended| ==> c.recommended[j].artifact != r.artifact
  }

  predicate LastSkipped(c: Classification, s: Skipped) {
    exists i :: 0 <= i < |c.skipped| && c.skipped[i] == s
                && forall j :: i < j < |c.skipped| ==> c.skipped[j].artifact != s.artifact
  }

  /** What a planned Sigma has to wait for, in order. */
  function Waits(c: Class, passed: bool): seq<string> {
    (if c == EnvironmentDependent then [VERIFY_TELEMETRY] else []) + (if passed then [] else [GATE_FAILED])
  }

  /** The entry a recommended type has: the classifier's own, or the policy's default for a type it adds. */
  predicate EntryFits(c: Classification, passed: bool, x: Planned) {
    && x.prerequisites == (if x.artifact == SigmaRule then Waits(c.class_, passed) else [])
    && if Recommends(c, x.artifact) then LastRecommended(c, Recommended(x.artifact, x.reason, x.priority))
       else match x.artifact
            case AnalystResearchTask =>
              x.priority == 1 && x.reason == if c.class_ == InsufficientInformation then GATHER else RESEARCH
            case MitigationPlan => x.priority == 1 && x.reason == MITIGATE
            case TelemetryContract => x.priority == 2 && x.reason == DOCUMENT
            case SigmaRule => false
  }

  predicate SkipFits(c: Classification, x: Skipped) {
    if Skips(c, x.artifact) then LastSkipped(c, x)
    else x.reason == match c.class_
                     case InsufficientInformation => NEED_EVIDENCE
                     case ControlOnly => PREVENT
                     case _ => LOW_CONFIDENCE
  }

  // ----- the dictionaries of the classifier -----

  predicate LastOfKind(rs: seq<Recommended>, i: nat, t: ArtifactType) {
    i < |rs| && rs[i].artifact == t && forall j :: i < j < |rs| ==> rs[j].artifact != t
  }

  lemma {:induction false} RecommendedDictLast(rs: seq<Recommended>, t: ArtifactType) returns (i: nat)
    requires t in RecommendedDict(rs)
    ensures LastOfKind(rs, i, t) && RecommendedDict(rs)[t] == Planned(t, rs[i].reason, rs[i].priority, [])
  {
    i := |rs| - 1;
    if rs[i].artifact != t {
      i := RecommendedDictLast(rs[..|rs| - 1], t);
      assert forall j :: i < j < |rs| - 1 ==> rs[..|rs| - 1][j] == rs[j];
    }
  }

  predicate LastOfType(ss: seq<Skipped>, i: nat, t: ArtifactType) {
    i < |ss| && ss[i].artifact == t && forall j :: i < j < |ss| ==> ss[j].artifact != t
  }

  lemma {:induction false} SkippedDictLast(ss: seq<Skipped>, t: ArtifactType) returns (i: nat)
    requires t in SkippedDict(ss)
    ensures LastOfType(ss, i, t) && ss[i] == SkippedDict(ss)[t]
  {
    i := |ss| - 1;
    if ss[i].artifact != t {
      i := SkippedDictLast(ss[..|ss| - 1], t);
      assert forall j :: i < j < |ss| - 1 ==> ss[..|ss| - 1][j] == ss[j];
    }
  }

  lemma InitialEntries(c: Classification, t: ArtifactType)
    requires ValidClassification(c)
    ensures t in Initial(c).recommended <==> Recommends(c, t) && !Skips(c, t)
    ensures t in Initial(c).skipped <==> Skips(c, t)
    ensures t in Initial(c).recommended ==>
              var x := Initial(c).recommended[t];
              x.artifact == t && x.prerequisites == [] && LastRecommended(c, Recommended(t, x.reason, x.priority))
    ensures t in Initial(c).skipped ==> Initial(c).skipped[t].artifact == t && LastSkipped(c, Initial(c).skipped[t])
  {
    InitialDraft(c);
    if t in Initial(c).recommended {
      var i := RecommendedDictLast(c.recommended, t);
      assert c.recommended[i] == Recommended(t, c.recommended[i].reason, c.recommended[i].priority);
    }
    if t in Initial(c).skipped { var i := SkippedDictLast(c.skipped, t); }
  }

  // ----- the policy, type by type -----

  lemma TextsDiffer()
    ensures VERIFY_TELEMETRY != GATE_FAILED
  {
    assert |VERIFY_TELEMETRY| != |GATE_FAILED|;
  }

  lemma SigmaEntry(d: Draft, c: Class, confidence: real, passed: bool, floor: real)
    requires SigmaRule in d.recommended && d.recommended[SigmaRule].prerequisites == []
    requires !Declines(c) && confidence >= floor
    ensures var d' := ByGate(ByConfidence(ByClass(d, c), confidence, floor), passed);
            && SigmaRule in d'.recommended
            && d'.recommended[SigmaRule] == d.recommended[SigmaRule].(prerequisites := Waits(c, passed))
  {
    var p, q := d.recommended[SigmaRule], d.recommended[SigmaRule].(prerequisites := [VERIFY_TELEMETRY]);
    TextsDiffer();
    assert [] + [GATE_FAILED] == [GATE_FAILED];
    assert p.(prerequisites := []) == p;
  }

  /** Sigma's skip entry after a rule that takes it away for the given reason, or leaves it alone. */
  predicate SkipsSigma(d: Draft, d': Draft, taken: bool, reason: string) {
    && (SigmaRule in d'.skipped <==> SigmaRule in d.skipped || taken)
    && (SigmaRule in d.skipped ==> d'.skipped[SigmaRule] == d.skipped[SigmaRule])
    && (SigmaRule !in d.skipped && taken ==> d'.skipped[SigmaRule] == Skipped(SigmaRule, reason))
  }

  lemma ClassSkip(d: Draft, c: Class)
    ensures SkipsSigma(d, ByClass(d, c), Declines(c), if c == ControlOnly then PREVENT else NEED_EVIDENCE)
  {
  }

  lemma LaterSkip(d: Draft, confidence: real, passed: bool, floor: real)
    ensures SkipsSigma(d, ByGate(ByConfidence(d, confidence, floor), passed), confidence < floor, LOW_CONFIDENCE)
  {
  }

  /** A dictionary entry and a skip of one type, before and after. */
  predicate Untouched(d: Draft, d': Draft, t: ArtifactType) {
    && (t in d'.skipped <==> t in d.skipped) && (t in d.skipped ==> d'.skipped[t] == d.skipped[t])
    && (t in d'.recommended <==> t in d.recommended) && (t in d.recommended ==> d'.recommended[t] == d.recommended[t])
  }

  predicate Adds(d: Draft, d': Draft, x: Planned) {
    && (x.artifact in d'.skipped <==> x.artifact in d.skipped)
    && (x.artifact in d.skipped ==> d'.skipped[x.artifact] == d.skipped[x.artifact])
    && x.artifact in d'.recommended && d'.recommended[x.artifact] == x
  }

  /** The entry the class rules add for a type nobody mentioned. */
  function ClassDefault(c: Class): seq<Planned> {
    match c
    case InsufficientInformation => [Planned(AnalystResearchTask, GATHER, 1, [])]
    case ControlOnly => [Planned(MitigationPlan, MITIGATE, 1, [])]
    case EnvironmentDependent => [Planned(TelemetryContract, DOCUMENT, 2, [])]
    case _ => []
  }

  predicate Free(d: Draft, t: ArtifactType) {
    t !in d.recommended && t !in d.skipped
  }

  lemma ClassOther(d: Draft, c: Class, t: ArtifactType)
    requires t != SigmaRule
    ensures if Free(d, t) && ClassDefault(c) != [] && ClassDefault(c)[0].artifact == t
            then Adds(d, ByClass(d, c), ClassDefault(c)[0]) else Untouched(d, ByClass(d, c), t)
  {
  }

  lemma ConfidenceOther(d: Draft, confidence: real, floor: real, t: ArtifactType)
    requires t != SigmaRule
    ensures if Free(d, t) && confidence < floor && t == AnalystResearchTask
            then Adds(d, ByConfidence(d, confidence, floor), Planned(t, RESEARCH, 1, []))
            else Untouched(d, ByConfidence(d, confidence, floor), t)
  {
  }

  lemma GateOther(d: Draft, passed: bool, t: ArtifactType)
    requires t != SigmaRule
    ensures Untouched(d, ByGate(d, passed), t)
  {
  }

  lemma PolicyEntry(c: Classification, confidence: real, passed: bool, floor: real, t: ArtifactType)
    requires ValidClassification(c)
    ensures var d := Policy(c, confidence, passed, floor);
            && (t in d.recommended <==> Wants(c, confidence, floor, t))
            && (t in d.recommended ==> EntryFits(c, passed, d.recommended[t]))
            && (t in d.skipped <==> Omits(c, confidence, floor, t))
            && (t in d.skipped ==> SkipFits(c, d.skipped[t]))
  {
    InitialEntries(c, t);
    var d := Initial(c);
    if t == SigmaRule {
      SigmaMembership(c, confidence, passed, floor);
      ClassSkip(d, c.class_);
      LaterSkip(ByClass(d, c.class_), confidence, passed, floor);
      if Wants(c, confidence, floor, t) { SigmaEntry(d, c.class_, confidence, passed, floor); }
    } else {
      ClassOther(d, c.class_, t);
      ConfidenceOther(ByClass(d, c.class_), confidence, floor, t);
      GateOther(ByConfidence(ByClass(d, c.class_), confidence, floor), passed, t);
    }
  }

  // ----- the lists -----

  lemma {:induction false} ListingOnce<V(!new)>(m: map<ArtifactType, V>, types: seq<ArtifactType>,
                                                of: V -> ArtifactType)
    requires forall t :: t in m ==> of(m[t]) == t
    requires forall i, j :: 0 <= i < j < |types| ==> types[i] != types[j]
    ensures forall x, y :: x in Listing(m, types) && y in Listing(m, types) && of(x) == of(y) ==> x == y
    ensures forall x :: x in Listing(m, types) ==> of(x) in types && multiset(Listing(m, types))[x] == 1
  {
    if types != [] {
      ListingOnce(m, types[1..], of);
      var rest := Listing(m, types[1..]);
      assert types == [types[0]] + types[1..];
      assert types[0] !in types[1..];
      forall x | x in Listing(m, types) ensures of(x) in types && multiset(Listing(m, types))[x] == 1 {
        if types[0] in m && x == m[types[0]] {
          assert x !in rest;
        } else {
          assert x in rest;
        }
      }
    }
  }

  /** The two lists of a plan, entry by entry: the right types, each once, with the right entries, in order. */
  ghost predicate Holds(c: Classification, confidence: real, passed: bool, floor: real, p: RouterPlan) {
    && (forall t :: PlanRecommends(p, t) <==> Wants(c, confidence, floor, t))
    && (forall t :: PlanSkips(p, t) <==> Omits(c, confidence, floor, t))
    && (forall x :: x in p.recommended ==> EntryFits(c, passed, x) && multiset(p.recommended)[x] == 1)
    && (forall x :: x in p.skipped ==> SkipFits(c, x) && multiset(p.skipped)[x] == 1)
    && (forall x, y :: x in p.recommended && y in p.recommended && x.artifact == y.artifact ==> x == y)
    && (forall x, y :: x in p.skipped && y in p.skipped && x.artifact == y.artifact ==> x == y)
    && Sorted(p.recommended, PlannedLe) && Sorted(p.skipped, SkippedLe)
    && p.requiredInputs == c.requiredTelemetry && p.confidence == confidence
  }

  lemma TypesOnce()
    ensures forall i, j :: 0 <= i < j < |TYPES| ==> TYPES[i] != TYPES[j]
  {
  }

  lemma ListsOnce(d: Draft, c: Classification, confidence: real, adjustments: seq<Adjustment>)
    requires Keyed(d)
    ensures var p := PlanOf(d, c, confidence, adjustments);
            && (forall x :: x in p.recommended ==> multiset(p.recommended)[x] == 1)
            && (forall x :: x in p.skipped ==> multiset(p.skipped)[x] == 1)
  {
    TypesOnce();
    var p := PlanOf(d, c, confidence, adjustments);
    ListingOnce(d.recommended, TYPES, (x: Planned) => x.artifact);
    ListingOnce(d.skipped, TYPES, (x: Skipped) => x.artifact);
    SortKeeps(Listing(d.recommended, TYPES), PlannedLe);
    SortKeeps(Listing(d.skipped, TYPES), SkippedLe);
  }

  lemma PolicyHolds(c: Classification, confidence: real, passed: bool, floor: real, adjustments: seq<Adjustment>)
    requires ValidClassification(c)
    ensures var p := PlanOf(Policy(c, confidence, passed, floor), c, confidence, adjustments);
            Holds(c, confidence, passed, floor, p)
  {
    var d := Policy(c, confidence, passed, floor);
    PolicyWellFormed(c, confidence, passed, floor);
    PlanLists(d, c, confidence, adjustments);
    ListsOnce(d, c, confidence, adjustments);
    forall t
      ensures t in d.recommended <==> Wants(c, confidence, floor, t)
      ensures t in d.recommended ==> EntryFits(c, passed, d.recommended[t])
      ensures t in d.skipped <==> Omits(c, confidence, floor, t)
      ensures t in d.skipped ==> SkipFits(c, d.skipped[t])
    {
      PolicyEntry(c, confidence, passed, floor, t);
    }
  }

  // ----- the trace -----

  function Note(happened: bool, a: Adjustment): seq<Adjustment> {
    if happened then [a] else []
  }

  /** What the class rules do, told from the classification: Sigma taken away or made conditional, a default added. */
  function ClassTraceOf(c: Classification): seq<Adjustment> {
    match c.class_
    case InsufficientInformation =>
      Note(Recommends(c, SigmaRule), Demoted(SigmaRule, NEED_EVIDENCE))
      + Note(!Lists(c, AnalystResearchTask), Added(AnalystResearchTask, GATHER))
    case ControlOnly =>
      Note(Recommends(c, SigmaRule), Demoted(SigmaRule, PREVENT))
      + Note(!Lists(c, MitigationPlan), Added(MitigationPlan, MITIGATE))
    case EnvironmentDependent =>
      Note(Recommends(c, SigmaRule), Prerequisite(SigmaRule, VERIFY_TELEMETRY))
      + Note(!Lists(c, TelemetryContract), Added(TelemetryContract, DOCUMENT))
    case _ => []
  }

  function ConfidenceTraceOf(c: Classification, confidence: real, floor: real): seq<Adjustment> {
    Note(confidence < floor && Recommends(c, SigmaRule) && !Declines(c.class_), Demoted(SigmaRule, LOW_CONFIDENCE))
    + Note(confidence < floor && !Lists(c, AnalystResearchTask) && c.class_ != InsufficientInformation,
           Added(AnalystResearchTask, RESEARCH))
  }

  function GateTraceOf(c: Classification, confidence: real, passed: bool, floor: real): seq<Adjustment> {
    Note(!passed && Recommends(c, SigmaRule) && !Declines(c.class_) && !(confidence < floor),
         Prerequisite(SigmaRule, GATE_FAILED))
  }

  /** The adjustments after the reconciliations, in order. */
  function TraceOf(c: Classification, confidence: real, passed: bool, floor: real): seq<Adjustment> {
    ClassTraceOf(c) + ConfidenceTraceOf(c, confidence, floor) + GateTraceOf(c, confidence, passed, floor)
  }

  /** The classifier mentions the type. */
  predicate Lists(c: Classification, t: ArtifactType) {
    Recommends(c, t) || Skips(c, t)
  }

  // ----- the trace of the policy's steps -----

  function DemoteNote(d: Draft, t: ArtifactType, reason: string): seq<Adjustment> {
    Note(t in d.recommended, Demoted(t, reason))
  }

  function AddNote(d: Draft, t: ArtifactType, reason: string): seq<Adjustment> {
    Note(t !in d.recommended && t !in d.skipped, Added(t, reason))
  }

  function PrerequisiteNote(d: Draft, t: ArtifactType, text: string): seq<Adjustment> {
    Note(t in d.recommended && text !in d.recommended[t].prerequisites, Prerequisite(t, text))
  }

  function ClassNotes(d: Draft, c: Class): seq<Adjustment> {
    match c
    case InsufficientInformation =>
      DemoteNote(d, SigmaRule, NEED_EVIDENCE)
      + AddNote(Demote(d, SigmaRule, NEED_EVIDENCE), AnalystResearchTask, GATHER)
    case ControlOnly =>
      DemoteNote(d, SigmaRule, PREVENT) + AddNote(Demote(d, SigmaRule, PREVENT), MitigationPlan, MITIGATE)
    case EnvironmentDependent =>
      PrerequisiteNote(d, SigmaRule, VERIFY_TELEMETRY)
      + AddNote(AddPrerequisite(d, SigmaRule, VERIFY_TELEMETRY), TelemetryContract, DOCUMENT)
    case _ => []
  }

  function ConfidenceNotes(d: Draft, confidence: real, floor: real): seq<Adjustment> {
    if confidence < floor then
      DemoteNote(d, SigmaRule, LOW_CONFIDENCE)
      + AddNote(Demote(d, SigmaRule, LOW_CONFIDENCE), AnalystResearchTask, RESEARCH)
    else []
  }

  function GateNotes(d: Draft, passed: bool): seq<Adjustment> {
    if passed then [] else PrerequisiteNote(d, SigmaRule, GATE_FAILED)
  }

  lemma DemoteTrace(c: Classification, reason: string)
    requires ValidClassification(c)
    ensures DemoteNote(Initial(c), SigmaRule, reason) == Note(Recommends(c, SigmaRule), Demoted(SigmaRule, reason))
  {
    InitialEntries(c, SigmaRule);
  }

  lemma PrerequisiteTrace(c: Classification, text: string)
    requires ValidClassification(c)
    ensures PrerequisiteNote(Initial(c), SigmaRule, text) ==
            Note(Recommends(c, SigmaRule), Prerequisite(SigmaRule, text))
  {
    InitialEntries(c, SigmaRule);
  }

  /** Rules on Sigma do not change whether another type is still free. */
  lemma AddTrace(c: Classification, t: ArtifactType, reason: string, why: string, text: string)
    requires ValidClassification(c) && t != SigmaRule
    ensures AddNote(Demote(Initial(c), SigmaRule, why), t, reason) == Note(!Lists(c, t), Added(t, reason))
    ensures AddNote(AddPrerequisite(Initial(c), SigmaRule, text), t, reason) == Note(!Lists(c, t), Added(t, reason))
  {
    InitialEntries(c, t);
  }

  lemma ClassTrace(c: Classification)
    requires ValidClassification(c)
    ensures ClassNotes(Initial(c), c.class_) == ClassTraceOf(c)
  {
    match c.class_ {
      case InsufficientInformation =>
        DemoteTrace(c, NEED_EVIDENCE);
        AddTrace(c, AnalystResearchTask, GATHER, NEED_EVIDENCE, "");
      case ControlOnly =>
        DemoteTrace(c, PREVENT);
        AddTrace(c, MitigationPlan, MITIGATE, PREVENT, "");
      case EnvironmentDependent =>
        PrerequisiteTrace(c, VERIFY_TELEMETRY);
        AddTrace(c, TelemetryContract, DOCUMENT, "", VERIFY_TELEMETRY);
      case _ =>
    }
  }

  /** What the class rules leave of Sigma and of the research task. */
  lemma AfterClass(c: Classification)
    requires ValidClassification(c)
    ensures SigmaRule in ByClass(Initial(c), c.class_).recommended <==> Recommends(c, SigmaRule) && !Declines(c.class_)
    ensures Free(ByClass(Initial(c), c.class_), AnalystResearchTask) <==>
            !Lists(c, AnalystResearchTask) && c.class_ != InsufficientInformation
  {
    InitialEntries(c, SigmaRule);
    InitialEntries(c, AnalystResearchTask);
    ClassMembership(Initial(c), c.class_);
    ClassOther(Initial(c), c.class_, AnalystResearchTask);
  }

  lemma ConfidenceTrace(c: Classification, confidence: real, floor: real)
    requires ValidClassification(c)
    ensures ConfidenceNotes(ByClass(Initial(c), c.class_), confidence, floor) == ConfidenceTraceOf(c, confidence, floor)
  {
    AfterClass(c);
  }

  lemma GateTrace(c: Classification, confidence: real, passed: bool, floor: real)
    requires ValidClassification(c)
    ensures GateNotes(ByConfidence(ByClass(Initial(c), c.class_), confidence, floor), passed) ==
            GateTraceOf(c, confidence, passed, floor)
  {
    InitialEntries(c, SigmaRule);
    ClassMembership(Initial(c), c.class_);
    TextsDiffer();
  }

  lemma PolicyTrace(c: Classification, confidence: real, passed: bool, floor: real)
    requires ValidClassification(c)
    ensures ClassNotes(Initial(c), c.class_) + ConfidenceNotes(ByClass(Initial(c), c.class_), confidence, floor)
            + GateNotes(ByConfidence(ByClass(Initial(c), c.class_), confidence, floor), passed)
            == TraceOf(c, confidence, passed, floor)
  {
    ClassTrace(c);
    ConfidenceTrace(c, confidence, floor);
    GateTrace(c, confidence, passed, floor);
  }
}
