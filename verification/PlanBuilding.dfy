/** The router's plan builder, updating its dictionaries in place, and the policy it is driven by. */
module PlanBuilding {
  import opened ArtifactRouter
  import opened Detectability
  import opened RouterPlans

  // ----- the builder, updating its dictionaries in place -----

  /** The trace names exactly the given types, each as reconciled. */
  ghost predicate Traces(adjustments: seq<Adjustment>, types: set<ArtifactType>) {
    forall a :: a in adjustments <==> a.Reconciled? && a.artifact in types
  }

  lemma TraceOne(adjustments: seq<Adjustment>, types: set<ArtifactType>, dual: ArtifactType)
    requires Traces(adjustments, types)
    ensures Traces(adjustments + [Reconciled(dual)], types + {dual})
  {
  }

  /** `part` is `all` without some of the keys. */
  ghost predicate Restricts(part: map<ArtifactType, Planned>, all: map<ArtifactType, Planned>,
                            gone: set<ArtifactType>)
  {
    part.Keys == all.Keys - gone && forall t :: t in part ==> part[t] == all[t]
  }

  lemma RemoveOne(part: map<ArtifactType, Planned>, all: map<ArtifactType, Planned>, gone: set<ArtifactType>,
                  dual: ArtifactType)
    requires Restricts(part, all, gone)
    ensures Restricts(part - {dual}, all, gone + {dual})
  {
  }

  ghost predicate Split(gone: set<ArtifactType>, left: set<ArtifactType>, all: set<ArtifactType>) {
    gone + left == all
  }

  lemma MoveOne(left: set<ArtifactType>, gone: set<ArtifactType>, dual: ArtifactType, all: set<ArtifactType>)
    requires dual in left && Split(gone, left, all)
    ensures Split(gone + {dual}, left - {dual}, all)
  {
  }

  lemma RestrictsIs(part: map<ArtifactType, Planned>, all: map<ArtifactType, Planned>, others: set<ArtifactType>)
    requires Restricts(part, all, all.Keys * others)
    ensures part == all - others
  {
  }

  class PlanBuilder {
    var recommended: map<ArtifactType, Planned>
    var skipped: map<ArtifactType, Skipped>
    var adjustments: seq<Adjustment>

    ghost function Now(): Draft
      reads this
    {
      Draft(recommended, skipped)
    }

    constructor (c: Classification)
      ensures Now() == Initial(c)
      ensures forall a :: a in adjustments <==> a.Reconciled? && Recommends(c, a.artifact) && Skips(c, a.artifact)
    {
      var rec: map<ArtifactType, Planned>, skp: map<ArtifactType, Skipped> := map[], map[];
      for i := 0 to |c.recommended|
        invariant rec == RecommendedDict(c.recommended[..i])
      {
        var r := c.recommended[i];
        assert c.recommended[..i + 1][..i] == c.recommended[..i];
        rec := rec[r.artifact := Planned(r.artifact, r.reason, r.priority, [])];
      }
      for i := 0 to |c.skipped|
        invariant skp == SkippedDict(c.skipped[..i])
      {
        assert c.skipped[..i + 1][..i] == c.skipped[..i];
        skp := skp[c.skipped[i].artifact := c.skipped[i]];
      }
      assert c.recommended[..|c.recommended|] == c.recommended && c.skipped[..|c.skipped|] == c.skipped;
      recommended, skipped, adjustments := rec, skp, [];
      new;
      Reconcile();
      RecommendedDictHas(c.recommended);
      SkippedDictHas(c.skipped);
    }

    method DropRecommendation(dual: ArtifactType)
      modifies this`recommended, this`adjustments
      ensures recommended == old(recommended) - {dual} && adjustments == old(adjustments) + [Reconciled(dual)]
    {
      recommended := recommended - {dual};
      adjustments := adjustments + [Reconciled(dual)];
    }

    /** Types in both dictionaries stay skipped, in whatever order they are visited. */
    method Reconcile()
      requires adjustments == []
      modifies this`recommended, this`adjustments
      ensures recommended == old(recommended) - skipped.Keys
      ensures Traces(adjustments, old(recommended).Keys * skipped.Keys)
    {
      ghost var gone: set<ArtifactType> := {};
      var left := recommended.Keys * skipped.Keys;
      while left != {}
        invariant Split(gone, left, old(recommended).Keys * skipped.Keys)
        invariant Restricts(recommended, old(recommended), gone)
        invariant Traces(adjustments, gone)
        decreases |left|
      {
        var dual :| dual in left;
        TraceOne(adjustments, gone, dual);
        RemoveOne(recommended, old(recommended), gone, dual);
        MoveOne(left, gone, dual, old(recommended).Keys * skipped.Keys);
        DropRecommendation(dual);
        left, gone := left - {dual}, gone + {dual};
      }
      assert gone == old(recommended).Keys * skipped.Keys;
      RestrictsIs(recommended, old(recommended), skipped.Keys);
    }

    method DemoteType(t: ArtifactType, reason: string)
      modifies this
      ensures Now() == Demote(old(Now()), t, reason)
      ensures adjustments == old(adjustments) + DemoteNote(old(Now()), t, reason)
    {
      if t in recommended {
        recommended := recommended - {t};
        adjustments := adjustments + [Demoted(t, reason)];
      }
      if t !in skipped {
        skipped := skipped[t := Skipped(t, reason)];
      }
      assert recommended == old(recommended) - {t};
    }

    method EnsureRecommendedType(t: ArtifactType, reason: string, priority: int)
      modifies this
      ensures Now() == EnsureRecommended(old(Now()), t, reason, priority)
      ensures adjustments == old(adjustments) + AddNote(old(Now()), t, reason)
    {
      if t in recommended || t in skipped {
        return;
      }
      recommended := recommended[t := Planned(t, reason, priority, [])];
      adjustments := adjustments + [Added(t, reason)];
    }

    method AddPrerequisiteTo(t: ArtifactType, text: string)
      modifies this
      ensures Now() == AddPrerequisite(old(Now()), t, text)
      ensures adjustments == old(adjustments) + PrerequisiteNote(old(Now()), t, text)
    {
      if t in recommended && text !in recommended[t].prerequisites {
        var p := recommended[t];
        recommended := recommended[t := p.(prerequisites := p.prerequisites + [text])];
        adjustments := adjustments + [Prerequisite(t, text)];
        assert recommended[t] != p;
      }
    }
  }

  /** The rules keyed on the class, the first block of the policy. */
  method ApplyClassRules(b: PlanBuilder, c: Class)
    modifies b
    ensures b.Now() == ByClass(old(b.Now()), c)
    ensures b.adjustments == old(b.adjustments) + ClassNotes(old(b.Now()), c)
  {
    match c {
      case InsufficientInformation =>
        b.DemoteType(SigmaRule, NEED_EVIDENCE);
        b.EnsureRecommendedType(AnalystResearchTask, GATHER, 1);
      case ControlOnly =>
        b.DemoteType(SigmaRule, PREVENT);
        b.EnsureRecommendedType(MitigationPlan, MITIGATE, 1);
      case EnvironmentDependent =>
        b.AddPrerequisiteTo(SigmaRule, VERIFY_TELEMETRY);
        b.EnsureRecommendedType(TelemetryContract, DOCUMENT, 2);
      case _ =>
    }
  }

  method ApplyConfidenceRules(b: PlanBuilder, confidence: real, floor: real)
    modifies b
    ensures b.Now() == ByConfidence(old(b.Now()), confidence, floor)
    ensures b.adjustments == old(b.adjustments) + ConfidenceNotes(old(b.Now()), confidence, floor)
  {
    if confidence < floor {
      b.DemoteType(SigmaRule, LOW_CONFIDENCE);
      b.EnsureRecommendedType(AnalystResearchTask, RESEARCH, 1);
    }
  }

  method ApplyGateRule(b: PlanBuilder, passed: bool)
    modifies b
    ensures b.Now() == ByGate(old(b.Now()), passed)
    ensures b.adjustments == old(b.adjustments) + GateNotes(old(b.Now()), passed)
  {
    if !passed {
      b.AddPrerequisiteTo(SigmaRule, GATE_FAILED);
    }
  }

  /** The trace: the reconciliations, in some order, then the policy's adjustments in theirs. */
  ghost predicate TraceFits(c: Classification, confidence: real, passed: bool, floor: real, trace: seq<Adjustment>) {
    var policy := TraceOf(c, confidence, passed, floor);
    exists first :: trace == first + policy &&
      forall a :: a in first <==> a.Reconciled? && Recommends(c, a.artifact) && Skips(c, a.artifact)
  }

  lemma JoinNotes(first: seq<Adjustment>, a: seq<Adjustment>, b: seq<Adjustment>, c: seq<Adjustment>)
    ensures first + a + b + c == first + (a + b + c)
  {
  }

  lemma TraceJoins(c: Classification, confidence: real, passed: bool, floor: real,
                   first: seq<Adjustment>, trace: seq<Adjustment>)
    requires ValidClassification(c)
    requires forall a :: a in first <==> a.Reconciled? && Recommends(c, a.artifact) && Skips(c, a.artifact)
    requires var d := Initial(c);
             trace == first + ClassNotes(d, c.class_) + ConfidenceNotes(ByClass(d, c.class_), confidence, floor)
                      + GateNotes(ByConfidence(ByClass(d, c.class_), confidence, floor), passed)
    ensures TraceFits(c, confidence, passed, floor, trace)
  {
    var d := Initial(c);
    PolicyTrace(c, confidence, passed, floor);
    JoinNotes(first, ClassNotes(d, c.class_), ConfidenceNotes(ByClass(d, c.class_), confidence, floor),
              GateNotes(ByConfidence(ByClass(d, c.class_), confidence, floor), passed));
    assert trace == first + TraceOf(c, confidence, passed, floor);
  }

  /** The policy in the order the code applies it. */
  method RunPolicy(c: Classification, confidence: real, passed: bool, floor: real)
    returns (d: Draft, trace: seq<Adjustment>)
    requires ValidClassification(c)
    ensures d == Policy(c, confidence, passed, floor)
    ensures TraceFits(c, confidence, passed, floor, trace)
  {
    var b := new PlanBuilder(c);
    ghost var first := b.adjustments;
    ApplyClassRules(b, c.class_);
    ApplyConfidenceRules(b, confidence, floor);
    ApplyGateRule(b, passed);
    d, trace := Draft(b.recommended, b.skipped), b.adjustments;
    TraceJoins(c, confidence, passed, floor, first, trace);
  }

  /** The plan holds exactly the entries told from the classification, it passes the strict validator when its
      confidence is one, and its trace records every adjustment. */
  method BuildPlan(c: Classification, confidence: real, passed: bool, floor: real) returns (p: RouterPlan)
    requires ValidClassification(c)
    ensures Holds(c, confidence, passed, floor, p)
    ensures ValidPlan(p) <==> 0.0 <= confidence <= 1.0
    ensures TraceFits(c, confidence, passed, floor, p.adjustments)
  {
    var d, trace := RunPolicy(c, confidence, passed, floor);
    p := PlanOf(d, c, confidence, trace);
    PlanValidIff(c, confidence, passed, floor, trace);
    PolicyHolds(c, confidence, passed, floor, trace);
  }
}
