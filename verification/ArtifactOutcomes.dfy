/** What each artifact request answers and writes, in terms of the stored rows and the audit trail alone. */
module ArtifactOutcomes {
  import opened Detectability
  import opened Options
  import opened VersionedRows
  import opened ArtifactLifecycle

  /** No such row, or one of another assessment than the caller names. */
  predicate Missing(s: Store, k: nat, assessment: Option<nat>) {
    k < |s.rows| ==> assessment.Some? && s.rows[k].key.assessment != assessment.value
  }

  /** A row that is there but has no generated document. */
  predicate Unfinished(s: Store, k: nat, assessment: Option<nat>) {
    !Missing(s, k, assessment) && s.rows[k].status != Generated
  }

  /** The row's own status moved, and one entry tells it; repeating a status writes nothing at all. */
  ghost predicate Moved(s: Store, s': Store, k: nat, to: Validation)
    requires k < |s.rows|
  {
    && |s'.rows| == |s.rows|
    && (forall i :: 0 <= i < |s.rows| && i != k ==> s'.rows[i] == s.rows[i])
    && s'.rows[k] == s.rows[k].(validation := to)
    && s'.audit == s.audit + if s.rows[k].validation == to then [] else [Entry(k, s.rows[k].validation, to)]
  }

  /** Approving and rejecting, with the decision they stand against. */
  function Decision(k: nat, assessment: Option<nat>, approve: bool): Step {
    if approve then DoApprove(k, assessment) else DoReject(k, assessment)
  }

  function Verdict(approve: bool): Validation {
    if approve then AnalystApproved else Rejected
  }

  /** A decision is refused for a missing or unfinished row and against the opposite decision; otherwise it is
      recorded. */
  lemma DecisionRecords(s: Store, k: nat, assessment: Option<nat>, approve: bool)
    ensures var r := Apply(s, Decision(k, assessment, approve));
            && (r == Err(NotFound) <==> Missing(s, k, assessment))
            && (r == Err(InvalidTransition) <==>
                  Unfinished(s, k, assessment)
                  || (!Missing(s, k, assessment) && s.rows[k].validation == Verdict(!approve)))
            && (r.Ok? || r == Err(NotFound) || r == Err(InvalidTransition))
            && (r.Ok? ==> Moved(s, r.value, k, Verdict(approve)))
  {
    if !Missing(s, k, assessment) && s.rows[k].validation == Verdict(approve) {
      assert s.rows[k].(validation := Verdict(approve)) == s.rows[k];
      assert s.audit + [] == s.audit;
    }
  }

  /** Linting is refused for a missing or unfinished row; a decided row stays as it is, any other needs review. */
  lemma LintRecords(s: Store, k: nat, assessment: Option<nat>)
    requires Inv(s)
    ensures var r := Apply(s, DoValidate(k, assessment));
            && (r == Err(NotFound) <==> Missing(s, k, assessment))
            && (r == Err(InvalidTransition) <==> Unfinished(s, k, assessment))
            && (r.Ok? || r == Err(NotFound) || r == Err(InvalidTransition))
            && (r.Ok? && s.rows[k].validation in {AnalystApproved, Rejected} ==> r.value == s)
            && (r.Ok? && s.rows[k].validation !in {AnalystApproved, Rejected} ==> Moved(s, r.value, k, NeedsReview))
  {
    if !Missing(s, k, assessment) {
      assert RowOk(s.rows[k]);
      assert s.audit + [] == s.audit;
    }
  }

  /** Some row of the key still generates. */
  predicate InFlight(s: Store, key: Key) {
    exists i :: 0 <= i < |s.rows| && s.rows[i].key == key && s.rows[i].status == Generating
  }

  /** A request to generate is refused for Sigma and while the key generates; otherwise the key's rows go inactive
      and a new active row of the next version stands behind all. */
  lemma RequestRecords(s: Store, key: Key)
    requires Inv(s)
    ensures var r, n := Apply(s, DoBegin(key)), |s.rows|;
            && (r == Err(NotGeneratable) <==> key.artifact == SigmaRule)
            && (r == Err(AlreadyGenerating) <==> key.artifact != SigmaRule && InFlight(s, key))
            && (r.Ok? || r == Err(NotGeneratable) || r == Err(AlreadyGenerating))
            && (r.Ok? ==> |r.value.rows| == n + 1 && r.value.audit == s.audit)
            && (r.Ok? ==> forall i :: 0 <= i < n ==>
                  r.value.rows[i] == if s.rows[i].key == key then s.rows[i].(active := false) else s.rows[i])
            && (r.Ok? ==> r.value.rows[n] == Row(key, r.value.rows[n].version, true, Generating, NotValidated, None))
  {
    forall i | 0 <= i < |s.rows| && s.rows[i].key == key && s.rows[i].status == Generating
      ensures s.rows[i].active
    {
      assert RowOk(s.rows[i]);
    }
    if Begin(s, key).Ok? {
      BegunRows(s, key);
    }
  }

  /** The new row's version is one more than the number of the key's rows before it. */
  lemma RequestVersion(s: Store, key: Key)
    requires Inv(s) && Apply(s, DoBegin(key)).Ok?
    ensures Apply(s, DoBegin(key)).value.rows[|s.rows|].version == |Versions(Tags(s.rows), key)| + 1
  {
    MaxOfCounting(Versions(Tags(s.rows), key));
  }

  /** A worker writes a generating row only, and ends its generation: with the document, or as failed. */
  lemma WorkerRecords(s: Store, k: nat, content: Option<Content>)
    ensures var r := Apply(s, DoGenerate(k, content));
            && r.Ok? && |r.value.rows| == |s.rows| && r.value.audit == s.audit
            && (forall i :: 0 <= i < |s.rows| && (i != k || s.rows[i].status != Generating) ==>
                  r.value.rows[i] == s.rows[i])
            && (k < |s.rows| && s.rows[k].status == Generating ==>
                  r.value.rows[k] == if content.Some? then s.rows[k].(status := Generated, content := content)
                                     else s.rows[k].(status := Failed))
  {
  }

  /** So a request that fails or is repeated leaves the store as it was: the table and the trail change together. */
  lemma TrailTellsChanges(s: Store, step: Step)
    requires Inv(s) && (step.DoValidate? || step.DoApprove? || step.DoReject?)
    ensures var s' := After(s, step);
            && |s'.rows| == |s.rows| && s.audit <= s'.audit && |s'.audit| <= |s.audit| + 1
            && (s'.audit == s.audit <==> s' == s)
            && (s' != s ==> s'.audit[|s.audit|] ==
                              Entry(step.k, s.rows[step.k].validation, s'.rows[step.k].validation))
  {
  }
}
