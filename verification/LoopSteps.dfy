/** What each request of the loop-run protocol leaves in the table, row by row. */
module LoopSteps {
  import opened LoopProtocol
  import opened Options
  import opened VersionedRows

  // ----- begin -----

  /** A begin is refused when the loop may not run, is in flight, or is Loop 3 without a rationale on an active Loop 2
      that failed its gate; else it appends one inactive running row without output and changes nothing else. */
  lemma BeginRecords(d: Db, n: Loop, rationale: string)
    requires Inv(d)
    ensures var inFlight := exists i :: 0 <= i < |d.rows| && d.rows[i].loop == n && d.rows[i].status == Running;
            var blocked := exists i :: 0 <= i < |d.rows| && d.rows[i].loop == 2 && d.rows[i].active
                                       && d.rows[i].status == GateFailed;
            var version := |Versions(Tags(d.rows), n)| + 1;
            BeginRun(d, n, rationale) ==
            if d.state == Completed || n > Level(d.state) + 1 || inFlight || (n == 3 && rationale == "" && blocked)
            then Err(InvalidTransition)
            else Ok(Db(d.state, d.rows + [Run(n, version, Running, false, None, rationale)]))
  {
    StatesFollowLevels(d.state, n);
    AppendKeepsDense(Tags(d.rows), n);
    assert HasRunning(d.rows, n) <==>
           exists i :: 0 <= i < |d.rows| && d.rows[i].loop == n && d.rows[i].status == Running by {
      assert forall i :: 0 <= i < |d.rows| ==>
        (IsRunning(d.rows[i], n) <==> d.rows[i].loop == n && d.rows[i].status == Running);
    }
    assert GateBlocked(d.rows) <==>
           exists i :: 0 <= i < |d.rows| && d.rows[i].loop == 2 && d.rows[i].active
                       && d.rows[i].status == GateFailed by {
      assert forall i :: 0 <= i < |d.rows| ==> (IsActive(d.rows[i], 2) <==> d.rows[i].loop == 2 && d.rows[i].active);
    }
  }

  // ----- execute -----

  /** What the hooks make of a returned output: only Loop 2 with a non-empty output is judged. */
  predicate Judged(n: Loop, body: Body) {
    n == 2 && body.Returned? && body.output != map[]
  }

  /** The row a delivery ends, told from the body: a worker that dies or a loop that raises fails without an output; a
      returned output is kept, and only Loop 2 can still end gate_failed, or failed when its chain cannot be built. */
  lemma ExecutionRecords(d: Db, k: nat, body: Body)
    requires k < |d.rows| && d.rows[k].status == Running
    ensures var step, r := ExecuteRun(d, k, body), d.rows[k];
            && step.Ok? && |step.value.rows| == |d.rows|
            && var r' := step.value.rows[k];
            && (r'.loop, r'.version, r'.rationale) == (r.loop, r.version, r.rationale)
            && (!body.Returned? ==>
                  step.value == d.(rows := d.rows[k := r.(status := Failed, output := None)]))
            && (body.Returned? ==>
                  && (r'.status == GateFailed <==> Judged(r.loop, body) && !body.gatePassed)
                  && (r'.status == Failed <==>
                        Judged(r.loop, body) && body.gatePassed && body.synthesis == SynthesisFailed)
                  && r'.status in {Succeeded, GateFailed, Failed}
                  && r'.output == Some(
                       if Judged(r.loop, body) && body.gatePassed && body.synthesis.Chain?
                       then body.output["_chain" := body.synthesis.id] else body.output))
  {
  }

  /** What the delivery does around that row: a failed run changes nothing else; any other is activated, supersedes
      the active rows of its own and the later loops, and sets the state to its loop done. */
  lemma ExecutionEffects(d: Db, k: nat, body: Body)
    requires k < |d.rows| && d.rows[k].status == Running && !d.rows[k].active
    ensures var d', n := ExecuteRun(d, k, body).value, d.rows[k].loop;
            && |d'.rows| == |d.rows|
            && (d'.rows[k].status == Failed ==>
                  d'.state == d.state && !d'.rows[k].active && d'.rows == d.rows[k := d'.rows[k]])
            && (d'.rows[k].status != Failed ==>
                  && d'.rows[k].active && Level(d'.state) == n && d'.state != Completed
                  && forall i :: 0 <= i < |d.rows| && i != k ==>
                       d'.rows[i] == if d.rows[i].active && n <= d.rows[i].loop
                                     then d.rows[i].(active := false, status := Superseded) else d.rows[i])
  {
    StatesFollowLevels(d.state, d.rows[k].loop);
    var rows := ExecuteRun(d, k, body).value.rows;
    if !Fails(d.rows[k].loop, body) {
      var demoted := Demoted(d.rows, d.rows[k].loop, 3, k);
      assert forall i :: 0 <= i < |d.rows| && i != k ==> rows[i] == demoted[i];
    }
  }

  /** Deliveries that find no running row. */
  lemma IdleDelivery(d: Db, k: nat, body: Body)
    ensures k >= |d.rows| ==> ExecuteRun(d, k, body) == Err(NotFound)
    ensures k < |d.rows| && d.rows[k].status != Running ==> ExecuteRun(d, k, body) == Ok(d)
  {
  }

  // ----- import and close -----

  /** An import supersedes the active Loop 1 rows only, appends a succeeded active one with the chain's output, and
      sets loop1_done from whatever state; without a matching chain it is refused. */
  lemma ImportRecords(d: Db, chain: Option<Output>)
    requires Inv(d)
    ensures var step, n := UseAsStart(d, chain), |d.rows|;
            if chain.None? then step == Err(ChainNotFound)
            else
              && step.Ok? && step.value.state == Loop1Done && |step.value.rows| == n + 1
              && (forall i :: 0 <= i < n ==>
                    step.value.rows[i] == if d.rows[i].active && d.rows[i].loop == 1
                                          then d.rows[i].(active := false, status := Superseded) else d.rows[i])
              && step.value.rows[n] == Run(1, |Versions(Tags(d.rows), 1)| + 1, Succeeded, true, chain, "")
  {
    if chain.Some? {
      ImportedRows(d, chain);
      var demoted := Demoted(d.rows, 1, 1, -1);
      assert Tags(demoted) == Tags(d.rows);
      AppendKeepsDense(Tags(d.rows), 1);
    }
  }

  lemma CloseRecords(d: Db)
    ensures CloseAssessment(d) ==
            if d.state == Completed || Level(d.state) < 2 then Err(CannotClose) else Ok(Db(Completed, d.rows))
  {
  }
}
