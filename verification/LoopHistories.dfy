/** What interleaved histories of the loop-run protocol keep, and which stronger claims they break. */
module LoopHistories {
  import opened LoopProtocol
  import opened Options
  import opened VersionedRows

  // ----- rows above the active version -----

  /** Every row inserted after the active row of its loop is still running or has failed. */
  ghost predicate ActiveOnTop(rows: seq<Run>) {
    forall i, j :: 0 <= i < j < |rows| && rows[i].loop == rows[j].loop && rows[i].active ==>
      rows[j].status in {Running, Failed}
  }

  /** A running row is the latest of its loop. */
  ghost predicate RunningIsLatest(rows: seq<Run>) {
    forall i, j :: 0 <= i < j < |rows| && rows[i].loop == rows[j].loop ==> rows[i].status != Running
  }

  /** The same claim read off the version column. */
  lemma ActiveOnTopByVersion(d: Db, i: nat, j: nat)
    requires Inv(d) && ActiveOnTop(d.rows)
    requires i < |d.rows| && j < |d.rows| && d.rows[i].loop == d.rows[j].loop
    requires d.rows[i].active && d.rows[i].version < d.rows[j].version
    ensures d.rows[j].status in {Running, Failed}
  {
    if j < i {
      DenseOrders(Tags(d.rows), j, i);
    }
  }

  /** Every import of a chain in the history happens while no Loop 1 row is running. */
  predicate ImportsIdle(d: Db, steps: seq<Step>)
    decreases |steps|
  {
    steps == [] ||
    (&& (steps[0].DoUseAsStart? ==> !HasRunning(d.rows, 1))
     && ImportsIdle(After(d, steps[0]), steps[1..]))
  }

  lemma FailKeepsOnTop(d: Db, k: nat, b: Body)
    requires ActiveOnTop(d.rows) && RunningIsLatest(d.rows)
    requires k < |d.rows| && d.rows[k].status == Running && !d.rows[k].active && Fails(d.rows[k].loop, b)
    ensures ActiveOnTop(ExecuteRun(d, k, b).value.rows) && RunningIsLatest(ExecuteRun(d, k, b).value.rows)
  {
    var rows := ExecuteRun(d, k, b).value.rows;
    assert forall i :: 0 <= i < |rows| && i != k ==> rows[i] == d.rows[i];
  }

  lemma FinishKeepsOnTop(d: Db, k: nat, b: Body)
    requires Inv(d) && ActiveOnTop(d.rows) && RunningIsLatest(d.rows)
    requires k < |d.rows| && d.rows[k].status == Running && !Fails(d.rows[k].loop, b)
    ensures ActiveOnTop(ExecuteRun(d, k, b).value.rows) && RunningIsLatest(ExecuteRun(d, k, b).value.rows)
  {
    FinishedRows(d, k, b);
    var rows := ExecuteRun(d, k, b).value.rows;
    forall i, j | 0 <= i < j < |rows| && rows[i].loop == rows[j].loop && rows[i].active
      ensures rows[j].status in {Running, Failed}
    {
      if i != k {
        assert d.rows[j].status in {Running, Failed};
        assert !d.rows[j].active;
      }
    }
  }

  lemma AppendKeepsOnTop(rows: seq<Run>, r: Run)
    requires ActiveOnTop(rows) && RunningIsLatest(rows)
    requires !HasRunning(rows, r.loop)
    requires r.status != Running ==> !HasActive(rows, r.loop)
    ensures ActiveOnTop(rows + [r]) && RunningIsLatest(rows + [r])
  {
    var more := rows + [r];
    forall i | 0 <= i < |rows| && rows[i].loop == r.loop
      ensures rows[i].status != Running && (r.status != Running ==> !rows[i].active)
    {
      assert !IsRunning(rows[i], r.loop);
      assert r.status != Running ==> !IsActive(rows[i], r.loop);
    }
    assert forall i :: 0 <= i < |rows| ==> more[i] == rows[i];
  }

  lemma DemotedLoop1(d: Db)
    requires ActiveOnTop(d.rows) && RunningIsLatest(d.rows) && !HasRunning(d.rows, 1)
    ensures var rows := Demoted(d.rows, 1, 1, -1);
            ActiveOnTop(rows) && RunningIsLatest(rows) && !HasRunning(rows, 1) && !HasActive(rows, 1)
  {
    var rows := Demoted(d.rows, 1, 1, -1);
    assert forall i :: 0 <= i < |rows| ==> IsRunning(rows[i], 1) ==> IsRunning(d.rows[i], 1);
    assert forall i :: 0 <= i < |rows| && rows[i].active ==> rows[i] == d.rows[i] && rows[i].loop != 1;
  }

  lemma StepKeepsOnTop(d: Db, s: Step)
    requires Inv(d) && ActiveOnTop(d.rows) && RunningIsLatest(d.rows)
    requires s.DoUseAsStart? ==> !HasRunning(d.rows, 1)
    ensures ActiveOnTop(After(d, s).rows) && RunningIsLatest(After(d, s).rows)
  {
    if Apply(d, s).Ok? {
      match s
      case DoBegin(n, why) =>
        AppendKeepsOnTop(d.rows, Run(n, Next(Tags(d.rows), n), Running, false, None, why));
      case DoExecute(k, b) =>
        if d.rows[k].status == Running {
          if Fails(d.rows[k].loop, b) { FailKeepsOnTop(d, k, b); } else { FinishKeepsOnTop(d, k, b); }
        }
      case DoUseAsStart(chain) =>
        var rows := Demoted(d.rows, 1, 1, -1);
        DemotedLoop1(d);
        AppendKeepsOnTop(rows, Run(1, Next(Tags(rows), 1), Succeeded, true, chain, ""));
      case DoClose =>
    }
  }

  /** Without imports, or with imports only while Loop 1 is idle, everything above an active version
      is running or failed. */
  lemma {:induction false} ReplayKeepsOnTop(d: Db, steps: seq<Step>)
    requires Inv(d) && ActiveOnTop(d.rows) && RunningIsLatest(d.rows)
    requires ImportsIdle(d, steps)
    ensures ActiveOnTop(Replay(d, steps).rows) && RunningIsLatest(Replay(d, steps).rows)
    decreases |steps|
  {
    if steps != [] {
      StepKeepsInv(d, steps[0]);
      StepKeepsOnTop(d, steps[0]);
      ReplayKeepsOnTop(After(d, steps[0]), steps[1..]);
    }
  }

  /** Exactly when a finishing run keeps the claim: nothing of its loop but failures came after it. */
  lemma FinishKeepsOnTopIff(d: Db, k: nat, b: Body)
    requires Inv(d) && ActiveOnTop(d.rows)
    requires k < |d.rows| && d.rows[k].status == Running && !Fails(d.rows[k].loop, b)
    ensures ActiveOnTop(ExecuteRun(d, k, b).value.rows) <==>
            forall j :: k < j < |d.rows| && d.rows[j].loop == d.rows[k].loop ==> d.rows[j].status == Failed
  {
    var n, rows := d.rows[k].loop, ExecuteRun(d, k, b).value.rows;
    FinishedRows(d, k, b);
    forall j | k < j < |rows| && rows[j].loop == n
      ensures rows[j].status in {Running, Failed} <==> d.rows[j].status == Failed
    {
      if d.rows[j].active {
        assert rows[j] == Demoted(d.rows, n, 3, k)[j];
      }
    }
  }

  /** Some run of row `k`'s loop that was inserted later has not failed. */
  predicate Overtaken(rows: seq<Run>, k: nat)
    requires k < |rows|
  {
    exists j :: k < j < |rows| && rows[j].loop == rows[k].loop && rows[j].status != Failed
  }

  /** The step finishes a run with an output. */
  predicate Finishes(d: Db, s: Step) {
    s.DoExecute? && s.k < |d.rows| && d.rows[s.k].status == Running && !Fails(d.rows[s.k].loop, s.body)
  }

  predicate OvertakenFinish(d: Db, s: Step) {
    Finishes(d, s) && Overtaken(d.rows, s.k)
  }

  lemma AppendedOnTop(rows: seq<Run>, r: Run)
    requires ActiveOnTop(rows) && (r.status in {Running, Failed} || !HasActive(rows, r.loop))
    ensures ActiveOnTop(rows + [r])
  {
    var more := rows + [r];
    forall i, j | 0 <= i < j < |more| && more[i].loop == more[j].loop && more[i].active
      ensures more[j].status in {Running, Failed}
    {
      if j < |rows| {
        assert more[i] == rows[i] && more[j] == rows[j];
      } else {
        assert IsActive(rows[i], r.loop);
      }
    }
  }

  lemma DemotedOnTop(rows: seq<Run>)
    requires ActiveOnTop(rows)
    ensures ActiveOnTop(Demoted(rows, 1, 1, -1)) && !HasActive(Demoted(rows, 1, 1, -1), 1)
  {
    var demoted := Demoted(rows, 1, 1, -1);
    forall i, j | 0 <= i < j < |demoted| && demoted[i].loop == demoted[j].loop && demoted[i].active
      ensures demoted[j].status in {Running, Failed}
    {
      assert demoted[i] == rows[i] && demoted[i].loop != 1 && demoted[j] == rows[j];
    }
  }

  /** Every step but a finish with an output keeps the claim, imports over a running Loop 1 included. */
  lemma OthersKeepOnTop(d: Db, s: Step)
    requires Inv(d) && ActiveOnTop(d.rows) && !Finishes(d, s)
    ensures ActiveOnTop(After(d, s).rows)
  {
    if Apply(d, s).Ok? {
      match s
      case DoBegin(n, why) => AppendedOnTop(d.rows, Run(n, Next(Tags(d.rows), n), Running, false, None, why));
      case DoExecute(k, b) =>
        var rows := After(d, s).rows;
        assert forall i :: 0 <= i < |rows| && i != k ==> rows[i] == d.rows[i];
      case DoUseAsStart(chain) =>
        var rows := Demoted(d.rows, 1, 1, -1);
        DemotedOnTop(d.rows);
        AppendedOnTop(rows, Run(1, Next(Tags(rows), 1), Succeeded, true, chain, ""));
      case DoClose =>
    }
  }

  /** A step of any kind breaks the claim exactly when it finishes, with an output, a run that a later run of its
      loop, not failed, has overtaken. */
  lemma OnTopIff(d: Db, s: Step)
    requires Inv(d) && ActiveOnTop(d.rows)
    ensures ActiveOnTop(After(d, s).rows) <==> !OvertakenFinish(d, s)
  {
    if Finishes(d, s) {
      FinishKeepsOnTopIff(d, s.k, s.body);
    } else {
      OthersKeepOnTop(d, s);
    }
  }

  ghost predicate AlwaysOnTop(d: Db, steps: seq<Step>)
    decreases |steps|
  {
    ActiveOnTop(d.rows) && (steps == [] || AlwaysOnTop(After(d, steps[0]), steps[1..]))
  }

  predicate NoOvertakenFinish(d: Db, steps: seq<Step>)
    decreases |steps|
  {
    steps == [] || (!OvertakenFinish(d, steps[0]) && NoOvertakenFinish(After(d, steps[0]), steps[1..]))
  }

  /** Over whole interleaved histories: the active version stays on top exactly when no overtaken run finishes. */
  lemma {:induction false} HistoriesOnTopIff(d: Db, steps: seq<Step>)
    requires Inv(d) && ActiveOnTop(d.rows)
    ensures AlwaysOnTop(d, steps) <==> NoOvertakenFinish(d, steps)
    decreases |steps|
  {
    if steps != [] {
      OnTopIff(d, steps[0]);
      StepKeepsInv(d, steps[0]);
      if ActiveOnTop(After(d, steps[0]).rows) {
        HistoriesOnTopIff(After(d, steps[0]), steps[1..]);
      }
    }
  }

  const OUT: Output := map["vuln_class" := "ssrf"]
  const DONE := Returned(OUT, true, NoSynthesizer)

  const BEGUN := Db(Created, [Run(1, 1, Running, false, None, "")])
  const IMPORTED := Db(Loop1Done, [Run(1, 1, Running, false, None, ""), Run(1, 2, Succeeded, true, Some(OUT), "")])

  lemma BeginFirst()
    ensures After(EMPTY, DoBegin(1, "")) == BEGUN
  {
  }

  lemma ImportSecond()
    ensures After(BEGUN, DoUseAsStart(Some(OUT))) == IMPORTED
  {
    var rows := Demoted(BEGUN.rows, 1, 1, -1);
    assert rows == BEGUN.rows;
    assert Tags(rows) == [(1, 1)];
    assert Versions(Tags(rows), 1) == [1];
  }

  /** An import that overtakes a running Loop 1 ends up superseded above the older active version. */
  lemma ImportOvertakesRunningLoop1()
    ensures var rows := Replay(EMPTY, [DoBegin(1, ""), DoUseAsStart(Some(OUT)), DoExecute(0, DONE)]).rows;
            |rows| == 2 && rows[0].active && rows[1].loop == 1 && rows[1].version == 2 && rows[1].status == Superseded
  {
    BeginFirst();
    ImportSecond();
    ReplaySteps(EMPTY, [DoBegin(1, ""), DoUseAsStart(Some(OUT)), DoExecute(0, DONE)]);
    assert Replay(EMPTY, [DoBegin(1, ""), DoUseAsStart(Some(OUT)), DoExecute(0, DONE)]) ==
        After(IMPORTED, DoExecute(0, DONE));
    FinishedRows(IMPORTED, 0, DONE);
    assert After(IMPORTED, DoExecute(0, DONE)).rows[1] == Demoted(IMPORTED.rows, 1, 3, 0)[1];
  }

  lemma ReplaySteps(d: Db, steps: seq<Step>)
    requires |steps| == 3
    ensures Replay(d, steps) == After(After(After(d, steps[0]), steps[1]), steps[2])
  {
    var d1 := After(d, steps[0]);
    assert Replay(d, steps) == Replay(d1, steps[1..]);
    assert Replay(d1, steps[1..]) == Replay(After(d1, steps[1]), steps[2..]) by {
      assert steps[1..][1..] == steps[2..];
    }
    assert Replay(After(d1, steps[1]), steps[2..]) == Replay(After(After(d1, steps[1]), steps[2]), []) by {
      assert steps[2..][1..] == [];
    }
  }

  // ----- the completed state -----

  /** `completed` is left exactly by a successful import, or by a run that was begun before the
      close and finishes with an output after it. */
  lemma CompletedLeftIff(d: Db, s: Step)
    requires d.state == Completed
    ensures After(d, s).state != Completed <==>
            || (s.DoUseAsStart? && s.chain.Some?)
            || (s.DoExecute? && s.k < |d.rows| && d.rows[s.k].status == Running && !Fails(d.rows[s.k].loop, s.body))
  {
  }

  lemma BeginIdle(d: Db, n: Loop)
    requires CanRun(d.state, n) && !HasRunning(d.rows, n) && (n == 3 ==> !GateBlocked(d.rows))
    ensures var d' := After(d, DoBegin(n, ""));
            && d'.state == d.state && |d'.rows| == |d.rows| + 1
            && (forall i :: 0 <= i < |d.rows| ==> d'.rows[i] == d.rows[i])
            && IsRunning(d'.rows[|d.rows|], n) && !d'.rows[|d.rows|].active && d'.rows[|d.rows|].rationale == ""
  {
  }

  lemma StillIdle(d: Db, n: Loop)
    requires CanRun(d.state, n) && !HasRunning(d.rows, n) && (n == 3 ==> !GateBlocked(d.rows))
    ensures forall m: Loop :: m != n && !HasRunning(d.rows, m) ==> !HasRunning(After(d, DoBegin(n, "")).rows, m)
  {
    BeginIdle(d, n);
    var rows := After(d, DoBegin(n, "")).rows;
    forall m: Loop | m != n && !HasRunning(d.rows, m) ensures !HasRunning(rows, m) {
      forall i | 0 <= i < |rows| ensures !IsRunning(rows[i], m) {
        if i < |d.rows| { assert !IsRunning(d.rows[i], m); }
      }
    }
  }

  /** Begin Loop 2, close, finish Loop 2: the assessment was completed and is at loop2_done again. */
  lemma FinishReopensClosed(d: Db)
    requires Inv(d) && d.state == Loop2Done && !HasRunning(d.rows, 2)
    ensures var closed := After(After(d, DoBegin(2, "")), DoClose);
            closed.state == Completed && After(closed, DoExecute(|d.rows|, DONE)).state == Loop2Done
  {
    BeginIdle(d, 2);
    assert "vuln_class" in OUT;
  }

  /** Begin Loop 3, re-run Loop 1, finish Loop 3: Loop 3 is active with no active Loop 2 below it. */
  lemma LateLoop3WithoutLoop2(d: Db)
    requires Inv(d) && d.state == Loop2Done && !GateBlocked(d.rows)
    requires forall n: Loop :: !HasRunning(d.rows, n)
    ensures var m := |d.rows|;
            var d' := After(After(After(After(d, DoBegin(3, "")), DoBegin(1, "")), DoExecute(m + 1, DONE)),
                DoExecute(m, DONE));
            d'.state == Loop3Done && HasActive(d'.rows, 3) && !HasActive(d'.rows, 2)
  {
    var m := |d.rows|;
    var d1 := After(d, DoBegin(3, ""));
    BeginIdle(d, 3);
    StillIdle(d, 3);
    var d2 := After(d1, DoBegin(1, ""));
    BeginIdle(d1, 1);
    LateFinishRows(d2, m);
  }

  /** From the table with Loops 3 and 1 in flight. */
  lemma LateFinishRows(d: Db, m: nat)
    requires |d.rows| == m + 2 && IsRunning(d.rows[m], 3) && IsRunning(d.rows[m + 1], 1) && !d.rows[m].active
    ensures var d' := After(After(d, DoExecute(m + 1, DONE)), DoExecute(m, DONE));
            d'.state == Loop3Done && HasActive(d'.rows, 3) && !HasActive(d'.rows, 2)
  {
    var d3 := After(d, DoExecute(m + 1, DONE));
    FinishedRows(d, m + 1, DONE);
    assert forall i :: 0 <= i < |d3.rows| ==> !IsActive(d3.rows[i], 2);
    assert IsRunning(d3.rows[m], 3);
    var d4 := After(d3, DoExecute(m, DONE));
    FinishedRows(d3, m, DONE);
    assert IsActive(d4.rows[m], 3);
    assert forall i :: 0 <= i < |d4.rows| ==> !IsActive(d4.rows[i], 2);
  }

  // ----- when an active Loop 3 rests on an active Loop 2 -----

  predicate Loop3Rests(rows: seq<Run>) {
    HasActive(rows, 3) ==> HasActive(rows, 2)
  }

  /** The active Loop 2 row passed its gate. */
  predicate HasPassed(rows: seq<Run>) {
    exists i :: 0 <= i < |rows| && IsActive(rows[i], 2) && rows[i].status == Succeeded
  }

  /** An active Loop 3 without a rationale rests on an active Loop 2 that passed its gate. */
  predicate Loop3Gated(rows: seq<Run>) {
    forall i :: 0 <= i < |rows| && IsActive(rows[i], 3) && rows[i].rationale == "" ==> HasPassed(rows)
  }

  /** The step finishes a Loop 3 run with an output. */
  predicate FinishesLoop3(d: Db, s: Step) {
    && s.DoExecute? && s.k < |d.rows|
    && d.rows[s.k].loop == 3 && d.rows[s.k].status == Running && !Fails(3, s.body)
  }

  /** Finishes Loop 3 while no Loop 2 is active. */
  predicate LateFinish(d: Db, s: Step) {
    FinishesLoop3(d, s) && !HasActive(d.rows, 2)
  }

  /** Finishes a Loop 3 begun without a rationale while no active Loop 2 has passed its gate. */
  predicate UngatedFinish(d: Db, s: Step) {
    FinishesLoop3(d, s) && d.rows[s.k].rationale == "" && !HasPassed(d.rows)
  }

  /** Both claims read the active rows of Loops 2 and 3 only. */
  ghost predicate SameUpper(before: seq<Run>, after: seq<Run>) {
    && |before| <= |after|
    && (forall i :: 0 <= i < |before| && before[i].loop >= 2 && (before[i].active || after[i].active) ==>
      after[i] == before[i])
    && (forall i :: 0 <= i < |before| ==> after[i].loop == before[i].loop)
    && (forall i :: |before| <= i < |after| ==> !IsActive(after[i], 2) && !IsActive(after[i], 3))
  }

  lemma SameUpperSame(before: seq<Run>, after: seq<Run>)
    requires SameUpper(before, after)
    ensures HasActive(after, 2) == HasActive(before, 2) && HasActive(after, 3) == HasActive(before, 3)
    ensures HasPassed(after) == HasPassed(before)
  {
    forall n: Loop | n >= 2 ensures HasActive(after, n) == HasActive(before, n) {
      if HasActive(before, n) {
        var i :| 0 <= i < |before| && IsActive(before[i], n);
        assert IsActive(after[i], n);
      }
      if HasActive(after, n) {
        var i :| 0 <= i < |after| && IsActive(after[i], n);
        assert IsActive(before[i], n);
      }
    }
    if HasPassed(before) {
      var i :| 0 <= i < |before| && IsActive(before[i], 2) && before[i].status == Succeeded;
      assert IsActive(after[i], 2) && after[i].status == Succeeded;
    }
    if HasPassed(after) {
      var i :| 0 <= i < |after| && IsActive(after[i], 2) && after[i].status == Succeeded;
      assert IsActive(before[i], 2) && before[i].status == Succeeded;
    }
  }

  lemma SameUpperGated(before: seq<Run>, after: seq<Run>)
    requires SameUpper(before, after)
    ensures Loop3Gated(after) == Loop3Gated(before)
  {
    SameUpperSame(before, after);
    if exists i :: 0 <= i < |before| && IsActive(before[i], 3) && before[i].rationale == "" {
      var i :| 0 <= i < |before| && IsActive(before[i], 3) && before[i].rationale == "";
      assert IsActive(after[i], 3) && after[i].rationale == "";
    }
    if exists i :: 0 <= i < |after| && IsActive(after[i], 3) && after[i].rationale == "" {
      var i :| 0 <= i < |after| && IsActive(after[i], 3) && after[i].rationale == "";
      assert IsActive(before[i], 3) && before[i].rationale == "";
    }
  }

  /** Begin, import, close, failing runs and no-op deliveries leave the active rows of Loops 2 and 3 alone. */
  lemma OthersLeaveUpper(d: Db, s: Step)
    requires Inv(d) && !Finishes(d, s)
    ensures SameUpper(d.rows, After(d, s).rows)
  {
    if s.DoUseAsStart? && s.chain.Some? {
      ImportedRows(d, s.chain);
    }
  }

  /** What a finishing run leaves of the upper loops. */
  lemma FinishLeavesUpper(d: Db, k: nat, b: Body)
    requires Inv(d) && k < |d.rows| && d.rows[k].status == Running && !Fails(d.rows[k].loop, b)
    ensures var n, rows := d.rows[k].loop, ExecuteRun(d, k, b).value.rows;
            && (n < 3 ==> !HasActive(rows, 3))
            && (n == 3 ==> HasActive(rows, 3) && (forall i :: 0 <= i < |rows| && IsActive(rows[i], 3) ==> i == k))
            && (n == 3 ==> rows[k].rationale == d.rows[k].rationale)
            && (n == 3 ==> (HasActive(rows, 2) <==> HasActive(d.rows, 2)) && (HasPassed(rows) <==> HasPassed(d.rows)))
  {
    var n, rows := d.rows[k].loop, ExecuteRun(d, k, b).value.rows;
    FinishedRows(d, k, b);
    if n == 3 {
      assert IsActive(rows[k], 3);
      FinishKeepsLoop2(d, k, b);
    }
  }

  lemma FinishKeepsLoop2(d: Db, k: nat, b: Body)
    requires k < |d.rows| && d.rows[k].loop == 3 && d.rows[k].status == Running && !Fails(3, b)
    ensures var rows := ExecuteRun(d, k, b).value.rows;
            (HasActive(rows, 2) <==> HasActive(d.rows, 2)) && (HasPassed(rows) <==> HasPassed(d.rows))
  {
    var rows := ExecuteRun(d, k, b).value.rows;
    var demoted := Demoted(d.rows, 3, 3, k);
    assert forall i :: 0 <= i < |rows| && d.rows[i].loop == 2 ==> rows[i] == demoted[i] == d.rows[i];
    assert forall i :: 0 <= i < |rows| && rows[i].loop == 2 ==> rows[i] == d.rows[i] by { FinishedRows(d, k, b); }
    if HasActive(d.rows, 2) {
      var i :| 0 <= i < |rows| && IsActive(d.rows[i], 2);
      assert IsActive(rows[i], 2);
    }
    if HasPassed(d.rows) {
      var i :| 0 <= i < |rows| && IsActive(d.rows[i], 2) && d.rows[i].status == Succeeded;
      assert IsActive(rows[i], 2) && rows[i].status == Succeeded;
    }
  }

  /** A step takes the Loop 2 below an active Loop 3 away exactly when it finishes Loop 3 with an output while
      no Loop 2 is active. */
  lemma Loop3RestsIff(d: Db, s: Step)
    requires Inv(d) && Loop3Rests(d.rows)
    ensures Loop3Rests(After(d, s).rows) <==> !LateFinish(d, s)
  {
    if Finishes(d, s) {
      FinishLeavesUpper(d, s.k, s.body);
    } else {
      OthersLeaveUpper(d, s);
      SameUpperSame(d.rows, After(d, s).rows);
    }
  }

  /** A step breaks the gate claim exactly when it finishes a Loop 3 begun without a rationale while the active
      Loop 2 is missing or did not pass. */
  lemma Loop3GatedIff(d: Db, s: Step)
    requires Inv(d) && Loop3Gated(d.rows)
    ensures Loop3Gated(After(d, s).rows) <==> !UngatedFinish(d, s)
  {
    if Finishes(d, s) {
      var rows := After(d, s).rows;
      FinishLeavesUpper(d, s.k, s.body);
      if d.rows[s.k].loop == 3 {
        assert IsActive(rows[s.k], 3);
      } else {
        assert forall i :: 0 <= i < |rows| ==> !IsActive(rows[i], 3);
      }
    } else {
      OthersLeaveUpper(d, s);
      SameUpperGated(d.rows, After(d, s).rows);
    }
  }

  /** The claims in every table along a history. */
  predicate AlwaysRests(d: Db, steps: seq<Step>)
    decreases |steps|
  {
    Loop3Rests(d.rows) && (steps == [] || AlwaysRests(After(d, steps[0]), steps[1..]))
  }

  predicate AlwaysGated(d: Db, steps: seq<Step>)
    decreases |steps|
  {
    Loop3Gated(d.rows) && (steps == [] || AlwaysGated(After(d, steps[0]), steps[1..]))
  }

  predicate NoLateFinish(d: Db, steps: seq<Step>)
    decreases |steps|
  {
    steps == [] || (!LateFinish(d, steps[0]) && NoLateFinish(After(d, steps[0]), steps[1..]))
  }

  predicate NoUngatedFinish(d: Db, steps: seq<Step>)
    decreases |steps|
  {
    steps == [] || (!UngatedFinish(d, steps[0]) && NoUngatedFinish(After(d, steps[0]), steps[1..]))
  }

  /** Over whole interleaved histories: an active Loop 3 always rests on an active Loop 2 exactly when no
      Loop 3 ever finishes late, and on one that passed, a rationale aside, exactly when none finishes ungated. */
  lemma {:induction false} HistoriesRestIff(d: Db, steps: seq<Step>)
    requires Inv(d)
    ensures Loop3Rests(d.rows) ==> (AlwaysRests(d, steps) <==> NoLateFinish(d, steps))
    ensures Loop3Gated(d.rows) ==> (AlwaysGated(d, steps) <==> NoUngatedFinish(d, steps))
    decreases |steps|
  {
    if steps != [] {
      var d' := After(d, steps[0]);
      StepKeepsInv(d, steps[0]);
      HistoriesRestIff(d', steps[1..]);
      if Loop3Rests(d.rows) { HistoryRests(d, steps); }
      if Loop3Gated(d.rows) { HistoryGated(d, steps); }
    }
  }

  lemma HistoryRests(d: Db, steps: seq<Step>)
    requires Inv(d) && Loop3Rests(d.rows) && steps != []
    requires var d' := After(d, steps[0]);
             Loop3Rests(d'.rows) ==> (AlwaysRests(d', steps[1..]) <==> NoLateFinish(d', steps[1..]))
    ensures AlwaysRests(d, steps) <==> NoLateFinish(d, steps)
  {
    Loop3RestsIff(d, steps[0]);
    if AlwaysRests(d, steps) { assert AlwaysRests(After(d, steps[0]), steps[1..]); }
  }

  lemma HistoryGated(d: Db, steps: seq<Step>)
    requires Inv(d) && Loop3Gated(d.rows) && steps != []
    requires var d' := After(d, steps[0]);
             Loop3Gated(d'.rows) ==> (AlwaysGated(d', steps[1..]) <==> NoUngatedFinish(d', steps[1..]))
    ensures AlwaysGated(d, steps) <==> NoUngatedFinish(d, steps)
  {
    Loop3GatedIff(d, steps[0]);
    if AlwaysGated(d, steps) { assert AlwaysGated(After(d, steps[0]), steps[1..]); }
  }

  const GATE_FAILED_BODY := Returned(OUT, false, NoSynthesizer)

  /** The gate is bypassed: begin Loop 3 while the gate still passes, re-run Loop 2 into a gate failure, then
      finish Loop 3, which carries no rationale. */
  lemma GateBypassed(d: Db)
    requires Inv(d) && d.state == Loop2Done && !GateBlocked(d.rows)
    requires forall n: Loop :: !HasRunning(d.rows, n)
    ensures var m := |d.rows|;
            var d3 := After(After(After(d, DoBegin(3, "")), DoBegin(2, "")), DoExecute(m + 1, GATE_FAILED_BODY));
            var d4 := After(d3, DoExecute(m, DONE));
            && UngatedFinish(d3, DoExecute(m, DONE)) && d4.state == Loop3Done
            && IsActive(d4.rows[m], 3) && d4.rows[m].rationale == "" && GateBlocked(d4.rows)
  {
    var m := |d.rows|;
    var d1 := After(d, DoBegin(3, ""));
    BeginIdle(d, 3);
    StillIdle(d, 3);
    BeginIdle(d1, 2);
    var d2 := After(d1, DoBegin(2, ""));
    BypassFinish(d2, m);
  }

  /** From the table with Loops 3 and 2 in flight. */
  lemma BypassFinish(d: Db, m: nat)
    requires |d.rows| == m + 2 && IsRunning(d.rows[m], 3) && d.rows[m].rationale == "" && IsRunning(d.rows[m + 1], 2)
    requires !d.rows[m].active
    ensures var d3 := After(d, DoExecute(m + 1, GATE_FAILED_BODY));
            var d4 := After(d3, DoExecute(m, DONE));
            && UngatedFinish(d3, DoExecute(m, DONE)) && d4.state == Loop3Done && |d4.rows| == m + 2
            && IsActive(d4.rows[m], 3) && d4.rows[m].rationale == "" && GateBlocked(d4.rows)
  {
    var d3 := After(d, DoExecute(m + 1, GATE_FAILED_BODY));
    assert "vuln_class" in OUT;
    assert Outcome(2, GATE_FAILED_BODY) == (GateFailed, Some(OUT));
    FinishedRows(d, m + 1, GATE_FAILED_BODY);
    assert d3.rows[m] == d.rows[m];
    assert forall i :: 0 <= i < |d3.rows| && IsActive(d3.rows[i], 2) ==> i == m + 1;
    assert !HasPassed(d3.rows);
    var d4 := After(d3, DoExecute(m, DONE));
    FinishedRows(d3, m, DONE);
    assert d3.rows[m + 1].loop == 2 && d3.rows[m + 1].status == GateFailed && d3.rows[m + 1].active;
    assert d4.rows[m + 1] == Demoted(d3.rows, 3, 3, m)[m + 1];
    assert IsActive(d4.rows[m + 1], 2) && d4.rows[m + 1].status == GateFailed;
  }
}
