/** Auto-advance: after a finished run the worker may begin the next loop. */
module LoopChain {
  import opened LoopOrchestrator
  import opened LoopProtocol
  import opened Options

  datatype Decision = Dispatch(next: Loop) | Stop | Noop

  function DecideNext(status: Status, n: Loop, auto: bool): Decision {
    if !auto then Noop
    else match status
         case Failed => Stop
         case GateFailed => Stop
         case Succeeded => if n >= 3 then Stop else Dispatch(n + 1)
         case _ => Noop
  }

  /** With auto-advance a success below Loop 3 dispatches the next loop; a run that failed, failed its gate or
      completes the chain stops it.  Everything else does nothing. */
  lemma DecisionIs(status: Status, n: Loop, auto: bool)
    ensures var d := DecideNext(status, n, auto);
            && (d.Dispatch? <==> auto && status == Succeeded && n < 3) && (d.Dispatch? ==> d.next == n + 1)
            && (d == Stop <==> auto && (status in {Failed, GateFailed} || (status == Succeeded && n == 3)))
  {
  }

  /** What the worker task does after one delivery for row `k`; a refused begin is swallowed. */
  function Advance(d: Db, k: nat, auto: bool): Db
    requires k < |d.rows|
  {
    match DecideNext(d.rows[k].status, d.rows[k].loop, auto)
    case Dispatch(n) => After(d, DoBegin(n, ""))
    case _ => d
  }

  /** After Loop N succeeded the begin of Loop N + 1, which never carries a rationale, is refused
      exactly when that loop is already in flight. */
  lemma AdvanceEnabledIff(d: Db, k: nat)
    requires Inv(d) && k < |d.rows| && d.rows[k].status == Succeeded && d.rows[k].loop < 3
    requires d.state == DoneState(d.rows[k].loop)
    ensures BeginRun(d, d.rows[k].loop + 1, "").Ok? <==> !HasRunning(d.rows, d.rows[k].loop + 1)
  {
    assert d.rows[k].loop == 2 ==> !GateBlocked(d.rows);
  }

  /** A repeated delivery of a finished run leaves the row alone, yet it still begins the next loop
      exactly when the row is the active success and the next loop may be re-run. */
  lemma DuplicateDeliveryBeginsIff(d: Db, k: nat, body: Body, auto: bool)
    requires Inv(d) && k < |d.rows| && d.rows[k].status != Running
    ensures var d' := Advance(ExecuteRun(d, k, body).value, k, auto);
            var n := d.rows[k].loop;
            && d'.state == d.state
            && (d' != d <==> auto && d.rows[k].status == Succeeded && n < 3
                             && CanRun(d.state, n + 1) && !HasRunning(d.rows, n + 1))
  {
    assert ExecuteRun(d, k, body).value == d;
    assert d.rows[k].loop == 2 && d.rows[k].status == Succeeded ==> !GateBlocked(d.rows);
  }

  /** The repeated delivery of a Loop 1 task re-runs Loop 2 of an assessment that is already at Loop 2. */
  lemma DuplicateDeliveryReruns(d: Db, k: nat, body: Body)
    requires Inv(d) && k < |d.rows| && d.rows[k].status == Succeeded && d.rows[k].loop == 1
    requires d.state == Loop2Done && !HasRunning(d.rows, 2)
    ensures HasRunning(Advance(ExecuteRun(d, k, body).value, k, true).rows, 2)
  {
    var rows := Advance(ExecuteRun(d, k, body).value, k, true).rows;
    assert IsRunning(rows[|rows| - 1], 2);
  }

  method AdvanceAfterRun(o: Orchestrator, k: nat, auto: bool) returns (next: Option<nat>)
    requires o.Valid() && k < |o.rows|
    modifies o
    ensures o.Valid() && o.Snapshot() == Advance(old(o.Snapshot()), k, auto)
    ensures next.Some? <==> |o.rows| > |old(o.rows)|
    ensures next.Some? ==> next.value == |old(o.rows)|
  {
    next := None;
    var decision := DecideNext(o.rows[k].status, o.rows[k].loop, auto);
    if decision.Dispatch? {
      var r := o.BeginRun(decision.next, "");
      if r.Ok? {
        next := Some(r.value);
      }
    }
  }

  ghost predicate OnlyRunning(rows: seq<Run>, k: nat) {
    forall i :: 0 <= i < |rows| ==> (rows[i].status == Running <==> i == k)
  }

  ghost predicate NothingRunning(rows: seq<Run>) {
    forall i :: 0 <= i < |rows| ==> rows[i].status != Running
  }

  /** What the worker's runs never touch in a table row. */
  ghost predicate SameRequests(before: seq<Run>, after: seq<Run>) {
    |before| <= |after| &&
    forall i :: 0 <= i < |before| ==> before[i].loop == after[i].loop && before[i].rationale == after[i].rationale
  }

  lemma ExecuteOnlyRunning(d: Db, k: nat, body: Body)
    requires Inv(d) && k < |d.rows| && OnlyRunning(d.rows, k)
    ensures var d' := ExecuteRun(d, k, body).value;
            && Inv(d') && |d'.rows| == |d.rows| && NothingRunning(d'.rows) && SameRequests(d.rows, d'.rows)
            && d'.rows[k].status == Outcome(d.rows[k].loop, body).0
            && (d'.rows[k].status != Failed ==> d'.state == DoneState(d.rows[k].loop))
  {
    StepKeepsInv(d, DoExecute(k, body));
    var d' := ExecuteRun(d, k, body).value;
    if !Fails(d.rows[k].loop, body) {
      var demoted := Demoted(d.rows, d.rows[k].loop, 3, k);
      assert forall i :: 0 <= i < |d.rows| && i != k ==> d'.rows[i] == demoted[i];
    }
  }

  lemma AdvanceFromIdle(d: Db, k: nat, auto: bool)
    requires Inv(d) && k < |d.rows| && NothingRunning(d.rows)
    requires d.rows[k].status in {Succeeded, GateFailed, Failed}
    requires d.rows[k].status == Succeeded ==> d.state == DoneState(d.rows[k].loop)
    ensures var d' := Advance(d, k, auto);
            if auto && d.rows[k].status == Succeeded && d.rows[k].loop < 3 then
              && |d'.rows| == |d.rows| + 1 && OnlyRunning(d'.rows, |d.rows|) && SameRequests(d.rows, d'.rows)
              && d'.rows[|d.rows|].loop == d.rows[k].loop + 1 && d'.rows[|d.rows|].rationale == ""
            else d' == d
  {
    if auto && d.rows[k].status == Succeeded && d.rows[k].loop < 3 {
      AdvanceEnabledIff(d, k);
      assert forall i :: 0 <= i < |d.rows| ==> Advance(d, k, auto).rows[i] == d.rows[i];
    }
  }

  /** One worker task with no other actor: execute the run in flight, then advance. */
  method WorkerTask(o: Orchestrator, k: nat, auto: bool, body: Body) returns (next: Option<nat>)
    requires o.Valid() && k < |o.rows| && OnlyRunning(o.rows, k)
    modifies o
    ensures o.Valid() && SameRequests(old(o.rows), o.rows)
    ensures next.Some? <==>
              auto && old(o.rows[k].loop) < 3 && Outcome(old(o.rows[k].loop), body).0 == Succeeded
    ensures if next.None? then NothingRunning(o.rows)
            else
              && next.value < |o.rows| && OnlyRunning(o.rows, next.value)
              && o.rows[next.value].loop == old(o.rows[k].loop) + 1 && o.rows[next.value].rationale == ""
  {
    ExecuteOnlyRunning(o.Snapshot(), k, body);
    var r := o.ExecuteRun(k, body);
    AdvanceFromIdle(o.Snapshot(), k, auto);
    next := AdvanceAfterRun(o, k, auto);
  }

  /** The worker with no other actor, from a run in flight: it begins consecutive loops, none with a
      rationale, for as long as every run so far succeeded, and stops for no other reason. */
  method DriveChain(o: Orchestrator, first: nat, auto: bool, bodies: Loop -> Body) returns (begun: seq<nat>)
    requires o.Valid() && first < |o.rows| && OnlyRunning(o.rows, first)
    modifies o
    ensures o.Valid() && NothingRunning(o.rows) && SameRequests(old(o.rows), o.rows)
    ensures var n := old(o.rows[first].loop);
            && n + |begun| <= 3
            && (forall i :: 0 <= i < |begun| ==>
                  begun[i] < |o.rows| && o.rows[begun[i]].loop == n + 1 + i && o.rows[begun[i]].rationale == "")
            && (forall l: Loop :: n <= l < n + |begun| ==> Outcome(l, bodies(l)).0 == Succeeded)
            && (auto && n + |begun| < 3 ==> Outcome(n + |begun|, bodies(n + |begun|)).0 != Succeeded)
            && (!auto ==> begun == [])
  {
    begun := [];
    ghost var n: Loop := o.rows[first].loop;
    var current: Option<nat> := Some(first);
    while current.Some?
      invariant o.Valid() && SameRequests(old(o.rows), o.rows)
      invariant n + |begun| <= 3
      invariant if current.None? then NothingRunning(o.rows)
                else
                  && current.value < |o.rows| && OnlyRunning(o.rows, current.value)
                  && o.rows[current.value].loop == n + |begun|
      invariant forall i :: 0 <= i < |begun| ==>
                  begun[i] < |o.rows| && o.rows[begun[i]].loop == n + 1 + i && o.rows[begun[i]].rationale == ""
      invariant forall l: Loop :: n <= l < n + |begun| ==> Outcome(l, bodies(l)).0 == Succeeded
      invariant current.None? && auto && n + |begun| < 3 ==> Outcome(n + |begun|, bodies(n + |begun|)).0 != Succeeded
      invariant !auto ==> begun == []
      decreases 3 - |begun|, current.Some?
    {
      current := WorkerTask(o, current.value, auto, bodies(o.rows[current.value].loop));
      if current.Some? {
        begun := begun + [current.value];
      }
    }
  }
}
