/** The orchestrator and its collaborators on one assessment, updating the run table in place. */
module LoopOrchestrator {
  import opened LoopProtocol
  import opened Options
  import opened VersionedRows

  /** The active outputs by loop, the context handed to a loop body. */
  ghost function PriorOutputs(rows: seq<Run>): map<Loop, Output> {
    map n: Loop | 1 <= n <= 3 && HasActiveOutput(rows, n) ::
      var i :| 0 <= i < |rows| && IsActive(rows[i], n) && rows[i].output.Some?; rows[i].output.value
  }

  predicate HasActiveOutput(rows: seq<Run>, n: Loop) {
    exists i :: 0 <= i < |rows| && IsActive(rows[i], n) && rows[i].output.Some?
  }

  class Orchestrator {
    var state: State
    var rows: seq<Run>

    ghost function Snapshot(): Db
      reads this
    {
      Db(state, rows)
    }

    ghost predicate Valid()
      reads this
    {
      Inv(Snapshot())
    }

    constructor ()
      ensures Valid() && Snapshot() == EMPTY
    {
      state, rows := Created, [];
    }

    method RunningRun(n: Loop) returns (found: Option<nat>)
      ensures found.Some? <==> HasRunning(rows, n)
      ensures found.Some? ==> found.value < |rows| && IsRunning(rows[found.value], n)
    {
      for i := 0 to |rows|
        invariant forall j :: 0 <= j < i ==> !IsRunning(rows[j], n)
      {
        if IsRunning(rows[i], n) {
          return Some(i);
        }
      }
      return None;
    }

    method LatestActiveRun(n: Loop) returns (found: Option<nat>)
      ensures found.Some? <==> HasActive(rows, n)
      ensures found.Some? ==> found.value < |rows| && IsActive(rows[found.value], n)
    {
      for i := 0 to |rows|
        invariant forall j :: 0 <= j < i ==> !IsActive(rows[j], n)
      {
        if IsActive(rows[i], n) {
          return Some(i);
        }
      }
      return None;
    }

    /** The precheck and the new row; a refused request changes nothing. */
    method BeginRun(n: Loop, rationale: string) returns (r: Result<nat>)
      requires Valid()
      modifies this
      ensures Valid()
      ensures var spec := LoopProtocol.BeginRun(old(Snapshot()), n, rationale);
              if spec.Ok? then r == Ok(|old(rows)|) && Snapshot() == spec.value
              else r == Err(spec.error) && Snapshot() == old(Snapshot())
    {
      StepKeepsInv(Snapshot(), DoBegin(n, rationale));
      if !CanRun(state, n) {
        return Err(InvalidTransition);
      }
      var running := RunningRun(n);
      if running.Some? {
        return Err(InvalidTransition);
      }
      if n == 3 {
        var latest := LatestActiveRun(2);
        if latest.Some? && rows[latest.value].status == GateFailed && rationale == "" {
          return Err(InvalidTransition);
        }
        assert latest.Some? ==> IsActive(rows[latest.value], 2);
        assert rationale != "" || !GateBlocked(rows);
      }
      var version := NextVersion(Tags(rows), n);
      r := Ok(|rows|);
      rows := rows + [Run(n, version, Running, false, None, rationale)];
    }

    method SupersedePriorActiveRows(n: Loop)
      modifies this`rows
      ensures rows == Demoted(old(rows), n, n, -1)
    {
      for i := 0 to |rows|
        invariant |rows| == |old(rows)|
        invariant forall j :: 0 <= j < i ==> rows[j] == Demoted(old(rows), n, n, -1)[j]
        invariant forall j :: i <= j < |rows| ==> rows[j] == old(rows)[j]
      {
        if rows[i].loop == n && rows[i].active {
          rows := rows[i := rows[i].(active := false, status := Superseded)];
        }
      }
    }

    method InvalidateDownstream(n: Loop)
      modifies this`rows
      ensures rows == Demoted(old(rows), n + 1, 3, -1)
    {
      for m := n + 1 to 4
        invariant rows == Demoted(old(rows), n + 1, m - 1, -1)
      {
        ghost var was := rows;
        SupersedePriorActiveRows(m);
        assert rows == Demoted(was, m, m, -1);
        assert forall i :: 0 <= i < |rows| ==> rows[i] == Demoted(old(rows), n + 1, m, -1)[i];
      }
    }

    /** One delivery of the worker task for row `k`. */
    method ExecuteRun(k: nat, body: Body) returns (r: Result<Run>)
      requires Valid()
      modifies this
      ensures Valid()
      ensures var spec := LoopProtocol.ExecuteRun(old(Snapshot()), k, body);
              if spec.Ok? then Snapshot() == spec.value && k < |rows| && r == Ok(rows[k])
              else r == Err(spec.error) && Snapshot() == old(Snapshot())
    {
      StepKeepsInv(Snapshot(), DoExecute(k, body));
      if k >= |rows| {
        return Err(NotFound);
      }
      var run := rows[k];
      if run.status != Running {
        return Ok(run);
      }
      FinalizeRun(k, Outcome(run.loop, body).0, Outcome(run.loop, body).1);
      return Ok(rows[k]);
    }

    method FinalizeRun(k: nat, status: Status, output: Option<Output>)
      requires k < |rows| && !rows[k].active && status in {Succeeded, GateFailed, Failed}
      modifies this
      ensures var run := old(rows)[k];
              if status == Failed then
                state == old(state) && rows == old(rows)[k := run.(status := Failed, output := output)]
              else
                && state == DoneState(run.loop)
                && rows == Demoted(old(rows), run.loop, 3,
                  k)[k := run.(status := status, active := true, output := output)]
    {
      var n := rows[k].loop;
      rows := rows[k := rows[k].(status := status, output := output)];
      if status != Failed {
        SupersedePriorActiveRows(n);
        rows := rows[k := rows[k].(active := true)];
        InvalidateDownstream(n);
        state := DoneState(n);
        assert forall i :: 0 <= i < |rows| && i != k ==> rows[i] == Demoted(old(rows), n, 3, k)[i];
      }
    }

    method UseAsStart(chain: Option<Output>) returns (r: Result<nat>)
      requires Valid()
      modifies this
      ensures Valid()
      ensures var spec := LoopProtocol.UseAsStart(old(Snapshot()), chain);
              if spec.Ok? then r == Ok(|old(rows)|) && Snapshot() == spec.value
              else r == Err(spec.error) && Snapshot() == old(Snapshot())
    {
      StepKeepsInv(Snapshot(), DoUseAsStart(chain));
      if chain.None? {
        return Err(ChainNotFound);
      }
      SupersedePriorActiveRows(1);
      var version := NextVersion(Tags(rows), 1);
      r := Ok(|rows|);
      rows := rows + [Run(1, version, Succeeded, true, chain, "")];
      state := Loop1Done;
    }

    method Close() returns (r: Result<()>)
      requires Valid()
      modifies this`state
      ensures Valid()
      ensures var spec := CloseAssessment(old(Snapshot()));
              if spec.Ok? then r == Ok(()) && Snapshot() == spec.value
              else r == Err(spec.error) && Snapshot() == old(Snapshot())
    {
      StepKeepsInv(Snapshot(), DoClose);
      if !CanClose(state) {
        return Err(CannotClose);
      }
      state := Completed;
      return Ok(());
    }

    /** The active rows may be fetched in any order: the context is the same. */
    method CollectPriorOutputs(fetched: seq<nat>) returns (out: map<Loop, Output>)
      requires Valid()
      requires forall i :: i in fetched <==> 0 <= i < |rows| && rows[i].active
      ensures out == PriorOutputs(rows)
    {
      out := map[];
      for j := 0 to |fetched|
        invariant forall n :: n in out ==> HasActiveOutput(rows, n)
        invariant forall i :: i in fetched[..j] && i < |rows| && rows[i].output.Some? ==> rows[i].loop in out
        invariant forall i :: 0 <= i < |rows| && rows[i].active && rows[i].output.Some? && rows[i].loop in out ==>
                    out[rows[i].loop] == rows[i].output.value
      {
        assert fetched[j] in fetched;
        var run := rows[fetched[j]];
        if run.output.Some? {
          out := out[run.loop := run.output.value];
          assert IsActive(rows[fetched[j]], run.loop);
        }
      }
      forall n: Loop | HasActiveOutput(rows, n)
        ensures n in out && out[n] == PriorOutputs(rows)[n]
      {
        var i :| 0 <= i < |rows| && IsActive(rows[i], n) && rows[i].output.Some?;
        assert i in fetched[..|fetched|];
      }
    }
  }
}
