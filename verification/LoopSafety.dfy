/** Whole-run results: failed runs can be erased from any legal interleaved history, and serialised
    runs keep the loops below the current state active. */
module LoopSafety {
  import opened LoopMachine
  import opened LoopProtocol
  import opened Options

  // ----- histories of requests on the table -----

  ghost function StepFor(d: Db, a: Act): Step
    requires a.Finish? ==> HasRunning(d.rows, a.n)
  {
    match a
    case Begin(n, why) => DoBegin(n, why)
    case Finish(n, body) => (var k :| 0 <= k < |d.rows| && IsRunning(d.rows[k], n); DoExecute(k, body))
    case Import(chain) => DoUseAsStart(chain)
    case Close => DoClose
  }

  /** Every request of the history succeeds. */
  ghost predicate LegalOnTable(d: Db, acts: seq<Act>)
    decreases |acts|
  {
    acts == [] ||
    (&& (acts[0].Finish? ==> HasRunning(d.rows, acts[0].n))
     && Apply(d, StepFor(d, acts[0])).Ok?
     && LegalOnTable(After(d, StepFor(d, acts[0])), acts[1..]))
  }

  ghost function Perform(d: Db, acts: seq<Act>): Db
    requires LegalOnTable(d, acts)
    decreases |acts|
  {
    if acts == [] then d else Perform(After(d, StepFor(d, acts[0])), acts[1..])
  }

  /** The table and the machine allow the same histories and end in corresponding states. */
  lemma {:induction false} HistoriesCorrespond(d: Db, m: Machine, acts: seq<Act>)
    requires Inv(d) && Abstracts(d, m)
    ensures LegalOnTable(d, acts) <==> LegalHistory(m, acts)
    ensures LegalOnTable(d, acts) ==>
              Inv(Perform(d, acts)) && Abstracts(Perform(d, acts), Outcomes(m, acts))
    decreases |acts|
  {
    if acts != [] {
      var a := acts[0];
      if a.Finish? {
        GuardsAgree(d, m, a.n);
      }
      if a.Finish? ==> HasRunning(d.rows, a.n) {
        var s := StepFor(d, a);
        Simulation(d, m, a, s);
        StepKeepsInv(d, s);
        if Legal(m, a) {
          HistoriesCorrespond(After(d, s), Move(m, a), acts[1..]);
        }
      }
    }
  }

  // ----- failed runs can be erased -----

  /** The run of loop `n` now in flight is the next of its loop to finish, and it fails. */
  predicate Doomed(acts: seq<Act>, n: Loop)
    decreases |acts|
  {
    acts != [] &&
    if acts[0].Finish? && acts[0].n == n then Fails(n, acts[0].body) else Doomed(acts[1..], n)
  }

  /** Drops every begin whose run fails, and the failing finishes themselves. */
  function Erase(acts: seq<Act>): seq<Act>
    decreases |acts|
  {
    if acts == [] then []
    else
      var a, rest := acts[0], Erase(acts[1..]);
      match a
      case Begin(n, _) => if Doomed(acts[1..], n) then rest else [a] + rest
      case Finish(n, body) => if Fails(n, body) then rest else [a] + rest
      case Import(_) => [a] + rest
      case Close => [a] + rest
  }

  lemma {:induction false} ErasedHasNoFailures(acts: seq<Act>)
    ensures forall a :: a in Erase(acts) && a.Finish? ==> !Fails(a.n, a.body)
    decreases |acts|
  {
    if acts != [] {
      ErasedHasNoFailures(acts[1..]);
    }
  }

  function Spared(running: map<Loop, string>, acts: seq<Act>): map<Loop, string> {
    map n | n in running && !Doomed(acts, n) :: running[n]
  }

  /** A machine without the runs that are going to fail. */
  function Pruned(m: Machine, acts: seq<Act>): Machine {
    m.(running := Spared(m.running, acts))
  }

  predicate Kept(a: Act, rest: seq<Act>) {
    match a
    case Begin(n, _) => !Doomed(rest, n)
    case Finish(n, body) => !Fails(n, body)
    case _ => true
  }

  /** A request that is erased does nothing to the pruned machine; one that is kept moves it along. */
  lemma PrunedSteps(m: Machine, a: Act, rest: seq<Act>)
    requires Legal(m, a)
    ensures !Kept(a, rest) ==> Pruned(m, [a] + rest) == Pruned(Move(m, a), rest)
    ensures Kept(a, rest) ==>
              Legal(Pruned(m, [a] + rest), a) && Move(Pruned(m, [a] + rest), a) == Pruned(Move(m, a), rest)
  {
    assert ([a] + rest)[0] == a && ([a] + rest)[1..] == rest;
    if Kept(a, rest) {
      assert Legal(Pruned(m, [a] + rest), a);
      assert Move(Pruned(m, [a] + rest), a).running == Pruned(Move(m, a), rest).running;
    } else {
      assert Spared(m.running, [a] + rest) == Spared(Move(m, a).running, rest);
    }
  }

  lemma {:induction false} EraseOnMachine(m: Machine, acts: seq<Act>)
    requires LegalHistory(m, acts)
    ensures LegalHistory(Pruned(m, acts), Erase(acts)) && Outcomes(Pruned(m, acts), Erase(acts)) == Outcomes(m, acts)
    decreases |acts|
  {
    if acts == [] {
      assert Spared(m.running, acts) == m.running;
    } else {
      var a, rest := acts[0], acts[1..];
      assert acts == [a] + rest;
      PrunedSteps(m, a, rest);
      EraseOnMachine(Move(m, a), rest);
      if Kept(a, rest) {
        assert Erase(acts) == [a] + Erase(rest);
        assert Erase(acts)[1..] == Erase(rest);
      }
    }
  }

  /** From a table with nothing in flight: erasing the failed runs of any legal interleaved history
      gives a legal history with the same state, active outputs and runs in flight. */
  lemma FailedRunsErase(d: Db, acts: seq<Act>)
    requires Inv(d) && (forall n: Loop :: !HasRunning(d.rows, n))
    requires LegalOnTable(d, acts)
    ensures LegalOnTable(d, Erase(acts))
    ensures AbsOf(Perform(d, Erase(acts))) == AbsOf(Perform(d, acts))
    ensures forall a :: a in Erase(acts) && a.Finish? ==> !Fails(a.n, a.body)
  {
    var m := AbsOf(d);
    AbsOfAbstracts(d, m);
    HistoriesCorrespond(d, m, acts);
    EraseOnMachine(m, acts);
    assert Spared(m.running, acts) == map[] == m.running;
    assert Pruned(m, acts) == m;
    HistoriesCorrespond(d, m, Erase(acts));
    AbsOfAbstracts(Perform(d, acts), Outcomes(m, acts));
    AbsOfAbstracts(Perform(d, Erase(acts)), Outcomes(m, acts));
    ErasedHasNoFailures(acts);
  }

  // ----- serialised runs -----

  datatype Serial = RunLoop(n: Loop, rationale: string, body: Body) | Reuse(chain: Option<Output>) | CloseIt

  /** `run_loop`: begin, then execute the new row inline. */
  function RunInline(d: Db, n: Loop, rationale: string, body: Body): Result<Db> {
    var begun := BeginRun(d, n, rationale);
    if begun.Err? then begun else ExecuteRun(begun.value, |d.rows|, body)
  }

  function Serve(d: Db, s: Serial): Db {
    var r := match s
             case RunLoop(n, why, body) => RunInline(d, n, why, body)
             case Reuse(chain) => UseAsStart(d, chain)
             case CloseIt => CloseAssessment(d);
    if r.Ok? then r.value else d
  }

  function ServeAll(d: Db, steps: seq<Serial>): Db
    decreases |steps|
  {
    if steps == [] then d else ServeAll(Serve(d, steps[0]), steps[1..])
  }

  /** Between serialised requests nothing is in flight, the loops up to the state's are active, and an
      active Loop 3 sits on an active Loop 2 that passed its gate unless a rationale overrode it. */
  ghost predicate Prefix(m: Machine) {
    && m.running == map[]
    && (forall l: Loop :: l <= Level(m.state) ==> l in m.active)
    && (3 in m.active ==> 2 in m.active && (m.active[3].rationale == "" ==> m.active[2].status == Succeeded))
    && (forall l :: l in m.active ==> m.active[l].status in {Succeeded, GateFailed})
  }

  /** No loop beyond the state's is active (a closed assessment may keep Loop 3). */
  ghost predicate NoneBeyond(m: Machine) {
    forall l :: l in m.active ==> l <= Level(m.state) || m.state == Completed
  }

  function ServeMachine(m: Machine, s: Serial): Machine {
    match s
    case RunLoop(n, why, body) =>
      if Legal(m, Begin(n, why)) then Move(Move(m, Begin(n, why)), Finish(n, body)) else m
    case Reuse(chain) => if chain.Some? then Move(m, Import(chain)) else m
    case CloseIt => if CanClose(m.state) then Move(m, Close) else m
  }

  lemma ServeRefines(d: Db, m: Machine, s: Serial)
    requires Inv(d) && Abstracts(d, m)
    ensures Inv(Serve(d, s)) && Abstracts(Serve(d, s), ServeMachine(m, s))
  {
    match s
    case RunLoop(n, why, body) =>
      var begin, finish := DoBegin(n, why), DoExecute(|d.rows|, body);
      Simulation(d, m, Begin(n, why), begin);
      if Legal(m, Begin(n, why)) {
        StepKeepsInv(d, begin);
        Simulation(After(d, begin), Move(m, Begin(n, why)), Finish(n, body), finish);
        StepKeepsInv(After(d, begin), finish);
      }
    case Reuse(chain) =>
      Simulation(d, m, Import(chain), DoUseAsStart(chain));
      StepKeepsInv(d, DoUseAsStart(chain));
    case CloseIt =>
      Simulation(d, m, Close, DoClose);
      StepKeepsInv(d, DoClose);
  }

  lemma ServeKeepsPrefix(m: Machine, s: Serial)
    requires Prefix(m)
    ensures Prefix(ServeMachine(m, s))
    ensures NoneBeyond(m) && (s.Reuse? ==> m.state == Created) ==> NoneBeyond(ServeMachine(m, s))
    ensures m.state == Completed && !s.Reuse? ==> ServeMachine(m, s) == m
  {
    if s.RunLoop? && Legal(m, Begin(s.n, s.rationale)) {
      assert ServeMachine(m, s).running == map[];
    }
  }

  /** Imports happen only on a fresh assessment. */
  predicate ReuseOnlyFresh(d: Db, steps: seq<Serial>)
    decreases |steps|
  {
    steps == [] || ((steps[0].Reuse? ==> d.state == Created) && ReuseOnlyFresh(Serve(d, steps[0]), steps[1..]))
  }

  lemma {:induction false} ServeAllOnMachine(d: Db, m: Machine, steps: seq<Serial>) returns (m': Machine)
    requires Inv(d) && Abstracts(d, m) && Prefix(m)
    ensures var d' := ServeAll(d, steps); Inv(d') && Abstracts(d', m') && Prefix(m')
    ensures NoneBeyond(m) && ReuseOnlyFresh(d, steps) ==> NoneBeyond(m')
    ensures d.state == Completed && ReuseOnlyFresh(d, steps) ==> m' == m
    decreases |steps|
  {
    m' := m;
    if steps != [] {
      ServeRefines(d, m, steps[0]);
      ServeKeepsPrefix(m, steps[0]);
      m' := ServeAllOnMachine(Serve(d, steps[0]), ServeMachine(m, steps[0]), steps[1..]);
    }
  }

  lemma StartsEmpty()
    ensures Inv(EMPTY) && Abstracts(EMPTY, START) && Prefix(START) && NoneBeyond(START)
  {
  }

  /** Serialised runs, any imports: in every reachable table each loop up to the state's has an active
      row (exactly one, by `Inv`), and an active Loop 3 without a rationale rests on an active Loop 2
      that succeeded. */
  lemma SerialRunsKeepPrefix(steps: seq<Serial>)
    ensures var d := ServeAll(EMPTY, steps);
            && Inv(d)
            && (forall n: Loop :: n <= Level(d.state) ==> HasActive(d.rows, n))
            && (forall i :: 0 <= i < |d.rows| && IsActive(d.rows[i], 3) ==>
                  HasActive(d.rows, 2) &&
                  (d.rows[i].rationale == "" ==>
                     forall j :: 0 <= j < |d.rows| && IsActive(d.rows[j], 2) ==> d.rows[j].status == Succeeded))
  {
    StartsEmpty();
    var m := ServeAllOnMachine(EMPTY, START, steps);
  }

  /** Serialised runs with imports only from `created`: no loop beyond the state's is active, and a
      closed assessment never changes again. */
  lemma SerialRunsFromFresh(steps: seq<Serial>, more: seq<Serial>)
    requires ReuseOnlyFresh(EMPTY, steps)
    requires ReuseOnlyFresh(ServeAll(EMPTY, steps), more)
    ensures var d := ServeAll(EMPTY, steps);
            && (d.state != Completed ==> forall n: Loop :: HasActive(d.rows, n) <==> n <= Level(d.state))
            && (d.state == Completed ==>
                  ServeAll(d, more).state == Completed && AbsOf(ServeAll(d, more)) == AbsOf(d))
  {
    StartsEmpty();
    var d := ServeAll(EMPTY, steps);
    var m := ServeAllOnMachine(EMPTY, START, steps);
    forall n: Loop ensures HasActive(d.rows, n) <==> n in m.active { GuardsAgree(d, m, n); }
    var m' := ServeAllOnMachine(d, m, more);
    AbsOfAbstracts(d, m);
    AbsOfAbstracts(ServeAll(d, more), m');
  }

  /** An import leaves `completed`, and with it Loops 2 and 3 stay active above `loop1_done`. */
  lemma ImportReopensClosed(d: Db, chain: Output)
    requires Inv(d) && d.state == Completed
    ensures var d' := Serve(d, Reuse(Some(chain)));
            d'.state == Loop1Done && forall n: Loop :: n > 1 && HasActive(d.rows, n) ==> HasActive(d'.rows, n)
  {
    var d' := Serve(d, Reuse(Some(chain)));
    var demoted := Demoted(d.rows, 1, 1, -1);
    forall n: Loop | n > 1 && HasActive(d.rows, n) ensures HasActive(d'.rows, n) {
      var i :| 0 <= i < |d.rows| && IsActive(d.rows[i], n);
      assert d'.rows[i] == demoted[i] == d.rows[i];
      assert IsActive(d'.rows[i], n);
    }
  }
}
