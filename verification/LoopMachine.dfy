/** The run table seen without its history: per loop at most one active output and at most one run
    in flight.  The table refines this small machine, so claims over whole runs are proved here. */
module LoopMachine {
  import opened LoopProtocol
  import opened Options

  datatype Slot = Slot(status: Status, output: Option<Output>, rationale: string)

  datatype Machine = Machine(state: State, active: map<Loop, Slot>, running: map<Loop, string>)

  /** A request; a run in flight is named by its loop, since a loop has at most one. */
  datatype Act =
    | Begin(n: Loop, rationale: string)
    | Finish(n: Loop, body: Body)
    | Import(chain: Option<Output>)
    | Close

  predicate Legal(m: Machine, a: Act) {
    match a
    case Begin(n, why) =>
      && CanRun(m.state, n)
      && n !in m.running
      && !(n == 3 && 2 in m.active && m.active[2].status == GateFailed && why == "")
    case Finish(n, _) => n in m.running
    case Import(chain) => chain.Some?
    case Close => CanClose(m.state)
  }

  function Without(running: map<Loop, string>, n: Loop): map<Loop, string> {
    map l | l in running && l != n :: running[l]
  }

  /** Finishing with an output replaces the loop's active output and drops everything downstream. */
  function Activate(active: map<Loop, Slot>, n: Loop, slot: Slot): map<Loop, Slot> {
    (map l | l in active && l < n :: active[l])[n := slot]
  }

  function Move(m: Machine, a: Act): Machine
    requires Legal(m, a)
  {
    match a
    case Begin(n, why) => m.(running := m.running[n := why])
    case Finish(n, body) =>
      var (status, output) := Outcome(n, body);
      if status == Failed then m.(running := Without(m.running, n))
      else Machine(DoneState(n), Activate(m.active, n, Slot(status, output, m.running[n])), Without(m.running, n))
    case Import(chain) => m.(state := Loop1Done, active := m.active[1 := Slot(Succeeded, chain, "")])
    case Close => m.(state := Completed)
  }

  predicate LegalHistory(m: Machine, acts: seq<Act>)
    decreases |acts|
  {
    acts == [] || (Legal(m, acts[0]) && LegalHistory(Move(m, acts[0]), acts[1..]))
  }

  function Outcomes(m: Machine, acts: seq<Act>): Machine
    requires LegalHistory(m, acts)
    decreases |acts|
  {
    if acts == [] then m else Outcomes(Move(m, acts[0]), acts[1..])
  }

  const START := Machine(Created, map[], map[])

  // ----- the table refines the machine -----

  function SlotOf(r: Run): Slot {
    Slot(r.status, r.output, r.rationale)
  }

  ghost predicate ActiveView(rows: seq<Run>, active: map<Loop, Slot>) {
    && (forall i :: 0 <= i < |rows| && rows[i].active ==>
          rows[i].loop in active && active[rows[i].loop] == SlotOf(rows[i]))
    && (forall n :: n in active ==> HasActive(rows, n))
  }

  ghost predicate RunningView(rows: seq<Run>, running: map<Loop, string>) {
    && (forall i :: 0 <= i < |rows| && rows[i].status == Running ==>
          rows[i].loop in running && running[rows[i].loop] == rows[i].rationale)
    && (forall n :: n in running ==> HasRunning(rows, n))
  }

  ghost predicate Abstracts(d: Db, m: Machine) {
    d.state == m.state && ActiveView(d.rows, m.active) && RunningView(d.rows, m.running)
  }

  ghost function ActiveOf(rows: seq<Run>): map<Loop, Slot> {
    map n: Loop | 1 <= n <= 3 && HasActive(rows, n) ::
      var i :| 0 <= i < |rows| && IsActive(rows[i], n); SlotOf(rows[i])
  }

  ghost function RunningOf(rows: seq<Run>): map<Loop, string> {
    map n: Loop | 1 <= n <= 3 && HasRunning(rows, n) ::
      var i :| 0 <= i < |rows| && IsRunning(rows[i], n); rows[i].rationale
  }

  ghost function AbsOf(d: Db): Machine {
    Machine(d.state, ActiveOf(d.rows), RunningOf(d.rows))
  }

  lemma ActiveOfView(d: Db)
    requires Inv(d)
    ensures ActiveView(d.rows, ActiveOf(d.rows))
  {
    forall i | 0 <= i < |d.rows| && d.rows[i].active
      ensures d.rows[i].loop in ActiveOf(d.rows) && ActiveOf(d.rows)[d.rows[i].loop] == SlotOf(d.rows[i])
    {
      assert IsActive(d.rows[i], d.rows[i].loop);
    }
  }

  lemma RunningOfView(d: Db)
    requires Inv(d)
    ensures RunningView(d.rows, RunningOf(d.rows))
  {
    forall i | 0 <= i < |d.rows| && d.rows[i].status == Running
      ensures d.rows[i].loop in RunningOf(d.rows) && RunningOf(d.rows)[d.rows[i].loop] == d.rows[i].rationale
    {
      assert IsRunning(d.rows[i], d.rows[i].loop);
    }
  }

  lemma ActiveViewUnique(rows: seq<Run>, a: map<Loop, Slot>, b: map<Loop, Slot>)
    requires ActiveView(rows, a) && ActiveView(rows, b)
    ensures a == b
  {
    forall n | n in a
      ensures n in b && a[n] == b[n]
    {
      var i :| 0 <= i < |rows| && IsActive(rows[i], n);
    }
    forall n | n in b
      ensures n in a
    {
      var i :| 0 <= i < |rows| && IsActive(rows[i], n);
    }
  }

  lemma RunningViewUnique(rows: seq<Run>, a: map<Loop, string>, b: map<Loop, string>)
    requires RunningView(rows, a) && RunningView(rows, b)
    ensures a == b
  {
    forall n | n in a
      ensures n in b && a[n] == b[n]
    {
      var i :| 0 <= i < |rows| && IsRunning(rows[i], n);
    }
    forall n | n in b
      ensures n in a
    {
      var i :| 0 <= i < |rows| && IsRunning(rows[i], n);
    }
  }

  /** The abstraction exists and is unique. */
  lemma AbsOfAbstracts(d: Db, m: Machine)
    requires Inv(d)
    ensures Abstracts(d, m) <==> m == AbsOf(d)
  {
    ActiveOfView(d);
    RunningOfView(d);
    if Abstracts(d, m) {
      ActiveViewUnique(d.rows, m.active, ActiveOf(d.rows));
      RunningViewUnique(d.rows, m.running, RunningOf(d.rows));
    }
  }

  /** The table step of a request; `k` is the row in flight when one is to be finished. */
  predicate Realises(d: Db, a: Act, s: Step) {
    match a
    case Begin(n, why) => s == DoBegin(n, why)
    case Finish(n, body) => s.DoExecute? && s.body == body && s.k < |d.rows| && IsRunning(d.rows[s.k], n)
    case Import(chain) => s == DoUseAsStart(chain)
    case Close => s == DoClose
  }

  /** A table step succeeds exactly when the machine allows the request, and has the same effect. */
  lemma Simulation(d: Db, m: Machine, a: Act, s: Step)
    requires Inv(d) && Abstracts(d, m) && Realises(d, a, s)
    ensures Apply(d, s).Ok? <==> Legal(m, a)
    ensures Legal(m, a) ==> Abstracts(After(d, s), Move(m, a))
  {
    match a
    case Begin(n, why) => SimulateBegin(d, m, n, why);
    case Finish(n, body) => SimulateFinish(d, m, s.k, body);
    case Import(chain) => if chain.Some? { SimulateImport(d, m, chain); }
    case Close =>
  }

  lemma GuardsAgree(d: Db, m: Machine, n: Loop)
    requires Inv(d) && Abstracts(d, m)
    ensures HasRunning(d.rows, n) <==> n in m.running
    ensures HasActive(d.rows, n) <==> n in m.active
    ensures GateBlocked(d.rows) <==> 2 in m.active && m.active[2].status == GateFailed
  {
    if 2 in m.active && m.active[2].status == GateFailed {
      var i :| 0 <= i < |d.rows| && IsActive(d.rows[i], 2);
      assert d.rows[i].status == GateFailed;
    }
  }

  lemma BegunActive(d: Db, active: map<Loop, Slot>, n: Loop, why: string)
    requires ActiveView(d.rows, active) && BeginRun(d, n, why).Ok?
    ensures ActiveView(BeginRun(d, n, why).value.rows, active)
  {
    var rows := BeginRun(d, n, why).value.rows;
    assert forall i :: 0 <= i < |d.rows| ==> rows[i] == d.rows[i];
    CarryActive(d.rows, rows, active);
  }

  lemma BegunRunning(d: Db, running: map<Loop, string>, n: Loop, why: string)
    requires RunningView(d.rows, running) && BeginRun(d, n, why).Ok? && n !in running
    ensures RunningView(BeginRun(d, n, why).value.rows, running[n := why])
  {
    var rows := BeginRun(d, n, why).value.rows;
    assert forall i :: 0 <= i < |d.rows| ==> rows[i] == d.rows[i];
    assert IsRunning(rows[|d.rows|], n);
    CarryRunning(d.rows, rows, running);
  }

  lemma SimulateBegin(d: Db, m: Machine, n: Loop, why: string)
    requires Inv(d) && Abstracts(d, m)
    ensures Apply(d, DoBegin(n, why)).Ok? <==> Legal(m, Begin(n, why))
    ensures Legal(m, Begin(n, why)) ==> Abstracts(After(d, DoBegin(n, why)), Move(m, Begin(n, why)))
  {
    GuardsAgree(d, m, n);
    if Legal(m, Begin(n, why)) {
      BegunActive(d, m.active, n, why);
      BegunRunning(d, m.running, n, why);
    }
  }

  /** Active rows that survive unchanged keep their loops active. */
  lemma CarryActive(rows: seq<Run>, rows': seq<Run>, slots: map<Loop, Slot>)
    requires |rows| <= |rows'|
    requires forall n :: n in slots ==> HasActive(rows, n)
    requires forall i :: 0 <= i < |rows| && rows[i].active && rows[i].loop in slots ==> rows'[i] == rows[i]
    ensures forall n :: n in slots ==> HasActive(rows', n)
  {
    forall n | n in slots
      ensures HasActive(rows', n)
    {
      var i :| 0 <= i < |rows| && IsActive(rows[i], n);
      assert IsActive(rows'[i], n);
    }
  }

  lemma CarryRunning(rows: seq<Run>, rows': seq<Run>, running: map<Loop, string>)
    requires |rows| <= |rows'|
    requires forall n :: n in running ==> HasRunning(rows, n)
    requires forall i :: 0 <= i < |rows| && rows[i].status == Running && rows[i].loop in running ==> rows'[i] == rows[i]
    ensures forall n :: n in running ==> HasRunning(rows', n)
  {
    forall n | n in running
      ensures HasRunning(rows', n)
    {
      var i :| 0 <= i < |rows| && IsRunning(rows[i], n);
      assert IsRunning(rows'[i], n);
    }
  }

  lemma FinishedSlots(d: Db, active: map<Loop, Slot>, k: nat, body: Body, i: nat)
    requires ActiveView(d.rows, active) && k < |d.rows| && d.rows[k].status == Running
    requires !Fails(d.rows[k].loop, body)
    requires i < |d.rows| && ExecuteRun(d, k, body).value.rows[i].active
    ensures var n, r := d.rows[k].loop, ExecuteRun(d, k, body).value.rows[i];
            var (status, output) := Outcome(n, body);
            var slots := Activate(active, n, Slot(status, output, d.rows[k].rationale));
            r.loop in slots && slots[r.loop] == SlotOf(r)
  {
    FinishedRows(d, k, body);
    var r := ExecuteRun(d, k, body).value.rows[i];
    if i != k {
      assert r == d.rows[i] && r.loop < d.rows[k].loop;
    }
  }

  lemma FinishedHave(d: Db, active: map<Loop, Slot>, k: nat, body: Body)
    requires ActiveView(d.rows, active) && k < |d.rows| && d.rows[k].status == Running
    requires !Fails(d.rows[k].loop, body)
    ensures forall l :: l == d.rows[k].loop || (l in active && l < d.rows[k].loop) ==>
        HasActive(ExecuteRun(d, k, body).value.rows, l)
  {
    var n, rows := d.rows[k].loop, ExecuteRun(d, k, body).value.rows;
    FinishedRows(d, k, body);
    assert IsActive(rows[k], n);
    UpstreamKept(d, k, body);
    CarryActive(d.rows, rows, map l | l in active && l < n :: active[l]);
  }

  lemma FinishActive(d: Db, active: map<Loop, Slot>, k: nat, body: Body)
    requires ActiveView(d.rows, active) && k < |d.rows| && d.rows[k].status == Running
    requires !Fails(d.rows[k].loop, body)
    ensures var n := d.rows[k].loop;
            var (status, output) := Outcome(n, body);
            ActiveView(ExecuteRun(d, k, body).value.rows,
                Activate(active, n, Slot(status, output, d.rows[k].rationale)))
  {
    var rows := ExecuteRun(d, k, body).value.rows;
    FinishedHave(d, active, k, body);
    FinishedRows(d, k, body);
    forall i | 0 <= i < |rows| && rows[i].active
      ensures var (status, output) := Outcome(d.rows[k].loop, body);
              var slots := Activate(active, d.rows[k].loop, Slot(status, output, d.rows[k].rationale));
              rows[i].loop in slots && slots[rows[i].loop] == SlotOf(rows[i])
    {
      FinishedSlots(d, active, k, body, i);
    }
  }

  lemma UpstreamKept(d: Db, k: nat, body: Body)
    requires k < |d.rows| && d.rows[k].status == Running && !Fails(d.rows[k].loop, body)
    ensures forall i :: 0 <= i < |d.rows| && d.rows[i].loop < d.rows[k].loop ==>
        ExecuteRun(d, k, body).value.rows[i] == d.rows[i]
  {
    var demoted := Demoted(d.rows, d.rows[k].loop, 3, k);
    assert forall i :: 0 <= i < |d.rows| && i != k ==> ExecuteRun(d, k, body).value.rows[i] == demoted[i];
  }

  lemma FinishRunning(d: Db, running: map<Loop, string>, k: nat, body: Body)
    requires Inv(d) && RunningView(d.rows, running) && k < |d.rows| && d.rows[k].status == Running
    ensures RunningView(ExecuteRun(d, k, body).value.rows, Without(running, d.rows[k].loop))
  {
    var n, rows := d.rows[k].loop, ExecuteRun(d, k, body).value.rows;
    forall i | 0 <= i < |rows|
      ensures d.rows[i].status == Running && d.rows[i].loop != n ==> rows[i] == d.rows[i]
      ensures rows[i].status == Running ==> rows[i] == d.rows[i] && rows[i].loop != n
    {
      if i != k && !Fails(n, body) {
        assert rows[i] == Demoted(d.rows, n, 3, k)[i];
      }
    }
    CarryRunning(d.rows, rows, Without(running, n));
  }

  lemma SimulateFinish(d: Db, m: Machine, k: nat, body: Body)
    requires Inv(d) && Abstracts(d, m) && k < |d.rows| && d.rows[k].status == Running
    ensures Legal(m, Finish(d.rows[k].loop, body))
    ensures Abstracts(ExecuteRun(d, k, body).value, Move(m, Finish(d.rows[k].loop, body)))
  {
    FinishRunning(d, m.running, k, body);
    if Fails(d.rows[k].loop, body) {
      var rows := ExecuteRun(d, k, body).value.rows;
      assert forall i :: 0 <= i < |rows| && i != k ==> rows[i] == d.rows[i];
      CarryActive(d.rows, rows, m.active);
    } else {
      FinishActive(d, m.active, k, body);
    }
  }

  lemma ImportedSlots(d: Db, active: map<Loop, Slot>, chain: Option<Output>, i: nat)
    requires Inv(d) && ActiveView(d.rows, active) && chain.Some?
    requires i <= |d.rows| && UseAsStart(d, chain).value.rows[i].active
    ensures var r, slots := UseAsStart(d, chain).value.rows[i], active[1 := Slot(Succeeded, chain, "")];
            r.loop in slots && slots[r.loop] == SlotOf(r)
  {
    ImportedRows(d, chain);
    var r := UseAsStart(d, chain).value.rows[i];
    if i < |d.rows| {
      assert r == d.rows[i] && r.loop != 1;
    }
  }

  lemma ImportedActive(d: Db, active: map<Loop, Slot>, chain: Option<Output>)
    requires Inv(d) && ActiveView(d.rows, active) && chain.Some?
    ensures ActiveView(UseAsStart(d, chain).value.rows, active[1 := Slot(Succeeded, chain, "")])
  {
    var rows := UseAsStart(d, chain).value.rows;
    forall i | 0 <= i < |rows| && rows[i].active
      ensures rows[i].loop in active[1 := Slot(Succeeded, chain, "")]
          && active[1 := Slot(Succeeded, chain, "")][rows[i].loop] == SlotOf(rows[i])
    {
      ImportedSlots(d, active, chain, i);
    }
    ImportedHave(d, active, chain);
  }

  lemma ImportedHave(d: Db, active: map<Loop, Slot>, chain: Option<Output>)
    requires Inv(d) && ActiveView(d.rows, active) && chain.Some?
    ensures forall n :: n == 1 || n in active ==> HasActive(UseAsStart(d, chain).value.rows, n)
  {
    var rows := UseAsStart(d, chain).value.rows;
    ImportedRows(d, chain);
    assert IsActive(rows[|d.rows|], 1);
    CarryActive(d.rows, rows, map l | l in active && l != 1 :: active[l]);
  }

  lemma ImportedRunning(d: Db, running: map<Loop, string>, chain: Option<Output>)
    requires Inv(d) && RunningView(d.rows, running) && chain.Some?
    ensures RunningView(UseAsStart(d, chain).value.rows, running)
  {
    ImportedRows(d, chain);
    CarryRunning(d.rows, UseAsStart(d, chain).value.rows, running);
  }

  lemma SimulateImport(d: Db, m: Machine, chain: Option<Output>)
    requires Inv(d) && Abstracts(d, m) && chain.Some?
    ensures Abstracts(UseAsStart(d, chain).value, Move(m, Import(chain)))
  {
    ImportedActive(d, m.active, chain);
    ImportedRunning(d, m.running, chain);
  }
}
