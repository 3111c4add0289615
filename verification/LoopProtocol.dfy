/** The assessment loop-run protocol: the run table, its steps, and what every interleaving of
    the steps keeps.  Begin and finish of different loops mix freely. */
module LoopProtocol {
  import opened Options
  import opened VersionedRows

  datatype State = Created | Loop1Done | Loop2Done | Loop3Done | Completed

  type Loop = n: int | 1 <= n <= 3 witness 1

  /** A loop output is a JSON object; its values stay opaque. */
  type Output = map<string, string>

  datatype Status = Running | Succeeded | GateFailed | Failed | Superseded

  /** `rationale` is the override rationale; "" stands for an absent one, which the code treats alike. */
  datatype Run = Run(loop: Loop, version: nat, status: Status, active: bool,
                     output: Option<Output>, rationale: string)

  datatype Db = Db(state: State, rows: seq<Run>)

  datatype Error = NotFound | InvalidTransition | ChainNotFound | CannotClose
  datatype Result<+T> = Ok(value: T) | Err(error: Error)

  // ----- state machine -----

  predicate CanRun(s: State, n: Loop) {
    match s
    case Created => n == 1
    case Loop1Done => n <= 2
    case Loop2Done => true
    case Loop3Done => true
    case Completed => false
  }

  function DoneState(n: Loop): State {
    if n == 1 then Loop1Done else if n == 2 then Loop2Done else Loop3Done
  }

  predicate CanClose(s: State) {
    s == Loop2Done || s == Loop3Done
  }

  /** How many loops the state claims done; a closed assessment claims the first two. */
  function Level(s: State): nat {
    match s
    case Created => 0
    case Loop1Done => 1
    case Loop2Done => 2
    case Loop3Done => 3
    case Completed => 2
  }

  /** A loop may run once the one before it is done, and never once the assessment is closed; running it leaves
      exactly the loops up to it done; an assessment may close from Loop 2 on. */
  lemma StatesFollowLevels(s: State, n: Loop)
    ensures CanRun(s, n) <==> s != Completed && n <= Level(s) + 1
    ensures DoneState(n) != Completed && Level(DoneState(n)) == n
    ensures CanClose(s) <==> s != Completed && 2 <= Level(s)
  {
  }

  // ----- one execution of a loop body and the hooks before the row is finalized -----

  datatype Synthesis = NoSynthesizer | SynthesisFailed | Chain(id: string)

  /** What the environment does to one execution: the worker dies, the loop raises, or it returns
      an output, for which the gate and the chain synthesis then have their say. */
  datatype Body = Crashed | Raised | Returned(output: Output, gatePassed: bool, synthesis: Synthesis)

  /** The status and output with which the row is finalized. */
  function Outcome(n: Loop, b: Body): (Status, Option<Output>) {
    if !b.Returned? then (Failed, None)
    else if n == 2 && b.output != map[] then
      if !b.gatePassed then (GateFailed, Some(b.output))
      else match b.synthesis
           case NoSynthesizer => (Succeeded, Some(b.output))
           case SynthesisFailed => (Failed, Some(b.output))
           case Chain(id) => (Succeeded, Some(b.output["_chain" := id]))
    else (Succeeded, Some(b.output))
  }

  predicate Fails(n: Loop, b: Body) {
    Outcome(n, b).0 == Failed
  }

  // ----- the table -----

  function Tags(rows: seq<Run>): seq<(Loop, nat)> {
    seq(|rows|, i requires 0 <= i < |rows| => (rows[i].loop, rows[i].version))
  }

  predicate IsRunning(r: Run, n: Loop) {
    r.loop == n && r.status == Running
  }

  predicate IsActive(r: Run, n: Loop) {
    r.loop == n && r.active
  }

  predicate HasRunning(rows: seq<Run>, n: Loop) {
    exists i :: 0 <= i < |rows| && IsRunning(rows[i], n)
  }

  predicate HasActive(rows: seq<Run>, n: Loop) {
    exists i :: 0 <= i < |rows| && IsActive(rows[i], n)
  }

  /** The active Loop 2 row failed its gate. */
  predicate GateBlocked(rows: seq<Run>) {
    exists i :: 0 <= i < |rows| && IsActive(rows[i], 2) && rows[i].status == GateFailed
  }

  function Supersede(r: Run): Run {
    r.(active := false, status := Superseded)
  }

  /** Demotes the active rows of the loops lo..hi, except row `skip`. */
  function Demoted(rows: seq<Run>, lo: int, hi: int, skip: int): seq<Run> {
    seq(|rows|, i requires 0 <= i < |rows| =>
      if i != skip && rows[i].active && lo <= rows[i].loop <= hi then Supersede(rows[i]) else rows[i])
  }

  // ----- steps -----

  function BeginRun(d: Db, n: Loop, rationale: string): Result<Db> {
    if !CanRun(d.state, n) || HasRunning(d.rows, n) then Err(InvalidTransition)
    else if n == 3 && GateBlocked(d.rows) && rationale == "" then Err(InvalidTransition)
    else
      Ok(d.(rows := d.rows + [Run(n, Next(Tags(d.rows), n), Running, false, None, rationale)]))
  }

  /** Executes row `k`; only a running row is executable, any other delivery is a no-op. */
  function ExecuteRun(d: Db, k: nat, b: Body): Result<Db> {
    if k >= |d.rows| then Err(NotFound)
    else
      var r := d.rows[k];
      if r.status != Running then Ok(d)
      else
        var (status, output) := Outcome(r.loop, b);
        if status == Failed then
          Ok(d.(rows := d.rows[k := r.(status := Failed, output := output)]))
        else
          Ok(Db(DoneState(r.loop),
                Demoted(d.rows, r.loop, 3, k)[k := r.(status := status, active := true, output := output)]))
  }

  /** Imports an existing chain as Loop 1; `chain` is the synthetic output, None when no active chain matches. */
  function UseAsStart(d: Db, chain: Option<Output>): Result<Db> {
    if chain.None? then Err(ChainNotFound)
    else
      var rows := Demoted(d.rows, 1, 1, -1);
      Ok(Db(Loop1Done, rows + [Run(1, Next(Tags(rows), 1), Succeeded, true, chain, "")]))
  }

  function CloseAssessment(d: Db): Result<Db> {
    if CanClose(d.state) then Ok(d.(state := Completed)) else Err(CannotClose)
  }

  datatype Step =
    | DoBegin(n: Loop, rationale: string)
    | DoExecute(k: nat, body: Body)
    | DoUseAsStart(chain: Option<Output>)
    | DoClose

  function Apply(d: Db, s: Step): Result<Db> {
    match s
    case DoBegin(n, why) => BeginRun(d, n, why)
    case DoExecute(k, b) => ExecuteRun(d, k, b)
    case DoUseAsStart(chain) => UseAsStart(d, chain)
    case DoClose => CloseAssessment(d)
  }

  /** A refused request leaves the table as it was. */
  function After(d: Db, s: Step): Db {
    var r := Apply(d, s);
    if r.Ok? then r.value else d
  }

  function Replay(d: Db, steps: seq<Step>): Db
    decreases |steps|
  {
    if steps == [] then d else Replay(After(d, steps[0]), steps[1..])
  }

  const EMPTY := Db(Created, [])

  // ----- the interleaved invariant -----

  ghost predicate Inv(d: Db) {
    var rows := d.rows;
    && Dense(Tags(rows))
    && (forall i :: 0 <= i < |rows| ==> (rows[i].active <==> rows[i].status in {Succeeded, GateFailed}))
    && (forall i :: 0 <= i < |rows| && rows[i].active ==> rows[i].output.Some?)
    && (forall i :: 0 <= i < |rows| && rows[i].status == GateFailed ==> rows[i].loop == 2)
    && (forall i, j :: 0 <= i < j < |rows| && rows[i].loop == rows[j].loop ==>
          !(rows[i].active && rows[j].active) && !(rows[i].status == Running == rows[j].status))
    && (d.state in {Loop1Done, Loop2Done, Loop3Done} ==> HasActive(rows, DoneLoop(d.state)))
  }

  function DoneLoop(s: State): Loop {
    if s == Loop1Done then 1 else if s == Loop2Done then 2 else 3
  }

  lemma BeginKeepsInv(d: Db, n: Loop, rationale: string)
    requires Inv(d) && BeginRun(d, n, rationale).Ok?
    ensures Inv(BeginRun(d, n, rationale).value)
  {
    var rows := BeginRun(d, n, rationale).value.rows;
    AppendKeepsDense(Tags(d.rows), n);
    assert Tags(rows) == Tags(d.rows) + [(n, Next(Tags(d.rows), n))];
    assert forall i :: 0 <= i < |d.rows| ==> rows[i] == d.rows[i];
    KeepsActive(d, rows);
  }

  lemma KeepsActive(d: Db, rows: seq<Run>)
    requires Inv(d) && |d.rows| <= |rows|
    requires forall i :: 0 <= i < |d.rows| && d.rows[i].active ==> rows[i] == d.rows[i]
    ensures d.state in {Loop1Done, Loop2Done, Loop3Done} ==> HasActive(rows, DoneLoop(d.state))
  {
    if d.state in {Loop1Done, Loop2Done, Loop3Done} {
      var i :| 0 <= i < |d.rows| && IsActive(d.rows[i], DoneLoop(d.state));
      assert IsActive(rows[i], DoneLoop(d.state));
    }
  }

  lemma ImportedRows(d: Db, chain: Option<Output>)
    requires Inv(d) && chain.Some?
    ensures var rows, n := UseAsStart(d, chain).value.rows, |d.rows|;
            && |rows| == n + 1 && Dense(Tags(rows))
            && (forall i :: 0 <= i < n ==>
                  rows[i] == if d.rows[i].active && d.rows[i].loop == 1 then Supersede(d.rows[i]) else d.rows[i])
            && rows[n].loop == 1 && rows[n].status == Succeeded && rows[n].active && rows[n].output == chain
  {
    var demoted, rows := Demoted(d.rows, 1, 1, -1), UseAsStart(d, chain).value.rows;
    assert Tags(demoted) == Tags(d.rows);
    AppendKeepsDense(Tags(demoted), 1);
    assert Tags(rows) == Tags(demoted) + [(1, Next(Tags(demoted), 1))];
  }

  lemma UseAsStartKeepsInv(d: Db, chain: Option<Output>)
    requires Inv(d) && chain.Some?
    ensures Inv(UseAsStart(d, chain).value)
  {
    ImportedRows(d, chain);
    assert IsActive(UseAsStart(d, chain).value.rows[|d.rows|], 1);
  }

  /** What a finishing run leaves: rows active before stay so only below its loop, and nothing starts running. */
  lemma FinishedRows(d: Db, k: nat, b: Body)
    requires k < |d.rows| && d.rows[k].status == Running && !Fails(d.rows[k].loop, b)
    ensures var rows := ExecuteRun(d, k, b).value.rows;
            && |rows| == |d.rows| && rows[k].active && rows[k].loop == d.rows[k].loop && rows[k].status != Running
            && (forall i :: 0 <= i < |rows| ==> rows[i].loop == d.rows[i].loop)
            && (forall i :: 0 <= i < |rows| && i != k && rows[i].active ==>
              rows[i] == d.rows[i] && rows[i].loop < rows[k].loop)
            && (forall i :: 0 <= i < |rows| && i != k && !d.rows[i].active ==> rows[i] == d.rows[i])
            && (forall i :: 0 <= i < |rows| && rows[i].status == Running ==> d.rows[i].status == Running)
  {
    var rows := ExecuteRun(d, k, b).value.rows;
    var demoted := Demoted(d.rows, d.rows[k].loop, 3, k);
    assert forall i :: 0 <= i < |rows| && i != k ==> rows[i] == demoted[i];
  }

  lemma FailKeepsInv(d: Db, k: nat, b: Body)
    requires Inv(d) && k < |d.rows| && d.rows[k].status == Running && Fails(d.rows[k].loop, b)
    ensures Inv(ExecuteRun(d, k, b).value)
  {
    var rows := ExecuteRun(d, k, b).value.rows;
    assert Tags(rows) == Tags(d.rows);
    assert forall i :: 0 <= i < |rows| && i != k ==> rows[i] == d.rows[i];
    KeepsActive(d, rows);
  }

  lemma ExecuteKeepsInv(d: Db, k: nat, b: Body)
    requires Inv(d) && k < |d.rows| && d.rows[k].status == Running
    ensures Inv(ExecuteRun(d, k, b).value)
  {
    var r := d.rows[k];
    var rows := ExecuteRun(d, k, b).value.rows;
    if Fails(r.loop, b) {
      FailKeepsInv(d, k, b);
    } else {
      assert Tags(rows) == Tags(d.rows);
      FinishedRows(d, k, b);
      var demoted := Demoted(d.rows, r.loop, 3, k);
      assert forall i :: 0 <= i < |rows| && i != k ==> rows[i] == demoted[i];
      assert IsActive(rows[k], r.loop);
    }
  }

  lemma StepKeepsInv(d: Db, s: Step)
    requires Inv(d)
    ensures Inv(After(d, s))
  {
    if Apply(d, s).Ok? {
      match s
      case DoBegin(n, why) => BeginKeepsInv(d, n, why);
      case DoExecute(k, b) => if d.rows[k].status == Running { ExecuteKeepsInv(d, k, b); }
      case DoUseAsStart(chain) => UseAsStartKeepsInv(d, chain);
      case DoClose =>
    }
  }

  /** Any order of begin, execute, import and close from the empty table. */
  lemma {:induction false} ReplayKeepsInv(d: Db, steps: seq<Step>)
    requires Inv(d)
    ensures Inv(Replay(d, steps))
    decreases |steps|
  {
    if steps != [] {
      StepKeepsInv(d, steps[0]);
      ReplayKeepsInv(After(d, steps[0]), steps[1..]);
    }
  }
}
