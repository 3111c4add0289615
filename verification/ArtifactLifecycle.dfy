/** Generated artifacts: one active versioned row per assessment and type, and the human validation of
    each row with its audit trail. */
module ArtifactLifecycle {
  import opened Detectability
  import opened Options
  import opened VersionedRows

  datatype Key = Key(assessment: nat, artifact: ArtifactType)

  datatype Status = Generating | Generated | Failed

  datatype Validation = NotValidated | NeedsReview | ValidationFailed | AnalystApproved | Rejected

  /** A schema-checked document; its title and summary are mandatory, so as a dictionary it is never empty. */
  datatype Content = Content(title: string, summary: string)

  datatype Row = Row(key: Key, version: nat, active: bool, status: Status, validation: Validation,
                     content: Option<Content>)

  datatype Entry = Entry(row: nat, before: Validation, after: Validation)

  datatype Store = Store(rows: seq<Row>, audit: seq<Entry>)

  datatype Error = NotGeneratable | AlreadyGenerating | NotFound | InvalidTransition
  datatype Result<+T> = Ok(value: T) | Err(error: Error)

  function Tags(rows: seq<Row>): seq<(Key, nat)> {
    seq(|rows|, i requires 0 <= i < |rows| => (rows[i].key, rows[i].version))
  }

  predicate Busy(rows: seq<Row>, key: Key) {
    exists i :: 0 <= i < |rows| && rows[i].key == key && rows[i].active && rows[i].status == Generating
  }

  function Deactivated(rows: seq<Row>, key: Key): seq<Row> {
    seq(|rows|, i requires 0 <= i < |rows| => if rows[i].key == key then rows[i].(active := false) else rows[i])
  }

  // ----- steps -----

  function Begin(s: Store, key: Key): Result<Store> {
    if key.artifact == SigmaRule then Err(NotGeneratable)
    else if Busy(s.rows, key) then Err(AlreadyGenerating)
    else Ok(s.(rows := Deactivated(s.rows, key) +
                       [Row(key, Next(Tags(s.rows), key), true, Generating, NotValidated, None)]))
  }

  /** One worker delivery for row `k`; None when the generation raised or the row was reaped.  It never raises. */
  function Generate(s: Store, k: nat, content: Option<Content>): Result<Store> {
    if k >= |s.rows| || s.rows[k].status != Generating then Ok(s)
    else
      var row := if content.None? then s.rows[k].(status := Failed)
                 else s.rows[k].(status := Generated, content := content);
      Ok(s.(rows := s.rows[k := row]))
  }

  /** The row a validation request works on. */
  function Load(s: Store, k: nat, assessment: Option<nat>): Result<Row> {
    if k >= |s.rows| || (assessment.Some? && s.rows[k].key.assessment != assessment.value) then Err(NotFound)
    else if s.rows[k].status != Generated then Err(InvalidTransition)
    else Ok(s.rows[k])
  }

  /** Repeating the current status writes nothing. */
  function Transition(s: Store, k: nat, to: Validation): Store
    requires k < |s.rows|
  {
    if to == s.rows[k].validation then s
    else Store(s.rows[k := s.rows[k].(validation := to)], s.audit + [Entry(k, s.rows[k].validation, to)])
  }

  predicate Terminal(v: Validation) {
    v == AnalystApproved || v == Rejected
  }

  /** The lints fail on empty content only; everything else is a warning. */
  function AfterLints(content: Option<Content>): Validation {
    if content.None? then ValidationFailed else NeedsReview
  }

  function Validate(s: Store, k: nat, assessment: Option<nat>): Result<Store> {
    var loaded := Load(s, k, assessment);
    if loaded.Err? then Err(loaded.error)
    else if Terminal(s.rows[k].validation) then Ok(s)
    else Ok(Transition(s, k, AfterLints(s.rows[k].content)))
  }

  /** Approve and reject are one decision with the two verdicts exchanged. */
  function Decide(s: Store, k: nat, assessment: Option<nat>, verdict: Validation): Result<Store> {
    var loaded := Load(s, k, assessment);
    if loaded.Err? then Err(loaded.error)
    else if s.rows[k].validation == verdict then Ok(s)
    else if Terminal(s.rows[k].validation) then Err(InvalidTransition)
    else Ok(Transition(s, k, verdict))
  }

  datatype Step =
    | DoBegin(key: Key)
    | DoGenerate(k: nat, content: Option<Content>)
    | DoValidate(k: nat, assessment: Option<nat>)
    | DoApprove(k: nat, assessment: Option<nat>)
    | DoReject(k: nat, assessment: Option<nat>)

  function Apply(s: Store, step: Step): Result<Store> {
    match step
    case DoBegin(key) => Begin(s, key)
    case DoGenerate(k, content) => Generate(s, k, content)
    case DoValidate(k, a) => Validate(s, k, a)
    case DoApprove(k, a) => Decide(s, k, a, AnalystApproved)
    case DoReject(k, a) => Decide(s, k, a, Rejected)
  }

  function After(s: Store, step: Step): Store {
    var r := Apply(s, step);
    if r.Ok? then r.value else s
  }

  function Replay(s: Store, steps: seq<Step>): Store
    decreases |steps|
  {
    if steps == [] then s else Replay(After(s, steps[0]), steps[1..])
  }

  // ----- the invariant -----

  /** A row is active exactly when it is the latest of its key. */
  ghost predicate LatestIsActive(rows: seq<Row>) {
    && (forall i, j :: 0 <= i < j < |rows| && rows[i].key == rows[j].key ==> !rows[i].active)
    && (forall i :: 0 <= i < |rows| && !rows[i].active ==>
          exists j :: i < j < |rows| && rows[j].key == rows[i].key)
  }

  /** The status an audit trail leaves row `r` in. */
  function LastStatus(audit: seq<Entry>, r: nat): Validation {
    if audit == [] then NotValidated
    else if audit[|audit| - 1].row == r then audit[|audit| - 1].after
    else LastStatus(audit[..|audit| - 1], r)
  }

  function Rank(v: Validation): nat {
    match v
    case NotValidated => 0
    case NeedsReview => 1
    case ValidationFailed => 1
    case AnalystApproved => 2
    case Rejected => 2
  }

  /** Every entry starts where its row's previous entry ended, and moves it up. */
  ghost predicate Linked(audit: seq<Entry>) {
    forall i :: 0 <= i < |audit| ==>
      audit[i].before == LastStatus(audit[..i], audit[i].row) && Rank(audit[i].before) < Rank(audit[i].after)
  }

  ghost predicate RowOk(r: Row) {
    && (r.status == Generating ==> r.active)
    && (r.status == Generated <==> r.content.Some?)
    && (r.status != Generated ==> r.validation == NotValidated)
    && r.validation != ValidationFailed
    && r.key.artifact != SigmaRule
  }

  ghost predicate Inv(s: Store) {
    && Dense(Tags(s.rows)) && LatestIsActive(s.rows)
    && (forall i :: 0 <= i < |s.rows| ==> RowOk(s.rows[i]) && s.rows[i].validation == LastStatus(s.audit, i))
    && Linked(s.audit)
    && (forall i :: 0 <= i < |s.audit| ==> s.audit[i].row < |s.rows|)
  }

  lemma {:induction false} UntouchedStatus(audit: seq<Entry>, r: nat)
    requires forall i :: 0 <= i < |audit| ==> audit[i].row != r
    ensures LastStatus(audit, r) == NotValidated
  {
    if audit != [] {
      UntouchedStatus(audit[..|audit| - 1], r);
    }
  }

  lemma BegunRows(s: Store, key: Key)
    requires Inv(s) && Begin(s, key).Ok?
    ensures var rows, n := Begin(s, key).value.rows, |s.rows|;
            && |rows| == n + 1 && Dense(Tags(rows))
            && (forall i :: 0 <= i < n ==>
              rows[i] == if s.rows[i].key == key then s.rows[i].(active := false) else s.rows[i])
            && rows[n] == Row(key, rows[n].version, true, Generating, NotValidated, None)
  {
    var rows := Begin(s, key).value.rows;
    AppendKeepsDense(Tags(s.rows), key);
    assert Tags(rows) == Tags(s.rows) + [(key, Next(Tags(s.rows), key))];
  }

  lemma BegunLatest(s: Store, key: Key)
    requires Inv(s) && Begin(s, key).Ok?
    ensures LatestIsActive(Begin(s, key).value.rows)
  {
    var rows, n := Begin(s, key).value.rows, |s.rows|;
    BegunRows(s, key);
    forall i | 0 <= i < |rows| && !rows[i].active
      ensures exists j :: i < j < |rows| && rows[j].key == rows[i].key
    {
      if s.rows[i].key == key {
        assert rows[n].key == rows[i].key;
      } else {
        var j :| i < j < n && s.rows[j].key == s.rows[i].key;
        assert rows[j].key == rows[i].key;
      }
    }
  }

  lemma BegunRowsOk(s: Store, key: Key)
    requires Inv(s) && Begin(s, key).Ok?
    ensures var rows := Begin(s, key).value.rows;
            forall i :: 0 <= i < |rows| ==> RowOk(rows[i]) && rows[i].validation == LastStatus(s.audit, i)
  {
    var rows, n := Begin(s, key).value.rows, |s.rows|;
    BegunRows(s, key);
    UntouchedStatus(s.audit, n);
    forall i | 0 <= i < n ensures RowOk(rows[i]) && rows[i].validation == LastStatus(s.audit, i) {
      assert RowOk(s.rows[i]);
      if s.rows[i].key == key && s.rows[i].status == Generating { assert Busy(s.rows, key); }
    }
  }

  lemma BeginKeepsInv(s: Store, key: Key)
    requires Inv(s) && Begin(s, key).Ok?
    ensures Inv(Begin(s, key).value)
  {
    BegunRows(s, key);
    BegunLatest(s, key);
    BegunRowsOk(s, key);
  }

  lemma UpdateKeepsLatest(rows: seq<Row>, k: nat, r: Row)
    requires k < |rows| && LatestIsActive(rows) && r.key == rows[k].key && r.active == rows[k].active
    ensures LatestIsActive(rows[k := r])
  {
    var rows' := rows[k := r];
    assert forall i :: 0 <= i < |rows| ==> rows'[i].key == rows[i].key && rows'[i].active == rows[i].active;
    forall i | 0 <= i < |rows| && !rows'[i].active
      ensures exists j :: i < j < |rows| && rows'[j].key == rows'[i].key
    {
      assert !rows[i].active;
      var j :| i < j < |rows| && rows[j].key == rows[i].key;
      assert rows'[j].key == rows'[i].key;
    }
  }

  /** Changing one row but neither its key, version nor active flag. */
  lemma UpdateKeepsTable(rows: seq<Row>, k: nat, r: Row)
    requires k < |rows| && Dense(Tags(rows)) && LatestIsActive(rows)
    requires r.key == rows[k].key && r.version == rows[k].version && r.active == rows[k].active
    ensures Dense(Tags(rows[k := r])) && LatestIsActive(rows[k := r])
  {
    assert Tags(rows[k := r]) == Tags(rows);
    UpdateKeepsLatest(rows, k, r);
  }

  lemma AppendLinked(audit: seq<Entry>, e: Entry)
    requires Linked(audit) && e.before == LastStatus(audit, e.row) && Rank(e.before) < Rank(e.after)
    ensures Linked(audit + [e])
  {
    var more := audit + [e];
    forall i | 0 <= i < |more|
      ensures more[i].before == LastStatus(more[..i], more[i].row) && Rank(more[i].before) < Rank(more[i].after)
    {
      if i < |audit| {
        assert more[..i] == audit[..i] && more[i] == audit[i];
      } else {
        assert more[..i] == audit;
      }
    }
  }

  lemma LastAppended(audit: seq<Entry>, e: Entry, r: nat)
    ensures LastStatus(audit + [e], r) == if e.row == r then e.after else LastStatus(audit, r)
  {
    assert (audit + [e])[..|audit|] == audit;
  }

  lemma MovedRows(s: Store, k: nat, to: Validation)
    requires Inv(s) && k < |s.rows| && s.rows[k].status == Generated
    requires to != ValidationFailed && to != s.rows[k].validation
    ensures var s' := Transition(s, k, to);
            forall i :: 0 <= i < |s'.rows| ==> RowOk(s'.rows[i]) && s'.rows[i].validation == LastStatus(s'.audit, i)
  {
    var s' := Transition(s, k, to);
    var e := Entry(k, s.rows[k].validation, to);
    forall i | 0 <= i < |s'.rows| ensures RowOk(s'.rows[i]) && s'.rows[i].validation == LastStatus(s'.audit, i) {
      LastAppended(s.audit, e, i);
      assert RowOk(s.rows[i]);
    }
  }

  lemma TransitionKeepsInv(s: Store, k: nat, to: Validation)
    requires Inv(s) && k < |s.rows| && s.rows[k].status == Generated
    requires to != ValidationFailed && (to == s.rows[k].validation || Rank(s.rows[k].validation) < Rank(to))
    ensures Inv(Transition(s, k, to))
  {
    if to != s.rows[k].validation {
      UpdateKeepsTable(s.rows, k, s.rows[k].(validation := to));
      MovedRows(s, k, to);
      AppendLinked(s.audit, Entry(k, s.rows[k].validation, to));
    }
  }

  lemma GenerateKeepsInv(s: Store, k: nat, content: Option<Content>)
    requires Inv(s)
    ensures Inv(Generate(s, k, content).value)
  {
    if k < |s.rows| && s.rows[k].status == Generating {
      var s' := Generate(s, k, content).value;
      UpdateKeepsTable(s.rows, k, s'.rows[k]);
      assert forall i :: 0 <= i < |s.rows| && i != k ==> s'.rows[i] == s.rows[i];
      assert RowOk(s.rows[k]);
    }
  }

  lemma StepKeepsInv(s: Store, step: Step)
    requires Inv(s)
    ensures Inv(After(s, step))
  {
    if Apply(s, step).Ok? {
      match step
      case DoBegin(key) => BeginKeepsInv(s, key);
      case DoGenerate(k, content) => GenerateKeepsInv(s, k, content);
      case DoValidate(k, _) => if !Terminal(s.rows[k].validation) { TransitionKeepsInv(s, k, NeedsReview); }
      case DoApprove(k, _) => TransitionKeepsInv(s, k, AnalystApproved);
      case DoReject(k, _) => TransitionKeepsInv(s, k, Rejected);
    }
  }

  /** What later steps keep of a row: its identity, an end of its generation, and a human decision. */
  ghost predicate Settled(a: Row, b: Row) {
    && a.key == b.key && a.version == b.version
    && (a.status != Generating ==> b.status == a.status && b.content == a.content)
    && Rank(a.validation) <= Rank(b.validation)
    && (Terminal(a.validation) ==> b.validation == a.validation)
  }

  lemma StepSettles(s: Store, step: Step)
    requires Inv(s)
    ensures |s.rows| <= |After(s, step).rows|
    ensures forall i :: 0 <= i < |s.rows| ==> Settled(s.rows[i], After(s, step).rows[i])
  {
    forall i | 0 <= i < |s.rows|
      ensures Settled(s.rows[i], After(s, step).rows[i])
    {
      assert RowOk(s.rows[i]);
      if step.DoBegin? && Begin(s, step.key).Ok? {
        assert After(s, step).rows[i] == Deactivated(s.rows, step.key)[i];
      }
    }
  }

  /** Every history keeps the invariant, and rows never un-settle: in particular an approved or rejected
      artifact stays so, and a failed one is never validated. */
  lemma {:induction false} HistoriesKeepInv(s: Store, steps: seq<Step>)
    requires Inv(s)
    ensures Inv(Replay(s, steps)) && |s.rows| <= |Replay(s, steps).rows|
    ensures forall i :: 0 <= i < |s.rows| ==> Settled(s.rows[i], Replay(s, steps).rows[i])
    decreases |steps|
  {
    if steps != [] {
      var s1 := After(s, steps[0]);
      StepKeepsInv(s, steps[0]);
      StepSettles(s, steps[0]);
      HistoriesKeepInv(s1, steps[1..]);
      forall i | 0 <= i < |s.rows|
        ensures Settled(s.rows[i], Replay(s, steps).rows[i])
      {
        assert Settled(s.rows[i], s1.rows[i]) && Settled(s1.rows[i], Replay(s1, steps[1..]).rows[i]);
      }
    }
  }

  lemma ActiveIsLast(s: Store, a: nat, j: nat)
    requires Inv(s) && a < |s.rows| && j < |s.rows| && j != a
    requires s.rows[a].active && s.rows[j].key == s.rows[a].key
    ensures !s.rows[j].active && s.rows[j].status != Generating && s.rows[j].version < s.rows[a].version
  {
    assert RowOk(s.rows[j]);
    DenseOrders(Tags(s.rows), j, a);
  }

  /** From the invariant: a key with rows has exactly one active row, the highest version, and it is the
      only one that may be generating. */
  lemma OneActivePerKey(s: Store, i: nat) returns (a: nat)
    requires Inv(s) && i < |s.rows|
    ensures a < |s.rows| && s.rows[a].active && s.rows[a].key == s.rows[i].key
    ensures forall j :: 0 <= j < |s.rows| && s.rows[j].key == s.rows[i].key && j != a ==>
              !s.rows[j].active && s.rows[j].status != Generating && s.rows[j].version < s.rows[a].version
    decreases |s.rows| - i
  {
    if s.rows[i].active {
      a := i;
      forall j | 0 <= j < |s.rows| && s.rows[j].key == s.rows[i].key && j != a
        ensures !s.rows[j].active && s.rows[j].status != Generating && s.rows[j].version < s.rows[a].version
      {
        ActiveIsLast(s, a, j);
      }
    } else {
      var j :| i < j < |s.rows| && s.rows[j].key == s.rows[i].key;
      a := OneActivePerKey(s, j);
    }
  }

  /** `validation_failed` is a status no artifact ever reaches: a generated row always has content. */
  lemma ValidationFailedUnreachable(steps: seq<Step>)
    ensures forall i :: 0 <= i < |Replay(Store([], []), steps).rows| ==>
              Replay(Store([], []), steps).rows[i].validation != ValidationFailed
  {
    HistoriesKeepInv(Store([], []), steps);
  }

  // ----- the services, updating the table in place -----

  class ArtifactService {
    var rows: seq<Row>
    var audit: seq<Entry>

    ghost function Snapshot(): Store
      reads this
    {
      Store(rows, audit)
    }

    ghost predicate Valid()
      reads this
    {
      Inv(Snapshot())
    }

    constructor ()
      ensures Valid() && Snapshot() == Store([], [])
    {
      rows, audit := [], [];
    }

    method IsBusy(key: Key) returns (busy: bool)
      ensures busy == Busy(rows, key)
    {
      for i := 0 to |rows|
        invariant forall j :: 0 <= j < i && rows[j].key == key && rows[j].active ==> rows[j].status != Generating
      {
        if rows[i].key == key && rows[i].active && rows[i].status == Generating {
          return true;
        }
      }
      return false;
    }

    method Deactivate(key: Key)
      modifies this`rows
      ensures rows == Deactivated(old(rows), key)
    {
      for i := 0 to |rows|
        invariant |rows| == |old(rows)|
        invariant forall j :: 0 <= j < i ==> rows[j] == Deactivated(old(rows), key)[j]
        invariant forall j :: i <= j < |rows| ==> rows[j] == old(rows)[j]
      {
        if rows[i].key == key && rows[i].active {
          rows := rows[i := rows[i].(active := false)];
        }
      }
    }

    method BeginGeneration(key: Key) returns (r: Result<nat>)
      requires Valid()
      modifies this`rows
      ensures Valid()
      ensures var spec := Begin(old(Snapshot()), key);
              if spec.Ok? then r == Ok(|old(rows)|) && Snapshot() == spec.value
              else r == Err(spec.error) && Snapshot() == old(Snapshot())
    {
      StepKeepsInv(Snapshot(), DoBegin(key));
      if key.artifact == SigmaRule {
        return Err(NotGeneratable);
      }
      var busy := IsBusy(key);
      if busy {
        return Err(AlreadyGenerating);
      }
      var version := NextVersion(Tags(rows), key);
      Deactivate(key);
      r := Ok(|rows|);
      rows := rows + [Row(key, version, true, Generating, NotValidated, None)];
    }

    method GenerateOne(k: nat, content: Option<Content>)
      requires Valid()
      modifies this`rows
      ensures Valid() && Ok(Snapshot()) == Generate(old(Snapshot()), k, content)
    {
      StepKeepsInv(Snapshot(), DoGenerate(k, content));
      if k < |rows| && rows[k].status == Generating {
        if content.None? {
          rows := rows[k := rows[k].(status := Failed)];
        } else {
          rows := rows[k := rows[k].(status := Generated, content := content)];
        }
      }
    }

    method Move(k: nat, to: Validation)
      requires k < |rows|
      modifies this
      ensures Snapshot() == Transition(old(Snapshot()), k, to)
    {
      if to != rows[k].validation {
        audit := audit + [Entry(k, rows[k].validation, to)];
        rows := rows[k := rows[k].(validation := to)];
      }
    }

    method ValidateArtifact(k: nat, assessment: Option<nat>) returns (r: Result<()>)
      requires Valid()
      modifies this
      ensures Valid()
      ensures var spec := Validate(old(Snapshot()), k, assessment);
              if spec.Ok? then r == Ok(()) && Snapshot() == spec.value
              else r == Err(spec.error) && Snapshot() == old(Snapshot())
    {
      StepKeepsInv(Snapshot(), DoValidate(k, assessment));
      var loaded := Load(Store(rows, audit), k, assessment);
      if loaded.Err? {
        return Err(loaded.error);
      }
      if !Terminal(rows[k].validation) {
        Move(k, AfterLints(rows[k].content));
      }
      return Ok(());
    }

    method Approve(k: nat, assessment: Option<nat>) returns (r: Result<()>)
      requires Valid()
      modifies this
      ensures Valid()
      ensures var spec := Decide(old(Snapshot()), k, assessment, AnalystApproved);
              if spec.Ok? then r == Ok(()) && Snapshot() == spec.value
              else r == Err(spec.error) && Snapshot() == old(Snapshot())
    {
      StepKeepsInv(Snapshot(), DoApprove(k, assessment));
      var loaded := Load(Store(rows, audit), k, assessment);
      if loaded.Err? {
        return Err(loaded.error);
      }
      if rows[k].validation == AnalystApproved {
        return Ok(());
      }
      if rows[k].validation == Rejected {
        return Err(InvalidTransition);
      }
      Move(k, AnalystApproved);
      return Ok(());
    }

    method Reject(k: nat, assessment: Option<nat>) returns (r: Result<()>)
      requires Valid()
      modifies this
      ensures Valid()
      ensures var spec := Decide(old(Snapshot()), k, assessment, Validation.Rejected);
              if spec.Ok? then r == Ok(()) && Snapshot() == spec.value
              else r == Err(spec.error) && Snapshot() == old(Snapshot())
    {
      StepKeepsInv(Snapshot(), DoReject(k, assessment));
      var loaded := Load(Store(rows, audit), k, assessment);
      if loaded.Err? {
        return Err(loaded.error);
      }
      if rows[k].validation == Rejected {
        return Ok(());
      }
      if rows[k].validation == AnalystApproved {
        return Err(InvalidTransition);
      }
      Move(k, Rejected);
      return Ok(());
    }
  }
}
