/** The attack-chain table under its two writers: the synthesizer, which supersedes the active chain of a
    CVE, and the generator, which does not and relies on the partial unique index. */
module ChainTable {
  import opened VersionedRows
  import opened ChainSynthesis

  type Cve = nat

  datatype Superseded = Active | SupersededBy(assessment: nat)

  datatype Chain = Chain(cve: Cve, version: nat, superseded: Superseded, confidences: seq<real>, overall: real)

  datatype Error = SynthesisError | UniqueViolation
  datatype Result = Ok(id: nat) | Err(error: Error)

  function Tags(rows: seq<Chain>): seq<(Cve, nat)> {
    seq(|rows|, i requires 0 <= i < |rows| => (rows[i].cve, rows[i].version))
  }

  predicate IsActive(r: Chain, cve: Cve) {
    r.cve == cve && r.superseded.Active?
  }

  predicate HasActive(rows: seq<Chain>, cve: Cve) {
    exists i :: 0 <= i < |rows| && IsActive(rows[i], cve)
  }

  function Demoted(rows: seq<Chain>, cve: Cve, assessment: nat): seq<Chain> {
    seq(|rows|, i requires 0 <= i < |rows| =>
      if IsActive(rows[i], cve) then rows[i].(superseded := SupersededBy(assessment)) else rows[i])
  }

  /** The curated rows of the vulnerability class, the category weights and the Loop 2 indicators. */
  datatype Input = Input(curated: seq<Mapping>, relevance: map<string, Relevance>, indicators: Indicators)

  function Ttps(input: Input): seq<Mapping> {
    if input.curated == [] then FALLBACK else input.curated
  }

  function Built(input: Input): seq<real> {
    Confidences(Ttps(input), input.relevance, input.indicators, input.curated == [])
  }

  predicate Validates(input: Input) {
    ValidChain(Ttps(input), Built(input), Overall(Built(input)))
  }

  // ----- steps -----

  datatype Step =
    | Synthesize(cve: Cve, assessment: nat, input: Input)
    | Insert(cve: Cve, confidences: seq<real>, overall: real)

  predicate Succeeds(rows: seq<Chain>, s: Step) {
    match s
    case Synthesize(_, _, input) => Validates(input)
    case Insert(cve, _, _) => !HasActive(rows, cve)
  }

  /** A refused insert rolls back.  A synthesis that fails its checks does not: the loop run that caught the
      error commits the demotions made before it. */
  function After(rows: seq<Chain>, s: Step): seq<Chain> {
    match s
    case Synthesize(cve, assessment, input) =>
      var demoted := Demoted(rows, cve, assessment);
      if !Validates(input) then demoted
      else demoted + [Chain(cve, Next(Tags(demoted), cve), Active, Built(input), Overall(Built(input)))]
    case Insert(cve, confidences, overall) =>
      if HasActive(rows, cve) then rows
      else rows + [Chain(cve, Next(Tags(rows), cve), Active, confidences, overall)]
  }

  function Replay(rows: seq<Chain>, steps: seq<Step>): seq<Chain>
    decreases |steps|
  {
    if steps == [] then rows else Replay(After(rows, steps[0]), steps[1..])
  }

  // ----- the invariant -----

  /** At most one active chain per CVE, and its versions are 1..k. */
  ghost predicate Inv(rows: seq<Chain>) {
    && Dense(Tags(rows))
    && (forall i, j :: 0 <= i < j < |rows| && rows[i].cve == rows[j].cve ==>
          !(rows[i].superseded.Active? && rows[j].superseded.Active?))
  }

  lemma AppendKeepsInv(rows: seq<Chain>, cve: Cve, confidences: seq<real>, overall: real)
    requires Inv(rows) && !HasActive(rows, cve)
    ensures Inv(rows + [Chain(cve, Next(Tags(rows), cve), Active, confidences, overall)])
  {
    var c := Chain(cve, Next(Tags(rows), cve), Active, confidences, overall);
    AppendKeepsDense(Tags(rows), cve);
    assert Tags(rows + [c]) == Tags(rows) + [(cve, c.version)];
    forall i | 0 <= i < |rows| && rows[i].cve == cve ensures !rows[i].superseded.Active? {
      assert !IsActive(rows[i], cve);
    }
  }

  lemma DemotedKeepsInv(rows: seq<Chain>, cve: Cve, assessment: nat)
    requires Inv(rows)
    ensures Inv(Demoted(rows, cve, assessment)) && !HasActive(Demoted(rows, cve, assessment), cve)
    ensures forall other :: other != cve ==>
              (HasActive(Demoted(rows, cve, assessment), other) <==> HasActive(rows, other))
  {
    var demoted := Demoted(rows, cve, assessment);
    assert Tags(demoted) == Tags(rows);
    forall other | other != cve ensures HasActive(demoted, other) <==> HasActive(rows, other) {
      assert forall i :: 0 <= i < |rows| ==> (IsActive(demoted[i], other) <==> IsActive(rows[i], other));
    }
  }

  lemma StepKeepsInv(rows: seq<Chain>, s: Step)
    requires Inv(rows)
    ensures Inv(After(rows, s))
  {
    match s
    case Synthesize(cve, assessment, input) =>
      DemotedKeepsInv(rows, cve, assessment);
      if Validates(input) {
        AppendKeepsInv(Demoted(rows, cve, assessment), cve, Built(input), Overall(Built(input)));
      }
    case Insert(cve, confidences, overall) =>
      if !HasActive(rows, cve) { AppendKeepsInv(rows, cve, confidences, overall); }
  }

  /** Any mix of the two writers, successful or not. */
  lemma {:induction false} ReplayKeepsInv(rows: seq<Chain>, steps: seq<Step>)
    requires Inv(rows)
    ensures Inv(Replay(rows, steps))
    decreases |steps|
  {
    if steps != [] {
      StepKeepsInv(rows, steps[0]);
      ReplayKeepsInv(After(rows, steps[0]), steps[1..]);
    }
  }

  /** A successful write leaves its own row as the one active chain of the CVE; no write touches the active
      chain of another CVE. */
  lemma WriteActivatesItsRow(rows: seq<Chain>, s: Step)
    requires Inv(rows)
    ensures var rows' := After(rows, s);
            && (Succeeds(rows, s) ==>
                  |rows'| == |rows| + 1 && forall i :: 0 <= i < |rows'| ==>
                      (IsActive(rows'[i], s.cve) <==> i == |rows|))
            && (forall other :: other != s.cve ==> (HasActive(rows', other) <==> HasActive(rows, other)))
  {
    var rows' := After(rows, s);
    var before := if s.Synthesize? then Demoted(rows, s.cve, s.assessment) else rows;
    if s.Synthesize? {
      DemotedKeepsInv(rows, s.cve, s.assessment);
    }
    if Succeeds(rows, s) {
      assert rows'[..|rows|] == before;
      forall i | 0 <= i < |rows| ensures !IsActive(rows'[i], s.cve) {
        assert rows'[i] == before[i];
      }
    }
    forall other | other != s.cve ensures HasActive(rows', other) <==> HasActive(before, other) {
      assert forall i :: 0 <= i < |before| ==> rows'[i] == before[i];
      assert forall i :: |before| <= i < |rows'| ==> !IsActive(rows'[i], other);
      if HasActive(before, other) {
        var i :| 0 <= i < |before| && IsActive(before[i], other);
        assert IsActive(rows'[i], other);
      }
    }
  }

  /** A synthesis leaves the CVE with an active chain exactly when the built chain passes its checks: one
      that fails takes the prior active chain away and puts nothing in its place. */
  lemma SynthesisKeepsActiveIff(rows: seq<Chain>, cve: Cve, assessment: nat, input: Input)
    requires Inv(rows)
    ensures HasActive(After(rows, Synthesize(cve, assessment, input)), cve) <==> Validates(input)
  {
    var s := Synthesize(cve, assessment, input);
    DemotedKeepsInv(rows, cve, assessment);
    if Validates(input) {
      WriteActivatesItsRow(rows, s);
      assert IsActive(After(rows, s)[|rows|], cve);
    }
  }

  /** In terms of the mapping tables, whatever they hold: the chain is lost exactly when the class is mapped and one
      of its rows is not numbered by its place, has a malformed id, or sums with its indicators to a negative
      confidence. */
  lemma SynthesisLosesChainIff(rows: seq<Chain>, cve: Cve, assessment: nat, input: Input)
    requires Inv(rows) && HasActive(rows, cve)
    ensures !HasActive(After(rows, Synthesize(cve, assessment, input)), cve) <==>
            exists i :: 0 <= i < |input.curated| && !RowPasses(input.curated, i, input.relevance, input.indicators)
  {
    SynthesisKeepsActiveIff(rows, cve, assessment, input);
    if input.curated == [] {
      FallbackIsPinned(input.relevance, input.indicators);
    } else {
      CuratedValidIff(input.curated, input.relevance, input.indicators);
    }
  }

  const MISNUMBERED := Input([Mapping("T1190", 2, 0.4, true)], map[], map[])
  const NEGATIVE := Input([Mapping("T1190", 1, -1.0, true)], map[], map[])

  /** A curated table whose only row has order 2 takes the active chain of any CVE away. */
  lemma MisnumberedRowLosesChain(rows: seq<Chain>, cve: Cve, assessment: nat)
    requires Inv(rows) && HasActive(rows, cve)
    ensures !HasActive(After(rows, Synthesize(cve, assessment, MISNUMBERED)), cve)
  {
    assert !RowPasses(MISNUMBERED.curated, 0, map[], map[]);
    SynthesisLosesChainIff(rows, cve, assessment, MISNUMBERED);
  }

  /** So does one whose only row is well formed but has a negative base confidence. */
  lemma NegativeBaseLosesChain(rows: seq<Chain>, cve: Cve, assessment: nat)
    requires Inv(rows) && HasActive(rows, cve)
    ensures !HasActive(After(rows, Synthesize(cve, assessment, NEGATIVE)), cve)
  {
    var t := NEGATIVE.curated[0];
    assert "T1190" !in NEGATIVE.relevance;
    assert PerTtp([], NEGATIVE.indicators) == [];
    assert Raw(t, NEGATIVE.relevance, NEGATIVE.indicators) == -1.0;
    assert !RowPasses(NEGATIVE.curated, 0, NEGATIVE.relevance, NEGATIVE.indicators);
    SynthesisLosesChainIff(rows, cve, assessment, NEGATIVE);
  }

  // ----- the writers, updating the table in place -----

  class ChainStore {
    var rows: seq<Chain>

    ghost predicate Valid()
      reads this
    {
      Inv(rows)
    }

    constructor ()
      ensures Valid() && rows == []
    {
      rows := [];
    }

    method SupersedePriorActive(cve: Cve, assessment: nat)
      modifies this
      ensures rows == Demoted(old(rows), cve, assessment)
    {
      for i := 0 to |rows|
        invariant |rows| == |old(rows)|
        invariant forall j :: 0 <= j < i ==> rows[j] == Demoted(old(rows), cve, assessment)[j]
        invariant forall j :: i <= j < |rows| ==> rows[j] == old(rows)[j]
      {
        if IsActive(rows[i], cve) {
          rows := rows[i := rows[i].(superseded := SupersededBy(assessment))];
        }
      }
    }

    method SynthesizeChain(cve: Cve, assessment: nat, input: Input) returns (r: Result)
      requires Valid()
      modifies this
      ensures Valid() && rows == After(old(rows), Synthesize(cve, assessment, input))
      ensures r == if Validates(input) then Ok(|old(rows)|) else Err(SynthesisError)
    {
      StepKeepsInv(rows, Synthesize(cve, assessment, input));
      SupersedePriorActive(cve, assessment);
      var version := NextVersion(Tags(rows), cve);
      var confidences := BuildTtps(Ttps(input), input.relevance, input.indicators, input.curated == []);
      var overall := Overall(confidences);
      if !ValidChain(Ttps(input), confidences, overall) {
        return Err(SynthesisError);
      }
      r := Ok(|rows|);
      rows := rows + [Chain(cve, version, Active, confidences, overall)];
    }

    /** The second writer: the index refuses a second active row. */
    method InsertChainRows(cve: Cve, confidences: seq<real>, overall: real) returns (r: Result)
      requires Valid()
      modifies this
      ensures Valid() && rows == After(old(rows), Insert(cve, confidences, overall))
      ensures r == if HasActive(old(rows), cve) then Err(UniqueViolation) else Ok(|old(rows)|)
    {
      StepKeepsInv(rows, Insert(cve, confidences, overall));
      var version := NextVersion(Tags(rows), cve);
      for i := 0 to |rows|
        invariant forall j :: 0 <= j < i ==> !IsActive(rows[j], cve)
      {
        if IsActive(rows[i], cve) {
          return Err(UniqueViolation);
        }
      }
      r := Ok(|rows|);
      rows := rows + [Chain(cve, version, Active, confidences, overall)];
    }
  }
}
