/** The coverage table: classification of one chain's techniques, and the rows the mapper folds chains into. */
module CoverageTable {
  import opened Ids
  import opened Options

  /** Identifiers are UUIDs, taken as their 128-bit numbers: the order of their texts is the order of the numbers. */
  type Cve = nat
  type Rule = nat

  // ----- classification of one technique -----

  datatype Status = Covered | Partial | Gap | NoData

  /** What the phases found for one technique: exact tag matches that stayed covered, those demoted to
      partial by Phase 1.5, and the Phase 2 verdicts. */
  datatype Findings = Findings(exact: seq<Rule>, demoted: seq<Rule>, yes: seq<Rule>, partial: seq<Rule>)

  /** Appends the items that neither list holds yet. */
  function AppendNew(acc: seq<Rule>, items: seq<Rule>, other: seq<Rule>): seq<Rule>
    decreases |items|
  {
    if items == [] then acc
    else AppendNew(if items[0] in acc || items[0] in other then acc else acc + [items[0]], items[1..], other)
  }

  /** With LLM verification off a bare tag match does not cover. */
  function Covering(f: Findings, verify: bool): seq<Rule> {
    AppendNew(if verify then f.exact else [], f.yes, [])
  }

  function PartialRules(f: Findings, verify: bool): seq<Rule> {
    AppendNew(AppendNew([], f.demoted, Covering(f, verify)), f.partial, Covering(f, verify))
  }

  function Classify(f: Findings, verify: bool): Status {
    if Covering(f, verify) != [] then Covered else if PartialRules(f, verify) != [] then Partial else Gap
  }

  lemma {:induction false} AppendNewAdds(acc: seq<Rule>, items: seq<Rule>, other: seq<Rule>)
    ensures Elems(AppendNew(acc, items, other)) == Elems(acc) + (Elems(items) - Elems(other))
    ensures (forall i, j :: 0 <= i < j < |acc| ==> acc[i] != acc[j]) ==>
              forall i, j :: 0 <= i < j < |AppendNew(acc, items, other)| ==>
                AppendNew(acc, items, other)[i] != AppendNew(acc, items, other)[j]
    decreases |items|
  {
    if items != [] {
      AppendNewAdds(if items[0] in acc || items[0] in other then acc else acc + [items[0]], items[1..], other);
      assert items == [items[0]] + items[1..];
      assert Elems(acc + [items[0]]) == Elems(acc) + {items[0]};
      assert Elems(items) == {items[0]} + Elems(items[1..]);
      assert Elems(acc) + (Elems(items) - Elems(other)) ==
             Elems(if items[0] in acc || items[0] in other then acc else acc + [items[0]])
                 + (Elems(items[1..]) - Elems(other));
    }
  }

  /** The reported rules: a rule covers or is partial, never both, and the status follows from which exist. */
  lemma ClassificationSound(f: Findings, verify: bool)
    ensures var covering, partial := Elems(Covering(f, verify)), Elems(PartialRules(f, verify));
            && covering == (if verify then Elems(f.exact) else {}) + Elems(f.yes)
            && partial == Elems(f.demoted) + Elems(f.partial) - covering
            && (Classify(f, verify) == Covered <==> covering != {})
            && (Classify(f, verify) == Partial <==> covering == {} && partial != {})
            && (Classify(f, verify) == Gap <==> covering == {} && partial == {})
  {
    AppendNewAdds(if verify then f.exact else [], f.yes, []);
    AppendNewAdds([], f.demoted, Covering(f, verify));
    AppendNewAdds(AppendNew([], f.demoted, Covering(f, verify)), f.partial, Covering(f, verify));
    assert forall s: seq<Rule> :: s != [] ==> s[0] in Elems(s);
  }

  method ExtendNew(acc: seq<Rule>, items: seq<Rule>, other: seq<Rule>) returns (r: seq<Rule>)
    ensures r == AppendNew(acc, items, other)
  {
    r := acc;
    for i := 0 to |items|
      invariant AppendNew(r, items[i..], other) == AppendNew(acc, items, other)
    {
      if items[i] !in r && items[i] !in other {
        r := r + [items[i]];
      }
    }
  }

  method ClassifyTechnique(f: Findings, verify: bool) returns (status: Status, covering: seq<Rule>, partial: seq<Rule>)
    ensures covering == Covering(f, verify) && partial == PartialRules(f, verify) && status == Classify(f, verify)
  {
    covering := if verify then f.exact else [];
    covering := ExtendNew(covering, f.yes, []);
    partial := ExtendNew([], f.demoted, covering);
    partial := ExtendNew(partial, f.partial, covering);
    status := if covering != [] then Covered else if partial != [] then Partial else Gap;
  }

  // ----- the table -----

  /** Descriptive columns; "" stands for an absent one. */
  datatype Info = Info(techniqueName: string, tactic: string, tacticName: string, subTechnique: string,
                       parent: string, hasSubtechniques: bool)

  datatype Row = Row(technique: string, framework: string, info: Info, status: Status, rules: seq<Rule>,
                     cves: seq<Cve>, cveCount: nat, kevCount: nat, kevExposed: bool)

  /** One technique's outcome in a report. */
  datatype Report = Report(technique: string, techniqueName: string, tactic: string, tacticName: string,
                           status: Status, covering: seq<Rule>, partial: seq<Rule>)

  /** One `map_coverage` call as the table sees it. */
  datatype MapRun = MapRun(framework: string, cve: Cve, reports: seq<Report>)

  function Fresh(s: Report, framework: string): Row {
    Row(s.technique, framework, Info(s.techniqueName, s.tactic, s.tacticName, "", "", false), NoData, [], [], 0, 0,
        false)
  }

  /** Seeded descriptive columns are kept when present. */
  function Describe(i: Info, s: Report): Info {
    i.(techniqueName := if i.techniqueName == "" then s.techniqueName else i.techniqueName,
       tactic := if i.tactic == "" then s.tactic else i.tactic,
       tacticName := if i.tacticName == "" then s.tacticName else i.tacticName)
  }

  function Merge(row: Row, s: Report, cve: Cve, kev: set<Cve>): Row {
    var cves := Elems(row.cves) + {cve};
    row.(info := Describe(row.info, s), status := s.status,
         rules := SortedIds(Elems(row.rules) + Elems(s.covering) + Elems(s.partial)),
         cves := SortedIds(cves), cveCount := |cves|, kevCount := |cves * kev|, kevExposed := |cves * kev| > 0)
  }

  predicate IsRow(r: Row, technique: string, framework: string) {
    r.technique == technique && r.framework == framework
  }

  /** The first row of the key, or |rows|. */
  function Find(rows: seq<Row>, technique: string, framework: string): nat {
    if rows == [] then 0
    else if IsRow(rows[0], technique, framework) then 0
    else 1 + Find(rows[1..], technique, framework)
  }

  lemma {:induction false} FindFinds(rows: seq<Row>, technique: string, framework: string)
    ensures var k := Find(rows, technique, framework);
            && k <= |rows|
            && (k < |rows| ==> IsRow(rows[k], technique, framework))
            && (forall i :: 0 <= i < k ==> !IsRow(rows[i], technique, framework))
    decreases |rows|
  {
    if rows != [] && !IsRow(rows[0], technique, framework) {
      FindFinds(rows[1..], technique, framework);
      assert forall i :: 1 <= i < |rows| ==> rows[i] == rows[1..][i - 1];
    }
  }

  function PersistOne(rows: seq<Row>, s: Report, framework: string, cve: Cve, kev: set<Cve>): seq<Row> {
    FindFinds(rows, s.technique, framework);
    var k := Find(rows, s.technique, framework);
    if k < |rows| then rows[k := Merge(rows[k], s, cve, kev)]
    else rows + [Merge(Fresh(s, framework), s, cve, kev)]
  }

  /** The rows after one `map_coverage` call has folded all its reports in. */
  function Persist(rows: seq<Row>, run: MapRun, kev: set<Cve>): seq<Row>
    decreases |run.reports|
  {
    if run.reports == [] then rows
    else
      var n := |run.reports| - 1;
      PersistOne(Persist(rows, run.(reports := run.reports[..n]), kev), run.reports[n], run.framework, run.cve, kev)
  }

  function MapAll(rows: seq<Row>, runs: seq<MapRun>, kev: set<Cve>): seq<Row> {
    if runs == [] then rows else Persist(MapAll(rows, runs[..|runs| - 1], kev), runs[|runs| - 1], kev)
  }

  // ----- the table invariant -----

  predicate RowOk(r: Row, kev: set<Cve>) {
    && Increasing(r.rules) && Increasing(r.cves)
    && r.cveCount == |r.cves| == |Elems(r.cves)|
    && r.kevCount == |Elems(r.cves) * kev| && (r.kevExposed <==> r.kevCount > 0)
    && (r.cves == [] ==> r.status == NoData && r.rules == [])
  }

  predicate UniqueKeys(rows: seq<Row>) {
    forall i, j :: 0 <= i < j < |rows| ==>
        !(rows[i].technique == rows[j].technique && rows[i].framework == rows[j].framework)
  }

  predicate TableOk(rows: seq<Row>, kev: set<Cve>) {
    UniqueKeys(rows) && forall i :: 0 <= i < |rows| ==> RowOk(rows[i], kev)
  }

  /** A freshly seeded table. */
  predicate Seeded(rows: seq<Row>) {
    UniqueKeys(rows) && forall i :: 0 <= i < |rows| ==>
        rows[i] == Row(rows[i].technique, rows[i].framework, rows[i].info, NoData, [], [], 0, 0, false)
  }

  lemma MergeOk(row: Row, s: Report, cve: Cve, kev: set<Cve>)
    ensures RowOk(Merge(row, s, cve, kev), kev)
  {
    SortedIdsLists(Elems(row.cves) + {cve});
    SortedIdsElems(Elems(row.cves) + {cve});
    SortedIdsLists(Elems(row.rules) + Elems(s.covering) + Elems(s.partial));
    assert cve in Merge(row, s, cve, kev).cves;
  }

  lemma MergeSets(row: Row, s: Report, cve: Cve, kev: set<Cve>)
    ensures Elems(Merge(row, s, cve, kev).cves) == Elems(row.cves) + {cve}
    ensures Elems(Merge(row, s, cve, kev).rules) == Elems(row.rules) + (Elems(s.covering) + Elems(s.partial))
  {
    SortedIdsElems(Elems(row.cves) + {cve});
    SortedIdsElems(Elems(row.rules) + Elems(s.covering) + Elems(s.partial));
  }

  lemma UpdateOk(rows: seq<Row>, k: nat, row: Row, kev: set<Cve>)
    requires TableOk(rows, kev) && k < |rows|
    requires RowOk(row, kev) && IsRow(row, rows[k].technique, rows[k].framework)
    ensures TableOk(rows[k := row], kev)
  {
    var rows' := rows[k := row];
    assert forall i :: 0 <= i < |rows| ==> IsRow(rows'[i], rows[i].technique, rows[i].framework);
  }

  lemma AppendOk(rows: seq<Row>, row: Row, kev: set<Cve>)
    requires TableOk(rows, kev) && RowOk(row, kev)
    requires forall i :: 0 <= i < |rows| ==> !IsRow(rows[i], row.technique, row.framework)
    ensures TableOk(rows + [row], kev)
  {
  }

  lemma PersistOneOk(rows: seq<Row>, s: Report, framework: string, cve: Cve, kev: set<Cve>)
    requires TableOk(rows, kev)
    ensures TableOk(PersistOne(rows, s, framework, cve, kev), kev)
  {
    FindFinds(rows, s.technique, framework);
    var k := Find(rows, s.technique, framework);
    if k < |rows| {
      MergeOk(rows[k], s, cve, kev);
      UpdateOk(rows, k, Merge(rows[k], s, cve, kev), kev);
    } else {
      MergeOk(Fresh(s, framework), s, cve, kev);
      AppendOk(rows, Merge(Fresh(s, framework), s, cve, kev), kev);
    }
  }

  lemma {:induction false} PersistOk(rows: seq<Row>, run: MapRun, kev: set<Cve>)
    requires TableOk(rows, kev)
    ensures TableOk(Persist(rows, run, kev), kev)
    decreases |run.reports|
  {
    if run.reports != [] {
      var n := |run.reports| - 1;
      var init := run.(reports := run.reports[..n]);
      PersistOk(rows, init, kev);
      PersistOneOk(Persist(rows, init, kev), run.reports[n], run.framework, run.cve, kev);
    }
  }

  lemma {:induction false} MapAllOk(rows: seq<Row>, runs: seq<MapRun>, kev: set<Cve>)
    requires TableOk(rows, kev)
    ensures TableOk(MapAll(rows, runs, kev), kev)
  {
    if runs != [] {
      MapAllOk(rows, runs[..|runs| - 1], kev);
      PersistOk(MapAll(rows, runs[..|runs| - 1], kev), runs[|runs| - 1], kev);
    }
  }

  // ----- what the columns hold after any history -----

  function Lookup(rows: seq<Row>, technique: string, framework: string): Option<Row> {
    FindFinds(rows, technique, framework);
    var k := Find(rows, technique, framework);
    if k < |rows| then Some(rows[k]) else None
  }

  /** The two accumulated sets of a key, and whether it has a row at all. */
  datatype View = View(present: bool, cves: set<Cve>, rules: set<Rule>)

  function ViewAt(rows: seq<Row>, technique: string, framework: string): View {
    var r := Lookup(rows, technique, framework);
    if r.None? then View(false, {}, {}) else View(true, Elems(r.value.cves), Elems(r.value.rules))
  }

  function Grow(v: View, hit: bool, cves: set<Cve>, rules: set<Rule>): View {
    if hit then View(true, v.cves + cves, v.rules + rules) else v
  }

  lemma GrowTwice(v: View, hit: bool, cves: set<Cve>, rules: set<Rule>, hit': bool, cves': set<Cve>, rules': set<Rule>)
    requires hit || (cves == {} && rules == {})
    requires hit' || (cves' == {} && rules' == {})
    ensures Grow(Grow(v, hit, cves, rules), hit', cves', rules') == Grow(v, hit || hit', cves + cves', rules + rules')
  {
    assert v.cves + cves + cves' == v.cves + (cves + cves');
    assert v.rules + rules + rules' == v.rules + (rules + rules');
  }

  lemma {:induction false} LookupUpdated(rows: seq<Row>, k: nat, r: Row, technique: string, framework: string)
    requires k < |rows| && IsRow(r, rows[k].technique, rows[k].framework)
    ensures Find(rows[k := r], technique, framework) == Find(rows, technique, framework)
    decreases |rows|
  {
    if k > 0 {
      assert rows[k := r][1..] == rows[1..][k - 1 := r];
      LookupUpdated(rows[1..], k - 1, r, technique, framework);
    } else {
      assert rows[k := r][1..] == rows[1..];
    }
  }

  lemma {:induction false} LookupAppended(rows: seq<Row>, r: Row, technique: string, framework: string)
    ensures var k := Find(rows, technique, framework);
            Find(rows + [r], technique, framework) ==
            if k < |rows| || IsRow(r, technique, framework) then k else k + 1
    decreases |rows|
  {
    FindFinds(rows, technique, framework);
    if rows == [] {
      assert (rows + [r])[1..] == [];
    } else {
      assert (rows + [r])[1..] == rows[1..] + [r];
      LookupAppended(rows[1..], r, technique, framework);
      FindFinds(rows[1..], technique, framework);
    }
  }

  /** Persisting one report changes its own row only. */
  lemma PersistOneAt(rows: seq<Row>, s: Report, framework: string, cve: Cve, kev: set<Cve>, t: string, f: string)
    ensures var before, after := Lookup(rows, t, f), Lookup(PersistOne(rows, s, framework, cve, kev), t, f);
            if t == s.technique && f == framework then
              after == Some(Merge(if before.None? then Fresh(s, framework) else before.value, s, cve, kev))
            else after == before
  {
    FindFinds(rows, s.technique, framework);
    FindFinds(rows, t, f);
    var k := Find(rows, s.technique, framework);
    if k < |rows| {
      LookupUpdated(rows, k, Merge(rows[k], s, cve, kev), t, f);
    } else {
      LookupAppended(rows, Merge(Fresh(s, framework), s, cve, kev), t, f);
    }
  }

  lemma PersistOneView(rows: seq<Row>, s: Report, framework: string, cve: Cve, kev: set<Cve>, t: string, f: string)
    ensures ViewAt(PersistOne(rows, s, framework, cve, kev), t, f) ==
            Grow(ViewAt(rows, t, f), t == s.technique && f == framework, {cve}, Elems(s.covering) + Elems(s.partial))
  {
    PersistOneAt(rows, s, framework, cve, kev, t, f);
    if t == s.technique && f == framework {
      var before := Lookup(rows, t, f);
      MergeSets(if before.None? then Fresh(s, framework) else before.value, s, cve, kev);
      ElemsNonEmpty(Fresh(s, framework).cves);
      ElemsNonEmpty(Fresh(s, framework).rules);
    }
  }

  predicate Mentions(reports: seq<Report>, t: string) {
    exists i :: 0 <= i < |reports| && reports[i].technique == t
  }

  /** Every rule the reports name for the technique. */
  function Named(reports: seq<Report>, t: string): set<Rule> {
    set i, x | 0 <= i < |reports| && reports[i].technique == t && x in reports[i].covering + reports[i].partial :: x
  }

  predicate Hits(r: MapRun, t: string, f: string) {
    r.framework == f && Mentions(r.reports, t)
  }

  function CvesOf(r: MapRun, t: string, f: string): set<Cve> {
    if Hits(r, t, f) then {r.cve} else {}
  }

  function RulesOf(r: MapRun, t: string, f: string): set<Rule> {
    if r.framework == f then Named(r.reports, t) else {}
  }

  lemma NamedAppend(reports: seq<Report>, s: Report, t: string)
    ensures Named(reports + [s], t) ==
            Named(reports, t) + if s.technique == t then Elems(s.covering) + Elems(s.partial) else {}
  {
    var more, n := reports + [s], |reports|;
    forall x | x in Named(reports, t) ensures x in Named(more, t) {
      var i :| 0 <= i < n && reports[i].technique == t && x in reports[i].covering + reports[i].partial;
      assert more[i].technique == t && x in more[i].covering + more[i].partial;
    }
    if s.technique == t {
      forall x | x in s.covering + s.partial ensures x in Named(more, t) {
        assert more[n].technique == t && x in more[n].covering + more[n].partial;
      }
    }
    forall x | x in Named(more, t) ensures x in Named(reports, t) || (s.technique == t && x in s.covering + s.partial) {
      var i :| 0 <= i < n + 1 && more[i].technique == t && x in more[i].covering + more[i].partial;
      if i < n { assert reports[i] == more[i]; }
    }
  }

  lemma MentionsAppend(reports: seq<Report>, s: Report, t: string)
    ensures Mentions(reports + [s], t) <==> Mentions(reports, t) || s.technique == t
  {
    var more, n := reports + [s], |reports|;
    assert more[n] == s;
    if Mentions(reports, t) {
      var i :| 0 <= i < n && reports[i].technique == t;
      assert more[i].technique == t;
    }
  }

  lemma UnmentionedUnnamed(reports: seq<Report>, t: string)
    ensures !Mentions(reports, t) ==> Named(reports, t) == {}
  {
  }

  lemma ReportAppend(run: MapRun, s: Report, t: string, f: string)
    ensures var more, hit := run.(reports := run.reports + [s]), t == s.technique && f == run.framework;
            && (Hits(more, t, f) <==> Hits(run, t, f) || hit)
            && CvesOf(more, t, f) == CvesOf(run, t, f) + (if hit then {run.cve} else {})
            && RulesOf(more, t, f) == RulesOf(run, t, f) + (if hit then Elems(s.covering) + Elems(s.partial) else {})
  {
    MentionsAppend(run.reports, s, t);
    NamedAppend(run.reports, s, t);
  }

  lemma {:induction false} PersistView(rows: seq<Row>, run: MapRun, kev: set<Cve>, t: string, f: string)
    ensures ViewAt(Persist(rows, run, kev), t, f) ==
            Grow(ViewAt(rows, t, f), Hits(run, t, f), CvesOf(run, t, f), RulesOf(run, t, f))
    decreases |run.reports|
  {
    if run.reports != [] {
      var n := |run.reports| - 1;
      var init, s := run.(reports := run.reports[..n]), run.reports[n];
      assert run.reports == init.reports + [s];
      PersistView(rows, init, kev, t, f);
      PersistOneView(Persist(rows, init, kev), s, run.framework, run.cve, kev, t, f);
      ReportAppend(init, s, t, f);
      UnmentionedUnnamed(init.reports, t);
      var hit := t == s.technique && f == run.framework;
      GrowTwice(ViewAt(rows, t, f), Hits(init, t, f), CvesOf(init, t, f), RulesOf(init, t, f),
                hit, if hit then {run.cve} else {}, if hit then Elems(s.covering) + Elems(s.partial) else {});
    }
  }

  predicate Hit(runs: seq<MapRun>, t: string, f: string) {
    exists r :: r in runs && Hits(r, t, f)
  }

  /** The CVEs whose mapped chains mention the technique. */
  function MappedCves(runs: seq<MapRun>, t: string, f: string): set<Cve> {
    set r | r in runs && Hits(r, t, f) :: r.cve
  }

  /** All rules ever reported for the technique, covering or partial. */
  function MappedRules(runs: seq<MapRun>, t: string, f: string): set<Rule> {
    set r, x | r in runs && x in RulesOf(r, t, f) :: x
  }

  lemma RunsAppend(runs: seq<MapRun>, r: MapRun, t: string, f: string)
    ensures Hit(runs + [r], t, f) <==> Hit(runs, t, f) || Hits(r, t, f)
    ensures MappedCves(runs + [r], t, f) == MappedCves(runs, t, f) + CvesOf(r, t, f)
    ensures MappedRules(runs + [r], t, f) == MappedRules(runs, t, f) + RulesOf(r, t, f)
  {
    assert forall q :: q in runs + [r] <==> q in runs || q == r;
  }

  lemma NothingMapped(runs: seq<MapRun>, t: string, f: string)
    requires !Hit(runs, t, f)
    ensures MappedCves(runs, t, f) == {} && MappedRules(runs, t, f) == {}
  {
    forall r | r in runs ensures RulesOf(r, t, f) == {} {
      assert !Hits(r, t, f);
      UnmentionedUnnamed(r.reports, t);
    }
  }

  lemma {:induction false} MapAllView(rows: seq<Row>, runs: seq<MapRun>, kev: set<Cve>, t: string, f: string)
    ensures ViewAt(MapAll(rows, runs, kev), t, f) ==
            Grow(ViewAt(rows, t, f), Hit(runs, t, f), MappedCves(runs, t, f), MappedRules(runs, t, f))
  {
    if runs != [] {
      var init, r := runs[..|runs| - 1], runs[|runs| - 1];
      assert runs == init + [r];
      MapAllView(rows, init, kev, t, f);
      PersistView(MapAll(rows, init, kev), r, kev, t, f);
      RunsAppend(init, r, t, f);
      if !Hit(init, t, f) { NothingMapped(init, t, f); }
      UnmentionedUnnamed(r.reports, t);
      GrowTwice(ViewAt(rows, t, f), Hit(init, t, f), MappedCves(init, t, f), MappedRules(init, t, f),
                Hits(r, t, f), CvesOf(r, t, f), RulesOf(r, t, f));
    }
  }

  /** The accumulated columns of a row. */
  function Accumulated(r: Row): (seq<Rule>, seq<Cve>, nat, nat, bool) {
    (r.rules, r.cves, r.cveCount, r.kevCount, r.kevExposed)
  }

  lemma SeededView(rows: seq<Row>, kev: set<Cve>, t: string, f: string)
    requires Seeded(rows)
    ensures TableOk(rows, kev)
    ensures ViewAt(rows, t, f).cves == {} && ViewAt(rows, t, f).rules == {}
  {
    FindFinds(rows, t, f);
  }

  /** From a seeded table: exactly what each accumulated column of a row holds. */
  lemma ColumnsAfter(rows: seq<Row>, runs: seq<MapRun>, kev: set<Cve>, t: string, f: string)
    requires Seeded(rows)
    ensures var row := Lookup(MapAll(rows, runs, kev), t, f);
            && (row.Some? <==> Lookup(rows, t, f).Some? || Hit(runs, t, f))
            && (row.Some? ==>
                  && RowOk(row.value, kev)
                  && Elems(row.value.cves) == MappedCves(runs, t, f)
                  && row.value.cveCount == |MappedCves(runs, t, f)|
                  && row.value.kevCount == |MappedCves(runs, t, f) * kev|
                  && Elems(row.value.rules) == MappedRules(runs, t, f))
  {
    SeededView(rows, kev, t, f);
    MapAllOk(rows, runs, kev);
    MapAllView(rows, runs, kev, t, f);
    FindFinds(MapAll(rows, runs, kev), t, f);
    if !Hit(runs, t, f) { NothingMapped(runs, t, f); }
    assert ViewAt(MapAll(rows, runs, kev), t, f).present <==> ViewAt(rows, t, f).present || Hit(runs, t, f);
  }

  /** Two histories with the same runs, in any order and with any repetitions, give the same columns. */
  lemma ColumnsOrderIndependent(rows: seq<Row>, runs: seq<MapRun>, other: seq<MapRun>, kev: set<Cve>, t: string,
                                f: string)
    requires Seeded(rows) && (forall r :: r in runs <==> r in other)
    ensures var a, b := Lookup(MapAll(rows, runs, kev), t, f), Lookup(MapAll(rows, other, kev), t, f);
            a.Some? == b.Some? && (a.Some? ==> Accumulated(a.value) == Accumulated(b.value))
  {
    ColumnsAfter(rows, runs, kev, t, f);
    ColumnsAfter(rows, other, kev, t, f);
    assert MappedCves(runs, t, f) == MappedCves(other, t, f);
    assert MappedRules(runs, t, f) == MappedRules(other, t, f);
    assert Hit(runs, t, f) <==> Hit(other, t, f);
    var a, b := Lookup(MapAll(rows, runs, kev), t, f), Lookup(MapAll(rows, other, kev), t, f);
    if a.Some? {
      IncreasingUnique(a.value.cves, b.value.cves);
      IncreasingUnique(a.value.rules, b.value.rules);
    }
  }

  // ----- the status column -----

  /** The status the reports leave for the technique: the last one named. */
  function LastStatus(reports: seq<Report>, t: string): Option<Status> {
    if reports == [] then None
    else if reports[|reports| - 1].technique == t then Some(reports[|reports| - 1].status)
    else LastStatus(reports[..|reports| - 1], t)
  }

  function StatusOf(row: Option<Row>): Option<Status> {
    if row.None? then None else Some(row.value.status)
  }

  function StatusWritten(r: MapRun, t: string, f: string): Option<Status> {
    if r.framework == f then LastStatus(r.reports, t) else None
  }

  lemma {:induction false} PersistStatus(rows: seq<Row>, run: MapRun, kev: set<Cve>, t: string, f: string)
    ensures StatusOf(Lookup(Persist(rows, run, kev), t, f)) ==
            if StatusWritten(run, t, f).Some? then StatusWritten(run, t, f) else StatusOf(Lookup(rows, t, f))
    decreases |run.reports|
  {
    if run.reports != [] {
      var n := |run.reports| - 1;
      var init := run.(reports := run.reports[..n]);
      PersistStatus(rows, init, kev, t, f);
      PersistOneAt(Persist(rows, init, kev), run.reports[n], run.framework, run.cve, kev, t, f);
    }
  }

  /** The status the last run that writes the technique's row leaves. */
  function LastWritten(runs: seq<MapRun>, t: string, f: string): Option<Status> {
    if runs == [] then None
    else if StatusWritten(runs[|runs| - 1], t, f).Some? then StatusWritten(runs[|runs| - 1], t, f)
    else LastWritten(runs[..|runs| - 1], t, f)
  }

  /** After any history the status column is the last run's that writes it. */
  lemma {:induction false} MapAllStatus(rows: seq<Row>, runs: seq<MapRun>, kev: set<Cve>, t: string, f: string)
    ensures StatusOf(Lookup(MapAll(rows, runs, kev), t, f)) ==
            if LastWritten(runs, t, f).Some? then LastWritten(runs, t, f) else StatusOf(Lookup(rows, t, f))
  {
    if runs != [] {
      var init, last := runs[..|runs| - 1], runs[|runs| - 1];
      MapAllStatus(rows, init, kev, t, f);
      PersistStatus(MapAll(rows, init, kev), last, kev, t, f);
    }
  }

  lemma MapTwo(rows: seq<Row>, a: MapRun, b: MapRun, kev: set<Cve>)
    ensures MapAll(rows, [a, b], kev) == Persist(Persist(rows, a, kev), b, kev)
  {
    assert [a, b][..1] == [a] && [a][..0] == [];
    assert MapAll(rows, [a], kev) == Persist(rows, a, kev);
  }

  /** Unlike the accumulated columns the status is the last writer's: two calls commute on a technique's
      status exactly when one of them does not report it or both report the same. */
  lemma StatusCommutesIff(rows: seq<Row>, a: MapRun, b: MapRun, kev: set<Cve>, t: string, f: string)
    ensures var first, second := StatusWritten(a, t, f), StatusWritten(b, t, f);
            StatusOf(Lookup(MapAll(rows, [a, b], kev), t, f)) == StatusOf(Lookup(MapAll(rows, [b, a], kev), t, f))
            <==> first.None? || second.None? || first == second
  {
    MapTwo(rows, a, b, kev);
    MapTwo(rows, b, a, kev);
    PersistStatus(rows, a, kev, t, f);
    PersistStatus(Persist(rows, a, kev), b, kev, t, f);
    PersistStatus(rows, b, kev, t, f);
    PersistStatus(Persist(rows, b, kev), a, kev, t, f);
  }

  const GAP_OF_ONE := MapRun("attck", 1, [Report("T1", "", "", "", Gap, [], [])])
  const COVERED_FOR_TWO := MapRun("attck", 2, [Report("T1", "", "", "", Covered, [5], [])])

  /** A gap for CVE 1 and coverage for CVE 2: the order of the two runs decides the status. */
  lemma StatusDependsOnOrder(rows: seq<Row>, kev: set<Cve>)
    ensures StatusOf(Lookup(MapAll(rows, [GAP_OF_ONE, COVERED_FOR_TWO], kev), "T1", "attck"))
            != StatusOf(Lookup(MapAll(rows, [COVERED_FOR_TWO, GAP_OF_ONE], kev), "T1", "attck"))
  {
    assert StatusWritten(GAP_OF_ONE, "T1", "attck") == Some(Gap);
    assert StatusWritten(COVERED_FOR_TWO, "T1", "attck") == Some(Covered);
    StatusCommutesIff(rows, GAP_OF_ONE, COVERED_FOR_TWO, kev, "T1", "attck");
  }

  // ----- frames -----

  function RowsOf(rows: seq<Row>, framework: string): seq<Row> {
    if rows == [] then []
    else (if rows[0].framework == framework then [rows[0]] else []) + RowsOf(rows[1..], framework)
  }

  lemma {:induction false} RowsOfUpdated(rows: seq<Row>, k: nat, row: Row, g: string)
    requires k < |rows| && rows[k].framework != g && row.framework != g
    ensures RowsOf(rows[k := row], g) == RowsOf(rows, g)
    decreases |rows|
  {
    if k > 0 {
      assert rows[k := row][1..] == rows[1..][k - 1 := row];
      RowsOfUpdated(rows[1..], k - 1, row, g);
    } else {
      assert rows[k := row][1..] == rows[1..];
    }
  }

  lemma {:induction false} RowsOfAppended(rows: seq<Row>, row: Row, g: string)
    ensures RowsOf(rows + [row], g) == RowsOf(rows, g) + if row.framework == g then [row] else []
    decreases |rows|
  {
    var own := if row.framework == g then [row] else [];
    if rows == [] {
      assert (rows + [row])[1..] == [];
    } else {
      var first := if rows[0].framework == g then [rows[0]] else [];
      assert (rows + [row])[0] == rows[0] && (rows + [row])[1..] == rows[1..] + [row];
      RowsOfAppended(rows[1..], row, g);
      assert RowsOf(rows + [row], g) == first + (RowsOf(rows[1..], g) + own);
      assert first + (RowsOf(rows[1..], g) + own) == (first + RowsOf(rows[1..], g)) + own;
    }
  }

  /** A call writes rows of its own framework only. */
  lemma {:induction false} OtherFrameworksKept(rows: seq<Row>, run: MapRun, kev: set<Cve>, g: string)
    requires run.framework != g
    ensures RowsOf(Persist(rows, run, kev), g) == RowsOf(rows, g)
    decreases |run.reports|
  {
    if run.reports != [] {
      var n := |run.reports| - 1;
      var init, s := run.(reports := run.reports[..n]), run.reports[n];
      OtherFrameworksKept(rows, init, kev, g);
      var before := Persist(rows, init, kev);
      FindFinds(before, s.technique, run.framework);
      var k := Find(before, s.technique, run.framework);
      if k < |before| {
        RowsOfUpdated(before, k, Merge(before[k], s, run.cve, kev), g);
      } else {
        RowsOfAppended(before, Merge(Fresh(s, run.framework), s, run.cve, kev), g);
      }
    }
  }

  // ----- the mapper -----

  class CoverageMapper {
    var rows: seq<Row>

    method GetCoverageRow(technique: string, framework: string) returns (k: nat)
      ensures k == Find(rows, technique, framework)
    {
      k := 0;
      while k < |rows| && !IsRow(rows[k], technique, framework)
        invariant k <= |rows|
        invariant Find(rows, technique, framework) == k + Find(rows[k..], technique, framework)
      {
        k := k + 1;
      }
    }

    /** Folds one report into a row. */
    method MergeStatus(row: Row, s: Report, cve: Cve, kev: set<Cve>) returns (merged: Row)
      ensures merged == Merge(row, s, cve, kev)
    {
      var covering := Elems(row.rules);
      for i := 0 to |s.covering|
        invariant covering == Elems(row.rules) + Elems(s.covering[..i])
      {
        covering := covering + {s.covering[i]};
      }
      assert s.covering[..|s.covering|] == s.covering;
      for i := 0 to |s.partial|
        invariant covering == Elems(row.rules) + Elems(s.covering) + Elems(s.partial[..i])
      {
        covering := covering + {s.partial[i]};
      }
      assert s.partial[..|s.partial|] == s.partial;
      merged := row.(rules := SortedIds(covering));
      var cves := Elems(merged.cves) + {cve};
      merged := merged.(cves := SortedIds(cves), cveCount := |cves|);
      var count := |cves * kev|;
      merged := merged.(kevCount := count, kevExposed := count > 0, status := s.status);
      if merged.info.techniqueName == "" {
        merged := merged.(info := merged.info.(techniqueName := s.techniqueName));
      }
      if merged.info.tactic == "" {
        merged := merged.(info := merged.info.(tactic := s.tactic));
      }
      if merged.info.tacticName == "" {
        merged := merged.(info := merged.info.(tacticName := s.tacticName));
      }
    }

    method PersistStatuses(run: MapRun, kev: set<Cve>)
      modifies this
      ensures rows == Persist(old(rows), run, kev)
    {
      for i := 0 to |run.reports|
        invariant rows == Persist(old(rows), run.(reports := run.reports[..i]), kev)
      {
        var s := run.reports[i];
        assert run.reports[..i + 1][..i] == run.reports[..i];
        FindFinds(rows, s.technique, run.framework);
        var k := GetCoverageRow(s.technique, run.framework);
        if k == |rows| {
          var merged := MergeStatus(Fresh(s, run.framework), s, run.cve, kev);
          rows := rows + [merged];
        } else {
          var merged := MergeStatus(rows[k], s, run.cve, kev);
          rows := rows[k := merged];
        }
      }
      assert run.reports[..|run.reports|] == run.reports;
    }
  }
}
