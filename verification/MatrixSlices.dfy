/** What filters do to the matrix: when a tactic slice agrees with the full matrix, what narrowing the CVEs
    can change, and which filters cannot be told apart. */
module MatrixSlices {
  import opened CoverageTable
  import opened Ids
  import opened Matrix
  import opened MatrixCompute
  import opened MatrixLayout
  import opened Options
  import opened Sorting

  // ----- cells through two lenses -----

  lemma {:induction false} KeepElems(cves: seq<Cve>, only: set<Cve>)
    ensures Elems(Keep(cves, only)) == Elems(cves) * only
    ensures |Keep(cves, only)| <= |cves|
  {
    if cves != [] {
      var init, last := cves[..|cves| - 1], cves[|cves| - 1];
      KeepElems(init, only);
      assert cves == init + [last];
      ElemsConcat(init, [last]);
      ElemsConcat(Keep(init, only), if last in only then [last] else []);
      assert Elems([last]) == {last};
    }
  }

  lemma {:induction false} KeepAll(cves: seq<Cve>, only: set<Cve>)
    requires forall i :: 0 <= i < |cves| ==> cves[i] in only
    ensures Keep(cves, only) == cves
  {
    if cves != [] { KeepAll(cves[..|cves| - 1], only); }
  }

  lemma {:induction false} KeepMonotone(cves: seq<Cve>, only: set<Cve>, wider: set<Cve>)
    requires only <= wider
    ensures |Keep(cves, only)| <= |Keep(cves, wider)|
  {
    if cves != [] { KeepMonotone(cves[..|cves| - 1], only, wider); }
  }

  /** A row all of whose CVEs are selected shows its own columns: the filtered path agrees with the unfiltered one. */
  lemma AllSelectedAgrees(row: Row, only: set<Cve>, kev: set<Cve>)
    requires RowOk(row, kev) && Elems(row.cves) <= only
    ensures CellOf(row, Lens(Some(only), kev)) == CellOf(row, Lens(None, kev))
  {
    forall i | 0 <= i < |row.cves| ensures row.cves[i] in only {
      assert row.cves[i] in Elems(row.cves);
    }
    KeepAll(row.cves, only);
    assert Counts(row, Lens(Some(only), kev)) == Counts(row, Lens(None, kev)) by {
      if row.cves == [] { NoCves(row, kev); }
    }
  }

  lemma NoCves(row: Row, kev: set<Cve>)
    requires RowOk(row, kev) && row.cves == []
    ensures row.kevCount == 0 && !row.kevExposed
  {
    ElemsNonEmpty(row.cves);
    assert Elems(row.cves) * kev == {};
  }

  /** The same cell but for status, with no more CVEs and KEVs. */
  predicate Below(a: Cell, b: Cell) {
    && a == b.(status := a.status, cves := a.cves, kevs := a.kevs, kevExposed := a.kevExposed)
    && a.cves <= b.cves && a.kevs <= b.kevs && (a.kevExposed ==> b.kevExposed)
  }

  predicate Narrower(a: Lens, b: Lens) {
    a.kev == b.kev && (b.only.Some? ==> a.only.Some? && a.only.value <= b.only.value)
  }

  lemma NarrowerCell(row: Row, a: Lens, b: Lens)
    requires RowOk(row, a.kev) && Narrower(a, b)
    ensures Below(CellOf(row, a), CellOf(row, b))
  {
    if a.only.Some? {
      var here := Elems(Keep(row.cves, a.only.value)) * a.kev;
      KeepElems(row.cves, a.only.value);
      if b.only.Some? {
        KeepElems(row.cves, b.only.value);
        KeepMonotone(row.cves, a.only.value, b.only.value);
        SubsetSizes(here, Elems(Keep(row.cves, b.only.value)) * b.kev);
      } else {
        SubsetSizes(here, Elems(row.cves) * b.kev);
      }
    }
  }

  // ----- narrowing -----

  predicate LaterThan(texts: Texts, f: Option<string>, g: Option<string>) {
    Given(g) && texts.instant(g.value).Some? ==>
      Given(f) && texts.instant(f.value).Some? && texts.instant(f.value).value >= texts.instant(g.value).value
  }

  predicate EarlierThan(texts: Texts, f: Option<string>, g: Option<string>) {
    Given(g) && texts.instant(g.value).Some? ==>
      Given(f) && texts.instant(f.value).Some? && texts.instant(f.value).value <= texts.instant(g.value).value
  }

  /** `f` keeps every CVE filter of `g` and may add or tighten some. */
  predicate Tightens(texts: Texts, f: Filters, g: Filters) {
    && f.framework == g.framework && f.tactic == g.tactic
    && (Given(g.cveId) ==> f.cveId == g.cveId)
    && (g.cvssMin.Some? ==> f.cvssMin.Some? && f.cvssMin.value >= g.cvssMin.value)
    && (g.kevOnly ==> f.kevOnly)
    && (g.assessment.Some? ==> f.assessment == g.assessment)
    && LaterThan(texts, f.dateFrom, g.dateFrom) && EarlierThan(texts, f.dateTo, g.dateTo)
    && (IsUnfiltered(f) ==> IsUnfiltered(g))
  }

  lemma TightensSelects(texts: Texts, facts: Facts, f: Filters, g: Filters, c: Cve)
    requires Tightens(texts, f, g) && Selects(texts, facts, f, c)
    ensures Selects(texts, facts, g, c)
  {
    assert HasChain(facts, c, g.assessment);
  }

  lemma TightensLens(texts: Texts, facts: Facts, f: Filters, g: Filters)
    requires Tightens(texts, f, g)
    ensures Narrower(LensOf(texts, facts, f), LensOf(texts, facts, g))
  {
    forall c | c in Matching(texts, facts, f) ensures c in Matching(texts, facts, g) {
      TightensSelects(texts, facts, f, g, c);
    }
  }

  predicate CellsBelow(a: seq<Cell>, b: seq<Cell>) {
    |a| == |b| && forall i :: 0 <= i < |a| ==> Below(a[i], b[i])
  }

  lemma BelowKeepsOrder(x: Cell, y: Cell, s: Cell, t: Cell)
    requires Below(x, y) && Below(s, t)
    ensures CellLe(x, s) == CellLe(y, t)
  {
  }

  lemma PrependBelow(x: Cell, s: seq<Cell>, y: Cell, t: seq<Cell>)
    requires Below(x, y) && CellsBelow(s, t)
    ensures CellsBelow([x] + s, [y] + t)
  {
  }

  lemma {:induction false} InsertBelow(x: Cell, s: seq<Cell>, y: Cell, t: seq<Cell>)
    requires Below(x, y) && CellsBelow(s, t)
    ensures CellsBelow(Insert(x, s, CellLe), Insert(y, t, CellLe))
    decreases |s|
  {
    if s != [] {
      BelowKeepsOrder(x, y, s[0], t[0]);
    }
    if s == [] || CellLe(x, s[0]) {
      PrependBelow(x, s, y, t);
    } else {
      InsertBelow(x, s[1..], y, t[1..]);
      PrependBelow(s[0], Insert(x, s[1..], CellLe), t[0], Insert(y, t[1..], CellLe));
    }
  }

  /** Sorting depends on ids only, so it keeps cells matched. */
  lemma {:induction false} SortBelow(a: seq<Cell>, b: seq<Cell>)
    requires CellsBelow(a, b)
    ensures CellsBelow(Sort(a, CellLe), Sort(b, CellLe))
    decreases |a|
  {
    if a != [] {
      SortBelow(a[1..], b[1..]);
      InsertBelow(a[0], Sort(a[1..], CellLe), b[0], Sort(b[1..], CellLe));
    }
  }

  lemma {:induction false} BucketBelow(rows: seq<Row>, id: string, a: Lens, b: Lens)
    requires Narrower(a, b) && forall i :: 0 <= i < |rows| ==> RowOk(rows[i], a.kev)
    ensures CellsBelow(Cells(rows, id, a), Cells(rows, id, b))
  {
    if rows != [] {
      BucketBelow(rows[..|rows| - 1], id, a, b);
      NarrowerCell(rows[|rows| - 1], a, b);
    }
  }

  predicate TacticsBelow(a: seq<Tactic>, b: seq<Tactic>) {
    |a| == |b| && forall i :: 0 <= i < |a| ==>
        a[i].id == b[i].id && a[i].name == b[i].name && CellsBelow(a[i].cells, b[i].cells)
  }

  lemma ColumnsBelow(chain: KillChain, rows: seq<Row>, a: Lens, b: Lens)
    requires Narrower(a, b) && forall i :: 0 <= i < |rows| ==> RowOk(rows[i], a.kev)
    ensures TacticsBelow(Columns(chain, rows, a), Columns(chain, rows, b))
  {
    var h := Headings(chain, rows);
    ColumnsAt(h, rows, a);
    ColumnsAt(h, rows, b);
    forall i | 0 <= i < |h| ensures CellsBelow(Columns(chain, rows, a)[i].cells, Columns(chain, rows, b)[i].cells) {
      BucketBelow(rows, h[i].0, a, b);
      SortBelow(Cells(rows, h[i].0, a), Cells(rows, h[i].0, b));
    }
  }

  lemma {:induction false} SliceBelow(a: seq<Tactic>, b: seq<Tactic>, id: string)
    requires TacticsBelow(a, b)
    ensures TacticsBelow(OnlyTactic(a, id), OnlyTactic(b, id))
  {
    if a != [] {
      SliceBelow(a[..|a| - 1], b[..|b| - 1], id);
    }
  }

  lemma SelectedOk(rows: seq<Row>, f: Filters, kev: set<Cve>)
    requires TableOk(rows, kev)
    ensures forall i :: 0 <= i < |Select(rows, f)| ==> RowOk(Select(rows, f)[i], kev)
  {
    SelectedRows(rows, f);
    var s := Select(rows, f);
    forall i | 0 <= i < |s| ensures RowOk(s[i], kev) {
      assert s[i] in s;
    }
  }

  /** Adding or tightening CVE filters leaves the layout alone and never raises a cell's CVE or KEV count. */
  lemma NarrowingNeverRaises(rows: seq<Row>, texts: Texts, facts: Facts, f: Filters, g: Filters)
    requires TableOk(rows, KevSet(facts)) && Tightens(texts, f, g)
    ensures TacticsBelow(DataOf(rows, texts, facts, f).tactics, DataOf(rows, texts, facts, g).tactics)
  {
    var a, b := LensOf(texts, facts, f), LensOf(texts, facts, g);
    TightensLens(texts, facts, f, g);
    SameSelection(rows, f, g);
    SelectedOk(rows, f, KevSet(facts));
    ColumnsBelow(ENTERPRISE, Select(rows, f), a, b);
    if Given(f.tactic) {
      SliceBelow(Columns(ENTERPRISE, Select(rows, f), a), Columns(ENTERPRISE, Select(rows, f), b), f.tactic.value);
    }
  }

  lemma {:induction false} SameSelection(rows: seq<Row>, f: Filters, g: Filters)
    requires f.framework == g.framework && Given(f.tactic) == Given(g.tactic)
    requires Given(f.tactic) ==> f.tactic == g.tactic
    ensures Select(rows, f) == Select(rows, g)
  {
    if rows != [] { SameSelection(rows[..|rows| - 1], f, g); }
  }

  // ----- lenses that show the same -----

  /** Every CVE recorded in the framework's rows exists and has a chain. */
  predicate AllChained(rows: seq<Row>, facts: Facts, framework: string) {
    forall i :: 0 <= i < |rows| && rows[i].framework == framework ==>
      forall c :: c in Elems(rows[i].cves) ==> c in facts.cves && HasChain(facts, c, None)
  }

  /** No filter on CVEs takes effect. */
  predicate NoCveFilter(f: Filters) {
    && !Given(f.cveId) && !Given(f.dateFrom) && !Given(f.dateTo) && f.cvssMin.None? && !f.kevOnly && f.assessment.None?
  }

  lemma {:induction false} CellsSame(rows: seq<Row>, id: string, a: Lens, b: Lens)
    requires forall i :: 0 <= i < |rows| ==> CellOf(rows[i], a) == CellOf(rows[i], b)
    ensures Cells(rows, id, a) == Cells(rows, id, b)
  {
    if rows != [] { CellsSame(rows[..|rows| - 1], id, a, b); }
  }

  lemma {:induction false} ColumnsSame(headings: KillChain, rows: seq<Row>, a: Lens, b: Lens)
    requires forall i :: 0 <= i < |rows| ==> CellOf(rows[i], a) == CellOf(rows[i], b)
    ensures ColumnsUnder(headings, rows, a) == ColumnsUnder(headings, rows, b)
  {
    if headings != [] {
      ColumnsSame(headings[..|headings| - 1], rows, a, b);
      CellsSame(rows, headings[|headings| - 1].0, a, b);
    }
  }

  /** Without an effective CVE filter the filtered path shows what the unfiltered path shows. */
  lemma NoFilterAgrees(rows: seq<Row>, texts: Texts, facts: Facts, f: Filters)
    requires TableOk(rows, KevSet(facts)) && AllChained(rows, facts, f.framework) && NoCveFilter(f)
    ensures var s := Select(rows, f);
            forall i :: 0 <= i < |s| ==>
              CellOf(s[i], LensOf(texts, facts, f)) == CellOf(s[i], Lens(None, KevSet(facts)))
  {
    var s, only := Select(rows, f), Matching(texts, facts, f);
    SelectedRows(rows, f);
    forall i | 0 <= i < |s| ensures CellOf(s[i], LensOf(texts, facts, f)) == CellOf(s[i], Lens(None, KevSet(facts))) {
      if !IsUnfiltered(f) {
        assert s[i] in s;
        forall c | c in Elems(s[i].cves) ensures c in only {
          assert Selects(texts, facts, f, c);
        }
        AllSelectedAgrees(s[i], only, KevSet(facts));
      }
    }
  }

  // ----- the tactic slice -----

  function SliceFilters(framework: string, id: string): Filters {
    Unfiltered(framework).(tactic := Some(id))
  }

  /** The cells of a tactic's column; none when it has no column. */
  function CellsIn(tactics: seq<Tactic>, id: string): seq<Cell> {
    var only := OnlyTactic(tactics, id);
    if only == [] then [] else only[0].cells
  }

  /** A row without a tactic of its own, shown under TA-UNKNOWN. */
  predicate HasBlank(rows: seq<Row>, framework: string) {
    exists i :: 0 <= i < |rows| && rows[i].framework == framework && rows[i].info.tactic == ""
  }

  lemma CellsInColumns(chain: KillChain, rows: seq<Row>, lens: Lens, id: string)
    requires Distinct(chain)
    ensures CellsIn(Columns(chain, rows, lens), id) == Sort(Cells(rows, id, lens), CellLe)
  {
    NoTacticTwice(chain, rows);
    OnlyTacticIs(Headings(chain, rows), rows, lens, id);
    EveryTacticShown(chain, rows, id);
    if !Uses(rows, id) { UnusedIsEmpty(rows, id, lens); }
  }

  lemma FullColumn(rows: seq<Row>, texts: Texts, facts: Facts, framework: string, id: string)
    ensures var f := Unfiltered(framework);
            CellsIn(DataOf(rows, texts, facts, f).tactics, id) ==
                Sort(Cells(Select(rows, f), id, LensOf(texts, facts, f)), CellLe)
  {
    EnterpriseDistinct();
    CellsInColumns(ENTERPRISE, Select(rows, Unfiltered(framework)), LensOf(texts, facts, Unfiltered(framework)), id);
  }

  lemma CellsInOne(t: Tactic)
    ensures CellsIn([t], t.id) == t.cells
  {
    assert [t][..0] == [];
    assert OnlyTactic([], t.id) == [];
    assert OnlyTactic([t], t.id) == [t];
  }

  lemma SlicedCells(chain: KillChain, rows: seq<Row>, lens: Lens, f: Filters)
    requires Distinct(chain) && Given(f.tactic)
    ensures CellsIn(TacticsOf(chain, rows, lens, f), f.tactic.value) == Sort(CellsOf(Select(rows, f), lens), CellLe)
  {
    SliceColumn(chain, rows, lens, f);
    var tactics := TacticsOf(chain, rows, lens, f);
    if InChain(chain, f.tactic.value) || Select(rows, f) != [] {
      assert tactics == [tactics[0]];
      CellsInOne(tactics[0]);
    }
  }

  lemma SlicedColumn(rows: seq<Row>, texts: Texts, facts: Facts, framework: string, id: string)
    requires id != ""
    ensures var f := SliceFilters(framework, id);
            CellsIn(DataOf(rows, texts, facts, f).tactics, id)
            == Sort(CellsOf(Select(rows, f), LensOf(texts, facts, f)), CellLe)
  {
    var f := SliceFilters(framework, id);
    EnterpriseDistinct();
    SlicedCells(ENTERPRISE, rows, LensOf(texts, facts, f), f);
  }

  lemma ColumnAppend(rows: seq<Row>, row: Row, framework: string, id: string, lens: Lens)
    ensures Cells(Select(rows + [row], Unfiltered(framework)), id, lens) ==
            Cells(Select(rows, Unfiltered(framework)), id, lens)
            + if row.framework == framework && TacticOf(row) == id then [CellOf(row, lens)] else []
  {
    var all := Select(rows, Unfiltered(framework));
    assert (rows + [row])[..|rows|] == rows && all + [] == all;
    CellsAppend(all, row, id, lens);
  }

  lemma SliceAppend(rows: seq<Row>, row: Row, framework: string, id: string, lens: Lens)
    requires id != ""
    ensures CellsOf(Select(rows + [row], SliceFilters(framework, id)), lens) ==
            CellsOf(Select(rows, SliceFilters(framework, id)), lens)
            + if row.framework == framework && row.info.tactic == id then [CellOf(row, lens)] else []
  {
    var slice := Select(rows, SliceFilters(framework, id));
    assert (rows + [row])[..|rows|] == rows && slice + [] == slice && (slice + [row])[..|slice|] == slice;
  }

  lemma BlankAppend(rows: seq<Row>, row: Row, framework: string)
    ensures HasBlank(rows + [row], framework) <==>
        HasBlank(rows, framework) || (row.framework == framework && row.info.tactic == "")
  {
    var more := rows + [row];
    assert more[|rows|] == row;
    if HasBlank(rows, framework) {
      var i :| 0 <= i < |rows| && rows[i].framework == framework && rows[i].info.tactic == "";
      assert more[i] == rows[i];
    }
  }

  /** The slice's cells are the column's, except that blank rows belong to TA-UNKNOWN's column only. */
  lemma {:induction false} SliceCounts(rows: seq<Row>, framework: string, id: string, lens: Lens)
    requires id != ""
    ensures var all, slice := Cells(Select(rows, Unfiltered(framework)), id, lens),
        CellsOf(Select(rows, SliceFilters(framework, id)), lens);
            && (if id == UNKNOWN && HasBlank(rows, framework) then |all| > |slice| else all == slice)
  {
    if rows != [] {
      var init, last := rows[..|rows| - 1], rows[|rows| - 1];
      assert rows == init + [last];
      SliceCounts(init, framework, id, lens);
      ColumnAppend(init, last, framework, id, lens);
      SliceAppend(init, last, framework, id, lens);
      BlankAppend(init, last, framework);
    }
  }

  lemma {:induction false} CellsOfSame(rows: seq<Row>, a: Lens, b: Lens)
    requires forall i :: 0 <= i < |rows| ==> CellOf(rows[i], a) == CellOf(rows[i], b)
    ensures CellsOf(rows, a) == CellsOf(rows, b)
  {
    if rows != [] { CellsOfSame(rows[..|rows| - 1], a, b); }
  }

  /** A tactic-only slice, computed through the CVE tables, shows that tactic's column of the unfiltered
      matrix, exactly when no blank row of the framework is hiding under TA-UNKNOWN. */
  lemma SliceAgreesIff(rows: seq<Row>, texts: Texts, facts: Facts, framework: string, id: string)
    requires id != "" && TableOk(rows, KevSet(facts)) && AllChained(rows, facts, framework)
    ensures CellsIn(DataOf(rows, texts, facts, SliceFilters(framework, id)).tactics, id)
            == CellsIn(DataOf(rows, texts, facts, Unfiltered(framework)).tactics, id)
            <==> !(id == UNKNOWN && HasBlank(rows, framework))
  {
    var f, lens := SliceFilters(framework, id), LensOf(texts, facts, Unfiltered(framework));
    FullColumn(rows, texts, facts, framework, id);
    SlicedColumn(rows, texts, facts, framework, id);
    NoFilterAgrees(rows, texts, facts, f);
    CellsOfSame(Select(rows, f), LensOf(texts, facts, f), lens);
    SliceCounts(rows, framework, id, lens);
    var all, slice := Cells(Select(rows, Unfiltered(framework)), id, lens), CellsOf(Select(rows, f), lens);
    SortKeeps(all, CellLe);
    SortKeeps(slice, CellLe);
    assert |Sort(all, CellLe)| == |multiset(Sort(all, CellLe))| == |multiset(all)| == |all|;
    assert |Sort(slice, CellLe)| == |multiset(Sort(slice, CellLe))| == |multiset(slice)| == |slice|;
  }

  /** A seeded technique without a tactic: the full matrix shows it under TA-UNKNOWN, the slice of that id does not. */
  lemma UnknownSliceMisses(texts: Texts, facts: Facts)
    ensures var rows := [Blank()];
            && Seeded(rows)
            && CellsIn(DataOf(rows, texts, facts, SliceFilters("attck", UNKNOWN)).tactics, UNKNOWN)
               != CellsIn(DataOf(rows, texts, facts, Unfiltered("attck")).tactics, UNKNOWN)
  {
    var rows := [Blank()];
    SeededView(rows, KevSet(facts), "T1", "attck");
    assert rows[0].framework == "attck" && rows[0].info.tactic == "";
    assert HasBlank(rows, "attck");
    ElemsNonEmpty(rows[0].cves);
    assert UNKNOWN[0] == 'T';
    SliceAgreesIff(rows, texts, facts, "attck", UNKNOWN);
  }

  function Blank(): Row {
    Row("T1", "attck", Info("", "", "", "", "", false), NoData, [], [], 0, 0, false)
  }

  // ----- filters with the same effect -----

  /** Equal once empty texts count as absent. */
  predicate SameEffect(f: Filters, g: Filters) {
    && f.framework == g.framework && f.cvssMin == g.cvssMin && f.kevOnly == g.kevOnly && f.assessment == g.assessment
    && SameText(f.cveId, g.cveId) && SameText(f.dateFrom, g.dateFrom) && SameText(f.dateTo, g.dateTo)
      && SameText(f.tactic, g.tactic)
  }

  predicate SameText(a: Option<string>, b: Option<string>) {
    Given(a) == Given(b) && (Given(a) ==> a == b)
  }

  lemma SameEffectMatching(texts: Texts, facts: Facts, f: Filters, g: Filters)
    requires SameEffect(f, g)
    ensures Matching(texts, facts, f) == Matching(texts, facts, g)
  {
    forall c | c in facts.cves ensures Selects(texts, facts, f, c) <==> Selects(texts, facts, g, c) {
      assert HasChain(facts, c, f.assessment) == HasChain(facts, c, g.assessment);
    }
  }

  /** Filters that differ only in absent against empty texts compute the same matrix, even where one takes the
      unfiltered path and the other does not. */
  lemma SameEffectSameMatrix(rows: seq<Row>, texts: Texts, facts: Facts, f: Filters, g: Filters)
    requires TableOk(rows, KevSet(facts)) && AllChained(rows, facts, f.framework) && SameEffect(f, g)
    ensures DataOf(rows, texts, facts, f) == DataOf(rows, texts, facts, g).(applied := f)
  {
    var a, b := LensOf(texts, facts, f), LensOf(texts, facts, g);
    var s := Select(rows, f);
    SameSelection(rows, f, g);
    SameEffectMatching(texts, facts, f, g);
    if IsUnfiltered(f) != IsUnfiltered(g) {
      NoFilterAgrees(rows, texts, facts, f);
      NoFilterAgrees(rows, texts, facts, g);
    }
    ColumnsSame(Headings(ENTERPRISE, s), s, a, b);
  }
}
