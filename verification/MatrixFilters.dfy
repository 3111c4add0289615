/** What a cell shows under each filter, said in terms of the CVE and chain tables. */
module MatrixFilters {
  import opened CoverageTable
  import opened Ids
  import opened Matrix
  import opened MatrixLayout
  import opened MatrixSlices
  import opened Options

  // ----- one cell -----

  /** The cell of a row when `kept` are the recorded CVEs left by the filters: it counts them and the KEVs among them,
      and shows the row's status if one is left; if none is, only a covered row with rules still shows covered. */
  ghost predicate Shows(c: Cell, row: Row, facts: Facts, kept: set<Cve>) {
    && c.technique == row.technique && c.name == row.info.techniqueName && c.subTechnique == row.info.subTechnique
    && c.parent == row.info.parent && c.hasSubtechniques == row.info.hasSubtechniques && c.rules == |row.rules|
    && c.cves == |kept|
    && c.kevs == |set x | x in kept && x in facts.cves && facts.cves[x].kev|
    && (c.kevExposed <==> exists x :: x in kept && x in facts.cves && facts.cves[x].kev)
    && c.status == if kept != {} then row.status
                   else if row.status == Covered && row.rules != [] then Covered else NoData
  }

  lemma {:induction false} KeepIncreasing(cves: seq<Cve>, only: set<Cve>)
    requires Increasing(cves)
    ensures Increasing(Keep(cves, only))
    ensures forall x :: x in Keep(cves, only) ==> x in cves
  {
    if cves != [] {
      var init, last := cves[..|cves| - 1], cves[|cves| - 1];
      KeepIncreasing(init, only);
      var kept := Keep(init, only);
      forall i | 0 <= i < |kept| ensures kept[i] < last {
        assert kept[i] in init;
      }
    }
  }

  lemma IncreasingSize(ids: seq<nat>)
    requires Increasing(ids)
    ensures |ids| == |Elems(ids)|
  {
    SortedIdsLists(Elems(ids));
    SortedIdsElems(Elems(ids));
    IncreasingUnique(ids, SortedIds(Elems(ids)));
  }

  /** Of a list without repetitions as many elements are kept as are selected. */
  lemma KeepCounts(cves: seq<Cve>, only: set<Cve>)
    requires Increasing(cves)
    ensures Elems(Keep(cves, only)) == Elems(cves) * only && |Keep(cves, only)| == |Elems(cves) * only|
  {
    KeepElems(cves, only);
    KeepIncreasing(cves, only);
    IncreasingSize(Keep(cves, only));
  }

  lemma KevsCount(facts: Facts, kept: set<Cve>)
    ensures kept * KevSet(facts) == set x | x in kept && x in facts.cves && facts.cves[x].kev
    ensures |kept * KevSet(facts)| > 0 <==> exists x :: x in kept && x in facts.cves && facts.cves[x].kev
  {
    var kevs := kept * KevSet(facts);
    assert forall x :: x in kevs <==> x in kept && x in facts.cves && facts.cves[x].kev;
    assert |kevs| > 0 <==> kevs != {};
  }

  /** Through a lens a cell shows the recorded CVEs the lens lets by. */
  lemma LensShows(row: Row, facts: Facts, only: set<Cve>)
    requires RowOk(row, KevSet(facts))
    ensures Shows(CellOf(row, Lens(Some(only), KevSet(facts))), row, facts, Elems(row.cves) * only)
  {
    var kept := Elems(row.cves) * only;
    KeepCounts(row.cves, only);
    ElemsNonEmpty(Keep(row.cves, only));
    KevsCount(facts, kept);
  }

  /** Without any filter a cell shows the row's own columns, which are all recorded CVEs; a row without CVEs shows
      no_data either way. */
  lemma UnfilteredShows(row: Row, texts: Texts, facts: Facts, framework: string)
    requires RowOk(row, KevSet(facts))
    ensures Shows(CellOf(row, LensOf(texts, facts, Unfiltered(framework))), row, facts, Elems(row.cves))
  {
    KevsCount(facts, Elems(row.cves));
    ElemsNonEmpty(row.cves);
  }

  // ----- one filter at a time -----

  /** Some chain of the CVE is recorded, under the assessment if one is asked for. */
  ghost predicate Chained(facts: Facts, x: Cve, assessment: Option<nat>) {
    exists chain :: chain in facts.chains && chain.cve == x && (assessment == None || chain.assessment == assessment)
  }

  lemma ChainedIs(facts: Facts, x: Cve, assessment: Option<nat>)
    ensures Chained(facts, x, assessment) <==> HasChain(facts, x, assessment)
  {
    if Chained(facts, x, assessment) {
      var chain :| chain in facts.chains && chain.cve == x && (assessment == None || chain.assessment == assessment);
      var i :| 0 <= i < |facts.chains| && facts.chains[i] == chain;
    }
    if HasChain(facts, x, assessment) {
      var i :| 0 <= i < |facts.chains| && facts.chains[i].cve == x
               && (assessment.Some? ==> facts.chains[i].assessment == assessment);
      assert facts.chains[i] in facts.chains;
    }
  }

  /** The recorded CVEs that exist and have a chain. */
  ghost function Known(row: Row, facts: Facts): set<Cve> {
    set x | x in Elems(row.cves) && x in facts.cves && Chained(facts, x, None)
  }

  lemma FilterShows(row: Row, texts: Texts, facts: Facts, f: Filters, kept: set<Cve>)
    requires RowOk(row, KevSet(facts)) && !IsUnfiltered(f)
    requires forall x :: x in kept <==> x in Elems(row.cves) && x in facts.cves && Selects(texts, facts, f, x)
    ensures Shows(CellOf(row, LensOf(texts, facts, f)), row, facts, kept)
  {
    assert Elems(row.cves) * Matching(texts, facts, f) == kept;
    LensShows(row, facts, Matching(texts, facts, f));
  }

  /** `f` filters by no more than framework and tactic. */
  predicate Plain(f: Filters) {
    f == Unfiltered(f.framework).(tactic := f.tactic)
  }

  lemma TacticShows(row: Row, texts: Texts, facts: Facts, f: Filters)
    requires RowOk(row, KevSet(facts)) && Plain(f) && f.tactic.Some?
    ensures Shows(CellOf(row, LensOf(texts, facts, f)), row, facts, Known(row, facts))
  {
    forall x ensures Chained(facts, x, None) == HasChain(facts, x, None) { ChainedIs(facts, x, None); }
    FilterShows(row, texts, facts, f, Known(row, facts));
  }

  lemma CveIdShows(row: Row, texts: Texts, facts: Facts, f: Filters, id: string)
    requires RowOk(row, KevSet(facts)) && Plain(f) && id != ""
    ensures Shows(CellOf(row, LensOf(texts, facts, f.(cveId := Some(id)))), row, facts,
                  set x | x in Known(row, facts) && facts.cves[x].textId == texts.upper(id))
  {
    forall x ensures Chained(facts, x, None) == HasChain(facts, x, None) { ChainedIs(facts, x, None); }
    FilterShows(row, texts, facts, f.(cveId := Some(id)),
                set x | x in Known(row, facts) && facts.cves[x].textId == texts.upper(id));
  }

  lemma CvssShows(row: Row, texts: Texts, facts: Facts, f: Filters, min: real)
    requires RowOk(row, KevSet(facts)) && Plain(f)
    ensures Shows(CellOf(row, LensOf(texts, facts, f.(cvssMin := Some(min)))), row, facts,
                  set x | x in Known(row, facts) && facts.cves[x].cvss.Some? && facts.cves[x].cvss.value >= min)
  {
    forall x ensures Chained(facts, x, None) == HasChain(facts, x, None) { ChainedIs(facts, x, None); }
    FilterShows(row, texts, facts, f.(cvssMin := Some(min)),
                set x | x in Known(row, facts) && facts.cves[x].cvss.Some? && facts.cves[x].cvss.value >= min);
  }

  lemma KevOnlyShows(row: Row, texts: Texts, facts: Facts, f: Filters)
    requires RowOk(row, KevSet(facts)) && Plain(f)
    ensures var c := CellOf(row, LensOf(texts, facts, f.(kevOnly := true)));
            Shows(c, row, facts, set x | x in Known(row, facts) && facts.cves[x].kev) && c.cves == c.kevs
  {
    forall x ensures Chained(facts, x, None) == HasChain(facts, x, None) { ChainedIs(facts, x, None); }
    var kept := set x | x in Known(row, facts) && facts.cves[x].kev;
    FilterShows(row, texts, facts, f.(kevOnly := true), kept);
    assert (set x | x in kept && x in facts.cves && facts.cves[x].kev) == kept;
  }

  /** A date bound keeps the CVEs published on the right side of it, the bound included; one that is not a date keeps
      all. */
  lemma DateFromShows(row: Row, texts: Texts, facts: Facts, f: Filters, date: string)
    requires RowOk(row, KevSet(facts)) && Plain(f) && date != ""
    ensures Shows(CellOf(row, LensOf(texts, facts, f.(dateFrom := Some(date)))), row, facts,
                  set x | x in Known(row, facts) &&
                    (texts.instant(date).None? ||
                     (facts.cves[x].published.Some? && texts.instant(date).value <= facts.cves[x].published.value)))
  {
    forall x ensures Chained(facts, x, None) == HasChain(facts, x, None) { ChainedIs(facts, x, None); }
    FilterShows(row, texts, facts, f.(dateFrom := Some(date)),
                set x | x in Known(row, facts) &&
                  (texts.instant(date).None? ||
                   (facts.cves[x].published.Some? && texts.instant(date).value <= facts.cves[x].published.value)));
  }

  lemma DateToShows(row: Row, texts: Texts, facts: Facts, f: Filters, date: string)
    requires RowOk(row, KevSet(facts)) && Plain(f) && date != ""
    ensures Shows(CellOf(row, LensOf(texts, facts, f.(dateTo := Some(date)))), row, facts,
                  set x | x in Known(row, facts) &&
                    (texts.instant(date).None? ||
                     (facts.cves[x].published.Some? && facts.cves[x].published.value <= texts.instant(date).value)))
  {
    forall x ensures Chained(facts, x, None) == HasChain(facts, x, None) { ChainedIs(facts, x, None); }
    FilterShows(row, texts, facts, f.(dateTo := Some(date)),
                set x | x in Known(row, facts) &&
                  (texts.instant(date).None? ||
                   (facts.cves[x].published.Some? && facts.cves[x].published.value <= texts.instant(date).value)));
  }

  lemma AssessmentShows(row: Row, texts: Texts, facts: Facts, f: Filters, a: nat)
    requires RowOk(row, KevSet(facts)) && Plain(f)
    ensures Shows(CellOf(row, LensOf(texts, facts, f.(assessment := Some(a)))), row, facts,
                  set x | x in Elems(row.cves) && x in facts.cves && Chained(facts, x, Some(a)))
  {
    forall x ensures Chained(facts, x, Some(a)) == HasChain(facts, x, Some(a)) { ChainedIs(facts, x, Some(a)); }
    FilterShows(row, texts, facts, f.(assessment := Some(a)),
                set x | x in Elems(row.cves) && x in facts.cves && Chained(facts, x, Some(a)));
  }

  // ----- filters together -----

  /** Filters add up: together they select what each of them selects alone. */
  lemma FiltersCompose(texts: Texts, facts: Facts, f: Filters)
    ensures var none := Unfiltered(f.framework);
            Matching(texts, facts, f) ==
            Matching(texts, facts, none.(cveId := f.cveId)) * Matching(texts, facts, none.(cvssMin := f.cvssMin))
            * Matching(texts, facts, none.(kevOnly := f.kevOnly))
            * Matching(texts, facts, none.(dateFrom := f.dateFrom))
            * Matching(texts, facts, none.(dateTo := f.dateTo))
            * Matching(texts, facts, none.(assessment := f.assessment))
  {
    forall x ensures HasChain(facts, x, f.assessment) ==> HasChain(facts, x, None) {
      ChainedIs(facts, x, f.assessment);
      ChainedIs(facts, x, None);
    }
  }

  // ----- the matrix -----

  /** The matrix holds the cell of every row of the framework, of the tactic if one is asked for, and no other cell. */
  lemma MatrixShows(rows: seq<Row>, texts: Texts, facts: Facts, f: Filters, c: Cell)
    ensures c in AllCells(DataOf(rows, texts, facts, f).tactics) <==>
            exists r :: r in rows && r.framework == f.framework
                        && (f.tactic.Some? && f.tactic.value != "" ==> r.info.tactic == f.tactic.value)
                        && c == CellOf(r, LensOf(texts, facts, f))
  {
    MatrixHas(rows, texts, facts, f, c);
  }
}
