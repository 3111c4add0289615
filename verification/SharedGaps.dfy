/** The shared-gap count of the priority score: how many other CVEs are said to share a technique's gap. */
module SharedGaps {
  import opened CoverageTable
  import opened Ids
  import opened Options

  /** The row whose CVEs are counted: the last gap row of the technique the query returns, whatever its framework. */
  function LastGap(rows: seq<Row>, t: string): Option<Row> {
    if rows == [] then None
    else
      var last := rows[|rows| - 1];
      if last.technique == t && last.status == Gap then Some(last) else LastGap(rows[..|rows| - 1], t)
  }

  /** How many other CVEs share the gap, as the priority score takes it. */
  function SharedGapCount(rows: seq<Row>, t: string, cve: Cve): nat {
    var row := LastGap(rows, t);
    if row.None? then 0
    else if cve in row.value.cves then |row.value.cves| - 1 else |row.value.cves|
  }

  lemma SharedGapCountExact(fetched: seq<Row>, t: string, cve: Cve, kev: set<Cve>)
    requires LastGap(fetched, t).Some? && RowOk(LastGap(fetched, t).value, kev)
    ensures SharedGapCount(fetched, t, cve) == |Elems(LastGap(fetched, t).value.cves) - {cve}|
  {
    var cves := Elems(LastGap(fetched, t).value.cves);
    if cve in cves {
      assert cves == (cves - {cve}) + {cve};
    } else {
      assert cves - {cve} == cves;
    }
  }

  lemma {:induction false} LastGapIsLast(rows: seq<Row>, t: string, k: nat)
    requires k < |rows| && rows[k].technique == t && rows[k].status == Gap
    requires forall i :: k < i < |rows| && rows[i].technique == t ==> rows[i].status != Gap
    ensures LastGap(rows, t) == Some(rows[k])
    decreases |rows|
  {
    if k < |rows| - 1 {
      LastGapIsLast(rows[..|rows| - 1], t, k);
    }
  }

  lemma {:induction false} LastGapFound(rows: seq<Row>, t: string) returns (k: nat)
    requires LastGap(rows, t).Some?
    ensures k < |rows| && LastGap(rows, t) == Some(rows[k]) && rows[k].technique == t && rows[k].status == Gap
    ensures forall i :: k < i < |rows| && rows[i].technique == t ==> rows[i].status != Gap
    decreases |rows|
  {
    k := |rows| - 1;
    if rows[k].technique != t || rows[k].status != Gap {
      k := LastGapFound(rows[..|rows| - 1], t);
    }
  }

  /** The row counted is the one of the framework being mapped exactly when that row is a gap and no gap
      row of another framework for the same technique comes after it. */
  lemma CountsOwnFrameworkIff(rows: seq<Row>, k: nat, t: string, kev: set<Cve>)
    requires TableOk(rows, kev) && k < |rows| && rows[k].technique == t
    ensures LastGap(rows, t) == Some(rows[k]) <==>
            rows[k].status == Gap && forall i :: k < i < |rows| && rows[i].technique == t ==> rows[i].status != Gap
  {
    if LastGap(rows, t) == Some(rows[k]) {
      var j := LastGapFound(rows, t);
      assert j == k;
    } else if rows[k].status == Gap && forall i :: k < i < |rows| && rows[i].technique == t ==> rows[i].status != Gap {
      LastGapIsLast(rows, t, k);
    }
  }

  lemma GapRowOk(framework: string, cves: seq<Cve>)
    requires Increasing(cves) && cves != []
    ensures RowOk(GapRow(framework, cves), {})
  {
    SortedIdsLists(Elems(cves));
    SortedIdsElems(Elems(cves));
    IncreasingUnique(cves, SortedIds(Elems(cves)));
    assert Elems(cves) * {} == {};
  }

  function GapRow(framework: string, cves: seq<Cve>): Row {
    Row("T1", framework, Info("", "", "", "", "", false), Gap, [], cves, |cves|, 0, false)
  }

  /** Two frameworks that both have the technique as a gap: the second one's CVEs are counted for the first. */
  lemma CountsAnotherFramework()
    ensures var rows := [GapRow("attck", [9]), GapRow("other", [7, 8])];
            && TableOk(rows, {})
            && Elems(rows[0].cves) - {9} == {}
            && SharedGapCount(rows, "T1", 9) == 2
  {
    var rows := [GapRow("attck", [9]), GapRow("other", [7, 8])];
    GapRowOk("attck", [9]);
    GapRowOk("other", [7, 8]);
    assert "attck"[0] != "other"[0];
    assert LastGap(rows, "T1") == Some(rows[1]);
  }

  /** The CVEs one of whose runs reported the technique as a gap. */
  function GapCves(runs: seq<MapRun>, t: string, f: string): set<Cve> {
    set r | r in runs && Hits(r, t, f) && LastStatus(r.reports, t) == Some(Gap) :: r.cve
  }

  // ----- any order of the rows -----

  predicate IsGap(r: Row, t: string) {
    r.technique == t && r.status == Gap
  }

  ghost predicate HasGap(rows: seq<Row>, t: string) {
    exists r :: r in rows && IsGap(r, t)
  }

  /** The query has no order: the row counted is some gap row of the technique, one if the table has one. */
  lemma CountedIsGap(rows: seq<Row>, fetched: seq<Row>, t: string)
    requires multiset(fetched) == multiset(rows)
    ensures LastGap(fetched, t).Some? <==> HasGap(rows, t)
    ensures LastGap(fetched, t).Some? ==> LastGap(fetched, t).value in rows && IsGap(LastGap(fetched, t).value, t)
  {
    if LastGap(fetched, t).Some? {
      var k := LastGapFound(fetched, t);
      assert fetched[k] in multiset(rows) && IsGap(fetched[k], t);
      assert fetched[k] in rows;
    }
    if r :| r in rows && IsGap(r, t) {
      assert r in multiset(fetched);
      var k :| 0 <= k < |fetched| && fetched[k] == r;
      GapIsFound(fetched, t, k);
    }
  }

  lemma {:induction false} GapIsFound(rows: seq<Row>, t: string, k: nat)
    requires k < |rows| && IsGap(rows[k], t)
    ensures LastGap(rows, t).Some?
    decreases |rows|
  {
    if k < |rows| - 1 { GapIsFound(rows[..|rows| - 1], t, k); }
  }

  /** Every gap row of the technique is the one counted under some order. */
  lemma AnyGapMayCount(rows: seq<Row>, t: string, r: Row) returns (fetched: seq<Row>)
    requires r in rows && IsGap(r, t)
    ensures multiset(fetched) == multiset(rows) && LastGap(fetched, t) == Some(r)
  {
    var k :| 0 <= k < |rows| && rows[k] == r;
    assert rows == rows[..k] + ([r] + rows[k + 1..]);
    fetched := rows[..k] + rows[k + 1..] + [r];
  }

  function CountOf(r: Row, cve: Cve): nat {
    if cve in r.cves then |r.cves| - 1 else |r.cves|
  }

  ghost predicate OrderFree(rows: seq<Row>, t: string, cve: Cve) {
    forall fetched :: multiset(fetched) == multiset(rows) ==>
      SharedGapCount(fetched, t, cve) == SharedGapCount(rows, t, cve)
  }

  /** The count does not depend on the order of the rows exactly when all gap rows of the technique, one for each
      framework that gaps it, give the same count. */
  lemma CountOrderFreeIff(rows: seq<Row>, t: string, cve: Cve)
    ensures OrderFree(rows, t, cve) <==>
            forall r, q :: r in rows && q in rows && IsGap(r, t) && IsGap(q, t) ==> CountOf(r, cve) == CountOf(q, cve)
  {
    if OrderFree(rows, t, cve) {
      forall r, q | r in rows && q in rows && IsGap(r, t) && IsGap(q, t) ensures CountOf(r, cve) == CountOf(q, cve) {
        var one := AnyGapMayCount(rows, t, r);
        var other := AnyGapMayCount(rows, t, q);
        assert SharedGapCount(one, t, cve) == SharedGapCount(rows, t, cve) == SharedGapCount(other, t, cve);
      }
    }
    if forall r, q :: r in rows && q in rows && IsGap(r, t) && IsGap(q, t) ==> CountOf(r, cve) == CountOf(q, cve) {
      forall fetched | multiset(fetched) == multiset(rows)
        ensures SharedGapCount(fetched, t, cve) == SharedGapCount(rows, t, cve)
      {
        CountedIsGap(rows, fetched, t);
        CountedIsGap(rows, rows, t);
      }
    }
  }

  // ----- over whole histories -----

  lemma GapIsLookedUp(rows: seq<Row>, r: Row, kev: set<Cve>)
    requires TableOk(rows, kev) && r in rows
    ensures Lookup(rows, r.technique, r.framework) == Some(r) && RowOk(r, kev)
  {
    var k :| 0 <= k < |rows| && rows[k] == r;
    FindFinds(rows, r.technique, r.framework);
  }

  /** A framework's row is a gap exactly when the last run that wrote the technique there reported a gap. */
  lemma GapIsLastWritten(rows: seq<Row>, runs: seq<MapRun>, kev: set<Cve>, t: string, g: string)
    requires Seeded(rows)
    ensures StatusOf(Lookup(MapAll(rows, runs, kev), t, g)) == Some(Gap) <==> LastWritten(runs, t, g) == Some(Gap)
  {
    MapAllStatus(rows, runs, kev, t, g);
    FindFinds(rows, t, g);
  }

  lemma NoGapLookedUp(table: seq<Row>, t: string, g: string)
    requires !HasGap(table, t)
    ensures StatusOf(Lookup(table, t, g)) != Some(Gap)
  {
    FindFinds(table, t, g);
    var k := Find(table, t, g);
    if k < |table| { assert table[k] in table && !IsGap(table[k], t); }
  }

  /** Which rows may be counted, told from the runs. */
  lemma CountedFromRuns(rows: seq<Row>, runs: seq<MapRun>, kev: set<Cve>, fetched: seq<Row>, t: string)
    requires Seeded(rows) && multiset(fetched) == multiset(MapAll(rows, runs, kev))
    ensures LastGap(fetched, t).Some? ==> LastWritten(runs, t, LastGap(fetched, t).value.framework) == Some(Gap)
    ensures LastGap(fetched, t).None? ==> forall g :: LastWritten(runs, t, g) != Some(Gap)
  {
    var table := MapAll(rows, runs, kev);
    SeededView(rows, kev, t, "");
    MapAllOk(rows, runs, kev);
    CountedIsGap(table, fetched, t);
    if LastGap(fetched, t).Some? {
      var r := LastGap(fetched, t).value;
      GapIsLookedUp(table, r, kev);
      GapIsLastWritten(rows, runs, kev, t, r.framework);
    } else {
      forall g ensures LastWritten(runs, t, g) != Some(Gap) {
        GapIsLastWritten(rows, runs, kev, t, g);
        NoGapLookedUp(table, t, g);
      }
    }
  }

  /** With no gap row left the count is 0, which undercounts exactly when some other CVE reported a gap. */
  lemma NoGapRowCounts(fetched: seq<Row>, runs: seq<MapRun>, t: string, f: string, cve: Cve)
    requires LastGap(fetched, t).None?
    ensures SharedGapCount(fetched, t, cve) == 0
    ensures SharedGapCount(fetched, t, cve) == |GapCves(runs, t, f) - {cve}| <==> GapCves(runs, t, f) <= {cve}
  {
    var others := GapCves(runs, t, f) - {cve};
    assert |others| == 0 <==> others == {};
    assert others == {} <==> GapCves(runs, t, f) <= {cve};
  }

  /** With a gap row the count takes in every other CVE mapped to it, gap or not. */
  lemma GapRowCounts(rows: seq<Row>, runs: seq<MapRun>, kev: set<Cve>, fetched: seq<Row>, t: string, cve: Cve)
    requires Seeded(rows) && multiset(fetched) == multiset(MapAll(rows, runs, kev)) && LastGap(fetched, t).Some?
    ensures var g := LastGap(fetched, t).value.framework;
            var count := SharedGapCount(fetched, t, cve);
            && count == |MappedCves(runs, t, g) - {cve}|
            && count >= |GapCves(runs, t, g) - {cve}|
            && (count == |GapCves(runs, t, g) - {cve}| <==> MappedCves(runs, t, g) - {cve} <= GapCves(runs, t, g))
  {
    var table, r := MapAll(rows, runs, kev), LastGap(fetched, t).value;
    SeededView(rows, kev, t, r.framework);
    MapAllOk(rows, runs, kev);
    CountedIsGap(table, fetched, t);
    GapIsLookedUp(table, r, kev);
    ColumnsAfter(rows, runs, kev, t, r.framework);
    SharedGapCountExact(fetched, t, cve, kev);
    SubsetSizes(GapCves(runs, t, r.framework) - {cve}, MappedCves(runs, t, r.framework) - {cve});
  }

  /** Over any history, whatever order the rows come in and whichever row is counted.  With no gap row left, which is
      when no framework's last report is a gap, the count is 0, right exactly when no other CVE reported a gap in
      framework `f`.  Otherwise some framework whose last report is a gap is counted, with the number of other CVEs
      mapped there; when that is `f` the count is never too low, and right exactly when all of them reported a gap. */
  lemma CountsGapsIff(rows: seq<Row>, runs: seq<MapRun>, kev: set<Cve>, fetched: seq<Row>,
                      t: string, f: string, cve: Cve)
    requires Seeded(rows) && multiset(fetched) == multiset(MapAll(rows, runs, kev))
    ensures var counted := LastGap(fetched, t);
            var count, gaps := SharedGapCount(fetched, t, cve), |GapCves(runs, t, f) - {cve}|;
            && (counted.None? ==>
                  && (forall g :: LastWritten(runs, t, g) != Some(Gap))
                  && count == 0 && (count == gaps <==> GapCves(runs, t, f) <= {cve}))
            && (counted.Some? ==>
                  && LastWritten(runs, t, counted.value.framework) == Some(Gap)
                  && count == |MappedCves(runs, t, counted.value.framework) - {cve}|)
            && (counted.Some? && counted.value.framework == f ==>
                  count >= gaps && (count == gaps <==> MappedCves(runs, t, f) - {cve} <= GapCves(runs, t, f)))
  {
    CountedFromRuns(rows, runs, kev, fetched, t);
    if LastGap(fetched, t).None? {
      NoGapRowCounts(fetched, runs, t, f, cve);
    } else {
      GapRowCounts(rows, runs, kev, fetched, t, cve);
    }
  }

  lemma PersistSingle(rows: seq<Row>, run: MapRun, kev: set<Cve>)
    requires |run.reports| == 1
    ensures Persist(rows, run, kev) == PersistOne(rows, run.reports[0], run.framework, run.cve, kev)
  {
    assert run.reports[..0] == [];
    assert Persist(rows, run.(reports := []), kev) == rows;
  }

  lemma PersistIntoEmpty(s: Report, framework: string, cve: Cve, kev: set<Cve>)
    ensures PersistOne([], s, framework, cve, kev) == [Merge(Fresh(s, framework), s, cve, kev)]
  {
  }

  lemma PersistIntoOnly(row: Row, s: Report, framework: string, cve: Cve, kev: set<Cve>)
    requires IsRow(row, s.technique, framework)
    ensures PersistOne([row], s, framework, cve, kev) == [Merge(row, s, cve, kev)]
  {
  }

  /** The undercount: CVE 1 reports a gap, CVE 2 is covered and so ends the gap row, and CVE 3 counts nobody. */
  lemma UndercountsAfterCover()
    ensures var runs := [GAP_OF_ONE, COVERED_FOR_TWO];
            && SharedGapCount(MapAll([], runs, {}), "T1", 3) == 0
            && GapCves(runs, "T1", "attck") == {1}
  {
    var s1, s2 := GAP_OF_ONE.reports[0], COVERED_FOR_TWO.reports[0];
    var first := Merge(Fresh(s1, "attck"), s1, 1, {});
    MapTwo([], GAP_OF_ONE, COVERED_FOR_TWO, {});
    PersistSingle([], GAP_OF_ONE, {});
    PersistIntoEmpty(s1, "attck", 1, {});
    PersistSingle([first], COVERED_FOR_TWO, {});
    PersistIntoOnly(first, s2, "attck", 2, {});
    OnlyCovered(Merge(first, s2, 2, {}), "T1");
    OneGap();
  }

  lemma OnlyCovered(row: Row, t: string)
    requires row.status != Gap
    ensures LastGap([row], t) == None
  {
    assert [row][..0] == [];
  }

  lemma OneGap()
    ensures GapCves([GAP_OF_ONE, COVERED_FOR_TWO], "T1", "attck") == {1}
  {
    var runs := [GAP_OF_ONE, COVERED_FOR_TWO];
    assert Mentions(GAP_OF_ONE.reports, "T1") by { assert GAP_OF_ONE.reports[0].technique == "T1"; }
    assert Hits(runs[0], "T1", "attck") && LastStatus(runs[0].reports, "T1") == Some(Gap);
    assert LastStatus(runs[1].reports, "T1") == Some(Covered);
    assert forall r :: r in runs ==> r == GAP_OF_ONE || r == COVERED_FOR_TWO;
  }
}
