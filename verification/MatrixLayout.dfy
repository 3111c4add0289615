/** How the matrix is laid out: every selected row becomes one cell, tactics and families keep their order,
    and none of it depends on the order in which the query returns the rows. */
module MatrixLayout {
  import opened CoverageTable
  import opened Matrix
  import opened MatrixCompute
  import opened Sorting

  // ----- the orders -----

  lemma StringOrder()
    ensures TotalPreorder(StringLe)
    ensures forall x, y :: StringLe(x, y) && StringLe(y, x) ==> x == y
  {
    forall x, y ensures StringLe(x, y) || StringLe(y, x) ensures StringLe(x, y) && StringLe(y, x) ==> x == y {
      StringLeTotal(x, y);
    }
    forall x, y, z | StringLe(x, y) && StringLe(y, z) ensures StringLe(x, z) {
      StringLeTransitive(x, y, z);
    }
  }

  lemma CellOrder()
    ensures TotalPreorder(CellLe)
  {
    StringOrder();
    forall x, y ensures CellLe(x, y) || CellLe(y, x) {
      StringLeTotal(Family(x), Family(y));
      StringLeTotal(x.technique, y.technique);
    }
    forall x, y, z | CellLe(x, y) && CellLe(y, z) ensures CellLe(x, z) {
      StringLeTransitive(Family(x), Family(y), Family(z));
      if Family(x) == Family(z) {
        StringLeTotal(Family(x), Family(y));
        StringLeTransitive(x.technique, y.technique, z.technique);
      }
    }
  }

  // ----- families -----

  /** The cell belongs to the family of a technique: it names it as its parent, or it is that technique and names
      none. */
  predicate InFamily(c: Cell, root: string) {
    if c.parent != "" then c.parent == root else c.technique == root
  }

  /** In a column the families stand in the order of their roots, the members of each together. */
  lemma FamiliesTogether(rows: seq<Row>, id: string, name: string, lens: Lens, i: nat, j: nat, k: nat, root: string)
    requires i < j < k < |Column(rows, id, name, lens).cells|
    ensures var cells := Column(rows, id, name, lens).cells;
            InFamily(cells[i], root) && InFamily(cells[k], root) ==> InFamily(cells[j], root)
  {
    CellOrder();
    SortSorts(Cells(rows, id, lens), CellLe);
    var cells := Column(rows, id, name, lens).cells;
    assert CellLe(cells[i], cells[j]) && CellLe(cells[j], cells[k]);
    StringLeTotal(Family(cells[i]), Family(cells[j]));
  }

  lemma FamiliesOrdered(rows: seq<Row>, id: string, name: string, lens: Lens, i: nat, j: nat, root: string,
                        other: string)
    requires i < j < |Column(rows, id, name, lens).cells|
    requires var cells := Column(rows, id, name, lens).cells; InFamily(cells[i], root) && InFamily(cells[j], other)
    ensures StringLe(root, other)
  {
    CellOrder();
    SortSorts(Cells(rows, id, lens), CellLe);
    assert CellLe(Column(rows, id, name, lens).cells[i], Column(rows, id, name, lens).cells[j]);
  }

  /** Within a family, techniques stand in the order of their ids. */
  lemma FamilyOrder(rows: seq<Row>, id: string, name: string, lens: Lens, i: nat, j: nat, root: string)
    requires i < |Column(rows, id, name, lens).cells| && j < |Column(rows, id, name, lens).cells|
    requires var cells := Column(rows, id, name, lens).cells;
             InFamily(cells[i], root) && InFamily(cells[j], root) && cells[i].technique != cells[j].technique
    ensures var cells := Column(rows, id, name, lens).cells;
            i < j <==> StringLe(cells[i].technique, cells[j].technique)
  {
    CellOrder();
    SortSorts(Cells(rows, id, lens), CellLe);
    var cells := Column(rows, id, name, lens).cells;
    StringLeTotal(cells[i].technique, cells[j].technique);
    assert i < j ==> CellLe(cells[i], cells[j]);
    assert j < i ==> CellLe(cells[j], cells[i]);
  }

  /** A parent technique stands before a sub-technique exactly when its id sorts before the sub-technique's, in
      particular when the sub-technique's id extends it. */
  lemma ParentFirst(rows: seq<Row>, id: string, name: string, lens: Lens, i: nat, j: nat)
    requires i < |Column(rows, id, name, lens).cells| && j < |Column(rows, id, name, lens).cells|
    requires var cells := Column(rows, id, name, lens).cells;
             && InFamily(cells[i], cells[i].technique) && InFamily(cells[j], cells[i].technique)
             && cells[i].technique != cells[j].technique
    ensures var cells := Column(rows, id, name, lens).cells;
            && (i < j <==> StringLe(cells[i].technique, cells[j].technique))
            && (cells[i].technique <= cells[j].technique ==> i < j)
  {
    var cells := Column(rows, id, name, lens).cells;
    FamilyOrder(rows, id, name, lens, i, j, cells[i].technique);
    if cells[i].technique <= cells[j].technique {
      PrefixIsLess(cells[i].technique, cells[j].technique);
    }
  }

  // ----- tactics -----

  predicate NoRepeats(ids: seq<string>) {
    forall i, j :: 0 <= i < j < |ids| ==> ids[i] != ids[j]
  }

  lemma TwiceTwo(ids: seq<string>, i: nat, j: nat)
    requires i < j < |ids| && ids[i] == ids[j]
    ensures multiset(ids)[ids[i]] >= 2
  {
    assert ids == ids[..j] + [ids[j]] + ids[j + 1..];
    assert ids[i] in ids[..j];
  }

  lemma SameElementsNoRepeats(a: seq<string>, b: seq<string>)
    requires multiset(a) == multiset(b) && NoRepeats(a)
    ensures NoRepeats(b)
  {
    forall i, j | 0 <= i < j < |b| ensures b[i] != b[j] {
      OnceEach(a, b[i]);
      if b[i] == b[j] { TwiceTwo(b, i, j); }
    }
  }

  lemma {:induction false} OnceEach(a: seq<string>, x: string)
    requires NoRepeats(a)
    ensures multiset(a)[x] <= 1
  {
    if a != [] {
      OnceEach(a[1..], x);
      assert a == [a[0]] + a[1..];
      if a[0] == x { assert x !in a[1..]; }
    }
  }

  /** The extra columns: the tactics in use outside the kill chain, each once, by id. */
  lemma ExtraIdsAre(chain: KillChain, rows: seq<Row>)
    ensures Sorted(ExtraIds(chain, rows), StringLe) && NoRepeats(ExtraIds(chain, rows))
    ensures forall id :: id in ExtraIds(chain, rows) <==> Uses(rows, id) && !InChain(chain, id)
  {
    StringOrder();
    ExtrasAre(chain, rows);
    SortSorts(Extras(chain, rows), StringLe);
    SortKeeps(Extras(chain, rows), StringLe);
    SameElementsNoRepeats(Extras(chain, rows), ExtraIds(chain, rows));
  }

  lemma {:induction false} TitledAt(rows: seq<Row>, ids: seq<string>)
    ensures |Titled(rows, ids)| == |ids|
    ensures forall i :: 0 <= i < |ids| ==> Titled(rows, ids)[i] == (ids[i], Name(rows, ids[i]))
  {
    if ids != [] { TitledAt(rows, ids[..|ids| - 1]); }
  }

  /** Headings follow the kill chain, then come the other tactics in use in strict id order. */
  lemma TacticOrder(chain: KillChain, rows: seq<Row>)
    ensures var h, n := Headings(chain, rows), |chain|;
            && n <= |h| && h[..n] == chain
            && (forall i, j :: n <= i < j < |h| ==> StringLe(h[i].0, h[j].0) && h[i].0 != h[j].0)
            && (forall i :: n <= i < |h| ==>
              Uses(rows, h[i].0) && !InChain(chain, h[i].0) && h[i].1 == Name(rows, h[i].0))
  {
    var h, ids := Headings(chain, rows), ExtraIds(chain, rows);
    ExtraIdsAre(chain, rows);
    TitledAt(rows, ids);
    assert forall i :: |chain| <= i < |h| ==> h[i] == Titled(rows, ids)[i - |chain|] && h[i].0 == ids[i - |chain|];
    assert forall i :: 0 <= i < |ids| ==> ids[i] in ids;
  }

  lemma NoTacticTwice(chain: KillChain, rows: seq<Row>)
    requires Distinct(chain)
    ensures Distinct(Headings(chain, rows))
  {
    var h := Headings(chain, rows);
    TacticOrder(chain, rows);
    forall i, j | 0 <= i < j < |h| ensures h[i].0 != h[j].0 {
      if i < |chain| {
        assert h[i] == h[..|chain|][i];
        assert InChain(chain, h[i].0);
        if j < |chain| { assert h[j] == h[..|chain|][j]; }
      }
    }
  }

  lemma HeadingShows(chain: KillChain, rows: seq<Row>, id: string)
    requires InChain(chain, id) || Uses(rows, id)
    ensures InChain(Headings(chain, rows), id)
  {
    var h, ids := Headings(chain, rows), ExtraIds(chain, rows);
    if InChain(chain, id) {
      var k :| 0 <= k < |chain| && chain[k].0 == id;
      assert h[k] == chain[k];
    } else {
      ExtraIdsAre(chain, rows);
      TitledAt(rows, ids);
      var k :| 0 <= k < |ids| && ids[k] == id;
      assert h[|chain| + k] == Titled(rows, ids)[k];
    }
  }

  /** Every kill-chain tactic and every tactic in use has a heading, and nothing else has. */
  lemma EveryTacticShown(chain: KillChain, rows: seq<Row>, id: string)
    ensures InChain(Headings(chain, rows), id) <==> InChain(chain, id) || Uses(rows, id)
  {
    var h := Headings(chain, rows);
    if InChain(h, id) {
      var k :| 0 <= k < |h| && h[k].0 == id;
      TacticOrder(chain, rows);
      assert k < |chain| ==> h[k] == chain[k];
    } else if InChain(chain, id) || Uses(rows, id) {
      HeadingShows(chain, rows, id);
    }
  }

  lemma {:induction false} ColumnsAt(headings: KillChain, rows: seq<Row>, lens: Lens)
    ensures |ColumnsUnder(headings, rows, lens)| == |headings|
    ensures forall i :: 0 <= i < |headings| ==>
              ColumnsUnder(headings, rows, lens)[i] == Column(rows, headings[i].0, headings[i].1, lens)
  {
    if headings != [] { ColumnsAt(headings[..|headings| - 1], rows, lens); }
  }

  // ----- conservation -----

  function CellsOf(rows: seq<Row>, lens: Lens): seq<Cell> {
    if rows == [] then [] else CellsOf(rows[..|rows| - 1], lens) + [CellOf(rows[|rows| - 1], lens)]
  }

  /** The buckets under the headings, one after the other. */
  function Buckets(headings: KillChain, rows: seq<Row>, lens: Lens): seq<Cell> {
    if headings == [] then []
    else Buckets(headings[..|headings| - 1], rows, lens) + Cells(rows, headings[|headings| - 1].0, lens)
  }

  lemma AddOnce(a: seq<Cell>, a': seq<Cell>, inA: bool, c: seq<Cell>, inC: bool, x: Cell)
    requires multiset(a') == multiset(a) + if inA then multiset{x} else multiset{}
    requires !(inA && inC)
    ensures multiset(a' + (c + if inC then [x] else [])) ==
            multiset(a + c) + if inA || inC then multiset{x} else multiset{}
  {
  }

  lemma InChainSplits(init: KillChain, h: (string, string), id: string)
    ensures InChain(init + [h], id) <==> InChain(init, id) || h.0 == id
    ensures Distinct(init + [h]) ==> Distinct(init) && !(InChain(init, id) && h.0 == id)
  {
    var all := init + [h];
    assert all[|init|] == h;
    assert forall i :: 0 <= i < |init| ==> all[i] == init[i];
    if InChain(init, id) {
      var i :| 0 <= i < |init| && init[i].0 == id;
      assert all[i].0 == id;
    }
  }

  lemma {:induction false} BucketsAppend(headings: KillChain, rows: seq<Row>, row: Row, lens: Lens)
    requires Distinct(headings)
    ensures multiset(Buckets(headings, rows + [row], lens)) ==
            multiset(Buckets(headings, rows, lens)) + if InChain(headings, TacticOf(row))
                then multiset{CellOf(row, lens)} else multiset{}
  {
    if headings != [] {
      var init, h, id := headings[..|headings| - 1], headings[|headings| - 1], TacticOf(row);
      assert headings == init + [h];
      InChainSplits(init, h, id);
      BucketsAppend(init, rows, row, lens);
      CellsAppend(rows, row, h.0, lens);
      AddOnce(Buckets(init, rows, lens), Buckets(init, rows + [row], lens), InChain(init, id),
              Cells(rows, h.0, lens), id == h.0, CellOf(row, lens));
    }
  }

  lemma {:induction false} BucketsOfNone(headings: KillChain, lens: Lens)
    ensures Buckets(headings, [], lens) == []
  {
    if headings != [] { BucketsOfNone(headings[..|headings| - 1], lens); }
  }

  lemma {:induction false} BucketsConserve(headings: KillChain, rows: seq<Row>, lens: Lens)
    requires Distinct(headings) && forall i :: 0 <= i < |rows| ==> InChain(headings, TacticOf(rows[i]))
    ensures multiset(Buckets(headings, rows, lens)) == multiset(CellsOf(rows, lens))
  {
    if rows == [] {
      BucketsOfNone(headings, lens);
    } else {
      var init, last := rows[..|rows| - 1], rows[|rows| - 1];
      assert rows == init + [last];
      BucketsConserve(headings, init, lens);
      BucketsAppend(headings, init, last, lens);
    }
  }

  lemma {:induction false} SortedBuckets(headings: KillChain, rows: seq<Row>, lens: Lens)
    ensures multiset(AllCells(ColumnsUnder(headings, rows, lens))) == multiset(Buckets(headings, rows, lens))
  {
    if headings != [] {
      var h := headings[|headings| - 1];
      SortedBuckets(headings[..|headings| - 1], rows, lens);
      SortKeeps(Cells(rows, h.0, lens), CellLe);
      var columns := ColumnsUnder(headings, rows, lens);
      assert columns[..|columns| - 1] == ColumnsUnder(headings[..|headings| - 1], rows, lens);
    }
  }

  lemma ColumnsConserve(chain: KillChain, rows: seq<Row>, lens: Lens)
    requires Distinct(chain)
    ensures multiset(AllCells(Columns(chain, rows, lens))) == multiset(CellsOf(rows, lens))
  {
    var headings := Headings(chain, rows);
    NoTacticTwice(chain, rows);
    SortedBuckets(headings, rows, lens);
    forall i | 0 <= i < |rows| ensures InChain(headings, TacticOf(rows[i])) {
      EveryTacticShown(chain, rows, TacticOf(rows[i]));
    }
    BucketsConserve(headings, rows, lens);
  }

  /** Slicing by a tactic keeps its one column. */
  lemma {:induction false} OnlyTacticIs(headings: KillChain, rows: seq<Row>, lens: Lens, id: string)
    requires Distinct(headings)
    ensures var only := OnlyTactic(ColumnsUnder(headings, rows, lens), id);
            if InChain(headings, id) then |only| == 1 && only[0].id == id
                && only[0].cells == Sort(Cells(rows, id, lens), CellLe)
            else only == []
  {
    if headings != [] {
      var init, h := headings[..|headings| - 1], headings[|headings| - 1];
      assert headings == init + [h];
      InChainSplits(init, h, id);
      OnlyTacticIs(init, rows, lens, id);
      var columns := ColumnsUnder(headings, rows, lens);
      assert columns[..|columns| - 1] == ColumnsUnder(init, rows, lens);
    }
  }

  lemma {:induction false} SelectedRows(rows: seq<Row>, f: Filters)
    ensures forall r :: r in Select(rows, f) <==>
              r in rows && r.framework == f.framework && (Given(f.tactic) ==> r.info.tactic == f.tactic.value)
  {
    if rows != [] {
      SelectedRows(rows[..|rows| - 1], f);
      assert rows == rows[..|rows| - 1] + [rows[|rows| - 1]];
    }
  }

  lemma {:induction false} OneBucket(rows: seq<Row>, id: string, lens: Lens)
    requires forall i :: 0 <= i < |rows| ==> TacticOf(rows[i]) == id
    ensures Cells(rows, id, lens) == CellsOf(rows, lens)
  {
    if rows != [] { OneBucket(rows[..|rows| - 1], id, lens); }
  }

  lemma SliceRows(rows: seq<Row>, f: Filters, lens: Lens)
    requires Given(f.tactic)
    ensures forall i :: 0 <= i < |Select(rows, f)| ==> TacticOf(Select(rows, f)[i]) == f.tactic.value
    ensures Cells(Select(rows, f), f.tactic.value, lens) == CellsOf(Select(rows, f), lens)
  {
    SelectedRows(rows, f);
    var selected := Select(rows, f);
    forall i | 0 <= i < |selected| ensures TacticOf(selected[i]) == f.tactic.value {
      assert selected[i] in selected;
    }
    OneBucket(selected, f.tactic.value, lens);
  }

  /** What a tactic slice holds: the one column of that tactic, with every selected row in it. */
  lemma SliceColumn(chain: KillChain, rows: seq<Row>, lens: Lens, f: Filters)
    requires Distinct(chain) && Given(f.tactic)
    ensures var selected, tactics, id := Select(rows, f), TacticsOf(chain, rows, lens, f), f.tactic.value;
            if InChain(chain, id) || selected != []
            then |tactics| == 1 && tactics[0].id == id && tactics[0].cells == Sort(CellsOf(selected, lens), CellLe)
            else tactics == []
  {
    var selected, id := Select(rows, f), f.tactic.value;
    SliceRows(rows, f, lens);
    NoTacticTwice(chain, selected);
    OnlyTacticIs(Headings(chain, selected), selected, lens, id);
    EveryTacticShown(chain, selected, id);
    assert selected != [] ==> TacticOf(selected[0]) == id;
  }

  lemma OneColumn(tactics: seq<Tactic>)
    requires |tactics| <= 1
    ensures AllCells(tactics) == if tactics == [] then [] else tactics[0].cells
  {
    if tactics != [] {
      assert tactics[..0] == [];
      assert [] + tactics[0].cells == tactics[0].cells;
    }
  }

  /** Conservation: the matrix holds exactly one cell for each row the query selects. */
  lemma EverySelectedRowOnce(chain: KillChain, rows: seq<Row>, lens: Lens, f: Filters)
    requires Distinct(chain)
    ensures multiset(AllCells(TacticsOf(chain, rows, lens, f))) == multiset(CellsOf(Select(rows, f), lens))
  {
    if Given(f.tactic) {
      SliceColumn(chain, rows, lens, f);
      var selected, tactics := Select(rows, f), TacticsOf(chain, rows, lens, f);
      SortKeeps(CellsOf(selected, lens), CellLe);
      OneColumn(tactics);
    } else {
      ColumnsConserve(chain, Select(rows, f), lens);
    }
  }

  // ----- which cells there are -----

  predicate Selected(f: Filters, row: Row) {
    row.framework == f.framework && (Given(f.tactic) ==> row.info.tactic == f.tactic.value)
  }

  lemma {:induction false} CellsOfHas(rows: seq<Row>, lens: Lens, c: Cell)
    ensures c in CellsOf(rows, lens) <==> exists r :: r in rows && CellOf(r, lens) == c
  {
    if rows != [] {
      var init, last := rows[..|rows| - 1], rows[|rows| - 1];
      CellsOfHas(init, lens, c);
      assert rows == init + [last];
    }
  }

  /** A cell of the matrix is the cell of a selected row. */
  lemma MatrixHas(rows: seq<Row>, texts: Texts, facts: Facts, f: Filters, c: Cell)
    ensures c in AllCells(DataOf(rows, texts, facts, f).tactics) <==>
            exists r :: r in rows && Selected(f, r) && CellOf(r, LensOf(texts, facts, f)) == c
  {
    var lens := LensOf(texts, facts, f);
    EnterpriseDistinct();
    EverySelectedRowOnce(ENTERPRISE, rows, lens, f);
    CellsOfHas(Select(rows, f), lens, c);
    SelectedRows(rows, f);
    var all := AllCells(DataOf(rows, texts, facts, f).tactics);
    assert c in all <==> c in multiset(all);
    assert c in CellsOf(Select(rows, f), lens) <==> c in multiset(CellsOf(Select(rows, f), lens));
  }

  // ----- the summary -----

  function HowMany(cells: seq<Cell>, p: Cell -> bool): nat {
    if cells == [] then 0 else HowMany(cells[..|cells| - 1], p) + if p(cells[|cells| - 1]) then 1 else 0
  }

  lemma {:induction false} TallyCounts(cells: seq<Cell>)
    ensures var s := Tally(cells);
            && s.total == |cells| == s.covered + s.partial + s.gap + s.noData
            && s.covered == HowMany(cells, (c: Cell) => c.status == Covered)
            && s.partial == HowMany(cells, (c: Cell) => c.status == Partial)
            && s.gap == HowMany(cells, (c: Cell) => c.status == Gap)
            && s.kevExposed == HowMany(cells, (c: Cell) => c.kevExposed)
  {
    if cells != [] { TallyCounts(cells[..|cells| - 1]); }
  }

  lemma {:induction false} CellsOfLength(rows: seq<Row>, lens: Lens)
    ensures |CellsOf(rows, lens)| == |rows|
  {
    if rows != [] { CellsOfLength(rows[..|rows| - 1], lens); }
  }

  /** The summary's total is the number of selected rows and splits by status. */
  lemma SummaryTotals(rows: seq<Row>, texts: Texts, facts: Facts, f: Filters)
    ensures var s := DataOf(rows, texts, facts, f).summary;
            s.total == |Select(rows, f)| == s.covered + s.partial + s.gap + s.noData
  {
    EnterpriseDistinct();
    var lens := LensOf(texts, facts, f);
    EverySelectedRowOnce(ENTERPRISE, rows, lens, f);
    var all := AllCells(TacticsOf(ENTERPRISE, rows, lens, f));
    TallyCounts(all);
    CellsOfLength(Select(rows, f), lens);
    assert |all| == |multiset(all)| == |multiset(CellsOf(Select(rows, f), lens))|;
  }
}
