/** The matrix does not depend on the order in which the query returns the coverage rows. */
module MatrixFetchOrder {
  import opened CoverageTable
  import opened Matrix
  import opened MatrixCompute
  import opened MatrixLayout
  import opened Sorting

  lemma {:induction false} SelectCounts(rows: seq<Row>, f: Filters, r: Row)
    ensures multiset(Select(rows, f))[r] ==
            if r.framework == f.framework && (Given(f.tactic) ==> r.info.tactic == f.tactic.value)
                then multiset(rows)[r] else 0
  {
    if rows != [] {
      SelectCounts(rows[..|rows| - 1], f, r);
      assert rows == rows[..|rows| - 1] + [rows[|rows| - 1]];
    }
  }

  lemma SelectPermutes(a: seq<Row>, b: seq<Row>, f: Filters)
    requires multiset(a) == multiset(b)
    ensures multiset(Select(a, f)) == multiset(Select(b, f))
  {
    forall r ensures multiset(Select(a, f))[r] == multiset(Select(b, f))[r] {
      SelectCounts(a, f, r);
      SelectCounts(b, f, r);
    }
  }

  lemma {:induction false} CellsConcat(a: seq<Row>, b: seq<Row>, id: string, lens: Lens)
    ensures Cells(a + b, id, lens) == Cells(a, id, lens) + Cells(b, id, lens)
  {
    if b == [] {
      assert a + b == a;
    } else {
      assert (a + b)[..|a + b| - 1] == a + b[..|b| - 1];
      CellsConcat(a, b[..|b| - 1], id, lens);
    }
  }

  /** A list without one occurrence of an element. */
  lemma Without<T>(b: seq<T>, j: nat)
    requires j < |b|
    ensures b == b[..j] + ([b[j]] + b[j + 1..])
    ensures multiset(b[..j] + b[j + 1..]) == multiset(b) - multiset{b[j]}
  {
    assert b == b[..j] + ([b[j]] + b[j + 1..]);
  }

  /** Taking one row out takes its cell out. */
  lemma CellsWithout(b: seq<Row>, j: nat, id: string, lens: Lens)
    requires j < |b|
    ensures multiset(Cells(b, id, lens)) ==
        multiset(Cells(b[..j] + b[j + 1..], id, lens)) + multiset(Cells([b[j]], id, lens))
  {
    Without(b, j);
    CellsConcat(b[..j], b[j + 1..], id, lens);
    CellsConcat(b[..j], [b[j]] + b[j + 1..], id, lens);
    CellsConcat([b[j]], b[j + 1..], id, lens);
  }

  lemma {:induction false} CellsPermute(a: seq<Row>, b: seq<Row>, id: string, lens: Lens)
    requires multiset(a) == multiset(b)
    ensures multiset(Cells(a, id, lens)) == multiset(Cells(b, id, lens))
    decreases |a|
  {
    assert |a| == |multiset(a)| == |multiset(b)| == |b|;
    if a != [] {
      assert a[0] in multiset(b);
      var j :| 0 <= j < |b| && b[j] == a[0];
      Without(a, 0);
      Without(b, j);
      CellsWithout(a, 0, id, lens);
      CellsWithout(b, j, id, lens);
      CellsPermute(a[..0] + a[1..], b[..j] + b[j + 1..], id, lens);
    }
  }

  lemma UsesPermutes(a: seq<Row>, b: seq<Row>, id: string)
    requires multiset(a) == multiset(b)
    ensures Uses(a, id) ==> Uses(b, id)
  {
    if Uses(a, id) {
      var i :| 0 <= i < |a| && TacticOf(a[i]) == id;
      assert a[i] in multiset(b);
    }
  }

  lemma SameExtraIds(chain: KillChain, a: seq<Row>, b: seq<Row>)
    requires multiset(a) == multiset(b)
    ensures ExtraIds(chain, a) == ExtraIds(chain, b)
  {
    var x, y := ExtraIds(chain, a), ExtraIds(chain, b);
    ExtraIdsAre(chain, a);
    ExtraIdsAre(chain, b);
    forall id ensures multiset(x)[id] == multiset(y)[id] {
      UsesPermutes(a, b, id);
      UsesPermutes(b, a, id);
      OnceEach(x, id);
      OnceEach(y, id);
      assert id in x <==> id in y;
    }
    StringOrder();
    SortedUnique(x, y, StringLe);
  }

  predicate OneRowEach(rows: seq<Row>) {
    forall i, j :: 0 <= i < |rows| && 0 <= j < |rows| && rows[i].technique == rows[j].technique ==> rows[i] == rows[j]
  }

  lemma {:induction false} CellHasRow(rows: seq<Row>, id: string, lens: Lens, c: Cell)
    requires c in Cells(rows, id, lens)
    ensures exists i :: 0 <= i < |rows| && CellOf(rows[i], lens) == c
  {
    var init, last := rows[..|rows| - 1], rows[|rows| - 1];
    if c in Cells(init, id, lens) {
      CellHasRow(init, id, lens, c);
      var i :| 0 <= i < |init| && CellOf(init[i], lens) == c;
      assert rows[i] == init[i];
    } else {
      assert CellOf(rows[|rows| - 1], lens) == c;
    }
  }

  lemma CellsSeparated(rows: seq<Row>, id: string, lens: Lens, x: Cell, y: Cell)
    requires OneRowEach(rows) && x in Cells(rows, id, lens) && y in Cells(rows, id, lens)
    ensures CellLe(x, y) && CellLe(y, x) ==> x == y
  {
    if CellLe(x, y) && CellLe(y, x) {
      StringLeTotal(Family(x), Family(y));
      StringLeTotal(x.technique, y.technique);
      CellHasRow(rows, id, lens, x);
      CellHasRow(rows, id, lens, y);
    }
  }

  lemma SameColumn(a: seq<Row>, b: seq<Row>, id: string, lens: Lens)
    requires multiset(a) == multiset(b) && OneRowEach(a)
    ensures Sort(Cells(a, id, lens), CellLe) == Sort(Cells(b, id, lens), CellLe)
  {
    var x, y := Sort(Cells(a, id, lens), CellLe), Sort(Cells(b, id, lens), CellLe);
    CellOrder();
    SortSorts(Cells(a, id, lens), CellLe);
    SortSorts(Cells(b, id, lens), CellLe);
    CellsPermute(a, b, id, lens);
    forall c, d | c in x && d in x && CellLe(c, d) && CellLe(d, c) ensures c == d {
      assert c in multiset(x) && d in multiset(x);
      assert c in Cells(a, id, lens) && d in Cells(a, id, lens);
      CellsSeparated(a, id, lens, c, d);
    }
    SortedUnique(x, y, CellLe);
  }

  /** Equal but for the names of tactics outside the kill chain, which the first row fetched gives. */
  predicate SameUpToNames(a: seq<Tactic>, b: seq<Tactic>) {
    |a| == |b| && forall i :: 0 <= i < |a| ==> a[i].id == b[i].id && a[i].cells == b[i].cells
  }

  lemma SameHeadings(chain: KillChain, a: seq<Row>, b: seq<Row>)
    requires multiset(a) == multiset(b)
    ensures |Headings(chain, a)| == |Headings(chain, b)|
    ensures forall i :: 0 <= i < |Headings(chain, a)| ==> Headings(chain, a)[i].0 == Headings(chain, b)[i].0
  {
    SameExtraIds(chain, a, b);
    TitledAt(a, ExtraIds(chain, a));
    TitledAt(b, ExtraIds(chain, b));
  }

  lemma SameColumns(chain: KillChain, a: seq<Row>, b: seq<Row>, lens: Lens)
    requires multiset(a) == multiset(b) && OneRowEach(a)
    ensures SameUpToNames(Columns(chain, a, lens), Columns(chain, b, lens))
  {
    SameHeadings(chain, a, b);
    ColumnsAt(Headings(chain, a), a, lens);
    ColumnsAt(Headings(chain, b), b, lens);
    forall i | 0 <= i < |Headings(chain, a)|
      ensures Columns(chain, a, lens)[i].cells == Columns(chain, b, lens)[i].cells
    {
      SameColumn(a, b, Headings(chain, a)[i].0, lens);
    }
  }

  lemma {:induction false} SliceSame(a: seq<Tactic>, b: seq<Tactic>, id: string)
    requires SameUpToNames(a, b)
    ensures SameUpToNames(OnlyTactic(a, id), OnlyTactic(b, id))
  {
    if a != [] {
      SliceSame(a[..|a| - 1], b[..|b| - 1], id);
    }
  }

  lemma {:induction false} AllCellsSame(a: seq<Tactic>, b: seq<Tactic>)
    requires SameUpToNames(a, b)
    ensures AllCells(a) == AllCells(b)
  {
    if a != [] {
      AllCellsSame(a[..|a| - 1], b[..|b| - 1]);
    }
  }

  lemma SelectedOnce(rows: seq<Row>, f: Filters)
    requires UniqueKeys(rows)
    ensures OneRowEach(Select(rows, f))
  {
    SelectedRows(rows, f);
    var s := Select(rows, f);
    forall i, j | 0 <= i < |s| && 0 <= j < |s| && s[i].technique == s[j].technique ensures s[i] == s[j] {
      assert s[i] in s && s[j] in s;
    }
  }

  /** Fetching the rows in another order gives the same ids, cells and summary. */
  lemma FetchOrderIrrelevant(rows: seq<Row>, other: seq<Row>, texts: Texts, facts: Facts, f: Filters)
    requires UniqueKeys(rows) && multiset(rows) == multiset(other)
    ensures var a, b := DataOf(rows, texts, facts, f), DataOf(other, texts, facts, f);
            SameUpToNames(a.tactics, b.tactics) && a.summary == b.summary
  {
    var lens := LensOf(texts, facts, f);
    SelectPermutes(rows, other, f);
    SelectedOnce(rows, f);
    SameColumns(ENTERPRISE, Select(rows, f), Select(other, f), lens);
    if Given(f.tactic) {
      SliceSame(Columns(ENTERPRISE, Select(rows, f), lens), Columns(ENTERPRISE, Select(other, f), lens),
          f.tactic.value);
    }
    AllCellsSame(TacticsOf(ENTERPRISE, rows, lens, f), TacticsOf(ENTERPRISE, other, lens, f));
  }
}
