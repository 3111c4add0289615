/** Computing the matrix step by step: buckets in a dictionary, then sorting, slicing and summing. */
module MatrixCompute {
  import opened CoverageTable
  import opened Matrix
  import opened Options
  import opened Sorting

  predicate Distinct(chain: KillChain) {
    forall i, j :: 0 <= i < j < |chain| ==> chain[i].0 != chain[j].0
  }

  lemma EnterpriseDistinct()
    ensures Distinct(ENTERPRISE)
  {
    forall i, j | 0 <= i < j < |ENTERPRISE| ensures ENTERPRISE[i].0 != ENTERPRISE[j].0 {
      assert ENTERPRISE[i].0[4] != ENTERPRISE[j].0[4] || ENTERPRISE[i].0[5] != ENTERPRISE[j].0[5];
    }
  }

  predicate Uses(rows: seq<Row>, id: string) {
    exists i :: 0 <= i < |rows| && TacticOf(rows[i]) == id
  }

  lemma UsesAppend(rows: seq<Row>, row: Row, id: string)
    ensures Uses(rows + [row], id) <==> Uses(rows, id) || TacticOf(row) == id
  {
    var more := rows + [row];
    assert more[|rows|] == row;
    if Uses(rows, id) {
      var i :| 0 <= i < |rows| && TacticOf(rows[i]) == id;
      assert TacticOf(more[i]) == id;
    }
  }

  /** The extras are exactly the tactics in use outside the kill chain, each once. */
  lemma {:induction false} ExtrasAre(chain: KillChain, rows: seq<Row>)
    ensures forall i, j :: 0 <= i < j < |Extras(chain, rows)| ==> Extras(chain, rows)[i] != Extras(chain, rows)[j]
    ensures forall id :: id in Extras(chain, rows) <==> Uses(rows, id) && !InChain(chain, id)
  {
    if rows != [] {
      var init, last := rows[..|rows| - 1], rows[|rows| - 1];
      ExtrasAre(chain, init);
      assert rows == init + [last];
      forall id ensures id in Extras(chain, rows) <==> Uses(rows, id) && !InChain(chain, id) {
        UsesAppend(init, last, id);
      }
    }
  }

  lemma {:induction false} UnusedIsEmpty(rows: seq<Row>, id: string, lens: Lens)
    requires !Uses(rows, id)
    ensures Cells(rows, id, lens) == [] && FirstName(rows, id) == None
  {
    if rows != [] {
      var init, last := rows[..|rows| - 1], rows[|rows| - 1];
      assert rows == init + [last];
      UsesAppend(init, last, id);
      UnusedIsEmpty(init, id, lens);
    }
  }

  lemma {:induction false} UsedHasName(rows: seq<Row>, id: string)
    requires Uses(rows, id)
    ensures FirstName(rows, id).Some?
  {
    var init, last := rows[..|rows| - 1], rows[|rows| - 1];
    assert rows == init + [last];
    UsesAppend(init, last, id);
    if TacticOf(last) != id { UsedHasName(init, id); }
  }

  // ----- buckets -----

  ghost predicate Bucket(byId: map<string, Tactic>, id: string, name: string, rows: seq<Row>, lens: Lens) {
    id in byId && byId[id] == Tactic(id, name, Cells(rows, id, lens))
  }

  /** The dictionary of buckets once the rows have been dealt. */
  ghost predicate Dealt(chain: KillChain, byId: map<string, Tactic>, extras: seq<string>, rows: seq<Row>, lens: Lens) {
    && extras == Extras(chain, rows)
    && (forall id :: id in byId <==> InChain(chain, id) || id in extras)
    && (forall i :: 0 <= i < |chain| ==> Bucket(byId, chain[i].0, chain[i].1, rows, lens))
    && (forall id :: id in extras ==> Bucket(byId, id, Name(rows, id), rows, lens))
  }

  function Deal(byId: map<string, Tactic>, row: Row, lens: Lens): map<string, Tactic> {
    var id := TacticOf(row);
    var t := if id in byId then byId[id] else Tactic(id, row.info.tacticName, []);
    byId[id := t.(cells := t.cells + [CellOf(row, lens)])]
  }

  lemma CellsAppend(rows: seq<Row>, row: Row, id: string, lens: Lens)
    ensures Cells(rows + [row], id, lens) == Cells(rows, id, lens) + if TacticOf(row) == id then [CellOf(row, lens)]
        else []
  {
    assert (rows + [row])[..|rows|] == rows;
  }

  lemma NameAppend(rows: seq<Row>, row: Row, id: string)
    ensures Name(rows + [row], id) ==
            if Uses(rows, id) then Name(rows, id) else if TacticOf(row) == id then row.info.tacticName else ""
  {
    assert (rows + [row])[..|rows|] == rows;
    if Uses(rows, id) { UsedHasName(rows, id); } else { UnusedIsEmpty(rows, id, Lens(None, {})); }
  }

  lemma DealKeepsChain(chain: KillChain, byId: map<string, Tactic>, i: nat, rows: seq<Row>, row: Row, lens: Lens)
    requires i < |chain| && Bucket(byId, chain[i].0, chain[i].1, rows, lens)
    ensures Bucket(Deal(byId, row, lens), chain[i].0, chain[i].1, rows + [row], lens)
  {
    CellsAppend(rows, row, chain[i].0, lens);
  }

  lemma DealKeepsExtra(byId: map<string, Tactic>, id: string, rows: seq<Row>, row: Row, lens: Lens)
    requires Uses(rows, id) && Bucket(byId, id, Name(rows, id), rows, lens)
    ensures Bucket(Deal(byId, row, lens), id, Name(rows + [row], id), rows + [row], lens)
  {
    CellsAppend(rows, row, id, lens);
    NameAppend(rows, row, id);
  }

  lemma DealOpensExtra(byId: map<string, Tactic>, rows: seq<Row>, row: Row, lens: Lens)
    requires !Uses(rows, TacticOf(row)) && TacticOf(row) !in byId
    ensures Bucket(Deal(byId, row, lens), TacticOf(row), Name(rows + [row], TacticOf(row)), rows + [row], lens)
  {
    CellsAppend(rows, row, TacticOf(row), lens);
    NameAppend(rows, row, TacticOf(row));
    UnusedIsEmpty(rows, TacticOf(row), lens);
  }

  lemma DealKeeps(chain: KillChain, byId: map<string, Tactic>, extras: seq<string>, rows: seq<Row>, row: Row,
                  lens: Lens)
    requires Dealt(chain, byId, extras, rows, lens)
    ensures var id := TacticOf(row);
            Dealt(chain, Deal(byId, row, lens), if id in byId then extras else extras + [id], rows + [row], lens)
  {
    var id := TacticOf(row);
    assert (rows + [row])[..|rows|] == rows;
    forall i | 0 <= i < |chain|
      ensures Bucket(Deal(byId, row, lens), chain[i].0, chain[i].1, rows + [row], lens)
    {
      DealKeepsChain(chain, byId, i, rows, row, lens);
    }
    ExtrasAre(chain, rows);
    forall e | e in extras ensures Bucket(Deal(byId, row, lens), e, Name(rows + [row], e), rows + [row], lens) {
      DealKeepsExtra(byId, e, rows, row, lens);
    }
    if id !in byId {
      DealOpensExtra(byId, rows, row, lens);
    }
  }

  // ----- the computation -----

  method SelectRows(rows: seq<Row>, f: Filters) returns (selected: seq<Row>)
    ensures selected == Select(rows, f)
  {
    selected := [];
    for i := 0 to |rows|
      invariant selected == Select(rows[..i], f)
    {
      assert rows[..i + 1][..i] == rows[..i];
      if rows[i].framework == f.framework && (Given(f.tactic) ==> rows[i].info.tactic == f.tactic.value) {
        selected := selected + [rows[i]];
      }
    }
    assert rows[..|rows|] == rows;
  }

  method EmptyBuckets(chain: KillChain, lens: Lens) returns (byId: map<string, Tactic>)
    requires Distinct(chain)
    ensures Dealt(chain, byId, [], [], lens)
  {
    byId := map[];
    for i := 0 to |chain|
      invariant forall id :: id in byId <==> exists j :: 0 <= j < i && chain[j].0 == id
      invariant forall j :: 0 <= j < i ==> Bucket(byId, chain[j].0, chain[j].1, [], lens)
    {
      byId := byId[chain[i].0 := Tactic(chain[i].0, chain[i].1, [])];
    }
  }

  method DealRow(byId: map<string, Tactic>, extras: seq<string>, row: Row, lens: Lens)
    returns (byId': map<string, Tactic>, extras': seq<string>)
    ensures byId' == Deal(byId, row, lens)
    ensures extras' == if TacticOf(row) in byId then extras else extras + [TacticOf(row)]
  {
    var id := TacticOf(row);
    byId', extras' := byId, extras;
    if id !in byId {
      byId' := byId'[id := Tactic(id, row.info.tacticName, [])];
      extras' := extras' + [id];
    }
    byId' := byId'[id := byId'[id].(cells := byId'[id].cells + [CellOf(row, lens)])];
  }

  method DealRows(chain: KillChain, rows: seq<Row>, lens: Lens) returns (byId: map<string, Tactic>, extras: seq<string>)
    requires Distinct(chain)
    ensures Dealt(chain, byId, extras, rows, lens)
  {
    byId := EmptyBuckets(chain, lens);
    extras := [];
    for i := 0 to |rows|
      invariant Dealt(chain, byId, extras, rows[..i], lens)
    {
      DealKeeps(chain, byId, extras, rows[..i], rows[i], lens);
      assert rows[..i + 1] == rows[..i] + [rows[i]];
      byId, extras := DealRow(byId, extras, rows[i], lens);
    }
    assert rows[..|rows|] == rows;
  }

  function SortCells(t: Tactic): Tactic {
    t.(cells := Sort(t.cells, CellLe))
  }

  lemma ColumnsAppend(headings: KillChain, h: (string, string), rows: seq<Row>, lens: Lens)
    ensures ColumnsUnder(headings + [h], rows, lens) ==
        ColumnsUnder(headings, rows, lens) + [Column(rows, h.0, h.1, lens)]
  {
    assert (headings + [h])[..|headings|] == headings;
  }

  lemma {:induction false} ColumnsConcat(a: KillChain, b: KillChain, rows: seq<Row>, lens: Lens)
    ensures ColumnsUnder(a + b, rows, lens) == ColumnsUnder(a, rows, lens) + ColumnsUnder(b, rows, lens)
  {
    if b == [] {
      assert a + b == a;
    } else {
      var init, last := b[..|b| - 1], b[|b| - 1];
      assert b == init + [last] && a + b == (a + init) + [last];
      ColumnsConcat(a, init, rows, lens);
      ColumnsAppend(a + init, last, rows, lens);
      ColumnsAppend(init, last, rows, lens);
    }
  }

  /** Visits the kill chain's buckets in its order. */
  method OrderChain(chain: KillChain, byId: map<string, Tactic>, ghost rows: seq<Row>, ghost lens: Lens)
    returns (tactics: seq<Tactic>)
    requires forall i :: 0 <= i < |chain| ==> Bucket(byId, chain[i].0, chain[i].1, rows, lens)
    ensures tactics == ColumnsUnder(chain, rows, lens)
  {
    tactics := [];
    for i := 0 to |chain|
      invariant tactics == ColumnsUnder(chain[..i], rows, lens)
    {
      assert chain[..i + 1] == chain[..i] + [chain[i]];
      ColumnsAppend(chain[..i], chain[i], rows, lens);
      assert Bucket(byId, chain[i].0, chain[i].1, rows, lens);
      tactics := tactics + [SortCells(byId[chain[i].0])];
    }
    assert chain[..|chain|] == chain;
  }

  /** Visits the other buckets by id. */
  method OrderExtras(ids: seq<string>, byId: map<string, Tactic>, ghost rows: seq<Row>, ghost lens: Lens)
    returns (tactics: seq<Tactic>)
    requires forall i :: 0 <= i < |ids| ==> Bucket(byId, ids[i], Name(rows, ids[i]), rows, lens)
    ensures tactics == ColumnsUnder(Titled(rows, ids), rows, lens)
  {
    tactics := [];
    for i := 0 to |ids|
      invariant tactics == ColumnsUnder(Titled(rows, ids[..i]), rows, lens)
    {
      assert ids[..i + 1][..i] == ids[..i];
      ColumnsAppend(Titled(rows, ids[..i]), (ids[i], Name(rows, ids[i])), rows, lens);
      assert Bucket(byId, ids[i], Name(rows, ids[i]), rows, lens);
      tactics := tactics + [SortCells(byId[ids[i]])];
    }
    assert ids[..|ids|] == ids;
  }

  lemma ExtrasDealt(chain: KillChain, byId: map<string, Tactic>, extras: seq<string>, rows: seq<Row>, lens: Lens,
                    ids: seq<string>)
    requires Dealt(chain, byId, extras, rows, lens) && forall id :: id in ids ==> id in extras
    ensures forall i :: 0 <= i < |ids| ==> Bucket(byId, ids[i], Name(rows, ids[i]), rows, lens)
  {
    forall i | 0 <= i < |ids| ensures Bucket(byId, ids[i], Name(rows, ids[i]), rows, lens) {
      assert ids[i] in ids;
    }
  }

  method OrderColumns(chain: KillChain, byId: map<string, Tactic>, extras: seq<string>, ghost rows: seq<Row>,
                      ghost lens: Lens)
    returns (tactics: seq<Tactic>)
    requires Dealt(chain, byId, extras, rows, lens)
    ensures tactics == Columns(chain, rows, lens)
  {
    var ids := Sort(extras, StringLe);
    SortKeeps(extras, StringLe);
    ExtrasDealt(chain, byId, extras, rows, lens, ids);
    var first := OrderChain(chain, byId, rows, lens);
    var others := OrderExtras(ids, byId, rows, lens);
    ColumnsConcat(chain, Titled(rows, ids), rows, lens);
    tactics := first + others;
  }

  method KeepTactic(tactics: seq<Tactic>, id: string) returns (kept: seq<Tactic>)
    ensures kept == OnlyTactic(tactics, id)
  {
    kept := [];
    for i := 0 to |tactics|
      invariant kept == OnlyTactic(tactics[..i], id)
    {
      assert tactics[..i + 1][..i] == tactics[..i];
      if tactics[i].id == id {
        kept := kept + [tactics[i]];
      }
    }
    assert tactics[..|tactics|] == tactics;
  }

  method CountCell(s: Summary, c: Cell) returns (s': Summary)
    ensures s' == Count(s, c)
  {
    s' := s.(total := s.total + 1);
    if c.status == Covered { s' := s'.(covered := s'.covered + 1); }
    else if c.status == Partial { s' := s'.(partial := s'.partial + 1); }
    else if c.status == Gap { s' := s'.(gap := s'.gap + 1); }
    else { s' := s'.(noData := s'.noData + 1); }
    if c.kevExposed { s' := s'.(kevExposed := s'.kevExposed + 1); }
  }

  lemma {:induction false} TallyConcat(s: Summary, a: seq<Cell>, b: seq<Cell>)
    ensures TallyFrom(TallyFrom(s, a), b) == TallyFrom(s, a + b)
  {
    if b == [] {
      assert a + b == a;
    } else {
      TallyConcat(s, a, b[..|b| - 1]);
      assert (a + b)[..|a + b| - 1] == a + b[..|b| - 1];
    }
  }

  method CountCells(s: Summary, cells: seq<Cell>) returns (s': Summary)
    ensures s' == TallyFrom(s, cells)
  {
    s' := s;
    for j := 0 to |cells|
      invariant s' == TallyFrom(s, cells[..j])
    {
      assert cells[..j + 1][..j] == cells[..j];
      s' := CountCell(s', cells[j]);
    }
    assert cells[..|cells|] == cells;
  }

  method Summarise(tactics: seq<Tactic>) returns (s: Summary)
    ensures s == Tally(AllCells(tactics))
  {
    s := Summary(0, 0, 0, 0, 0, 0);
    for i := 0 to |tactics|
      invariant s == Tally(AllCells(tactics[..i]))
    {
      TallyConcat(Summary(0, 0, 0, 0, 0, 0), AllCells(tactics[..i]), tactics[i].cells);
      assert tactics[..i + 1][..i] == tactics[..i];
      s := CountCells(s, tactics[i].cells);
    }
    assert tactics[..|tactics|] == tactics;
  }

  method Compute(rows: seq<Row>, texts: Texts, facts: Facts, f: Filters) returns (data: Data)
    ensures data == DataOf(rows, texts, facts, f)
  {
    EnterpriseDistinct();
    var lens := LensOf(texts, facts, f);
    var selected := SelectRows(rows, f);
    var byId, extras := DealRows(ENTERPRISE, selected, lens);
    var tactics := OrderColumns(ENTERPRISE, byId, extras, selected, lens);
    if Given(f.tactic) {
      tactics := KeepTactic(tactics, f.tactic.value);
    }
    var summary := Summarise(tactics);
    data := Data(f.framework, tactics, summary, f);
  }
}
