/** The review queue's supersede action, the other writer of the coverage table: it appends the superseding rule to
    rows directly, without sorting and without invalidating cached matrices. */
module QueueSupersede {
  import opened CoverageTable
  import opened Matrix
  import opened MatrixCache
  import opened MatrixCompute
  import opened MatrixLayout

  const DEFAULT_FRAMEWORK := "attck"

  /** The row the action finds for a technique, if any, and whether it writes to it. */
  predicate Writes(rows: seq<Row>, t: string, rule: Rule) {
    FindFinds(rows, t, DEFAULT_FRAMEWORK);
    var k := Find(rows, t, DEFAULT_FRAMEWORK);
    k < |rows| && rule !in rows[k].rules
  }

  function WithRule(row: Row, rule: Rule): Row {
    row.(rules := row.rules + [rule])
  }

  function AddRule(rows: seq<Row>, t: string, rule: Rule): seq<Row> {
    var k := Find(rows, t, DEFAULT_FRAMEWORK);
    if Writes(rows, t, rule) then rows[k := WithRule(rows[k], rule)] else rows
  }

  function AddRules(rows: seq<Row>, techniques: seq<string>, rule: Rule): seq<Row> {
    if techniques == [] then rows
    else AddRule(AddRules(rows, techniques[..|techniques| - 1], rule), techniques[|techniques| - 1], rule)
  }

  /** Row `i` gains the rule: its technique is listed, it is of the default framework and lacks the rule. */
  predicate Gains(rows: seq<Row>, techniques: seq<string>, rule: Rule, i: nat)
    requires i < |rows|
  {
    rows[i].technique in techniques && rows[i].framework == DEFAULT_FRAMEWORK && rule !in rows[i].rules
  }

  function Gained(rows: seq<Row>, techniques: seq<string>, rule: Rule, i: nat): Row
    requires i < |rows|
  {
    if Gains(rows, techniques, rule, i) then WithRule(rows[i], rule) else rows[i]
  }

  lemma AddRuleAt(rows: seq<Row>, t: string, rule: Rule, i: nat)
    requires UniqueKeys(rows) && i < |rows|
    ensures |AddRule(rows, t, rule)| == |rows|
    ensures AddRule(rows, t, rule)[i] == Gained(rows, [t], rule, i)
  {
    FindFinds(rows, t, DEFAULT_FRAMEWORK);
    var k := Find(rows, t, DEFAULT_FRAMEWORK);
    if k < |rows| && i != k {
      assert !IsRow(rows[i], t, DEFAULT_FRAMEWORK);
    }
  }

  lemma GainedOnce(row: Row, rule: Rule)
    ensures rule in WithRule(row, rule).rules
  {
    assert WithRule(row, rule).rules[|row.rules|] == rule;
  }

  /** What the whole action does to each row, repeated technique ids included. */
  lemma {:induction false} AddRulesAt(rows: seq<Row>, techniques: seq<string>, rule: Rule)
    requires UniqueKeys(rows)
    ensures |AddRules(rows, techniques, rule)| == |rows|
    ensures forall i :: 0 <= i < |rows| ==> AddRules(rows, techniques, rule)[i] == Gained(rows, techniques, rule, i)
  {
    if techniques != [] {
      var init, t := techniques[..|techniques| - 1], techniques[|techniques| - 1];
      assert techniques == init + [t];
      AddRulesAt(rows, init, rule);
      var before := AddRules(rows, init, rule);
      SameKeys(rows, before);
      forall i | 0 <= i < |rows| ensures AddRule(before, t, rule)[i] == Gained(rows, techniques, rule, i) {
        AddRuleAt(before, t, rule, i);
        GainedOnce(rows[i], rule);
      }
      AddRulesLength(before, t, rule);
    }
  }

  lemma AddRulesLength(rows: seq<Row>, t: string, rule: Rule)
    ensures |AddRule(rows, t, rule)| == |rows|
  {
  }

  lemma SameKeys(rows: seq<Row>, other: seq<Row>)
    requires UniqueKeys(rows) && |rows| == |other|
    requires forall i :: 0 <= i < |rows| ==> IsRow(other[i], rows[i].technique, rows[i].framework)
    ensures UniqueKeys(other)
  {
  }

  // ----- the table invariant -----

  /** A row that already has a CVE, and whose rules all sort before the new one. */
  predicate TakesRule(row: Row, rule: Rule) {
    row.cves != [] && forall x :: x in row.rules ==> x < rule
  }

  lemma RowKeptIff(row: Row, rule: Rule, kev: set<Cve>)
    requires RowOk(row, kev)
    ensures RowOk(WithRule(row, rule), kev) <==> TakesRule(row, rule)
  {
    var rules := row.rules + [rule];
    assert forall i :: 0 <= i < |row.rules| ==> rules[i] == row.rules[i] && rules[i] in row.rules;
    assert rules[|row.rules|] == rule;
  }

  /** The action keeps the mapper's table invariant exactly when every row that gains the rule already has a CVE
      and lists smaller rules only. */
  lemma KeepsTableIff(rows: seq<Row>, techniques: seq<string>, rule: Rule, kev: set<Cve>)
    requires TableOk(rows, kev)
    ensures TableOk(AddRules(rows, techniques, rule), kev) <==>
            forall i :: 0 <= i < |rows| && Gains(rows, techniques, rule, i) ==> TakesRule(rows[i], rule)
  {
    var rows' := AddRules(rows, techniques, rule);
    AddRulesAt(rows, techniques, rule);
    SameKeys(rows, rows');
    forall i | 0 <= i < |rows|
      ensures RowOk(rows'[i], kev) <==> (Gains(rows, techniques, rule, i) ==> TakesRule(rows[i], rule))
    {
      RowKeptIff(rows[i], rule, kev);
    }
  }

  // ----- the matrix -----

  /** Rows that differ only where the filter looks away are selected alike. */
  lemma {:induction false} SelectSame(rows: seq<Row>, other: seq<Row>, f: Filters)
    requires |rows| == |other|
    requires forall i :: 0 <= i < |rows| ==>
               rows[i] == other[i] || (!Selected(f, rows[i]) && !Selected(f, other[i]))
    ensures Select(rows, f) == Select(other, f)
  {
    if rows != [] {
      SelectSame(rows[..|rows| - 1], other[..|other| - 1], f);
    }
  }

  /** A selected row that gains the rule gets a cell no row had. */
  lemma NewCell(rows: seq<Row>, texts: Texts, facts: Facts, techniques: seq<string>, rule: Rule, f: Filters, k: nat)
    requires UniqueKeys(rows) && k < |rows| && Selected(f, rows[k]) && Gains(rows, techniques, rule, k)
    ensures var c := CellOf(WithRule(rows[k], rule), LensOf(texts, facts, f));
            && c !in AllCells(DataOf(rows, texts, facts, f).tactics)
            && c in AllCells(DataOf(AddRules(rows, techniques, rule), texts, facts, f).tactics)
  {
    var lens, row, rows' := LensOf(texts, facts, f), WithRule(rows[k], rule), AddRules(rows, techniques, rule);
    var c := CellOf(row, lens);
    AddRulesAt(rows, techniques, rule);
    MatrixHas(rows, texts, facts, f, c);
    MatrixHas(rows', texts, facts, f, c);
    forall r | r in rows && Selected(f, r) ensures CellOf(r, lens) != c {
      var i :| 0 <= i < |rows| && rows[i] == r;
      assert i != k ==> r.technique != row.technique;
    }
    assert rows'[k] == row && row in rows' && Selected(f, row);
  }

  /** A row the filter selects gains the rule. */
  predicate SelectedGains(rows: seq<Row>, techniques: seq<string>, rule: Rule, f: Filters) {
    exists i :: 0 <= i < |rows| && Gains(rows, techniques, rule, i) && Selected(f, rows[i])
  }

  /** The action changes the matrix under a filter exactly when a row the filter selects gains the rule; otherwise
      the whole page stays the same. */
  lemma MatrixChangesIff(rows: seq<Row>, texts: Texts, facts: Facts, techniques: seq<string>, rule: Rule, f: Filters)
    requires UniqueKeys(rows)
    ensures var before := DataOf(rows, texts, facts, f);
            var after := DataOf(AddRules(rows, techniques, rule), texts, facts, f);
            && (after.tactics != before.tactics <==> SelectedGains(rows, techniques, rule, f))
            && (after.tactics == before.tactics ==> after == before)
  {
    AddRulesAt(rows, techniques, rule);
    if SelectedGains(rows, techniques, rule, f) {
      var k :| 0 <= k < |rows| && Gains(rows, techniques, rule, k) && Selected(f, rows[k]);
      NewCell(rows, texts, facts, techniques, rule, f, k);
    } else {
      SelectSame(rows, AddRules(rows, techniques, rule), f);
    }
  }

  /** A cached page goes stale under the action exactly in that case: nothing is invalidated, so the old page keeps
      being served. */
  lemma StaleIff(w: World, s: System, techniques: seq<string>, rule: Rule, f: Filters, now: string)
    requires Inv(w, s) && KeyOf(f) in s.store
    ensures var s' := s.(rows := AddRules(s.rows, techniques, rule));
            !Current(w, s'.rows, f, Served(w, s', f, now)) <==> SelectedGains(s.rows, techniques, rule, f)
  {
    var s' := s.(rows := AddRules(s.rows, techniques, rule));
    MatrixChangesIff(s.rows, w.texts, w.facts, techniques, rule, f);
    assert EntryCurrent(w, s.rows, f, s.store[KeyOf(f)]);
    assert Current(w, s.rows, f, Served(w, s, f, now));
    assert Served(w, s', f, now) == Served(w, s, f, now);
  }

  function TwoRows(): seq<Row> {
    var info := Info("", "", "", "", "", false);
    [Row("T1", DEFAULT_FRAMEWORK, info, Covered, [5], [1], 1, 0, false),
     Row("T2", DEFAULT_FRAMEWORK, info, NoData, [], [], 0, 0, false)]
  }

  lemma TwoRowsGain()
    ensures var rows, techniques := TwoRows(), ["T1", "T2"];
            && SelectedGains(rows, techniques, 5, Unfiltered(DEFAULT_FRAMEWORK))
            && Gains(rows, techniques, 5, 1) && !TakesRule(rows[1], 5)
  {
    var rows, techniques := TwoRows(), ["T1", "T2"];
    assert rows[1].technique == techniques[1];
    assert Gains(rows, techniques, 5, 1) && Selected(Unfiltered(DEFAULT_FRAMEWORK), rows[1]);
  }

  lemma FirstTechniqueWritesNothing()
    ensures AddRule(TwoRows(), "T1", 5) == TwoRows()
  {
    var rows := TwoRows();
    assert IsRow(rows[0], "T1", DEFAULT_FRAMEWORK);
    assert Find(rows, "T1", DEFAULT_FRAMEWORK) == 0;
    assert rows[0].rules[0] == 5;
  }

  /** Rule 5 is listed for T1 already and new for T2, whose row has no CVE yet: the first technique writes nothing,
      the whole action breaks the row invariant and makes every cached page of the full matrix stale. */
  lemma SecondTechniqueStales(w: World, store: Store, now: string)
    requires Inv(w, System(TwoRows(), store)) && KeyOf(Unfiltered(DEFAULT_FRAMEWORK)) in store
    ensures var rows, f := AddRules(TwoRows(), ["T1", "T2"], 5), Unfiltered(DEFAULT_FRAMEWORK);
            && AddRule(TwoRows(), "T1", 5) == TwoRows()
            && !TableOk(rows, KevSet(w.facts))
            && !Current(w, rows, f, Served(w, System(rows, store), f, now))
  {
    FirstTechniqueWritesNothing();
    TwoRowsGain();
    StaleIff(w, System(TwoRows(), store), ["T1", "T2"], 5, Unfiltered(DEFAULT_FRAMEWORK), now);
    KeepsTableIff(TwoRows(), ["T1", "T2"], 5, KevSet(w.facts));
  }

  // ----- the action in place -----

  class QueueSuperseder {
    var rows: seq<Row>

    method Apply(techniques: seq<string>, rule: Rule)
      modifies this
      ensures rows == AddRules(old(rows), techniques, rule)
    {
      for i := 0 to |techniques|
        invariant rows == AddRules(old(rows), techniques[..i], rule)
      {
        assert techniques[..i + 1][..i] == techniques[..i];
        FindFinds(rows, techniques[i], DEFAULT_FRAMEWORK);
        var k := Find(rows, techniques[i], DEFAULT_FRAMEWORK);
        if k < |rows| && rule !in rows[k].rules {
          rows := rows[k := WithRule(rows[k], rule)];
        }
      }
      assert techniques[..|techniques|] == techniques;
    }
  }
}
