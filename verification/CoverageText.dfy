/** What mapping leaves of the descriptive columns of a coverage row, and where rows stand. */
module CoverageText {
  import opened CoverageTable
  import opened Options

  /** The columns a report also names. */
  datatype Column = TechniqueName | TacticId | TacticName

  function Text(i: Info, c: Column): string {
    match c
    case TechniqueName => i.techniqueName
    case TacticId => i.tactic
    case TacticName => i.tacticName
  }

  function Said(s: Report, c: Column): string {
    match c
    case TechniqueName => s.techniqueName
    case TacticId => s.tactic
    case TacticName => s.tacticName
  }

  /** The text a column shows; "" also when the key has no row. */
  function TextAt(rows: seq<Row>, t: string, f: string, c: Column): string {
    var r := Lookup(rows, t, f);
    if r.None? then "" else Text(r.value.info, c)
  }

  /** The texts the reports give for a technique, in order. */
  function Told(reports: seq<Report>, t: string, c: Column): seq<string> {
    if reports == [] then []
    else
      var n := |reports| - 1;
      Told(reports[..n], t, c) + if reports[n].technique == t then [Said(reports[n], c)] else []
  }

  function ToldBy(run: MapRun, t: string, f: string, c: Column): seq<string> {
    if run.framework == f then Told(run.reports, t, c) else []
  }

  function ToldByAll(runs: seq<MapRun>, t: string, f: string, c: Column): seq<string> {
    if runs == [] then [] else ToldByAll(runs[..|runs| - 1], t, f, c) + ToldBy(runs[|runs| - 1], t, f, c)
  }

  /** The first text that is not empty, or "". */
  function FirstText(texts: seq<string>): string {
    if texts == [] then ""
    else
      var n := |texts| - 1;
      if FirstText(texts[..n]) != "" then FirstText(texts[..n]) else texts[n]
  }

  lemma {:induction false} FirstTextIs(texts: seq<string>, i: nat)
    requires i < |texts| && texts[i] != "" && forall j :: 0 <= j < i ==> texts[j] == ""
    ensures FirstText(texts) == texts[i]
  {
    var n := |texts| - 1;
    if i < n {
      FirstTextIs(texts[..n], i);
    } else {
      NoText(texts[..n]);
    }
  }

  lemma {:induction false} NoText(texts: seq<string>)
    requires forall j :: 0 <= j < |texts| ==> texts[j] == ""
    ensures FirstText(texts) == ""
  {
    if texts != [] {
      NoText(texts[..|texts| - 1]);
    }
  }

  lemma FirstTextAppend(texts: seq<string>, last: string)
    ensures FirstText(texts + [last]) == if FirstText(texts) != "" then FirstText(texts) else last
  {
    assert (texts + [last])[..|texts|] == texts;
  }

  lemma FirstOfTwo(a: string, b: string)
    ensures FirstText([a]) == a && FirstText([a, b]) == if a != "" then a else b
  {
    assert [a][..0] == [];
    assert [a, b] == [a] + [b];
    FirstTextAppend([a], b);
  }

  lemma {:induction false} FirstTextSplits(x: string, told: seq<string>, more: seq<string>)
    ensures FirstText([FirstText([x] + told)] + more) == FirstText([x] + (told + more))
    decreases |more|
  {
    if more == [] {
      FirstOfTwo(FirstText([x] + told), "");
      assert [FirstText([x] + told)] + more == [FirstText([x] + told)];
      assert [x] + (told + more) == [x] + told;
    } else {
      var n := |more| - 1;
      var init, last := more[..n], more[n];
      assert more == init + [last];
      FirstTextSplits(x, told, init);
      FirstTextAppend([FirstText([x] + told)] + init, last);
      FirstTextAppend([x] + (told + init), last);
      assert [FirstText([x] + told)] + more == [FirstText([x] + told)] + init + [last];
      assert [x] + (told + more) == [x] + (told + init) + [last];
    }
  }

  lemma PersistOneText(rows: seq<Row>, s: Report, framework: string, cve: Cve, kev: set<Cve>, t: string, f: string,
                       c: Column)
    ensures TextAt(PersistOne(rows, s, framework, cve, kev), t, f, c) ==
            if t == s.technique && f == framework && TextAt(rows, t, f, c) == "" then Said(s, c)
            else TextAt(rows, t, f, c)
  {
    PersistOneAt(rows, s, framework, cve, kev, t, f);
  }

  lemma ToldByMore(run: MapRun, s: Report, t: string, f: string, c: Column)
    ensures ToldBy(run.(reports := run.reports + [s]), t, f, c) ==
            ToldBy(run, t, f, c) + if t == s.technique && f == run.framework then [Said(s, c)] else []
  {
    var more := run.reports + [s];
    assert more[..|run.reports|] == run.reports && more[|run.reports|] == s;
  }

  /** One more report after the told ones. */
  lemma TellMore(x: string, told: seq<string>, hit: bool, said: string)
    ensures var first := FirstText([x] + told);
            FirstText([x] + (told + if hit then [said] else [])) == if hit && first == "" then said else first
  {
    if hit {
      FirstTextAppend([x] + told, said);
      assert [x] + (told + [said]) == [x] + told + [said];
    } else {
      assert told + [] == told;
    }
  }

  lemma {:induction false} PersistText(rows: seq<Row>, run: MapRun, kev: set<Cve>, t: string, f: string, c: Column)
    ensures TextAt(Persist(rows, run, kev), t, f, c) == FirstText([TextAt(rows, t, f, c)] + ToldBy(run, t, f, c))
    decreases |run.reports|
  {
    var x := TextAt(rows, t, f, c);
    if run.reports == [] {
      FirstOfTwo(x, "");
      assert [x] + ToldBy(run, t, f, c) == [x];
    } else {
      var n := |run.reports| - 1;
      var init, s := run.(reports := run.reports[..n]), run.reports[n];
      assert init.reports + [s] == run.reports && run == init.(reports := run.reports);
      PersistText(rows, init, kev, t, f, c);
      PersistOneText(Persist(rows, init, kev), s, run.framework, run.cve, kev, t, f, c);
      ToldByMore(init, s, t, f, c);
      TellMore(x, ToldBy(init, t, f, c), t == s.technique && f == run.framework, Said(s, c));
    }
  }

  /** After any history a descriptive column shows the seeded text when there is one, and otherwise the first
      text that is not empty among those the runs reported for its key. */
  lemma {:induction false} MapAllText(rows: seq<Row>, runs: seq<MapRun>, kev: set<Cve>, t: string, f: string, c: Column)
    ensures TextAt(MapAll(rows, runs, kev), t, f, c) ==
            FirstText([TextAt(rows, t, f, c)] + ToldByAll(runs, t, f, c))
  {
    var x := TextAt(rows, t, f, c);
    if runs == [] {
      FirstOfTwo(x, "");
      assert [x] + ToldByAll(runs, t, f, c) == [x];
    } else {
      var init, last := runs[..|runs| - 1], runs[|runs| - 1];
      MapAllText(rows, init, kev, t, f, c);
      PersistText(MapAll(rows, init, kev), last, kev, t, f, c);
      FirstTextSplits(x, ToldByAll(init, t, f, c), ToldBy(last, t, f, c));
    }
  }

  /** The columns only seeding writes. */
  function Hierarchy(i: Info): (string, string, bool) {
    (i.subTechnique, i.parent, i.hasSubtechniques)
  }

  function HierarchyAt(rows: seq<Row>, t: string, f: string): (string, string, bool) {
    var r := Lookup(rows, t, f);
    if r.None? then ("", "", false) else Hierarchy(r.value.info)
  }

  lemma {:induction false} PersistHierarchy(rows: seq<Row>, run: MapRun, kev: set<Cve>, t: string, f: string)
    ensures HierarchyAt(Persist(rows, run, kev), t, f) == HierarchyAt(rows, t, f)
    decreases |run.reports|
  {
    if run.reports != [] {
      var n := |run.reports| - 1;
      var init := run.(reports := run.reports[..n]);
      PersistHierarchy(rows, init, kev, t, f);
      PersistOneAt(Persist(rows, init, kev), run.reports[n], run.framework, run.cve, kev, t, f);
    }
  }

  /** Mapping never writes them; a row it creates has none. */
  lemma {:induction false} MapAllHierarchy(rows: seq<Row>, runs: seq<MapRun>, kev: set<Cve>, t: string, f: string)
    ensures HierarchyAt(MapAll(rows, runs, kev), t, f) == HierarchyAt(rows, t, f)
  {
    if runs != [] {
      MapAllHierarchy(rows, runs[..|runs| - 1], kev, t, f);
      PersistHierarchy(MapAll(rows, runs[..|runs| - 1], kev), runs[|runs| - 1], kev, t, f);
    }
  }

  // ----- where rows stand -----

  /** Old rows keep their places, and every row behind them is one `Hits` asks for. */
  ghost predicate Extends(before: seq<Row>, after: seq<Row>, runs: seq<MapRun>) {
    && |before| <= |after|
    && (forall i :: 0 <= i < |before| ==> IsRow(after[i], before[i].technique, before[i].framework))
    && (forall i :: |before| <= i < |after| ==> Hit(runs, after[i].technique, after[i].framework))
  }

  lemma OneHits(run: MapRun, t: string, f: string)
    ensures Hit([run], t, f) <==> Hits(run, t, f)
  {
    assert run in [run];
  }

  lemma PersistOneExtends(rows: seq<Row>, s: Report, cve: Cve, kev: set<Cve>, run: MapRun)
    requires Mentions(run.reports, s.technique)
    ensures Extends(rows, PersistOne(rows, s, run.framework, cve, kev), [run])
  {
    FindFinds(rows, s.technique, run.framework);
    OneHits(run, s.technique, run.framework);
  }

  lemma ExtendsTwice(a: seq<Row>, b: seq<Row>, c: seq<Row>, runs: seq<MapRun>, run: MapRun, more: seq<MapRun>)
    requires Extends(a, b, runs) && Extends(b, c, [run])
    requires forall r :: r in more <==> r in runs || r == run
    ensures Extends(a, c, more)
  {
    forall i | |a| <= i < |c| ensures Hit(more, c[i].technique, c[i].framework) {
      OneHits(run, c[i].technique, c[i].framework);
      if i < |b| {
        assert Hit(runs, b[i].technique, b[i].framework);
      }
    }
  }

  lemma {:induction false} PersistExtends(rows: seq<Row>, part: MapRun, kev: set<Cve>, run: MapRun)
    requires part.framework == run.framework && part.reports <= run.reports
    ensures Extends(rows, Persist(rows, part, kev), [run])
    decreases |part.reports|
  {
    if part.reports != [] {
      var n := |part.reports| - 1;
      var init, s := part.(reports := part.reports[..n]), part.reports[n];
      assert run.reports[n] == s;
      PersistExtends(rows, init, kev, run);
      PersistOneExtends(Persist(rows, init, kev), s, part.cve, kev, run);
      ExtendsTwice(rows, Persist(rows, init, kev), Persist(rows, part, kev), [run], run, [run]);
    }
  }

  /** Mapping never moves a row: created ones stand behind all that were there, and only reported keys have one. */
  lemma {:induction false} MapAllExtends(rows: seq<Row>, runs: seq<MapRun>, kev: set<Cve>)
    ensures Extends(rows, MapAll(rows, runs, kev), runs)
  {
    if runs != [] {
      var init, last := runs[..|runs| - 1], runs[|runs| - 1];
      assert runs == init + [last];
      MapAllExtends(rows, init, kev);
      PersistExtends(MapAll(rows, init, kev), last, kev, last);
      ExtendsTwice(rows, MapAll(rows, init, kev), MapAll(rows, runs, kev), init, last, runs);
    }
  }
}
