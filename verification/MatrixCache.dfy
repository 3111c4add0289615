/** The cache in front of the matrix: any serial mix of mapping, reading, warming, invalidating and expiry
    serves what a fresh computation would. */
module MatrixCache {
  import opened CoverageTable
  import opened Ids
  import opened Matrix
  import opened MatrixCodec
  import opened MatrixCompute
  import opened MatrixSlices
  import opened Options

  // ----- keys -----

  /** The cache key before hashing; its digest is taken to be collision free. */
  datatype Key = Key(framework: string, cveId: string, dateFrom: string, dateTo: string, cvssMin: Option<real>,
                     kevOnly: bool, tactic: string, assessment: Option<nat>)

  function OrEmpty(o: Option<string>): string {
    if o.None? then "" else o.value
  }

  function KeyOf(f: Filters): Key {
    Key(f.framework, OrEmpty(f.cveId), OrEmpty(f.dateFrom), OrEmpty(f.dateTo), f.cvssMin, f.kevOnly,
        OrEmpty(f.tactic), f.assessment)
  }

  /** Two requests share a key exactly when they have the same effect. */
  lemma SharedKeyIff(f: Filters, g: Filters)
    ensures KeyOf(f) == KeyOf(g) <==> SameEffect(f, g)
  {
  }

  // ----- the system -----

  type Store = map<Key, Dict>

  datatype System = System(rows: seq<Row>, store: Store)

  /** What does not change: the CVE and chain tables and the text library. */
  datatype World = World(texts: Texts, facts: Facts)

  /** `now` is the ISO text of the moment a step computes a matrix. */
  datatype Step =
    | Map(run: MapRun)
    | Read(f: Filters, now: string)
    | Warm(framework: string, now: string)
    | Invalidate(only: Option<string>)
    | Expire(keys: set<Key>)

  function PageOf(w: World, rows: seq<Row>, f: Filters, now: string): Page {
    var d := DataOf(rows, w.texts, w.facts, f);
    Page(d.framework, d.tactics, d.summary, now, FiltersDict(f), false)
  }

  /** The keys the pattern `matrix:<framework>:*` of an invalidation matches: the framework's, those of a framework
      whose name continues it after a colon, or all when none is given. */
  predicate Matches(framework: Option<string>, k: Key) {
    Given(framework) ==> framework.value + ":" <= k.framework + ":"
  }

  lemma MatchedKeysIff(framework: string, k: Key)
    requires framework != ""
    ensures Matches(Some(framework), k) <==> k.framework == framework || framework + ":" <= k.framework
  {
    var given, own := framework + ":", k.framework + ":";
    if given <= own && |framework| < |k.framework| {
      assert forall i :: 0 <= i < |given| ==> given[i] == own[i] == k.framework[i];
    }
    if given <= own && |framework| == |k.framework| {
      assert forall i :: 0 <= i < |framework| ==> framework[i] == given[i] == own[i] == k.framework[i];
    }
  }

  function Drop(store: Store, framework: Option<string>): Store {
    store - set k | k in store && Matches(framework, k)
  }

  lemma DropIs(store: Store, framework: Option<string>, keys: set<Key>)
    requires forall k :: k in keys <==> k in store && Matches(framework, k)
    ensures store - keys == Drop(store, framework)
  {
    assert keys == set k | k in store && Matches(framework, k);
  }

  /** What a drop leaves, told from the names of the frameworks. */
  lemma DroppedIs(store: Store, framework: Option<string>)
    ensures framework == None || framework == Some("") ==> Drop(store, framework) == map[]
    ensures framework.Some? && framework.value != "" ==>
              forall k :: k in Drop(store, framework) <==>
                k in store && k.framework != framework.value && !(framework.value + ":" <= k.framework)
    ensures forall k :: k in Drop(store, framework) ==> Drop(store, framework)[k] == store[k]
  {
    if framework.Some? && framework.value != "" {
      forall k
        ensures Matches(framework, k) <==> k.framework == framework.value || framework.value + ":" <= k.framework
      {
        MatchedKeysIff(framework.value, k);
      }
    }
  }

  lemma DropCounts(store: Store, keys: set<Key>)
    requires keys <= store.Keys
    ensures |keys| == |store| - |store - keys|
  {
    assert (store - keys).Keys == store.Keys - keys;
    assert |store.Keys - keys| == |store.Keys| - |keys|;
  }

  /** What a read returns: the decoded entry when there is one, else a fresh computation. */
  function Served(w: World, s: System, f: Filters, now: string): Option<Page> {
    if KeyOf(f) in s.store then
      var page := FromDict(w.texts, s.store[KeyOf(f)], now);
      if page.Some? then Some(page.value.(cacheHit := true)) else None
    else Some(PageOf(w, s.rows, f, now))
  }

  function Apply(w: World, s: System, step: Step): System {
    match step
    case Map(run) =>
      s.(rows := Persist(s.rows, run, KevSet(w.facts)), store := Drop(s.store, Some(run.framework)))
    case Read(f, now) =>
      if KeyOf(f) in s.store then s else s.(store := s.store[KeyOf(f) := ToDict(PageOf(w, s.rows, f, now))])
    case Warm(framework, now) =>
      s.(store := s.store[KeyOf(Unfiltered(framework)) := ToDict(PageOf(w, s.rows, Unfiltered(framework), now))])
    case Invalidate(only) => s.(store := Drop(s.store, only))
    case Expire(keys) => s.(store := s.store - keys)
  }

  function Replay(w: World, s: System, steps: seq<Step>): System {
    if steps == [] then s else Apply(w, Replay(w, s, steps[..|steps| - 1]), steps[|steps| - 1])
  }

  /** Only chains of known CVEs are mapped, and clocks give instants. */
  predicate Legal(w: World, step: Step) {
    match step
    case Map(run) => run.cve in w.facts.cves && HasChain(w.facts, run.cve, None)
    case Read(_, now) => w.texts.instant(now).Some?
    case Warm(_, now) => w.texts.instant(now).Some?
    case _ => true
  }

  // ----- agreement -----

  predicate CvesChained(w: World, cves: set<Cve>) {
    forall c :: c in cves ==> c in w.facts.cves && HasChain(w.facts, c, None)
  }

  predicate RowsChained(w: World, rows: seq<Row>) {
    forall i :: 0 <= i < |rows| ==> CvesChained(w, Elems(rows[i].cves))
  }

  /** A page holds what computing now would give, whatever its timestamp, echo and hit flag. */
  predicate Current(w: World, rows: seq<Row>, f: Filters, page: Option<Page>) {
    page.Some? &&
    var d := DataOf(rows, w.texts, w.facts, f);
    page.value.framework == d.framework && page.value.tactics == d.tactics && page.value.summary == d.summary
  }

  /** The entry decodes, at whatever moment, to a current page. */
  ghost predicate EntryCurrent(w: World, rows: seq<Row>, f: Filters, entry: Dict) {
    forall now :: Current(w, rows, f, FromDict(w.texts, entry, now))
  }

  ghost predicate Agrees(w: World, s: System) {
    forall f :: KeyOf(f) in s.store ==> EntryCurrent(w, s.rows, f, s.store[KeyOf(f)])
  }

  ghost predicate Inv(w: World, s: System) {
    TableOk(s.rows, KevSet(w.facts)) && RowsChained(w, s.rows) && Agrees(w, s)
  }

  // ----- mapping keeps the table fit for the cache -----

  lemma MergeChained(w: World, row: Row, s: Report, cve: Cve)
    requires CvesChained(w, Elems(row.cves)) && CvesChained(w, {cve})
    ensures CvesChained(w, Elems(Merge(row, s, cve, KevSet(w.facts)).cves))
  {
    MergeSets(row, s, cve, KevSet(w.facts));
  }

  lemma PersistOneChained(w: World, rows: seq<Row>, s: Report, run: MapRun)
    requires RowsChained(w, rows) && CvesChained(w, {run.cve})
    ensures RowsChained(w, PersistOne(rows, s, run.framework, run.cve, KevSet(w.facts)))
  {
    FindFinds(rows, s.technique, run.framework);
    var k := Find(rows, s.technique, run.framework);
    if k < |rows| {
      MergeChained(w, rows[k], s, run.cve);
    } else {
      ElemsNonEmpty(Fresh(s, run.framework).cves);
      MergeChained(w, Fresh(s, run.framework), s, run.cve);
    }
  }

  lemma {:induction false} PersistChained(w: World, rows: seq<Row>, run: MapRun)
    requires RowsChained(w, rows) && CvesChained(w, {run.cve})
    ensures RowsChained(w, Persist(rows, run, KevSet(w.facts)))
    decreases |run.reports|
  {
    if run.reports != [] {
      var n := |run.reports| - 1;
      var init := run.(reports := run.reports[..n]);
      PersistChained(w, rows, init);
      PersistOneChained(w, Persist(rows, init, KevSet(w.facts)), run.reports[n], run);
    }
  }

  /** The matrix of a framework depends on that framework's rows only. */
  lemma {:induction false} SelectOwnRows(rows: seq<Row>, f: Filters)
    ensures Select(RowsOf(rows, f.framework), f) == Select(rows, f)
    decreases |rows|
  {
    if rows != [] {
      var init, last := rows[..|rows| - 1], rows[|rows| - 1];
      assert rows == init + [last];
      SelectOwnRows(init, f);
      RowsOfAppended(init, last, f.framework);
      var own := RowsOf(init, f.framework);
      assert own + [] == own && (own + [last])[..|own|] == own;
    }
  }

  lemma OtherFrameworkSameMatrix(w: World, rows: seq<Row>, run: MapRun, f: Filters)
    requires f.framework != run.framework
    ensures DataOf(Persist(rows, run, KevSet(w.facts)), w.texts, w.facts, f) == DataOf(rows, w.texts, w.facts, f)
  {
    OtherFrameworksKept(rows, run, KevSet(w.facts), f.framework);
    SelectOwnRows(rows, f);
    SelectOwnRows(Persist(rows, run, KevSet(w.facts)), f);
  }

  // ----- the invariant -----

  /** A page just computed for one request is current for every request sharing its key. */
  lemma FreshEntryCurrent(w: World, rows: seq<Row>, g: Filters, now: string, f: Filters)
    requires TableOk(rows, KevSet(w.facts)) && RowsChained(w, rows)
    requires w.texts.instant(now).Some? && KeyOf(f) == KeyOf(g)
    ensures EntryCurrent(w, rows, f, ToDict(PageOf(w, rows, g, now)))
  {
    SharedKeyIff(f, g);
    SameEffectSameMatrix(rows, w.texts, w.facts, f, g);
    forall later ensures Current(w, rows, f, FromDict(w.texts, ToDict(PageOf(w, rows, g, now)), later)) {
      RoundTrip(w.texts, PageOf(w, rows, g, now), later);
    }
  }

  lemma PutAgrees(w: World, s: System, g: Filters, now: string)
    requires Inv(w, s) && w.texts.instant(now).Some?
    ensures Agrees(w, s.(store := s.store[KeyOf(g) := ToDict(PageOf(w, s.rows, g, now))]))
  {
    var store := s.store[KeyOf(g) := ToDict(PageOf(w, s.rows, g, now))];
    forall f | KeyOf(f) in store ensures EntryCurrent(w, s.rows, f, store[KeyOf(f)]) {
      if KeyOf(f) == KeyOf(g) { FreshEntryCurrent(w, s.rows, g, now, f); }
    }
  }

  lemma MapAgrees(w: World, s: System, run: MapRun)
    requires Agrees(w, s)
    ensures Agrees(w, Apply(w, s, Map(run)))
  {
    var s' := Apply(w, s, Map(run));
    forall f | KeyOf(f) in s'.store ensures EntryCurrent(w, s'.rows, f, s'.store[KeyOf(f)]) {
      if run.framework == "" { assert false; }
      OtherFrameworkSameMatrix(w, s.rows, run, f);
      assert EntryCurrent(w, s.rows, f, s.store[KeyOf(f)]);
    }
  }

  lemma StepKeepsInv(w: World, s: System, step: Step)
    requires Inv(w, s) && Legal(w, step)
    ensures Inv(w, Apply(w, s, step))
  {
    match step
    case Map(run) =>
      PersistOk(s.rows, run, KevSet(w.facts));
      PersistChained(w, s.rows, run);
      MapAgrees(w, s, run);
    case Read(f, now) => PutAgrees(w, s, f, now);
    case Warm(framework, now) => PutAgrees(w, s, Unfiltered(framework), now);
    case Invalidate(_) =>
    case Expire(_) =>
  }

  lemma {:induction false} ReplayKeepsInv(w: World, s: System, steps: seq<Step>)
    requires Inv(w, s) && forall i :: 0 <= i < |steps| ==> Legal(w, steps[i])
    ensures Inv(w, Replay(w, s, steps))
  {
    if steps != [] {
      ReplayKeepsInv(w, s, steps[..|steps| - 1]);
      StepKeepsInv(w, Replay(w, s, steps[..|steps| - 1]), steps[|steps| - 1]);
    }
  }

  /** Cache agreement: after any history from a seeded table and an empty cache, every read serves the matrix a
      fresh computation gives. */
  lemma EveryReadIsCurrent(w: World, rows: seq<Row>, steps: seq<Step>, f: Filters, now: string)
    requires Seeded(rows) && forall i :: 0 <= i < |steps| ==> Legal(w, steps[i])
    ensures var s := Replay(w, System(rows, map[]), steps); Current(w, s.rows, f, Served(w, s, f, now))
  {
    SeededView(rows, KevSet(w.facts), "", "");
    assert forall i :: 0 <= i < |rows| ==> rows[i].cves == [];
    ReplayKeepsInv(w, System(rows, map[]), steps);
  }

  // ----- who wrote an entry -----

  /** The request whose computation an entry holds, and the moment of it. */
  datatype Writer = Writer(f: Filters, at: string)

  /** The writer of every entry after one step. */
  function Rewritten(writers: map<Key, Writer>, before: System, step: Step, after: System): map<Key, Writer> {
    var kept := map k | k in writers && k in after.store :: writers[k];
    match step
    case Read(f, now) => if KeyOf(f) in before.store then kept else kept[KeyOf(f) := Writer(f, now)]
    case Warm(framework, now) => kept[KeyOf(Unfiltered(framework)) := Writer(Unfiltered(framework), now)]
    case _ => kept
  }

  /** The writer of every entry after a history that starts with an empty cache. */
  function Writers(w: World, rows: seq<Row>, steps: seq<Step>): map<Key, Writer> {
    if steps == [] then map[]
    else
      var before := Replay(w, System(rows, map[]), steps[..|steps| - 1]);
      var step := steps[|steps| - 1];
      Rewritten(Writers(w, rows, steps[..|steps| - 1]), before, step, Apply(w, before, step))
  }

  /** The entry decodes, at whatever moment, to what its writer would compute now, with the writer's timestamp. */
  ghost predicate WrittenBy(w: World, rows: seq<Row>, k: Key, entry: Dict, author: Writer) {
    && KeyOf(author.f) == k
    && forall now :: FromDict(w.texts, entry, now) == Some(PageOf(w, rows, author.f, author.at))
  }

  ghost predicate Authored(w: World, s: System, writers: map<Key, Writer>) {
    && writers.Keys == s.store.Keys
    && forall k :: k in s.store ==> WrittenBy(w, s.rows, k, s.store[k], writers[k])
  }

  lemma FreshIsWritten(w: World, rows: seq<Row>, f: Filters, now: string)
    requires w.texts.instant(now).Some?
    ensures WrittenBy(w, rows, KeyOf(f), ToDict(PageOf(w, rows, f, now)), Writer(f, now))
  {
    forall later ensures FromDict(w.texts, ToDict(PageOf(w, rows, f, now)), later) == Some(PageOf(w, rows, f, now)) {
      RoundTrip(w.texts, PageOf(w, rows, f, now), later);
    }
  }

  lemma PutAuthored(w: World, s: System, writers: map<Key, Writer>, f: Filters, now: string)
    requires Authored(w, s, writers) && w.texts.instant(now).Some?
    ensures Authored(w, s.(store := s.store[KeyOf(f) := ToDict(PageOf(w, s.rows, f, now))]),
                     writers[KeyOf(f) := Writer(f, now)])
  {
    FreshIsWritten(w, s.rows, f, now);
  }

  lemma MapAuthored(w: World, s: System, writers: map<Key, Writer>, run: MapRun)
    requires Authored(w, s, writers)
    ensures Authored(w, Apply(w, s, Map(run)), Rewritten(writers, s, Map(run), Apply(w, s, Map(run))))
  {
    var s' := Apply(w, s, Map(run));
    forall k | k in s'.store ensures WrittenBy(w, s'.rows, k, s'.store[k], writers[k]) {
      assert WrittenBy(w, s.rows, k, s.store[k], writers[k]);
      if run.framework != "" {
        OtherFrameworkSameMatrix(w, s.rows, run, writers[k].f);
      }
    }
  }

  lemma StepAuthored(w: World, s: System, writers: map<Key, Writer>, step: Step)
    requires Authored(w, s, writers) && Legal(w, step)
    ensures Authored(w, Apply(w, s, step), Rewritten(writers, s, step, Apply(w, s, step)))
  {
    var s' := Apply(w, s, step);
    var kept := map k | k in writers && k in s'.store :: writers[k];
    match step
    case Map(run) => MapAuthored(w, s, writers, run);
    case Read(f, now) =>
      assert kept == writers;
      if KeyOf(f) !in s.store { PutAuthored(w, s, writers, f, now); }
    case Warm(framework, now) =>
      assert kept == writers;
      PutAuthored(w, s, writers, Unfiltered(framework), now);
    case Invalidate(_) =>
    case Expire(_) =>
  }

  lemma {:induction false} HistoryAuthored(w: World, rows: seq<Row>, steps: seq<Step>)
    requires forall i :: 0 <= i < |steps| ==> Legal(w, steps[i])
    ensures Authored(w, Replay(w, System(rows, map[]), steps), Writers(w, rows, steps))
  {
    if steps != [] {
      var init := steps[..|steps| - 1];
      HistoryAuthored(w, rows, init);
      StepAuthored(w, Replay(w, System(rows, map[]), init), Writers(w, rows, init), steps[|steps| - 1]);
    }
  }

  /** After any history a read is a hit exactly when its key has a writer; a hit serves what the writer would
      compute now, with the writer's timestamp and filters and the hit flag set. */
  lemma HitIsWritersPage(w: World, rows: seq<Row>, steps: seq<Step>, f: Filters, now: string)
    requires forall i :: 0 <= i < |steps| ==> Legal(w, steps[i])
    ensures var s, writers := Replay(w, System(rows, map[]), steps), Writers(w, rows, steps);
            && (KeyOf(f) in s.store <==> KeyOf(f) in writers)
            && (KeyOf(f) in writers ==>
                  var author := writers[KeyOf(f)];
                  KeyOf(author.f) == KeyOf(f) && Served(w, s, f, now) ==
                      Some(PageOf(w, s.rows, author.f, author.at).(cacheHit := true)))
  {
    HistoryAuthored(w, rows, steps);
    var s := Replay(w, System(rows, map[]), steps);
    if KeyOf(f) in s.store {
      assert WrittenBy(w, s.rows, KeyOf(f), s.store[KeyOf(f)], Writers(w, rows, steps)[KeyOf(f)]);
    }
  }

  // ----- the echoed filters -----

  /** The page with its timestamp and hit flag set aside. */
  function Settled(p: Page, now: string): Page {
    p.(generatedAt := now, cacheHit := false)
  }

  /** After any history a read serves exactly the page a fresh computation gives, timestamp and hit flag aside,
      unless it hits an entry that another request wrote. */
  lemma EchoIsOwnIff(w: World, rows: seq<Row>, steps: seq<Step>, f: Filters, now: string)
    requires Seeded(rows) && forall i :: 0 <= i < |steps| ==> Legal(w, steps[i])
    ensures var s, writers := Replay(w, System(rows, map[]), steps), Writers(w, rows, steps);
            var page := Served(w, s, f, now);
            && page.Some?
            && (Settled(page.value, now) == PageOf(w, s.rows, f, now)
                <==> KeyOf(f) in writers ==> writers[KeyOf(f)].f == f)
  {
    var s, writers := Replay(w, System(rows, map[]), steps), Writers(w, rows, steps);
    HitIsWritersPage(w, rows, steps, f, now);
    EveryReadIsCurrent(w, rows, steps, f, now);
    if KeyOf(f) in writers {
      EchoIdentifies(f, writers[KeyOf(f)].f);
    }
  }

  predicate AbsentIsNone(f: Filters) {
    f.cveId != Some("") && f.dateFrom != Some("") && f.dateTo != Some("") && f.tactic != Some("")
  }

  lemma NoneKeysAreOwn(f: Filters, g: Filters)
    requires AbsentIsNone(f) && AbsentIsNone(g) && KeyOf(f) == KeyOf(g)
    ensures f == g
  {
  }

  /** Every read of the history gives its absent filters as None. */
  predicate ReadsGiveNone(steps: seq<Step>) {
    forall i :: 0 <= i < |steps| && steps[i].Read? ==> AbsentIsNone(steps[i].f)
  }

  lemma {:induction false} WritersGiveNone(w: World, rows: seq<Row>, steps: seq<Step>, k: Key)
    requires ReadsGiveNone(steps) && k in Writers(w, rows, steps)
    ensures AbsentIsNone(Writers(w, rows, steps)[k].f)
  {
    var init, last := steps[..|steps| - 1], steps[|steps| - 1];
    assert last.Read? ==> AbsentIsNone(last.f);
    assert forall i :: 0 <= i < |init| ==> init[i] == steps[i];
    if k in Writers(w, rows, init) { WritersGiveNone(w, rows, init, k); }
  }

  /** Cache agreement in full: over any serial history of mapping, reading, warming, invalidating and expiry, with
      absent filters given as None, every page served equals a fresh computation up to timestamp and hit flag. */
  lemma EveryReadIsFresh(w: World, rows: seq<Row>, steps: seq<Step>, f: Filters, now: string)
    requires Seeded(rows) && forall i :: 0 <= i < |steps| ==> Legal(w, steps[i])
    requires ReadsGiveNone(steps) && AbsentIsNone(f)
    ensures var s := Replay(w, System(rows, map[]), steps);
            var page := Served(w, s, f, now);
            page.Some? && Settled(page.value, now) == PageOf(w, s.rows, f, now)
  {
    EchoIsOwnIff(w, rows, steps, f, now);
    HitIsWritersPage(w, rows, steps, f, now);
    var writers := Writers(w, rows, steps);
    if KeyOf(f) in writers {
      WritersGiveNone(w, rows, steps, KeyOf(f));
      NoneKeysAreOwn(f, writers[KeyOf(f)].f);
    }
  }

  /** An empty tactic and no tactic share a key but not an echo. */
  lemma EmptyTacticSharesKey(framework: string)
    ensures var f := Unfiltered(framework);
            KeyOf(f.(tactic := Some(""))) == KeyOf(f) && FiltersDict(f.(tactic := Some(""))) != FiltersDict(f)
  {
    EchoIdentifies(Unfiltered(framework), Unfiltered(framework).(tactic := Some("")));
  }

  // ----- the cache object -----

  class Cache {
    var store: Store

    constructor ()
      ensures store == map[]
    {
      store := map[];
    }

    method GetMatrixData(w: World, rows: seq<Row>, filters: Option<Filters>, now: string) returns (page: Option<Page>)
      modifies this
      ensures var f := if filters.None? then Unfiltered("attck") else filters.value;
              && page == Served(w, System(rows, old(store)), f, now)
              && System(rows, store) == Apply(w, System(rows, old(store)), Read(f, now))
    {
      var f := if filters.None? then Unfiltered("attck") else filters.value;
      if KeyOf(f) in store {
        page := FromDict(w.texts, store[KeyOf(f)], now);
        if page.Some? {
          page := Some(page.value.(cacheHit := true));
        }
        return;
      }
      var data := Compute(rows, w.texts, w.facts, f);
      var computed := Page(data.framework, data.tactics, data.summary, now, FiltersDict(f), false);
      store := store[KeyOf(f) := ToDict(computed)];
      page := Some(computed);
    }

    method WarmUp(w: World, rows: seq<Row>, framework: string, now: string) returns (page: Page)
      modifies this
      ensures page == PageOf(w, rows, Unfiltered(framework), now)
      ensures System(rows, store) == Apply(w, System(rows, old(store)), Warm(framework, now))
    {
      var f := Unfiltered(framework);
      var data := Compute(rows, w.texts, w.facts, f);
      page := Page(data.framework, data.tactics, data.summary, now, FiltersDict(f), false);
      store := store[KeyOf(f) := ToDict(page)];
    }

    /** Scans for matching keys, then deletes them; returns how many. */
    method DropKeys(framework: Option<string>) returns (deleted: nat)
      modifies this
      ensures store == Drop(old(store), framework)
      ensures framework == None || framework == Some("") ==> store == map[] && deleted == |old(store)|
      ensures framework.Some? && framework.value != "" ==>
                forall k :: k in store <==>
                  k in old(store) && k.framework != framework.value && !(framework.value + ":" <= k.framework)
      ensures forall k :: k in store ==> store[k] == old(store)[k]
      ensures deleted == |old(store)| - |store|
    {
      var todo, keys := store.Keys, {};
      while todo != {}
        invariant store == old(store) && todo <= store.Keys
        invariant forall k :: k in keys <==> k in store && k !in todo && Matches(framework, k)
        decreases |todo|
      {
        var k :| k in todo;
        todo := todo - {k};
        if Matches(framework, k) {
          keys := keys + {k};
        }
      }
      deleted := |keys|;
      DropIs(store, framework, keys);
      DropCounts(store, keys);
      DroppedIs(store, framework);
      store := store - keys;
    }
  }
}
