/** The cached form of a matrix: its JSON payload, and reading it back. */
module MatrixCodec {
  import opened CoverageTable
  import opened Matrix
  import opened Options

  /** The keys of the payload's objects. */
  datatype Field =
    | Framework | Tactics | GeneratedAt | FiltersApplied | CacheHit
    | TacticId | TacticName | Techniques
    | TechniqueId | TechniqueName | SubTechniqueId | ParentTechniqueId | CoverageStatus
    | CoveringRuleCount | ChainCveCount | KevCveCount | KevExposed | HasSubtechniques
    | Totals | Total | CoveredCount | PartialCount | GapCount | NoDataCount
    | CveId | DateFrom | DateTo | CvssMin | KevOnly | AssessmentId

  datatype Json = Null | Bool(b: bool) | Num(n: int) | Real(r: real) | Str(s: string) | Arr(items: seq<Json>)
      | Obj(fields: Dict)

  type Dict = map<Field, Json>

  /** A matrix as served: data, the ISO text of its timestamp, the echoed filters and the hit flag. */
  datatype Page = Page(framework: string, tactics: seq<Tactic>, summary: Summary, generatedAt: string,
                       applied: Dict, cacheHit: bool)

  // ----- writing -----

  /** "" stands for an absent text. */
  function TextOrNull(s: string): Json {
    if s == "" then Null else Str(s)
  }

  function OptionalText(o: Option<string>): Json {
    if o.None? then Null else Str(o.value)
  }

  function StatusText(s: Status): string {
    match s
    case Covered => "covered"
    case Partial => "partial"
    case Gap => "gap"
    case NoData => "no_data"
  }

  function FiltersDict(f: Filters): Dict {
    map[Framework := Str(f.framework), CveId := OptionalText(f.cveId), DateFrom := OptionalText(f.dateFrom),
        DateTo := OptionalText(f.dateTo), CvssMin := if f.cvssMin.None? then Null else Real(f.cvssMin.value),
        KevOnly := Bool(f.kevOnly), TacticId := OptionalText(f.tactic),
        AssessmentId := if f.assessment.None? then Null else Num(f.assessment.value)]
  }

  function CellJson(c: Cell): Json {
    Obj(map[TechniqueId := Str(c.technique), TechniqueName := TextOrNull(c.name),
            SubTechniqueId := TextOrNull(c.subTechnique), ParentTechniqueId := TextOrNull(c.parent),
            CoverageStatus := Str(StatusText(c.status)), CoveringRuleCount := Num(c.rules),
            ChainCveCount := Num(c.cves), KevCveCount := Num(c.kevs), KevExposed := Bool(c.kevExposed),
            HasSubtechniques := Bool(c.hasSubtechniques)])
  }

  /** A list, element by element. */
  function List<T>(xs: seq<T>, write: T -> Json): seq<Json> {
    if xs == [] then [] else List(xs[..|xs| - 1], write) + [write(xs[|xs| - 1])]
  }

  function TacticJson(t: Tactic): Json {
    Obj(map[TacticId := Str(t.id), TacticName := TextOrNull(t.name), Techniques := Arr(List(t.cells, CellJson))])
  }

  function SummaryJson(s: Summary): Json {
    Obj(map[Total := Num(s.total), CoveredCount := Num(s.covered), PartialCount := Num(s.partial),
        GapCount := Num(s.gap), NoDataCount := Num(s.noData), KevExposed := Num(s.kevExposed)])
  }

  function ToDict(p: Page): Dict {
    map[Framework := Str(p.framework), Tactics := Arr(List(p.tactics, TacticJson)), Totals := SummaryJson(p.summary),
        GeneratedAt := Str(p.generatedAt), FiltersApplied := Obj(p.applied), CacheHit := Bool(p.cacheHit)]
  }

  // ----- reading; None where a required field is missing or a value is not of the kind written -----

  function Get(o: Dict, key: Field, default: Json): Json {
    if key in o then o[key] else default
  }

  function ReadText(j: Json): Option<string> {
    match j
    case Str(s) => Some(s)
    case _ => None
  }

  function ReadOptionalText(j: Json): Option<string> {
    if j == Null then Some("") else ReadText(j)
  }

  function ReadCount(j: Json): Option<nat> {
    if j.Num? && j.n >= 0 then Some(j.n) else None
  }

  function ReadFlag(j: Json): Option<bool> {
    if j.Bool? then Some(j.b) else None
  }

  function ReadStatus(j: Json): Option<Status> {
    if j == Str("covered") then Some(Covered)
    else if j == Str("partial") then Some(Partial)
    else if j == Str("gap") then Some(Gap)
    else if j == Str("no_data") then Some(NoData)
    else None
  }

  function ReadCell(j: Json): Option<Cell> {
    if !j.Obj? || TechniqueId !in j.fields then None
    else
      var o := j.fields;
      var technique := ReadText(o[TechniqueId]);
      var name := ReadOptionalText(Get(o, TechniqueName, Null));
      var subTechnique := ReadOptionalText(Get(o, SubTechniqueId, Null));
      var parent := ReadOptionalText(Get(o, ParentTechniqueId, Null));
      var status := ReadStatus(Get(o, CoverageStatus, Str("no_data")));
      var rules := ReadCount(Get(o, CoveringRuleCount, Num(0)));
      var cves := ReadCount(Get(o, ChainCveCount, Num(0)));
      var kevs := ReadCount(Get(o, KevCveCount, Num(0)));
      var kevExposed := ReadFlag(Get(o, KevExposed, Bool(false)));
      var hasSub := ReadFlag(Get(o, HasSubtechniques, Bool(false)));
      if technique.Some? && name.Some? && subTechnique.Some? && parent.Some? && status.Some?
         && rules.Some? && cves.Some? && kevs.Some? && kevExposed.Some? && hasSub.Some?
      then Some(Cell(technique.value, name.value, subTechnique.value, parent.value, status.value,
                     rules.value, cves.value, kevs.value, kevExposed.value, hasSub.value))
      else None
  }

  function ReadList<T>(items: seq<Json>, read: Json -> Option<T>): Option<seq<T>> {
    if items == [] then Some([])
    else
      var init, last := ReadList(items[..|items| - 1], read), read(items[|items| - 1]);
      if init.Some? && last.Some? then Some(init.value + [last.value]) else None
  }

  function ReadTactic(j: Json): Option<Tactic> {
    if !j.Obj? || TacticId !in j.fields then None
    else
      var id := ReadText(j.fields[TacticId]);
      var name := ReadOptionalText(Get(j.fields, TacticName, Null));
      var techniques := Get(j.fields, Techniques, Arr([]));
      var cells := if techniques.Arr? then ReadList(techniques.items, ReadCell) else None;
      if id.Some? && name.Some? && cells.Some? then Some(Tactic(id.value, name.value, cells.value)) else None
  }

  function ReadSummary(j: Json): Option<Summary> {
    if !j.Obj? then None
    else
      var o := j.fields;
      var total, covered := ReadCount(Get(o, Total, Num(0))), ReadCount(Get(o, CoveredCount, Num(0)));
      var partial, gap := ReadCount(Get(o, PartialCount, Num(0))), ReadCount(Get(o, GapCount, Num(0)));
      var noData, kevExposed := ReadCount(Get(o, NoDataCount, Num(0))), ReadCount(Get(o, KevExposed, Num(0)));
      if total.Some? && covered.Some? && partial.Some? && gap.Some? && noData.Some? && kevExposed.Some?
      then Some(Summary(total.value, covered.value, partial.value, gap.value, noData.value, kevExposed.value))
      else None
  }

  /** A missing or malformed timestamp becomes the current one. */
  function ReadInstant(texts: Texts, j: Json, now: string): string {
    if j.Str? && texts.instant(j.s).Some? then j.s else now
  }

  function FromDict(texts: Texts, o: Dict, now: string): Option<Page> {
    var framework := ReadText(Get(o, Framework, Str("attck")));
    var list := Get(o, Tactics, Arr([]));
    var tactics := if list.Arr? then ReadList(list.items, ReadTactic) else None;
    var summary := ReadSummary(Get(o, Totals, Obj(map[])));
    var applied := Get(o, FiltersApplied, Obj(map[]));
    if framework.Some? && tactics.Some? && summary.Some? && applied.Obj?
    then Some(Page(framework.value, tactics.value, summary.value, ReadInstant(texts, Get(o, GeneratedAt, Null), now),
                   applied.fields, false))
    else None
  }

  // ----- what a sparse payload reads as -----

  /** Absent fields read as absent texts, zeros, false and no_data; only the ids are required. */
  lemma SparseReads(id: string)
    ensures ReadCell(Obj(map[TechniqueId := Str(id)])) == Some(Cell(id, "", "", "", NoData, 0, 0, 0, false, false))
    ensures ReadTactic(Obj(map[TacticId := Str(id)])) == Some(Tactic(id, "", []))
    ensures ReadSummary(Obj(map[])) == Some(Summary(0, 0, 0, 0, 0, 0))
    ensures ReadCell(Obj(map[])) == None && ReadTactic(Obj(map[])) == None
  {
  }

  lemma EmptyReads(texts: Texts, now: string)
    ensures FromDict(texts, map[], now) == Some(Page("attck", [], Summary(0, 0, 0, 0, 0, 0), now, map[], false))
  {
    SparseReads("");
  }

  lemma AbsentTextIsNull(s: string)
    ensures TextOrNull(s) == Null <==> s == ""
  {
  }

  /** The hit flag is written, and ignored on reading. */
  lemma HitFlagIgnored(texts: Texts, p: Page, o: Dict, flag: Json, now: string)
    ensures ToDict(p) == ToDict(p.(cacheHit := !p.cacheHit))[CacheHit := Bool(p.cacheHit)]
    ensures FromDict(texts, o[CacheHit := flag], now) == FromDict(texts, o, now)
  {
  }

  // ----- reading undoes writing -----

  lemma StatusRoundTrip(s: Status)
    ensures ReadStatus(Str(StatusText(s))) == Some(s)
  {
    assert "covered"[0] == 'c' && "partial"[0] == 'p' && "gap"[0] == 'g' && "no_data"[0] == 'n';
  }

  /** Reading a written list gives it back when reading each written element does. */
  lemma {:induction false} ListRoundTrip<T>(xs: seq<T>, write: T -> Json, read: Json -> Option<T>)
    requires forall i :: 0 <= i < |xs| ==> read(write(xs[i])) == Some(xs[i])
    ensures ReadList(List(xs, write), read) == Some(xs)
  {
    if xs != [] {
      var init, last := xs[..|xs| - 1], xs[|xs| - 1];
      ListRoundTrip(init, write, read);
      var items := List(init, write) + [write(last)];
      assert items[..|items| - 1] == List(init, write);
      assert xs == init + [last];
    }
  }

  lemma CellTexts(c: Cell)
    ensures var o := CellJson(c).fields;
            && TechniqueId in o && o[TechniqueId] == Str(c.technique)
            && Get(o, TechniqueName, Null) == TextOrNull(c.name)
            && Get(o, SubTechniqueId, Null) == TextOrNull(c.subTechnique)
            && Get(o, ParentTechniqueId, Null) == TextOrNull(c.parent)
            && Get(o, CoverageStatus, Str("no_data")) == Str(StatusText(c.status))
  {
  }

  lemma CellNumbers(c: Cell)
    ensures var o := CellJson(c).fields;
            && Get(o, CoveringRuleCount, Num(0)) == Num(c.rules)
            && Get(o, ChainCveCount, Num(0)) == Num(c.cves)
            && Get(o, KevCveCount, Num(0)) == Num(c.kevs)
            && Get(o, KevExposed, Bool(false)) == Bool(c.kevExposed)
            && Get(o, HasSubtechniques, Bool(false)) == Bool(c.hasSubtechniques)
  {
  }

  lemma CellRoundTrip(c: Cell)
    ensures ReadCell(CellJson(c)) == Some(c)
  {
    CellTexts(c);
    CellNumbers(c);
    StatusRoundTrip(c.status);
  }

  lemma CellsRoundTrip(cells: seq<Cell>)
    ensures ReadList(List(cells, CellJson), ReadCell) == Some(cells)
  {
    forall i | 0 <= i < |cells| ensures ReadCell(CellJson(cells[i])) == Some(cells[i]) {
      CellRoundTrip(cells[i]);
    }
    ListRoundTrip(cells, CellJson, ReadCell);
  }

  lemma TacticFields(t: Tactic)
    ensures var o := TacticJson(t).fields;
            && TacticId in o && o[TacticId] == Str(t.id)
            && Get(o, TacticName, Null) == TextOrNull(t.name)
            && Get(o, Techniques, Arr([])) == Arr(List(t.cells, CellJson))
  {
  }

  lemma TacticRoundTrip(t: Tactic)
    ensures ReadTactic(TacticJson(t)) == Some(t)
  {
    TacticFields(t);
    CellsRoundTrip(t.cells);
  }

  lemma TacticsRoundTrip(tactics: seq<Tactic>)
    ensures ReadList(List(tactics, TacticJson), ReadTactic) == Some(tactics)
  {
    forall i | 0 <= i < |tactics| ensures ReadTactic(TacticJson(tactics[i])) == Some(tactics[i]) {
      TacticRoundTrip(tactics[i]);
    }
    ListRoundTrip(tactics, TacticJson, ReadTactic);
  }

  lemma SummaryRoundTrip(s: Summary)
    ensures ReadSummary(SummaryJson(s)) == Some(s)
  {
  }

  lemma WrittenFields(p: Page, missing: Json)
    ensures Get(ToDict(p), Framework, Str("attck")) == Str(p.framework)
    ensures Get(ToDict(p), Tactics, Arr([])) == Arr(List(p.tactics, TacticJson))
    ensures Get(ToDict(p), Totals, Obj(map[])) == SummaryJson(p.summary)
    ensures Get(ToDict(p), GeneratedAt, missing) == Str(p.generatedAt)
    ensures Get(ToDict(p), FiltersApplied, Obj(map[])) == Obj(p.applied)
  {
  }

  /** Reading a written matrix gives it back, with the hit flag cleared. */
  lemma RoundTrip(texts: Texts, p: Page, now: string)
    requires texts.instant(p.generatedAt).Some?
    ensures FromDict(texts, ToDict(p), now) == Some(p.(cacheHit := false))
  {
    WrittenFields(p, Null);
    TacticsRoundTrip(p.tactics);
    SummaryRoundTrip(p.summary);
  }

  lemma OptionalTextIdentifies(a: Option<string>, b: Option<string>)
    ensures OptionalText(a) == OptionalText(b) <==> a == b
  {
  }

  /** The echoed filters tell absent from empty, so they identify the filters. */
  lemma EchoIdentifies(f: Filters, g: Filters)
    ensures FiltersDict(f) == FiltersDict(g) <==> f == g
  {
    var d, e := FiltersDict(f), FiltersDict(g);
    if d == e {
      assert d[Framework] == e[Framework] && d[CvssMin] == e[CvssMin] && d[KevOnly] == e[KevOnly]
          && d[AssessmentId] == e[AssessmentId];
      assert d[CveId] == e[CveId] && d[DateFrom] == e[DateFrom] && d[DateTo] == e[DateTo] && d[TacticId] == e[TacticId];
      OptionalTextIdentifies(f.cveId, g.cveId);
      OptionalTextIdentifies(f.dateFrom, g.dateFrom);
      OptionalTextIdentifies(f.dateTo, g.dateTo);
      OptionalTextIdentifies(f.tactic, g.tactic);
    }
  }
}
