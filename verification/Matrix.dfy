/** The coverage matrix computed from the coverage table: which CVEs the filters select, what each row's cell
    shows, and how cells are arranged into tactic columns. */
module Matrix {
  import opened CoverageTable
  import opened Ids
  import opened Options
  import opened Sorting

  const UNKNOWN := "TA-UNKNOWN"

  /** The kill-chain order of the columns, with their names. */
  type KillChain = seq<(string, string)>

  const ENTERPRISE: KillChain := [
    ("TA0043", "Reconnaissance"), ("TA0042", "Resource Development"), ("TA0001", "Initial Access"),
    ("TA0002", "Execution"), ("TA0003", "Persistence"), ("TA0004", "Privilege Escalation"),
    ("TA0005", "Defense Evasion"), ("TA0006", "Credential Access"), ("TA0007", "Discovery"),
    ("TA0008", "Lateral Movement"), ("TA0009", "Collection"), ("TA0011", "Command and Control"),
    ("TA0010", "Exfiltration"), ("TA0040", "Impact")]

  // ----- the CVE and chain tables, and the filters over them -----

  datatype CveInfo = CveInfo(textId: string, cvss: Option<real>, kev: bool, published: Option<int>)

  datatype ChainRow = ChainRow(cve: Cve, assessment: Option<nat>)

  datatype Facts = Facts(cves: map<Cve, CveInfo>, chains: seq<ChainRow>)

  /** The two library calls on texts: parsing an ISO date to an instant (None when malformed) and upper-casing. */
  datatype Texts = Texts(instant: string -> Option<int>, upper: string -> string)

  datatype Filters = Filters(framework: string, cveId: Option<string>, dateFrom: Option<string>, dateTo: Option<string>,
                             cvssMin: Option<real>, kevOnly: bool, tactic: Option<string>, assessment: Option<nat>)

  function Unfiltered(framework: string): Filters {
    Filters(framework, None, None, None, None, false, None, None)
  }

  predicate IsUnfiltered(f: Filters) {
    f == Unfiltered(f.framework)
  }

  /** A text filter takes effect only when present and not empty. */
  predicate Given(o: Option<string>) {
    o.Some? && o.value != ""
  }

  predicate HasChain(facts: Facts, c: Cve, assessment: Option<nat>) {
    exists i :: 0 <= i < |facts.chains| && facts.chains[i].cve == c
        && (assessment.Some? ==> facts.chains[i].assessment == assessment)
  }

  predicate PublishedWithin(texts: Texts, published: Option<int>, f: Filters) {
    && (Given(f.dateFrom) && texts.instant(f.dateFrom.value).Some? ==>
          published.Some? && published.value >= texts.instant(f.dateFrom.value).value)
    && (Given(f.dateTo) && texts.instant(f.dateTo.value).Some? ==>
          published.Some? && published.value <= texts.instant(f.dateTo.value).value)
  }

  predicate Selects(texts: Texts, facts: Facts, f: Filters, c: Cve) {
    && c in facts.cves
    && HasChain(facts, c, f.assessment)
    && var info := facts.cves[c];
    && (Given(f.cveId) ==> info.textId == texts.upper(f.cveId.value))
    && (f.cvssMin.Some? ==> info.cvss.Some? && info.cvss.value >= f.cvssMin.value)
    && (f.kevOnly ==> info.kev)
    && PublishedWithin(texts, info.published, f)
  }

  function Matching(texts: Texts, facts: Facts, f: Filters): set<Cve> {
    set c | c in facts.cves && Selects(texts, facts, f, c)
  }

  function KevSet(facts: Facts): set<Cve> {
    set c | c in facts.cves && facts.cves[c].kev
  }

  // ----- cells -----

  datatype Cell = Cell(technique: string, name: string, subTechnique: string, parent: string, status: Status,
                       rules: nat, cves: nat, kevs: nat, kevExposed: bool, hasSubtechniques: bool)

  /** What a computation looks through: the selected CVEs (None when nothing is filtered) and the KEV catalogue. */
  datatype Lens = Lens(only: Option<set<Cve>>, kev: set<Cve>)

  function LensOf(texts: Texts, facts: Facts, f: Filters): Lens {
    Lens(if IsUnfiltered(f) then None else Some(Matching(texts, facts, f)), KevSet(facts))
  }

  function Keep(cves: seq<Cve>, only: set<Cve>): seq<Cve> {
    if cves == [] then []
    else Keep(cves[..|cves| - 1], only) + if cves[|cves| - 1] in only then [cves[|cves| - 1]] else []
  }

  /** Status, CVE count, KEV count and KEV flag of a row seen through the lens. */
  function Counts(row: Row, lens: Lens): (Status, nat, nat, bool) {
    if lens.only.None? then (row.status, row.cveCount, row.kevCount, row.kevExposed)
    else
      var matched := Keep(row.cves, lens.only.value);
      if matched == [] then (if row.rules != [] && row.status == Covered then Covered else NoData, 0, 0, false)
      else
        var kevs := |Elems(matched) * lens.kev|;
        (row.status, |matched|, kevs, kevs > 0)
  }

  function CellOf(row: Row, lens: Lens): Cell {
    var (status, cves, kevs, exposed) := Counts(row, lens);
    Cell(row.technique, row.info.techniqueName, row.info.subTechnique, row.info.parent, status,
         |row.rules|, cves, kevs, exposed, row.info.hasSubtechniques)
  }

  // ----- columns -----

  datatype Tactic = Tactic(id: string, name: string, cells: seq<Cell>)

  function TacticOf(row: Row): string {
    if row.info.tactic == "" then UNKNOWN else row.info.tactic
  }

  /** The rows the query returns, in table order. */
  function Select(rows: seq<Row>, f: Filters): seq<Row> {
    if rows == [] then []
    else
      var last := rows[|rows| - 1];
      Select(rows[..|rows| - 1], f) +
      if last.framework == f.framework && (Given(f.tactic) ==> last.info.tactic == f.tactic.value) then [last] else []
  }

  /** The cells that land in the bucket of a tactic, in query order. */
  function Cells(rows: seq<Row>, id: string, lens: Lens): seq<Cell> {
    if rows == [] then []
    else
      var last := rows[|rows| - 1];
      Cells(rows[..|rows| - 1], id, lens) + if TacticOf(last) == id then [CellOf(last, lens)] else []
  }

  predicate InChain(chain: KillChain, id: string) {
    exists i :: 0 <= i < |chain| && chain[i].0 == id
  }

  /** Tactics outside the kill chain, in the order first seen. */
  function Extras(chain: KillChain, rows: seq<Row>): seq<string> {
    if rows == [] then []
    else
      var earlier, id := Extras(chain, rows[..|rows| - 1]), TacticOf(rows[|rows| - 1]);
      if InChain(chain, id) || id in earlier then earlier else earlier + [id]
  }

  /** The name the first row of an extra tactic gives it. */
  function FirstName(rows: seq<Row>, id: string): Option<string> {
    if rows == [] then None
    else
      var earlier := FirstName(rows[..|rows| - 1], id);
      if earlier.Some? then earlier
      else if TacticOf(rows[|rows| - 1]) == id then Some(rows[|rows| - 1].info.tacticName)
      else None
  }

  function Name(rows: seq<Row>, id: string): string {
    if FirstName(rows, id).Some? then FirstName(rows, id).value else ""
  }

  function Family(c: Cell): string {
    if c.parent == "" then c.technique else c.parent
  }

  /** Parent-then-child order of cells. */
  predicate CellLe(a: Cell, b: Cell) {
    StringLe(Family(a), Family(b)) && (Family(a) == Family(b) ==> StringLe(a.technique, b.technique))
  }

  function Column(rows: seq<Row>, id: string, name: string, lens: Lens): Tactic {
    Tactic(id, name, Sort(Cells(rows, id, lens), CellLe))
  }

  /** Tactics with the names their first rows give them. */
  function Titled(rows: seq<Row>, ids: seq<string>): KillChain {
    if ids == [] then []
    else Titled(rows, ids[..|ids| - 1]) + [(ids[|ids| - 1], Name(rows, ids[|ids| - 1]))]
  }

  function ExtraIds(chain: KillChain, rows: seq<Row>): seq<string> {
    Sort(Extras(chain, rows), StringLe)
  }

  /** The column headings: the kill chain, then the other tactics in use by id. */
  function Headings(chain: KillChain, rows: seq<Row>): KillChain {
    chain + Titled(rows, ExtraIds(chain, rows))
  }

  function ColumnsUnder(headings: KillChain, rows: seq<Row>, lens: Lens): seq<Tactic> {
    if headings == [] then []
    else
      var h := headings[|headings| - 1];
      ColumnsUnder(headings[..|headings| - 1], rows, lens) + [Column(rows, h.0, h.1, lens)]
  }

  function Columns(chain: KillChain, rows: seq<Row>, lens: Lens): seq<Tactic> {
    ColumnsUnder(Headings(chain, rows), rows, lens)
  }

  function OnlyTactic(tactics: seq<Tactic>, id: string): seq<Tactic> {
    if tactics == [] then []
    else
      OnlyTactic(tactics[..|tactics| - 1], id) +
      if tactics[|tactics| - 1].id == id then [tactics[|tactics| - 1]] else []
  }

  function AllCells(tactics: seq<Tactic>): seq<Cell> {
    if tactics == [] then [] else AllCells(tactics[..|tactics| - 1]) + tactics[|tactics| - 1].cells
  }

  datatype Summary = Summary(total: nat, covered: nat, partial: nat, gap: nat, noData: nat, kevExposed: nat)

  function Count(s: Summary, c: Cell): Summary {
    Summary(s.total + 1,
            s.covered + if c.status == Covered then 1 else 0,
            s.partial + if c.status == Partial then 1 else 0,
            s.gap + if c.status == Gap then 1 else 0,
            s.noData + if c.status == NoData then 1 else 0,
            s.kevExposed + if c.kevExposed then 1 else 0)
  }

  function TallyFrom(s: Summary, cells: seq<Cell>): Summary {
    if cells == [] then s else Count(TallyFrom(s, cells[..|cells| - 1]), cells[|cells| - 1])
  }

  function Tally(cells: seq<Cell>): Summary {
    TallyFrom(Summary(0, 0, 0, 0, 0, 0), cells)
  }

  /** A computed matrix, without its timestamp and hit flag; `applied` echoes the filters. */
  datatype Data = Data(framework: string, tactics: seq<Tactic>, summary: Summary, applied: Filters)

  function TacticsOf(chain: KillChain, rows: seq<Row>, lens: Lens, f: Filters): seq<Tactic> {
    var columns := Columns(chain, Select(rows, f), lens);
    if Given(f.tactic) then OnlyTactic(columns, f.tactic.value) else columns
  }

  /** The matrix of the table under the filters. */
  function DataOf(rows: seq<Row>, texts: Texts, facts: Facts, f: Filters): Data {
    var tactics := TacticsOf(ENTERPRISE, rows, LensOf(texts, facts, f), f);
    Data(f.framework, tactics, Tally(AllCells(tactics)), f)
  }
}
