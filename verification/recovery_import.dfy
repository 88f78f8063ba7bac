/** The one-shot import of recovered rows into a live database (import-recovery.ts). */
module RecoveryImport {
  import opened Wrappers

  datatype Table = Collabs | Workflows | Chains | Phases | Handoffs

  /** The cells of a record; a column past its end reads as null. */
  type Row = seq<Option<string>>

  /** Rows are stored under their primary key, which is the first cell. */
  datatype Key = Key(table: Table, id: string)

  type Rows = map<Key, Row>

  /** A record of lost_and_found: it does not say which table it came from. */
  datatype Stray = Stray(nfield: nat, cells: Row)

  datatype Counts = Counts(workflows: nat, phases: nat, chains: nat, handoffs: nat)

  datatype Expectations = Expectations(raw: Counts, distinct: Counts, closureFloor: Counts)

  datatype Layout = Layout(workflows: seq<string>, phases: seq<string>, chains: seq<string>, handoffs: seq<string>) {
    function Of(t: Table): seq<string> {
      match t
      case Collabs => []
      case Workflows => workflows
      case Phases => phases
      case Chains => chains
      case Handoffs => handoffs
    }
  }

  datatype Error = LiveDaemon | RawMismatch | DistinctMismatch | BelowFloor(table: Table) | LayoutMismatch(table: Table)
                 | NotNull(table: Table) | SecondLiveWorkflow

  datatype Imported = Imported(workflows: nat, phases: nat, chains: nat, handoffs: nat, collabTombstones: nat)

  datatype Skipped = Skipped(
    unknownPhases: nat, unknownHandoffs: nat, missingPhases: nat, missingHandoffs: nat, unreferencedChains: nat)

  datatype Summary = Summary(imported: Imported, skipped: Skipped)

  const V8_COLUMNS := Layout(
    ["workflow_id", "collab_id", "workflow_type", "name", "spec_path", "role_bindings", "status", "current_phase_index",
     "halt_reason", "workflow_context", "created_at", "updated_at"],
    ["phase_run_id", "workflow_id", "phase_index", "phase_name", "chain_id", "started_at", "ended_at", "outcome"],
    ["chain_id", "collab_id", "status", "current_round", "max_rounds", "terminal_handoff_id", "terminal_reason",
     "created_at", "updated_at"],
    ["handoff_id", "collab_id", "sender_agent", "target_agent", "request_text", "status", "created_at", "accepted_at",
     "deferred_at", "resolved_at", "last_activity_at", "capture_status", "chain_id", "parent_handoff_id", "round_number",
     "root_request_text", "handback_text", "orchestrator_status", "orchestrator_verdict", "orchestrator_reason",
     "orchestrator_claimed_at", "orchestrator_evaluated_at", "handoff_step", "workflow_id", "phase_run_id",
     "evaluator_verdict", "evaluator_confidence", "evaluator_reason", "evaluator_evaluated_at"])

  function Cell(row: Row, i: nat): Option<string> {
    if i < |row| then row[i] else None
  }

  /** String(cell). */
  function Text(cell: Option<string>): string {
    cell.GetOr("null")
  }

  function Id(row: Row): string {
    Text(Cell(row, 0))
  }

  // ------------------------------------------------------------ the candidates

  predicate Glob(cell: Option<string>, prefix: string) {
    cell.Some? && prefix <= cell.value
  }

  /** Only the width and the shape of the id columns tell the record types apart. */
  predicate Matches(t: Table, r: Stray) {
    match t
    case Collabs => false
    case Workflows => r.nfield == 12 && Glob(Cell(r.cells, 0), "wf_")
    case Phases =>
      r.nfield == 8 && Glob(Cell(r.cells, 0), "wfp_") && Glob(Cell(r.cells, 1), "wf_") && Glob(Cell(r.cells, 4), "relay_ch_")
    case Chains => r.nfield == 9 && Glob(Cell(r.cells, 0), "relay_ch_") && Glob(Cell(r.cells, 1), "collab_")
    case Handoffs => r.nfield == 29 && Glob(Cell(r.cells, 0), "ho_") && Glob(Cell(r.cells, 1), "collab_")
  }

  function Matching(t: Table, source: seq<Stray>): seq<Row> {
    if source == [] then []
    else
      var rest := Matching(t, source[..|source| - 1]);
      var last := source[|source| - 1];
      if Matches(t, last) then rest + [seq(last.nfield, (i: nat) => Cell(last.cells, i))] else rest
  }

  /** One row for each id, the first one. */
  function FirstOfEach(rows: seq<Row>): seq<Row> {
    if rows == [] then []
    else
      var rest := FirstOfEach(rows[..|rows| - 1]);
      var last := rows[|rows| - 1];
      if Id(last) in Ids(rest, 0) then rest else rest + [last]
  }

  function Candidates(t: Table, source: seq<Stray>): seq<Row> {
    FirstOfEach(Matching(t, source))
  }

  function Ids(batch: seq<Row>, column: nat): set<string> {
    set row | row in batch :: Text(Cell(row, column))
  }

  /** The ids in a column, null left out. */
  function Referenced(batch: seq<Row>, column: nat): set<string> {
    set row | row in batch && Cell(row, column).Some? :: Cell(row, column).value
  }

  function RawCounts(source: seq<Stray>): Counts {
    Counts(|Matching(Workflows, source)|, |Matching(Phases, source)|, |Matching(Chains, source)|, |Matching(Handoffs, source)|)
  }

  function DistinctCount(t: Table, source: seq<Stray>): nat {
    |Ids(Matching(t, source), 0)|
  }

  function DistinctCounts(source: seq<Stray>): Counts {
    Counts(DistinctCount(Workflows, source), DistinctCount(Phases, source), DistinctCount(Chains, source), DistinctCount(Handoffs, source))
  }

  // ------------------------------------------------------------ the closure

  function Stored(rows: Rows, t: Table): set<string> {
    set k | k in rows && k.table == t :: k.id
  }

  predicate Passes(row: Row, column: nat, ids: set<string>, nullPasses: bool) {
    (nullPasses && Cell(row, column).None?) || Text(Cell(row, column)) in ids
  }

  function Select(batch: seq<Row>, column: nat, ids: set<string>, nullPasses: bool): (kept: seq<Row>)
    ensures |kept| <= |batch|
    ensures forall row :: row in kept <==> row in batch && Passes(row, column, ids, nullPasses)
  {
    if batch == [] then []
    else
      var rest := Select(batch[..|batch| - 1], column, ids, nullPasses);
      var last := batch[|batch| - 1];
      assert batch == batch[..|batch| - 1] + [last];
      if Passes(last, column, ids, nullPasses) then rest + [last] else rest
  }

  function WorkflowColumn(t: Table): nat {
    if t == Phases then 1 else 23
  }

  function ChainColumn(t: Table): nat {
    if t == Phases then 4 else 12
  }

  function KnownWorkflows(rows: Rows, source: seq<Stray>): set<string> {
    Stored(rows, Workflows) + Ids(Candidates(Workflows, source), 0)
  }

  /** The candidate phases or handoffs whose workflow is known. */
  function Rooted(rows: Rows, source: seq<Stray>, t: Table): seq<Row> {
    Select(Candidates(t, source), WorkflowColumn(t), KnownWorkflows(rows, source), false)
  }

  function ReferencedChains(rows: Rows, source: seq<Stray>): set<string> {
    Referenced(Rooted(rows, source, Phases), 4) + Referenced(Rooted(rows, source, Handoffs), 12)
  }

  function ImportedChains(rows: Rows, source: seq<Stray>): seq<Row> {
    Select(Candidates(Chains, source), 0, ReferencedChains(rows, source), false)
  }

  function AvailableChains(rows: Rows, source: seq<Stray>): set<string> {
    Stored(rows, Chains) + Ids(ImportedChains(rows, source), 0)
  }

  /** Rooted, and with a chain that will be there. */
  function Final(rows: Rows, source: seq<Stray>, t: Table): seq<Row> {
    Select(Rooted(rows, source, t), ChainColumn(t), AvailableChains(rows, source), true)
  }

  function AddOnce(ids: seq<string>, batch: seq<Row>, column: nat): seq<string> {
    if batch == [] then ids
    else
      var rest := AddOnce(ids, batch[..|batch| - 1], column);
      var id := Text(Cell(batch[|batch| - 1], column));
      if id in rest then rest else rest + [id]
  }

  function CollabIds(rows: Rows, source: seq<Stray>): seq<string> {
    AddOnce(AddOnce(AddOnce([], Candidates(Workflows, source), 1), ImportedChains(rows, source), 1), Final(rows, source, Handoffs), 1)
  }

  // ------------------------------------------------------------ the transaction

  /** The columns declared NOT NULL, beside the primary key. */
  function RequiredColumns(t: Table): set<nat> {
    match t
    case Collabs => {}
    case Workflows => {1, 2, 4, 5, 6, 7, 9, 10, 11}
    case Phases => {1, 2, 3, 4, 5}
    case Chains => {1, 2, 3, 4, 7, 8}
    case Handoffs => {1, 2, 3, 4, 5, 6, 10}
  }

  predicate MissesRequired(t: Table, row: Row) {
    exists i | i in RequiredColumns(t) :: Cell(row, i).None?
  }

  predicate IsLive(row: Row) {
    Cell(row, 6) == Some("running") || Cell(row, 6) == Some("paused")
  }

  /** The unique index on live workflows: at most one for each collab. */
  predicate SecondLive(rows: Rows, t: Table, row: Row) {
    && t == Workflows && IsLive(row)
    && exists k | k in rows :: k.table == Workflows && IsLive(rows[k]) && Cell(rows[k], 1) == Cell(row, 1)
  }

  datatype Op = Check(table: Table) | Put(table: Table, row: Row)

  predicate LayoutOk(layout: Layout, t: Table) {
    V8_COLUMNS.Of(t) <= layout.Of(t)
  }

  function Perform(rows: Rows, layout: Layout, op: Op): Reply<Rows, Error> {
    match op
    case Check(t) => if LayoutOk(layout, t) then Ok(rows) else Throw(LayoutMismatch(t))
    case Put(t, row) =>
      if MissesRequired(t, row) then Throw(NotNull(t))
      else if Key(t, Id(row)) in rows then Ok(rows)
      else if SecondLive(rows, t, row) then Throw(SecondLiveWorkflow)
      else Ok(rows[Key(t, Id(row)) := row])
  }

  function RunPlan(rows: Rows, layout: Layout, plan: seq<Op>): Reply<Rows, Error> {
    if plan == [] then Ok(rows)
    else
      match RunPlan(rows, layout, plan[..|plan| - 1])
      case Throw(e) => Throw(e)
      case Ok(r) => Perform(r, layout, plan[|plan| - 1])
  }

  function Puts(t: Table, batch: seq<Row>): (ops: seq<Op>)
    ensures |ops| == |batch|
    ensures forall i | 0 <= i < |ops| :: ops[i] == Put(t, batch[i])
  {
    seq(|batch|, i requires 0 <= i < |batch| => Put(t, batch[i]))
  }

  function Tombstone(id: string, now: string): Row {
    [Some(id), Some("recovered"), Some(id), Some("stopped"), Some(now), Some(now), Some(now)]
  }

  function Tombstones(ids: seq<string>, now: string): (batch: seq<Row>)
    ensures |batch| == |ids|
    ensures forall i | 0 <= i < |batch| :: batch[i] == Tombstone(ids[i], now)
  {
    seq(|ids|, i requires 0 <= i < |ids| => Tombstone(ids[i], now))
  }

  /** The rows that the transaction inserts into a table. */
  function Batch(rows: Rows, source: seq<Stray>, now: string, t: Table): seq<Row> {
    match t
    case Collabs => Tombstones(CollabIds(rows, source), now)
    case Workflows => Candidates(Workflows, source)
    case Chains => ImportedChains(rows, source)
    case Phases => Final(rows, source, Phases)
    case Handoffs => Final(rows, source, Handoffs)
  }

  function Section(t: Table, batch: seq<Row>): seq<Op> {
    (if t == Collabs then [] else [Check(t)]) + Puts(t, batch)
  }

  function SectionFor(rows: Rows, source: seq<Stray>, now: string, t: Table): seq<Op> {
    Section(t, Batch(rows, source, now, t))
  }

  /** Parents before children. */
  function Plan(rows: Rows, source: seq<Stray>, now: string): seq<Op> {
    SectionFor(rows, source, now, Collabs) + SectionFor(rows, source, now, Workflows) + SectionFor(rows, source, now, Chains)
    + SectionFor(rows, source, now, Phases) + SectionFor(rows, source, now, Handoffs)
  }

  function SkippedOf(rows: Rows, source: seq<Stray>): Skipped {
    var phases, handoffs := Rooted(rows, source, Phases), Rooted(rows, source, Handoffs);
    Skipped(
      |Candidates(Phases, source)| - |phases|, |Candidates(Handoffs, source)| - |handoffs|,
      |phases| - |Final(rows, source, Phases)|, |handoffs| - |Final(rows, source, Handoffs)|,
      |Candidates(Chains, source)| - |ImportedChains(rows, source)|)
  }

  function ImportedOf(rows: Rows, after: Rows): Imported
    requires forall t: Table :: Stored(rows, t) <= Stored(after, t)
  {
    Imported(
      Added(rows, after, Workflows), Added(rows, after, Phases), Added(rows, after, Chains), Added(rows, after, Handoffs),
      Added(rows, after, Collabs))
  }

  function Added(rows: Rows, after: Rows, t: Table): nat
    requires Stored(rows, t) <= Stored(after, t)
  {
    |Stored(after, t) - Stored(rows, t)|
  }

  function FloorError(rows: Rows, source: seq<Stray>, floor: Counts): Option<Error> {
    if |Final(rows, source, Phases)| < floor.phases then Some(BelowFloor(Phases))
    else if |ImportedChains(rows, source)| < floor.chains then Some(BelowFloor(Chains))
    else if |Final(rows, source, Handoffs)| < floor.handoffs then Some(BelowFloor(Handoffs))
    else None
  }

  /** Why nothing may be written, decided before any write. */
  function Refusal(rows: Rows, source: seq<Stray>, e: Expectations, liveDaemon: bool): Option<Error> {
    if liveDaemon then Some(LiveDaemon)
    else if RawCounts(source) != e.raw then Some(RawMismatch)
    else if DistinctCounts(source) != e.distinct then Some(DistinctMismatch)
    else FloorError(rows, source, e.closureFloor)
  }

  lemma {:induction false} RunGrows(rows: Rows, layout: Layout, plan: seq<Op>)
    requires RunPlan(rows, layout, plan).Ok?
    ensures forall k | k in rows :: k in RunPlan(rows, layout, plan).value && RunPlan(rows, layout, plan).value[k] == rows[k]
    ensures forall t: Table :: Stored(rows, t) <= Stored(RunPlan(rows, layout, plan).value, t)
  {
    if plan == [] {
    } else {
      RunGrows(rows, layout, plan[..|plan| - 1]);
    }
    var after := RunPlan(rows, layout, plan).value;
    forall t: Table, id | id in Stored(rows, t)
      ensures id in Stored(after, t)
    {
      assert Key(t, id) in after;
    }
  }

  function Import(rows: Rows, layout: Layout, source: seq<Stray>, e: Expectations, now: string, liveDaemon: bool)
    : (Reply<Summary, Error>, Rows)
  {
    match Refusal(rows, source, e, liveDaemon)
    case Some(error) => (Throw(error), rows)
    case None =>
      match RunPlan(rows, layout, Plan(rows, source, now))
      case Throw(error) => (Throw(error), rows)
      case Ok(after) =>
        RunGrows(rows, layout, Plan(rows, source, now));
        (Ok(Summary(ImportedOf(rows, after), SkippedOf(rows, source))), after)
  }
}
