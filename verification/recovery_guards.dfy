/** What the recovery import refuses, and why: the checks before any write and those of the transaction. */
module RecoveryGuards {
  import opened Wrappers
  import opened RecoveryImport
  import opened RecoveryFacts

  /** The records of the source that a table's predicate matches. */
  function Found(t: Table, source: seq<Stray>): set<nat> {
    set i: nat | i < |source| && Matches(t, source[i])
  }

  function FoundIds(t: Table, source: seq<Stray>): set<string> {
    set i: nat | i < |source| && Matches(t, source[i]) :: Text(Cell(source[i].cells, 0))
  }

  lemma {:induction false} MatchingCounts(t: Table, source: seq<Stray>)
    ensures |Matching(t, source)| == |Found(t, source)|
    ensures Ids(Matching(t, source), 0) == FoundIds(t, source)
  {
    if source == [] {
      assert Found(t, source) == {} && FoundIds(t, source) == {};
    } else {
      hide Found, FoundIds, Ids, Matches, Cell, Text;
      var n := |source| - 1;
      MatchingCounts(t, source[..n]);
      FoundOneMore(t, source);
      if Matches(t, source[n]) {
        var row := seq(source[n].nfield, (i: nat) => Cell(source[n].cells, i));
        IdsOneMore(Matching(t, source[..n]), row);
        IdOfRecord(t, source[n]);
      }
    }
  }

  lemma IdsOneMore(rows: seq<Row>, row: Row)
    ensures Ids(rows + [row], 0) == Ids(rows, 0) + {Text(Cell(row, 0))}
  {
    assert row in rows + [row];
  }

  lemma IdOfRecord(t: Table, r: Stray)
    requires Matches(t, r)
    ensures Cell(seq(r.nfield, (i: nat) => Cell(r.cells, i)), 0) == Cell(r.cells, 0)
  {
  }

  lemma FoundOneMore(t: Table, source: seq<Stray>)
    requires source != []
    ensures var n := |source| - 1;
      && |Found(t, source)| == |Found(t, source[..n])| + (if Matches(t, source[n]) then 1 else 0)
      && FoundIds(t, source) == FoundIds(t, source[..n]) + if Matches(t, source[n]) then {Text(Cell(source[n].cells, 0))} else {}
  {
    hide Matches, Cell, Text;
    var n := |source| - 1;
    assert forall i: nat | i < n :: source[..n][i] == source[i];
    assert Found(t, source) == Found(t, source[..n]) + if Matches(t, source[n]) then {n} else {};
    FoundIdsOneMore(t, source);
  }

  lemma FoundIdsOneMore(t: Table, source: seq<Stray>)
    requires source != []
    ensures var n := |source| - 1;
      FoundIds(t, source) == FoundIds(t, source[..n]) + if Matches(t, source[n]) then {Text(Cell(source[n].cells, 0))} else {}
  {
    hide Matches, Cell, Text;
    var n := |source| - 1;
    forall id
      ensures id in FoundIds(t, source) <==>
              id in FoundIds(t, source[..n]) + if Matches(t, source[n]) then {Text(Cell(source[n].cells, 0))} else {}
    {
      if id in FoundIds(t, source) {
        var i: nat :| i < |source| && Matches(t, source[i]) && id == Text(Cell(source[i].cells, 0));
        assert i < n ==> source[..n][i] == source[i];
      }
      if id in FoundIds(t, source[..n]) {
        var i: nat :| i < n && Matches(t, source[..n][i]) && id == Text(Cell(source[..n][i].cells, 0));
        assert source[i] == source[..n][i];
      }
    }
  }

  /** The matching records, and their distinct ids, number exactly as the operator has verified. */
  ghost predicate RawAsExpected(source: seq<Stray>, e: Expectations) {
    && |Found(Workflows, source)| == e.raw.workflows && |Found(Phases, source)| == e.raw.phases
    && |Found(Chains, source)| == e.raw.chains && |Found(Handoffs, source)| == e.raw.handoffs
  }

  ghost predicate DistinctAsExpected(source: seq<Stray>, e: Expectations) {
    && |FoundIds(Workflows, source)| == e.distinct.workflows && |FoundIds(Phases, source)| == e.distinct.phases
    && |FoundIds(Chains, source)| == e.distinct.chains && |FoundIds(Handoffs, source)| == e.distinct.handoffs
  }

  lemma CountsAre(source: seq<Stray>, e: Expectations)
    ensures RawAsExpected(source, e) <==> RawCounts(source) == e.raw
    ensures DistinctAsExpected(source, e) <==> DistinctCounts(source) == e.distinct
  {
    MatchingCounts(Workflows, source);
    MatchingCounts(Phases, source);
    MatchingCounts(Chains, source);
    MatchingCounts(Handoffs, source);
  }

  /**
   * The checks before any write, in their order: no live daemon, the raw counts, the distinct counts, and the floors
   * of the closure's phases, chains and handoffs. The first that fails is the answer, and nothing is written. When all
   * hold, the import succeeds unless its transaction fails, for the layout of a table, a required cell, or a second
   * live workflow.
   */
  lemma ImportChecks(rows: Rows, layout: Layout, source: seq<Stray>, e: Expectations, now: string, liveDaemon: bool)
    ensures var (r, after) := Import(rows, layout, source, e, now, liveDaemon);
      && (r.Throw? ==> after == rows)
      && if liveDaemon then r == Throw(LiveDaemon)
         else if !RawAsExpected(source, e) then r == Throw(RawMismatch)
         else if !DistinctAsExpected(source, e) then r == Throw(DistinctMismatch)
         else if |Final(rows, source, Phases)| < e.closureFloor.phases then r == Throw(BelowFloor(Phases))
         else if |ImportedChains(rows, source)| < e.closureFloor.chains then r == Throw(BelowFloor(Chains))
         else if |Final(rows, source, Handoffs)| < e.closureFloor.handoffs then r == Throw(BelowFloor(Handoffs))
         else r.Ok? || r.error.LayoutMismatch? || r.error.NotNull? || r.error.SecondLiveWorkflow?
  {
    hide Matching, Final, ImportedChains, Plan, RunPlan, RawCounts, DistinctCounts, RawAsExpected, DistinctAsExpected;
    CountsAre(source, e);
    PlanErrors(rows, layout, Plan(rows, source, now));
  }

  lemma {:induction false} PlanErrors(rows: Rows, layout: Layout, plan: seq<Op>)
    ensures RunPlan(rows, layout, plan).Throw? ==>
              var e := RunPlan(rows, layout, plan).error; e.LayoutMismatch? || e.NotNull? || e.SecondLiveWorkflow?
  {
    if plan == [] {
    } else {
      PlanErrors(rows, layout, plan[..|plan| - 1]);
    }
  }

  // ------------------------------------------------------------ the transaction's own checks

  /** Every step of a plan that ran through passed its check. */
  ghost predicate Passed(layout: Layout, op: Op) {
    match op
    case Check(t) => V8_COLUMNS.Of(t) <= layout.Of(t)
    case Put(t, row) => forall i | i in RequiredColumns(t) :: Cell(row, i).Some?
  }

  lemma {:induction false} PlanPassed(rows: Rows, layout: Layout, plan: seq<Op>, i: nat)
    requires RunPlan(rows, layout, plan).Ok? && i < |plan|
    ensures Passed(layout, plan[i])
    decreases |plan|
  {
    var n := |plan| - 1;
    if i < n { PlanPassed(rows, layout, plan[..n], i); }
  }

  lemma InPlan(rows: Rows, source: seq<Stray>, now: string, t: Table, op: Op)
    requires op in SectionFor(rows, source, now, t)
    ensures op in Plan(rows, source, now)
  {
    hide SectionFor;
  }

  /** A successful import is its plan, run through. */
  lemma ImportRunsPlan(rows: Rows, layout: Layout, source: seq<Stray>, e: Expectations, now: string, liveDaemon: bool)
    ensures var (r, after) := Import(rows, layout, source, e, now, liveDaemon);
      if r.Ok? then RunPlan(rows, layout, Plan(rows, source, now)) == Ok(after) else after == rows
  {
    hide RunPlan, Plan, Refusal, ImportedOf, SkippedOf;
  }

  lemma SectionPassed(layout: Layout, t: Table, batch: seq<Row>)
    requires forall op | op in Section(t, batch) :: Passed(layout, op)
    ensures t != Collabs ==> V8_COLUMNS.Of(t) <= layout.Of(t)
    ensures forall row, i | row in batch && i in RequiredColumns(t) :: Cell(row, i).Some?
  {
    if t != Collabs {
      assert Check(t) in Section(t, batch);
      assert Passed(layout, Check(t));
    }
    hide RequiredColumns;
    forall row, i | row in batch && i in RequiredColumns(t) ensures Cell(row, i).Some? {
      var k :| 0 <= k < |batch| && batch[k] == row;
      assert Puts(t, batch)[k] == Put(t, row) && Put(t, row) in Section(t, batch);
      assert Passed(layout, Put(t, row));
    }
  }

  /** The columns that the schema declares NOT NULL, by name, beside the primary key (apply-migrations.ts). */
  function NotNullNames(t: Table): set<string> {
    match t
    case Collabs => {}
    case Workflows => {"collab_id", "workflow_type", "spec_path", "role_bindings", "status", "current_phase_index", "workflow_context",
                       "created_at", "updated_at"}
    case Phases => {"workflow_id", "phase_index", "phase_name", "chain_id", "started_at"}
    case Chains => {"collab_id", "status", "current_round", "max_rounds", "created_at", "updated_at"}
    case Handoffs => {"collab_id", "sender_agent", "target_agent", "request_text", "status", "created_at", "last_activity_at"}
  }

  lemma RequiredByName(t: Table, i: nat)
    requires i < |V8_COLUMNS.Of(t)|
    ensures i in RequiredColumns(t) <==> V8_COLUMNS.Of(t)[i] in NotNullNames(t)
  {
  }

  /**
   * An import that succeeds has found each table's columns as pinned, and no cell missing that its column requires.
   */
  lemma ImportedIsComplete(rows: Rows, layout: Layout, source: seq<Stray>, e: Expectations, now: string, liveDaemon: bool, t: Table)
    requires Import(rows, layout, source, e, now, liveDaemon).0.Ok?
    ensures t != Collabs ==> V8_COLUMNS.Of(t) <= layout.Of(t)
    ensures forall row, i: nat | row in Batch(rows, source, now, t) && i < |V8_COLUMNS.Of(t)| && V8_COLUMNS.Of(t)[i] in NotNullNames(t) ::
        Cell(row, i).Some?
  {
    hide Batch, RunPlan, Plan, Import, Passed, Section, RequiredColumns, NotNullNames;
    var plan := Plan(rows, source, now);
    ImportRunsPlan(rows, layout, source, e, now, liveDaemon);
    forall op | op in SectionFor(rows, source, now, t) ensures Passed(layout, op) {
      InPlan(rows, source, now, t, op);
      var i: nat :| i < |plan| && plan[i] == op;
      PlanPassed(rows, layout, plan, i);
    }
    SectionPassed(layout, t, Batch(rows, source, now, t));
    forall i: nat | i < |V8_COLUMNS.Of(t)| && V8_COLUMNS.Of(t)[i] in NotNullNames(t) ensures i in RequiredColumns(t) {
      RequiredByName(t, i);
    }
  }

  /** At most one live workflow for each collab. */
  ghost predicate OneLive(rows: Rows) {
    forall j, k | j in rows && k in rows && j.table == Workflows && k.table == Workflows
                  && RunsOrPaused(rows[j]) && RunsOrPaused(rows[k]) && Cell(rows[j], 1) == Cell(rows[k], 1) :: j == k
  }

  predicate RunsOrPaused(row: Row) {
    Cell(row, 6) == Some("running") || Cell(row, 6) == Some("paused")
  }

  lemma PerformOneLive(rows: Rows, layout: Layout, op: Op)
    requires OneLive(rows) && Perform(rows, layout, op).Ok?
    ensures OneLive(Perform(rows, layout, op).value)
  {
  }

  lemma {:induction false} RunOneLive(rows: Rows, layout: Layout, plan: seq<Op>)
    requires OneLive(rows) && RunPlan(rows, layout, plan).Ok?
    ensures OneLive(RunPlan(rows, layout, plan).value)
  {
    hide Perform;
    if plan == [] {
    } else {
      var n := |plan| - 1;
      RunOneLive(rows, layout, plan[..n]);
      PerformOneLive(RunPlan(rows, layout, plan[..n]).value, layout, plan[n]);
    }
  }

  /** An import never leaves a collab with a second live workflow. */
  lemma ImportKeepsOneLive(rows: Rows, layout: Layout, source: seq<Stray>, e: Expectations, now: string, liveDaemon: bool)
    requires OneLive(rows)
    ensures OneLive(Import(rows, layout, source, e, now, liveDaemon).1)
  {
    hide RunPlan, Plan, Import;
    ImportRunsPlan(rows, layout, source, e, now, liveDaemon);
    if Import(rows, layout, source, e, now, liveDaemon).0.Ok? { RunOneLive(rows, layout, Plan(rows, source, now)); }
  }

  // ------------------------------------------------------------ what is stored

  lemma {:induction false} NewRowIsPut(rows: Rows, layout: Layout, plan: seq<Op>, k: Key)
    requires RunPlan(rows, layout, plan).Ok? && k in RunPlan(rows, layout, plan).value && k !in rows
    ensures var row := RunPlan(rows, layout, plan).value[k]; Put(k.table, row) in plan && Id(row) == k.id
  {
    if plan == [] {
    } else {
      var n := |plan| - 1;
      assert plan == plan[..n] + [plan[n]];
      var before := RunPlan(rows, layout, plan[..n]).value;
      if k in before { NewRowIsPut(rows, layout, plan[..n], k); }
    }
  }

  lemma PutIsInBatch(rows: Rows, source: seq<Stray>, now: string, t: Table, row: Row)
    requires Put(t, row) in Plan(rows, source, now)
    ensures row in Batch(rows, source, now, t)
  {
    hide Batch;
    forall u: Table | Put(t, row) in SectionFor(rows, source, now, u)
      ensures u == t && row in Batch(rows, source, now, t)
    {
      var puts := Puts(u, Batch(rows, source, now, u));
      assert Put(t, row) in puts;
      var i :| 0 <= i < |puts| && puts[i] == Put(t, row);
    }
    hide SectionFor;
    assert Plan(rows, source, now) == SectionFor(rows, source, now, Collabs) + SectionFor(rows, source, now, Workflows)
      + SectionFor(rows, source, now, Chains) + SectionFor(rows, source, now, Phases) + SectionFor(rows, source, now, Handoffs);
  }

  /** Some record of the source has exactly these cells, and the table's predicate matches it. */
  ghost predicate Recovered(t: Table, source: seq<Stray>, row: Row) {
    exists i: nat :: i < |source| && Matches(t, source[i]) && |row| == source[i].nfield
      && forall j: nat | j < |row| :: row[j] == Cell(source[i].cells, j)
  }

  lemma {:induction false} MatchingIsRecovered(t: Table, source: seq<Stray>, row: Row)
    requires row in Matching(t, source)
    ensures Recovered(t, source, row)
  {
    var n := |source| - 1;
    if row in Matching(t, source[..n]) {
      MatchingIsRecovered(t, source[..n], row);
      var i: nat :| i < n && Matches(t, source[..n][i]) && |row| == source[..n][i].nfield
        && forall j: nat | j < |row| :: row[j] == Cell(source[..n][i].cells, j);
      assert source[i] == source[..n][i];
    } else {
      assert Matches(t, source[n]);
    }
  }

  lemma BatchIsRecovered(rows: Rows, source: seq<Stray>, now: string, t: Table, row: Row)
    requires t != Collabs && row in Batch(rows, source, now, t)
    ensures Recovered(t, source, row)
  {
    assert row in Candidates(t, source);
    FirstHasAll(Matching(t, source));
    MatchingIsRecovered(t, source, row);
  }

  /**
   * Cell by cell: a row that an import adds to a table is one of the source's records, and a collab that it adds is a
   * tombstone, stopped and archived at the time of the import.
   */
  lemma AddedRowsAreRecovered(rows: Rows, layout: Layout, source: seq<Stray>, e: Expectations, now: string, liveDaemon: bool, k: Key)
    ensures var (r, after) := Import(rows, layout, source, e, now, liveDaemon);
      k in after && k !in rows ==>
        && Id(after[k]) == k.id
        && if k.table == Collabs then
             after[k] == [Some(k.id), Some("recovered"), Some(k.id), Some("stopped"), Some(now), Some(now), Some(now)]
           else Recovered(k.table, source, after[k])
  {
    hide RunPlan, Plan, Import, Batch, Recovered;
    var (r, after) := Import(rows, layout, source, e, now, liveDaemon);
    ImportRunsPlan(rows, layout, source, e, now, liveDaemon);
    if k in after && k !in rows {
      NewRowIsPut(rows, layout, Plan(rows, source, now), k);
      PutIsInBatch(rows, source, now, k.table, after[k]);
      if k.table == Collabs {
        BatchIsTombstones(rows, source, now, after[k]);
      } else {
        BatchIsRecovered(rows, source, now, k.table, after[k]);
      }
    }
  }

  lemma BatchIsTombstones(rows: Rows, source: seq<Stray>, now: string, row: Row)
    requires row in Batch(rows, source, now, Collabs)
    ensures row == [Some(Id(row)), Some("recovered"), Some(Id(row)), Some("stopped"), Some(now), Some(now), Some(now)]
  {
    hide CollabIds;
    var batch := Tombstones(CollabIds(rows, source), now);
    var i :| 0 <= i < |batch| && batch[i] == row;
  }

  // ------------------------------------------------------------ the summary

  /**
   * The summary's numbers: what each table gained, the candidates of an unknown workflow, those of a known workflow
   * whose chain is missing, and the candidate chains that none of the rest refers to.
   */
  lemma SummaryIsTrue(rows: Rows, layout: Layout, source: seq<Stray>, e: Expectations, now: string, liveDaemon: bool)
    ensures var (r, after) := Import(rows, layout, source, e, now, liveDaemon);
      r.Ok? ==>
        var (n, left) := (r.value.imported, r.value.skipped);
        && n.workflows == |Stored(after, Workflows) - Stored(rows, Workflows)|
        && n.phases == |Stored(after, Phases) - Stored(rows, Phases)|
        && n.chains == |Stored(after, Chains) - Stored(rows, Chains)|
        && n.handoffs == |Stored(after, Handoffs) - Stored(rows, Handoffs)|
        && n.collabTombstones == |Stored(after, Collabs) - Stored(rows, Collabs)|
        && left.unknownPhases == Rejected(Candidates(Phases, source), 1, KnownWorkflows(rows, source), false)
        && left.unknownHandoffs == Rejected(Candidates(Handoffs, source), 23, KnownWorkflows(rows, source), false)
        && left.missingPhases == Rejected(Rooted(rows, source, Phases), 4, AvailableChains(rows, source), true)
        && left.missingHandoffs == Rejected(Rooted(rows, source, Handoffs), 12, AvailableChains(rows, source), true)
        && left.unreferencedChains == Rejected(Candidates(Chains, source), 0, ReferencedChains(rows, source), false)
  {
    hide Candidates, Rooted, Final, ImportedChains, KnownWorkflows, AvailableChains, ReferencedChains, Rejected, RunPlan, Plan, Refusal, Stored;
    CountsAddUp(rows, source, Phases);
    CountsAddUp(rows, source, Handoffs);
    ChainsAddUp(rows, source);
  }

  lemma ChainsAddUp(rows: Rows, source: seq<Stray>)
    ensures |Candidates(Chains, source)| - |ImportedChains(rows, source)|
         == Rejected(Candidates(Chains, source), 0, ReferencedChains(rows, source), false)
  {
    hide Candidates, ReferencedChains;
    SelectCounts(Candidates(Chains, source), 0, ReferencedChains(rows, source), false);
  }

  predicate Once(ids: seq<string>) {
    forall i, j | 0 <= i < j < |ids| :: ids[i] != ids[j]
  }

  lemma {:induction false} AddOnceIsOnce(ids: seq<string>, batch: seq<Row>, column: nat)
    requires Once(ids)
    ensures Once(AddOnce(ids, batch, column))
  {
    if batch == [] {
    } else {
      var rest := AddOnce(ids, batch[..|batch| - 1], column);
      AddOnceIsOnce(ids, batch[..|batch| - 1], column);
      assert forall i | 0 <= i < |rest| :: rest[i] in rest;
    }
  }

  /** One tombstone for each collab of a recovered workflow, an imported chain or a kept handoff, and for no other. */
  lemma OneTombstoneEach(rows: Rows, source: seq<Stray>, now: string)
    ensures var batch := Batch(rows, source, now, Collabs);
      && (forall i, j | 0 <= i < j < |batch| :: Id(batch[i]) != Id(batch[j]))
      && Ids(batch, 0) == Ids(Candidates(Workflows, source), 1) + Ids(ImportedChains(rows, source), 1) + Ids(Final(rows, source, Handoffs), 1)
  {
    hide Candidates, ImportedChains, Final, AddOnce;
    var a := AddOnce([], Candidates(Workflows, source), 1);
    var b := AddOnce(a, ImportedChains(rows, source), 1);
    AddOnceIsOnce([], Candidates(Workflows, source), 1);
    AddOnceIsOnce(a, ImportedChains(rows, source), 1);
    AddOnceIsOnce(b, Final(rows, source, Handoffs), 1);
    AddOnceHasAll([], Candidates(Workflows, source), 1);
    AddOnceHasAll(a, ImportedChains(rows, source), 1);
    AddOnceHasAll(b, Final(rows, source, Handoffs), 1);
    TombstoneIds(CollabIds(rows, source), now);
    assert Once(CollabIds(rows, source));
  }

  lemma TombstoneIds(ids: seq<string>, now: string)
    ensures forall id :: id in Ids(Tombstones(ids, now), 0) <==> id in ids
    ensures forall i | 0 <= i < |ids| :: Id(Tombstones(ids, now)[i]) == ids[i]
  {
    var batch := Tombstones(ids, now);
    forall id | id in ids ensures id in Ids(batch, 0) {
      var i :| 0 <= i < |ids| && ids[i] == id;
      assert batch[i] in batch && Text(Cell(batch[i], 0)) == id;
    }
  }

  /** A matching record has exactly the columns of its table, so that its cells map onto them one by one. */
  lemma {:induction false} RecordsFitTables(t: Table, source: seq<Stray>, row: Row)
    requires row in Matching(t, source)
    ensures |row| == |V8_COLUMNS.Of(t)|
  {
    MatchingIsRecovered(t, source, row);
  }

  // ------------------------------------------------------------ which chains come along

  /** The workflow is in the database, or one of those recovered. */
  ghost predicate Known(rows: Rows, source: seq<Stray>, workflow: string) {
    workflow in Stored(rows, Workflows) || exists w :: w in Candidates(Workflows, source) && Id(w) == workflow
  }

  /** A recovered phase or handoff of a known workflow refers to the chain. */
  ghost predicate Wanted(rows: Rows, source: seq<Stray>, chain: string) {
    || (exists p :: p in Candidates(Phases, source) && Known(rows, source, Text(Cell(p, 1))) && Cell(p, 4) == Some(chain))
    || (exists h :: h in Candidates(Handoffs, source) && Known(rows, source, Text(Cell(h, 23))) && Cell(h, 12) == Some(chain))
  }

  lemma KnownIs(rows: Rows, source: seq<Stray>, workflow: string)
    ensures Known(rows, source, workflow) <==> workflow in KnownWorkflows(rows, source)
  {
    hide Candidates, Stored;
  }

  lemma WantedIs(rows: Rows, source: seq<Stray>, chain: string)
    ensures Wanted(rows, source, chain) <==> chain in ReferencedChains(rows, source)
  {
    hide Candidates, KnownWorkflows, Known;
    forall workflow ensures Known(rows, source, workflow) <==> workflow in KnownWorkflows(rows, source) { KnownIs(rows, source, workflow); }
    forall p | p in Candidates(Phases, source) && Known(rows, source, Text(Cell(p, 1))) && Cell(p, 4) == Some(chain)
      ensures chain in ReferencedChains(rows, source)
    {
      assert p in Rooted(rows, source, Phases);
    }
    forall h | h in Candidates(Handoffs, source) && Known(rows, source, Text(Cell(h, 23))) && Cell(h, 12) == Some(chain)
      ensures chain in ReferencedChains(rows, source)
    {
      assert h in Rooted(rows, source, Handoffs);
    }
  }

  /** A recovered chain is there after an import exactly when it was there before, or something kept refers to it. */
  lemma ChainsComeAsWanted(rows: Rows, layout: Layout, source: seq<Stray>, e: Expectations, now: string, liveDaemon: bool, row: Row)
    requires row in Candidates(Chains, source)
    ensures var (r, after) := Import(rows, layout, source, e, now, liveDaemon);
      r.Ok? ==> (Id(row) in Stored(after, Chains) <==> Id(row) in Stored(rows, Chains) || Wanted(rows, source, Id(row)))
  {
    hide Import, RunPlan, Plan, Stored, Candidates, Wanted, ReferencedChains;
    var (r, after) := Import(rows, layout, source, e, now, liveDaemon);
    ImportRunsPlan(rows, layout, source, e, now, liveDaemon);
    if r.Ok? {
      ImportedExactly(rows, layout, source, now);
      assert Stored(after, Chains) == Stored(rows, Chains) + Ids(ImportedChains(rows, source), 0);
      WantedIs(rows, source, Id(row));
    }
  }
}
