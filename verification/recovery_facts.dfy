/** What the recovery import keeps: referential closure at every insert, existing rows, idempotence, and its counts. */
module RecoveryFacts {
  import opened Wrappers
  import opened RecoveryImport

  // ------------------------------------------------------------ closure

  function Ref(t: Table, cell: Option<string>): set<Key> {
    if cell.Some? then {Key(t, cell.value)} else {}
  }

  /** The rows a row refers to: its collab, its workflow, its chain. */
  function Parents(t: Table, row: Row): set<Key> {
    match t
    case Collabs => {}
    case Workflows => Ref(Collabs, Cell(row, 1))
    case Chains => Ref(Collabs, Cell(row, 1))
    case Phases => Ref(Workflows, Cell(row, 1)) + Ref(Chains, Cell(row, 4))
    case Handoffs => Ref(Collabs, Cell(row, 1)) + Ref(Workflows, Cell(row, 23)) + Ref(Chains, Cell(row, 12))
  }

  ghost predicate Closed(rows: Rows) {
    forall k | k in rows :: Parents(k.table, rows[k]) <= rows.Keys
  }

  function PutKey(op: Op): set<Key> {
    if op.Put? then {Key(op.table, Id(op.row))} else {}
  }

  /** The rows that are there once a plan has run. */
  function Present(keys: set<Key>, plan: seq<Op>): set<Key> {
    if plan == [] then keys else Present(keys, plan[..|plan| - 1]) + PutKey(plan[|plan| - 1])
  }

  /** Each operation finds the parents of its row already there. */
  ghost predicate ParentsFirst(keys: set<Key>, plan: seq<Op>) {
    plan == [] ||
    var before, last := plan[..|plan| - 1], plan[|plan| - 1];
    ParentsFirst(keys, before) && (last.Put? ==> Parents(last.table, last.row) <= Present(keys, before))
  }

  lemma {:induction false} RunPresent(rows: Rows, layout: Layout, plan: seq<Op>)
    requires RunPlan(rows, layout, plan).Ok?
    ensures RunPlan(rows, layout, plan).value.Keys == Present(rows.Keys, plan)
  {
    if plan == [] {
    } else {
      RunPresent(rows, layout, plan[..|plan| - 1]);
    }
  }

  lemma {:induction false} RunKeepsClosed(rows: Rows, layout: Layout, plan: seq<Op>)
    requires Closed(rows) && ParentsFirst(rows.Keys, plan) && RunPlan(rows, layout, plan).Ok?
    ensures Closed(RunPlan(rows, layout, plan).value)
  {
    if plan == [] {
    } else {
      var before := plan[..|plan| - 1];
      RunKeepsClosed(rows, layout, before);
      RunPresent(rows, layout, before);
    }
  }

  lemma {:induction false} ParentsFirstPrefix(keys: set<Key>, plan: seq<Op>, n: nat)
    requires ParentsFirst(keys, plan) && n <= |plan|
    ensures ParentsFirst(keys, plan[..n])
    decreases |plan|
  {
    if n == |plan| {
      assert plan[..n] == plan;
    } else {
      assert plan[..|plan| - 1][..n] == plan[..n];
      ParentsFirstPrefix(keys, plan[..|plan| - 1], n);
    }
  }

  lemma {:induction false} Sequel(keys: set<Key>, a: seq<Op>, b: seq<Op>)
    requires ParentsFirst(keys, a) && ParentsFirst(Present(keys, a), b)
    ensures ParentsFirst(keys, a + b) && Present(keys, a + b) == Present(Present(keys, a), b)
    decreases |b|
  {
    if b == [] {
      assert a + b == a;
    } else {
      assert (a + b)[..|a + b| - 1] == a + b[..|b| - 1];
      Sequel(keys, a, b[..|b| - 1]);
    }
  }

  function KeysOf(t: Table, batch: seq<Row>): set<Key> {
    set row | row in batch :: Key(t, Id(row))
  }

  lemma {:induction false} PutsPresent(keys: set<Key>, t: Table, batch: seq<Row>)
    requires forall row | row in batch :: Parents(t, row) <= keys
    ensures ParentsFirst(keys, Puts(t, batch)) && Present(keys, Puts(t, batch)) == keys + KeysOf(t, batch)
    decreases |batch|
  {
    var ops := Puts(t, batch);
    if batch == [] {
    } else {
      var before, last := batch[..|batch| - 1], batch[|batch| - 1];
      assert batch == before + [last];
      PutsPresent(keys, t, before);
      OneMoreKey(t, before, last);
      PutsLast(t, before, last);
    }
  }

  lemma OneMoreKey(t: Table, batch: seq<Row>, row: Row)
    ensures KeysOf(t, batch + [row]) == KeysOf(t, batch) + {Key(t, Id(row))}
  {
  }

  lemma PutsLast(t: Table, batch: seq<Row>, row: Row)
    ensures var ops := Puts(t, batch + [row]); ops != [] && ops[..|ops| - 1] == Puts(t, batch) && ops[|ops| - 1] == Put(t, row)
  {
  }

  lemma SectionPresent(keys: set<Key>, t: Table, batch: seq<Row>)
    requires forall row | row in batch :: Parents(t, row) <= keys
    ensures ParentsFirst(keys, Section(t, batch)) && Present(keys, Section(t, batch)) == keys + KeysOf(t, batch)
  {
    PutsPresent(keys, t, batch);
    if t == Collabs {
      assert Section(t, batch) == Puts(t, batch);
    } else {
      var check := [Check(t)];
      assert check[..|check| - 1] == [];
      assert Present(keys, check) == keys + {} == keys;
      Sequel(keys, check, Puts(t, batch));
    }
  }

  // ------------------------------------------------------------ the plan's sections

  lemma {:induction false} FirstHasAll(batch: seq<Row>)
    ensures Ids(FirstOfEach(batch), 0) == Ids(batch, 0)
    ensures forall row | row in FirstOfEach(batch) :: row in batch
    ensures forall i, j | 0 <= i < j < |FirstOfEach(batch)| :: Id(FirstOfEach(batch)[i]) != Id(FirstOfEach(batch)[j])
  {
    if batch == [] {
    } else {
      var rest := batch[..|batch| - 1];
      FirstHasAll(rest);
      assert batch == rest + [batch[|batch| - 1]];
      var kept := FirstOfEach(rest);
      assert Ids(batch, 0) == Ids(rest, 0) + {Id(batch[|batch| - 1])};
      if Id(batch[|batch| - 1]) !in Ids(kept, 0) {
        assert Ids(kept + [batch[|batch| - 1]], 0) == Ids(kept, 0) + {Id(batch[|batch| - 1])};
        forall i | 0 <= i < |kept|
          ensures Id(kept[i]) != Id(batch[|batch| - 1])
        {
          assert kept[i] in kept;
        }
      }
    }
  }

  lemma {:induction false} AddOnceHasAll(ids: seq<string>, batch: seq<Row>, column: nat)
    ensures forall id :: id in AddOnce(ids, batch, column) <==> id in ids || id in Ids(batch, column)
  {
    if batch == [] {
    } else {
      var rest := batch[..|batch| - 1];
      AddOnceHasAll(ids, rest, column);
      assert batch == rest + [batch[|batch| - 1]];
      assert Ids(batch, column) == Ids(rest, column) + {Text(Cell(batch[|batch| - 1], column))};
    }
  }

  lemma CollabsCovered(rows: Rows, source: seq<Stray>, id: string)
    requires id in Ids(Candidates(Workflows, source), 1) || id in Ids(ImportedChains(rows, source), 1)
          || id in Ids(Final(rows, source, Handoffs), 1)
    ensures id in CollabIds(rows, source)
  {
    var a := AddOnce([], Candidates(Workflows, source), 1);
    var b := AddOnce(a, ImportedChains(rows, source), 1);
    AddOnceHasAll([], Candidates(Workflows, source), 1);
    AddOnceHasAll(a, ImportedChains(rows, source), 1);
    AddOnceHasAll(b, Final(rows, source, Handoffs), 1);
  }

  lemma TombstoneKeys(ids: seq<string>, now: string)
    ensures forall id | id in ids :: Key(Collabs, id) in KeysOf(Collabs, Tombstones(ids, now))
  {
    forall id | id in ids
      ensures Key(Collabs, id) in KeysOf(Collabs, Tombstones(ids, now))
    {
      var i :| 0 <= i < |ids| && ids[i] == id;
      var row := Tombstones(ids, now)[i];
      assert Id(row) == id && row in Tombstones(ids, now);
    }
  }

  function Position(t: Table): nat {
    match t
    case Collabs => 0
    case Workflows => 1
    case Chains => 2
    case Phases => 3
    case Handoffs => 4
  }

  function Previous(t: Table): (s: Table)
    requires t != Collabs
    ensures Position(s) == Position(t) - 1
  {
    match t
    case Workflows => Collabs
    case Chains => Workflows
    case Phases => Chains
    case Handoffs => Phases
  }

  /** The keys that are there once the sections up to that of a table have run. */
  function After(rows: Rows, source: seq<Stray>, now: string, t: Table): set<Key>
    decreases Position(t)
  {
    (if t == Collabs then rows.Keys else After(rows, source, now, Previous(t))) + KeysOf(t, Batch(rows, source, now, t))
  }

  lemma {:induction false} AfterHas(rows: Rows, source: seq<Stray>, now: string, t: Table, k: Key)
    ensures k in After(rows, source, now, t) <==>
        k in rows || (Position(k.table) <= Position(t) && k in KeysOf(k.table, Batch(rows, source, now, k.table)))
    decreases Position(t)
  {
    var own := KeysOf(t, Batch(rows, source, now, t));
    assert k in own ==> k.table == t;
    assert Position(k.table) == Position(t) ==> k.table == t;
    if t == Collabs {
    } else {
      AfterHas(rows, source, now, Previous(t), k);
    }
  }

  lemma CollabPresent(rows: Rows, source: seq<Stray>, now: string, cell: Option<string>)
    requires cell.Some? ==> cell.value in CollabIds(rows, source)
    ensures Ref(Collabs, cell) <= After(rows, source, now, Collabs)
  {
    TombstoneKeys(CollabIds(rows, source), now);
  }

  lemma WorkflowPresent(rows: Rows, source: seq<Stray>, now: string, cell: Option<string>)
    requires Text(cell) in KnownWorkflows(rows, source)
    ensures Ref(Workflows, cell) <= After(rows, source, now, Workflows)
  {
    var id := Text(cell);
    if id in Stored(rows, Workflows) {
      assert Key(Workflows, id) in rows;
    } else {
      var row :| row in Candidates(Workflows, source) && Id(row) == id;
      assert Key(Workflows, Id(row)) in KeysOf(Workflows, Candidates(Workflows, source));
    }
  }

  lemma ChainPresent(rows: Rows, source: seq<Stray>, now: string, cell: Option<string>)
    requires cell.None? || Text(cell) in AvailableChains(rows, source)
    ensures Ref(Chains, cell) <= After(rows, source, now, Chains)
  {
    if cell.Some? {
      var id := Text(cell);
      if id in Stored(rows, Chains) {
        assert Key(Chains, id) in rows;
      } else {
        var row :| row in ImportedChains(rows, source) && Id(row) == id;
        assert Key(Chains, Id(row)) in KeysOf(Chains, ImportedChains(rows, source));
      }
    }
  }

  lemma WorkflowParents(rows: Rows, source: seq<Stray>, now: string, row: Row)
    requires row in Candidates(Workflows, source)
    ensures Parents(Workflows, row) <= After(rows, source, now, Collabs)
  {
    assert Text(Cell(row, 1)) in Ids(Candidates(Workflows, source), 1);
    CollabsCovered(rows, source, Text(Cell(row, 1)));
    CollabPresent(rows, source, now, Cell(row, 1));
  }

  lemma ChainParents(rows: Rows, source: seq<Stray>, now: string, row: Row)
    requires row in ImportedChains(rows, source)
    ensures Parents(Chains, row) <= After(rows, source, now, Workflows)
  {
    assert Text(Cell(row, 1)) in Ids(ImportedChains(rows, source), 1);
    CollabsCovered(rows, source, Text(Cell(row, 1)));
    CollabPresent(rows, source, now, Cell(row, 1));
  }

  lemma PhaseParents(rows: Rows, source: seq<Stray>, now: string, row: Row)
    requires row in Final(rows, source, Phases)
    ensures Parents(Phases, row) <= After(rows, source, now, Chains)
  {
    WorkflowPresent(rows, source, now, Cell(row, 1));
    ChainPresent(rows, source, now, Cell(row, 4));
  }

  lemma HandoffParents(rows: Rows, source: seq<Stray>, now: string, row: Row)
    requires row in Final(rows, source, Handoffs)
    ensures Parents(Handoffs, row) <= After(rows, source, now, Phases)
  {
    assert Text(Cell(row, 1)) in Ids(Final(rows, source, Handoffs), 1);
    CollabsCovered(rows, source, Text(Cell(row, 1)));
    CollabPresent(rows, source, now, Cell(row, 1));
    WorkflowPresent(rows, source, now, Cell(row, 23));
    ChainPresent(rows, source, now, Cell(row, 12));
  }

  lemma SectionAfter(rows: Rows, source: seq<Stray>, now: string, t: Table)
    requires t != Collabs
    ensures ParentsFirst(After(rows, source, now, Previous(t)), SectionFor(rows, source, now, t))
    ensures Present(After(rows, source, now, Previous(t)), SectionFor(rows, source, now, t)) == After(rows, source, now, t)
  {
    forall row | row in Batch(rows, source, now, t)
      ensures Parents(t, row) <= After(rows, source, now, Previous(t))
    {
      match t
      case Workflows => WorkflowParents(rows, source, now, row);
      case Chains => ChainParents(rows, source, now, row);
      case Phases => PhaseParents(rows, source, now, row);
      case Handoffs => HandoffParents(rows, source, now, row);
    }
    SectionPresent(After(rows, source, now, Previous(t)), t, Batch(rows, source, now, t));
  }

  lemma FirstSection(rows: Rows, source: seq<Stray>, now: string)
    ensures ParentsFirst(rows.Keys, SectionFor(rows, source, now, Collabs))
    ensures Present(rows.Keys, SectionFor(rows, source, now, Collabs)) == After(rows, source, now, Collabs)
  {
    SectionPresent(rows.Keys, Collabs, Batch(rows, source, now, Collabs));
  }

  /** No insert of the plan comes before a row that it refers to. */
  lemma PlanParentsFirst(rows: Rows, source: seq<Stray>, now: string)
    ensures ParentsFirst(rows.Keys, Plan(rows, source, now))
    ensures Present(rows.Keys, Plan(rows, source, now)) == After(rows, source, now, Handoffs)
  {
    hide SectionFor, ParentsFirst, Present, After;
    var a, b := SectionFor(rows, source, now, Collabs), SectionFor(rows, source, now, Workflows);
    var c, d := SectionFor(rows, source, now, Chains), SectionFor(rows, source, now, Phases);
    FirstSection(rows, source, now);
    SectionAfter(rows, source, now, Workflows);
    Sequel(rows.Keys, a, b);
    SectionAfter(rows, source, now, Chains);
    Sequel(rows.Keys, a + b, c);
    SectionAfter(rows, source, now, Phases);
    Sequel(rows.Keys, a + b + c, d);
    SectionAfter(rows, source, now, Handoffs);
    Sequel(rows.Keys, a + b + c + d, SectionFor(rows, source, now, Handoffs));
  }

  // ------------------------------------------------------------ the import

  /** From a closed database every insert leads to a closed one, also in an import that fails later. */
  lemma ClosedAfterEveryInsert(rows: Rows, layout: Layout, source: seq<Stray>, now: string, n: nat)
    requires Closed(rows) && n <= |Plan(rows, source, now)|
    ensures var run := RunPlan(rows, layout, Plan(rows, source, now)[..n]); run.Ok? ==> Closed(run.value)
  {
    hide Plan, RunPlan, Closed;
    var plan := Plan(rows, source, now);
    if RunPlan(rows, layout, plan[..n]).Ok? {
      PlanParentsFirst(rows, source, now);
      ParentsFirstPrefix(rows.Keys, plan, n);
      RunKeepsClosed(rows, layout, plan[..n]);
    }
  }

  /** All or nothing; the existing rows are still there, unchanged, and the database stays closed. */
  lemma ImportIsSafe(rows: Rows, layout: Layout, source: seq<Stray>, e: Expectations, now: string, liveDaemon: bool)
    requires Closed(rows)
    ensures var (reply, after) := Import(rows, layout, source, e, now, liveDaemon);
      && Closed(after)
      && (reply.Throw? ==> after == rows)
      && (forall k | k in rows :: k in after && after[k] == rows[k])
  {
    hide RunPlan, Plan, Closed, Refusal;
    var plan := Plan(rows, source, now);
    if RunPlan(rows, layout, plan).Ok? {
      RunGrows(rows, layout, plan);
      assert plan[..|plan|] == plan;
      ClosedAfterEveryInsert(rows, layout, source, now, |plan|);
    }
  }

  /** Each table has its old rows and the selected candidates, and no others. */
  ghost predicate Gains(rows: Rows, after: Rows, source: seq<Stray>, now: string) {
    forall t: Table :: Stored(after, t) == Stored(rows, t) + Ids(Batch(rows, source, now, t), 0)
  }

  /** A successful import adds to each table exactly its selected candidates. */
  lemma ImportedExactly(rows: Rows, layout: Layout, source: seq<Stray>, now: string)
    ensures var run := RunPlan(rows, layout, Plan(rows, source, now)); run.Ok? ==> Gains(rows, run.value, source, now)
  {
    hide Plan, RunPlan, Batch, Stored;
    if RunPlan(rows, layout, Plan(rows, source, now)).Ok? {
      var after := RunPlan(rows, layout, Plan(rows, source, now)).value;
      RunPresent(rows, layout, Plan(rows, source, now));
      PlanParentsFirst(rows, source, now);
      forall t: Table
        ensures Stored(after, t) == Stored(rows, t) + Ids(Batch(rows, source, now, t), 0)
      {
        KeysAfter(rows, source, now, t);
        StoredIs(rows, after, t, Batch(rows, source, now, t));
      }
    }
  }

  lemma KeysAfter(rows: Rows, source: seq<Stray>, now: string, t: Table)
    ensures forall k: Key | k.table == t ::
        k in After(rows, source, now, Handoffs) <==> k in rows || k in KeysOf(t, Batch(rows, source, now, t))
  {
    forall k: Key | k.table == t
      ensures k in After(rows, source, now, Handoffs) <==> k in rows || k in KeysOf(t, Batch(rows, source, now, t))
    {
      AfterHas(rows, source, now, Handoffs, k);
    }
  }

  lemma StoredIs(rows: Rows, after: Rows, t: Table, batch: seq<Row>)
    requires forall k: Key | k.table == t :: k in after.Keys <==> k in rows || k in KeysOf(t, batch)
    ensures Stored(after, t) == Stored(rows, t) + Ids(batch, 0)
  {
    forall id
      ensures id in Stored(after, t) <==> id in Stored(rows, t) || id in Ids(batch, 0)
    {
      assert id in Stored(after, t) <==> Key(t, id) in after;
      assert id in Stored(rows, t) <==> Key(t, id) in rows;
      assert id in Ids(batch, 0) <==> Key(t, id) in KeysOf(t, batch);
    }
  }

  /** Both ends of a phase or handoff are in the database. */
  predicate BothEdges(rows: Rows, t: Table, row: Row) {
    var workflow, chain := Cell(row, WorkflowColumn(t)), Cell(row, ChainColumn(t));
    Text(workflow) in Stored(rows, Workflows) && (chain.None? || chain.value in Stored(rows, Chains))
  }

  lemma SelectedIffBothEdges(rows: Rows, after: Rows, source: seq<Stray>, now: string, t: Table, row: Row)
    requires (t == Phases || t == Handoffs) && Gains(rows, after, source, now) && row in Candidates(t, source)
    ensures row in Final(rows, source, t) <==> BothEdges(after, t, row)
  {
    assert Stored(after, Workflows) == KnownWorkflows(rows, source);
    assert Stored(after, Chains) == AvailableChains(rows, source);
  }

  /** The two edges: a recovered phase or handoff is in the database afterwards just when both its ends are. */
  lemma ImportedIffBothEdges(rows: Rows, layout: Layout, source: seq<Stray>, now: string, t: Table, row: Row)
    requires (t == Phases || t == Handoffs) && row in Candidates(t, source)
    ensures var run := RunPlan(rows, layout, Plan(rows, source, now));
      run.Ok? ==> (Id(row) in Stored(run.value, t) <==> Id(row) in Stored(rows, t) || BothEdges(run.value, t, row))
  {
    hide Plan, RunPlan, Stored, BothEdges, Candidates, ImportedChains, Rooted;
    var run := RunPlan(rows, layout, Plan(rows, source, now));
    if run.Ok? {
      ImportedExactly(rows, layout, source, now);
      SelectedIffBothEdges(rows, run.value, source, now, t, row);
      assert Stored(run.value, t) == Stored(rows, t) + Ids(Final(rows, source, t), 0);
      if Id(row) in Ids(Final(rows, source, t), 0) {
        var kept :| kept in Final(rows, source, t) && Id(kept) == Id(row);
        SelectedIsCandidate(rows, source, t, kept);
        OneCandidateForEachId(t, source, kept, row);
      }
    }
  }

  lemma SelectedIsCandidate(rows: Rows, source: seq<Stray>, t: Table, row: Row)
    requires row in Final(rows, source, t)
    ensures row in Candidates(t, source)
  {
  }

  lemma OneCandidateForEachId(t: Table, source: seq<Stray>, a: Row, b: Row)
    requires a in Candidates(t, source) && b in Candidates(t, source) && Id(a) == Id(b)
    ensures a == b
  {
    OneRowForEachId(Matching(t, source), a, b);
  }

  lemma OneRowForEachId(batch: seq<Row>, a: Row, b: Row)
    requires a in FirstOfEach(batch) && b in FirstOfEach(batch) && Id(a) == Id(b)
    ensures a == b
  {
    FirstHasAll(batch);
    var i :| 0 <= i < |FirstOfEach(batch)| && FirstOfEach(batch)[i] == a;
    var j :| 0 <= j < |FirstOfEach(batch)| && FirstOfEach(batch)[j] == b;
    assert i == j;
  }

  // ------------------------------------------------------------ a second run

  predicate Settled(rows: Rows, layout: Layout, op: Op) {
    match op
    case Check(t) => LayoutOk(layout, t)
    case Put(t, row) => !MissesRequired(t, row) && Key(t, Id(row)) in rows
  }

  lemma {:induction false} RunSettles(rows: Rows, layout: Layout, plan: seq<Op>)
    requires RunPlan(rows, layout, plan).Ok?
    ensures AllSettled(RunPlan(rows, layout, plan).value, layout, plan)
  {
    if plan == [] {
    } else {
      var before := plan[..|plan| - 1];
      RunSettles(rows, layout, before);
      var r := RunPlan(rows, layout, before).value;
      var last := plan[|plan| - 1];
      var after := RunPlan(rows, layout, plan).value;
      assert Perform(r, layout, last) == Ok(after);
      PerformSettles(r, layout, last);
      forall i | 0 <= i < |plan|
        ensures Settled(after, layout, plan[i])
      {
        if i < |before| {
          assert Settled(r, layout, before[i]);
          StaysSettled(r, after, layout, plan[i]);
        }
      }
    }
  }

  lemma PerformSettles(rows: Rows, layout: Layout, op: Op)
    requires Perform(rows, layout, op).Ok?
    ensures var after := Perform(rows, layout, op).value; Settled(after, layout, op) && rows.Keys <= after.Keys
  {
  }

  lemma StaysSettled(rows: Rows, after: Rows, layout: Layout, op: Op)
    requires Settled(rows, layout, op) && rows.Keys <= after.Keys
    ensures Settled(after, layout, op)
  {
    assert op.Put? ==> Key(op.table, Id(op.row)) in rows.Keys;
  }

  lemma {:induction false} SettledDoesNothing(rows: Rows, layout: Layout, plan: seq<Op>)
    requires forall i | 0 <= i < |plan| :: Settled(rows, layout, plan[i])
    ensures RunPlan(rows, layout, plan) == Ok(rows)
  {
    if plan == [] {
    } else {
      SettledDoesNothing(rows, layout, plan[..|plan| - 1]);
      assert Settled(rows, layout, plan[|plan| - 1]);
    }
  }

  /** The closure computed from the imported database is the one that was imported. */
  lemma ClosureIsStable(rows: Rows, after: Rows, source: seq<Stray>, now: string, t: Table)
    requires Gains(rows, after, source, now)
    ensures Rooted(after, source, t) == Rooted(rows, source, t)
    ensures ImportedChains(after, source) == ImportedChains(rows, source)
    ensures Final(after, source, t) == Final(rows, source, t)
  {
    assert Stored(after, Workflows) == Stored(rows, Workflows) + Ids(Candidates(Workflows, source), 0);
    assert Stored(after, Chains) == Stored(rows, Chains) + Ids(ImportedChains(rows, source), 0);
    assert KnownWorkflows(after, source) == KnownWorkflows(rows, source);
    assert ReferencedChains(after, source) == ReferencedChains(rows, source);
    assert AvailableChains(after, source) == AvailableChains(rows, source);
  }

  lemma BatchIsStable(rows: Rows, after: Rows, source: seq<Stray>, now: string, later: string, t: Table)
    requires Gains(rows, after, source, now)
    ensures if t == Collabs then CollabIds(after, source) == CollabIds(rows, source)
            else Batch(after, source, later, t) == Batch(rows, source, now, t)
  {
    hide Rooted, ImportedChains, Final, Candidates, Gains;
    ClosureIsStable(rows, after, source, now, t);
    ClosureIsStable(rows, after, source, now, Handoffs);
  }

  ghost predicate AllSettled(rows: Rows, layout: Layout, plan: seq<Op>) {
    forall i | 0 <= i < |plan| :: Settled(rows, layout, plan[i])
  }

  lemma SectionSettled(rows: Rows, after: Rows, layout: Layout, source: seq<Stray>, now: string, later: string, t: Table)
    requires Gains(rows, after, source, now) && AllSettled(after, layout, Plan(rows, source, now))
    ensures AllSettled(after, layout, SectionFor(after, source, later, t))
  {
    hide Plan, CollabIds, ImportedChains, Final, Candidates, Gains;
    var plan := Plan(rows, source, now);
    BatchIsStable(rows, after, source, now, later, t);
    var mine, ops := SectionFor(rows, source, now, t), SectionFor(after, source, later, t);
    SectionInPlan(rows, source, now, t);
    forall i | 0 <= i < |ops|
      ensures Settled(after, layout, ops[i])
    {
      assert mine[i] in plan;
      var j :| 0 <= j < |plan| && plan[j] == mine[i];
      assert Settled(after, layout, plan[j]);
    }
  }

  lemma SectionInPlan(rows: Rows, source: seq<Stray>, now: string, t: Table)
    ensures forall op | op in SectionFor(rows, source, now, t) :: op in Plan(rows, source, now)
  {
  }

  lemma SettledInTurn(rows: Rows, layout: Layout, a: seq<Op>, b: seq<Op>)
    requires AllSettled(rows, layout, a) && AllSettled(rows, layout, b)
    ensures AllSettled(rows, layout, a + b)
  {
  }

  lemma RepeatDoesNothing(rows: Rows, after: Rows, layout: Layout, source: seq<Stray>, now: string, later: string)
    requires Gains(rows, after, source, now) && AllSettled(after, layout, Plan(rows, source, now))
    ensures RunPlan(after, layout, Plan(after, source, later)) == Ok(after)
  {
    hide RunPlan, SectionFor, Gains, AllSettled, Settled;
    forall t: Table
      ensures AllSettled(after, layout, SectionFor(after, source, later, t))
    {
      SectionSettled(rows, after, layout, source, now, later, t);
    }
    var a, b := SectionFor(after, source, later, Collabs), SectionFor(after, source, later, Workflows);
    var c, d := SectionFor(after, source, later, Chains), SectionFor(after, source, later, Phases);
    SettledInTurn(after, layout, a, b);
    SettledInTurn(after, layout, a + b, c);
    SettledInTurn(after, layout, a + b + c, d);
    SettledInTurn(after, layout, a + b + c + d, SectionFor(after, source, later, Handoffs));
    SettledDoesNothing(after, layout, Plan(after, source, later));
  }

  lemma SameRefusal(rows: Rows, after: Rows, source: seq<Stray>, e: Expectations, now: string)
    requires Gains(rows, after, source, now)
    ensures Refusal(after, source, e, false) == Refusal(rows, source, e, false)
  {
    hide Rooted, ImportedChains, Final, Candidates, Gains;
    ClosureIsStable(rows, after, source, now, Phases);
    ClosureIsStable(rows, after, source, now, Handoffs);
  }

  const NOTHING := Imported(0, 0, 0, 0, 0)

  lemma SameSkipped(rows: Rows, after: Rows, source: seq<Stray>, now: string)
    requires Gains(rows, after, source, now)
    ensures SkippedOf(after, source) == SkippedOf(rows, source)
  {
    hide Rooted, ImportedChains, Final, Candidates, Gains;
    ClosureIsStable(rows, after, source, now, Phases);
    ClosureIsStable(rows, after, source, now, Handoffs);
  }

  lemma NothingAdded(rows: Rows)
    ensures ImportedOf(rows, rows) == NOTHING
  {
    forall t: Table
      ensures Stored(rows, t) - Stored(rows, t) == {}
    {
    }
  }

  /** A second run changes nothing, imports no row, and leaves out what the first run left out. */
  lemma ImportIsIdempotent(rows: Rows, layout: Layout, source: seq<Stray>, e: Expectations, now: string, later: string)
    ensures var (first, after) := Import(rows, layout, source, e, now, false);
      first.Ok? ==> Import(after, layout, source, e, later, false) == (Ok(first.value.(imported := NOTHING)), after)
  {
    hide RunPlan, Plan, Refusal, Gains, AllSettled, SkippedOf, ImportedOf;
    var (first, after) := Import(rows, layout, source, e, now, false);
    if first.Ok? {
      assert RunPlan(rows, layout, Plan(rows, source, now)) == Ok(after);
      ImportedExactly(rows, layout, source, now);
      RunSettles(rows, layout, Plan(rows, source, now));
      SameRefusal(rows, after, source, e, now);
      RepeatDoesNothing(rows, after, layout, source, now, later);
      SameSkipped(rows, after, source, now);
      NothingAdded(after);
    }
  }

  // ------------------------------------------------------------ the counts

  /** The rows that Select leaves out, counted. */
  function Rejected(batch: seq<Row>, column: nat, ids: set<string>, nullPasses: bool): nat {
    if batch == [] then 0
    else
      Rejected(batch[..|batch| - 1], column, ids, nullPasses)
      + (if Passes(batch[|batch| - 1], column, ids, nullPasses) then 0 else 1)
  }

  lemma {:induction false} SelectCounts(batch: seq<Row>, column: nat, ids: set<string>, nullPasses: bool)
    ensures |batch| == |Select(batch, column, ids, nullPasses)| + Rejected(batch, column, ids, nullPasses)
  {
    if batch == [] {
    } else {
      SelectCounts(batch[..|batch| - 1], column, ids, nullPasses);
    }
  }

  /** Every candidate is accounted for: kept, left out for its workflow, or left out for its chain. */
  lemma CountsAddUp(rows: Rows, source: seq<Stray>, t: Table)
    ensures var candidates, rooted := Candidates(t, source), Rooted(rows, source, t);
      && |candidates| - |rooted| == Rejected(candidates, WorkflowColumn(t), KnownWorkflows(rows, source), false)
      && |rooted| - |Final(rows, source, t)| == Rejected(rooted, ChainColumn(t), AvailableChains(rows, source), true)
      && |candidates| == |Final(rows, source, t)| + Rejected(candidates, WorkflowColumn(t), KnownWorkflows(rows, source), false)
                         + Rejected(rooted, ChainColumn(t), AvailableChains(rows, source), true)
  {
    SelectCounts(Candidates(t, source), WorkflowColumn(t), KnownWorkflows(rows, source), false);
    SelectCounts(Rooted(rows, source, t), ChainColumn(t), AvailableChains(rows, source), true);
  }

  /** The distinct tier counts exactly the rows that become candidates. */
  lemma DistinctIsCandidates(t: Table, source: seq<Stray>)
    ensures DistinctCount(t, source) == |Candidates(t, source)| <= |Matching(t, source)|
  {
    var batch := Matching(t, source);
    FirstHasAll(batch);
    DistinctSize(FirstOfEach(batch));
    FirstIsShorter(batch);
  }

  lemma {:induction false} FirstIsShorter(batch: seq<Row>)
    ensures |FirstOfEach(batch)| <= |batch|
  {
    if batch == [] {
    } else {
      FirstIsShorter(batch[..|batch| - 1]);
    }
  }

  lemma {:induction false} DistinctSize(batch: seq<Row>)
    requires forall i, j | 0 <= i < j < |batch| :: Id(batch[i]) != Id(batch[j])
    ensures |Ids(batch, 0)| == |batch|
  {
    if batch == [] {
    } else {
      var rest, last := batch[..|batch| - 1], batch[|batch| - 1];
      DistinctSize(rest);
      assert batch == rest + [last];
      assert Ids(batch, 0) == Ids(rest, 0) + {Id(last)};
      assert Id(last) !in Ids(rest, 0);
    }
  }
}
