/** The run ledger as the recovery import updates it, row by row, in one transaction (import-recovery.ts). */
module RecoveryLedger {
  import opened Wrappers
  import opened RecoveryImport

  lemma {:induction false} RunInTurn(rows: Rows, layout: Layout, a: seq<Op>, b: seq<Op>)
    ensures RunPlan(rows, layout, a + b)
         == match RunPlan(rows, layout, a) { case Throw(e) => Throw(e) case Ok(r) => RunPlan(r, layout, b) }
    decreases |b|
  {
    if b == [] {
      assert a + b == a;
    } else {
      assert (a + b)[..|a + b| - 1] == a + b[..|b| - 1];
      RunInTurn(rows, layout, a, b[..|b| - 1]);
    }
  }

  /** The rows of one table grew by n, those of the others are as many as before. */
  ghost predicate Grew(rows: Rows, after: Rows, t: Table, n: nat) {
    forall u: Table :: Stored(rows, u) <= Stored(after, u) && Added(rows, after, u) == if u == t then n else 0
  }

  lemma StoredPut(rows: Rows, k: Key, row: Row, t: Table)
    ensures Stored(rows[k := row], t) == Stored(rows, t) + (if k.table == t then {k.id} else {})
  {
    forall id
      ensures id in Stored(rows[k := row], t) <==> id in Stored(rows, t) || (k.table == t && id == k.id)
    {
      assert id in Stored(rows[k := row], t) <==> Key(t, id) in rows[k := row];
      assert id in Stored(rows, t) <==> Key(t, id) in rows;
    }
  }

  lemma OneMore(a: set<string>, b: set<string>, id: string)
    requires a <= b && id !in b
    ensures |(b + {id}) - a| == |b - a| + 1
  {
    assert (b + {id}) - a == (b - a) + {id};
  }

  lemma PutAdds(rows: Rows, mid: Rows, k: Key, row: Row, u: Table)
    requires Stored(rows, u) <= Stored(mid, u) && k !in mid
    ensures var after := mid[k := row];
      Stored(rows, u) <= Stored(after, u) && Added(rows, after, u) == Added(rows, mid, u) + if u == k.table then 1 else 0
  {
    StoredPut(mid, k, row, u);
    if u == k.table {
      OneMore(Stored(rows, u), Stored(mid, u), k.id);
    }
  }

  lemma GrewByOne(rows: Rows, mid: Rows, k: Key, n: nat, row: Row)
    requires Grew(rows, mid, k.table, n) && k !in mid
    ensures Grew(rows, mid[k := row], k.table, n + 1)
  {
    forall u: Table
      ensures Stored(rows, u) <= Stored(mid[k := row], u) && Added(rows, mid[k := row], u) == if u == k.table then n + 1 else 0
    {
      PutAdds(rows, mid, k, row, u);
    }
  }

  lemma GrewNone(rows: Rows, t: Table)
    ensures Grew(rows, rows, t, 0)
  {
    forall u: Table
      ensures Stored(rows, u) - Stored(rows, u) == {}
    {
    }
  }

  function Of(n: Imported, t: Table): nat {
    match t
    case Collabs => n.collabTombstones
    case Workflows => n.workflows
    case Chains => n.chains
    case Phases => n.phases
    case Handoffs => n.handoffs
  }

  /** Every table grew by its own count. */
  ghost predicate GrewBy(rows: Rows, after: Rows, n: Imported) {
    forall u: Table :: Stored(rows, u) <= Stored(after, u) && Added(rows, after, u) == Of(n, u)
  }

  lemma SizesAdd(a: set<string>, b: set<string>, c: set<string>)
    requires a <= b <= c
    ensures |c - a| == |b - a| + |c - b|
  {
    assert c - a == (b - a) + (c - b);
  }

  lemma GrewInTurn(rows: Rows, mid: Rows, after: Rows, n: Imported, t: Table, more: nat, total: Imported)
    requires GrewBy(rows, mid, n) && Grew(mid, after, t, more)
    requires forall u: Table :: Of(total, u) == Of(n, u) + if u == t then more else 0
    ensures GrewBy(rows, after, total)
  {
    forall u: Table
      ensures Stored(rows, u) <= Stored(after, u) && Added(rows, after, u) == Of(total, u)
    {
      assert Added(mid, after, u) == if u == t then more else 0;
      assert Added(rows, mid, u) == Of(n, u);
      SizesAdd(Stored(rows, u), Stored(mid, u), Stored(after, u));
    }
  }

  /** What one batch leaves behind when it succeeds. */
  ghost predicate Inserted(rows: Rows, layout: Layout, ops: seq<Op>, t: Table, after: Rows, r: Reply<nat, Error>) {
    match RunPlan(rows, layout, ops)
    case Throw(e) => r == Throw(e)
    case Ok(expected) => after == expected && r.Ok? && Grew(rows, after, t, r.value)
  }

  method CollectIds(ids: set<string>, batch: seq<Row>, column: nat) returns (all: set<string>)
    ensures all == ids + Ids(batch, column)
  {
    all := ids;
    for i := 0 to |batch|
      invariant all == ids + Ids(batch[..i], column)
    {
      assert batch[..i + 1] == batch[..i] + [batch[i]];
      all := all + {Text(Cell(batch[i], column))};
    }
    assert batch[..|batch|] == batch;
  }

  method CollectReferenced(ids: set<string>, batch: seq<Row>, column: nat) returns (all: set<string>)
    ensures all == ids + Referenced(batch, column)
  {
    all := ids;
    for i := 0 to |batch|
      invariant all == ids + Referenced(batch[..i], column)
    {
      assert batch[..i + 1] == batch[..i] + [batch[i]];
      if Cell(batch[i], column).Some? {
        all := all + {Cell(batch[i], column).value};
      }
    }
    assert batch[..|batch|] == batch;
  }

  method CollectOnce(ids: seq<string>, batch: seq<Row>, column: nat) returns (all: seq<string>)
    ensures all == AddOnce(ids, batch, column)
  {
    all := ids;
    for i := 0 to |batch|
      invariant all == AddOnce(ids, batch[..i], column)
    {
      assert batch[..i + 1][..i] == batch[..i];
      var id := Text(Cell(batch[i], column));
      if id !in all {
        all := all + [id];
      }
    }
    assert batch[..|batch|] == batch;
  }

  lemma PutsNext(rows: Rows, layout: Layout, t: Table, batch: seq<Row>, i: nat)
    requires i < |batch|
    ensures RunPlan(rows, layout, Puts(t, batch[..i + 1]))
         == match RunPlan(rows, layout, Puts(t, batch[..i])) { case Throw(e) => Throw(e) case Ok(r) => Perform(r, layout, Put(t, batch[i])) }
  {
    var ops := Puts(t, batch[..i + 1]);
    assert ops[..|ops| - 1] == Puts(t, batch[..i]);
  }

  lemma {:induction false} PutsFail(rows: Rows, layout: Layout, t: Table, batch: seq<Row>, i: nat)
    requires i <= |batch| && RunPlan(rows, layout, Puts(t, batch[..i])).Throw?
    ensures RunPlan(rows, layout, Puts(t, batch)) == RunPlan(rows, layout, Puts(t, batch[..i]))
    decreases |batch| - i
  {
    if i == |batch| {
      assert batch[..i] == batch;
    } else {
      PutsNext(rows, layout, t, batch, i);
      PutsFail(rows, layout, t, batch, i + 1);
    }
  }

  /** What is known once a section has run: done are the operations before it, rest those still to come. */
  ghost predicate StageDone(first: Rows, layout: Layout, done: seq<Op>, ops: seq<Op>, rest: seq<Op>, after: Rows, r: Reply<nat, Error>) {
    match r
    case Throw(e) => RunPlan(first, layout, done + ops + rest) == Throw(e)
    case Ok(_) => RunPlan(first, layout, done + ops) == Ok(after)
  }

  class Ledger {
    const layout: Layout
    var rows: Rows

    constructor (layout: Layout, rows: Rows)
      ensures this.layout == layout && this.rows == rows
    {
      this.layout := layout;
      this.rows := rows;
    }

    method PutRows(t: Table, batch: seq<Row>) returns (r: Reply<nat, Error>)
      modifies this
      ensures Inserted(old(rows), layout, Puts(t, batch), t, rows, r)
    {
      var inserted := 0;
      GrewNone(rows, t);
      for i := 0 to |batch|
        invariant RunPlan(old(rows), layout, Puts(t, batch[..i])) == Ok(rows)
        invariant Grew(old(rows), rows, t, inserted)
      {
        var row := batch[i];
        PutsNext(old(rows), layout, t, batch, i);
        if MissesRequired(t, row) {
          PutsFail(old(rows), layout, t, batch, i + 1);
          return Throw(NotNull(t));
        }
        if Key(t, Id(row)) !in rows {
          if SecondLive(rows, t, row) {
            PutsFail(old(rows), layout, t, batch, i + 1);
            return Throw(SecondLiveWorkflow);
          }
          GrewByOne(old(rows), rows, Key(t, Id(row)), inserted, row);
          rows := rows[Key(t, Id(row)) := row];
          inserted := inserted + 1;
        }
      }
      assert batch[..|batch|] == batch;
      r := Ok(inserted);
    }

    method InsertRows(t: Table, batch: seq<Row>, ghost first: Rows, ghost done: seq<Op>, ghost rest: seq<Op>)
      returns (r: Reply<nat, Error>)
      requires RunPlan(first, layout, done) == Ok(rows)
      modifies this
      ensures StageDone(first, layout, done, Section(t, batch), rest, rows, r)
      ensures r.Ok? ==> Grew(old(rows), rows, t, r.value)
    {
      ghost var check := [Check(t)];
      assert check[..|check| - 1] == [];
      assert RunPlan(rows, layout, check) == Perform(rows, layout, Check(t));
      RunInTurn(first, layout, done, Section(t, batch));
      RunInTurn(first, layout, done + Section(t, batch), rest);
      if t == Collabs {
        assert Section(t, batch) == Puts(t, batch);
      } else {
        RunInTurn(rows, layout, check, Puts(t, batch));
        if !LayoutOk(layout, t) {
          return Throw(LayoutMismatch(t));
        }
      }
      r := PutRows(t, batch);
    }

    /** The body of the transaction: tombstones, then parents before children. It stops at the first failure. */
    method InsertAll(tombstones: seq<Row>, workflows: seq<Row>, chains: seq<Row>, phases: seq<Row>, handoffs: seq<Row>)
      returns (r: Reply<Imported, Error>)
      modifies this
      ensures Outcome(old(rows), layout, PlanOf(tombstones, workflows, chains, phases, handoffs), rows, r)
    {
      ghost var first := rows;
      ghost var a, b, c := Section(Collabs, tombstones), Section(Workflows, workflows), Section(Chains, chains);
      ghost var d, e := Section(Phases, phases), Section(Handoffs, handoffs);
      ghost var plan := PlanOf(tombstones, workflows, chains, phases, handoffs);
      PlanParts(a, b, c, d, e);
      var n := Imported(0, 0, 0, 0, 0);
      GrewNone(rows, Collabs);
      var step := InsertRows(Collabs, tombstones, first, [], b + c + d + e);
      if step.Throw? {
        return Throw(step.error);
      }
      n := Count(first, first, n, Collabs, step.value);
      ghost var mid := rows;
      step := InsertRows(Workflows, workflows, first, a, c + d + e);
      if step.Throw? {
        return Throw(step.error);
      }
      n := Count(first, mid, n, Workflows, step.value);
      mid := rows;
      step := InsertRows(Chains, chains, first, a + b, d + e);
      if step.Throw? {
        return Throw(step.error);
      }
      n := Count(first, mid, n, Chains, step.value);
      mid := rows;
      step := InsertRows(Phases, phases, first, a + b + c, e);
      if step.Throw? {
        return Throw(step.error);
      }
      n := Count(first, mid, n, Phases, step.value);
      mid := rows;
      step := InsertRows(Handoffs, handoffs, first, a + b + c + d, []);
      if step.Throw? {
        return Throw(step.error);
      }
      n := Count(first, mid, n, Handoffs, step.value);
      r := Ok(n);
    }

    method Count(ghost first: Rows, ghost mid: Rows, n: Imported, t: Table, more: nat) returns (total: Imported)
      requires GrewBy(first, mid, n) && Grew(mid, rows, t, more)
      ensures GrewBy(first, rows, total)
      ensures forall u: Table :: Of(total, u) == Of(n, u) + if u == t then more else 0
    {
      hide Stored, Added, Grew, GrewBy;
      match t {
        case Collabs => total := n.(collabTombstones := n.collabTombstones + more);
        case Workflows => total := n.(workflows := n.workflows + more);
        case Chains => total := n.(chains := n.chains + more);
        case Phases => total := n.(phases := n.phases + more);
        case Handoffs => total := n.(handoffs := n.handoffs + more);
      }
      GrewInTurn(first, mid, rows, n, t, more, total);
    }

    /** runRecoveryImport: every check before any write, and a failed transaction is rolled back. */
    method RunRecoveryImport(source: seq<Stray>, e: Expectations, now: string, liveDaemon: bool) returns (r: Reply<Summary, Error>)
      modifies this
      ensures (r, rows) == Import(old(rows), layout, source, e, now, liveDaemon)
    {
      hide RunPlan, Rooted, ImportedChains, Final, Candidates, AddOnce, Section, GrewBy, ImportedOf, SkippedOf;
      if liveDaemon {
        return Throw(LiveDaemon);
      }
      if RawCounts(source) != e.raw {
        return Throw(RawMismatch);
      }
      if DistinctCounts(source) != e.distinct {
        return Throw(DistinctMismatch);
      }
      var graph := ComputeClosure(source);
      if |graph.finalPhases| < e.closureFloor.phases {
        return Throw(BelowFloor(Phases));
      }
      if |graph.chains| < e.closureFloor.chains {
        return Throw(BelowFloor(Chains));
      }
      if |graph.finalHandoffs| < e.closureFloor.handoffs {
        return Throw(BelowFloor(Handoffs));
      }
      var workflowRows := Candidates(Workflows, source);
      var collabIds := CollectOnce([], workflowRows, 1);
      collabIds := CollectOnce(collabIds, graph.chains, 1);
      collabIds := CollectOnce(collabIds, graph.finalHandoffs, 1);
      var skipped := SkippedOf(rows, source);
      var before := rows;
      var outcome := InsertAll(Tombstones(collabIds, now), workflowRows, graph.chains, graph.finalPhases, graph.finalHandoffs);
      match outcome
      case Throw(error) =>
        rows := before;
        r := Throw(error);
      case Ok(imported) =>
        GrewIsImported(before, rows, imported);
        r := Ok(Summary(imported, skipped));
    }

    method ComputeClosure(source: seq<Stray>) returns (g: Graph)
      ensures g == Graph(Rooted(rows, source, Phases), Rooted(rows, source, Handoffs), ImportedChains(rows, source),
                         Final(rows, source, Phases), Final(rows, source, Handoffs))
    {
      var knownWorkflows := CollectIds(Stored(rows, Workflows), Candidates(Workflows, source), 0);
      var rootedPhases := Select(Candidates(Phases, source), 1, knownWorkflows, false);
      var rootedHandoffs := Select(Candidates(Handoffs, source), 23, knownWorkflows, false);
      var referencedChainIds := CollectReferenced({}, rootedPhases, 4);
      referencedChainIds := CollectReferenced(referencedChainIds, rootedHandoffs, 12);
      assert referencedChainIds == ReferencedChains(rows, source);
      var chains := Select(Candidates(Chains, source), 0, referencedChainIds, false);
      var availableChains := CollectIds(Stored(rows, Chains), chains, 0);
      g := Graph(rootedPhases, rootedHandoffs, chains, Select(rootedPhases, 4, availableChains, true),
                 Select(rootedHandoffs, 12, availableChains, true));
    }
  }

  datatype Graph = Graph(
    rootedPhases: seq<Row>, rootedHandoffs: seq<Row>, chains: seq<Row>, finalPhases: seq<Row>, finalHandoffs: seq<Row>)

  function PlanOf(tombstones: seq<Row>, workflows: seq<Row>, chains: seq<Row>, phases: seq<Row>, handoffs: seq<Row>): seq<Op> {
    Section(Collabs, tombstones) + Section(Workflows, workflows) + Section(Chains, chains) + Section(Phases, phases)
    + Section(Handoffs, handoffs)
  }

  lemma PlanParts(a: seq<Op>, b: seq<Op>, c: seq<Op>, d: seq<Op>, e: seq<Op>)
    ensures var plan := a + b + c + d + e;
      [] + a + (b + c + d + e) == plan && a + b + (c + d + e) == plan && a + b + c + (d + e) == plan && [] + a == a && plan + [] == plan
  {
  }

  ghost predicate Outcome(rows: Rows, layout: Layout, plan: seq<Op>, after: Rows, r: Reply<Imported, Error>) {
    match RunPlan(rows, layout, plan)
    case Throw(e) => r == Throw(e)
    case Ok(expected) => after == expected && r.Ok? && GrewBy(rows, after, r.value)
  }

  lemma GrewIsImported(rows: Rows, after: Rows, n: Imported)
    requires GrewBy(rows, after, n)
    ensures (forall t: Table :: Stored(rows, t) <= Stored(after, t)) && n == ImportedOf(rows, after)
  {
    assert Of(n, Collabs) == Added(rows, after, Collabs) && Of(n, Workflows) == Added(rows, after, Workflows);
    assert Of(n, Chains) == Added(rows, after, Chains) && Of(n, Phases) == Added(rows, after, Phases);
    assert Of(n, Handoffs) == Added(rows, after, Handoffs);
  }
}
