/** Every transaction keeps the invariant. */
module WorkflowSafety {
  import opened Wrappers
  import opened Registry
  import opened WorkflowTables
  import opened WorkflowSteps
  import opened WorkflowFrames
  import opened JsText
  import opened RalphMarker

  lemma BatonIffOpenRun(db: Db, w: nat)
    requires RefsOk(db) && FlowCore(db, w)
    ensures HasBaton(db, w) <==> exists r: nat :: OpenRunOf(db, w, r)
    ensures HasBaton(db, w) <==> HasOpenRunHere(db, w)
  {
    if h: nat :| Baton(db, w, h) {
      assert OpenRunOf(db, w, db.handoffs[h].run);
    }
    if HasOpenRunHere(db, w) {
      var r :| 0 <= r < |db.runs| && db.runs[r].workflow == w && db.runs[r].phase == db.workflows[w].phase && db.runs[r].outcome.None?;
      assert OpenRunOf(db, w, r);
    }
  }

  /** There is one baton at most. */
  lemma BatonIsUnique(db: Db, w: nat, g: nat, h: nat)
    requires RefsOk(db) && FlowCore(db, w)
    requires Baton(db, w, g) && Baton(db, w, h)
    ensures g == h
  {
    assert OpenRunOf(db, w, db.handoffs[g].run) && OpenRunOf(db, w, db.handoffs[h].run);
  }

  // ------------------------------------------------------------ a change of the workflow's own row

  lemma RowChangeKeepsCore(db: Db, w: nat, row: Workflow)
    requires RefsOk(db) && FlowCore(db, w)
    requires SameIdentity(row, db.workflows[w])
    requires row.phase == db.workflows[w].phase && row.iteration == db.workflows[w].iteration && row.claim == db.workflows[w].claim
    requires row.Terminal() ==> !HasBaton(db, w)
    ensures RefsOk(SetWorkflow(db, w, row)) && Touches(db, SetWorkflow(db, w, row), w) && FlowCore(SetWorkflow(db, w, row), w)
    ensures HasBaton(SetWorkflow(db, w, row), w) <==> HasBaton(db, w)
  {
    var db' := SetWorkflow(db, w, row);
    assert forall h: nat :: Baton(db', w, h) <==> Baton(db, w, h);
    assert forall r: nat :: OpenRunOf(db', w, r) <==> OpenRunOf(db, w, r);
    BatonIffOpenRun(db, w);
    forall j | 0 <= j < row.phase ensures PhaseFinished(db', w, j) { assert PhaseFinished(db, w, j); }
    forall h: nat | Phases(db', w)[row.phase].repeats && row.claim && Baton(db', w, h) && db'.handoffs[h].step == Review
      ensures ChainClaims(db', db'.handoffs[h].chain)
    {
      var d: nat :| BackedClaim(db, d, db.handoffs[h].chain);
      assert BackedClaim(db', d, db.handoffs[h].chain);
    }
  }

  lemma BaseReachedKept(db: Db, db': Db, w: nat)
    requires RowOk(db, w) && RowOk(db', w) && db'.registry == db.registry
    requires db'.workflows[w].kind == db.workflows[w].kind && db.workflows[w].phase <= db'.workflows[w].phase
    ensures BaseReached(db, w) ==> BaseReached(db', w)
  {
    if BaseReached(db, w) {
      var i :| 0 <= i <= db.workflows[w].phase && Phases(db, w)[i].EstablishesBase();
      assert Phases(db', w)[i].EstablishesBase();
    }
  }

  lemma StatusChangeKeepsInv(db: Db, w: nat, row: Workflow)
    requires Inv(db) && w < |db.workflows|
    requires row == db.workflows[w].(status := row.status, haltReason := row.haltReason, marker := row.marker)
    requires row.Live() ==> db.workflows[w].Live() || !OtherLive(db, w)
    requires row.Terminal() ==> !HasBaton(db, w)
    requires row.Live() && row.base.Some? ==> HasBaton(db, w) || MarkerHere(row)
    ensures Inv(SetWorkflow(db, w, row)) && Touches(db, SetWorkflow(db, w, row), w)
  {
    var db' := SetWorkflow(db, w, row);
    assert FlowOk(db, w);
    RowChangeKeepsCore(db, w, row);
    BaseReachedKept(db, db', w);
    InvAfter(db, db', w);
  }

  // ------------------------------------------------------------ closing the run whose handoff was judged

  predicate CloseRowOk(db: Db, w: nat, row: Workflow, outcome: Outcome)
    requires RowOk(db, w)
  {
    var wf := db.workflows[w];
    && SameIdentity(row, wf)
    && row.phase < |Phases(db, w)|
    && (row.phase == wf.phase || (row.phase == wf.phase + 1 && outcome == PhaseDone))
    && (row.iteration > 0 ==> Phases(db, w)[row.phase].repeats && row.iteration < Phases(db, w)[row.phase].maxIterations)
  }

  lemma CloseOutFacts(db: Db, w: nat, h: nat, verdict: Verdict, outcome: Outcome, status: ChainStatus, row: Workflow)
    requires RefsOk(db) && FlowCore(db, w) && Baton(db, w, h) && status != Active
    requires CloseRowOk(db, w, row, outcome)
    ensures var db' := CloseOut(db, h, verdict, outcome, status, row);
      && RefsOk(db') && Touches(db, db', w) && RowOk(db', w) && RunsOk(db', w)
      && (forall r: nat :: !OpenRunOf(db', w, r))
      && (forall g: nat :: !Baton(db', w, g))
  {
    var db' := CloseOut(db, h, verdict, outcome, status, row);
    var c := db.handoffs[h].run;
    assert OpenRunOf(db, w, c);
    forall r: nat ensures !OpenRunOf(db', w, r) {
      if OpenRunOf(db', w, r) { assert OpenRunOf(db, w, r); }
    }
    forall g: nat ensures !Baton(db', w, g) {
      if Baton(db', w, g) { assert OpenRunOf(db', w, db'.handoffs[g].run); }
    }
  }

  lemma CloseOutHistory(db: Db, w: nat, h: nat, verdict: Verdict, outcome: Outcome, status: ChainStatus, row: Workflow)
    requires RefsOk(db) && FlowCore(db, w) && Baton(db, w, h) && status != Active
    requires CloseRowOk(db, w, row, outcome)
    ensures var db' := CloseOut(db, h, verdict, outcome, status, row);
      && HistoryOk(db', w) && (outcome == PhaseDone ==> PhaseFinished(db', w, db.workflows[w].phase))
  {
    var db' := CloseOut(db, h, verdict, outcome, status, row);
    var c := db.handoffs[h].run;
    assert OpenRunOf(db, w, c);
    assert db'.runs[c].outcome == Some(outcome) && db'.runs[c].phase == db.workflows[w].phase;
    forall j | 0 <= j < db.workflows[w].phase ensures PhaseFinished(db', w, j) {
      assert PhaseFinished(db, w, j);
      var r :| 0 <= r < |db.runs| && db.runs[r].workflow == w && db.runs[r].phase == j && db.runs[r].outcome == Some(PhaseDone);
      assert db'.runs[r] == db.runs[r];
    }
  }

  lemma CloseOutKeepsCore(db: Db, w: nat, h: nat, verdict: Verdict, outcome: Outcome, status: ChainStatus, row: Workflow)
    requires RefsOk(db) && FlowCore(db, w) && Baton(db, w, h) && status != Active
    requires CloseRowOk(db, w, row, outcome)
    ensures var db' := CloseOut(db, h, verdict, outcome, status, row);
      RefsOk(db') && Touches(db, db', w) && FlowCore(db', w) && !HasBaton(db', w)
  {
    CloseOutFacts(db, w, h, verdict, outcome, status, row);
    CloseOutHistory(db, w, h, verdict, outcome, status, row);
  }

  // ------------------------------------------------------------ starting a run

  lemma InsertRunFacts(db: Db, w: nat, phase: Phase, seed: Option<Marker>, seedBase: Option<string>)
    requires RefsOk(db) && FlowCore(db, w) && !HasBaton(db, w) && !db.workflows[w].Terminal()
    requires phase == Phases(db, w)[db.workflows[w].phase] && PhaseOk(phase)
    ensures var db' := InsertRun(db, w, phase, seed, seedBase);
      && RefsOk(db') && Touches(db, db', w) && RowOk(db', w) && RunsOk(db', w) && OpenRunsOk(db', w)
      && Baton(db', w, |db.handoffs|)
      && (forall g: nat | Baton(db', w, g) :: g == |db.handoffs|)
  {
    var db' := InsertRun(db, w, phase, seed, seedBase);
    BatonIffOpenRun(db, w);
    forall r: nat | OpenRunOf(db', w, r) ensures r == |db.runs| {
      assert r < |db.runs| ==> OpenRunOf(db, w, r);
    }
    forall g: nat | Baton(db', w, g) ensures g == |db.handoffs| {
      assert g < |db.handoffs| ==> Baton(db, w, g);
    }
  }

  lemma InsertRunHistory(db: Db, w: nat, phase: Phase, seed: Option<Marker>, seedBase: Option<string>)
    requires RefsOk(db) && FlowCore(db, w)
    ensures HistoryOk(InsertRun(db, w, phase, seed, seedBase), w) && NewestOk(InsertRun(db, w, phase, seed, seedBase), w)
  {
    var db' := InsertRun(db, w, phase, seed, seedBase);
    forall j | 0 <= j < db.workflows[w].phase ensures PhaseFinished(db', w, j) {
      assert PhaseFinished(db, w, j);
      var r :| 0 <= r < |db.runs| && db.runs[r].workflow == w && db.runs[r].phase == j && db.runs[r].outcome == Some(PhaseDone);
      assert db'.runs[r] == db.runs[r];
    }
  }

  lemma InsertRunKeepsCore(db: Db, w: nat, phase: Phase, seed: Option<Marker>, seedBase: Option<string>)
    requires RefsOk(db) && FlowCore(db, w) && !HasBaton(db, w) && !db.workflows[w].Terminal()
    requires phase == Phases(db, w)[db.workflows[w].phase] && PhaseOk(phase)
    ensures var db' := InsertRun(db, w, phase, seed, seedBase);
      RefsOk(db') && Touches(db, db', w) && FlowCore(db', w) && Baton(db', w, |db.handoffs|)
  {
    InsertRunFacts(db, w, phase, seed, seedBase);
    InsertRunHistory(db, w, phase, seed, seedBase);
  }

  // ------------------------------------------------------------ continuing a chain

  predicate CarryOk(db: Db, w: nat, h: nat, row: Workflow, step: HandoffStep, newRound: bool)
    requires h < |db.handoffs| && db.handoffs[h].chain < |db.chains| && w < |db.workflows|
  {
    var chain := db.chains[db.handoffs[h].chain];
    && row == db.workflows[w].(claim := row.claim)
    && StepFits(step, if newRound then chain.round + 1 else chain.round, chain.maxRounds)
  }

  lemma CarryFacts(db: Db, w: nat, h: nat, verdict: Verdict, row: Workflow, step: HandoffStep, newRound: bool)
    requires RefsOk(db) && FlowCore(db, w) && Baton(db, w, h) && CarryOk(db, w, h, row, step, newRound)
    ensures var db' := Carry(db, h, verdict, row, step, newRound);
      && RefsOk(db') && Touches(db, db', w) && RowOk(db', w) && RunsOk(db', w) && OpenRunsOk(db', w)
      && Baton(db', w, |db.handoffs|)
      && (forall g: nat | Baton(db', w, g) :: g == |db.handoffs|)
  {
    var db' := Carry(db, h, verdict, row, step, newRound);
    assert forall r: nat :: OpenRunOf(db', w, r) <==> OpenRunOf(db, w, r);
    forall g: nat | Baton(db', w, g) ensures g == |db.handoffs| {
      if g < |db.handoffs| {
        assert Baton(db, w, g);
        BatonIsUnique(db, w, g, h);
      }
    }
  }

  lemma CarryHistory(db: Db, w: nat, h: nat, verdict: Verdict, row: Workflow, step: HandoffStep, newRound: bool)
    requires RefsOk(db) && FlowCore(db, w) && Baton(db, w, h) && CarryOk(db, w, h, row, step, newRound)
    ensures var db' := Carry(db, h, verdict, row, step, newRound); HistoryOk(db', w) && NewestOk(db', w)
  {
    var db' := Carry(db, h, verdict, row, step, newRound);
    forall j | 0 <= j < db.workflows[w].phase ensures PhaseFinished(db', w, j) {
      assert PhaseFinished(db, w, j);
    }
  }

  /** LoopOk is the caller's part: it depends on which verdict carried the chain on. */
  lemma CarryKeepsCore(db: Db, w: nat, h: nat, verdict: Verdict, row: Workflow, step: HandoffStep, newRound: bool)
    requires RefsOk(db) && FlowCore(db, w) && Baton(db, w, h) && CarryOk(db, w, h, row, step, newRound)
    requires step == Fix || step == Review
    requires step == Review && row.claim && Phases(db, w)[row.phase].repeats ==>
      verdict == Delivered && db.handoffs[h].handback.Some? && ClaimsGoal(db.handoffs[h].handback.value)
    ensures var db' := Carry(db, h, verdict, row, step, newRound);
      RefsOk(db') && Touches(db, db', w) && FlowCore(db', w) && Baton(db', w, |db.handoffs|)
  {
    var db' := Carry(db, h, verdict, row, step, newRound);
    CarryFacts(db, w, h, verdict, row, step, newRound);
    CarryHistory(db, w, h, verdict, row, step, newRound);
    if step == Review && row.claim && Phases(db, w)[row.phase].repeats {
      assert BackedClaim(db', h, db.handoffs[h].chain);
    }
  }

  // ------------------------------------------------------------ the steps

  lemma CreateKeepsInv(db: Db, collab: string, kind: string, implementer: string, reviewer: string)
    requires Inv(db)
    ensures Inv(CreateWorkflow(db, collab, kind, implementer, reviewer).0)
  {
    var (db', reply) := CreateWorkflow(db, collab, kind, implementer, reviewer);
    if reply.Ok? {
      var n := |db.workflows|;
      assert RefsOk(db');
      forall v | 0 <= v < |db'.workflows| ensures FlowOk(db', v) {
        if v < n { CreateFrame(db, db', v); } else { assert FlowOk(db', n); }
      }
    }
  }

  lemma CreateFrame(db: Db, db': Db, v: nat)
    requires RefsOk(db) && v < |db.workflows| && FlowOk(db, v)
    requires exists row :: db' == db.(workflows := db.workflows + [row])
    ensures RefsOk(db') && FlowOk(db', v)
  {
    assert db'.workflows[v] == db.workflows[v];
    assert forall h: nat :: Baton(db', v, h) <==> Baton(db, v, h);
    assert forall r: nat :: OpenRunOf(db', v, r) <==> OpenRunOf(db, v, r);
    assert forall d: nat, c: nat :: BackedClaim(db, d, c) ==> BackedClaim(db', d, c);
    forall j | 0 <= j < db'.workflows[v].phase ensures PhaseFinished(db', v, j) { assert PhaseFinished(db, v, j); }
    BaseReachedKept(db, db', v);
  }

  lemma HandoffStatusKeepsInv(db: Db, h: nat, row: Handoff)
    requires Inv(db) && h < |db.handoffs|
    requires row == db.handoffs[h].(status := row.status, handback := row.handback)
    ensures Inv(WithHandoff(db, h, row))
  {
    var db' := WithHandoff(db, h, row);
    assert RefsOk(db');
    forall v | 0 <= v < |db'.workflows| ensures FlowOk(db', v) {
      assert FlowOk(db, v);
      HandoffStatusFrame(db, h, row, v);
    }
  }

  function WithHandoff(db: Db, h: nat, row: Handoff): Db
    requires h < |db.handoffs|
  {
    db.(handoffs := db.handoffs[h := row])
  }

  lemma HandoffStatusLoop(db: Db, h: nat, row: Handoff, v: nat)
    requires RefsOk(db) && h < |db.handoffs| && RowOk(db, v) && LoopOk(db, v)
    requires row == db.handoffs[h].(status := row.status, handback := row.handback)
    ensures LoopOk(WithHandoff(db, h, row), v)
  {
    var db' := WithHandoff(db, h, row);
    if Phases(db, v)[db.workflows[v].phase].repeats && db.workflows[v].claim {
      forall g: nat | Baton(db', v, g) && db'.handoffs[g].step == Review ensures ChainClaims(db', db'.handoffs[g].chain) {
        assert Baton(db, v, g);
        var d: nat :| BackedClaim(db, d, db.handoffs[g].chain);
        assert BackedClaim(db', d, db.handoffs[g].chain);
      }
    }
  }

  lemma HandoffStatusFrame(db: Db, h: nat, row: Handoff, v: nat)
    requires RefsOk(db) && h < |db.handoffs| && FlowOk(db, v)
    requires row == db.handoffs[h].(status := row.status, handback := row.handback)
    ensures RefsOk(WithHandoff(db, h, row)) && FlowOk(WithHandoff(db, h, row), v)
  {
    var db' := WithHandoff(db, h, row);
    assert forall g: nat :: Baton(db', v, g) <==> Baton(db, v, g);
    assert forall r: nat :: OpenRunOf(db', v, r) <==> OpenRunOf(db, v, r);
    HandoffStatusLoop(db, h, row, v);
    forall j | 0 <= j < db'.workflows[v].phase ensures PhaseFinished(db', v, j) { assert PhaseFinished(db, v, j); }
    BaseReachedKept(db, db', v);
  }

  lemma BaseReachedIfEstablishes(db: Db, w: nat)
    requires RowOk(db, w) && Phases(db, w)[db.workflows[w].phase].EstablishesBase()
    ensures BaseReached(db, w)
  {
  }

  lemma BeginPhaseRunKeepsInv(db: Db, w: nat, phase: Phase, head: Option<string>)
    requires Inv(db) && RowOk(db, w)
    requires phase == Phases(db, w)[db.workflows[w].phase]
    ensures Inv(BeginPhaseRun(db, w, phase, EntryBase(db.workflows[w], phase, head), SeedBase(db.workflows[w], phase)).0)
  {
    var wf := db.workflows[w];
    var entry := EntryBase(wf, phase, head);
    var seedBase := SeedBase(wf, phase);
    var (db', reply) := BeginPhaseRun(db, w, phase, entry, seedBase);
    assert FlowOk(db, w) && DefinitionOk(db.registry[wf.kind]);
    if reply.Ok? {
      var seed := if MarkerHere(wf) then wf.marker else None;
      BatonIffOpenRun(db, w);
      InsertRunKeepsCore(db, w, phase, seed, seedBase);
      var db1 := InsertRun(db, w, phase, seed, seedBase);
      RowChangeKeepsCore(db1, w, db'.workflows[w]);
      if phase.EstablishesBase() { BaseReachedIfEstablishes(db', w); }
      BaseReachedKept(db, db', w);
      assert BaseOk(db', w);
      InvAfter(db, db', w);
    }
  }

  lemma KickoffKeepsInv(db: Db, w: nat, head: Option<string>, setupOk: bool)
    requires Inv(db)
    ensures Inv(Kickoff(db, w, head, setupOk))
  {
    if w < |db.workflows| && db.workflows[w].status == Running && !HasOpenRunHere(db, w) {
      var wf := db.workflows[w];
      assert FlowOk(db, w);
      var phase := Phases(db, w)[wf.phase];
      StatusChangeKeepsInv(db, w, HaltRow(wf, NotReady));
      BeginPhaseRunKeepsInv(db, w, phase, head);
    }
  }

  /** The run closed and the workflow stopped: done, or halted. */
  lemma EndKeepsInv(db: Db, w: nat, h: nat, verdict: Verdict, outcome: Outcome, status: ChainStatus, row: Workflow)
    requires Inv(db) && RowOk(db, w) && Baton(db, w, h) && status != Active
    requires row == db.workflows[w].(status := row.status, haltReason := row.haltReason) && !row.Live()
    ensures Inv(CloseOut(db, h, verdict, outcome, status, row))
  {
    var db' := CloseOut(db, h, verdict, outcome, status, row);
    assert FlowOk(db, w);
    CloseOutKeepsCore(db, w, h, verdict, outcome, status, row);
    BaseReachedKept(db, db', w);
    InvAfter(db, db', w);
  }

  lemma CarryKeepsBase(db: Db, db': Db, w: nat, h: nat)
    requires RefsOk(db) && RefsOk(db') && RowOk(db, w) && RowOk(db', w) && BaseOk(db, w) && db'.registry == db.registry
    requires db'.workflows[w] == db.workflows[w].(claim := db'.workflows[w].claim)
    requires Baton(db, w, h) && HasBaton(db', w)
    ensures BaseOk(db', w)
  {
    assert HasBaton(db, w);
    BaseReachedKept(db, db', w);
  }

  lemma FindingsKeepInv(db: Db, w: nat, h: nat)
    requires Inv(db) && RowOk(db, w) && Baton(db, w, h) && db.workflows[w].status == Running
    requires StepFits(Fix, db.chains[db.handoffs[h].chain].round, db.chains[db.handoffs[h].chain].maxRounds)
    ensures Inv(Carry(db, h, Findings, db.workflows[w], Fix, false))
  {
    var db' := Carry(db, h, Findings, db.workflows[w], Fix, false);
    assert FlowOk(db, w);
    CarryKeepsCore(db, w, h, Findings, db.workflows[w], Fix, false);
    CarryKeepsBase(db, db', w, h);
    InvAfter(db, db', w);
  }

  lemma DeliverKeepsInv(db: Db, w: nat, h: nat)
    requires Inv(db) && RowOk(db, w) && Baton(db, w, h) && db.workflows[w].status == Running
    requires VerdictReady(db, h) && (db.handoffs[h].step == Fix || db.handoffs[h].step == Implement)
    ensures Inv(Carry(db, h, Delivered, DeliveredRow(db, h), Review, true))
  {
    assert FlowOk(db, w);
    assert BatonFits(db, w, h);
    var row := DeliveredRow(db, h);
    var db' := Carry(db, h, Delivered, row, Review, true);
    EmptyClaimsNothing();
    CarryKeepsCore(db, w, h, Delivered, row, Review, true);
    CarryKeepsBase(db, db', w, h);
    InvAfter(db, db', w);
  }

  lemma EmptyClaimsNothing()
    ensures !ClaimsGoal("")
  {
    assert SplitLines("") == [""];
    assert Trim("") == "";
    assert LastNonEmpty([""]) == LastNonEmpty([]);
  }

  lemma KickoffNextKeepsCore(db: Db, w: nat, phase: Phase, head: Option<string>)
    requires RefsOk(db) && FlowCore(db, w) && !HasBaton(db, w) && !db.workflows[w].Terminal()
    requires phase == Phases(db, w)[db.workflows[w].phase] && PhaseOk(phase) && KickoffNext(db, w, phase, head).Ok?
    ensures var db' := KickoffNext(db, w, phase, head).value;
      && RefsOk(db') && Touches(db, db', w) && FlowCore(db', w) && HasBaton(db', w)
      && db'.workflows[w] == (if phase.initialStep == Execute then db.workflows[w].(base := head) else db.workflows[w])
      && (phase.initialStep == Execute ==> head.Some? && head.value != "")
  {
    InsertRunKeepsCore(db, w, phase, None, None);
    var db1 := InsertRun(db, w, phase, None, None);
    assert HasBaton(db1, w);
    if phase.initialStep == Execute {
      var row := db.workflows[w].(base := head);
      RowChangeKeepsCore(db1, w, row);
      TouchesTrans(db, db1, SetWorkflow(db1, w, row), w);
    }
  }

  lemma RestartKeepsInv(db: Db, w: nat, h: nat, verdict: Verdict, row: Workflow, head: Option<string>)
    requires Inv(db) && RowOk(db, w) && Baton(db, w, h) && db.workflows[w].status == Running
    requires CloseRowOk(db, w, row, PhaseDone) && row.status == Running && row.base == db.workflows[w].base
    ensures VerdictReady(db, h) && Inv(Restart(db, h, verdict, row, head).0)
  {
    assert FlowOk(db, w) && DefinitionOk(db.registry[db.workflows[w].kind]);
    var phase := Phases(db, w)[row.phase];
    var db1 := CloseOut(db, h, verdict, PhaseDone, Resolved, row);
    CloseOutKeepsCore(db, w, h, verdict, PhaseDone, Resolved, row);
    match KickoffNext(db1, w, phase, head)
    case Throw(_) =>
    case Ok(db2) => NextRunKeepsInv(db, db1, w, phase, head);
  }

  /** The run after a closed one, from the tables before the transaction to those after it. */
  lemma NextRunKeepsInv(db: Db, db1: Db, w: nat, phase: Phase, head: Option<string>)
    requires Inv(db) && RowOk(db, w) && db.workflows[w].status == Running && BaseOk(db, w)
    requires RefsOk(db1) && Touches(db, db1, w) && FlowCore(db1, w) && !HasBaton(db1, w) && db1.workflows[w].status == Running
    requires db1.workflows[w].base == db.workflows[w].base && db.workflows[w].phase <= db1.workflows[w].phase
    requires phase == Phases(db1, w)[db1.workflows[w].phase] && PhaseOk(phase) && KickoffNext(db1, w, phase, head).Ok?
    ensures Inv(KickoffNext(db1, w, phase, head).value)
  {
    assert RefsOk(db) && w < |db.workflows|;
    hide Inv, RunsOk, OpenRunsOk, NewestOk, BatonOk, HistoryOk, LoopOk, KickoffNext;
    var db2 := KickoffNext(db1, w, phase, head).value;
    KickoffNextKeepsCore(db1, w, phase, head);
    TouchesTrans(db, db1, db2, w);
    BaseReachedKept(db, db2, w);
    if phase.initialStep == Execute { BaseReachedIfEstablishes(db2, w); }
    InvAfter(db, db2, w);
  }

  /** Every move is to a row the closed run allows. */
  lemma MoveIsOk(db: Db, w: nat)
    requires RefsOk(db) && FlowCore(db, w) && db.workflows[w].status == Running
    ensures var move := MoveOf(db, w);
      && CloseRowOk(db, w, move.row, PhaseDone)
      && (move.Stop? ==> move.row == db.workflows[w].(status := move.row.status, haltReason := move.row.haltReason) && !move.row.Live())
      && (move.StartAgain? ==>
            && move.row.status == Running && move.row.base == db.workflows[w].base
            && if Phases(db, w)[db.workflows[w].phase].repeats
               then move.row.phase == db.workflows[w].phase && move.row.iteration == db.workflows[w].iteration + 1
               else move.row.phase == db.workflows[w].phase + 1 && move.row.iteration == 0)
  {
  }

  lemma AdvanceKeepsInv(db: Db, w: nat, h: nat, verdict: Verdict, head: Option<string>)
    requires Inv(db) && FlowCore(db, w) && Baton(db, w, h) && db.workflows[w].status == Running
    ensures VerdictReady(db, h) && Inv(Advance(db, h, verdict, head).0)
  {
    MoveIsOk(db, w);
    match MoveOf(db, w)
    case Stop(row, _) => EndKeepsInv(db, w, h, verdict, PhaseDone, Resolved, row);
    case StartAgain(row) => RestartKeepsInv(db, w, h, verdict, row, head);
  }

  lemma SettleKeepsInv(db: Db, h: nat, input: VerdictInput)
    requires Inv(db) && h < |db.handoffs| && db.handoffs[h].verdict.None? && VerdictRefusal(db, h, input).None?
    ensures Inv(Settle(db, h, input).0)
  {
    var row := db.handoffs[h];
    var w := row.workflow;
    var chain := db.chains[row.chain];
    assert Baton(db, w, h) && FlowOk(db, w);
    assert BatonFits(db, w, h);
    var (verdict, reason) := NormalizeVerdict(row.step, input.verdict, input.confidence, chain.round, chain.maxRounds, input.reason);
    match verdict
    case Approve => AdvanceKeepsInv(db, w, h, verdict, input.head);
    case ExecutionPass => AdvanceKeepsInv(db, w, h, verdict, input.head);
    case Findings => FindingsKeepInv(db, w, h);
    case Delivered => DeliverKeepsInv(db, w, h);
    case Escalate => EndKeepsInv(db, w, h, verdict, PhaseEscalated, Escalated, HaltRow(db.workflows[w], reason));
    case ExecutionFail => EndKeepsInv(db, w, h, verdict, PhaseEscalated, Escalated, HaltRow(db.workflows[w], reason));
  }

  lemma SupersedeKeepsInv(db: Db, w: nat, row: Workflow)
    requires Inv(db) && w < |db.workflows| && row == db.workflows[w].(status := row.status, haltReason := row.haltReason) && row.Terminal()
    ensures Inv(SetWorkflow(SupersedeRuns(db, w), w, row))
  {
    var db' := SetWorkflow(SupersedeRuns(db, w), w, row);
    assert FlowOk(db, w);
    forall j | 0 <= j < row.phase ensures PhaseFinished(db', w, j) {
      assert PhaseFinished(db, w, j);
      var r :| 0 <= r < |db.runs| && db.runs[r].workflow == w && db.runs[r].phase == j && db.runs[r].outcome == Some(PhaseDone);
      assert db'.runs[r] == db.runs[r];
    }
    assert forall r: nat :: !OpenRunOf(db', w, r);
    assert forall h: nat :: !Baton(db', w, h) by {
      forall h: nat ensures !Baton(db', w, h) { assert !OpenRunOf(db', w, if h < |db'.handoffs| then db'.handoffs[h].run else 0); }
    }
    BaseReachedKept(db, db', w);
    InvAfter(db, db', w);
  }

  /** One transaction, whatever it is and whether it commits or throws, keeps the invariant. */
  lemma NextKeepsInv(db: Db, step: Step)
    requires Inv(db)
    ensures Inv(Next(db, step))
  {
    hide FlowOk, OneLive, RegistryOk;
    match step
    case Create(collab, kind, implementer, reviewer) => CreateKeepsInv(db, collab, kind, implementer, reviewer);
    case ChangeCollab(id, to) => CollabsDoNotMatter(db, db.collabs[id := to]);
    case StartPhase(w, head, setupOk) => KickoffKeepsInv(db, w, head, setupOk);
    case Accept(h) => if h < |db.handoffs| { HandoffStatusKeepsInv(db, h, db.handoffs[h].(status := Accepted)); }
    case HandBack(h, text) =>
      if h < |db.handoffs| { HandoffStatusKeepsInv(db, h, db.handoffs[h].(status := HandedBack, handback := Some(text))); }
    case GiveVerdict(h, input) =>
      if h < |db.handoffs| && db.handoffs[h].verdict.None? && VerdictRefusal(db, h, input).None? { SettleKeepsInv(db, h, input); }
    case NoticeEscalation(h, why) => NoticeKeepsInv(db, h, why);
    case Halt(w, reason) =>
      if w < |db.workflows| && db.workflows[w].status == Running { StatusChangeKeepsInv(db, w, HaltRow(db.workflows[w], reason)); }
    case Pause(w) => PauseKeepsInv(db, w);
    case Resume(w, message) => ResumeKeepsInv(db, w, message);
    case Cancel(w) => if w < |db.workflows| { SupersedeKeepsInv(db, w, db.workflows[w].(status := Canceled, haltReason := Some(ByOperator))); }
    case MarkDone(w) => if w < |db.workflows| { SupersedeKeepsInv(db, w, db.workflows[w].(status := Done, haltReason := Some(ByOperator))); }
  }

  lemma CollabsDoNotMatter(db: Db, collabs: map<string, Collab>)
    requires Inv(db)
    ensures Inv(db.(collabs := collabs))
  {
    var db' := db.(collabs := collabs);
    forall v | 0 <= v < |db'.workflows| ensures FlowOk(db', v) {
      FlowFrame(db, db', |db.workflows|, v);
    }
  }

  lemma NoticeKeepsInv(db: Db, h: nat, why: string)
    requires Inv(db)
    ensures Inv(EscalateNotice(db, h, why).0)
  {
    var input := VerdictInput(Escalate, 1.0, why, None);
    if h < |db.handoffs| && db.handoffs[h].verdict.None? && VerdictRefusal(db, h, input).None? && db.handoffs[h].status == Accepted {
      var db1 := db.(handoffs := db.handoffs[h := db.handoffs[h].(status := Failed)]);
      HandoffStatusKeepsInv(db, h, db.handoffs[h].(status := Failed));
      SettleKeepsInv(db1, h, input);
    }
  }

  lemma PauseKeepsInv(db: Db, w: nat)
    requires Inv(db)
    ensures Inv(PauseWorkflow(db, w).0)
  {
    if w < |db.workflows| && db.workflows[w].status == Running {
      assert FlowOk(db, w);
      StatusChangeKeepsInv(db, w, db.workflows[w].(status := Paused, haltReason := None));
    }
  }

  lemma ResumeKeepsInv(db: Db, w: nat, message: Option<string>)
    requires Inv(db)
    ensures Inv(ResumeWorkflow(db, w, message).0)
  {
    var (db', reply) := ResumeWorkflow(db, w, message);
    if reply.Ok? {
      assert FlowOk(db, w);
      StatusChangeKeepsInv(db, w, db'.workflows[w]);
    }
  }
}
