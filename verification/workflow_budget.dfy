/**
 * Verdicts run out. Each workflow has a budget of verdicts, read off its tables; a verdict spends at least one,
 * nothing but a resume from halted adds any, so without such a resume every workflow and every phase attempt ends.
 */
module WorkflowBudget {
  import opened Wrappers
  import opened Registry
  import opened WorkflowTables
  import opened WorkflowSteps
  import opened WorkflowFrames
  import opened WorkflowSafety
  import opened WorkflowHistory

  // ------------------------------------------------------------ which workflow a step touches

  lemma CloseOutTouches(db: Db, h: nat, verdict: Verdict, outcome: Outcome, status: ChainStatus, row: Workflow)
    requires RefsOk(db) && h < |db.handoffs| && SameIdentity(row, db.workflows[db.handoffs[h].workflow])
    ensures Touches(db, CloseOut(db, h, verdict, outcome, status, row), db.handoffs[h].workflow)
    ensures RefsOk(CloseOut(db, h, verdict, outcome, status, row))
  {
  }

  lemma InsertRunTouches(db: Db, w: nat, phase: Phase, seed: Option<Marker>, seedBase: Option<string>)
    requires RefsOk(db) && w < |db.workflows|
    ensures Touches(db, InsertRun(db, w, phase, seed, seedBase), w) && RefsOk(InsertRun(db, w, phase, seed, seedBase))
  {
  }

  lemma SetWorkflowTouches(db: Db, w: nat, row: Workflow)
    requires RefsOk(db) && w < |db.workflows| && SameIdentity(row, db.workflows[w])
    ensures Touches(db, SetWorkflow(db, w, row), w) && RefsOk(SetWorkflow(db, w, row))
  {
  }

  lemma CarryTouches(db: Db, h: nat, verdict: Verdict, row: Workflow, step: HandoffStep, newRound: bool)
    requires RefsOk(db) && h < |db.handoffs| && SameIdentity(row, db.workflows[db.handoffs[h].workflow])
    ensures Touches(db, Carry(db, h, verdict, row, step, newRound), db.handoffs[h].workflow)
    ensures RefsOk(Carry(db, h, verdict, row, step, newRound))
  {
  }

  lemma RestartTouches(db: Db, h: nat, verdict: Verdict, row: Workflow, head: Option<string>)
    requires RefsOk(db) && VerdictReady(db, h) && row.phase < |Phases(db, db.handoffs[h].workflow)|
    requires SameIdentity(row, db.workflows[db.handoffs[h].workflow])
    ensures Touches(db, Restart(db, h, verdict, row, head).0, db.handoffs[h].workflow)
  {
    var w := db.handoffs[h].workflow;
    var phase := Phases(db, w)[row.phase];
    var db1 := CloseOut(db, h, verdict, PhaseDone, Resolved, row);
    CloseOutTouches(db, h, verdict, PhaseDone, Resolved, row);
    var db2 := InsertRun(db1, w, phase, None, None);
    InsertRunTouches(db1, w, phase, None, None);
    TouchesTrans(db, db1, db2, w);
    var based := db1.workflows[w].(base := head);
    SetWorkflowTouches(db2, w, based);
    TouchesTrans(db, db2, SetWorkflow(db2, w, based), w);
  }

  lemma AdvanceTouches(db: Db, h: nat, verdict: Verdict, head: Option<string>)
    requires RefsOk(db) && VerdictReady(db, h)
    ensures Touches(db, Advance(db, h, verdict, head).0, db.handoffs[h].workflow)
  {
    match MoveOf(db, db.handoffs[h].workflow)
    case Stop(row, _) => CloseOutTouches(db, h, verdict, PhaseDone, Resolved, row);
    case StartAgain(row) => RestartTouches(db, h, verdict, row, head);
  }

  lemma SettleTouches(db: Db, h: nat, input: VerdictInput)
    requires RefsOk(db) && VerdictReady(db, h)
    ensures Touches(db, Settle(db, h, input).0, db.handoffs[h].workflow)
  {
    var row := db.handoffs[h];
    var w := row.workflow;
    var chain := db.chains[row.chain];
    var (verdict, reason) := NormalizeVerdict(row.step, input.verdict, input.confidence, chain.round, chain.maxRounds, input.reason);
    match verdict
    case Approve => AdvanceTouches(db, h, verdict, input.head);
    case ExecutionPass => AdvanceTouches(db, h, verdict, input.head);
    case Findings => CarryTouches(db, h, verdict, db.workflows[w], Fix, false);
    case Delivered => CarryTouches(db, h, verdict, DeliveredRow(db, h), Review, true);
    case Escalate => CloseOutTouches(db, h, verdict, PhaseEscalated, Escalated, HaltRow(db.workflows[w], reason));
    case ExecutionFail => CloseOutTouches(db, h, verdict, PhaseEscalated, Escalated, HaltRow(db.workflows[w], reason));
  }

  // ------------------------------------------------------------ the budget

  /** How many verdicts a fresh run of a phase can take at most. */
  function FreshSteps(p: Phase): nat
    requires 1 <= p.maxRounds
  {
    HeldSteps(p.initialStep, 1, p.maxRounds)
  }

  /** How many verdicts a chain can still take when the baton is at `step` in `round`. */
  function HeldSteps(step: HandoffStep, round: nat, maxRounds: nat): nat
    requires round <= maxRounds
  {
    match step
    case Review => 2 * (maxRounds - round) + 1
    case Fix => 2 * (maxRounds - round)
    case Implement => 2 * (maxRounds - round)
    case Execute => 1
  }

  /** A whole phase, with every iteration a looping one may take. */
  function PhaseSteps(p: Phase): nat
    requires PhaseOk(p)
  {
    FreshSteps(p) + (if p.repeats then IterationSteps(p.maxIterations - 1, FreshSteps(p)) else 0)
  }

  ghost predicate PhasesOk(phases: seq<Phase>) {
    forall i | 0 <= i < |phases| :: PhaseOk(phases[i])
  }

  function LaterSteps(phases: seq<Phase>, j: nat): nat
    requires j <= |phases| && PhasesOk(phases)
    decreases |phases| - j
  {
    if j == |phases| then 0 else PhaseSteps(phases[j]) + LaterSteps(phases, j + 1)
  }

  /** Verdicts beyond the current run: the loop's further iterations and the phases to come. */
  function RestSteps(phases: seq<Phase>, j: nat, iteration: nat): nat
    requires j < |phases| && PhasesOk(phases)
    requires phases[j].repeats ==> iteration < phases[j].maxIterations
  {
    (if phases[j].repeats then IterationSteps(phases[j].maxIterations - 1 - iteration, FreshSteps(phases[j])) else 0) + LaterSteps(phases, j + 1)
  }

  function IterationSteps(n: nat, each: nat): nat {
    if n == 0 then 0 else each + IterationSteps(n - 1, each)
  }

  ghost predicate CanCount(db: Db, w: nat) {
    && RefsOk(db) && RegistryOk(db) && w < |db.workflows| && FlowOk(db, w)
  }

  lemma CanCountFacts(db: Db, w: nat)
    requires CanCount(db, w)
    ensures RowOk(db, w)
    ensures PhasesOk(Phases(db, w))
    ensures var p := Phases(db, w)[db.workflows[w].phase]; p.repeats ==> db.workflows[w].iteration < p.maxIterations
    ensures forall h: nat | Baton(db, w, h) :: BatonFits(db, w, h)
  {
    assert DefinitionOk(db.registry[db.workflows[w].kind]);
  }

  ghost function CurrentSteps(db: Db, w: nat): nat
    requires CanCount(db, w)
  {
    CanCountFacts(db, w);
    if h: nat :| Baton(db, w, h) then
      HeldSteps(db.handoffs[h].step, db.handoffs[h].round, db.chains[db.handoffs[h].chain].maxRounds)
    else
      FreshSteps(Phases(db, w)[db.workflows[w].phase])
  }

  ghost function Budget(db: Db, w: nat): nat
    requires CanCount(db, w)
  {
    CanCountFacts(db, w);
    var wf := db.workflows[w];
    if !wf.Live() then 0
    else CurrentSteps(db, w) + RestSteps(Phases(db, w), wf.phase, wf.iteration)
  }

  lemma BudgetWithBaton(db: Db, w: nat, h: nat)
    requires CanCount(db, w) && Baton(db, w, h)
    ensures BatonFits(db, w, h)
    ensures CurrentSteps(db, w) == HeldSteps(db.handoffs[h].step, db.handoffs[h].round, db.chains[db.handoffs[h].chain].maxRounds)
    ensures CurrentSteps(db, w) >= 1
  {
    forall g: nat | Baton(db, w, g) ensures g == h { BatonIsUnique(db, w, g, h); }
  }

  // ------------------------------------------------------------ a verdict spends

  /** A continuing verdict is worth exactly one step of the chain. */
  lemma CarrySpends(db: Db, db': Db, w: nat, h: nat, verdict: Verdict, row: Workflow, step: HandoffStep, newRound: bool)
    requires CanCount(db, w) && CanCount(db', w) && Baton(db, w, h) && CarryOk(db, w, h, row, step, newRound)
    requires db' == Carry(db, h, verdict, row, step, newRound) && db.workflows[w].Live()
    requires if newRound then step == Review && (db.handoffs[h].step == Fix || db.handoffs[h].step == Implement)
             else step == Fix && db.handoffs[h].step == Review
    ensures Budget(db', w) == Budget(db, w) - 1
  {
    CarryFacts(db, w, h, verdict, row, step, newRound);
    BudgetWithBaton(db, w, h);
    BudgetWithBaton(db', w, |db.handoffs|);
  }

  lemma EndSpends(db: Db, db': Db, w: nat, h: nat)
    requires CanCount(db, w) && CanCount(db', w) && Baton(db, w, h) && db.workflows[w].Live() && !db'.workflows[w].Live()
    ensures Budget(db', w) < Budget(db, w)
  {
    BudgetWithBaton(db, w, h);
  }

  lemma RestSpends(phases: seq<Phase>, j: nat, i: nat, j': nat, i': nat)
    requires j < |phases| && j' < |phases| && PhasesOk(phases)
    requires phases[j].repeats ==> i < phases[j].maxIterations
    requires phases[j'].repeats ==> i' < phases[j'].maxIterations
    requires (j' == j && phases[j].repeats && i' == i + 1) || (j' == j + 1 && !phases[j].repeats && i' == 0)
    ensures FreshSteps(phases[j']) + RestSteps(phases, j', i') == RestSteps(phases, j, i)
  {
  }

  lemma KickoffNextBaton(db: Db, w: nat, phase: Phase, head: Option<string>)
    requires RefsOk(db) && FlowCore(db, w) && !HasBaton(db, w) && !db.workflows[w].Terminal()
    requires phase == Phases(db, w)[db.workflows[w].phase] && PhaseOk(phase) && KickoffNext(db, w, phase, head).Ok?
    ensures var db' := KickoffNext(db, w, phase, head).value;
      && Baton(db', w, |db.handoffs|) && db'.handoffs[|db.handoffs|].step == phase.initialStep
      && db'.handoffs[|db.handoffs|].round == 1 && db'.chains[db'.handoffs[|db.handoffs|].chain].maxRounds == phase.maxRounds
      && db'.registry == db.registry && w < |db'.workflows| && db'.workflows[w] == db.workflows[w].(base := db'.workflows[w].base)
  {
  }

  /** A restart spends the run it closes; the new run was part of the rest. */
  lemma RestartSpends(db: Db, db': Db, w: nat, h: nat, verdict: Verdict, row: Workflow, head: Option<string>)
    requires CanCount(db, w) && CanCount(db', w) && Baton(db, w, h) && db.workflows[w].status == Running
    requires VerdictReady(db, h) && CloseRowOk(db, w, row, PhaseDone) && row.status == Running
    requires Restart(db, h, verdict, row, head) == (db', Ok(PhaseAdvanced))
    requires var p := Phases(db, w)[db.workflows[w].phase];
      || (row.phase == db.workflows[w].phase && p.repeats && row.iteration == db.workflows[w].iteration + 1)
      || (row.phase == db.workflows[w].phase + 1 && !p.repeats && row.iteration == 0)
    ensures Budget(db', w) < Budget(db, w)
  {
    CanCountFacts(db, w);
    BudgetWithBaton(db, w, h);
    var db1 := CloseOut(db, h, verdict, PhaseDone, Resolved, row);
    CloseOutKeepsCore(db, w, h, verdict, PhaseDone, Resolved, row);
    KickoffNextBaton(db1, w, Phases(db, w)[row.phase], head);
    BudgetWithBaton(db', w, |db1.handoffs|);
    RestSpends(Phases(db, w), db.workflows[w].phase, db.workflows[w].iteration, row.phase, row.iteration);
  }

  lemma AdvanceSpends(db: Db, db': Db, w: nat, h: nat, verdict: Verdict, head: Option<string>)
    requires CanCount(db, w) && CanCount(db', w) && Baton(db, w, h) && db.workflows[w].status == Running
    requires VerdictReady(db, h) && db' == Advance(db, h, verdict, head).0 && Advance(db, h, verdict, head).1.Ok?
    ensures Budget(db', w) < Budget(db, w)
  {
    MoveIsOk(db, w);
    match MoveOf(db, w)
    case Stop(_, _) => EndSpends(db, db', w, h);
    case StartAgain(row) => RestartSpends(db, db', w, h, verdict, row, head);
  }

  /** A verdict that commits spends at least one step of its workflow's budget. */
  lemma SettleSpends(db: Db, db': Db, w: nat, h: nat, input: VerdictInput)
    requires CanCount(db, w) && CanCount(db', w) && Baton(db, w, h) && VerdictRefusal(db, h, input).None?
    requires Settle(db, h, input).0 == db' && Settle(db, h, input).1.Ok?
    ensures Budget(db', w) < Budget(db, w)
  {
    hide Budget, FlowOk, RegistryOk, Advance, Carry;
    var row := db.handoffs[h];
    var wf := db.workflows[w];
    var chain := db.chains[row.chain];
    BudgetWithBaton(db, w, h);
    var (verdict, reason) := NormalizeVerdict(row.step, input.verdict, input.confidence, chain.round, chain.maxRounds, input.reason);
    if verdict == Approve || verdict == ExecutionPass {
      AdvanceSpends(db, db', w, h, verdict, input.head);
    } else if verdict == Findings {
      CarrySpends(db, db', w, h, verdict, wf, Fix, false);
    } else if verdict == Delivered {
      CarrySpends(db, db', w, h, verdict, DeliveredRow(db, h), Review, true);
    } else {
      EndSpends(db, db', w, h);
    }
  }

  // ------------------------------------------------------------ other steps and other workflows

  datatype Scope = OfWorkflow(w: nat) | OfChain(c: nat)

  predicate Counts(row: Handoff, scope: Scope) {
    row.verdict.Some? && (match scope case OfWorkflow(w) => row.workflow == w case OfChain(c) => row.chain == c)
  }

  /** How many verdicts have been given in a workflow, or in one chain. */
  function Verdicts(handoffs: seq<Handoff>, scope: Scope): nat {
    if handoffs == [] then 0
    else Verdicts(handoffs[..|handoffs| - 1], scope) + (if Counts(handoffs[|handoffs| - 1], scope) then 1 else 0)
  }

  lemma {:induction false} VerdictsAtMost(a: seq<Handoff>, b: seq<Handoff>, scope: Scope, extra: Option<nat>)
    requires |a| <= |b|
    requires forall i | 0 <= i < |b| :: Counts(b[i], scope) ==> i < |a| && (Counts(a[i], scope) || extra == Some(i))
    ensures Verdicts(b, scope) <= Verdicts(a, scope) + (if extra.Some? then 1 else 0)
    decreases |b|
  {
    if b == [] {
    } else {
      var n := |b| - 1;
      if |a| <= n { VerdictsAtMost(a, b[..n], scope, extra); }
      else if extra == Some(n) { VerdictsAtMost(a[..n], b[..n], scope, None); }
      else { VerdictsAtMost(a[..n], b[..n], scope, extra); }
    }
  }

  lemma BudgetFrame(db: Db, db': Db, v: nat, w: nat)
    requires CanCount(db, w) && CanCount(db', w) && Touches(db, db', v) && v != w
    ensures Budget(db', w) == Budget(db, w)
    ensures Verdicts(db'.handoffs, OfWorkflow(w)) <= Verdicts(db.handoffs, OfWorkflow(w))
  {
    hide RestSteps, HeldSteps, FreshSteps, Verdicts;
    HasBatonFrame(db, db', v, w);
    if h: nat :| Baton(db, w, h) {
      BatonFrame(db, db', v, w, h);
      BudgetWithBaton(db, w, h);
      BudgetWithBaton(db', w, h);
    }
    VerdictsAtMost(db.handoffs, db'.handoffs, OfWorkflow(w), None);
  }

  /** A step that only rewrites rows of workflows and leaves the batons where they are. */
  lemma BudgetKept(db: Db, db': Db, w: nat)
    requires CanCount(db, w) && CanCount(db', w) && db'.registry == db.registry
    requires db'.workflows[w].kind == db.workflows[w].kind
    requires db'.workflows[w].phase == db.workflows[w].phase && db'.workflows[w].iteration == db.workflows[w].iteration
    requires db'.workflows[w].Live() ==> db.workflows[w].Live()
    requires |db'.handoffs| == |db.handoffs| && db'.chains == db.chains
    requires forall h | 0 <= h < |db.handoffs| ::
      db'.handoffs[h] == db.handoffs[h].(status := db'.handoffs[h].status, handback := db'.handoffs[h].handback)
    ensures Budget(db', w) <= Budget(db, w)
    ensures Verdicts(db'.handoffs, OfWorkflow(w)) <= Verdicts(db.handoffs, OfWorkflow(w))
  {
    assert forall h: nat :: Baton(db', w, h) <==> Baton(db, w, h);
    if h: nat :| Baton(db, w, h) {
      BudgetWithBaton(db, w, h);
      BudgetWithBaton(db', w, h);
    }
    VerdictsAtMost(db.handoffs, db'.handoffs, OfWorkflow(w), None);
  }

  lemma BeginBaton(db: Db, w: nat, phase: Phase, entryBase: Option<string>, seedBase: Option<string>)
    requires RefsOk(db) && FlowCore(db, w) && BeginPhaseRun(db, w, phase, entryBase, seedBase).1.Ok?
    ensures var db' := BeginPhaseRun(db, w, phase, entryBase, seedBase).0;
      && db.workflows[w].Live() && !HasBaton(db, w) && Baton(db', w, |db.handoffs|)
      && db'.handoffs[|db.handoffs|].step == phase.initialStep && db'.handoffs[|db.handoffs|].round == 1
      && db'.chains[db'.handoffs[|db.handoffs|].chain].maxRounds == phase.maxRounds
      && db'.registry == db.registry
      && db'.workflows[w] == db.workflows[w].(base := db'.workflows[w].base, marker := None)
      && db'.handoffs[..|db.handoffs|] == db.handoffs && db'.handoffs[|db.handoffs|].verdict.None? && |db'.handoffs| == |db.handoffs| + 1
  {
    BatonIffOpenRun(db, w);
  }

  /** Starting the current phase's run takes what was set aside for it. */
  lemma BeginKeepsBudget(db: Db, db': Db, w: nat, phase: Phase, entryBase: Option<string>, seedBase: Option<string>)
    requires CanCount(db, w) && CanCount(db', w) && phase == Phases(db, w)[db.workflows[w].phase]
    requires BeginPhaseRun(db, w, phase, entryBase, seedBase).0 == db' && BeginPhaseRun(db, w, phase, entryBase, seedBase).1.Ok?
    ensures Budget(db', w) == Budget(db, w)
    ensures Verdicts(db'.handoffs, OfWorkflow(w)) <= Verdicts(db.handoffs, OfWorkflow(w))
  {
    BeginBaton(db, w, phase, entryBase, seedBase);
    BudgetWithBaton(db', w, |db.handoffs|);
    forall i | 0 <= i < |db'.handoffs| && Counts(db'.handoffs[i], OfWorkflow(w)) ensures i < |db.handoffs| && Counts(db.handoffs[i], OfWorkflow(w)) {
      assert i < |db.handoffs| ==> db.handoffs[i] == db'.handoffs[..|db.handoffs|][i];
    }
    VerdictsAtMost(db.handoffs, db'.handoffs, OfWorkflow(w), None);
  }

  // ------------------------------------------------------------ every step

  ghost predicate Spends(db: Db, db': Db, w: nat)
    requires CanCount(db, w) && CanCount(db', w)
  {
    Verdicts(db'.handoffs, OfWorkflow(w)) + Budget(db', w) <= Verdicts(db.handoffs, OfWorkflow(w)) + Budget(db, w)
  }

  lemma KickoffTouches(db: Db, w: nat, head: Option<string>, setupOk: bool)
    requires RefsOk(db) && w < |db.workflows|
    ensures Touches(db, Kickoff(db, w, head, setupOk), w)
  {
    var db' := Kickoff(db, w, head, setupOk);
    if db' != db && db'.runs == db.runs {
      SetWorkflowTouches(db, w, HaltRow(db.workflows[w], NotReady));
    }
  }

  lemma KickoffSpends(db: Db, v: nat, head: Option<string>, setupOk: bool, w: nat)
    requires CanCount(db, w) && CanCount(Kickoff(db, v, head, setupOk), w)
    ensures Spends(db, Kickoff(db, v, head, setupOk), w)
  {
    var db' := Kickoff(db, v, head, setupOk);
    if v < |db.workflows| && v != w {
      KickoffTouches(db, v, head, setupOk);
      BudgetFrame(db, db', v, w);
    } else if db' != db && db'.runs == db.runs {
      BudgetKept(db, db', w);
    } else if db' != db {
      var phase := Phases(db, w)[db.workflows[w].phase];
      BeginKeepsBudget(db, db', w, phase, EntryBase(db.workflows[w], phase, head), SeedBase(db.workflows[w], phase));
    }
  }

  lemma SettleSpendsOnAny(db: Db, db': Db, h: nat, input: VerdictInput, w: nat)
    requires CanCount(db, w) && CanCount(db', w)
    requires h < |db.handoffs| && db.handoffs[h].verdict.None? && VerdictRefusal(db, h, input).None?
    requires db' == Settle(db, h, input).0
    ensures Spends(db, db', w)
  {
    var v := db.handoffs[h].workflow;
    if v != w {
      SettleTouches(db, h, input);
      BudgetFrame(db, db', v, w);
    } else if db' != db {
      SettleSpends(db, db', w, h, input);
      SettleVerdicts(db, h, input, OfWorkflow(w));
    }
  }

  ghost predicate OnlyJudges(a: seq<Handoff>, b: seq<Handoff>, h: nat) {
    && |a| <= |b|
    && (forall i | 0 <= i < |a| && i != h :: b[i] == a[i])
    && (forall i | |a| <= i < |b| :: b[i].verdict.None?)
  }

  lemma RestartJudges(db: Db, h: nat, verdict: Verdict, row: Workflow, head: Option<string>)
    requires VerdictReady(db, h) && RefsOk(db) && row.phase < |Phases(db, db.handoffs[h].workflow)|
    ensures OnlyJudges(db.handoffs, Restart(db, h, verdict, row, head).0.handoffs, h)
  {
  }

  lemma AdvanceJudges(db: Db, h: nat, verdict: Verdict, head: Option<string>)
    requires VerdictReady(db, h) && RefsOk(db)
    ensures OnlyJudges(db.handoffs, Advance(db, h, verdict, head).0.handoffs, h)
  {
    match MoveOf(db, db.handoffs[h].workflow)
    case Stop(_, _) =>
    case StartAgain(row) => RestartJudges(db, h, verdict, row, head);
  }

  /** The one verdict a settled handoff adds, counted in any scope. */
  lemma SettleJudges(db: Db, h: nat, input: VerdictInput)
    requires RefsOk(db) && VerdictReady(db, h)
    ensures OnlyJudges(db.handoffs, Settle(db, h, input).0.handoffs, h)
  {
    var row := db.handoffs[h];
    var chain := db.chains[row.chain];
    var (verdict, _) := NormalizeVerdict(row.step, input.verdict, input.confidence, chain.round, chain.maxRounds, input.reason);
    if verdict == Approve || verdict == ExecutionPass { AdvanceJudges(db, h, verdict, input.head); }
  }

  lemma SettleVerdicts(db: Db, h: nat, input: VerdictInput, scope: Scope)
    requires RefsOk(db) && VerdictReady(db, h)
    ensures Verdicts(Settle(db, h, input).0.handoffs, scope) <= Verdicts(db.handoffs, scope) + 1
  {
    SettleJudges(db, h, input);
    VerdictsAtMost(db.handoffs, Settle(db, h, input).0.handoffs, scope, Some(h));
  }

  lemma SupersedeTouches(db: Db, w: nat, row: Workflow)
    requires RefsOk(db) && w < |db.workflows| && SameIdentity(row, db.workflows[w])
    ensures Touches(db, SetWorkflow(SupersedeRuns(db, w), w, row), w)
  {
  }

  lemma EndingSpends(db: Db, v: nat, row: Workflow, w: nat)
    requires CanCount(db, w) && v < |db.workflows| && SameIdentity(row, db.workflows[v]) && !row.Live()
    requires CanCount(SetWorkflow(SupersedeRuns(db, v), v, row), w)
    ensures Spends(db, SetWorkflow(SupersedeRuns(db, v), v, row), w)
  {
    if v != w {
      SupersedeTouches(db, v, row);
      BudgetFrame(db, SetWorkflow(SupersedeRuns(db, v), v, row), v, w);
    }
  }

  predicate ResumesHalted(db: Db, step: Step, w: nat)
    requires w < |db.workflows|
  {
    step.Resume? && step.w == w && db.workflows[w].status == Halted
  }

  lemma NoticeSpends(db: Db, h: nat, why: string, w: nat)
    requires Inv(db) && w < |db.workflows| && CanCount(db, w) && w < |EscalateNotice(db, h, why).0.workflows| && CanCount(EscalateNotice(db, h, why).0, w)
    ensures Spends(db, EscalateNotice(db, h, why).0, w)
  {
    hide FlowOk, Budget, Verdicts, Settle, OneLive;
    var input := VerdictInput(Escalate, 1.0, why, None);
    if h < |db.handoffs| && db.handoffs[h].verdict.None? && VerdictRefusal(db, h, input).None? && db.handoffs[h].status == Accepted {
      var row := db.handoffs[h].(status := Failed);
      var db1 := WithHandoff(db, h, row);
      HandoffStatusFrame(db, h, row, w);
      BudgetKept(db, db1, w);
      SettleSpendsOnAny(db1, Settle(db1, h, input).0, h, input, w);
    }
  }

  lemma StatusSpends(db: Db, v: nat, row: Workflow, w: nat)
    requires CanCount(db, w) && v < |db.workflows| && CanCount(SetWorkflow(db, v, row), w)
    requires row == db.workflows[v].(status := row.status, haltReason := row.haltReason, marker := row.marker)
    requires v == w ==> row.Live() ==> db.workflows[v].Live()
    ensures Spends(db, SetWorkflow(db, v, row), w)
  {
    BudgetKept(db, SetWorkflow(db, v, row), w);
  }

  lemma OperatorSpends(db: Db, step: Step, w: nat)
    requires RefsOk(db) && w < |db.workflows| && !ResumesHalted(db, step, w) && (step.Halt? || step.Pause? || step.Resume?)
    requires CanCount(db, w) && w < |Next(db, step).workflows| && CanCount(Next(db, step), w)
    ensures Spends(db, Next(db, step), w)
  {
    var db' := Next(db, step);
    if db' != db {
      var row := db'.workflows[step.w];
      assert db' == SetWorkflow(db, step.w, row);
      StatusSpends(db, step.w, row, w);
    }
  }

  lemma RecordingSpends(db: Db, step: Step, w: nat)
    requires RefsOk(db) && w < |db.workflows| && (step.Create? || step.ChangeCollab? || step.Accept? || step.HandBack?)
    requires CanCount(db, w) && w < |Next(db, step).workflows| && CanCount(Next(db, step), w)
    ensures Spends(db, Next(db, step), w)
  {
    hide FlowOk, Budget, Verdicts;
    BudgetKept(db, Next(db, step), w);
  }

  lemma RowsNeverShrink(db: Db, step: Step)
    requires Inv(db)
    ensures |db.workflows| <= |Next(db, step).workflows|
  {
    NextEffect(db, step);
  }

  /** No step but a resume of halted w lets verdicts given plus verdicts left grow. */
  lemma NextSpends(db: Db, step: Step, w: nat)
    requires Inv(db) && w < |db.workflows| && !ResumesHalted(db, step, w)
    ensures Inv(Next(db, step)) && w < |Next(db, step).workflows|
    ensures CanCount(db, w) && CanCount(Next(db, step), w) && Spends(db, Next(db, step), w)
  {
    hide FlowOk, RegistryOk, OneLive, Budget, Verdicts, Settle, Kickoff;
    var db' := Next(db, step);
    NextKeepsInv(db, step);
    RowsNeverShrink(db, step);
    assert FlowOk(db, w) && FlowOk(db', w);
    match step
    case StartPhase(v, head, setupOk) => KickoffSpends(db, v, head, setupOk, w);
    case GiveVerdict(h, input) =>
      if h < |db.handoffs| && db.handoffs[h].verdict.None? && VerdictRefusal(db, h, input).None? { SettleSpendsOnAny(db, db', h, input, w); }
    case NoticeEscalation(h, why) => NoticeSpends(db, h, why, w);
    case Cancel(v) =>
      if v < |db.workflows| && !db.workflows[v].Terminal() { EndingSpends(db, v, db'.workflows[v], w); }
    case MarkDone(v) =>
      if v < |db.workflows| && db.workflows[v].status == Halted { EndingSpends(db, v, db'.workflows[v], w); }
    case Halt(_, _) => OperatorSpends(db, step, w);
    case Pause(_) => OperatorSpends(db, step, w);
    case Resume(_, _) => OperatorSpends(db, step, w);
    case _ => RecordingSpends(db, step, w);
  }
}
