/** The engine's promises over every run of steps, starting from empty tables and the real registry. */
module WorkflowRuns {
  import opened Wrappers
  import opened Registry
  import opened WorkflowTables
  import opened WorkflowSteps
  import opened WorkflowFrames
  import opened WorkflowSafety
  import opened WorkflowHistory
  import opened WorkflowBudget
  import opened WorkflowAttempts

  ghost function Run(db: Db, steps: seq<Step>): (r: Db)
    requires Inv(db)
    ensures Inv(r)
    decreases |steps|
  {
    if steps == [] then db
    else
      NextKeepsInv(db, steps[0]);
      Run(Next(db, steps[0]), steps[1..])
  }

  lemma StartIsOk()
    ensures Inv(EmptyDb(REGISTRY))
  {
    forall k | k in REGISTRY ensures DefinitionOk(REGISTRY[k]) { RegistryIsOk(k); }
  }

  ghost function Reach(steps: seq<Step>): (r: Db)
    ensures Inv(r)
  {
    StartIsOk();
    Run(EmptyDb(REGISTRY), steps)
  }

  // ------------------------------------------------------------ structure of every reachable state

  /** The holder of run r: the one handoff of its chain without a verdict. */
  ghost predicate SoleHolder(db: Db, r: nat, h: nat) {
    && h < |db.handoffs| && db.handoffs[h].chain == r && db.handoffs[h].verdict.None?
    && forall g | 0 <= g < |db.handoffs| && db.handoffs[g].chain == r && db.handoffs[g].verdict.None? :: g == h
  }

  lemma OneLivePerCollab(steps: seq<Step>, v: nat, w: nat)
    ensures var db := Reach(steps);
      v < |db.workflows| && w < |db.workflows| && db.workflows[v].Live() && db.workflows[w].Live() ==>
        (db.workflows[v].collab == db.workflows[w].collab ==> v == w)
  {
  }

  /** A workflow has at most one open run, at its current index; a chain is active iff its run is open. */
  lemma OneOpenRun(steps: seq<Step>, q: nat, r: nat)
    ensures var db := Reach(steps);
      && |db.runs| == |db.chains|
      && (r < |db.runs| ==> db.runs[r].chain == r && db.runs[r].workflow < |db.workflows|)
      && (r < |db.runs| ==> (db.chains[r].status == Active <==> db.runs[r].outcome.None?))
      && (r < |db.runs| && db.runs[r].outcome.None? ==>
            db.runs[r].phase == db.workflows[db.runs[r].workflow].phase && !db.workflows[db.runs[r].workflow].Terminal())
      && (q < |db.runs| && r < |db.runs| && db.runs[q].outcome.None? && db.runs[r].outcome.None? ==>
            (db.runs[q].workflow == db.runs[r].workflow ==> q == r))
  {
    var db := Reach(steps);
    if r < |db.runs| {
      assert FlowOk(db, db.runs[r].workflow);
      assert OpenRunOf(db, db.runs[r].workflow, r) <==> db.runs[r].outcome.None?;
      if q < |db.runs| { assert db.runs[q].workflow == db.runs[r].workflow && db.runs[q].outcome.None? ==> OpenRunOf(db, db.runs[r].workflow, q); }
    }
  }

  /** An active chain has exactly one handoff without a verdict, in the chain's round and addressed to the right agent. */
  lemma OneHolder(steps: seq<Step>, r: nat)
    ensures var db := Reach(steps);
      r < |db.runs| && db.runs[r].outcome.None? ==>
        exists h: nat ::
          && SoleHolder(db, r, h)
          && r < |db.chains| && db.handoffs[h].round == db.chains[r].round
          && db.runs[r].workflow < |db.workflows|
          && var wf := db.workflows[db.runs[r].workflow];
             db.handoffs[h].target == if db.handoffs[h].step == Review then wf.reviewer else wf.implementer
  {
    var db := Reach(steps);
    if r < |db.runs| && db.runs[r].outcome.None? {
      var w := db.runs[r].workflow;
      assert FlowOk(db, w) && OpenRunOf(db, w, r);
      var h: nat :| Baton(db, w, h);
      assert OpenRunOf(db, w, db.handoffs[h].run);
      assert BatonFits(db, w, h);
      forall g | 0 <= g < |db.handoffs| && db.handoffs[g].chain == r && db.handoffs[g].verdict.None? ensures g == h {
        assert Baton(db, w, g);
        BatonIsUnique(db, w, g, h);
      }
      assert SoleHolder(db, r, h);
    }
  }

  /** The round bound: chains stay inside their phase's limit, and a step that will deliver leaves room for a round. */
  lemma RoundBound(steps: seq<Step>, r: nat)
    ensures var db := Reach(steps);
      && |db.chains| == |db.runs|
      && (r < |db.runs| ==> db.runs[r].workflow < |db.workflows| && KnownKind(db, db.runs[r].workflow))
      && (r < |db.runs| ==> db.runs[r].phase < |Phases(db, db.runs[r].workflow)|)
      && (r < |db.runs| ==> 1 <= db.chains[r].round <= db.chains[r].maxRounds == Phases(db, db.runs[r].workflow)[db.runs[r].phase].maxRounds)
      && (r < |db.runs| && db.runs[r].outcome.None? ==> forall h: nat | SoleHolder(db, r, h) ::
            db.handoffs[h].step == Fix || db.handoffs[h].step == Implement ==> db.chains[r].round + 1 <= db.chains[r].maxRounds)
  {
    var db := Reach(steps);
    if r < |db.runs| {
      var w := db.runs[r].workflow;
      assert FlowOk(db, w);
      forall h: nat | db.runs[r].outcome.None? && SoleHolder(db, r, h) ensures BatonFits(db, w, h) {
        assert OpenRunOf(db, w, r) && Baton(db, w, h);
      }
    }
  }

  /** Every attempt at a phase, resumed or not, ends within fewer than twice its round limit in verdicts. */
  lemma AttemptBound(steps: seq<Step>, r: nat)
    ensures var db := Reach(steps);
      r < |db.chains| ==> Verdicts(db.handoffs, OfChain(r)) <= 2 * db.chains[r].maxRounds - 1
  {
    StartIsOk();
    RunAttempts(EmptyDb(REGISTRY), steps);
  }

  lemma {:induction false} RunAttempts(db: Db, steps: seq<Step>)
    requires Inv(db) && AttemptsOk(db)
    ensures AttemptsOk(Run(db, steps))
    decreases |steps|
  {
    if steps == [] {
    } else {
      NextAttempts(db, steps[0]);
      RunAttempts(Next(db, steps[0]), steps[1..]);
    }
  }

  // ------------------------------------------------------------ what a run never undoes

  predicate RowPath(a: Workflow, b: Workflow) {
    && SameIdentity(a, b)
    && a.phase <= b.phase
    && (a.Terminal() ==> b == a)
    && (a.base.Some? ==> b.base == a.base)
  }

  ghost predicate RunEffect(db: Db, db': Db) {
    && db'.registry == db.registry
    && |db.workflows| <= |db'.workflows|
    && (forall w | 0 <= w < |db.workflows| :: RowPath(db.workflows[w], db'.workflows[w]))
    && Records(db, db')
  }

  lemma {:induction false} RunKeeps(db: Db, steps: seq<Step>)
    requires Inv(db)
    ensures RunEffect(db, Run(db, steps))
    decreases |steps|
  {
    if steps == [] {
    } else {
      NextKeepsInv(db, steps[0]);
      NextEffect(db, steps[0]);
      RunKeeps(Next(db, steps[0]), steps[1..]);
      RecordsTrans(db, Next(db, steps[0]), Run(db, steps));
    }
  }

  /** Once the commit base has a value it never changes, whatever happens afterwards. */
  lemma BaseWrittenOnce(steps: seq<Step>, more: seq<Step>, w: nat)
    ensures var db := Reach(steps); var db' := Run(db, more);
      w < |db.workflows| && db.workflows[w].base.Some? ==> w < |db'.workflows| && db'.workflows[w].base == db.workflows[w].base
  {
    RunKeeps(Reach(steps), more);
  }

  /** Done and canceled absorb: the row stays as it is, and no run of it is open or chain active ever again. */
  lemma EndedStaysEnded(steps: seq<Step>, more: seq<Step>, w: nat)
    ensures var db := Reach(steps); var db' := Run(db, more);
      w < |db.workflows| && db.workflows[w].Terminal() ==>
        && w < |db'.workflows| && db'.workflows[w] == db.workflows[w]
        && |db'.runs| == |db'.chains|
        && (forall r | 0 <= r < |db'.runs| && db'.runs[r].workflow == w :: db'.runs[r].outcome.Some? && db'.chains[r].status != Active)
  {
    var db := Reach(steps);
    var db' := Run(db, more);
    RunKeeps(db, more);
    if w < |db.workflows| && db.workflows[w].Terminal() {
      assert FlowOk(db', w);
      assert forall r: nat :: !OpenRunOf(db', w, r);
    }
  }

  /** A step moves a phase index by at most one, and only onto an index whose predecessors have all finished. */
  lemma NoPhaseSkipped(steps: seq<Step>, step: Step, w: nat, j: nat)
    ensures var db := Reach(steps); var db' := Next(db, step);
      w < |db.workflows| ==>
        && w < |db'.workflows|
        && db.workflows[w].phase <= db'.workflows[w].phase <= db.workflows[w].phase + 1
        && (j < db'.workflows[w].phase ==> PhaseFinished(db', w, j))
  {
    var db := Reach(steps);
    NextEffect(db, step);
    NextKeepsInv(db, step);
    if w < |db.workflows| { assert FlowOk(Next(db, step), w); }
  }

  // ------------------------------------------------------------ what it takes to be done

  /** A run of w at its last index, closed as done, in whose chain the newest delivery claimed the goal. */
  ghost predicate ClaimedRun(db: Db, w: nat, r: nat) {
    r < |db.runs| && db.runs[r].workflow == w && db.runs[r].outcome == Some(PhaseDone) && ChainClaims(db, db.runs[r].chain)
  }

  /** Every phase of w has finished; in a looping last phase the run of the judged chain is one that claimed the goal. */
  ghost predicate Earned(db: Db, w: nat, run: nat)
    requires RowOk(db, w)
  {
    && (forall j | 0 <= j < |Phases(db, w)| :: PhaseFinished(db, w, j))
    && (Phases(db, w)[db.workflows[w].phase].repeats ==> ClaimedRun(db, w, run))
  }

  lemma CloseOutEarns(db: Db, w: nat, h: nat, verdict: Verdict)
    requires Inv(db) && FlowCore(db, w) && Baton(db, w, h) && db.workflows[w].status == Running && MoveOf(db, w).Stop?
    requires MoveOf(db, w).row.status == Done && db.handoffs[h].step != Fix && db.handoffs[h].step != Implement
    requires verdict == Approve || verdict == ExecutionPass
    requires Phases(db, w)[db.workflows[w].phase].repeats ==> db.handoffs[h].step == Review
    requires Inv(CloseOut(db, h, verdict, PhaseDone, Resolved, MoveOf(db, w).row))
    ensures RowOk(CloseOut(db, h, verdict, PhaseDone, Resolved, MoveOf(db, w).row), w)
    ensures Earned(CloseOut(db, h, verdict, PhaseDone, Resolved, MoveOf(db, w).row), w, db.handoffs[h].run)
  {
    var row := MoveOf(db, w).row;
    var db' := CloseOut(db, h, verdict, PhaseDone, Resolved, row);
    assert DefinitionOk(db.registry[db.workflows[w].kind]);
    CloseOutHistory(db, w, h, verdict, PhaseDone, Resolved, row);
    assert db.workflows[w].phase + 1 == |Phases(db, w)|;
    assert forall j | 0 <= j < row.phase :: PhaseFinished(db', w, j);
    if Phases(db, w)[db.workflows[w].phase].repeats {
      var c := db.handoffs[h].chain;
      var d: nat :| BackedClaim(db, d, c);
      assert BackedClaim(db', d, c);
      assert ClaimedRun(db', w, c);
    }
  }

  /** Only an approve or a passed execution of the baton can answer `workflow-done`. */
  lemma DoneShape(db: Db, h: nat, input: VerdictInput)
    requires Inv(db) && ApplyVerdict(db, h, input).1 == Ok(WorkflowDone)
    ensures h < |db.handoffs|
    ensures var w := db.handoffs[h].workflow;
      && Baton(db, w, h) && RowOk(db, w) && db.workflows[w].status == Running
      && MoveOf(db, w).Stop? && MoveOf(db, w).row.status == Done
      && (db.handoffs[h].step == Review || db.handoffs[h].step == Execute)
      && exists verdict :: (verdict == Approve || verdict == ExecutionPass) && VerdictReady(db, h)
           && ApplyVerdict(db, h, input).0 == CloseOut(db, h, verdict, PhaseDone, Resolved, MoveOf(db, w).row)
  {
    var row := db.handoffs[h];
    var chain := db.chains[row.chain];
    assert FlowOk(db, row.workflow);
    var (verdict, _) := NormalizeVerdict(row.step, input.verdict, input.confidence, chain.round, chain.maxRounds, input.reason);
    assert Settle(db, h, input) == Advance(db, h, verdict, input.head);
    assert VerdictReady(db, h);
  }

  /** The baton of a looping phase is never on an execute step: the phase starts with work and goes on with fix and review. */
  lemma LoopNeverExecutes(db: Db, w: nat, h: nat)
    requires Inv(db) && RowOk(db, w) && Baton(db, w, h)
    ensures Phases(db, w)[db.workflows[w].phase].repeats ==> db.handoffs[h].step != Execute
  {
    assert FlowOk(db, w);
  }

  ghost predicate EndsEarned(db: Db, h: nat, input: VerdictInput)
    requires Inv(db)
  {
    var (db', reply) := ApplyVerdict(db, h, input);
    reply == Ok(WorkflowDone) ==>
      && h < |db.handoffs| && RowOk(db', db.handoffs[h].workflow)
      && db'.workflows[db.handoffs[h].workflow].status == Done
      && Earned(db', db.handoffs[h].workflow, db.handoffs[h].run)
  }

  lemma VerdictEarns(db: Db, h: nat, input: VerdictInput)
    requires Inv(db)
    ensures EndsEarned(db, h, input)
  {
    if ApplyVerdict(db, h, input).1 == Ok(WorkflowDone) {
      DoneShape(db, h, input);
      var w := db.handoffs[h].workflow;
      LoopNeverExecutes(db, w, h);
      NextKeepsInv(db, GiveVerdict(h, input));
      assert FlowOk(db, w);
      hide ApplyVerdict, Inv, RegistryOk, RunsOk, OpenRunsOk, NewestOk, BatonOk, HistoryOk, LoopOk, BaseOk, Earned;
      var verdict :| (verdict == Approve || verdict == ExecutionPass)
        && ApplyVerdict(db, h, input).0 == CloseOut(db, h, verdict, PhaseDone, Resolved, MoveOf(db, w).row);
      CloseOutEarns(db, w, h, verdict);
    }
  }

  /**
   * A workflow that a verdict ends as done has finished every phase. Where its last phase loops, the handback of the
   * newest delivery in the very chain that the verdict approved says that the goal is complete.
   */
  lemma DoneIsEarned(steps: seq<Step>, h: nat, input: VerdictInput)
    ensures var db := Reach(steps);
      var (db', reply) := ApplyVerdict(db, h, input);
      reply == Ok(WorkflowDone) ==>
        && h < |db.handoffs| && RowOk(db', db.handoffs[h].workflow)
        && db'.workflows[db.handoffs[h].workflow].status == Done
        && Earned(db', db.handoffs[h].workflow, db.handoffs[h].run)
  {
    hide FlowOk, RegistryOk, ApplyVerdict, Earned;
    VerdictEarns(Reach(steps), h, input);
  }

  /** The iterations of a looping phase stay below its cap; any other phase counts none. */
  lemma IterationsBelowCap(steps: seq<Step>, w: nat)
    ensures var db := Reach(steps);
      w < |db.workflows| ==>
        && RowOk(db, w)
        && var phase := Phases(db, w)[db.workflows[w].phase];
           if phase.repeats then db.workflows[w].iteration < phase.maxIterations else db.workflows[w].iteration == 0
  {
    var db := Reach(steps);
    if w < |db.workflows| {
      assert FlowOk(db, w) && LoopOk(db, w) && DefinitionOk(db.registry[db.workflows[w].kind]);
    }
  }

  // ------------------------------------------------------------ verdicts run out

  ghost predicate NeverResumed(db: Db, steps: seq<Step>, w: nat)
    requires Inv(db) && w < |db.workflows|
    decreases |steps|
  {
    if steps == [] then true
    else
      RowsNeverShrink(db, steps[0]);
      NextKeepsInv(db, steps[0]);
      !ResumesHalted(db, steps[0], w) && NeverResumed(Next(db, steps[0]), steps[1..], w)
  }

  ghost predicate Within(db: Db, db': Db, w: nat, budget: nat) {
    Verdicts(db'.handoffs, OfWorkflow(w)) <= Verdicts(db.handoffs, OfWorkflow(w)) + budget
  }

  lemma {:induction false} RunSpends(db: Db, steps: seq<Step>, w: nat)
    requires Inv(db) && w < |db.workflows| && NeverResumed(db, steps, w)
    ensures CanCount(db, w) && Within(db, Run(db, steps), w, Budget(db, w))
    decreases |steps|
  {
    assert FlowOk(db, w);
    if steps == [] {
    } else {
      NextSpends(db, steps[0], w);
      RunSpends(Next(db, steps[0]), steps[1..], w);
    }
  }

  predicate WentOn(reply: Reply<Action, Error>) {
    reply == Ok(ChainContinued) || reply == Ok(PhaseAdvanced)
  }

  lemma WentOnShape(db: Db, h: nat, input: VerdictInput)
    requires Inv(db) && WentOn(ApplyVerdict(db, h, input).1)
    ensures h < |db.handoffs| && Baton(db, db.handoffs[h].workflow, h) && db.handoffs[h].workflow < |db.workflows|
    ensures VerdictRefusal(db, h, input).None? && ApplyVerdict(db, h, input) == Settle(db, h, input)
  {
  }

  lemma CountableAt(db: Db, w: nat)
    requires Inv(db) && w < |db.workflows|
    ensures CanCount(db, w)
  {
  }

  lemma GoingOnSpends(db: Db, h: nat, input: VerdictInput)
    requires Inv(db) && WentOn(ApplyVerdict(db, h, input).1)
    ensures var db' := ApplyVerdict(db, h, input).0;
      && h < |db.handoffs|
      && CanCount(db, db.handoffs[h].workflow) && CanCount(db', db.handoffs[h].workflow)
      && Budget(db', db.handoffs[h].workflow) < Budget(db, db.handoffs[h].workflow)
  {
    hide Budget, FlowOk, RegistryOk, RefsOk, OneLive, Settle, VerdictRefusal;
    var step := GiveVerdict(h, input);
    WentOnShape(db, h, input);
    NextKeepsInv(db, step);
    RowsNeverShrink(db, step);
    CountableAt(db, db.handoffs[h].workflow);
    CountableAt(Next(db, step), db.handoffs[h].workflow);
    SettleSpends(db, Next(db, step), db.handoffs[h].workflow, h, input);
  }

  /** A verdict that continues or advances leaves strictly less to do. */
  lemma VerdictProgress(steps: seq<Step>, h: nat, input: VerdictInput)
    ensures var db := Reach(steps);
      var (db', reply) := ApplyVerdict(db, h, input);
      WentOn(reply) ==>
        && h < |db.handoffs|
        && CanCount(db, db.handoffs[h].workflow) && CanCount(db', db.handoffs[h].workflow)
        && Budget(db', db.handoffs[h].workflow) < Budget(db, db.handoffs[h].workflow)
  {
    hide FlowOk, RegistryOk, ApplyVerdict, Budget, CanCount;
    if WentOn(ApplyVerdict(Reach(steps), h, input).1) { GoingOnSpends(Reach(steps), h, input); }
  }

  /** A fresh workflow's budget is the whole definition. */
  lemma FreshBudget(db: Db, collab: string, kind: string, implementer: string, reviewer: string)
    requires Inv(db) && CreateWorkflow(db, collab, kind, implementer, reviewer).1.Ok?
    ensures var (db', reply) := CreateWorkflow(db, collab, kind, implementer, reviewer);
      && Inv(db') && reply.value < |db'.workflows| && CanCount(db', reply.value) && kind in db.registry
      && PhasesOk(db.registry[kind].phases)
      && Budget(db', reply.value) == LaterSteps(db.registry[kind].phases, 0)
      && Verdicts(db'.handoffs, OfWorkflow(reply.value)) == 0
  {
    var (db', reply) := CreateWorkflow(db, collab, kind, implementer, reviewer);
    var w := reply.value;
    CreateKeepsInv(db, collab, kind, implementer, reviewer);
    assert FlowOk(db', w);
    CanCountFacts(db', w);
    assert forall h: nat :: !Baton(db', w, h);
    VerdictsAtMost([], db'.handoffs, OfWorkflow(w), None);
  }

  /** Created and never resumed from halted, a workflow is given no more verdicts than its definition holds. */
  lemma WorkflowEnds(steps: seq<Step>, collab: string, kind: string, implementer: string, reviewer: string, more: seq<Step>)
    ensures var (db, reply) := CreateWorkflow(Reach(steps), collab, kind, implementer, reviewer);
      reply.Ok? ==>
        && Inv(db) && reply.value < |db.workflows| && kind in REGISTRY && PhasesOk(REGISTRY[kind].phases)
        && (NeverResumed(db, more, reply.value) ==>
              Verdicts(Run(db, more).handoffs, OfWorkflow(reply.value)) <= LaterSteps(REGISTRY[kind].phases, 0))
  {
    var (db, reply) := CreateWorkflow(Reach(steps), collab, kind, implementer, reviewer);
    if reply.Ok? {
      StartIsOk();
      RunKeeps(EmptyDb(REGISTRY), steps);
      FreshBudget(Reach(steps), collab, kind, implementer, reviewer);
      if NeverResumed(db, more, reply.value) { RunSpends(db, more, reply.value); }
    }
  }

  lemma {:induction false} IterationStepsIsProduct(n: nat, each: nat)
    ensures IterationSteps(n, each) == n * each
  {
    if n <= 0 {
    } else {
      IterationStepsIsProduct(n - 1, each);
    }
  }

  /** The verdict totals of the registered workflows. */
  lemma RegistryTotals(kind: string)
    requires kind in REGISTRY
    ensures PhasesOk(REGISTRY[kind].phases)
    ensures LaterSteps(REGISTRY[kind].phases, 0) ==
      match kind
      case "spec-driven-development" => 27
      case "ralph-loop" => 800
      case "complex-bug-fixing" => 20
      case "deliberation" => 54
      case _ => 8
  {
    RegistryIsOk(kind);
    IterationStepsIsProduct(99, 8);
  }
}
