/** What a verdict does, in every reachable state: exactly when it continues, advances, ends or halts, and what it leaves. */
module WorkflowAnswers {
  import opened Wrappers
  import opened Registry
  import opened WorkflowTables
  import opened WorkflowSteps
  import opened WorkflowSafety
  import opened WorkflowRuns
  import opened WorkflowExecute
  import opened RalphMarker

  // ------------------------------------------------------------ the cases

  /** The handoff exists, has no verdict, and belongs to an active chain of a running workflow. */
  predicate InPlay(db: Db, h: nat) {
    && h < |db.handoffs| && db.handoffs[h].verdict.None?
    && db.handoffs[h].workflow < |db.workflows| && db.workflows[db.handoffs[h].workflow].status == Running
    && db.handoffs[h].chain < |db.chains| && db.chains[db.handoffs[h].chain].status == Active
    && RowStands(db, db.handoffs[h].workflow)
  }

  predicate RowStands(db: Db, w: nat)
    requires w < |db.workflows|
  {
    db.workflows[w].kind in db.registry && db.workflows[w].phase < |db.registry[db.workflows[w].kind].phases|
  }

  function PhaseOf(db: Db, w: nat): Phase
    requires w < |db.workflows| && RowStands(db, w)
  {
    db.registry[db.workflows[w].kind].phases[db.workflows[w].phase]
  }

  function PhaseCount(db: Db, w: nat): nat
    requires w < |db.workflows| && RowStands(db, w)
  {
    |db.registry[db.workflows[w].kind].phases|
  }

  /** A trusted findings verdict on a review, with a round left. */
  predicate SendsBack(db: Db, h: nat, input: VerdictInput)
    requires InPlay(db, h)
  {
    var chain := db.chains[db.handoffs[h].chain];
    input.confidence >= 0.5 && db.handoffs[h].step == Review && input.verdict == Findings && chain.round < chain.maxRounds
  }

  /** A trusted delivered verdict on a fix or an implementation. */
  predicate HandsOver(db: Db, h: nat, input: VerdictInput)
    requires InPlay(db, h)
  {
    && input.confidence >= 0.5 && input.verdict == Delivered
    && (db.handoffs[h].step == Fix || db.handoffs[h].step == Implement)
  }

  /** A trusted approve on a review, or a trusted pass on an execution. */
  predicate Passes(db: Db, h: nat, input: VerdictInput)
    requires InPlay(db, h)
  {
    && input.confidence >= 0.5
    && ((db.handoffs[h].step == Review && input.verdict == Approve) || (db.handoffs[h].step == Execute && input.verdict == ExecutionPass))
  }

  /** An approve that leads into an execute phase has to bring a commit hash. */
  predicate LacksHead(db: Db, h: nat, input: VerdictInput)
    requires InPlay(db, h)
  {
    var w := db.handoffs[h].workflow;
    && Passes(db, h, input) && input.verdict == Approve && db.workflows[w].phase + 1 < PhaseCount(db, w)
    && db.registry[db.workflows[w].kind].phases[db.workflows[w].phase + 1].initialStep == Execute
    && (input.head.None? || !IsSha(input.head.value))
  }

  predicate Finishes(db: Db, w: nat)
    requires w < |db.workflows| && RowStands(db, w)
  {
    if PhaseOf(db, w).repeats then db.workflows[w].claim else db.workflows[w].phase + 1 == PhaseCount(db, w)
  }

  predicate AtCap(db: Db, w: nat)
    requires w < |db.workflows| && RowStands(db, w)
  {
    PhaseOf(db, w).repeats && !db.workflows[w].claim && db.workflows[w].iteration + 1 >= PhaseOf(db, w).maxIterations
  }

  /** Why a verdict that neither continues nor passes halts the workflow. */
  function WhyHalted(db: Db, h: nat, input: VerdictInput): Reason
    requires InPlay(db, h)
  {
    var step, chain := db.handoffs[h].step, db.chains[db.handoffs[h].chain];
    if input.confidence < 0.5 then LowConfidence(input.reason)
    else if step == Review && input.verdict == Findings then MaxRoundsReached(chain.round, chain.maxRounds)
    else if input.verdict == Escalate || (step == Execute && input.verdict == ExecutionFail) then Given(input.reason)
    else IllegalStepVerdict(input.verdict)
  }

  // ------------------------------------------------------------ the answers

  /** Which of its answers a verdict gets, as an if and only if for each of them. */
  ghost predicate AnswersRight(db: Db, h: nat, input: VerdictInput)
    requires RefsOk(db)
  {
    var reply := ApplyVerdict(db, h, input).1;
    var replay := h < |db.handoffs| && db.handoffs[h].verdict.Some?;
    var judged := InPlay(db, h) && !LacksHead(db, h, input);
    && (reply == Ok(NoopAlreadyApplied) <==> replay)
    && (reply.Throw? <==> !replay && !judged)
    && (reply == Ok(ChainContinued) <==> judged && (SendsBack(db, h, input) || HandsOver(db, h, input)))
    && (reply == Ok(WorkflowDone) <==> judged && Passes(db, h, input) && Finishes(db, db.handoffs[h].workflow))
    && (reply == Ok(PhaseAdvanced) <==>
          judged && Passes(db, h, input) && !Finishes(db, db.handoffs[h].workflow) && !AtCap(db, db.handoffs[h].workflow))
    && (reply == Ok(WorkflowHalted) <==>
          judged && if Passes(db, h, input) then AtCap(db, db.handoffs[h].workflow)
                    else !SendsBack(db, h, input) && !HandsOver(db, h, input))
  }

  /** In a reachable state the one refusal left inside the transaction never strikes. */
  lemma RestartNeverThrows(db: Db, h: nat, input: VerdictInput, verdict: Verdict)
    requires Inv(db) && ExecuteOk(db) && InPlay(db, h) && !LacksHead(db, h, input) && Passes(db, h, input) && verdict == input.verdict
    ensures VerdictReady(db, h) && VerdictRefusal(db, h, input).None? && Advance(db, h, verdict, input.head).1.Ok?
  {
    assert StepFitsPhase(db, h);
    assert VerdictReady(db, h);
    assert VerdictRefusal(db, h, input).None?;
    EntryNeedsCommit(db, h, verdict, input);
    assert FlowOk(db, db.handoffs[h].workflow) && DefinitionOk(db.registry[db.workflows[db.handoffs[h].workflow].kind]);
  }

  lemma RefusedWhen(db: Db, h: nat, input: VerdictInput)
    requires Inv(db) && !(h < |db.handoffs| && db.handoffs[h].verdict.Some?)
    ensures VerdictRefusal(db, h, input).None? <==> InPlay(db, h) && !LacksHead(db, h, input)
  {
    if h < |db.handoffs| { assert FlowOk(db, db.handoffs[h].workflow); }
  }

  lemma PassAnswers(db: Db, h: nat, input: VerdictInput)
    requires Inv(db) && ExecuteOk(db) && InPlay(db, h) && !LacksHead(db, h, input) && Passes(db, h, input)
    ensures AnswersRight(db, h, input)
  {
    var w := db.handoffs[h].workflow;
    assert FlowOk(db, w);
    RefusedWhen(db, h, input);
    RestartNeverThrows(db, h, input, input.verdict);
    hide Inv, FlowOk, ExecuteOk, CloseOut, KickoffNext;
  }

  lemma OtherAnswers(db: Db, h: nat, input: VerdictInput)
    requires Inv(db) && InPlay(db, h) && !Passes(db, h, input)
    ensures AnswersRight(db, h, input)
  {
    RefusedWhen(db, h, input);
    hide Inv, FlowOk, CloseOut, Carry, Advance, DeliveredRow;
  }

  lemma RefusalAnswers(db: Db, h: nat, input: VerdictInput)
    requires Inv(db) && !(InPlay(db, h) && !LacksHead(db, h, input))
    ensures AnswersRight(db, h, input)
  {
    if !(h < |db.handoffs| && db.handoffs[h].verdict.Some?) { RefusedWhen(db, h, input); }
    hide Inv, FlowOk, Settle;
  }

  lemma AnswersInv(db: Db, h: nat, input: VerdictInput)
    requires Inv(db) && ExecuteOk(db)
    ensures AnswersRight(db, h, input)
  {
    hide Inv, ExecuteOk, AnswersRight;
    if !InPlay(db, h) || LacksHead(db, h, input) {
      RefusalAnswers(db, h, input);
    } else if Passes(db, h, input) {
      PassAnswers(db, h, input);
    } else {
      OtherAnswers(db, h, input);
    }
  }

  lemma ReachExecutes(steps: seq<Step>)
    ensures ExecuteOk(Reach(steps))
  {
    StartIsOk();
    RunExecutes(EmptyDb(REGISTRY), steps);
  }

  lemma VerdictAnswers(steps: seq<Step>, h: nat, input: VerdictInput)
    ensures AnswersRight(Reach(steps), h, input)
  {
    hide AnswersRight;
    ReachExecutes(steps);
    AnswersInv(Reach(steps), h, input);
  }

  // ------------------------------------------------------------ what is left

  /** Handoff h bears the verdict, on the handback it was given for; every other handoff is as it was. */
  ghost predicate OneJudged(db: Db, db': Db, h: nat, verdict: Verdict) {
    && h < |db.handoffs| <= |db'.handoffs|
    && db'.handoffs[h] == db.handoffs[h].(verdict := Some(verdict), judged := db.handoffs[h].handback)
    && forall g | 0 <= g < |db.handoffs| && g != h :: db'.handoffs[g] == db.handoffs[g]
  }

  /** A handoff of this run, chain, step and round, from one agent to the other, not yet accepted. */
  predicate Fresh(row: Handoff, w: nat, run: nat, step: HandoffStep, round: nat, sender: string, target: string) {
    row == Handoff(w, run, run, step, round, sender, target, Pending, None, None, None, None, None)
  }

  ghost predicate SameElse(db: Db, db': Db) {
    db'.registry == db.registry && db'.collabs == db.collabs
  }

  /** The chain goes on with one more handoff; no run and no other chain differs. */
  ghost predicate ChainGoesOn(db: Db, db': Db, h: nat, verdict: Verdict, step: HandoffStep, round: nat, sender: string, target: string) {
    var n := |db.handoffs|;
    && SameElse(db, db') && OneJudged(db, db', h, verdict) && |db'.handoffs| == n + 1
    && Fresh(db'.handoffs[n], db.handoffs[h].workflow, db.handoffs[h].chain, step, round, sender, target)
    && db'.runs == db.runs && |db'.chains| == |db.chains|
    && (forall c | 0 <= c < |db.chains| ::
          db'.chains[c] == if c == db.handoffs[h].chain then db.chains[c].(round := round) else db.chains[c])
  }

  /** The run and its chain are closed; every other run and chain is as it was. */
  ghost predicate RunClosed(db: Db, db': Db, r: nat, outcome: Outcome, status: ChainStatus) {
    && r < |db.runs| <= |db'.runs| && |db.runs| == |db.chains| <= |db'.chains|
    && (forall q | 0 <= q < |db.runs| ::
          && db'.runs[q] == (if q == r then db.runs[q].(outcome := Some(outcome)) else db.runs[q])
          && db'.chains[q] == if q == r then db.chains[q].(status := status) else db.chains[q])
  }

  /** Only w's row differs. */
  ghost predicate OneRow(db: Db, db': Db, w: nat, row: Workflow) {
    && |db'.workflows| == |db.workflows| && w < |db.workflows| && db'.workflows[w] == row
    && forall v | 0 <= v < |db.workflows| && v != w :: db'.workflows[v] == db.workflows[v]
  }

  /** A chain, a run and its first handoff are appended, for the phase at the row's index. */
  ghost predicate NextRun(db: Db, db': Db, w: nat, index: nat, phase: Phase)
    requires w < |db'.workflows|
  {
    var wf, r, n := db'.workflows[w], |db.runs|, |db.handoffs|;
    && |db'.runs| == |db'.chains| == r + 1 && |db'.handoffs| == n + 1
    && db'.runs[r] == PhaseRun(w, index, r, None)
    && db'.chains[r] == Chain(wf.collab, Active, 1, phase.maxRounds)
    && (if phase.initialStep == Review then Fresh(db'.handoffs[n], w, r, Review, 1, wf.implementer, wf.reviewer)
        else Fresh(db'.handoffs[n], w, r, phase.initialStep, 1, wf.reviewer, wf.implementer))
  }

  lemma CarryIs(db: Db, h: nat, verdict: Verdict, row: Workflow, step: HandoffStep, newRound: bool)
    requires RefsOk(db) && h < |db.handoffs|
    ensures var db' := Carry(db, h, verdict, row, step, newRound);
      var w, c := db.handoffs[h].workflow, db.handoffs[h].chain; var wf := db.workflows[w];
      && OneRow(db, db', w, row)
      && ChainGoesOn(db, db', h, verdict, step, if newRound then db.chains[c].round + 1 else db.chains[c].round,
                     if step == Review then wf.implementer else wf.reviewer, if step == Review then wf.reviewer else wf.implementer)
  {
  }

  lemma GoesOn(db: Db, h: nat, input: VerdictInput)
    requires Inv(db) && InPlay(db, h) && (SendsBack(db, h, input) || HandsOver(db, h, input))
    ensures VerdictReady(db, h)
    ensures ApplyVerdict(db, h, input).1 == Ok(ChainContinued)
    ensures ApplyVerdict(db, h, input).0
         == if SendsBack(db, h, input) then Carry(db, h, Findings, db.workflows[db.handoffs[h].workflow], Fix, false)
            else Carry(db, h, Delivered, DeliveredRow(db, h), Review, true)
  {
    RefusedWhen(db, h, input);
    hide Inv, FlowOk, Carry, DeliveredRow, Advance, CloseOut;
  }

  /**
   * A findings verdict sends the work back: the workflow's row and its active chain stay as they are, and the chain
   * gets exactly one more handoff, a fix in the same round from the reviewer to the implementer.
   */
  ghost predicate SentBack(db: Db, h: nat, input: VerdictInput)
    requires RefsOk(db)
  {
    var (db', reply) := ApplyVerdict(db, h, input);
    InPlay(db, h) && SendsBack(db, h, input) ==>
      && reply == Ok(ChainContinued) && db'.workflows == db.workflows && db'.chains == db.chains
      && var wf := db.workflows[db.handoffs[h].workflow];
         ChainGoesOn(db, db', h, Findings, Fix, db.chains[db.handoffs[h].chain].round, wf.reviewer, wf.implementer)
  }

  lemma FindingsSendBack(steps: seq<Step>, h: nat, input: VerdictInput)
    ensures SentBack(Reach(steps), h, input)
  {
    var db := Reach(steps);
    if InPlay(db, h) && SendsBack(db, h, input) {
      var row := db.workflows[db.handoffs[h].workflow];
      GoesOn(db, h, input);
      hide FlowOk, ApplyVerdict, Carry;
      CarryIs(db, h, Findings, row, Fix, false);
      var db' := Carry(db, h, Findings, row, Fix, false);
      assert db'.workflows == db.workflows && db'.chains == db.chains;
    }
  }

  /**
   * A delivery goes to the reviewer: one more handoff in the chain, a review in the next round. The row changes in
   * nothing but the completion claim, and in that only where the phase loops: it is what the handback says.
   */
  ghost predicate HandedOver(db: Db, h: nat, input: VerdictInput)
    requires RefsOk(db)
  {
    var (db', reply) := ApplyVerdict(db, h, input);
    InPlay(db, h) && HandsOver(db, h, input) ==>
      && reply == Ok(ChainContinued)
      && var w := db.handoffs[h].workflow; var wf := db.workflows[w];
         && OneRow(db, db', w, if PhaseOf(db, w).repeats then wf.(claim := ClaimsGoal(db.handoffs[h].handback.GetOr(""))) else wf)
         && ChainGoesOn(db, db', h, Delivered, Review, db.chains[db.handoffs[h].chain].round + 1, wf.implementer, wf.reviewer)
  }

  lemma DeliveryGoesToReview(steps: seq<Step>, h: nat, input: VerdictInput)
    ensures HandedOver(Reach(steps), h, input)
  {
    var db := Reach(steps);
    if InPlay(db, h) && HandsOver(db, h, input) {
      GoesOn(db, h, input);
      hide FlowOk, ApplyVerdict, Carry, ClaimsGoal;
      CarryIs(db, h, Delivered, DeliveredRow(db, h), Review, true);
    }
  }

  /** The verdict that is recorded when the workflow halts: an execution's failure as it is, all else as an escalation. */
  function RecordedAs(db: Db, h: nat, input: VerdictInput): Verdict
    requires InPlay(db, h)
  {
    if db.handoffs[h].step == Execute && input.verdict == ExecutionFail && input.confidence >= 0.5 then ExecutionFail else Escalate
  }

  /**
   * A verdict that halts without passing: the reason is in the row, the run is closed as escalated and its chain with
   * it, and nothing is handed on.
   */
  ghost predicate HaltedFor(db: Db, h: nat, input: VerdictInput)
    requires RefsOk(db)
  {
    var (db', reply) := ApplyVerdict(db, h, input);
    reply == Ok(WorkflowHalted) && InPlay(db, h) && !Passes(db, h, input) ==>
      && SameElse(db, db') && |db'.handoffs| == |db.handoffs| && |db'.runs| == |db'.chains| == |db.runs|
      && OneJudged(db, db', h, RecordedAs(db, h, input))
      && RunClosed(db, db', db.handoffs[h].run, PhaseEscalated, Escalated)
      && var w := db.handoffs[h].workflow;
         OneRow(db, db', w, db.workflows[w].(status := Status.Halted, haltReason := Some(WhyHalted(db, h, input))))
  }

  lemma CloseOutIs(db: Db, h: nat, verdict: Verdict, outcome: Outcome, status: ChainStatus, row: Workflow)
    requires RefsOk(db) && h < |db.handoffs|
    ensures var db' := CloseOut(db, h, verdict, outcome, status, row);
      && SameElse(db, db') && |db'.handoffs| == |db.handoffs| && |db'.runs| == |db'.chains| == |db.runs|
      && OneJudged(db, db', h, verdict) && RunClosed(db, db', db.handoffs[h].run, outcome, status)
      && OneRow(db, db', db.handoffs[h].workflow, row)
  {
  }

  lemma HaltIsCloseOut(db: Db, h: nat, input: VerdictInput)
    requires Inv(db) && InPlay(db, h) && !Passes(db, h, input) && !SendsBack(db, h, input) && !HandsOver(db, h, input)
    ensures var wf := db.workflows[db.handoffs[h].workflow];
      ApplyVerdict(db, h, input).0 == CloseOut(db, h, RecordedAs(db, h, input), PhaseEscalated, Escalated,
                                               wf.(status := Status.Halted, haltReason := Some(WhyHalted(db, h, input))))
  {
    RefusedWhen(db, h, input);
    hide FlowOk, CloseOut, Advance, Carry;
  }

  lemma HaltSaysWhy(steps: seq<Step>, h: nat, input: VerdictInput)
    ensures HaltedFor(Reach(steps), h, input)
  {
    var db := Reach(steps);
    ReachExecutes(steps);
    AnswersInv(db, h, input);
    if ApplyVerdict(db, h, input).1 == Ok(WorkflowHalted) && InPlay(db, h) && !Passes(db, h, input) {
      var wf := db.workflows[db.handoffs[h].workflow];
      HaltIsCloseOut(db, h, input);
      hide FlowOk, ExecuteOk, CloseOut, ApplyVerdict, Passes, SendsBack, HandsOver;
      CloseOutIs(db, h, RecordedAs(db, h, input), PhaseEscalated, Escalated,
                 wf.(status := Status.Halted, haltReason := Some(WhyHalted(db, h, input))));
    }
  }

  /** A passing verdict that nothing follows closes the run as done; the row ends as done, or halts at the cap. */
  ghost predicate Closed(db: Db, h: nat, input: VerdictInput)
    requires RefsOk(db)
  {
    var (db', reply) := ApplyVerdict(db, h, input);
    InPlay(db, h) && Passes(db, h, input) && (reply == Ok(WorkflowDone) || reply == Ok(WorkflowHalted)) ==>
      && SameElse(db, db') && |db'.handoffs| == |db.handoffs| && |db'.runs| == |db'.chains| == |db.runs|
      && OneJudged(db, db', h, input.verdict) && RunClosed(db, db', db.handoffs[h].run, PhaseDone, Resolved)
      && var w := db.handoffs[h].workflow; var wf := db.workflows[w];
         OneRow(db, db', w,
                if reply == Ok(WorkflowDone) then wf.(status := Done, haltReason := None)
                else wf.(status := Status.Halted, haltReason := Some(IterationCap(PhaseOf(db, w).maxIterations))))
  }

  lemma PassIsAdvance(db: Db, h: nat, input: VerdictInput)
    requires Inv(db) && ExecuteOk(db) && InPlay(db, h) && Passes(db, h, input) && !LacksHead(db, h, input)
    ensures VerdictReady(db, h) && ApplyVerdict(db, h, input) == Advance(db, h, input.verdict, input.head)
  {
    RefusedWhen(db, h, input);
    RestartNeverThrows(db, h, input, input.verdict);
    hide FlowOk, ExecuteOk, CloseOut, Advance, Carry;
  }

  lemma PassCloses(steps: seq<Step>, h: nat, input: VerdictInput)
    ensures Closed(Reach(steps), h, input)
  {
    var db := Reach(steps);
    ReachExecutes(steps);
    AnswersInv(db, h, input);
    var reply := ApplyVerdict(db, h, input).1;
    if InPlay(db, h) && Passes(db, h, input) && (reply == Ok(WorkflowDone) || reply == Ok(WorkflowHalted)) {
      var w := db.handoffs[h].workflow;
      PassIsAdvance(db, h, input);
      hide FlowOk, ExecuteOk, ApplyVerdict, CloseOut;
      CloseOutIs(db, h, input.verdict, PhaseDone, Resolved, MoveOf(db, w).row);
    }
  }

  /** The row after an advance: the next iteration, or the next phase, whose base is the given head if it executes. */
  function AdvancedRow(db: Db, w: nat, head: Option<string>): Workflow
    requires w < |db.workflows| && RowStands(db, w) && (PhaseOf(db, w).repeats || db.workflows[w].phase + 1 < PhaseCount(db, w))
  {
    var wf := db.workflows[w];
    if PhaseOf(db, w).repeats then wf.(iteration := wf.iteration + 1)
    else
      var next := db.registry[wf.kind].phases[wf.phase + 1];
      wf.(phase := wf.phase + 1, base := if next.initialStep == Execute then head else wf.base)
  }

  /** A verdict that advances closes the run and begins the next: one chain in round 1, one open run, one handoff. */
  ghost predicate BegunNext(db: Db, h: nat, input: VerdictInput)
    requires RefsOk(db)
  {
    var (db', reply) := ApplyVerdict(db, h, input);
    reply == Ok(PhaseAdvanced) ==>
      && InPlay(db, h) && SameElse(db, db') && OneJudged(db, db', h, input.verdict)
      && RunClosed(db, db', db.handoffs[h].run, PhaseDone, Resolved)
      && var w := db.handoffs[h].workflow;
         && (PhaseOf(db, w).repeats || db.workflows[w].phase + 1 < PhaseCount(db, w))
         && var row := AdvancedRow(db, w, input.head);
            && OneRow(db, db', w, row) && row.phase < PhaseCount(db, w)
            && NextRun(db, db', w, row.phase, db.registry[row.kind].phases[row.phase])
  }

  lemma AdvanceBeginsNext(steps: seq<Step>, h: nat, input: VerdictInput)
    ensures BegunNext(Reach(steps), h, input)
  {
    ReachExecutes(steps);
    AdvancedToNext(Reach(steps), h, input);
  }

  lemma AdvanceIsRestart(db: Db, h: nat, input: VerdictInput)
    requires Inv(db) && ExecuteOk(db) && ApplyVerdict(db, h, input).1 == Ok(PhaseAdvanced)
    ensures InPlay(db, h) && VerdictReady(db, h)
    ensures var w := db.handoffs[h].workflow; var wf := db.workflows[w];
      && (PhaseOf(db, w).repeats ==> PhaseOf(db, w).initialStep != Execute)
      && (PhaseOf(db, w).repeats || wf.phase + 1 < PhaseCount(db, w))
      && var row := if PhaseOf(db, w).repeats then wf.(iteration := wf.iteration + 1) else wf.(phase := wf.phase + 1);
         row.phase < |Phases(db, w)| && ApplyVerdict(db, h, input) == Restart(db, h, input.verdict, row, input.head)
  {
    AnswersInv(db, h, input);
    PassIsAdvance(db, h, input);
    var w := db.handoffs[h].workflow;
    assert FlowOk(db, w) && DefinitionOk(db.registry[db.workflows[w].kind]);
    hide FlowOk, ExecuteOk, ApplyVerdict, CloseOut, Restart;
  }

  lemma RestartIs(db: Db, h: nat, verdict: Verdict, row: Workflow, head: Option<string>)
    requires RefsOk(db) && VerdictReady(db, h) && row.phase < |Phases(db, db.handoffs[h].workflow)|
    requires row.kind == db.workflows[db.handoffs[h].workflow].kind && Restart(db, h, verdict, row, head).1.Ok?
    ensures var db' := Restart(db, h, verdict, row, head).0;
      var w := db.handoffs[h].workflow; var phase := Phases(db, w)[row.phase];
      && SameElse(db, db') && OneJudged(db, db', h, verdict) && RunClosed(db, db', db.handoffs[h].run, PhaseDone, Resolved)
      && OneRow(db, db', w, if phase.initialStep == Execute then row.(base := head) else row)
      && NextRun(db, db', w, row.phase, phase)
  {
    hide CloseOut;
    CloseOutIs(db, h, verdict, PhaseDone, Resolved, row);
  }

  lemma AdvancedToNext(db: Db, h: nat, input: VerdictInput)
    requires Inv(db) && ExecuteOk(db)
    ensures BegunNext(db, h, input)
  {
    if ApplyVerdict(db, h, input).1 == Ok(PhaseAdvanced) {
      AdvanceIsRestart(db, h, input);
      hide FlowOk, ExecuteOk, ApplyVerdict, Restart;
      var w := db.handoffs[h].workflow;
      var wf := db.workflows[w];
      var row := if PhaseOf(db, w).repeats then wf.(iteration := wf.iteration + 1) else wf.(phase := wf.phase + 1);
      RestartIs(db, h, input.verdict, row, input.head);
    }
  }

  /** The first of the guards that fails. */
  function WhyRefused(db: Db, h: nat): Error {
    if h >= |db.handoffs| then NotWorkflowOwned
    else
      var w := db.handoffs[h].workflow;
      if w >= |db.workflows| then UnknownWorkflow
      else if db.workflows[w].status != Running then WrongStatus(db.workflows[w].status)
      else if db.handoffs[h].chain >= |db.chains| || db.chains[db.handoffs[h].chain].status != Active then ChainNotActive
      else HeadRequired
  }

  /** A refusal or a replay changes nothing, and a refusal says why. */
  lemma RefusalChangesNothing(steps: seq<Step>, h: nat, input: VerdictInput)
    ensures var db := Reach(steps); var (db', reply) := ApplyVerdict(db, h, input);
      && (reply.Throw? || reply == Ok(NoopAlreadyApplied) ==> db' == db)
      && (reply.Throw? ==> reply.error == WhyRefused(db, h))
  {
    ReachExecutes(steps);
    RefusedUnchanged(Reach(steps), h, input);
  }

  lemma RefusedUnchanged(db: Db, h: nat, input: VerdictInput)
    requires Inv(db) && ExecuteOk(db)
    ensures var (db', reply) := ApplyVerdict(db, h, input);
      && (reply.Throw? || reply == Ok(NoopAlreadyApplied) ==> db' == db)
      && (reply.Throw? ==> reply.error == WhyRefused(db, h))
  {
    AnswersInv(db, h, input);
    if h < |db.handoffs| { assert FlowOk(db, db.handoffs[h].workflow); }
    if !(h < |db.handoffs| && db.handoffs[h].verdict.Some?) {
      RefusedWhen(db, h, input);
    }
  }
}
