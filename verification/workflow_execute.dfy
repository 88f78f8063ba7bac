/** Execute phases: only an approving review enters one, and it records a commit hash as the base to execute from. */
module WorkflowExecute {
  import opened Wrappers
  import opened Registry
  import opened WorkflowTables
  import opened WorkflowSteps
  import opened WorkflowFrames
  import opened WorkflowSafety
  import opened WorkflowHistory
  import opened WorkflowRuns

  /** A handoff asks for execution only in a run of a phase that starts with execution. */
  ghost predicate StepFitsPhase(db: Db, h: nat)
    requires RefsOk(db) && h < |db.handoffs|
  {
    var w := db.handoffs[h].workflow;
    var j := db.runs[db.handoffs[h].run].phase;
    db.handoffs[h].step == Execute ==>
      w < |db.workflows| && KnownKind(db, w) && j < |Phases(db, w)| && Phases(db, w)[j].initialStep == Execute
  }

  ghost predicate StepsFitFrom(db: Db, n: nat)
    requires RefsOk(db)
  {
    forall h | n <= h < |db.handoffs| :: StepFitsPhase(db, h)
  }

  /** A workflow that stands at an execute phase has a commit hash to execute from. */
  ghost predicate ExecutesFromCommit(db: Db, w: nat) {
    RowOk(db, w) && Phases(db, w)[db.workflows[w].phase].initialStep == Execute ==>
      db.workflows[w].base.Some? && IsSha(db.workflows[w].base.value)
  }

  ghost predicate ExecuteOk(db: Db)
    requires RefsOk(db)
  {
    StepsFitFrom(db, 0) && forall w | 0 <= w < |db.workflows| :: ExecutesFromCommit(db, w)
  }

  // ------------------------------------------------------------ handoffs

  lemma RestartFits(db: Db, h: nat, verdict: Verdict, row: Workflow, head: Option<string>)
    requires RefsOk(db) && VerdictReady(db, h) && row.phase < |Phases(db, db.handoffs[h].workflow)|
    requires RefsOk(Restart(db, h, verdict, row, head).0) && row.kind == db.workflows[db.handoffs[h].workflow].kind
    ensures StepsFitFrom(Restart(db, h, verdict, row, head).0, |db.handoffs|)
  {
  }

  lemma AdvanceFits(db: Db, h: nat, verdict: Verdict, head: Option<string>)
    requires RefsOk(db) && VerdictReady(db, h) && RefsOk(Advance(db, h, verdict, head).0)
    ensures StepsFitFrom(Advance(db, h, verdict, head).0, |db.handoffs|)
  {
    hide Restart, RefsOk, StepFitsPhase;
    match MoveOf(db, db.handoffs[h].workflow)
    case Stop(_, _) =>
    case StartAgain(row) => RestartFits(db, h, verdict, row, head);
  }

  lemma SettleFits(db: Db, h: nat, input: VerdictInput)
    requires RefsOk(db) && VerdictReady(db, h) && RefsOk(Settle(db, h, input).0)
    ensures StepsFitFrom(Settle(db, h, input).0, |db.handoffs|)
  {
    var row := db.handoffs[h];
    var chain := db.chains[row.chain];
    var (verdict, _) := NormalizeVerdict(row.step, input.verdict, input.confidence, chain.round, chain.maxRounds, input.reason);
    if verdict == Approve || verdict == ExecutionPass { AdvanceFits(db, h, verdict, input.head); }
  }

  lemma KickoffFits(db: Db, w: nat, head: Option<string>, setupOk: bool)
    requires RefsOk(db) && RefsOk(Kickoff(db, w, head, setupOk))
    ensures StepsFitFrom(Kickoff(db, w, head, setupOk), |db.handoffs|)
  {
  }

  lemma VerdictFits(db: Db, h: nat, input: VerdictInput)
    requires RefsOk(db) && RefsOk(ApplyVerdict(db, h, input).0)
    ensures StepsFitFrom(ApplyVerdict(db, h, input).0, |db.handoffs|)
  {
    if h < |db.handoffs| && db.handoffs[h].verdict.None? && VerdictRefusal(db, h, input).None? { SettleFits(db, h, input); }
  }

  lemma NoticeFits(db: Db, h: nat, why: string)
    requires RefsOk(db) && RefsOk(EscalateNotice(db, h, why).0)
    ensures StepsFitFrom(EscalateNotice(db, h, why).0, |db.handoffs|)
  {
    var input := VerdictInput(Escalate, 1.0, why, None);
    if h < |db.handoffs| && db.handoffs[h].verdict.None? && VerdictRefusal(db, h, input).None? && db.handoffs[h].status == Accepted {
      SettleFits(WithHandoff(db, h, db.handoffs[h].(status := Failed)), h, input);
    }
  }

  lemma NextFitsNew(db: Db, step: Step)
    requires RefsOk(db) && RefsOk(Next(db, step))
    ensures StepsFitFrom(Next(db, step), |db.handoffs|)
  {
    hide Kickoff, ApplyVerdict, EscalateNotice, StepFitsPhase, RefsOk;
    match step
    case StartPhase(w, head, setupOk) => KickoffFits(db, w, head, setupOk);
    case GiveVerdict(h, input) => VerdictFits(db, h, input);
    case NoticeEscalation(h, why) => NoticeFits(db, h, why);
    case _ =>
  }

  lemma StepFitStays(db: Db, db': Db, h: nat)
    requires RefsOk(db) && RefsOk(db') && StepEffect(db, db') && h < |db.handoffs| && StepFitsPhase(db, h)
    ensures h < |db'.handoffs| && StepFitsPhase(db', h)
  {
    assert SameHandoffKeys(db.handoffs[h], db'.handoffs[h]);
    assert SameRunKeys(db.runs[db.handoffs[h].run], db'.runs[db.handoffs[h].run]);
    assert RowStep(db.workflows[db.handoffs[h].workflow], db'.workflows[db.handoffs[h].workflow]);
  }

  // ------------------------------------------------------------ bases

  /** Advancing onto an execute phase is the work of an approve, which was refused unless its head is a commit hash. */
  lemma EntryNeedsCommit(db: Db, h: nat, verdict: Verdict, input: VerdictInput)
    requires Inv(db) && h < |db.handoffs| && db.handoffs[h].verdict.None? && VerdictRefusal(db, h, input).None?
    requires VerdictReady(db, h) && StepFitsPhase(db, h)
    requires var row := db.handoffs[h]; var chain := db.chains[row.chain];
      NormalizeVerdict(row.step, input.verdict, input.confidence, chain.round, chain.maxRounds, input.reason).0 == verdict
    requires verdict == Approve || verdict == ExecutionPass
    ensures var w := db.handoffs[h].workflow; var move := MoveOf(db, w);
      && (Phases(db, w)[db.workflows[w].phase].repeats ==> Phases(db, w)[db.workflows[w].phase].initialStep != Execute)
      && (move.StartAgain? && move.row.phase != db.workflows[w].phase && Phases(db, w)[move.row.phase].initialStep == Execute ==>
            input.head.Some? && IsSha(input.head.value))
  {
    var w := db.handoffs[h].workflow;
    assert FlowOk(db, w) && DefinitionOk(db.registry[db.workflows[w].kind]);
    assert OpenRunOf(db, w, db.handoffs[h].run);
    var here := Phases(db, w)[db.workflows[w].phase];
    assert verdict == ExecutionPass ==> here.initialStep == Execute;
  }

  lemma AdvanceWritesCommit(db: Db, h: nat, verdict: Verdict, head: Option<string>)
    requires RefsOk(db) && VerdictReady(db, h) && ExecutesFromCommit(db, db.handoffs[h].workflow)
    requires var w := db.handoffs[h].workflow; var move := MoveOf(db, w);
      && (Phases(db, w)[db.workflows[w].phase].repeats ==> Phases(db, w)[db.workflows[w].phase].initialStep != Execute)
      && (move.StartAgain? && move.row.phase != db.workflows[w].phase && Phases(db, w)[move.row.phase].initialStep == Execute ==>
            head.Some? && IsSha(head.value))
    ensures ExecutesFromCommit(Advance(db, h, verdict, head).0, db.handoffs[h].workflow)
  {
  }

  lemma SettleWritesCommit(db: Db, h: nat, input: VerdictInput)
    requires Inv(db) && h < |db.handoffs| && db.handoffs[h].verdict.None? && VerdictRefusal(db, h, input).None?
    requires VerdictReady(db, h) && StepFitsPhase(db, h) && RefsOk(Settle(db, h, input).0)
    requires ExecutesFromCommit(db, db.handoffs[h].workflow)
    ensures ExecutesFromCommit(Settle(db, h, input).0, db.handoffs[h].workflow)
  {
    var row := db.handoffs[h];
    var chain := db.chains[row.chain];
    var (verdict, _) := NormalizeVerdict(row.step, input.verdict, input.confidence, chain.round, chain.maxRounds, input.reason);
    if verdict == Approve || verdict == ExecutionPass {
      EntryNeedsCommit(db, h, verdict, input);
      AdvanceWritesCommit(db, h, verdict, input.head);
    }
  }

  /** Every row that was there keeps its index, or is the judged handoff's workflow. */
  ghost predicate OnlyMoves(db: Db, db': Db, w: Option<nat>) {
    && |db.workflows| == |db'.workflows|
    && forall v | 0 <= v < |db.workflows| && Some(v) != w :: db'.workflows[v].phase == db.workflows[v].phase
  }

  lemma SettleOnlyMoves(db: Db, h: nat, input: VerdictInput)
    requires RefsOk(db) && VerdictReady(db, h)
    ensures OnlyMoves(db, Settle(db, h, input).0, Some(db.handoffs[h].workflow))
  {
  }

  lemma StandingCommit(db: Db, db': Db, w: nat)
    requires w < |db.workflows| && w < |db'.workflows| && db'.registry == db.registry && RowStep(db.workflows[w], db'.workflows[w])
    requires db'.workflows[w].phase == db.workflows[w].phase && ExecutesFromCommit(db, w)
    ensures ExecutesFromCommit(db', w)
  {
  }

  lemma VerdictCommits(db: Db, h: nat, input: VerdictInput, w: nat)
    requires Inv(db) && ExecuteOk(db) && w < |db.workflows|
    ensures w < |ApplyVerdict(db, h, input).0.workflows| && ExecutesFromCommit(ApplyVerdict(db, h, input).0, w)
  {
    if h < |db.handoffs| && db.handoffs[h].verdict.None? && VerdictRefusal(db, h, input).None? {
      SettleKeepsInv(db, h, input);
      SettleEffect(db, h, input);
      SettleOnlyMoves(db, h, input);
      if db.handoffs[h].workflow == w {
        assert StepFitsPhase(db, h);
        SettleWritesCommit(db, h, input);
      } else {
        StandingCommit(db, Settle(db, h, input).0, w);
      }
    }
  }

  lemma NoticeCommits(db: Db, h: nat, why: string, w: nat)
    requires Inv(db) && ExecuteOk(db) && w < |db.workflows|
    ensures w < |EscalateNotice(db, h, why).0.workflows| && ExecutesFromCommit(EscalateNotice(db, h, why).0, w)
  {
    NoticeEffect(db, h, why);
    assert EscalateNotice(db, h, why).0.workflows[w].phase == db.workflows[w].phase;
    StandingCommit(db, EscalateNotice(db, h, why).0, w);
  }

  lemma OtherCommits(db: Db, step: Step, w: nat)
    requires Inv(db) && ExecuteOk(db) && w < |db.workflows| && !step.GiveVerdict? && !step.NoticeEscalation?
    ensures w < |Next(db, step).workflows| && ExecutesFromCommit(Next(db, step), w)
  {
    NextEffect(db, step);
    assert RowStep(db.workflows[w], Next(db, step).workflows[w]);
    assert Next(db, step).workflows[w].phase == db.workflows[w].phase;
    StandingCommit(db, Next(db, step), w);
  }

  lemma NextCommits(db: Db, step: Step, w: nat)
    requires Inv(db) && ExecuteOk(db) && w < |Next(db, step).workflows|
    ensures ExecutesFromCommit(Next(db, step), w)
  {
    hide ApplyVerdict, EscalateNotice, ExecutesFromCommit, ExecuteOk, Kickoff, CreateWorkflow, FlowOk, RefsOk, OneLive;
    if w < |db.workflows| {
      match step
      case GiveVerdict(h, input) => VerdictCommits(db, h, input, w);
      case NoticeEscalation(h, why) => NoticeCommits(db, h, why, w);
      case _ => OtherCommits(db, step, w);
    } else {
      match step
      case Create(collab, kind, implementer, reviewer) => CreatedCommits(db, collab, kind, implementer, reviewer, w);
      case _ => OnlyCreateAdds(db, step);
    }
  }

  /** A created workflow stands at its first phase, and that is no execute phase. */
  lemma CreatedCommits(db: Db, collab: string, kind: string, implementer: string, reviewer: string, w: nat)
    requires RegistryOk(db)
    ensures var db' := CreateWorkflow(db, collab, kind, implementer, reviewer).0;
      |db.workflows| <= w < |db'.workflows| ==> ExecutesFromCommit(db', w)
  {
    if kind in db.registry { assert DefinitionOk(db.registry[kind]); }
  }

  lemma VerdictAddsNoRow(db: Db, h: nat, input: VerdictInput)
    requires RefsOk(db)
    ensures |ApplyVerdict(db, h, input).0.workflows| == |db.workflows|
  {
    hide Settle, RefsOk;
    if h < |db.handoffs| && db.handoffs[h].verdict.None? && VerdictRefusal(db, h, input).None? { SettleOnlyMoves(db, h, input); }
  }

  lemma NoticeAddsNoRow(db: Db, h: nat, why: string)
    requires RefsOk(db)
    ensures |EscalateNotice(db, h, why).0.workflows| == |db.workflows|
  {
    hide Settle;
    var input := VerdictInput(Escalate, 1.0, why, None);
    if h < |db.handoffs| && db.handoffs[h].verdict.None? && VerdictRefusal(db, h, input).None? && db.handoffs[h].status == Accepted {
      SettleOnlyMoves(db.(handoffs := db.handoffs[h := db.handoffs[h].(status := Failed)]), h, input);
    }
  }

  lemma OnlyCreateAdds(db: Db, step: Step)
    requires RefsOk(db) && !step.Create?
    ensures |Next(db, step).workflows| == |db.workflows|
  {
    hide RefsOk, ApplyVerdict, EscalateNotice;
    match step
    case GiveVerdict(h, input) => VerdictAddsNoRow(db, h, input);
    case NoticeEscalation(h, why) => NoticeAddsNoRow(db, h, why);
    case _ =>
  }

  // ------------------------------------------------------------ whole runs

  lemma NextExecutes(db: Db, step: Step)
    requires Inv(db) && ExecuteOk(db)
    ensures Inv(Next(db, step)) && ExecuteOk(Next(db, step))
  {
    hide Next, Inv, ExecutesFromCommit, StepFitsPhase;
    InvRefs(db);
    var db' := Next(db, step);
    NextKeepsInv(db, step);
    NextEffect(db, step);
    InvRefs(db');
    NextFitsNew(db, step);
    forall h | 0 <= h < |db.handoffs| ensures StepFitsPhase(db', h) { StepFitStays(db, db', h); }
    forall w | 0 <= w < |db'.workflows| ensures ExecutesFromCommit(db', w) { NextCommits(db, step, w); }
  }

  lemma InvRefs(db: Db)
    requires Inv(db)
    ensures RefsOk(db)
  {
  }

  lemma {:induction false} RunExecutes(db: Db, steps: seq<Step>)
    requires Inv(db) && ExecuteOk(db)
    ensures ExecuteOk(Run(db, steps))
    decreases |steps|
  {
    if steps == [] {
    } else {
      NextExecutes(db, steps[0]);
      RunExecutes(Next(db, steps[0]), steps[1..]);
    }
  }

  /**
   * In every reachable state a workflow that stands at an execute phase has a commit hash as its base, and a handoff
   * that asks for execution belongs to a run of such a phase.
   */
  lemma ExecuteFromCommit(steps: seq<Step>, w: nat, h: nat)
    ensures var db := Reach(steps);
      && (w < |db.workflows| ==>
            && RowOk(db, w)
            && (Phases(db, w)[db.workflows[w].phase].initialStep == Execute ==>
                  db.workflows[w].base.Some? && IsSha(db.workflows[w].base.value)))
      && (h < |db.handoffs| && db.handoffs[h].step == Execute ==>
            && db.handoffs[h].run < |db.runs| && RowOk(db, db.handoffs[h].workflow)
            && db.runs[db.handoffs[h].run].phase < |Phases(db, db.handoffs[h].workflow)|
            && Phases(db, db.handoffs[h].workflow)[db.runs[db.handoffs[h].run].phase].initialStep == Execute)
  {
    var db := Reach(steps);
    StartIsOk();
    RunExecutes(EmptyDb(REGISTRY), steps);
    if w < |db.workflows| { assert FlowOk(db, w) && ExecutesFromCommit(db, w); }
    if h < |db.handoffs| { assert FlowOk(db, db.handoffs[h].workflow) && StepFitsPhase(db, h); }
  }
}
