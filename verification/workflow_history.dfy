/** What holds over whole runs of the engine, from the empty tables and the real registry on. */
module WorkflowHistory {
  import opened Wrappers
  import opened Registry
  import opened WorkflowTables
  import opened WorkflowSteps
  import opened WorkflowFrames
  import opened WorkflowSafety

  // ------------------------------------------------------------ one step

  /** What a step may do to a workflow's row. */
  predicate RowStep(a: Workflow, b: Workflow) {
    && SameIdentity(a, b)
    && a.phase <= b.phase <= a.phase + 1
    && (a.Terminal() ==> b == a)
    && (a.base.Some? ==> b.base == a.base)
  }

  ghost predicate StepEffect(db: Db, db': Db) {
    && db'.registry == db.registry
    && RowsStep(db, db')
    && Records(db, db')
  }

  ghost predicate RowsStep(db: Db, db': Db) {
    && |db.workflows| <= |db'.workflows|
    && (forall w | 0 <= w < |db.workflows| :: RowStep(db.workflows[w], db'.workflows[w]))
  }

  lemma RecordsTrans(a: Db, b: Db, c: Db)
    requires Records(a, b) && Records(b, c)
    ensures Records(a, c)
  {
  }

  lemma JudgeRecords(db: Db, h: nat, verdict: Verdict)
    requires h < |db.handoffs| && db.handoffs[h].verdict.None?
    ensures Records(db, Judge(db, h, verdict))
  {
  }

  lemma CloseOutRecords(db: Db, w: nat, h: nat, verdict: Verdict, outcome: Outcome, status: ChainStatus, row: Workflow)
    requires RefsOk(db) && FlowCore(db, w) && Baton(db, w, h)
    ensures Records(db, CloseOut(db, h, verdict, outcome, status, row))
  {
    assert OpenRunOf(db, w, db.handoffs[h].run);
    JudgeRecords(db, h, verdict);
    RecordsTrans(db, Judge(db, h, verdict), CloseOut(db, h, verdict, outcome, status, row));
  }

  lemma CarryRecords(db: Db, w: nat, h: nat, verdict: Verdict, row: Workflow, step: HandoffStep, newRound: bool)
    requires RefsOk(db) && w < |db.workflows| && Baton(db, w, h)
    ensures Records(db, Carry(db, h, verdict, row, step, newRound))
  {
    JudgeRecords(db, h, verdict);
    RecordsTrans(db, Judge(db, h, verdict), Carry(db, h, verdict, row, step, newRound));
  }

  /** The base is written at most once: nothing before an execute phase sets it, and a seeded kickoff inherits it. */
  lemma NoBaseBeforeExecute(db: Db, w: nat, j: nat)
    requires Inv(db) && RowOk(db, w) && db.workflows[w].phase < j < |Phases(db, w)|
    requires Phases(db, w)[j].initialStep == Execute
    ensures db.workflows[w].base.None?
  {
    assert FlowOk(db, w) && DefinitionOk(db.registry[db.workflows[w].kind]);
  }

  lemma KickoffEffect(db: Db, w: nat, head: Option<string>, setupOk: bool)
    requires Inv(db)
    ensures StepEffect(db, Kickoff(db, w, head, setupOk))
  {
    if w < |db.workflows| && db.workflows[w].status == Running && !HasOpenRunHere(db, w) {
      assert FlowOk(db, w);
      BatonIffOpenRun(db, w);
    }
  }

  lemma InsertRunRecords(db: Db, w: nat, phase: Phase, seed: Option<Marker>, seedBase: Option<string>)
    requires w < |db.workflows|
    ensures Records(db, InsertRun(db, w, phase, seed, seedBase))
    ensures InsertRun(db, w, phase, seed, seedBase).workflows == db.workflows
  {
  }

  /** A restart advances at most one phase, and only a phase that no base could precede writes the base. */
  lemma RestartEffect(db: Db, w: nat, h: nat, verdict: Verdict, row: Workflow, head: Option<string>)
    requires Inv(db) && RowOk(db, w) && Baton(db, w, h) && db.workflows[w].status == Running
    requires CloseRowOk(db, w, row, PhaseDone) && row.base == db.workflows[w].base
    requires row.phase == db.workflows[w].phase ==> Phases(db, w)[row.phase].repeats
    ensures VerdictReady(db, h) && StepEffect(db, Restart(db, h, verdict, row, head).0)
  {
    var db1 := CloseOut(db, h, verdict, PhaseDone, Resolved, row);
    var phase := Phases(db, w)[row.phase];
    assert FlowOk(db, w) && DefinitionOk(db.registry[db.workflows[w].kind]);
    if phase.initialStep == Execute { NoBaseBeforeExecute(db, w, row.phase); }
    CloseOutRecords(db, w, h, verdict, PhaseDone, Resolved, row);
    InsertRunRecords(db1, w, phase, None, None);
    RecordsTrans(db, db1, InsertRun(db1, w, phase, None, None));
  }

  lemma EndEffect(db: Db, w: nat, h: nat, verdict: Verdict, outcome: Outcome, status: ChainStatus, row: Workflow)
    requires Inv(db) && Baton(db, w, h) && w < |db.workflows| && db.workflows[w].status == Running
    requires row == db.workflows[w].(status := row.status, haltReason := row.haltReason)
    ensures StepEffect(db, CloseOut(db, h, verdict, outcome, status, row))
  {
    assert FlowOk(db, w);
    CloseOutRecords(db, w, h, verdict, outcome, status, row);
  }

  lemma AdvanceEffect(db: Db, w: nat, h: nat, verdict: Verdict, head: Option<string>)
    requires Inv(db) && FlowCore(db, w) && Baton(db, w, h) && db.workflows[w].status == Running
    ensures VerdictReady(db, h) && StepEffect(db, Advance(db, h, verdict, head).0)
  {
    MoveIsOk(db, w);
    match MoveOf(db, w)
    case Stop(row, _) => EndEffect(db, w, h, verdict, PhaseDone, Resolved, row);
    case StartAgain(row) => RestartEffect(db, w, h, verdict, row, head);
  }

  lemma SettleEffect(db: Db, h: nat, input: VerdictInput)
    requires Inv(db) && h < |db.handoffs| && db.handoffs[h].verdict.None? && VerdictRefusal(db, h, input).None?
    ensures StepEffect(db, Settle(db, h, input).0)
  {
    var row := db.handoffs[h];
    var w := row.workflow;
    var wf := db.workflows[w];
    var chain := db.chains[row.chain];
    assert Baton(db, w, h) && FlowOk(db, w);
    var (verdict, reason) := NormalizeVerdict(row.step, input.verdict, input.confidence, chain.round, chain.maxRounds, input.reason);
    match verdict
    case Approve => AdvanceEffect(db, w, h, verdict, input.head);
    case ExecutionPass => AdvanceEffect(db, w, h, verdict, input.head);
    case Findings => CarryRecords(db, w, h, verdict, wf, Fix, false);
    case Delivered => CarryRecords(db, w, h, verdict, DeliveredRow(db, h), Review, true);
    case Escalate => EndEffect(db, w, h, verdict, PhaseEscalated, Escalated, HaltRow(wf, reason));
    case ExecutionFail => EndEffect(db, w, h, verdict, PhaseEscalated, Escalated, HaltRow(wf, reason));
  }

  lemma NoticeEffect(db: Db, h: nat, why: string)
    requires Inv(db)
    ensures StepEffect(db, EscalateNotice(db, h, why).0)
  {
    var input := VerdictInput(Escalate, 1.0, why, None);
    if h < |db.handoffs| && db.handoffs[h].verdict.None? && VerdictRefusal(db, h, input).None? && db.handoffs[h].status == Accepted {
      var row := db.handoffs[h].(status := Failed);
      var db1 := WithHandoff(db, h, row);
      HandoffStatusKeepsInv(db, h, row);
      SettleEffect(db1, h, input);
      RecordsTrans(db, db1, Settle(db1, h, input).0);
    }
  }

  lemma VerdictEffect(db: Db, h: nat, input: VerdictInput)
    requires Inv(db)
    ensures StepEffect(db, ApplyVerdict(db, h, input).0)
  {
    if h < |db.handoffs| && db.handoffs[h].verdict.None? && VerdictRefusal(db, h, input).None? { SettleEffect(db, h, input); }
  }

  lemma SupersedeEffect(db: Db, w: nat, row: Workflow)
    requires Inv(db) && w < |db.workflows| && RowStep(db.workflows[w], row)
    ensures StepEffect(db, SetWorkflow(SupersedeRuns(db, w), w, row))
  {
    assert FlowOk(db, w);
    forall r | 0 <= r < |db.chains| && db.chains[r].status != Active
      ensures SupersedeRuns(db, w).chains[r] == db.chains[r]
    {
      assert db.runs[r].workflow == w ==> !OpenRunOf(db, w, r);
    }
  }

  lemma SetWorkflowEffect(db: Db, w: nat, row: Workflow)
    requires w < |db.workflows| && RowStep(db.workflows[w], row)
    ensures StepEffect(db, SetWorkflow(db, w, row))
  {
  }

  lemma HandoffStatusEffect(db: Db, h: nat, row: Handoff)
    requires h < |db.handoffs| && row == db.handoffs[h].(status := row.status, handback := row.handback)
    ensures StepEffect(db, WithHandoff(db, h, row))
  {
  }

  lemma NoEffect(db: Db)
    ensures StepEffect(db, db)
  {
  }

  lemma OperatorEffect(db: Db, step: Step)
    requires Inv(db) && (step.Halt? || step.Pause? || step.Resume?)
    ensures StepEffect(db, Next(db, step))
  {
    NoEffect(db);
    if Next(db, step) != db { SetWorkflowEffect(db, step.w, Next(db, step).workflows[step.w]); }
  }

  lemma EndingEffect(db: Db, step: Step)
    requires Inv(db) && (step.Cancel? || step.MarkDone?)
    ensures StepEffect(db, Next(db, step))
  {
    NoEffect(db);
    if step.w < |db.workflows| && !db.workflows[step.w].Terminal() {
      SupersedeEffect(db, step.w, db.workflows[step.w].(status := if step.Cancel? then Canceled else Done, haltReason := Some(ByOperator)));
    }
  }

  lemma HandoffEffect(db: Db, step: Step)
    requires Inv(db) && (step.Accept? || step.HandBack?)
    ensures StepEffect(db, Next(db, step))
  {
    NoEffect(db);
    if step.h < |db.handoffs| { HandoffStatusEffect(db, step.h, Next(db, step).handoffs[step.h]); }
  }

  /** One step moves an index by at most one, leaves ended workflows alone, and rewrites nothing already recorded. */
  lemma NextEffect(db: Db, step: Step)
    requires Inv(db)
    ensures StepEffect(db, Next(db, step))
  {
    match step
    case StartPhase(w, head, setupOk) => KickoffEffect(db, w, head, setupOk);
    case GiveVerdict(h, input) => VerdictEffect(db, h, input);
    case NoticeEscalation(h, why) => NoticeEffect(db, h, why);
    case Accept(_) => HandoffEffect(db, step);
    case HandBack(_, _) => HandoffEffect(db, step);
    case Cancel(_) => EndingEffect(db, step);
    case MarkDone(_) => EndingEffect(db, step);
    case Halt(_, _) => OperatorEffect(db, step);
    case Pause(_) => OperatorEffect(db, step);
    case Resume(_, _) => OperatorEffect(db, step);
    case ChangeCollab(_, _) =>
    case Create(_, _, _, _) =>
  }
}
