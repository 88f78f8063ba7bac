/** What a kickoff does, in every reachable state: when it starts a run and when it halts, and the commit base it leaves. */
module WorkflowKickoff {
  import opened Wrappers
  import opened Registry
  import opened WorkflowTables
  import opened WorkflowSteps
  import opened WorkflowSafety
  import opened WorkflowRuns
  import opened WorkflowExecute
  import opened WorkflowAnswers

  /** The workflow runs and has no open run at its index. */
  ghost predicate Waiting(db: Db, w: nat) {
    && w < |db.workflows| && db.workflows[w].status == Running && RowStands(db, w)
    && !exists r :: 0 <= r < |db.runs| && db.runs[r].workflow == w && db.runs[r].phase == db.workflows[w].phase && db.runs[r].outcome.None?
  }

  predicate Anchors(phase: Phase) {
    phase.initialStep == Execute || phase.anchorsBase
  }

  /** A resume marker for the phase at hand. */
  predicate Resumed(wf: Workflow) {
    wf.marker.Some? && wf.marker.value.phase == wf.phase
  }

  /** A resumed phase keeps the base it had; any other phase that executes or anchors has to read the head. */
  predicate ReadsHead(wf: Workflow, phase: Phase) {
    Anchors(phase) && !(Resumed(wf) && wf.base.Some?)
  }

  predicate AgentsBound(db: Db, wf: Workflow, phase: Phase) {
    && wf.collab in db.collabs && wf.implementer != "" && wf.reviewer != ""
    && wf.implementer in db.collabs[wf.collab].bound
    && (phase.reviewed ==> wf.reviewer in db.collabs[wf.collab].bound)
  }

  ghost predicate CanStart(db: Db, w: nat, head: Option<string>, setupOk: bool)
    requires Waiting(db, w)
  {
    var wf, phase := db.workflows[w], PhaseOf(db, w);
    AgentsBound(db, wf, phase) && (ReadsHead(wf, phase) ==> head.Some?) && (db.registry[wf.kind].needsSetup ==> setupOk)
  }

  /** The base after a run has started. */
  function BaseAfter(wf: Workflow, phase: Phase, head: Option<string>): Option<string> {
    if ReadsHead(wf, phase) && head.Some? && head.value != "" then head else wf.base
  }

  /** What the first handoff of a run has, beside its key, from the workflow's row. */
  predicate Opens(row: Handoff, w: nat, r: nat, wf: Workflow, phase: Phase) {
    && row.workflow == w && row.run == row.chain == r && row.step == phase.initialStep && row.round == 1
    && row.status == Pending && row.handback.None? && row.verdict.None? && row.judged.None?
    && (if phase.initialStep == Review then row.sender == wf.implementer && row.target == wf.reviewer
        else row.sender == wf.reviewer && row.target == wf.implementer)
    && row.seed == (if Resumed(wf) then wf.marker else None)
    && row.seedBase == if Resumed(wf) && (Anchors(phase) || phase.mentionsCommitRange) then wf.base else None
  }

  ghost predicate Started(db: Db, db': Db, w: nat, head: Option<string>)
    requires w < |db.workflows| && RowStands(db, w)
  {
    var wf, phase, r, n := db.workflows[w], PhaseOf(db, w), |db.runs|, |db.handoffs|;
    && SameElse(db, db') && OneRow(db, db', w, wf.(marker := None, base := BaseAfter(wf, phase, head)))
    && |db'.runs| == |db'.chains| == r + 1 && db'.runs[..r] == db.runs && db'.chains[..r] == db.chains
    && |db'.handoffs| == n + 1 && db'.handoffs[..n] == db.handoffs
    && db'.runs[r] == PhaseRun(w, wf.phase, r, None) && db'.chains[r] == Chain(wf.collab, Active, 1, phase.maxRounds)
    && Opens(db'.handoffs[n], w, r, wf, phase)
  }

  /**
   * A kickoff of a workflow that runs without an open run starts one, exactly when its agents
   * are bound, a head that has to be read can be read, and the set-up is there; otherwise it halts the workflow as not
   * ready, and of any other workflow it changes nothing. A run that starts leaves the base: the one inherited on a
   * resume, the head just read in another phase that executes or anchors, and as it was in any other phase.
   */
  ghost predicate KickoffRight(db: Db, w: nat, head: Option<string>, setupOk: bool) {
    var db' := Kickoff(db, w, head, setupOk);
    if !Waiting(db, w) then db' == db
    else if CanStart(db, w, head, setupOk) then Started(db, db', w, head)
    else
      var row := db.workflows[w].(status := Status.Halted, haltReason := Some(NotReady));
      db' == db.(workflows := db'.workflows) && OneRow(db, db', w, row)
  }

  /** An execute phase that waits for its run has been resumed, and has a commit hash. */
  lemma WaitingExecution(db: Db, w: nat)
    requires Inv(db) && ExecuteOk(db) && Waiting(db, w) && PhaseOf(db, w).initialStep == Execute
    ensures Resumed(db.workflows[w]) && db.workflows[w].base.Some? && IsSha(db.workflows[w].base.value)
  {
    assert FlowOk(db, w) && ExecutesFromCommit(db, w);
    BatonIffOpenRun(db, w);
    assert !HasOpenRunHere(db, w);
  }

  lemma KickoffInv(db: Db, w: nat, head: Option<string>, setupOk: bool)
    requires Inv(db) && ExecuteOk(db)
    ensures KickoffRight(db, w, head, setupOk)
  {
    if w < |db.workflows| { assert FlowOk(db, w); }
    if Waiting(db, w) {
      if PhaseOf(db, w).initialStep == Execute { WaitingExecution(db, w); }
      hide Inv, FlowOk, ExecuteOk, RefsOk;
      assert !HasOpenRunHere(db, w);
      if CanStart(db, w, head, setupOk) { StartedRun(db, w, head, setupOk); }
    }
  }

  lemma StartedRun(db: Db, w: nat, head: Option<string>, setupOk: bool)
    requires |db.runs| == |db.chains| && Waiting(db, w) && CanStart(db, w, head, setupOk)
    requires PhaseOf(db, w).initialStep == Execute ==>
      Resumed(db.workflows[w]) && db.workflows[w].base.Some? && IsSha(db.workflows[w].base.value)
    ensures Started(db, Kickoff(db, w, head, setupOk), w, head)
  {
    assert !HasOpenRunHere(db, w);
  }

  lemma KickoffStartsOrHalts(steps: seq<Step>, w: nat, head: Option<string>, setupOk: bool)
    ensures KickoffRight(Reach(steps), w, head, setupOk)
  {
    ReachExecutes(steps);
    KickoffInv(Reach(steps), w, head, setupOk);
  }
}
