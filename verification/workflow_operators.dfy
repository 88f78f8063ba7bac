/** What an operator's transaction answers and leaves: create, halt, pause, resume, cancel, mark done, notice. */
module WorkflowOperators {
  import opened Wrappers
  import opened Registry
  import opened WorkflowTables
  import opened WorkflowSteps
  import opened WorkflowSafety
  import opened WorkflowRuns
  import opened WorkflowAnswers
  import opened JsText

  ghost predicate LiveIn(db: Db, collab: string, but: Option<nat>) {
    exists v :: 0 <= v < |db.workflows| && Some(v) != but && db.workflows[v].collab == collab
      && (db.workflows[v].status == Running || db.workflows[v].status == Paused)
  }

  /** Why a workflow cannot be created: the first guard that fails. */
  ghost function WhyNotCreated(db: Db, collab: string, kind: string, implementer: string, reviewer: string): Option<Error> {
    if collab !in db.collabs then Some(UnknownCollab)
    else if !db.collabs[collab].orchestrator then Some(OrchestratorDisabled)
    else if kind !in db.registry then Some(UnknownType)
    else if implementer !in db.collabs[collab].bound || reviewer !in db.collabs[collab].bound then Some(RoleNotBound)
    else if LiveIn(db, collab, None) then Some(AnotherActive)
    else None
  }

  /** A workflow is created running, at its first phase, with its agents in their roles, and with nothing else yet. */
  lemma CreateAnswers(db: Db, collab: string, kind: string, implementer: string, reviewer: string)
    ensures var (db', reply) := CreateWorkflow(db, collab, kind, implementer, reviewer);
      match WhyNotCreated(db, collab, kind, implementer, reviewer)
      case Some(e) => reply == Throw(e) && db' == db
      case None =>
        && reply == Ok(|db.workflows|) && |db'.workflows| == |db.workflows| + 1
        && db' == db.(workflows := db'.workflows) && db'.workflows[..|db.workflows|] == db.workflows
        && var row := db'.workflows[|db.workflows|];
           && row.collab == collab && row.kind == kind && row.implementer == implementer && row.reviewer == reviewer
           && row.status == Running && row.phase == 0 && row.iteration == 0 && !row.claim
           && row.haltReason.None? && row.base.None? && row.marker.None?
  {
    if LiveIn(db, collab, None) {
      var v :| 0 <= v < |db.workflows| && db.workflows[v].collab == collab
        && (db.workflows[v].status == Running || db.workflows[v].status == Paused);
      assert db.workflows[v].Live();
    }
  }

  /** Only w's row differs, in status and reason. */
  ghost predicate Flipped(db: Db, db': Db, w: nat, status: Status, reason: Option<Reason>) {
    && db' == db.(workflows := db'.workflows)
    && w < |db.workflows| && OneRow(db, db', w, db.workflows[w].(status := status, haltReason := reason))
  }

  /** Halt and pause take a running workflow out of play and leave its open run, if any, as it is. */
  lemma HaltAndPauseAnswer(db: Db, w: nat, reason: Reason)
    ensures var (db', reply) := HaltWorkflow(db, w, reason);
      if w < |db.workflows| && db.workflows[w].status == Running then reply == Ok(()) && Flipped(db, db', w, Status.Halted, Some(reason))
      else reply == Throw(if w < |db.workflows| then WrongStatus(db.workflows[w].status) else UnknownWorkflow) && db' == db
    ensures var (db', reply) := PauseWorkflow(db, w);
      if w < |db.workflows| && db.workflows[w].status == Running then reply == Ok(()) && Flipped(db, db', w, Status.Paused, None)
      else reply == Throw(if w < |db.workflows| then WrongStatus(db.workflows[w].status) else UnknownWorkflow) && db' == db
  {
  }

  /** The newest run of w at its index was closed as escalated, in chain c. */
  ghost predicate FailedLast(db: Db, w: nat, c: nat) {
    && w < |db.workflows|
    && exists r :: 0 <= r < |db.runs| && db.runs[r].workflow == w && db.runs[r].phase == db.workflows[w].phase
         && db.runs[r].outcome == Some(PhaseEscalated) && db.runs[r].chain == c
         && forall q | r < q < |db.runs| :: !(db.runs[q].workflow == w && db.runs[q].phase == db.workflows[w].phase)
  }

  /** What a resume from halted writes down for the next run: where, why it halted, what failed, and the message. */
  ghost predicate Marks(db: Db, w: nat, message: Option<string>, marker: Marker)
    requires w < |db.workflows|
  {
    && marker.phase == db.workflows[w].phase && marker.haltReason == db.workflows[w].haltReason
    && (forall c: nat :: marker.chain == Some(c) <==> FailedLast(db, w, c))
    && marker.message == if message.Some? && !Blank(message.value) then message else None
  }

  ghost function WhyNotResumed(db: Db, w: nat): Option<Error> {
    if w >= |db.workflows| then Some(UnknownWorkflow)
    else
      var wf := db.workflows[w];
      if wf.collab in db.collabs && db.collabs[wf.collab].archived then Some(CollabArchived)
      else if wf.status != Status.Halted && wf.status != Paused then Some(WrongStatus(wf.status))
      else if LiveIn(db, wf.collab, Some(w)) then Some(AnotherActive)
      else None
  }

  /** A resume puts the workflow back to running; from halted it also leaves the marker, from paused it touches none. */
  lemma ResumeAnswers(db: Db, w: nat, message: Option<string>)
    ensures var (db', reply) := ResumeWorkflow(db, w, message);
      match WhyNotResumed(db, w)
      case Some(e) => reply == Throw(e) && db' == db
      case None =>
        && reply == Ok(()) && db' == db.(workflows := db'.workflows) && |db'.workflows| == |db.workflows|
        && var (wf, row) := (db.workflows[w], db'.workflows[w]);
           && OneRow(db, db', w, wf.(status := Running, haltReason := None, marker := row.marker))
           && (if wf.status == Status.Halted then row.marker.Some? && Marks(db, w, message, row.marker.value) else row.marker == wf.marker)
  {
    if w < |db.workflows| && OtherLive(db, w) {
      var v :| 0 <= v < |db.workflows| && v != w && db.workflows[v].collab == db.workflows[w].collab && db.workflows[v].Live();
      assert Some(v) != Some(w);
    }
    if w < |db.workflows| && LiveIn(db, db.workflows[w].collab, Some(w)) {
      var v :| 0 <= v < |db.workflows| && Some(v) != Some(w) && db.workflows[v].collab == db.workflows[w].collab
        && (db.workflows[v].status == Running || db.workflows[v].status == Paused);
      assert db.workflows[v].Live();
    }
    if WhyNotResumed(db, w).None? && db.workflows[w].status == Status.Halted { MarkerMarks(db, w, message); }
  }

  lemma MarkerMarks(db: Db, w: nat, message: Option<string>)
    requires w < |db.workflows|
    ensures Marks(db, w, message, ResumeMarker(db, w, message))
  {
    var marker := ResumeMarker(db, w, message);
    var latest := LatestRun(db, w, db.workflows[w].phase, |db.runs|);
    forall c: nat
      ensures marker.chain == Some(c) <==> FailedLast(db, w, c)
    {
      if FailedLast(db, w, c) {
        var r :| 0 <= r < |db.runs| && db.runs[r].workflow == w && db.runs[r].phase == db.workflows[w].phase
          && db.runs[r].outcome == Some(PhaseEscalated) && db.runs[r].chain == c
          && forall q | r < q < |db.runs| :: !(db.runs[q].workflow == w && db.runs[q].phase == db.workflows[w].phase);
        assert latest == Some(r);
      }
    }
    if message.Some? { TrimBlank(message.value); }
  }

  /** Every open run of w is closed as superseded and its chain abandoned; no other run or chain differs. */
  ghost predicate OpenRunsSuperseded(db: Db, db': Db, w: nat) {
    && |db'.runs| == |db.runs| == |db.chains| == |db'.chains|
    && forall r | 0 <= r < |db.runs| ::
         if db.runs[r].workflow == w && db.runs[r].outcome.None? then
           db'.runs[r] == db.runs[r].(outcome := Some(Superseded)) && db'.chains[r] == db.chains[r].(status := Abandoned)
         else db'.runs[r] == db.runs[r] && db'.chains[r] == db.chains[r]
  }

  ghost predicate Ended(db: Db, db': Db, w: nat, status: Status) {
    && SameElse(db, db') && db'.handoffs == db.handoffs && OpenRunsSuperseded(db, db', w)
    && w < |db.workflows| && OneRow(db, db', w, db.workflows[w].(status := status, haltReason := Some(ByOperator)))
  }

  /** Cancel ends any workflow that has not ended, mark done only a halted one. */
  lemma EndingsAnswer(db: Db, w: nat)
    requires RefsOk(db)
    ensures var (db', reply) := CancelWorkflow(db, w);
      if w < |db.workflows| && db.workflows[w].status != Done && db.workflows[w].status != Canceled then
        reply == Ok(()) && Ended(db, db', w, Canceled)
      else reply == Throw(if w < |db.workflows| then WrongStatus(db.workflows[w].status) else UnknownWorkflow) && db' == db
    ensures var (db', reply) := MarkWorkflowDone(db, w);
      if w < |db.workflows| && db.workflows[w].status == Status.Halted then reply == Ok(()) && Ended(db, db', w, Done)
      else reply == Throw(if w < |db.workflows| then WrongStatus(db.workflows[w].status) else UnknownWorkflow) && db' == db
  {
  }

  /**
   * A notice escalates a handoff in play that was accepted: it is failed and escalated, its run and chain closed, its
   * workflow halted for the given reason. Of a handoff in play that was not accepted it changes nothing.
   */
  ghost predicate NoticeRight(db: Db, h: nat, why: string)
    requires RefsOk(db)
  {
    var (db', reply) := EscalateNotice(db, h, why);
    if !InPlay(db, h) then db' == db && (reply == Ok(NoopAlreadyApplied) || reply.Throw?)
    else if db.handoffs[h].status != Accepted then db' == db && reply == Ok(NoopNotInFlight)
    else
      var w, n := db.handoffs[h].workflow, |db.handoffs|;
      && reply == Ok(WorkflowHalted) && SameElse(db, db') && |db'.handoffs| == n
      && db'.handoffs[h] == db.handoffs[h].(status := Failed, verdict := Some(Escalate), judged := db.handoffs[h].handback)
      && (forall g | 0 <= g < n && g != h :: db'.handoffs[g] == db.handoffs[g])
      && RunClosed(db, db', db.handoffs[h].run, PhaseEscalated, Escalated)
      && OneRow(db, db', w, db.workflows[w].(status := Status.Halted, haltReason := Some(Given(why))))
  }

  lemma NoticeIsCloseOut(db: Db, h: nat, why: string)
    requires Inv(db) && InPlay(db, h) && db.handoffs[h].status == Accepted
    ensures var db1 := db.(handoffs := db.handoffs[h := db.handoffs[h].(status := Failed)]);
      var wf := db.workflows[db.handoffs[h].workflow];
      && RefsOk(db1)
      && EscalateNotice(db, h, why)
         == (CloseOut(db1, h, Escalate, PhaseEscalated, Escalated, HaltRow(wf, Given(why))), Ok(WorkflowHalted))
  {
    RefusedWhen(db, h, VerdictInput(Escalate, 1.0, why, None));
    hide FlowOk, OneLive, RegistryOk, CloseOut, Carry, Advance;
  }

  lemma NoticeAnswers(steps: seq<Step>, h: nat, why: string)
    ensures NoticeRight(Reach(steps), h, why)
  {
    var db := Reach(steps);
    if h < |db.handoffs| && db.handoffs[h].verdict.None? { RefusedWhen(db, h, VerdictInput(Escalate, 1.0, why, None)); }
    if InPlay(db, h) && db.handoffs[h].status == Accepted {
      NoticeIsCloseOut(db, h, why);
      hide FlowOk, OneLive, RegistryOk, CloseOut, EscalateNotice;
      var db1 := db.(handoffs := db.handoffs[h := db.handoffs[h].(status := Failed)]);
      CloseOutIs(db1, h, Escalate, PhaseEscalated, Escalated, HaltRow(db.workflows[db.handoffs[h].workflow], Given(why)));
    }
  }
}
