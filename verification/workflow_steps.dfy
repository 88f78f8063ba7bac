/**
 * The transactions of the workflow engine as functions on the tables: workflow-control.ts (create, verdict, halt,
 * pause, resume, cancel, mark done) and workflow-driver.ts (kickoff). A transaction that throws leaves the tables
 * as they were.
 */
module WorkflowSteps {
  import opened Wrappers
  import opened Registry
  import opened WorkflowTables
  import opened JsText
  import opened RalphMarker

  datatype Error =
    | UnknownCollab | OrchestratorDisabled | UnknownType | RoleNotBound | AnotherActive | UnknownWorkflow
    | WrongStatus(status: Status) | CollabArchived
    | NotWorkflowOwned | ChainNotActive | NoPhase | HeadRequired | BadBase | RunAlreadyOpen

  datatype Action = ChainContinued | PhaseAdvanced | WorkflowDone | WorkflowHalted | NoopAlreadyApplied | NoopNotInFlight

  predicate IsSha(s: string) {
    7 <= |s| <= 40 && forall i | 0 <= i < |s| :: '0' <= s[i] <= '9' || 'a' <= s[i] <= 'f'
  }

  // ------------------------------------------------------------ row updates

  function SetWorkflow(db: Db, w: nat, row: Workflow): Db
    requires w < |db.workflows|
  {
    db.(workflows := db.workflows[w := row])
  }

  /** updateEvaluatorBookkeeping. */
  function Judge(db: Db, h: nat, verdict: Verdict): Db
    requires h < |db.handoffs|
  {
    var row := db.handoffs[h];
    db.(handoffs := db.handoffs[h := row.(verdict := Some(verdict), judged := row.handback)])
  }

  /** setChainTerminal together with closeWorkflowPhaseRun. */
  function CloseRun(db: Db, r: nat, outcome: Outcome, status: ChainStatus): Db
    requires r < |db.runs| && r < |db.chains|
  {
    db.(runs := db.runs[r := db.runs[r].(outcome := Some(outcome))],
        chains := db.chains[r := db.chains[r].(status := status)])
  }

  /** Close every open run of w as superseded and abandon its chain. */
  function SupersedeRuns(db: Db, w: nat): Db
    requires |db.runs| == |db.chains|
  {
    db.(runs := seq(|db.runs|, r requires 0 <= r < |db.runs| =>
          if OpenRunOf(db, w, r) then db.runs[r].(outcome := Some(Superseded)) else db.runs[r]),
        chains := seq(|db.chains|, r requires 0 <= r < |db.chains| =>
          if OpenRunOf(db, w, r) then db.chains[r].(status := Abandoned) else db.chains[r]))
  }

  /** Insert a chain at round 1, a run at the workflow's current phase, and the run's first handoff. */
  function InsertRun(db: Db, w: nat, phase: Phase, seed: Option<Marker>, seedBase: Option<string>): Db
    requires w < |db.workflows|
  {
    var wf := db.workflows[w];
    var handoff := Handoff(w, |db.runs|, |db.chains|, phase.initialStep, 1, Sender(wf, phase.initialStep),
                           Target(wf, phase.initialStep), Pending, None, None, None, seed, seedBase);
    db.(chains := db.chains + [Chain(wf.collab, Active, 1, phase.maxRounds)],
        runs := db.runs + [PhaseRun(w, wf.phase, |db.chains|, None)],
        handoffs := db.handoffs + [handoff])
  }

  /** Judge h and go on in its chain (createContinuationHandoff): only a review after a delivery starts a new round. */
  function Carry(db: Db, h: nat, verdict: Verdict, row: Workflow, step: HandoffStep, newRound: bool): Db
    requires h < |db.handoffs|
    requires db.handoffs[h].chain < |db.chains| && db.handoffs[h].workflow < |db.workflows|
  {
    var prev := db.handoffs[h];
    var wf := db.workflows[prev.workflow];
    var chain := db.chains[prev.chain];
    var round := if newRound then chain.round + 1 else chain.round;
    var next := Handoff(prev.workflow, prev.run, prev.chain, step, round, Sender(wf, step), Target(wf, step),
                        Pending, None, None, None, None, None);
    var db1 := SetWorkflow(Judge(db, h, verdict), prev.workflow, row);
    db1.(chains := db1.chains[prev.chain := chain.(round := round)],
         handoffs := db1.handoffs + [next])
  }

  /** Judge h, close its run and chain, and write the workflow's row. */
  function CloseOut(db: Db, h: nat, verdict: Verdict, outcome: Outcome, status: ChainStatus, row: Workflow): Db
    requires h < |db.handoffs| && db.handoffs[h].workflow < |db.workflows|
    requires db.handoffs[h].run < |db.runs| && db.handoffs[h].run < |db.chains|
  {
    SetWorkflow(CloseRun(Judge(db, h, verdict), db.handoffs[h].run, outcome, status), db.handoffs[h].workflow, row)
  }

  // ------------------------------------------------------------ create

  function CreateWorkflow(db: Db, collab: string, kind: string, implementer: string, reviewer: string): (Db, Reply<nat, Error>) {
    if collab !in db.collabs then (db, Throw(UnknownCollab))
    else if !db.collabs[collab].orchestrator then (db, Throw(OrchestratorDisabled))
    else if kind !in db.registry then (db, Throw(UnknownType))
    else if !({implementer, reviewer} <= db.collabs[collab].bound) then (db, Throw(RoleNotBound))
    else if exists w :: 0 <= w < |db.workflows| && db.workflows[w].collab == collab && db.workflows[w].Live() then
      (db, Throw(AnotherActive))
    else
      var row := Workflow(collab, kind, implementer, reviewer, Running, 0, None, None, false, 0, None);
      (db.(workflows := db.workflows + [row]), Ok(|db.workflows|))
  }

  // ------------------------------------------------------------ kickoff by the driver

  predicate HasOpenRunHere(db: Db, w: nat)
    requires w < |db.workflows|
  {
    exists r :: 0 <= r < |db.runs| && db.runs[r].workflow == w && db.runs[r].phase == db.workflows[w].phase && db.runs[r].outcome.None?
  }

  function HaltRow(wf: Workflow, reason: Reason): Workflow {
    wf.(status := Halted, haltReason := Some(reason))
  }

  /** Why the driver cannot start this phase now, judged in its own order before it looks at the commit base. */
  predicate ReadyToStart(db: Db, wf: Workflow, phase: Phase) {
    && wf.collab in db.collabs
    && wf.implementer != "" && wf.reviewer != ""
    && wf.implementer in db.collabs[wf.collab].bound
    && (phase.reviewed ==> wf.reviewer in db.collabs[wf.collab].bound)
  }

  /** The base a kickoff hands to beginPhaseRun: inherited on a seeded resume, otherwise the head just read. */
  function EntryBase(wf: Workflow, phase: Phase, head: Option<string>): Option<string> {
    if !phase.EstablishesBase() then None
    else if MarkerHere(wf) && wf.base.Some? then wf.base
    else head
  }

  predicate NeedsHead(wf: Workflow, phase: Phase) {
    phase.EstablishesBase() && !(MarkerHere(wf) && wf.base.Some?)
  }

  function SeedBase(wf: Workflow, phase: Phase): Option<string> {
    if MarkerHere(wf) && phase.UsesCommitRange() then wf.base else None
  }

  /** beginPhaseRun: consumes the resume marker, and patches the base when one was handed in. */
  function BeginPhaseRun(db: Db, w: nat, phase: Phase, entryBase: Option<string>, seedBase: Option<string>): (Db, Reply<nat, Error>)
    requires w < |db.workflows|
  {
    var wf := db.workflows[w];
    if phase.initialStep == Execute && (entryBase.None? || !IsSha(entryBase.value)) then (db, Throw(BadBase))
    else if wf.status != Running then (db, Throw(WrongStatus(wf.status)))
    else if HasOpenRunHere(db, w) then (db, Throw(RunAlreadyOpen))
    else
      var seed := if MarkerHere(wf) then wf.marker else None;
      var db1 := InsertRun(db, w, phase, seed, seedBase);
      var base := if entryBase.Some? && entryBase.value != "" then entryBase else wf.base;
      (SetWorkflow(db1, w, wf.(marker := None, base := base)), Ok(|db.runs|))
  }

  /** kickoffCurrentPhase. `head` is None when git cannot be read; `setupOk` is whether the run directory exists. */
  function Kickoff(db: Db, w: nat, head: Option<string>, setupOk: bool): Db {
    if w >= |db.workflows| || db.workflows[w].status != Running || HasOpenRunHere(db, w) then db
    else
      var wf := db.workflows[w];
      if wf.kind !in db.registry then SetWorkflow(db, w, HaltRow(wf, NotReady))
      else
        var definition := db.registry[wf.kind];
        if wf.phase >= |definition.phases| then db
        else
          var phase := definition.phases[wf.phase];
          if !ReadyToStart(db, wf, phase) || (NeedsHead(wf, phase) && head.None?) || (definition.needsSetup && !setupOk) then
            SetWorkflow(db, w, HaltRow(wf, NotReady))
          else
            BeginPhaseRun(db, w, phase, EntryBase(wf, phase, head), SeedBase(wf, phase)).0
  }

  /** The workflows a sweep finds running, in table order. */
  function RunningIds(workflows: seq<Workflow>): seq<nat> {
    if workflows == [] then []
    else
      var n := |workflows| - 1;
      RunningIds(workflows[..n]) + if workflows[n].status == Running then [n] else []
  }

  /** One kickoff after the other; what git and the set-up answer is read anew for each workflow. */
  function Sweep(db: Db, ids: seq<nat>, heads: nat -> Option<string>, setups: nat -> bool): Db {
    if ids == [] then db
    else
      var n := |ids| - 1;
      Kickoff(Sweep(db, ids[..n], heads, setups), ids[n], heads(ids[n]), setups(ids[n]))
  }

  // ------------------------------------------------------------ verdicts

  predicate Allowed(step: HandoffStep, verdict: Verdict) {
    match step
    case Review => verdict == Approve || verdict == Findings || verdict == Escalate
    case Fix => verdict == Delivered || verdict == Escalate
    case Implement => verdict == Delivered || verdict == Escalate
    case Execute => verdict == ExecutionPass || verdict == ExecutionFail || verdict == Escalate
  }

  function NormalizeVerdict(step: HandoffStep, verdict: Verdict, confidence: real, round: nat, maxRounds: nat, reason: string): (Verdict, Reason) {
    if confidence < 0.5 then (Escalate, LowConfidence(reason))
    else if !Allowed(step, verdict) then (Escalate, IllegalStepVerdict(verdict))
    else if step == Review && verdict == Findings && round + 1 > maxRounds then (Escalate, MaxRoundsReached(round, maxRounds))
    else (verdict, Given(reason))
  }

  /** kickoffNextPhaseInternal: a fresh run at the row's current index; an execute phase rewrites the commit base. */
  function KickoffNext(db: Db, w: nat, phase: Phase, head: Option<string>): Reply<Db, Error>
    requires w < |db.workflows|
  {
    var db1 := InsertRun(db, w, phase, None, None);
    if phase.initialStep != Execute then Ok(db1)
    else if head.None? || head.value == "" then Throw(HeadRequired)
    else Ok(SetWorkflow(db1, w, db.workflows[w].(base := head)))
  }

  datatype VerdictInput = VerdictInput(verdict: Verdict, confidence: real, reason: string, head: Option<string>)

  /** Why applyVerdict throws before its transaction, or None. */
  function VerdictRefusal(db: Db, h: nat, input: VerdictInput): Option<Error> {
    if h >= |db.handoffs| then Some(NotWorkflowOwned)
    else
      var row := db.handoffs[h];
      if row.workflow >= |db.workflows| then Some(UnknownWorkflow)
      else
        var wf := db.workflows[row.workflow];
        if wf.status != Running then Some(WrongStatus(wf.status))
        else if row.chain >= |db.chains| || row.run >= |db.runs| || db.chains[row.chain].status != Active then Some(ChainNotActive)
        else if wf.kind !in db.registry || wf.phase >= |db.registry[wf.kind].phases| then Some(NoPhase)
        else
          var chain := db.chains[row.chain];
          var phases := db.registry[wf.kind].phases;
          var (verdict, _) := NormalizeVerdict(row.step, input.verdict, input.confidence, chain.round, chain.maxRounds, input.reason);
          if verdict == Approve && row.step == Review && wf.phase + 1 < |phases| && phases[wf.phase + 1].initialStep == Execute
             && (input.head.None? || !IsSha(input.head.value)) then Some(HeadRequired)
          else None
  }

  predicate VerdictReady(db: Db, h: nat) {
    && h < |db.handoffs|
    && db.handoffs[h].workflow < |db.workflows|
    && db.handoffs[h].chain < |db.chains|
    && db.handoffs[h].run < |db.runs|
    && KnownKind(db, db.handoffs[h].workflow)
    && db.workflows[db.handoffs[h].workflow].phase < |Phases(db, db.handoffs[h].workflow)|
  }

  /** Resolve the chain and start a fresh run at the row's index: the loop's next iteration, or the next phase. */
  function Restart(db: Db, h: nat, verdict: Verdict, row: Workflow, head: Option<string>): (Db, Reply<Action, Error>)
    requires VerdictReady(db, h) && RefsOk(db) && row.phase < |Phases(db, db.handoffs[h].workflow)|
  {
    var w := db.handoffs[h].workflow;
    match KickoffNext(CloseOut(db, h, verdict, PhaseDone, Resolved, row), w, Phases(db, w)[row.phase], head)
    case Throw(e) => (db, Throw(e))
    case Ok(db1) => (db1, Ok(PhaseAdvanced))
  }

  function DoneRow(wf: Workflow): Workflow {
    wf.(status := Done, haltReason := None)
  }

  datatype Move = Stop(row: Workflow, action: Action) | StartAgain(row: Workflow)

  /** Where an approve or execution pass takes the workflow: it loops, finishes, or moves to the next phase. */
  function MoveOf(db: Db, w: nat): (m: Move)
    requires w < |db.workflows| && KnownKind(db, w) && db.workflows[w].phase < |Phases(db, w)|
    ensures m.StartAgain? ==> m.row.phase < |Phases(db, w)|
  {
    var wf := db.workflows[w];
    var phase := Phases(db, w)[wf.phase];
    if phase.repeats then
      if wf.claim then Stop(DoneRow(wf), WorkflowDone)
      else if wf.iteration + 1 >= phase.maxIterations then Stop(HaltRow(wf, IterationCap(phase.maxIterations)), WorkflowHalted)
      else StartAgain(wf.(iteration := wf.iteration + 1))
    else if wf.phase + 1 >= |Phases(db, w)| then Stop(DoneRow(wf), WorkflowDone)
    else StartAgain(wf.(phase := wf.phase + 1))
  }

  /** An approve or execution pass: resolve the chain, then make the move. */
  function Advance(db: Db, h: nat, verdict: Verdict, head: Option<string>): (Db, Reply<Action, Error>)
    requires VerdictReady(db, h) && RefsOk(db)
  {
    match MoveOf(db, db.handoffs[h].workflow)
    case Stop(row, action) => (CloseOut(db, h, verdict, PhaseDone, Resolved, row), Ok(action))
    case StartAgain(row) => Restart(db, h, verdict, row, head)
  }

  /** In a looping phase the handback of a delivery decides the completion claim. */
  function DeliveredRow(db: Db, h: nat): Workflow
    requires VerdictReady(db, h)
  {
    var w := db.handoffs[h].workflow;
    var wf := db.workflows[w];
    if Phases(db, w)[wf.phase].repeats then wf.(claim := ClaimsGoal(db.handoffs[h].handback.GetOr(""))) else wf
  }

  /** The transaction of applyVerdict, once its guards have passed. */
  function Settle(db: Db, h: nat, input: VerdictInput): (Db, Reply<Action, Error>)
    requires VerdictReady(db, h) && RefsOk(db)
  {
    var row := db.handoffs[h];
    var wf := db.workflows[row.workflow];
    var chain := db.chains[row.chain];
    var (verdict, reason) := NormalizeVerdict(row.step, input.verdict, input.confidence, chain.round, chain.maxRounds, input.reason);
    match verdict
    case Approve => Advance(db, h, verdict, input.head)
    case ExecutionPass => Advance(db, h, verdict, input.head)
    case Findings => (Carry(db, h, verdict, wf, Fix, false), Ok(ChainContinued))
    case Delivered => (Carry(db, h, verdict, DeliveredRow(db, h), Review, true), Ok(ChainContinued))
    case Escalate => (CloseOut(db, h, verdict, PhaseEscalated, Escalated, HaltRow(wf, reason)), Ok(WorkflowHalted))
    case ExecutionFail => (CloseOut(db, h, verdict, PhaseEscalated, Escalated, HaltRow(wf, reason)), Ok(WorkflowHalted))
  }

  function ApplyVerdict(db: Db, h: nat, input: VerdictInput): (Db, Reply<Action, Error>)
    requires RefsOk(db)
  {
    if h < |db.handoffs| && db.handoffs[h].verdict.Some? then (db, Ok(NoopAlreadyApplied))
    else
      match VerdictRefusal(db, h, input)
      case Some(e) => (db, Throw(e))
      case None => Settle(db, h, input)
  }

  /** escalateNoticeHandoff: only a handoff that is still accepted is failed and escalated. */
  function EscalateNotice(db: Db, h: nat, reason: string): (Db, Reply<Action, Error>)
    requires RefsOk(db)
  {
    var input := VerdictInput(Escalate, 1.0, reason, None);
    if h < |db.handoffs| && db.handoffs[h].verdict.Some? then (db, Ok(NoopAlreadyApplied))
    else
      match VerdictRefusal(db, h, input)
      case Some(e) => (db, Throw(e))
      case None =>
        if db.handoffs[h].status != Accepted then (db, Ok(NoopNotInFlight))
        else Settle(db.(handoffs := db.handoffs[h := db.handoffs[h].(status := Failed)]), h, input)
  }

  // ------------------------------------------------------------ operator steps

  function HaltWorkflow(db: Db, w: nat, reason: Reason): (Db, Reply<(), Error>) {
    if w >= |db.workflows| then (db, Throw(UnknownWorkflow))
    else if db.workflows[w].status != Running then (db, Throw(WrongStatus(db.workflows[w].status)))
    else (SetWorkflow(db, w, HaltRow(db.workflows[w], reason)), Ok(()))
  }

  function PauseWorkflow(db: Db, w: nat): (Db, Reply<(), Error>) {
    if w >= |db.workflows| then (db, Throw(UnknownWorkflow))
    else if db.workflows[w].status != Running then (db, Throw(WrongStatus(db.workflows[w].status)))
    else (SetWorkflow(db, w, db.workflows[w].(status := Paused, haltReason := None)), Ok(()))
  }

  predicate OtherLive(db: Db, w: nat)
    requires w < |db.workflows|
  {
    exists v :: 0 <= v < |db.workflows| && v != w && db.workflows[v].collab == db.workflows[w].collab && db.workflows[v].Live()
  }

  /** The newest run of workflow w at index j among the first n runs. */
  function LatestRun(db: Db, w: nat, j: nat, n: nat): (r: Option<nat>)
    requires n <= |db.runs|
    ensures r.Some? ==> r.value < n && db.runs[r.value].workflow == w && db.runs[r.value].phase == j
    ensures forall q | (if r.Some? then r.value + 1 else 0) <= q < n :: !(db.runs[q].workflow == w && db.runs[q].phase == j)
  {
    if n == 0 then None
    else if db.runs[n - 1].workflow == w && db.runs[n - 1].phase == j then Some(n - 1)
    else LatestRun(db, w, j, n - 1)
  }

  function ResumeMarker(db: Db, w: nat, message: Option<string>): Marker
    requires w < |db.workflows|
  {
    var wf := db.workflows[w];
    var latest := LatestRun(db, w, wf.phase, |db.runs|);
    var chain := if latest.Some? && db.runs[latest.value].outcome == Some(PhaseEscalated) then Some(db.runs[latest.value].chain) else None;
    Marker(wf.phase, wf.haltReason, chain, if message.Some? && Trim(message.value) != "" then message else None)
  }

  /** resumeWorkflow: from halted it leaves a marker for the next phase run; from paused it only flips the status. */
  function ResumeWorkflow(db: Db, w: nat, message: Option<string>): (Db, Reply<(), Error>) {
    if w >= |db.workflows| then (db, Throw(UnknownWorkflow))
    else
      var wf := db.workflows[w];
      if wf.collab in db.collabs && db.collabs[wf.collab].archived then (db, Throw(CollabArchived))
      else if wf.status != Halted && wf.status != Paused then (db, Throw(WrongStatus(wf.status)))
      else if OtherLive(db, w) then (db, Throw(AnotherActive))
      else
        var marker := if wf.status == Halted then Some(ResumeMarker(db, w, message)) else wf.marker;
        (SetWorkflow(db, w, wf.(status := Running, haltReason := None, marker := marker)), Ok(()))
  }

  function CancelWorkflow(db: Db, w: nat): (Db, Reply<(), Error>)
    requires RefsOk(db)
  {
    if w >= |db.workflows| then (db, Throw(UnknownWorkflow))
    else if db.workflows[w].Terminal() then (db, Throw(WrongStatus(db.workflows[w].status)))
    else (SetWorkflow(SupersedeRuns(db, w), w, db.workflows[w].(status := Canceled, haltReason := Some(ByOperator))), Ok(()))
  }

  function MarkWorkflowDone(db: Db, w: nat): (Db, Reply<(), Error>)
    requires RefsOk(db)
  {
    if w >= |db.workflows| then (db, Throw(UnknownWorkflow))
    else if db.workflows[w].status != Halted then (db, Throw(WrongStatus(db.workflows[w].status)))
    else (SetWorkflow(SupersedeRuns(db, w), w, db.workflows[w].(status := Done, haltReason := Some(ByOperator))), Ok(()))
  }

  // ------------------------------------------------------------ the engine as a state machine

  datatype Step =
    | Create(collab: string, kind: string, implementer: string, reviewer: string)
    | ChangeCollab(id: string, to: Collab)
    | StartPhase(w: nat, head: Option<string>, setupOk: bool)
    | Accept(h: nat)
    | HandBack(h: nat, text: string)
    | GiveVerdict(h: nat, input: VerdictInput)
    | NoticeEscalation(h: nat, why: string)
    | Halt(w: nat, reason: Reason)
    | Pause(w: nat)
    | Resume(w: nat, message: Option<string>)
    | Cancel(w: nat)
    | MarkDone(w: nat)

  function Next(db: Db, step: Step): Db
    requires RefsOk(db)
  {
    match step
    case Create(collab, kind, implementer, reviewer) => CreateWorkflow(db, collab, kind, implementer, reviewer).0
    case ChangeCollab(id, to) => db.(collabs := db.collabs[id := to])
    case StartPhase(w, head, setupOk) => Kickoff(db, w, head, setupOk)
    case Accept(h) => if h < |db.handoffs| then db.(handoffs := db.handoffs[h := db.handoffs[h].(status := Accepted)]) else db
    case HandBack(h, text) =>
      if h < |db.handoffs| then db.(handoffs := db.handoffs[h := db.handoffs[h].(status := HandedBack, handback := Some(text))]) else db
    case GiveVerdict(h, input) => ApplyVerdict(db, h, input).0
    case NoticeEscalation(h, why) => EscalateNotice(db, h, why).0
    case Halt(w, reason) => HaltWorkflow(db, w, reason).0
    case Pause(w) => PauseWorkflow(db, w).0
    case Resume(w, message) => ResumeWorkflow(db, w, message).0
    case Cancel(w) => CancelWorkflow(db, w).0
    case MarkDone(w) => MarkWorkflowDone(db, w).0
  }
}
