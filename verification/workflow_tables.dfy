/**
 * The four tables of the workflow engine and the invariant that holds between its transactions.
 * A table is a sequence in insertion order; a row's generated key is its position.
 */
module WorkflowTables {
  import opened Wrappers
  import opened Registry
  import opened RalphMarker

  datatype Status = Running | Paused | Halted | Done | Canceled
  datatype Outcome = PhaseDone | PhaseEscalated | Superseded
  datatype ChainStatus = Active | Resolved | Escalated | Abandoned
  datatype Verdict = Approve | Findings | Delivered | ExecutionPass | ExecutionFail | Escalate
  datatype HandoffStatus = Pending | Accepted | HandedBack | Failed

  datatype Reason =
    | Given(text: string)
    | LowConfidence(text: string)
    | IllegalStepVerdict(verdict: Verdict)
    | MaxRoundsReached(current: nat, max: nat)
    | IterationCap(max: nat)
    | NotReady
    | ByOperator

  /** workflowContext.resumeSeed: written by a resume from halted, consumed by the next phase run. */
  datatype Marker = Marker(phase: nat, haltReason: Option<Reason>, chain: Option<nat>, message: Option<string>)

  datatype Workflow = Workflow(
    collab: string,
    kind: string,
    implementer: string,
    reviewer: string,
    status: Status,
    phase: nat,
    haltReason: Option<Reason>,
    base: Option<string>,      // workflowContext.baseBeforeExecution
    claim: bool,               // workflowContext.ralphCompletionClaim
    iteration: nat,            // workflowContext.ralphIteration
    marker: Option<Marker>
  ) {
    predicate Live() { status == Running || status == Paused }
    predicate Terminal() { status == Done || status == Canceled }
  }

  datatype PhaseRun = PhaseRun(workflow: nat, phase: nat, chain: nat, outcome: Option<Outcome>)

  datatype Chain = Chain(collab: string, status: ChainStatus, round: nat, maxRounds: nat)

  datatype Handoff = Handoff(
    workflow: nat,
    run: nat,
    chain: nat,
    step: HandoffStep,
    round: nat,
    sender: string,
    target: string,
    status: HandoffStatus,
    handback: Option<string>,
    verdict: Option<Verdict>,
    judged: Option<string>,    // history: the handback text the verdict was given on
    seed: Option<Marker>,      // the resume seed its request text opens with
    seedBase: Option<string>   // the commit base that seed states
  )

  datatype Collab = Collab(orchestrator: bool, archived: bool, bound: set<string>)

  datatype Db = Db(
    registry: map<string, Definition>,
    collabs: map<string, Collab>,
    workflows: seq<Workflow>,
    runs: seq<PhaseRun>,
    chains: seq<Chain>,
    handoffs: seq<Handoff>
  )

  predicate KnownKind(db: Db, w: nat)
    requires w < |db.workflows|
  {
    db.workflows[w].kind in db.registry
  }

  function Phases(db: Db, w: nat): seq<Phase>
    requires w < |db.workflows| && KnownKind(db, w)
  {
    db.registry[db.workflows[w].kind].phases
  }

  // ------------------------------------------------------------ the invariant across workflows

  ghost predicate RegistryOk(db: Db) {
    forall k | k in db.registry :: DefinitionOk(db.registry[k])
  }

  /** Rows refer to rows that exist. Chains and runs are inserted in pairs, so a run and its chain share their key. */
  ghost predicate RefsOk(db: Db) {
    && |db.runs| == |db.chains|
    && (forall r | 0 <= r < |db.runs| :: db.runs[r].chain == r && db.runs[r].workflow < |db.workflows|)
    && (forall h | 0 <= h < |db.handoffs| ::
          && db.handoffs[h].run == db.handoffs[h].chain < |db.runs|
          && db.handoffs[h].workflow == db.runs[db.handoffs[h].run].workflow)
  }

  /** A collab has at most one running or paused workflow. */
  ghost predicate OneLive(db: Db) {
    forall v, w | 0 <= v < w < |db.workflows| ::
      db.workflows[v].collab == db.workflows[w].collab ==> !(db.workflows[v].Live() && db.workflows[w].Live())
  }

  // ------------------------------------------------------------ the invariant of one workflow

  ghost predicate RowOk(db: Db, w: nat) {
    && w < |db.workflows|
    && KnownKind(db, w)
    && db.workflows[w].phase < |Phases(db, w)|
  }

  predicate OpenRunOf(db: Db, w: nat, r: nat) {
    && r < |db.runs|
    && db.runs[r].workflow == w
    && db.runs[r].outcome.None?
  }

  /** A run's chain has the phase's limit, its round is inside it, and it is active iff the run is open. */
  ghost predicate RunsOk(db: Db, w: nat)
    requires RefsOk(db) && RowOk(db, w)
  {
    forall r | 0 <= r < |db.runs| && db.runs[r].workflow == w ::
      && db.runs[r].phase < |Phases(db, w)|
      && db.chains[r].collab == db.workflows[w].collab
      && db.chains[r].maxRounds == Phases(db, w)[db.runs[r].phase].maxRounds
      && 1 <= db.chains[r].round <= db.chains[r].maxRounds
      && (db.chains[r].status == Active <==> db.runs[r].outcome.None?)
  }

  /** At most one run is open, at the current index, and only while the workflow has not ended. */
  ghost predicate OpenRunsOk(db: Db, w: nat)
    requires RowOk(db, w)
  {
    && (forall r: nat | OpenRunOf(db, w, r) :: db.runs[r].phase == db.workflows[w].phase && !db.workflows[w].Terminal())
    && (forall q: nat, r: nat | OpenRunOf(db, w, q) && OpenRunOf(db, w, r) :: q == r)
  }

  /** The handoff that has the baton of workflow w: no verdict yet, on an active chain. */
  predicate Baton(db: Db, w: nat, h: nat) {
    && h < |db.handoffs|
    && db.handoffs[h].workflow == w
    && db.handoffs[h].verdict.None?
    && db.handoffs[h].chain < |db.chains|
    && db.chains[db.handoffs[h].chain].status == Active
  }

  ghost predicate HasBaton(db: Db, w: nat) {
    exists h :: Baton(db, w, h)
  }

  /** The rounds a handoff may carry: a step that ends in `delivered` must leave room for one more round. */
  predicate StepFits(step: HandoffStep, round: nat, maxRounds: nat) {
    && 1 <= round <= maxRounds
    && (step == Fix || step == Implement ==> round + 1 <= maxRounds)
  }

  function Sender(wf: Workflow, step: HandoffStep): string {
    if step == Review then wf.implementer else wf.reviewer
  }

  function Target(wf: Workflow, step: HandoffStep): string {
    if step == Review then wf.reviewer else wf.implementer
  }

  predicate BatonFits(db: Db, w: nat, h: nat)
    requires w < |db.workflows| && h < |db.handoffs| && db.handoffs[h].chain < |db.chains|
  {
    var row := db.handoffs[h];
    && row.round == db.chains[row.chain].round
    && StepFits(row.step, row.round, db.chains[row.chain].maxRounds)
    && row.sender == Sender(db.workflows[w], row.step)
    && row.target == Target(db.workflows[w], row.step)
  }

  /** Within a chain only the newest handoff can lack a verdict, so an active chain has at most one. */
  ghost predicate NewestOk(db: Db, w: nat) {
    forall g, h | 0 <= g < |db.handoffs| && 0 <= h < |db.handoffs| && db.handoffs[g].workflow == w && db.handoffs[h].workflow == w ::
      db.handoffs[h].verdict.None? && db.handoffs[g].chain == db.handoffs[h].chain ==> g <= h
  }

  /** An open run has a baton, and whoever holds it is addressed correctly and inside the round limit. */
  ghost predicate BatonOk(db: Db, w: nat)
    requires w < |db.workflows|
  {
    && (forall r: nat | OpenRunOf(db, w, r) :: HasBaton(db, w))
    && (forall h: nat | Baton(db, w, h) :: BatonFits(db, w, h))
  }

  ghost predicate PhaseFinished(db: Db, w: nat, j: nat) {
    exists r :: 0 <= r < |db.runs| && db.runs[r].workflow == w && db.runs[r].phase == j && db.runs[r].outcome == Some(PhaseDone)
  }

  /** No phase is skipped: every index below the current one has a run closed as done. */
  ghost predicate HistoryOk(db: Db, w: nat)
    requires w < |db.workflows|
  {
    forall j | 0 <= j < db.workflows[w].phase :: PhaseFinished(db, w, j)
  }

  /** d is the newest delivery of its chain, and the handback it was judged on claims the goal is complete. */
  ghost predicate BackedClaim(db: Db, d: nat, chain: nat) {
    && d < |db.handoffs|
    && db.handoffs[d].chain == chain
    && db.handoffs[d].verdict == Some(Delivered)
    && db.handoffs[d].judged.Some?
    && ClaimsGoal(db.handoffs[d].judged.value)
    && (forall g | d < g < |db.handoffs| && db.handoffs[g].chain == chain :: db.handoffs[g].verdict != Some(Delivered))
  }

  ghost predicate ChainClaims(db: Db, chain: nat) {
    exists d :: BackedClaim(db, d, chain)
  }

  /** Looping phases: the iteration count stays below the cap, and a claim under review is the chain's own. */
  ghost predicate LoopOk(db: Db, w: nat)
    requires RowOk(db, w)
  {
    var wf := db.workflows[w];
    var phase := Phases(db, w)[wf.phase];
    && (wf.iteration > 0 ==> phase.repeats && wf.iteration < phase.maxIterations)
    && (phase.repeats ==> forall h: nat | Baton(db, w, h) :: db.handoffs[h].step != Execute)
    && (phase.repeats && wf.claim ==>
          forall h: nat | Baton(db, w, h) && db.handoffs[h].step == Review :: ChainClaims(db, db.handoffs[h].chain))
  }

  predicate MarkerHere(wf: Workflow) {
    wf.marker.Some? && wf.marker.value.phase == wf.phase
  }

  ghost predicate BaseReached(db: Db, w: nat)
    requires RowOk(db, w)
  {
    exists i :: 0 <= i <= db.workflows[w].phase && Phases(db, w)[i].EstablishesBase()
  }

  /**
   * The commit base: it is set no earlier than an establishing phase; an open execute phase has one; and a live
   * workflow that has a base but no baton carries a resume marker for the phase it stands at.
   */
  ghost predicate BaseOk(db: Db, w: nat)
    requires RowOk(db, w)
  {
    var wf := db.workflows[w];
    && (wf.base.Some? ==> wf.base.value != "" && BaseReached(db, w))
    && (wf.base.Some? && wf.Live() ==> HasBaton(db, w) || MarkerHere(wf))
    && (HasBaton(db, w) && Phases(db, w)[wf.phase].initialStep == Execute ==> wf.base.Some?)
  }

  ghost predicate FlowCore(db: Db, w: nat)
    requires RefsOk(db)
  {
    && RowOk(db, w)
    && RunsOk(db, w)
    && OpenRunsOk(db, w)
    && NewestOk(db, w)
    && BatonOk(db, w)
    && HistoryOk(db, w)
    && LoopOk(db, w)
  }

  ghost predicate FlowOk(db: Db, w: nat)
    requires RefsOk(db)
  {
    FlowCore(db, w) && BaseOk(db, w)
  }

  ghost predicate Inv(db: Db) {
    && RegistryOk(db)
    && RefsOk(db)
    && OneLive(db)
    && forall w | 0 <= w < |db.workflows| :: FlowOk(db, w)
  }

  function EmptyDb(registry: map<string, Definition>): Db {
    Db(registry, map[], [], [], [], [])
  }
}
