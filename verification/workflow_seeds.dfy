/** Resumed phase runs: the seed a first handoff opens with belongs to its phase and states the lasting commit base. */
module WorkflowSeeds {
  import opened Wrappers
  import opened Registry
  import opened WorkflowTables
  import opened WorkflowSteps
  import opened WorkflowFrames
  import opened WorkflowSafety
  import opened WorkflowHistory
  import opened WorkflowRuns

  /** The seed of a handoff is for the phase of its run, and the base it states is the workflow's own. */
  ghost predicate SeedOk(db: Db, h: nat)
    requires RefsOk(db) && h < |db.handoffs|
  {
    var row := db.handoffs[h];
    && row.workflow < |db.workflows|
    && (row.seed.Some? ==> row.seed.value.phase == db.runs[row.run].phase)
    && (row.seedBase.Some? ==> db.workflows[row.workflow].base == row.seedBase)
  }

  ghost predicate SeedsFrom(db: Db, n: nat)
    requires RefsOk(db)
  {
    forall h | n <= h < |db.handoffs| :: SeedOk(db, h)
  }

  ghost predicate Unseeded(db: Db, n: nat) {
    forall h | n <= h < |db.handoffs| :: db.handoffs[h].seed.None? && db.handoffs[h].seedBase.None?
  }

  lemma UnseededIsOk(db: Db, n: nat)
    requires RefsOk(db) && Unseeded(db, n)
    ensures SeedsFrom(db, n)
  {
  }

  lemma SettleUnseeded(db: Db, h: nat, input: VerdictInput)
    requires RefsOk(db) && VerdictReady(db, h)
    ensures Unseeded(Settle(db, h, input).0, |db.handoffs|)
  {
    var row := db.handoffs[h];
    var w := row.workflow;
    var chain := db.chains[row.chain];
    var (verdict, reason) := NormalizeVerdict(row.step, input.verdict, input.confidence, chain.round, chain.maxRounds, input.reason);
    if (verdict == Approve || verdict == ExecutionPass) && MoveOf(db, w).StartAgain? {
      RestartUnseeded(db, h, verdict, MoveOf(db, w).row, input.head);
    }
  }

  lemma RestartUnseeded(db: Db, h: nat, verdict: Verdict, row: Workflow, head: Option<string>)
    requires RefsOk(db) && VerdictReady(db, h) && row.phase < |Phases(db, db.handoffs[h].workflow)|
    ensures Unseeded(Restart(db, h, verdict, row, head).0, |db.handoffs|)
  {
  }

  /** The one place where a seed is written: kickoff, on the marker of the phase it starts. */
  lemma KickoffSeeds(db: Db, w: nat, head: Option<string>, setupOk: bool)
    requires Inv(db) && RefsOk(Kickoff(db, w, head, setupOk))
    ensures SeedsFrom(Kickoff(db, w, head, setupOk), |db.handoffs|)
  {
  }

  lemma NoticeUnseeded(db: Db, h: nat, why: string)
    requires Inv(db)
    ensures Unseeded(EscalateNotice(db, h, why).0, |db.handoffs|)
  {
    var input := VerdictInput(Escalate, 1.0, why, None);
    if h < |db.handoffs| && db.handoffs[h].verdict.None? && VerdictRefusal(db, h, input).None? && db.handoffs[h].status == Accepted {
      SettleUnseeded(db.(handoffs := db.handoffs[h := db.handoffs[h].(status := Failed)]), h, input);
    }
  }

  lemma NextSeedsNew(db: Db, step: Step)
    requires Inv(db) && Inv(Next(db, step))
    ensures SeedsFrom(Next(db, step), |db.handoffs|)
  {
    match step
    case StartPhase(w, head, setupOk) => KickoffSeeds(db, w, head, setupOk);
    case GiveVerdict(h, input) =>
      if h < |db.handoffs| && db.handoffs[h].verdict.None? && VerdictRefusal(db, h, input).None? {
        SettleUnseeded(db, h, input);
        UnseededIsOk(Next(db, step), |db.handoffs|);
      }
    case NoticeEscalation(h, why) =>
      NoticeUnseeded(db, h, why);
      UnseededIsOk(Next(db, step), |db.handoffs|);
    case _ =>
  }

  lemma NextSeeds(db: Db, step: Step)
    requires Inv(db) && SeedsFrom(db, 0)
    ensures Inv(Next(db, step)) && SeedsFrom(Next(db, step), 0)
  {
    var db' := Next(db, step);
    NextKeepsInv(db, step);
    NextEffect(db, step);
    NextSeedsNew(db, step);
    forall h | 0 <= h < |db.handoffs|
      ensures SeedOk(db', h)
    {
      SeedStays(db, db', h);
    }
  }

  lemma SeedStays(db: Db, db': Db, h: nat)
    requires RefsOk(db) && RefsOk(db') && StepEffect(db, db') && h < |db.handoffs| && SeedOk(db, h)
    ensures h < |db'.handoffs| && SeedOk(db', h)
  {
    assert SameHandoffKeys(db.handoffs[h], db'.handoffs[h]);
    assert RowStep(db.workflows[db.handoffs[h].workflow], db'.workflows[db.handoffs[h].workflow]);
  }

  lemma {:induction false} RunSeeds(db: Db, steps: seq<Step>)
    requires Inv(db) && SeedsFrom(db, 0)
    ensures SeedsFrom(Run(db, steps), 0)
    decreases |steps|
  {
    if steps == [] {
    } else {
      NextSeeds(db, steps[0]);
      RunSeeds(Next(db, steps[0]), steps[1..]);
    }
  }

  /** What a resumed chain is told as its review base is the workflow's commit base, then and ever after. */
  lemma SeedsTellTheBase(steps: seq<Step>, more: seq<Step>, h: nat)
    ensures var db := Reach(steps); var db' := Run(db, more);
      h < |db.handoffs| && db.handoffs[h].seedBase.Some? ==>
        && db.handoffs[h].workflow < |db'.workflows|
        && db'.workflows[db.handoffs[h].workflow].base == db.handoffs[h].seedBase
  {
    StartIsOk();
    RunSeeds(EmptyDb(REGISTRY), steps);
    if h < |Reach(steps).handoffs| {
      assert SeedOk(Reach(steps), h);
      BaseWrittenOnce(steps, more, Reach(steps).handoffs[h].workflow);
    }
  }

  // ------------------------------------------------------------ one shot

  /** A step keeps w's marker, or clears it, or, resuming w from halted, writes one. */
  ghost predicate MarkerStep(db: Db, step: Step, db': Db, w: nat) {
    && w < |db.workflows| && w < |db'.workflows|
    && (db'.workflows[w].marker != db.workflows[w].marker ==>
          (db'.workflows[w].marker.None? || (step.Resume? && step.w == w && db.workflows[w].status == Halted)))
  }

  lemma KickoffMarker(db: Db, v: nat, head: Option<string>, setupOk: bool, w: nat)
    requires w < |db.workflows|
    ensures MarkerStep(db, StartPhase(v, head, setupOk), Kickoff(db, v, head, setupOk), w)
    ensures var db' := Kickoff(db, v, head, setupOk); |db'.runs| > |db.runs| && v == w ==> db'.workflows[w].marker.None?
  {
  }

  lemma OperatorMarker(db: Db, step: Step, w: nat)
    requires RefsOk(db) && w < |db.workflows| && !step.StartPhase? && !step.GiveVerdict? && !step.NoticeEscalation?
    ensures MarkerStep(db, step, Next(db, step), w)
  {
    hide ApplyVerdict, EscalateNotice, Kickoff;
  }

  lemma VerdictMarker(db: Db, h: nat, input: VerdictInput, w: nat)
    requires RefsOk(db) && w < |db.workflows|
    ensures MarkerStep(db, GiveVerdict(h, input), ApplyVerdict(db, h, input).0, w)
  {
    if h < |db.handoffs| && db.handoffs[h].verdict.None? && VerdictRefusal(db, h, input).None? { SettleMarker(db, h, input, w); }
  }

  lemma NoticeMarker(db: Db, h: nat, why: string, w: nat)
    requires RefsOk(db) && w < |db.workflows|
    ensures MarkerStep(db, NoticeEscalation(h, why), EscalateNotice(db, h, why).0, w)
  {
    var escalation := VerdictInput(Escalate, 1.0, why, None);
    if h < |db.handoffs| && db.handoffs[h].verdict.None? && VerdictRefusal(db, h, escalation).None? && db.handoffs[h].status == Accepted {
      SettleMarker(db.(handoffs := db.handoffs[h := db.handoffs[h].(status := Failed)]), h, escalation, w);
    }
  }

  /** A marker lasts for one phase run: a begun run leaves none, and only a resume from halted writes one. */
  lemma MarkerIsOneShot(db: Db, step: Step, w: nat)
    requires RefsOk(db) && w < |db.workflows|
    ensures MarkerStep(db, step, Next(db, step), w)
    ensures step.StartPhase? && step.w == w && |Next(db, step).runs| > |db.runs| ==> Next(db, step).workflows[w].marker.None?
  {
    hide ApplyVerdict, EscalateNotice, Kickoff, MarkerStep;
    match step
    case StartPhase(v, head, setupOk) => KickoffMarker(db, v, head, setupOk, w);
    case GiveVerdict(h, input) => VerdictMarker(db, h, input, w);
    case NoticeEscalation(h, why) => NoticeMarker(db, h, why, w);
    case _ => OperatorMarker(db, step, w);
  }

  lemma SettleMarker(db: Db, h: nat, input: VerdictInput, w: nat)
    requires RefsOk(db) && VerdictReady(db, h) && w < |db.workflows|
    ensures var db' := Settle(db, h, input).0; w < |db'.workflows| && db'.workflows[w].marker == db.workflows[w].marker
  {
  }
}
