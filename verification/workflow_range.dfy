/** The commit range: a run of a phase whose texts speak of it always has a base to start it from. */
module WorkflowRange {
  import opened Wrappers
  import opened Registry
  import opened WorkflowTables
  import opened WorkflowSteps
  import opened WorkflowFrames
  import opened WorkflowSafety
  import opened WorkflowHistory
  import opened WorkflowRuns
  import opened WorkflowExecute
  import opened WorkflowAnswers
  import opened WorkflowKickoff

  /** Where a phase that establishes the base has been entered, the base is there. */
  ghost predicate BaseThere(db: Db, w: nat) {
    RowOk(db, w) ==> forall i | 0 <= i <= db.workflows[w].phase && Phases(db, w)[i].EstablishesBase()
                                && (i < db.workflows[w].phase || HasOpenRunHere(db, w)) :: db.workflows[w].base.Some?
  }

  ghost predicate AllThere(db: Db) {
    && (forall k | k in db.registry :: RangesOk(db.registry[k]))
    && forall w | 0 <= w < |db.workflows| :: BaseThere(db, w)
  }

  /** The head that a kickoff reads is never empty. */
  predicate HeadRead(step: Step) {
    step.StartPhase? ==> step.head != Some("")
  }

  /** Neither w's index nor its open runs have changed, but that some may have been closed. */
  lemma StaysThere(db: Db, db': Db, w: nat)
    requires Inv(db) && Inv(db') && StepEffect(db, db') && w < |db.workflows| && BaseThere(db, w)
    requires db'.workflows[w].phase == db.workflows[w].phase
    requires forall r | |db.runs| <= r < |db'.runs| :: db'.runs[r].workflow != w
    ensures BaseThere(db', w)
  {
    assert RowStep(db.workflows[w], db'.workflows[w]);
    if HasOpenRunHere(db', w) {
      var r :| 0 <= r < |db'.runs| && db'.runs[r].workflow == w && db'.runs[r].phase == db'.workflows[w].phase && db'.runs[r].outcome.None?;
      assert SameRunKeys(db.runs[r], db'.runs[r]);
      assert HasOpenRunHere(db, w);
    }
  }

  lemma VerdictAddsRunsOnlyToAdvance(db: Db, h: nat, input: VerdictInput)
    requires RefsOk(db) && ApplyVerdict(db, h, input).1 != Ok(PhaseAdvanced)
    ensures var db' := ApplyVerdict(db, h, input).0;
      && |db'.runs| == |db.runs| && |db'.workflows| == |db.workflows|
      && forall v | 0 <= v < |db.workflows| :: db'.workflows[v].phase == db.workflows[v].phase
  {
  }

  lemma NoticeAddsNoRun(db: Db, h: nat, why: string)
    requires RefsOk(db)
    ensures var db' := EscalateNotice(db, h, why).0;
      && |db'.runs| == |db.runs| && |db'.workflows| == |db.workflows|
      && forall v | 0 <= v < |db.workflows| :: db'.workflows[v].phase == db.workflows[v].phase
  {
  }

  /** The judged handoff's run was open at the index. */
  lemma JudgedIsOpen(db: Db, h: nat)
    requires Inv(db) && InPlay(db, h)
    ensures HasOpenRunHere(db, db.handoffs[h].workflow)
  {
    var w := db.handoffs[h].workflow;
    assert FlowOk(db, w) && Baton(db, w, h);
    BatonIffOpenRun(db, w);
  }

  lemma AdvanceThere(db: Db, h: nat, input: VerdictInput)
    requires Inv(db) && ExecuteOk(db) && AllThere(db) && ApplyVerdict(db, h, input).1 == Ok(PhaseAdvanced)
    ensures h < |db.handoffs| && BaseThere(ApplyVerdict(db, h, input).0, db.handoffs[h].workflow)
  {
    AdvancedToNext(db, h, input);
    AdvanceHead(db, h, input);
    JudgedIsOpen(db, h);
    var w := db.handoffs[h].workflow;
    assert BaseThere(db, w) && FlowOk(db, w) && RangesOk(db.registry[db.workflows[w].kind]);
    hide Inv, FlowOk, ExecuteOk, AllThere, ApplyVerdict, HasOpenRunHere;
  }

  /** An advance onto an execute phase brings a head. */
  lemma AdvanceHead(db: Db, h: nat, input: VerdictInput)
    requires Inv(db) && ExecuteOk(db) && ApplyVerdict(db, h, input).1 == Ok(PhaseAdvanced)
    ensures InPlay(db, h)
    ensures var w := db.handoffs[h].workflow;
      && (PhaseOf(db, w).repeats || db.workflows[w].phase + 1 < PhaseCount(db, w))
      && var row := AdvancedRow(db, w, input.head);
         (row.phase < PhaseCount(db, w) && row.phase != db.workflows[w].phase
          && db.registry[row.kind].phases[row.phase].initialStep == Execute) ==> input.head.Some?
  {
    AnswersInv(db, h, input);
    AdvancedToNext(db, h, input);
    assert StepFitsPhase(db, h);
    RefusedWhen(db, h, input);
    RestartNeverThrows(db, h, input, input.verdict);
    EntryNeedsCommit(db, h, input.verdict, input);
    hide Inv, ExecuteOk, ApplyVerdict;
  }

  lemma VerdictThere(db: Db, h: nat, input: VerdictInput, w: nat)
    requires Inv(db) && ExecuteOk(db) && AllThere(db) && w < |db.workflows|
    ensures BaseThere(ApplyVerdict(db, h, input).0, w)
  {
    hide ApplyVerdict, FlowOk, ExecuteOk, RegistryOk, OneLive;
    var db', reply := ApplyVerdict(db, h, input).0, ApplyVerdict(db, h, input).1;
    NextKeepsInv(db, GiveVerdict(h, input));
    VerdictEffect(db, h, input);
    if reply == Ok(PhaseAdvanced) {
      AdvanceThere(db, h, input);
      AdvancedToNext(db, h, input);
      if db.handoffs[h].workflow != w { StaysThere(db, db', w); }
    } else {
      VerdictAddsRunsOnlyToAdvance(db, h, input);
      StaysThere(db, db', w);
    }
  }

  lemma StartedThere(db: Db, db': Db, w: nat, head: Option<string>)
    requires w < |db.workflows| && RowStands(db, w) && BaseThere(db, w) && Started(db, db', w, head) && head != Some("")
    requires ReadsHead(db.workflows[w], PhaseOf(db, w)) ==> head.Some?
    ensures BaseThere(db', w)
  {
    hide HasOpenRunHere, Opens;
    var wf, phase := db.workflows[w], PhaseOf(db, w);
    assert db'.workflows[w] == wf.(marker := None, base := BaseAfter(wf, phase, head));
    assert Phases(db', w) == Phases(db, w) && Phases(db, w)[wf.phase] == phase;
    assert phase.EstablishesBase() ==> db'.workflows[w].base.Some?;
    assert wf.base.Some? ==> db'.workflows[w].base.Some?;
  }

  lemma KickoffThere(db: Db, v: nat, head: Option<string>, setupOk: bool, w: nat)
    requires Inv(db) && ExecuteOk(db) && AllThere(db) && w < |db.workflows| && head != Some("")
    ensures BaseThere(Kickoff(db, v, head, setupOk), w)
  {
    hide FlowOk, ExecuteOk, RegistryOk, OneLive, Kickoff;
    var db' := Kickoff(db, v, head, setupOk);
    NextKeepsInv(db, StartPhase(v, head, setupOk));
    KickoffEffect(db, v, head, setupOk);
    KickoffInv(db, v, head, setupOk);
    if Waiting(db, v) && CanStart(db, v, head, setupOk) && v == w {
      StartedThere(db, db', w, head);
    } else {
      StaysThere(db, db', w);
    }
  }

  lemma NextThereOld(db: Db, step: Step, w: nat)
    requires Inv(db) && ExecuteOk(db) && AllThere(db) && HeadRead(step) && w < |db.workflows|
    ensures BaseThere(Next(db, step), w)
  {
    hide ApplyVerdict, EscalateNotice, Kickoff, FlowOk, ExecuteOk, RegistryOk, OneLive, BaseThere;
    match step
    case StartPhase(v, head, setupOk) => KickoffThere(db, v, head, setupOk, w);
    case GiveVerdict(h, input) => VerdictThere(db, h, input, w);
    case NoticeEscalation(h, why) =>
      NextKeepsInv(db, step);
      NextEffect(db, step);
      NoticeAddsNoRun(db, h, why);
      StaysThere(db, Next(db, step), w);
    case _ =>
      NextKeepsInv(db, step);
      NextEffect(db, step);
      StaysThere(db, Next(db, step), w);
  }

  lemma CreatedThere(db: Db, step: Step, w: nat)
    requires Inv(db) && |db.workflows| <= w < |Next(db, step).workflows| && step.Create?
    ensures BaseThere(Next(db, step), w)
  {
    var db' := Next(db, step);
    assert db'.runs == db.runs;
    assert forall r | 0 <= r < |db'.runs| :: db'.runs[r].workflow != w;
  }

  lemma NextThere(db: Db, step: Step)
    requires Inv(db) && ExecuteOk(db) && AllThere(db) && HeadRead(step)
    ensures Inv(Next(db, step)) && ExecuteOk(Next(db, step)) && AllThere(Next(db, step))
  {
    hide Next, Inv, ExecuteOk, BaseThere, RangesOk;
    InvRefs(db);
    NextExecutes(db, step);
    NextEffect(db, step);
    var db' := Next(db, step);
    forall w | 0 <= w < |db'.workflows| ensures BaseThere(db', w) {
      if w < |db.workflows| {
        NextThereOld(db, step, w);
      } else {
        if !step.Create? { OnlyCreateAdds(db, step); }
        CreatedThere(db, step, w);
      }
    }
  }

  ghost predicate HeadsRead(steps: seq<Step>) {
    forall i | 0 <= i < |steps| :: HeadRead(steps[i])
  }

  lemma {:induction false} RunThere(db: Db, steps: seq<Step>)
    requires Inv(db) && ExecuteOk(db) && AllThere(db) && HeadsRead(steps)
    ensures AllThere(Run(db, steps))
    decreases |steps|
  {
    if steps == [] {
    } else {
      assert HeadRead(steps[0]);
      NextThere(db, steps[0]);
      RunThere(Next(db, steps[0]), steps[1..]);
    }
  }

  /**
   * In every state that is reachable without an empty head, a workflow with an open run of a phase whose texts speak of
   * the commit range has a base, and it is not empty.
   */
  lemma RangeHasBase(steps: seq<Step>, w: nat)
    ensures var db := Reach(steps);
      HeadsRead(steps) && w < |db.workflows| && RowStands(db, w) && HasOpenRunHere(db, w) && PhaseOf(db, w).mentionsCommitRange ==>
        db.workflows[w].base.Some? && db.workflows[w].base.value != ""
  {
    var db := Reach(steps);
    if HeadsRead(steps) && w < |db.workflows| && RowStands(db, w) && HasOpenRunHere(db, w) && PhaseOf(db, w).mentionsCommitRange {
      StartIsOk();
      forall k | k in REGISTRY ensures RangesOk(REGISTRY[k]) { RegistryRangesOk(k); }
      RunThere(EmptyDb(REGISTRY), steps);
      RunKeeps(EmptyDb(REGISTRY), steps);
      assert BaseThere(db, w) && FlowOk(db, w);
      var i :| 0 <= i <= db.workflows[w].phase && Phases(db, w)[i].EstablishesBase();
    }
  }
}
