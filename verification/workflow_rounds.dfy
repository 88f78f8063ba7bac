/** The rounds of a chain's handoffs: they start at 1, never fall, and stay within the chain's own round and limit. */
module WorkflowRounds {
  import opened Wrappers
  import opened Registry
  import opened WorkflowTables
  import opened WorkflowSteps
  import opened WorkflowFrames
  import opened WorkflowSafety
  import opened WorkflowHistory
  import opened WorkflowRuns

  ghost predicate RoundsOk(db: Db)
    requires RefsOk(db)
  {
    && (forall h | 0 <= h < |db.handoffs| :: 1 <= db.handoffs[h].round <= db.chains[db.handoffs[h].chain].round)
    && (forall g, h | 0 <= g < h < |db.handoffs| && db.handoffs[g].chain == db.handoffs[h].chain ::
          db.handoffs[g].round <= db.handoffs[h].round)
  }

  /** A handoff enters at the round of its chain. */
  ghost predicate EnterAtTop(db: Db, n: nat)
    requires RefsOk(db)
  {
    forall h | n <= h < |db.handoffs| :: 1 <= db.handoffs[h].round == db.chains[db.handoffs[h].chain].round
  }

  lemma AdvanceEnters(db: Db, h: nat, verdict: Verdict, head: Option<string>)
    requires RefsOk(db) && VerdictReady(db, h) && RefsOk(Advance(db, h, verdict, head).0)
    ensures EnterAtTop(Advance(db, h, verdict, head).0, |db.handoffs|)
  {
  }

  lemma SettleEnters(db: Db, h: nat, input: VerdictInput)
    requires RefsOk(db) && VerdictReady(db, h) && RefsOk(Settle(db, h, input).0)
    requires 1 <= db.chains[db.handoffs[h].chain].round
    ensures EnterAtTop(Settle(db, h, input).0, |db.handoffs|)
  {
    var row := db.handoffs[h];
    var chain := db.chains[row.chain];
    var (verdict, _) := NormalizeVerdict(row.step, input.verdict, input.confidence, chain.round, chain.maxRounds, input.reason);
    if verdict == Approve || verdict == ExecutionPass { AdvanceEnters(db, h, verdict, input.head); }
  }

  lemma KickoffEnters(db: Db, w: nat, head: Option<string>, setupOk: bool)
    requires RefsOk(db) && RefsOk(Kickoff(db, w, head, setupOk))
    ensures EnterAtTop(Kickoff(db, w, head, setupOk), |db.handoffs|)
  {
  }

  lemma VerdictEnters(db: Db, h: nat, input: VerdictInput)
    requires RefsOk(db) && RoundsOk(db) && RefsOk(ApplyVerdict(db, h, input).0)
    ensures EnterAtTop(ApplyVerdict(db, h, input).0, |db.handoffs|)
  {
    if h < |db.handoffs| && db.handoffs[h].verdict.None? && VerdictRefusal(db, h, input).None? { SettleEnters(db, h, input); }
  }

  lemma NoticeEnters(db: Db, h: nat, why: string)
    requires RefsOk(db) && RoundsOk(db) && RefsOk(EscalateNotice(db, h, why).0)
    ensures EnterAtTop(EscalateNotice(db, h, why).0, |db.handoffs|)
  {
    var input := VerdictInput(Escalate, 1.0, why, None);
    if h < |db.handoffs| && db.handoffs[h].verdict.None? && VerdictRefusal(db, h, input).None? && db.handoffs[h].status == Accepted {
      SettleEnters(WithHandoff(db, h, db.handoffs[h].(status := Failed)), h, input);
    }
  }

  lemma NextEnters(db: Db, step: Step)
    requires RefsOk(db) && RefsOk(Next(db, step)) && RoundsOk(db)
    ensures EnterAtTop(Next(db, step), |db.handoffs|)
  {
    hide Kickoff, ApplyVerdict, EscalateNotice, RefsOk, RoundsOk;
    match step
    case StartPhase(w, head, setupOk) => KickoffEnters(db, w, head, setupOk);
    case GiveVerdict(h, input) => VerdictEnters(db, h, input);
    case NoticeEscalation(h, why) => NoticeEnters(db, h, why);
    case _ =>
  }

  lemma NextRounds(db: Db, step: Step)
    requires Inv(db) && RoundsOk(db)
    ensures Inv(Next(db, step)) && RoundsOk(Next(db, step))
  {
    var db' := Next(db, step);
    NextKeepsInv(db, step);
    NextEffect(db, step);
    NextEnters(db, step);
    RoundsFollow(db, db');
  }

  lemma RoundsFollow(db: Db, db': Db)
    requires RefsOk(db) && RefsOk(db') && RoundsOk(db) && Records(db, db') && EnterAtTop(db', |db.handoffs|)
    ensures RoundsOk(db')
  {
    forall h | 0 <= h < |db'.handoffs|
      ensures 1 <= db'.handoffs[h].round <= db'.chains[db'.handoffs[h].chain].round
    {
      if h < |db.handoffs| { assert SameHandoffKeys(db.handoffs[h], db'.handoffs[h]); }
    }
    forall g, h | 0 <= g < h < |db'.handoffs| && db'.handoffs[g].chain == db'.handoffs[h].chain
      ensures db'.handoffs[g].round <= db'.handoffs[h].round
    {
      if h < |db.handoffs| {
        assert SameHandoffKeys(db.handoffs[g], db'.handoffs[g]) && SameHandoffKeys(db.handoffs[h], db'.handoffs[h]);
      } else {
        assert db'.handoffs[g].round <= db'.chains[db'.handoffs[h].chain].round;
      }
    }
  }

  lemma {:induction false} RunRounds(db: Db, steps: seq<Step>)
    requires Inv(db) && RoundsOk(db)
    ensures RoundsOk(Run(db, steps))
    decreases |steps|
  {
    if steps == [] {
    } else {
      NextRounds(db, steps[0]);
      RunRounds(Next(db, steps[0]), steps[1..]);
    }
  }

  /** In every reachable state a handoff's round lies between 1 and the limit of its chain, and no later one is lower. */
  lemma HandoffRounds(steps: seq<Step>, g: nat, h: nat)
    ensures var db := Reach(steps);
      && (h < |db.handoffs| ==>
            && db.handoffs[h].chain < |db.chains|
            && 1 <= db.handoffs[h].round <= db.chains[db.handoffs[h].chain].round <= db.chains[db.handoffs[h].chain].maxRounds)
      && (g < h < |db.handoffs| && db.handoffs[g].chain == db.handoffs[h].chain ==>
            db.handoffs[g].round <= db.handoffs[h].round)
  {
    StartIsOk();
    RunRounds(EmptyDb(REGISTRY), steps);
    if h < |Reach(steps).handoffs| { RoundBound(steps, Reach(steps).handoffs[h].chain); }
  }
}
