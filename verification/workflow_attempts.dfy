/** One attempt at a phase is one chain, and a chain takes fewer than twice its round limit in verdicts. */
module WorkflowAttempts {
  import opened Wrappers
  import opened Registry
  import opened WorkflowTables
  import opened WorkflowSteps
  import opened WorkflowFrames
  import opened WorkflowSafety
  import opened WorkflowHistory
  import opened WorkflowBudget

  predicate AnyBaton(db: Db, h: nat) {
    h < |db.handoffs| && Baton(db, db.handoffs[h].workflow, h)
  }

  function MaxOf(db: Db, h: nat): nat
    requires h < |db.handoffs| && db.handoffs[h].chain < |db.chains|
  {
    db.chains[db.handoffs[h].chain].maxRounds
  }

  lemma AnyBatonFits(db: Db, h: nat)
    requires Inv(db) && AnyBaton(db, h)
    ensures db.handoffs[h].workflow < |db.workflows| && BatonFits(db, db.handoffs[h].workflow, h)
  {
    assert FlowOk(db, db.handoffs[h].workflow);
  }

  function Held(db: Db, h: nat): nat
    requires h < |db.handoffs| && db.handoffs[h].chain < |db.chains| && db.handoffs[h].round <= MaxOf(db, h)
  {
    HeldSteps(db.handoffs[h].step, db.handoffs[h].round, MaxOf(db, h))
  }

  /** What the chain of baton h has taken and can still take. */
  ghost predicate Affords(db: Db, h: nat)
    requires Inv(db) && AnyBaton(db, h)
  {
    AnyBatonFits(db, h);
    Verdicts(db.handoffs, OfChain(db.handoffs[h].chain)) + Held(db, h) <= 2 * MaxOf(db, h) - 1
  }

  ghost predicate AttemptsOk(db: Db)
    requires Inv(db)
  {
    && (forall r | 0 <= r < |db.chains| :: Verdicts(db.handoffs, OfChain(r)) <= 2 * db.chains[r].maxRounds - 1)
    && (forall h: nat | AnyBaton(db, h) :: Affords(db, h))
  }

  /** g carries h's chain on, with less left to do. */
  ghost predicate Succeeds(db': Db, g: nat, db: Db, h: nat)
    requires Inv(db) && AnyBaton(db, h) && Inv(db') && AnyBaton(db', g)
  {
    AnyBatonFits(db, h);
    AnyBatonFits(db', g);
    db'.handoffs[g].chain == db.handoffs[h].chain && Held(db', g) + 1 <= Held(db, h)
  }

  /** A baton of the next state is an old one on another chain, the first of a new chain, or h's successor. */
  ghost predicate BatonsFollow(db: Db, db': Db, h: Option<nat>)
    requires Inv(db) && Inv(db')
  {
    forall g: nat | AnyBaton(db', g) ::
      || (AnyBaton(db, g) && (h.Some? ==> h.value < |db.handoffs| && db.handoffs[g].chain != db.handoffs[h.value].chain))
      || (|db.handoffs| <= g && |db.chains| <= db'.handoffs[g].chain)
      || (h.Some? && AnyBaton(db, h.value) && Succeeds(db', g, db, h.value))
  }

  ghost predicate VerdictsOnlyAt(db: Db, db': Db, h: Option<nat>) {
    forall i | 0 <= i < |db'.handoffs| ::
      db'.handoffs[i].verdict.Some? ==> i < |db.handoffs| && (db.handoffs[i].verdict.Some? || h == Some(i))
  }

  lemma ChainVerdictsStep(db: Db, db': Db, h: Option<nat>, c: nat)
    requires RefsOk(db) && RefsOk(db') && Records(db, db') && VerdictsOnlyAt(db, db', h) && (h.Some? ==> h.value < |db.handoffs|)
    ensures Verdicts(db'.handoffs, OfChain(c)) <=
      Verdicts(db.handoffs, OfChain(c)) + (if h.Some? && db.handoffs[h.value].chain == c then 1 else 0)
    ensures |db.chains| <= c ==> Verdicts(db'.handoffs, OfChain(c)) == 0
  {
    VerdictsAtMost(db.handoffs, db'.handoffs, OfChain(c), if h.Some? && db.handoffs[h.value].chain == c then h else None);
    if |db.chains| <= c { VerdictsAtMost([], db'.handoffs, OfChain(c), None); }
  }

  lemma AttemptsStep(db: Db, db': Db, h: Option<nat>)
    requires Inv(db) && Inv(db') && AttemptsOk(db) && Records(db, db')
    requires h.Some? ==> AnyBaton(db, h.value)
    requires VerdictsOnlyAt(db, db', h) && BatonsFollow(db, db', h)
    ensures AttemptsOk(db')
  {
    hide Verdicts, FlowOk, OneLive, RegistryOk;
    forall r | 0 <= r < |db'.chains|
      ensures Verdicts(db'.handoffs, OfChain(r)) <= 2 * db'.chains[r].maxRounds - 1
    {
      ChainWithinLimit(db, db', h, r);
    }
    forall g: nat | AnyBaton(db', g)
      ensures Affords(db', g)
    {
      AnyBatonFits(db', g);
      ChainVerdictsStep(db, db', h, db'.handoffs[g].chain);
    }
  }

  lemma ChainWithinLimit(db: Db, db': Db, h: Option<nat>, r: nat)
    requires Inv(db) && Inv(db') && AttemptsOk(db) && Records(db, db') && r < |db'.chains|
    requires (h.Some? ==> AnyBaton(db, h.value)) && VerdictsOnlyAt(db, db', h)
    ensures Verdicts(db'.handoffs, OfChain(r)) <= 2 * db'.chains[r].maxRounds - 1
  {
    hide Verdicts;
    ChainVerdictsStep(db, db', h, r);
    assert db'.runs[r].workflow < |db'.workflows| && FlowOk(db', db'.runs[r].workflow);
    if h.Some? && db.handoffs[h.value].chain == r { AnyBatonFits(db, h.value); }
  }

  // ------------------------------------------------------------ the steps

  ghost predicate Quiet(db: Db, db': Db) {
    && |db'.handoffs| == |db.handoffs| && |db'.chains| == |db.chains|
    && (forall i | 0 <= i < |db.handoffs| :: db'.handoffs[i].verdict == db.handoffs[i].verdict)
    && (forall r | 0 <= r < |db.chains| :: db'.chains[r].status == Active ==> db.chains[r].status == Active)
  }

  lemma OperatorIsQuiet(db: Db, step: Step)
    requires RefsOk(db) && !step.StartPhase? && !step.GiveVerdict? && !step.NoticeEscalation?
    ensures Quiet(db, Next(db, step))
  {
    hide ApplyVerdict, EscalateNotice, Kickoff;
  }

  /** A step that judges nothing and opens no chain. */
  lemma QuietStep(db: Db, db': Db)
    requires Inv(db) && Inv(db') && AttemptsOk(db) && Records(db, db')
    requires Quiet(db, db')
    ensures AttemptsOk(db')
  {
    assert forall g: nat :: AnyBaton(db', g) ==> AnyBaton(db, g);
    AttemptsStep(db, db', None);
  }

  lemma BeginFollows(db: Db, w: nat, phase: Phase, entryBase: Option<string>, seedBase: Option<string>)
    requires Inv(db) && AttemptsOk(db) && w < |db.workflows| && BeginPhaseRun(db, w, phase, entryBase, seedBase).1.Ok?
    requires Inv(BeginPhaseRun(db, w, phase, entryBase, seedBase).0) && Records(db, BeginPhaseRun(db, w, phase, entryBase, seedBase).0)
    ensures AttemptsOk(BeginPhaseRun(db, w, phase, entryBase, seedBase).0)
  {
    var db' := BeginPhaseRun(db, w, phase, entryBase, seedBase).0;
    assert forall g: nat | AnyBaton(db', g) && g < |db.handoffs| :: AnyBaton(db, g);
    AttemptsStep(db, db', None);
  }

  /** Another workflow's baton is on another workflow's chain. */
  lemma OtherChain(db: Db, h: nat, g: nat)
    requires Inv(db) && AnyBaton(db, h) && AnyBaton(db, g) && g != h
    ensures db.handoffs[g].chain != db.handoffs[h].chain
  {
    var w := db.handoffs[h].workflow;
    assert FlowOk(db, w);
    if db.handoffs[g].chain == db.handoffs[h].chain { BatonIsUnique(db, w, g, h); }
  }

  lemma CarryFollows(db: Db, w: nat, h: nat, verdict: Verdict, row: Workflow, step: HandoffStep, newRound: bool)
    requires Inv(db) && AttemptsOk(db) && Baton(db, w, h) && w < |db.workflows| && CarryOk(db, w, h, row, step, newRound)
    requires if newRound then step == Review && (db.handoffs[h].step == Fix || db.handoffs[h].step == Implement)
             else step == Fix && db.handoffs[h].step == Review
    requires Inv(Carry(db, h, verdict, row, step, newRound)) && Records(db, Carry(db, h, verdict, row, step, newRound))
    ensures AttemptsOk(Carry(db, h, verdict, row, step, newRound))
  {
    var db' := Carry(db, h, verdict, row, step, newRound);
    AnyBatonFits(db, h);
    forall g: nat | AnyBaton(db', g) && g < |db.handoffs| ensures AnyBaton(db, g) && db.handoffs[g].chain != db.handoffs[h].chain {
      assert AnyBaton(db, g) && g != h;
      OtherChain(db, h, g);
    }
    assert AnyBaton(db', |db.handoffs|) && Succeeds(db', |db.handoffs|, db, h);
    AttemptsStep(db, db', Some(h));
  }

  /** Closing h's chain, with or without a fresh run behind it. */
  lemma CloseFollows(db: Db, db': Db, w: nat, h: nat)
    requires Inv(db) && AttemptsOk(db) && Baton(db, w, h) && w < |db.workflows|
    requires Inv(db') && Records(db, db') && OnlyJudges(db.handoffs, db'.handoffs, h)
    requires db.handoffs[h].chain < |db'.chains| && db'.chains[db.handoffs[h].chain].status != Active
    requires forall r | 0 <= r < |db.chains| && r != db.handoffs[h].chain :: db'.chains[r] == db.chains[r]
    requires forall g | |db.handoffs| <= g < |db'.handoffs| :: |db.chains| <= db'.handoffs[g].chain
    ensures AttemptsOk(db')
  {
    forall g: nat | AnyBaton(db', g) && g < |db.handoffs| ensures AnyBaton(db, g) && db.handoffs[g].chain != db.handoffs[h].chain {
      assert SameHandoffKeys(db.handoffs[g], db'.handoffs[g]);
    }
    AttemptsStep(db, db', Some(h));
  }

  lemma RestartShape(db: Db, h: nat, verdict: Verdict, row: Workflow, head: Option<string>)
    requires VerdictReady(db, h) && RefsOk(db) && row.phase < |Phases(db, db.handoffs[h].workflow)|
    requires Restart(db, h, verdict, row, head).1.Ok?
    ensures var db' := Restart(db, h, verdict, row, head).0;
      && db.handoffs[h].chain < |db'.chains| && db'.chains[db.handoffs[h].chain].status == Resolved
      && (forall r | 0 <= r < |db.chains| && r != db.handoffs[h].chain :: db'.chains[r] == db.chains[r])
      && (forall g | |db.handoffs| <= g < |db'.handoffs| :: |db.chains| <= db'.handoffs[g].chain)
  {
  }

  lemma SettleAttempts(db: Db, h: nat, input: VerdictInput)
    requires Inv(db) && AttemptsOk(db) && h < |db.handoffs| && db.handoffs[h].verdict.None? && VerdictRefusal(db, h, input).None?
    requires Inv(Settle(db, h, input).0) && Records(db, Settle(db, h, input).0)
    ensures AttemptsOk(Settle(db, h, input).0)
  {
    var row := db.handoffs[h];
    var w := row.workflow;
    var chain := db.chains[row.chain];
    var (db', reply) := Settle(db, h, input);
    AnyBatonFits(db, h);
    SettleJudges(db, h, input);
    var (verdict, reason) := NormalizeVerdict(row.step, input.verdict, input.confidence, chain.round, chain.maxRounds, input.reason);
    if verdict == Findings {
      CarryFollows(db, w, h, verdict, db.workflows[w], Fix, false);
    } else if verdict == Delivered {
      CarryFollows(db, w, h, verdict, DeliveredRow(db, h), Review, true);
    } else if reply.Ok? {
      if (verdict == Approve || verdict == ExecutionPass) && MoveOf(db, w).StartAgain? { RestartShape(db, h, verdict, MoveOf(db, w).row, input.head); }
      CloseFollows(db, db', w, h);
    }
  }

  lemma NoticeAttempts(db: Db, h: nat, why: string)
    requires Inv(db) && AttemptsOk(db) && Inv(EscalateNotice(db, h, why).0)
    ensures AttemptsOk(EscalateNotice(db, h, why).0)
  {
    var input := VerdictInput(Escalate, 1.0, why, None);
    if h < |db.handoffs| && db.handoffs[h].verdict.None? && VerdictRefusal(db, h, input).None? && db.handoffs[h].status == Accepted {
      var row := db.handoffs[h].(status := Failed);
      var db1 := WithHandoff(db, h, row);
      HandoffStatusKeepsInv(db, h, row);
      QuietStep(db, db1);
      SettleEffect(db1, h, input);
      SettleAttempts(db1, h, input);
    }
  }

  lemma KickoffAttempts(db: Db, w: nat, head: Option<string>, setupOk: bool)
    requires Inv(db) && AttemptsOk(db) && Inv(Kickoff(db, w, head, setupOk))
    ensures AttemptsOk(Kickoff(db, w, head, setupOk))
  {
    var db' := Kickoff(db, w, head, setupOk);
    KickoffEffect(db, w, head, setupOk);
    if db'.runs == db.runs {
      QuietStep(db, db');
    } else {
      var phase := Phases(db, w)[db.workflows[w].phase];
      BeginFollows(db, w, phase, EntryBase(db.workflows[w], phase, head), SeedBase(db.workflows[w], phase));
    }
  }

  lemma NextAttempts(db: Db, step: Step)
    requires Inv(db) && AttemptsOk(db)
    ensures Inv(Next(db, step)) && AttemptsOk(Next(db, step))
  {
    hide AttemptsOk, FlowOk, OneLive, RegistryOk, Quiet;
    NextKeepsInv(db, step);
    NextEffect(db, step);
    match step
    case StartPhase(w, head, setupOk) => KickoffAttempts(db, w, head, setupOk);
    case GiveVerdict(h, input) =>
      if h < |db.handoffs| && db.handoffs[h].verdict.None? && VerdictRefusal(db, h, input).None? { SettleAttempts(db, h, input); }
    case NoticeEscalation(h, why) => NoticeAttempts(db, h, why);
    case _ =>
      OperatorIsQuiet(db, step);
      QuietStep(db, Next(db, step));
  }
}
