/** What the engine's own chains feed the resume seed: for every registered workflow the seed is rendered in full. */
module ResumeSeedRuns {
  import opened Wrappers
  import opened Registry
  import opened WorkflowTables
  import opened WorkflowSteps
  import opened WorkflowRuns
  import opened WorkflowRounds
  import opened ResumeSeed
  import opened ResumeSeedFacts

  function StepName(step: HandoffStep): string {
    match step
    case Review => "review"
    case Fix => "fix"
    case Implement => "implement"
    case Execute => "execute"
  }

  function VerdictName(verdict: Verdict): string {
    match verdict
    case Approve => "approve"
    case Findings => "findings"
    case Delivered => "delivered"
    case ExecutionPass => "execution-pass"
    case ExecutionFail => "execution-fail"
    case Escalate => "escalate"
  }

  function RowOf(h: Handoff): SeedRound {
    SeedRound(h.round, Some(StepName(h.step)), if h.verdict.Some? then Some(VerdictName(h.verdict.value)) else None, h.handback)
  }

  /** listRelayHandoffsForChain, as beginPhaseRun maps it: the handoffs of a chain in the order they were made. */
  function ChainRows(handoffs: seq<Handoff>, chain: nat): seq<SeedRound> {
    if handoffs == [] then []
    else
      var last := handoffs[|handoffs| - 1];
      ChainRows(handoffs[..|handoffs| - 1], chain) + if last.chain == chain then [RowOf(last)] else []
  }

  lemma {:induction false} RowsWithin(handoffs: seq<Handoff>, chain: nat, top: nat)
    requires forall h | 0 <= h < |handoffs| && handoffs[h].chain == chain :: 1 <= handoffs[h].round <= top
    ensures forall i | 0 <= i < |ChainRows(handoffs, chain)| :: 1 <= ChainRows(handoffs, chain)[i].round <= top
  {
    if handoffs == [] {
    } else {
      RowsWithin(handoffs[..|handoffs| - 1], chain, top);
    }
  }

  lemma {:induction false} RowsAscend(handoffs: seq<Handoff>, chain: nat)
    requires forall h | 0 <= h < |handoffs| && handoffs[h].chain == chain :: 1 <= handoffs[h].round
    requires forall g, h | 0 <= g < h < |handoffs| && handoffs[g].chain == chain && handoffs[h].chain == chain ::
        handoffs[g].round <= handoffs[h].round
    ensures Ascending(ChainRows(handoffs, chain))
  {
    if handoffs == [] {
    } else {
      var n := |handoffs| - 1;
      RowsAscend(handoffs[..n], chain);
      if handoffs[n].chain == chain { RowsWithin(handoffs[..n], chain, handoffs[n].round); }
    }
  }

  lemma RegisteredRounds(kind: string, j: nat)
    requires kind in REGISTRY && j < |REGISTRY[kind].phases|
    ensures REGISTRY[kind].phases[j].maxRounds <= 10
  {
    assert REGISTRY[kind] in {SPEC_DRIVEN_DEVELOPMENT, RALPH_LOOP, COMPLEX_BUG_FIXING, DELIBERATION, QUICK_TASK};
  }

  /** No chain has more than ten rounds, and its rows are read in ascending rounds. */
  lemma ChainRowsOk(steps: seq<Step>, chain: nat)
    ensures var rows := ChainRows(Reach(steps).handoffs, chain);
      Ascending(rows) && forall i | 0 <= i < |rows| :: 1 <= rows[i].round <= 10
  {
    hide ChainRows;
    var db := Reach(steps);
    forall h | 0 <= h < |db.handoffs| && db.handoffs[h].chain == chain
      ensures 1 <= db.handoffs[h].round <= 10
    {
      HandoffRounds(steps, 0, h);
      ChainLimit(steps, chain);
    }
    forall g, h | 0 <= g < h < |db.handoffs| && db.handoffs[g].chain == chain && db.handoffs[h].chain == chain
      ensures db.handoffs[g].round <= db.handoffs[h].round
    {
      HandoffRounds(steps, g, h);
    }
    RowsWithin(db.handoffs, chain, 10);
    RowsAscend(db.handoffs, chain);
  }

  lemma ChainLimit(steps: seq<Step>, chain: nat)
    ensures chain < |Reach(steps).chains| ==> Reach(steps).chains[chain].maxRounds <= 10
  {
    var db := Reach(steps);
    RoundBound(steps, chain);
    StartIsOk();
    RunKeeps(EmptyDb(REGISTRY), steps);
    if chain < |db.chains| { RegisteredRounds(db.workflows[db.runs[chain].workflow].kind, db.runs[chain].phase); }
  }

  lemma FewEntries(rows: seq<SeedRound>, top: nat)
    requires Ascending(rows) && forall i | 0 <= i < |rows| :: 1 <= rows[i].round <= top
    ensures |PerRound(rows)| <= top && |DigestSource(rows)| <= |PerRound(rows)|
  {
    var entries := PerRound(rows);
    EntriesAscend(rows);
    EntriesAreRows(rows);
    if entries != [] {
      assert entries[0] in entries && entries[|entries| - 1] in entries;
      CountsUp(entries, |entries| - 1);
    }
  }

  /**
   * Whatever chain of a reachable state a resumed run is seeded from, the seed gives nothing up: every digest line,
   * the kept part of the handback and the message are there, and no truncation note is written.
   */
  lemma ReachableSeedIsWhole(steps: seq<Step>, chain: nat, input: SeedInput, text: string)
    requires Sized(input, 400)
    ensures input.rounds == ChainRows(Reach(steps).handoffs, chain) && IsSeedText(SEED_TEXTS, input, text) ==>
              text == Assemble(SEED_TEXTS, input, Shape(0, 8000, 4000, 4000)) && |text| <= 24000
  {
    hide ChainRows, Assemble, DigestSource;
    if input.rounds == ChainRows(Reach(steps).handoffs, chain) && IsSeedText(SEED_TEXTS, input, text) {
      ChainRowsOk(steps, chain);
      FewEntries(input.rounds, 10);
      SeedTextsAreOk();
      NothingIsDropped(SEED_TEXTS, input, text);
      FullSeedFits(SEED_TEXTS, input);
    }
  }
}
