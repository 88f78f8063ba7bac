/**
 * A transaction touches one workflow. What it does to that workflow's rows is bounded by `Touches`; every other
 * workflow keeps its part of the invariant because none of its rows moved.
 */
module WorkflowFrames {
  import opened Wrappers
  import opened Registry
  import opened WorkflowTables
  import opened WorkflowSteps

  predicate SameIdentity(a: Workflow, b: Workflow) {
    a.collab == b.collab && a.kind == b.kind && a.implementer == b.implementer && a.reviewer == b.reviewer
  }

  predicate SameRunKeys(a: PhaseRun, b: PhaseRun) {
    a.workflow == b.workflow && a.phase == b.phase && a.chain == b.chain
  }

  predicate SameHandoffKeys(a: Handoff, b: Handoff) {
    && a.workflow == b.workflow && a.run == b.run && a.chain == b.chain && a.step == b.step && a.round == b.round
    && a.seed == b.seed && a.seedBase == b.seedBase
  }

  ghost predicate RunRecords(db: Db, db': Db) {
    && |db.runs| <= |db'.runs|
    && forall r | 0 <= r < |db.runs| ::
         SameRunKeys(db.runs[r], db'.runs[r]) && (db.runs[r].outcome.Some? ==> db'.runs[r] == db.runs[r])
  }

  ghost predicate ChainRecords(db: Db, db': Db) {
    && |db.chains| <= |db'.chains|
    && forall r | 0 <= r < |db.chains| ::
         && db.chains[r].collab == db'.chains[r].collab
         && db.chains[r].maxRounds == db'.chains[r].maxRounds
         && db.chains[r].round <= db'.chains[r].round
         && (db.chains[r].status != Active ==> db'.chains[r] == db.chains[r])
  }

  ghost predicate HandoffRecords(db: Db, db': Db) {
    && |db.handoffs| <= |db'.handoffs|
    && forall h | 0 <= h < |db.handoffs| ::
         && SameHandoffKeys(db.handoffs[h], db'.handoffs[h])
         && (db.handoffs[h].verdict.Some? ==>
               db'.handoffs[h].verdict == db.handoffs[h].verdict && db'.handoffs[h].judged == db.handoffs[h].judged)
  }

  /** What was recorded once stays: a closed run's outcome, a chain's end and limit, a verdict and what it judged. */
  ghost predicate Records(db: Db, db': Db) {
    RunRecords(db, db') && ChainRecords(db, db') && HandoffRecords(db, db')
  }

  ghost predicate RowsTouched(db: Db, db': Db, w: nat) {
    && db'.registry == db.registry
    && |db'.workflows| == |db.workflows|
    && forall v | 0 <= v < |db.workflows| ::
         SameIdentity(db.workflows[v], db'.workflows[v]) && (v != w ==> db'.workflows[v] == db.workflows[v])
  }

  ghost predicate RunsTouched(db: Db, db': Db, w: nat)
    requires RefsOk(db)
  {
    && |db.runs| <= |db'.runs| && |db.runs| <= |db'.chains|
    && (forall r | 0 <= r < |db.runs| ::
          && SameRunKeys(db.runs[r], db'.runs[r])
          && (db.runs[r].workflow != w ==> db'.runs[r] == db.runs[r] && db'.chains[r] == db.chains[r]))
    && (forall r | |db.runs| <= r < |db'.runs| :: db'.runs[r].workflow == w)
  }

  ghost predicate HandoffsTouched(db: Db, db': Db, w: nat) {
    && |db.handoffs| <= |db'.handoffs|
    && (forall h | 0 <= h < |db.handoffs| ::
          && SameHandoffKeys(db.handoffs[h], db'.handoffs[h])
          && (db.handoffs[h].workflow != w ==> db'.handoffs[h] == db.handoffs[h]))
    && (forall h | |db.handoffs| <= h < |db'.handoffs| :: db'.handoffs[h].workflow == w)
  }

  /** Only rows of workflow w differ. */
  ghost predicate Touches(db: Db, db': Db, w: nat)
    requires RefsOk(db)
  {
    RowsTouched(db, db', w) && RunsTouched(db, db', w) && HandoffsTouched(db, db', w)
  }

  lemma TouchesTrans(a: Db, b: Db, c: Db, w: nat)
    requires RefsOk(a) && RefsOk(b) && Touches(a, b, w) && Touches(b, c, w)
    ensures Touches(a, c, w)
  {
  }

  lemma BatonFrame(db: Db, db': Db, w: nat, v: nat, h: nat)
    requires RefsOk(db) && RefsOk(db') && Touches(db, db', w) && v != w
    ensures Baton(db', v, h) <==> Baton(db, v, h)
    ensures Baton(db, v, h) ==> h < |db.handoffs| && db'.handoffs[h] == db.handoffs[h] && db'.chains[db.handoffs[h].chain] == db.chains[db.handoffs[h].chain]
  {
  }

  lemma HasBatonFrame(db: Db, db': Db, w: nat, v: nat)
    requires RefsOk(db) && RefsOk(db') && Touches(db, db', w) && v != w
    ensures HasBaton(db', v) <==> HasBaton(db, v)
  {
    if h: nat :| Baton(db, v, h) { BatonFrame(db, db', w, v, h); }
    if h: nat :| Baton(db', v, h) { BatonFrame(db, db', w, v, h); }
  }

  lemma OpenRunFrame(db: Db, db': Db, w: nat, v: nat, r: nat)
    requires RefsOk(db) && RefsOk(db') && Touches(db, db', w) && v != w
    ensures OpenRunOf(db', v, r) <==> OpenRunOf(db, v, r)
    ensures OpenRunOf(db, v, r) ==> db'.runs[r] == db.runs[r]
  {
  }

  lemma BackedClaimFrame(db: Db, db': Db, w: nat, d: nat, chain: nat)
    requires RefsOk(db) && RefsOk(db') && Touches(db, db', w)
    requires chain < |db.runs| && db.runs[chain].workflow != w && BackedClaim(db, d, chain)
    ensures BackedClaim(db', d, chain)
  {
    forall g | d < g < |db'.handoffs| && db'.handoffs[g].chain == chain ensures db'.handoffs[g].verdict != Some(Delivered) {
      assert db'.handoffs[g].workflow == db'.runs[chain].workflow;
    }
  }

  lemma RunsFrame(db: Db, db': Db, w: nat, v: nat)
    requires RefsOk(db) && RefsOk(db') && Touches(db, db', w) && v != w && RowOk(db, v)
    ensures RowOk(db', v)
    ensures RunsOk(db, v) ==> RunsOk(db', v)
    ensures OpenRunsOk(db, v) ==> OpenRunsOk(db', v)
  {
    if OpenRunsOk(db, v) {
      forall r: nat | OpenRunOf(db', v, r) ensures OpenRunOf(db, v, r) { OpenRunFrame(db, db', w, v, r); }
    }
  }

  lemma HandoffsFrame(db: Db, db': Db, w: nat, v: nat)
    requires RefsOk(db) && RefsOk(db') && Touches(db, db', w) && v != w && RowOk(db, v)
    ensures NewestOk(db, v) ==> NewestOk(db', v)
    ensures BatonOk(db, v) ==> BatonOk(db', v)
  {
    if BatonOk(db, v) {
      forall r: nat | OpenRunOf(db', v, r) ensures HasBaton(db', v) {
        OpenRunFrame(db, db', w, v, r);
        HasBatonFrame(db, db', w, v);
      }
      forall h: nat | Baton(db', v, h) ensures BatonFits(db', v, h) { BatonFrame(db, db', w, v, h); }
    }
  }

  lemma HistoryFrame(db: Db, db': Db, w: nat, v: nat)
    requires RefsOk(db) && RefsOk(db') && Touches(db, db', w) && v != w && RowOk(db, v) && HistoryOk(db, v)
    ensures HistoryOk(db', v)
  {
    forall j | 0 <= j < db'.workflows[v].phase ensures PhaseFinished(db', v, j) {
      assert PhaseFinished(db, v, j);
    }
  }

  lemma LoopFrame(db: Db, db': Db, w: nat, v: nat)
    requires RefsOk(db) && RefsOk(db') && Touches(db, db', w) && v != w && RowOk(db, v) && LoopOk(db, v)
    ensures LoopOk(db', v)
  {
    forall h: nat | Baton(db', v, h) ensures Baton(db, v, h) && db'.handoffs[h] == db.handoffs[h] { BatonFrame(db, db', w, v, h); }
    if Phases(db, v)[db.workflows[v].phase].repeats && db.workflows[v].claim {
      forall h: nat | Baton(db', v, h) && db'.handoffs[h].step == Review ensures ChainClaims(db', db'.handoffs[h].chain) {
        BatonFrame(db, db', w, v, h);
        var d: nat :| BackedClaim(db, d, db.handoffs[h].chain);
        BackedClaimFrame(db, db', w, d, db.handoffs[h].chain);
      }
    }
  }

  lemma BaseFrame(db: Db, db': Db, w: nat, v: nat)
    requires RefsOk(db) && RefsOk(db') && Touches(db, db', w) && v != w && RowOk(db, v) && BaseOk(db, v)
    ensures BaseOk(db', v)
  {
    HasBatonFrame(db, db', w, v);
    if BaseReached(db, v) {
      var i :| 0 <= i <= db.workflows[v].phase && Phases(db, v)[i].EstablishesBase();
      assert Phases(db', v)[i].EstablishesBase();
    }
  }

  /** A step that touches workflow w leaves every other workflow's invariant standing. */
  lemma FlowFrame(db: Db, db': Db, w: nat, v: nat)
    requires RefsOk(db) && RefsOk(db') && Touches(db, db', w) && v != w && FlowOk(db, v)
    ensures FlowOk(db', v)
  {
    RunsFrame(db, db', w, v);
    HandoffsFrame(db, db', w, v);
    HistoryFrame(db, db', w, v);
    LoopFrame(db, db', w, v);
    BaseFrame(db, db', w, v);
  }

  /** The whole invariant after a step on w, from w's own part. */
  lemma InvAfter(db: Db, db': Db, w: nat)
    requires Inv(db) && RefsOk(db') && Touches(db, db', w) && w < |db.workflows|
    requires FlowOk(db', w)
    requires db'.workflows[w].Live() ==> db.workflows[w].Live() || !OtherLive(db, w)
    ensures Inv(db')
  {
    forall v | 0 <= v < |db'.workflows| ensures FlowOk(db', v) {
      if v != w { FlowFrame(db, db', w, v); }
    }
  }
}
