/**
 * createWorkflowControl with the driver's kickoff, over tables that its methods rewrite in place. Each method is
 * proved to compute the transaction of WorkflowSteps, so everything proved about runs of those holds of it.
 */
module WorkflowControl {
  import opened Wrappers
  import opened Registry
  import opened WorkflowTables
  import opened RalphMarker
  import opened WorkflowSafety
  import S = WorkflowSteps

  class Control {
    const registry: map<string, Definition>
    var collabs: map<string, Collab>
    var workflows: seq<Workflow>
    var runs: seq<PhaseRun>
    var chains: seq<Chain>
    var handoffs: seq<Handoff>

    function Tables(): Db
      reads this
    {
      Db(registry, collabs, workflows, runs, chains, handoffs)
    }

    ghost predicate Valid()
      reads this
    {
      Inv(Tables())
    }

    constructor (registry: map<string, Definition>)
      requires forall k | k in registry :: DefinitionOk(registry[k])
      ensures Valid() && Tables() == EmptyDb(registry)
    {
      this.registry := registry;
      collabs, workflows, runs, chains, handoffs := map[], [], [], [], [];
    }

    // ---------------------------------------------------------- repository writes

    method SetWorkflowStatus(w: nat, status: Status, reason: Option<Reason>)
      requires w < |workflows|
      modifies this`workflows
      ensures workflows == old(workflows)[w := old(workflows)[w].(status := status, haltReason := reason)]
    {
      workflows := workflows[w := workflows[w].(status := status, haltReason := reason)];
    }

    method SetChainTerminal(c: nat, status: ChainStatus)
      requires c < |chains|
      modifies this`chains
      ensures chains == old(chains)[c := old(chains)[c].(status := status)]
    {
      chains := chains[c := chains[c].(status := status)];
    }

    method CloseWorkflowPhaseRun(r: nat, outcome: Outcome)
      requires r < |runs|
      modifies this`runs
      ensures runs == old(runs)[r := old(runs)[r].(outcome := Some(outcome))]
    {
      runs := runs[r := runs[r].(outcome := Some(outcome))];
    }

    method UpdateEvaluatorBookkeeping(h: nat, verdict: Verdict)
      requires h < |handoffs|
      modifies this`handoffs
      ensures handoffs == S.Judge(old(Tables()), h, verdict).handoffs
    {
      handoffs := handoffs[h := handoffs[h].(verdict := Some(verdict), judged := handoffs[h].handback)];
    }

    /** Put the tables back as a rolled-back transaction found them. */
    method Rollback(saved: Db)
      requires saved.registry == registry
      modifies this
      ensures Tables() == saved
    {
      collabs, workflows, runs, chains, handoffs := saved.collabs, saved.workflows, saved.runs, saved.chains, saved.handoffs;
    }

    /** The three inserts that open a phase run. */
    method InsertRun(w: nat, phase: Phase, seed: Option<Marker>, seedBase: Option<string>)
      requires w < |workflows|
      modifies this`chains, this`runs, this`handoffs
      ensures Tables() == S.InsertRun(old(Tables()), w, phase, seed, seedBase)
    {
      var wf := workflows[w];
      var sender := if phase.initialStep == Review then wf.implementer else wf.reviewer;
      var target := if phase.initialStep == Review then wf.reviewer else wf.implementer;
      var chainId, runId := |chains|, |runs|;
      chains := chains + [Chain(wf.collab, Active, 1, phase.maxRounds)];
      runs := runs + [PhaseRun(w, wf.phase, chainId, None)];
      handoffs := handoffs + [Handoff(w, runId, chainId, phase.initialStep, 1, sender, target, Pending, None, None, None, seed, seedBase)];
    }

    // ---------------------------------------------------------- create

    method CreateWorkflow(collab: string, kind: string, implementer: string, reviewer: string) returns (reply: Reply<nat, S.Error>)
      requires Valid()
      modifies this`workflows
      ensures Valid()
      ensures (Tables(), reply) == S.CreateWorkflow(old(Tables()), collab, kind, implementer, reviewer)
    {
      CreateKeepsInv(Tables(), collab, kind, implementer, reviewer);
      if collab !in collabs { return Throw(S.UnknownCollab); }
      if !collabs[collab].orchestrator { return Throw(S.OrchestratorDisabled); }
      if kind !in registry { return Throw(S.UnknownType); }
      if implementer !in collabs[collab].bound || reviewer !in collabs[collab].bound { return Throw(S.RoleNotBound); }
      var v := 0;
      while v < |workflows|
        invariant v <= |workflows|
        invariant forall u | 0 <= u < v :: !(workflows[u].collab == collab && workflows[u].Live())
      {
        if workflows[v].collab == collab && workflows[v].Live() { return Throw(S.AnotherActive); }
        v := v + 1;
      }
      workflows := workflows + [Workflow(collab, kind, implementer, reviewer, Running, 0, None, None, false, 0, None)];
      return Ok(|workflows| - 1);
    }

    // ---------------------------------------------------------- the driver's kickoff

    method BeginPhaseRun(w: nat, phase: Phase, entryBase: Option<string>, seedBase: Option<string>) returns (reply: Reply<nat, S.Error>)
      requires w < |workflows|
      modifies this
      ensures (Tables(), reply) == S.BeginPhaseRun(old(Tables()), w, phase, entryBase, seedBase)
    {
      if phase.initialStep == Execute && (entryBase.None? || !S.IsSha(entryBase.value)) { return Throw(S.BadBase); }
      if workflows[w].status != Running { return Throw(S.WrongStatus(workflows[w].status)); }
      if S.HasOpenRunHere(Tables(), w) { return Throw(S.RunAlreadyOpen); }
      var wf := workflows[w];
      var runId := |runs|;
      var seed := if wf.marker.Some? && wf.marker.value.phase == wf.phase then wf.marker else None;
      InsertRun(w, phase, seed, seedBase);
      // the marker is consumed whether or not it matched; the base is patched only when one came in
      wf := wf.(marker := None);
      if entryBase.Some? && entryBase.value != "" { wf := wf.(base := entryBase); }
      workflows := workflows[w := wf];
      return Ok(runId);
    }

    /** readHead is None when git fails; setupOk is whether the run directory could be made. */
    method KickoffCurrentPhase(w: nat, readHead: Option<string>, setupOk: bool)
      requires Valid()
      modifies this
      ensures Valid() && Tables() == S.Kickoff(old(Tables()), w, readHead, setupOk)
    {
      KickoffKeepsInv(Tables(), w, readHead, setupOk);
      if w >= |workflows| || workflows[w].status != Running { return; }
      if S.HasOpenRunHere(Tables(), w) { return; }
      var wf := workflows[w];
      if wf.kind !in registry { SetWorkflowStatus(w, Halted, Some(NotReady)); return; }
      var definition := registry[wf.kind];
      if wf.phase >= |definition.phases| { return; }
      var phase := definition.phases[wf.phase];
      if wf.collab !in collabs { SetWorkflowStatus(w, Halted, Some(NotReady)); return; }
      if wf.implementer == "" || wf.reviewer == "" { SetWorkflowStatus(w, Halted, Some(NotReady)); return; }
      var bound := collabs[wf.collab].bound;
      if wf.implementer !in bound { SetWorkflowStatus(w, Halted, Some(NotReady)); return; }
      if phase.reviewed && wf.reviewer !in bound { SetWorkflowStatus(w, Halted, Some(NotReady)); return; }
      var seeded := MarkerHere(wf);
      var entryBase: Option<string> := None;
      if phase.initialStep == Execute || phase.anchorsBase {
        if seeded && wf.base.Some? {
          entryBase := wf.base;
        } else if readHead.None? {
          SetWorkflowStatus(w, Halted, Some(NotReady));
          return;
        } else {
          entryBase := readHead;
        }
      }
      if definition.needsSetup && !setupOk { SetWorkflowStatus(w, Halted, Some(NotReady)); return; }
      var seedBase := if seeded && phase.UsesCommitRange() then wf.base else None;
      var _ := BeginPhaseRun(w, phase, entryBase, seedBase);
    }

    /** sweep: kick off every running workflow that has no open run at its index. */
    method Sweep(heads: nat -> Option<string>, setups: nat -> bool)
      requires Valid()
      modifies this
      ensures Valid() && Tables() == S.Sweep(old(Tables()), S.RunningIds(old(workflows)), heads, setups)
    {
      var running: seq<nat> := [];
      for w := 0 to |workflows|
        invariant running == S.RunningIds(workflows[..w])
      {
        assert workflows[..w + 1][..w] == workflows[..w];
        if workflows[w].status == Running { running := running + [w]; }
      }
      assert workflows[..|workflows|] == workflows;
      for i := 0 to |running|
        invariant Valid() && Tables() == S.Sweep(old(Tables()), running[..i], heads, setups)
      {
        assert running[..i + 1][..i] == running[..i];
        var w := running[i];
        if w < |workflows| && !S.HasOpenRunHere(Tables(), w) {
          KickoffCurrentPhase(w, heads(w), setups(w));
        }
      }
      assert running[..|running|] == running;
    }

    // ---------------------------------------------------------- verdicts

    /** kickoffNextPhaseInternal: it may find, after its inserts, that an execute phase was given no head. */
    method KickoffNext(w: nat, phase: Phase, head: Option<string>) returns (ok: bool)
      requires w < |workflows|
      modifies this
      ensures match S.KickoffNext(old(Tables()), w, phase, head)
        case Ok(db) => ok && Tables() == db
        case Throw(_) => !ok
    {
      InsertRun(w, phase, None, None);
      if phase.initialStep == Execute {
        if head.None? || head.value == "" { return false; }
        workflows := workflows[w := workflows[w].(base := head)];
      }
      return true;
    }

    method CreateContinuationHandoff(prev: nat, step: HandoffStep, incrementRound: bool)
      requires prev < |handoffs| && handoffs[prev].chain < |chains| && handoffs[prev].workflow < |workflows|
      modifies this`handoffs, this`chains
      ensures var row := old(handoffs)[prev]; var wf := workflows[row.workflow]; var chain := old(chains)[row.chain];
        var round := if incrementRound then chain.round + 1 else chain.round;
        && chains == old(chains)[row.chain := chain.(round := round)]
        && handoffs == old(handoffs) + [Handoff(row.workflow, row.run, row.chain, step, round, Sender(wf, step), Target(wf, step),
                                                Pending, None, None, None, None, None)]
    {
      var row := handoffs[prev];
      var wf := workflows[row.workflow];
      var chain := chains[row.chain];
      var sender := if step == Review then wf.implementer else wf.reviewer;
      var target := if step == Review then wf.reviewer else wf.implementer;
      var round := if incrementRound then chain.round + 1 else chain.round;
      handoffs := handoffs + [Handoff(row.workflow, row.run, row.chain, step, round, sender, target, Pending, None, None, None, None, None)];
      if incrementRound { chains := chains[row.chain := chain.(round := chain.round + 1)]; }
    }

    /** End h's chain and run as done, before the workflow's row is touched. */
    method ResolveChain(h: nat, verdict: Verdict)
      requires RefsOk(Tables()) && S.VerdictReady(Tables(), h)
      modifies this`handoffs, this`chains, this`runs
      ensures Tables() == S.CloseRun(S.Judge(old(Tables()), h, verdict), old(handoffs)[h].run, PhaseDone, Resolved)
    {
      var row := handoffs[h];
      UpdateEvaluatorBookkeeping(h, verdict);
      SetChainTerminal(row.chain, Resolved);
      CloseWorkflowPhaseRun(row.run, PhaseDone);
    }

    /** The approve and execution-pass arm. */
    method Advance(h: nat, verdict: Verdict, head: Option<string>) returns (reply: Reply<S.Action, S.Error>)
      requires RefsOk(Tables()) && S.VerdictReady(Tables(), h)
      modifies this
      ensures (Tables(), reply) == S.Advance(old(Tables()), h, verdict, head)
    {
      var saved := Tables();
      var w := handoffs[h].workflow;
      var wf := workflows[w];
      var phases := registry[wf.kind].phases;
      var phase := phases[wf.phase];
      ResolveChain(h, verdict);
      if phase.repeats && wf.claim {
        SetWorkflowStatus(w, Done, None);
        return Ok(S.WorkflowDone);
      } else if phase.repeats && wf.iteration + 1 >= phase.maxIterations {
        SetWorkflowStatus(w, Halted, Some(IterationCap(phase.maxIterations)));
        return Ok(S.WorkflowHalted);
      } else if !phase.repeats && wf.phase + 1 >= |phases| {
        SetWorkflowStatus(w, Done, None);
        return Ok(S.WorkflowDone);
      }
      // a fresh run: the loop's next iteration of the same phase, or the next phase
      if phase.repeats {
        workflows := workflows[w := wf.(iteration := wf.iteration + 1)];
      } else {
        workflows := workflows[w := wf.(phase := wf.phase + 1)];
      }
      assert Tables() == S.CloseOut(saved, h, verdict, PhaseDone, Resolved, S.MoveOf(saved, w).row);
      var ok := KickoffNext(w, phases[workflows[w].phase], head);
      if !ok {
        Rollback(saved);
        return Throw(S.HeadRequired);
      }
      return Ok(S.PhaseAdvanced);
    }

    /** The transaction of applyVerdict. */
    method Settle(h: nat, input: S.VerdictInput) returns (reply: Reply<S.Action, S.Error>)
      requires RefsOk(Tables()) && S.VerdictReady(Tables(), h)
      modifies this
      ensures (Tables(), reply) == S.Settle(old(Tables()), h, input)
    {
      var row := handoffs[h];
      var w := row.workflow;
      var wf := workflows[w];
      var chain := chains[row.chain];
      var phase := registry[wf.kind].phases[wf.phase];
      var (verdict, reason) := S.NormalizeVerdict(row.step, input.verdict, input.confidence, chain.round, chain.maxRounds, input.reason);
      if verdict == Approve || verdict == ExecutionPass {
        reply := Advance(h, verdict, input.head);
        return;
      }
      UpdateEvaluatorBookkeeping(h, verdict);
      if verdict == Findings {
        CreateContinuationHandoff(h, Fix, false);
        assert workflows == workflows[w := wf];
        reply := Ok(S.ChainContinued);
      } else if verdict == Delivered {
        if phase.repeats {
          var claim := ClaimsGoal(row.handback.GetOr(""));
          workflows := workflows[w := workflows[w].(claim := claim)];
        } else {
          assert workflows == workflows[w := wf];
        }
        CreateContinuationHandoff(h, Review, true);
        reply := Ok(S.ChainContinued);
      } else {
        SetChainTerminal(row.chain, Escalated);
        CloseWorkflowPhaseRun(row.run, PhaseEscalated);
        SetWorkflowStatus(w, Halted, Some(reason));
        reply := Ok(S.WorkflowHalted);
      }
    }

    method ApplyOrchestratorVerdict(h: nat, input: S.VerdictInput) returns (reply: Reply<S.Action, S.Error>)
      requires Valid()
      modifies this
      ensures Valid() && (Tables(), reply) == S.ApplyVerdict(old(Tables()), h, input)
    {
      NextKeepsInv(Tables(), S.GiveVerdict(h, input));
      if h < |handoffs| && handoffs[h].verdict.Some? { return Ok(S.NoopAlreadyApplied); }
      var refusal := S.VerdictRefusal(Tables(), h, input);
      if refusal.Some? { return Throw(refusal.value); }
      reply := Settle(h, input);
    }

    method EscalateNoticeHandoff(h: nat, reason: string) returns (reply: Reply<S.Action, S.Error>)
      requires Valid()
      modifies this
      ensures Valid() && (Tables(), reply) == S.EscalateNotice(old(Tables()), h, reason)
    {
      NextKeepsInv(Tables(), S.NoticeEscalation(h, reason));
      var input := S.VerdictInput(Escalate, 1.0, reason, None);
      if h < |handoffs| && handoffs[h].verdict.Some? { return Ok(S.NoopAlreadyApplied); }
      var refusal := S.VerdictRefusal(Tables(), h, input);
      if refusal.Some? { return Throw(refusal.value); }
      if handoffs[h].status != Accepted { return Ok(S.NoopNotInFlight); }
      handoffs := handoffs[h := handoffs[h].(status := Failed)];
      reply := Settle(h, input);
    }

    // ---------------------------------------------------------- operator steps

    method HaltWorkflow(w: nat, reason: Reason) returns (reply: Reply<(), S.Error>)
      requires Valid()
      modifies this`workflows
      ensures Valid() && (Tables(), reply) == S.HaltWorkflow(old(Tables()), w, reason)
    {
      NextKeepsInv(Tables(), S.Halt(w, reason));
      if w >= |workflows| { return Throw(S.UnknownWorkflow); }
      if workflows[w].status != Running { return Throw(S.WrongStatus(workflows[w].status)); }
      SetWorkflowStatus(w, Halted, Some(reason));
      return Ok(());
    }

    method PauseWorkflow(w: nat) returns (reply: Reply<(), S.Error>)
      requires Valid()
      modifies this`workflows
      ensures Valid() && (Tables(), reply) == S.PauseWorkflow(old(Tables()), w)
    {
      PauseKeepsInv(Tables(), w);
      if w >= |workflows| { return Throw(S.UnknownWorkflow); }
      if workflows[w].status != Running { return Throw(S.WrongStatus(workflows[w].status)); }
      SetWorkflowStatus(w, Paused, None);
      return Ok(());
    }

    method ResumeWorkflow(w: nat, message: Option<string>) returns (reply: Reply<(), S.Error>)
      requires Valid()
      modifies this`workflows
      ensures Valid() && (Tables(), reply) == S.ResumeWorkflow(old(Tables()), w, message)
    {
      ResumeKeepsInv(Tables(), w, message);
      if w >= |workflows| { return Throw(S.UnknownWorkflow); }
      var wf := workflows[w];
      if wf.collab in collabs && collabs[wf.collab].archived { return Throw(S.CollabArchived); }
      if wf.status != Halted && wf.status != Paused { return Throw(S.WrongStatus(wf.status)); }
      var v := 0;
      while v < |workflows|
        invariant v <= |workflows|
        invariant forall u | 0 <= u < v :: !(u != w && workflows[u].collab == wf.collab && workflows[u].Live())
      {
        if v != w && workflows[v].collab == wf.collab && workflows[v].Live() { return Throw(S.AnotherActive); }
        v := v + 1;
      }
      if wf.status == Halted {
        // the marker takes the halt reason before the status flip clears it
        var marker := S.ResumeMarker(Tables(), w, message);
        workflows := workflows[w := workflows[w].(marker := Some(marker))];
      }
      SetWorkflowStatus(w, Running, None);
      assert !S.OtherLive(old(Tables()), w);
      assert workflows == S.ResumeWorkflow(old(Tables()), w, message).0.workflows;
      return Ok(());
    }

    /** Close every open run of w and abandon its chain, one run after the other. */
    method SupersedeOpenRuns(w: nat)
      requires RefsOk(Tables())
      modifies this`runs, this`chains
      ensures Tables() == S.SupersedeRuns(old(Tables()), w)
    {
      ghost var before := Tables();
      ghost var target := S.SupersedeRuns(before, w);
      var r := 0;
      while r < |runs|
        invariant r <= |runs| == |chains| == |before.runs|
        invariant forall q | 0 <= q < r :: runs[q] == target.runs[q] && chains[q] == target.chains[q]
        invariant forall q | r <= q < |runs| :: runs[q] == before.runs[q] && chains[q] == before.chains[q]
      {
        if runs[r].workflow == w && runs[r].outcome.None? {
          CloseWorkflowPhaseRun(r, Superseded);
          SetChainTerminal(r, Abandoned);
        }
        r := r + 1;
      }
      assert runs == target.runs && chains == target.chains;
    }

    method CancelWorkflow(w: nat) returns (reply: Reply<(), S.Error>)
      requires Valid()
      modifies this`workflows, this`runs, this`chains
      ensures Valid() && (Tables(), reply) == S.CancelWorkflow(old(Tables()), w)
    {
      NextKeepsInv(Tables(), S.Cancel(w));
      if w >= |workflows| { return Throw(S.UnknownWorkflow); }
      if workflows[w].status == Canceled { return Throw(S.WrongStatus(Canceled)); }
      if workflows[w].status == Done { return Throw(S.WrongStatus(Done)); }
      SupersedeOpenRuns(w);
      SetWorkflowStatus(w, Canceled, Some(ByOperator));
      return Ok(());
    }

    method MarkWorkflowDone(w: nat) returns (reply: Reply<(), S.Error>)
      requires Valid()
      modifies this`workflows, this`runs, this`chains
      ensures Valid() && (Tables(), reply) == S.MarkWorkflowDone(old(Tables()), w)
    {
      NextKeepsInv(Tables(), S.MarkDone(w));
      if w >= |workflows| { return Throw(S.UnknownWorkflow); }
      if workflows[w].status != Halted { return Throw(S.WrongStatus(workflows[w].status)); }
      SupersedeOpenRuns(w);
      SetWorkflowStatus(w, Done, Some(ByOperator));
      return Ok(());
    }
  }
}
