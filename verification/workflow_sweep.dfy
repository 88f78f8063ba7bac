/** The driver's sweep: it leaves no running workflow without an open run. */
module WorkflowSweep {
  import opened Wrappers
  import opened Registry
  import opened WorkflowTables
  import opened WorkflowSteps
  import opened WorkflowSafety
  import opened WorkflowBudget
  import opened WorkflowRuns
  import opened WorkflowExecute

  predicate Attended(db: Db, w: nat)
    requires w < |db.workflows|
  {
    db.workflows[w].status == Halted || (db.workflows[w].status == Running && HasOpenRunHere(db, w))
  }

  predicate RunsOrHalted(db: Db, w: nat) {
    w < |db.workflows| && (db.workflows[w].status == Running || db.workflows[w].status == Halted)
  }

  lemma BegunRunIsOpen(db: Db, w: nat, phase: Phase, entryBase: Option<string>, seedBase: Option<string>)
    requires w < |db.workflows| && BeginPhaseRun(db, w, phase, entryBase, seedBase).1.Ok?
    ensures var db' := BeginPhaseRun(db, w, phase, entryBase, seedBase).0; w < |db'.workflows| && HasOpenRunHere(db', w)
  {
    var db' := BeginPhaseRun(db, w, phase, entryBase, seedBase).0;
    var r := |db.runs|;
    assert db'.runs[r].workflow == w && db'.runs[r].phase == db'.workflows[w].phase && db'.runs[r].outcome.None?;
  }

  /** An execute phase that waits for its run keeps a resume marker, so the kickoff inherits the base: a commit hash. */
  lemma KickoffAttends(db: Db, w: nat, head: Option<string>, setupOk: bool)
    requires Inv(db) && ExecutesFromCommit(db, w) && RunsOrHalted(db, w)
    ensures var db' := Kickoff(db, w, head, setupOk); w < |db'.workflows| && Attended(db', w)
  {
    assert FlowOk(db, w);
    if db.workflows[w].status == Running && !HasOpenRunHere(db, w) {
      BatonIffOpenRun(db, w);
      var phase := Phases(db, w)[db.workflows[w].phase];
      var begun := BeginPhaseRun(db, w, phase, EntryBase(db.workflows[w], phase, head), SeedBase(db.workflows[w], phase));
      if begun.1.Ok? {
        BegunRunIsOpen(db, w, phase, EntryBase(db.workflows[w], phase, head), SeedBase(db.workflows[w], phase));
      }
    }
  }

  lemma OtherKickoffKeeps(db: Db, v: nat, head: Option<string>, setupOk: bool, w: nat)
    requires Inv(db) && v < |db.workflows| && w < |db.workflows| && v != w && Attended(db, w)
    ensures var db' := Kickoff(db, v, head, setupOk); w < |db'.workflows| && Attended(db', w)
  {
    var db' := Kickoff(db, v, head, setupOk);
    KickoffTouches(db, v, head, setupOk);
    if HasOpenRunHere(db, w) {
      var r: nat :| r < |db.runs| && db.runs[r].workflow == w && db.runs[r].phase == db.workflows[w].phase && db.runs[r].outcome.None?;
      assert db'.runs[r] == db.runs[r];
    }
  }

  lemma KickoffStatus(db: Db, v: nat, head: Option<string>, setupOk: bool, w: nat)
    requires RunsOrHalted(db, w)
    ensures |Kickoff(db, v, head, setupOk).workflows| == |db.workflows| && RunsOrHalted(Kickoff(db, v, head, setupOk), w)
  {
  }

  lemma {:induction false} SweepKeeps(db: Db, ids: seq<nat>, heads: nat -> Option<string>, setups: nat -> bool, w: nat)
    requires Inv(db) && ExecuteOk(db) && RunsOrHalted(db, w)
    ensures var db' := Sweep(db, ids, heads, setups);
      Inv(db') && ExecuteOk(db') && |db'.workflows| == |db.workflows| && RunsOrHalted(db', w)
  {
    hide Inv, ExecuteOk, Kickoff, RunsOrHalted;
    if ids == [] {
    } else {
      var n := |ids| - 1;
      SweepKeeps(db, ids[..n], heads, setups, w);
      KickoffStatus(Sweep(db, ids[..n], heads, setups), ids[n], heads(ids[n]), setups(ids[n]), w);
      NextExecutes(Sweep(db, ids[..n], heads, setups), StartPhase(ids[n], heads(ids[n]), setups(ids[n])));
    }
  }

  lemma {:induction false} SweepAttends(db: Db, ids: seq<nat>, heads: nat -> Option<string>, setups: nat -> bool, w: nat)
    requires Inv(db) && ExecuteOk(db) && RunsOrHalted(db, w) && w in ids && forall i | 0 <= i < |ids| :: ids[i] < |db.workflows|
    ensures var db' := Sweep(db, ids, heads, setups); w < |db'.workflows| && Attended(db', w)
  {
    var n := |ids| - 1;
    var before := Sweep(db, ids[..n], heads, setups);
    SweepKeeps(db, ids[..n], heads, setups, w);
    if ids[n] == w {
      KickoffAttends(before, w, heads(w), setups(w));
    } else {
      SweepAttends(db, ids[..n], heads, setups, w);
      OtherKickoffKeeps(before, ids[n], heads(ids[n]), setups(ids[n]), w);
    }
  }

  lemma {:induction false} RunningIsListed(workflows: seq<Workflow>, w: nat)
    requires w < |workflows| && workflows[w].status == Running
    ensures w in RunningIds(workflows)
  {
    if w >= |workflows| - 1 {
    } else {
      RunningIsListed(workflows[..|workflows| - 1], w);
    }
  }

  lemma {:induction false} ListedInRange(workflows: seq<Workflow>)
    ensures forall i | 0 <= i < |RunningIds(workflows)| :: RunningIds(workflows)[i] < |workflows|
  {
    if workflows == [] {
    } else {
      ListedInRange(workflows[..|workflows| - 1]);
    }
  }

  /** After a sweep in any reachable state, every workflow that was running is halted or has an open run at its index. */
  lemma SweepLeavesNoneIdle(steps: seq<Step>, heads: nat -> Option<string>, setups: nat -> bool, w: nat)
    ensures var db := Reach(steps);
      var db' := Sweep(db, RunningIds(db.workflows), heads, setups);
      w < |db.workflows| && db.workflows[w].status == Running ==>
        && w < |db'.workflows|
        && (db'.workflows[w].status == Halted || (db'.workflows[w].status == Running && HasOpenRunHere(db', w)))
  {
    var db := Reach(steps);
    if w < |db.workflows| && db.workflows[w].status == Running {
      StartIsOk();
      RunExecutes(EmptyDb(REGISTRY), steps);
      RunningIsListed(db.workflows, w);
      ListedInRange(db.workflows);
      SweepAttends(db, RunningIds(db.workflows), heads, setups, w);
    }
  }
}
