/** What a slice reports and whom it admits: its counts, its limit, and the pin check (eval/runner/commands.ts, run-one.ts). */
module EvalReport {
  import opened Wrappers
  import opened EvalManifest
  import opened EvalSlice
  import opened EvalAccounting
  import opened EvalSchedule

  /** The selected runs whose entry has this status. */
  function With(s: State, status: Status): set<nat>
    requires Shape(s)
  {
    WithOf(s.runs, s.selected, status)
  }

  /** The slice's own counts agree with the manifest. */
  ghost predicate Reported(s: State)
    requires Shape(s)
  {
    s.done == |With(s, Done)| && s.failed == |With(s, Failed)|
  }

  ghost predicate SameCounts(s: State, t: State) {
    t.done == s.done && t.failed == s.failed && t.selected == s.selected
  }

  lemma SameStatuses(s: State, t: State)
    requires Shape(s) && Shape(t) && Reported(s) && SameCounts(s, t) && |t.runs| == |s.runs|
    requires forall k | 0 <= k < |s.selected| ::
        && (t.runs[t.selected[k]].status == Done <==> s.runs[s.selected[k]].status == Done)
        && (t.runs[t.selected[k]].status == Failed <==> s.runs[s.selected[k]].status == Failed)
    ensures Reported(t)
  {
    assert With(t, Done) == With(s, Done) && With(t, Failed) == With(s, Failed);
  }

  lemma BeginReports(s: State, task: nat, second: bool, drift: bool)
    requires Shape(s) && Reported(s) && task < |s.selected|
    ensures var t := Begin(s, task, second, drift); Shape(t) && Reported(t)
  {
    BeginShape(s, task, second, drift);
    BeginIsEntry(s, task, second, drift);
    var t := Begin(s, task, second, drift);
    forall k | 0 <= k < |s.selected|
      ensures (t.runs[t.selected[k]].status == Done <==> s.runs[s.selected[k]].status == Done)
      ensures (t.runs[t.selected[k]].status == Failed <==> s.runs[s.selected[k]].status == Failed)
    {
    }
    SameStatuses(s, t);
  }

  function WithOf(runs: seq<Run>, selected: seq<nat>, status: Status): set<nat>
    requires forall k | 0 <= k < |selected| :: selected[k] < |runs|
  {
    set k: nat | k < |selected| && runs[selected[k]].status == status
  }

  /** A running task's entry takes a new status, and every other keeps its own. */
  lemma OneStatus(runs: seq<Run>, after: seq<Run>, selected: seq<nat>, task: nat, status: Status)
    requires |after| == |runs| && (forall k | 0 <= k < |selected| :: selected[k] < |runs|) && task < |selected|
    requires runs[selected[task]].status == Running && status != Running
    requires forall k | 0 <= k < |selected| && k != task :: after[selected[k]].status == runs[selected[k]].status
    ensures |WithOf(after, selected, status)|
         == |WithOf(runs, selected, status)| + if after[selected[task]].status == status then 1 else 0
  {
    var before := WithOf(runs, selected, status);
    assert task !in before;
    if after[selected[task]].status == status {
      assert WithOf(after, selected, status) == before + {task};
    } else {
      assert WithOf(after, selected, status) == before;
    }
  }

  lemma CloseReports(s: State, task: nat, change: Change, rows: seq<nat>, tally: Tally, how: Settled)
    requires Shape(s) && Reported(s) && task in s.live && s.runs[s.selected[task]].status == Running
    requires (change == Complete(false) && how == Won) || (change == Complete(true) && how == Lost) || (change == Release && how == Quota)
    requires rows == [] || rows == [s.selected[task]]
    ensures var t := CloseEntry(s, task, change, rows, tally, how); Shape(t) && Reported(t)
  {
    var t := CloseEntry(s, task, change, rows, tally, how);
    CloseShape(s, task, change, rows, tally, how);
    hide Keyed, WithOf, Local;
    assert task < |s.selected| && t.selected == s.selected && |t.runs| == |s.runs|;
    forall k | 0 <= k < |s.selected| && k != task ensures t.runs[t.selected[k]] == s.runs[s.selected[k]] {
      assert s.selected[k] != s.selected[task];
    }
    OneStatus(s.runs, t.runs, s.selected, task, Done);
    OneStatus(s.runs, t.runs, s.selected, task, Failed);
  }

  lemma RetryReports(s: State, t: State)
    requires Shape(s) && Shape(t) && Reported(s) && SameCounts(s, t) && t.runs == s.runs
    ensures Reported(t)
  {
    SameStatuses(s, t);
  }

  lemma EndReports(s: State, task: nat, outcome: Outcome)
    requires Fine(s) && Reported(s) && Enabled(s, AttemptEnds(task, outcome))
    ensures var t := End(s, task, outcome); Shape(t) && Reported(t)
  {
    hide CloseEntry, Keyed, End, Reported, Local, RunFine;
    EndShape(s, task, outcome);
    EndIsEntry(s, task, outcome);
    var p := s.selected[task];
    var tally := s.tallies[p];
    assert LiveFine(s.live[task], p, s.runs[p], tally);
    assert s.runs[p].status == Running && task < |s.selected|;
    hide AllFine;
    match outcome
    case Graded => CloseReports(s, task, Complete(false), [p], tally.(wins := tally.wins + 1), Won);
    case QuotaHit => CloseReports(s, task, Release, [], tally.(quotas := tally.quotas + 1), Quota);
    case HarnessFailed =>
      if s.live[task].harness >= 2 {
        CloseReports(s, task, Complete(true), [p], tally.(failures := tally.failures + 1), Lost);
      } else {
        RetryReports(s, End(s, task, outcome));
      }
  }

  lemma RestartReports(s: State, f: Filter, parallelSolo: int)
    requires Shape(s)
    ensures var t := Begun(s, f, parallelSolo); Shape(t) && Reported(t)
  {
    SliceInOrder(s.runs, f.(includeFailed := false));
    var t := Begun(s, f, parallelSolo);
    assert With(t, Done) == {} && With(t, Failed) == {};
  }

  lemma NextReports(s: State, e: Event)
    requires Fine(s) && Reported(s) && Enabled(s, e)
    ensures Shape(Next(s, e)) && Reported(Next(s, e))
  {
    hide Begin, End, AllFine;
    NextKeepsFine(s, e);
    match e
    case Restart(f, n) => RestartReports(s, f, n);
    case AttemptEnds(task, outcome) => EndReports(s, task, outcome);
    case Retries(task, drift) => BeginReports(s, task, true, drift);
    case Loop(drift) => TurnReports(s, drift);
    case Raced(first, drift) =>
      if first !in s.rejected && !s.quota { StartReports(s, false, drift); } else { SameStatuses(s, Next(s, e)); }
    case Drained(drift) =>
      if !s.quota { StartReports(s, true, drift); } else { SameStatuses(s, Next(s, e)); }
    case Breaks(task) => SameStatuses(s, Next(s, e));
    case DrainThrew(_) => SameStatuses(s, Next(s, e));
    case Ended => SameStatuses(s, Next(s, e));
    case EndThrew(_) => SameStatuses(s, Next(s, e));
  }

  lemma StartReports(s: State, pair: bool, drift: bool)
    requires Shape(s) && Reported(s) && s.next < |s.selected|
    ensures Shape(Start(s, pair, drift)) && Reported(Start(s, pair, drift))
  {
    SameStatuses(s, Taken(s, pair));
    BeginReports(Taken(s, pair), s.next, false, drift);
  }

  lemma TurnReports(s: State, drift: bool)
    requires Fine(s) && Reported(s) && Enabled(s, Loop(drift))
    ensures Shape(Turn(s, drift)) && Reported(Turn(s, drift))
  {
    hide Begin, AllFine, Start;
    if s.next < |s.selected| && !s.quota && !IsPair(s, s.next) && |s.pool| < s.limit {
      StartReports(s, false, drift);
    } else {
      SameStatuses(s, Turn(s, drift));
    }
  }

  lemma {:induction false} ReachedReports(s: State, events: seq<Event>, t: State)
    requires Initial(s) && Reaches(s, events, t)
    ensures Shape(t) && Reported(t)
    decreases events
  {
    hide Reported, AllFine;
    if events == [] {
      InitialReports(s);
    } else {
      var n := |events| - 1;
      var mid :| Reaches(s, events[..n], mid) && Enabled(mid, events[n]) && t == EvalSlice.Next(mid, events[n]);
      ReachedReports(s, events[..n], mid);
      ReachedIsFine(s, events[..n], mid);
      NextReports(mid, events[n]);
    }
  }

  lemma InitialReports(s: State)
    requires Initial(s)
    ensures Shape(s) && Reported(s)
  {
    assert With(s, Done) == {} && With(s, Failed) == {};
  }

  /** What a slice counts is so: `done` and `failed` are the numbers of its runs that the manifest has as done and failed. */
  lemma CountsAreTrue(s: State, events: seq<Event>, t: State)
    requires Initial(s) && Reaches(s, events, t)
    ensures Shape(t) && t.done == |With(t, Done)| && t.failed == |With(t, Failed)|
  {
    ReachedReports(s, events, t);
  }

  // ------------------------------------------------------------ the limit, and the pins

  lemma {:induction false} LimitIsAsked(s: State, f: Filter, parallelSolo: int, more: seq<Event>, t: State)
    requires Enabled(s, Restart(f, parallelSolo)) && NoRestart(more) && Reaches(Next(s, Restart(f, parallelSolo)), more, t)
    ensures t.limit == if parallelSolo >= 1 then parallelSolo else 1
    decreases more
  {
    var first := Next(s, Restart(f, parallelSolo));
    if more == [] {
    } else {
      var n := |more| - 1;
      var mid :| Reaches(first, more[..n], mid) && Enabled(mid, more[n]) && t == EvalSlice.Next(mid, more[n]);
      LimitIsAsked(s, f, parallelSolo, more[..n], mid);
      LimitStays(mid, more[n]);
    }
  }

  lemma LimitStays(s: State, e: Event)
    requires Enabled(s, e) && !e.Restart?
    ensures Next(s, e).limit == s.limit
  {
  }

  /**
   * When an attempt begins: exactly if the run is neither done nor failed and, for a pair run, its pins have not
   * drifted. Otherwise the call is rejected and the manifest is not touched.
   */
  lemma BeginsUnlessDrifted(s: State, task: nat, second: bool, drift: bool)
    requires Shape(s) && task < |s.selected|
    ensures var t := Begin(s, task, second, drift); var r := s.runs[s.selected[task]];
      if r.status != Done && r.status != Failed && !(r.key.arm == C && drift) then
        && task in t.live && t.live[task].Attempt? && t.live[task].number == r.attempts + 1 && t.live[task].second == second
        && |t.runs| == |s.runs|
        && t.runs[s.selected[task]] == Run(r.key, Running, r.attempts + 1, r.quotaAborts, Some(r.attempts + 1))
      else t == s.(live := s.live[task := Broken])
  {
    BeginIsEntry(s, task, second, drift);
  }

  /** The next run of the slice is under way, or was turned away; the loop has moved on to the one after it. */
  ghost predicate Takes(s: State, t: State) {
    t.next == s.next + 1 && t.started == s.started + [s.next] && t.live.Keys == s.live.Keys + {s.next} && t.limit == s.limit
  }

  /**
   * A turn of the loop. It stops at the end of the slice or at a usage limit, and waits for what still runs; before a
   * pair run it waits for all of the pool, with a full pool for one of it; and otherwise it starts the next run.
   */
  lemma TurnAnswers(s: State, drift: bool)
    requires Shape(s) && Enabled(s, Loop(drift))
    ensures var t := Next(s, Loop(drift));
      if s.quota || s.next >= |s.selected| then t == s.(pc := Ending(s.pool))
      else if s.runs[s.selected[s.next]].key.arm == C then t == s.(pc := Draining(s.pool))
      else if |s.pool| >= s.limit then t == s.(pc := Racing(s.pool))
      else Takes(s, t) && t.pc.Top? && t.pool == s.pool + {s.next}
  {
    if s.next < |s.selected| && !s.quota && !IsPair(s, s.next) && |s.pool| < s.limit { StartTakes(s, false, drift); }
  }

  lemma StartTakes(s: State, pair: bool, drift: bool)
    requires Shape(s) && s.next < |s.selected|
    ensures var t := Start(s, pair, drift);
      Takes(s, t) && (if pair then t.pc.InPair? && t.pool == {} else t.pc.Top? && t.pool == s.pool + {s.next})
  {
    BeginAdds(Taken(s, pair), s.next, false, drift);
  }

  /**
   * After a wait the loop starts the run it waited for, unless the wait has brought a rejection or a usage limit; after
   * the last wait the slice returns, or throws the usage limit.
   */
  lemma WaitAnswers(s: State, first: nat, drift: bool)
    requires Shape(s)
    ensures Enabled(s, Raced(first, drift)) ==>
      var t := Next(s, Raced(first, drift));
      if first in s.rejected then t == s.(pc := Threw)
      else if s.quota then t == s.(pc := Ending(s.pool))
      else Takes(s, t) && t.pc.Top?
    ensures Enabled(s, Drained(drift)) ==>
      var t := Next(s, Drained(drift));
      if s.quota then t == s.(pc := Ending({}), pool := {}) else Takes(s, t) && t.pc.InPair?
    ensures Enabled(s, Ended) ==> Next(s, Ended) == s.(pc := if s.quota then Threw else Returned)
  {
    if s.next < |s.selected| {
      StartTakes(s, false, drift);
      StartTakes(s, true, drift);
    }
  }
}
