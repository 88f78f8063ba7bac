/** The order of a slice, over every interleaving of completions (eval/runner/commands.ts). */
module EvalSchedule {
  import opened Wrappers
  import opened EvalManifest
  import opened EvalSlice
  import opened EvalAccounting

  ghost predicate Solos(s: State)
    requires Shape(s)
  {
    s.pool == s.live.Keys && forall task | task in s.live :: !IsPair(s, task)
  }

  ghost predicate Waits(s: State, waiting: set<nat>) {
    s.live.Keys <= waiting
  }

  ghost predicate PcOk(s: State)
    requires Shape(s)
  {
    match s.pc
    case Top => Solos(s)
    case Racing(w) => Solos(s) && Waits(s, w) && |w| <= s.limit && s.next < |s.selected| && !IsPair(s, s.next)
    case Draining(w) => Solos(s) && Waits(s, w) && s.next < |s.selected| && IsPair(s, s.next)
    case InPair => !s.quota && s.next > 0 && s.next - 1 < |s.selected| && s.pool == {} && s.live.Keys == {s.next - 1} && IsPair(s, s.next - 1)
    case Ending(w) => Solos(s) && Waits(s, w) && (s.quota || s.next == |s.selected|)
    case Returned => s.live.Keys == {} && s.pool == {} && !s.quota && s.next == |s.selected|
    case Threw => Solos(s)
  }

  ghost predicate Counted(s: State) {
    && s.done + s.failed + s.quotaHits + s.errors + |s.live.Keys| == s.next
    && (s.quota <==> s.quotaHits > 0)
  }

  ghost predicate Ordered(s: State) {
    && 1 <= s.limit && |s.pool| <= s.limit
    && s.next <= |s.selected| && |s.started| == s.next && forall i | 0 <= i < s.next :: s.started[i] == i
  }

  ghost predicate SchedOk(s: State) {
    Shape(s) && Ordered(s) && Counted(s) && PcOk(s)
  }

  // ------------------------------------------------------------ steps

  ghost predicate SameKeys(s: State, t: State) {
    |t.runs| == |s.runs| && t.selected == s.selected && forall p | 0 <= p < |s.runs| :: t.runs[p].key == s.runs[p].key
  }

  ghost predicate SameScheduler(s: State, t: State) {
    && t.pc == s.pc && t.next == s.next && t.pool == s.pool && t.limit == s.limit && t.started == s.started
    && t.quota == s.quota && t.rejected == s.rejected
    && t.done == s.done && t.failed == s.failed && t.quotaHits == s.quotaHits && t.errors == s.errors
  }

  lemma BeginAdds(s: State, task: nat, second: bool, drift: bool)
    requires Shape(s) && task < |s.selected|
    ensures var t := Begin(s, task, second, drift);
      && SameKeys(s, t) && t.live.Keys == s.live.Keys + {task}
      && SameScheduler(s, t)
  {
    BeginIsEntry(s, task, second, drift);
  }

  lemma TakenIsOrdered(s: State)
    requires Ordered(s) && s.next < |s.selected| && |s.pool| < s.limit
    ensures Ordered(Taken(s, false))
  {
  }

  lemma SoloIsCounted(s: State, drift: bool)
    requires Shape(s) && Ordered(s) && Counted(s) && Unstarted(s) && s.next < |s.selected| && |s.pool| < s.limit
    ensures var t := Start(s, false, drift); Shape(t) && Ordered(t) && Counted(t) && t.pc.Top?
  {
    hide Begin;
    var mid, t := Taken(s, false), Start(s, false, drift);
    TakenIsOrdered(s);
    BeginShape(mid, s.next, false, drift);
    BeginAdds(mid, s.next, false, drift);
    assert s.next !in s.live.Keys;
    assert |t.live.Keys| == |s.live.Keys| + 1;
  }

  lemma SoloIsSolo(s: State, drift: bool)
    requires Shape(s) && Solos(s) && Unstarted(s) && s.next < |s.selected| && !IsPair(s, s.next)
    ensures var t := Start(s, false, drift); Shape(t) && Solos(t)
  {
    hide Begin;
    var t := Start(s, false, drift);
    BeginShape(Taken(s, false), s.next, false, drift);
    BeginAdds(Taken(s, false), s.next, false, drift);
    forall task | task in t.live
      ensures !IsPair(t, task)
    {
      assert task in s.live.Keys || task == s.next;
    }
  }

  lemma StartSoloIsOk(s: State, drift: bool)
    requires Shape(s) && Ordered(s) && Counted(s) && Solos(s) && Unstarted(s)
    requires s.next < |s.selected| && !IsPair(s, s.next) && |s.pool| < s.limit
    ensures SchedOk(Start(s, false, drift))
  {
    hide Start, Ordered, Counted, Solos, Shape;
    SoloIsCounted(s, drift);
    SoloIsSolo(s, drift);
  }

  lemma StartPairIsOk(s: State, drift: bool)
    requires Shape(s) && Ordered(s) && Counted(s) && !s.quota && s.live.Keys == {} && s.next < |s.selected| && IsPair(s, s.next)
    ensures SchedOk(Start(s, true, drift))
  {
    hide Begin;
    var mid := Taken(s, true);
    BeginShape(mid, s.next, false, drift);
    BeginAdds(mid, s.next, false, drift);
  }

  lemma TurnIsOk(s: State, drift: bool)
    requires SchedOk(s) && Unstarted(s) && s.pc.Top?
    ensures SchedOk(Turn(s, drift))
  {
    if s.next < |s.selected| && !s.quota && !IsPair(s, s.next) && |s.pool| < s.limit {
      StartSoloIsOk(s, drift);
    }
  }

  lemma RacedIsOk(s: State, first: nat, drift: bool)
    requires SchedOk(s) && Unstarted(s) && Enabled(s, Raced(first, drift))
    ensures SchedOk(Next(s, Raced(first, drift)))
  {
    if first !in s.rejected && !s.quota {
      var w := s.pc.waiting;
      assert s.pool <= w - {first};
      Smaller(s.pool, w - {first});
      StartSoloIsOk(s, drift);
    }
  }

  lemma {:induction false} Smaller(a: set<nat>, b: set<nat>)
    requires a <= b
    ensures |a| <= |b|
  {
    if a == {} {
    } else {
      var x :| x in a;
      Smaller(a - {x}, b - {x});
    }
  }

  lemma AwaitIsOk(s: State, e: Event)
    requires SchedOk(s) && Enabled(s, e) && (e.Drained? || e.DrainThrew? || e.Ended? || e.EndThrew?)
    ensures SchedOk(Next(s, e))
  {
    if e.Drained? || e.Ended? {
      assert s.live.Keys == {};
    }
    if e.Drained? && !s.quota {
      StartPairIsOk(s, e.drift);
    }
  }

  /** What settling does to the schedule, whatever it did to the manifest. */
  ghost predicate TaskSettled(s: State, t: State, task: nat) {
    && SameKeys(s, t) && task in s.live && t.live.Keys == s.live.Keys - {task} && t.pool == s.pool - {task}
    && t.next == s.next && t.limit == s.limit && t.started == s.started
    && (if s.pc.InPair? then t.pc.Top? || t.pc.Threw? else t.pc == s.pc)
    && t.done + t.failed + t.quotaHits + t.errors == s.done + s.failed + s.quotaHits + s.errors + 1
    && (t.quota <==> t.quotaHits > 0) && (s.quota ==> t.quota)
  }

  lemma SettledIsCounted(s: State, t: State, task: nat)
    requires SchedOk(s) && TaskSettled(s, t, task)
    ensures Ordered(t) && Counted(t)
  {
    Smaller(t.pool, s.pool);
    assert |t.live.Keys| == |s.live.Keys| - 1;
  }

  lemma SettledIsOk(s: State, t: State, task: nat)
    requires SchedOk(s) && Shape(t) && TaskSettled(s, t, task)
    ensures SchedOk(t)
  {
    SettledIsCounted(s, t, task);
    forall k | k in t.live
      ensures k in s.live && IsPair(t, k) == IsPair(s, k)
    {
      assert k in s.live.Keys;
    }
    if s.pc.InPair? {
      assert t.live.Keys == {};
    }
  }

  lemma SettleSettles(s: State, mid: State, task: nat, how: Settled)
    requires task in s.live && SameKeys(s, mid) && (s.quota <==> s.quotaHits > 0)
    requires mid.(runs := s.runs, tallies := s.tallies, ledger := s.ledger) == s
    ensures TaskSettled(s, Settle(mid, task, how), task)
  {
    assert Settle(mid, task, how).live.Keys == s.live.Keys - {task};
  }

  lemma EndSettles(s: State, task: nat, outcome: Outcome) returns (mid: State, how: Settled)
    requires Shape(s) && Enabled(s, AttemptEnds(task, outcome)) && task !in End(s, task, outcome).live
    ensures SameKeys(s, mid) && mid.(runs := s.runs, tallies := s.tallies, ledger := s.ledger) == s
    ensures task in mid.live && End(s, task, outcome) == Settle(mid, task, how)
  {
    var p := s.selected[task];
    var run, tally := s.runs[p], s.tallies[p];
    EndIsEntry(s, task, outcome);
    match outcome
    case Graded =>
      mid, how := Changing(s, task, Complete(false), [p], tally.(wins := tally.wins + 1)), Won;
    case QuotaHit =>
      mid, how := Changing(s, task, Release, [], tally.(quotas := tally.quotas + 1)), Quota;
    case HarnessFailed =>
      var failed := tally.(failures := tally.failures + 1);
      if s.live[task].harness >= 2 {
        mid, how := Changing(s, task, Complete(true), [p], failed), Lost;
      } else {
        mid, how := s.(tallies := s.tallies[p := failed]), Error;
      }
  }

  function Changing(s: State, task: nat, change: Change, rows: seq<nat>, tally: Tally): State
    requires task < |s.selected| && s.selected[task] < |s.runs| == |s.tallies| && change != Claim
  {
    var p := s.selected[task];
    s.(runs := s.runs[p := Changed(s.runs[p], change).value], ledger := s.ledger + rows,
       tallies := s.tallies[p := tally.(changes := tally.changes + [change])])
  }

  lemma EndToRetry(s: State, task: nat, outcome: Outcome)
    requires Shape(s) && Enabled(s, AttemptEnds(task, outcome)) && task in End(s, task, outcome).live
    ensures var t := End(s, task, outcome); SameKeys(s, t) && SameScheduler(s, t) && t.live.Keys == s.live.Keys
  {
    EndIsEntry(s, task, outcome);
  }

  lemma EndIsOk(s: State, task: nat, outcome: Outcome)
    requires SchedOk(s) && Enabled(s, AttemptEnds(task, outcome))
    ensures SchedOk(End(s, task, outcome))
  {
    hide End, Settle, Ordered, PcOk, SameKeys, SameScheduler, TaskSettled;
    var t := End(s, task, outcome);
    EndShape(s, task, outcome);
    if task in t.live {
      EndToRetry(s, task, outcome);
      SameSchedule(s, t);
    } else {
      var mid, how := EndSettles(s, task, outcome);
      SettleSettles(s, mid, task, how);
      SettledIsOk(s, t, task);
    }
  }

  lemma SameSchedule(s: State, t: State)
    requires SchedOk(s) && Shape(t) && SameKeys(s, t) && t.live.Keys == s.live.Keys
    requires SameScheduler(s, t)
    ensures SchedOk(t)
  {
    forall k | k in t.live
      ensures k in s.live && IsPair(t, k) == IsPair(s, k)
    {
      assert k in s.live.Keys;
    }
  }

  lemma BreakIsOk(s: State, task: nat)
    requires SchedOk(s) && Enabled(s, Breaks(task))
    ensures SchedOk(Settle(s, task, Error))
  {
    var t := Settle(s, task, Error);
    SettleShape(s, task, Error);
    assert t.live.Keys == s.live.Keys - {task};
    SettledIsOk(s, t, task);
  }

  lemma RetryIsOk(s: State, task: nat, drift: bool)
    requires SchedOk(s) && Enabled(s, Retries(task, drift))
    ensures SchedOk(Begin(s, task, true, drift))
  {
    BeginShape(s, task, true, drift);
    BeginAdds(s, task, true, drift);
    assert s.live.Keys + {task} == s.live.Keys;
    SameSchedule(s, Begin(s, task, true, drift));
  }

  lemma RestartIsOk(s: State, f: Filter, parallelSolo: int)
    requires Shape(s)
    ensures SchedOk(Begun(s, f, parallelSolo))
  {
    SliceInOrder(s.runs, f.(includeFailed := false));
  }

  lemma NextIsOk(s: State, e: Event)
    requires SchedOk(s) && Unstarted(s) && Enabled(s, e)
    ensures SchedOk(Next(s, e))
  {
    match e
    case Restart(f, n) => RestartIsOk(s, f, n);
    case Loop(drift) => TurnIsOk(s, drift);
    case Raced(first, drift) => RacedIsOk(s, first, drift);
    case AttemptEnds(task, outcome) => EndIsOk(s, task, outcome);
    case Breaks(task) => BreakIsOk(s, task);
    case Retries(task, drift) => RetryIsOk(s, task, drift);
    case _ => AwaitIsOk(s, e);
  }

  lemma {:induction false} ReachedIsOk(s: State, events: seq<Event>, t: State)
    requires Initial(s) && Reaches(s, events, t)
    ensures SchedOk(t)
    decreases events
  {
    if events == [] {
      ReachedIsFine(s, events, t);
    } else {
      var n := |events| - 1;
      var mid :| Reaches(s, events[..n], mid) && Enabled(mid, events[n]) && t == Next(mid, events[n]);
      ReachedIsOk(s, events[..n], mid);
      ReachedIsFine(s, events[..n], mid);
      NextIsOk(mid, events[n]);
    }
  }

  // ------------------------------------------------------------ the schedule

  /** Manifest order is kept: the runs started so far are the first ones of the slice, in order. */
  lemma StartedInOrder(s: State, events: seq<Event>, t: State)
    requires Initial(s) && Reaches(s, events, t)
    ensures |t.started| <= |t.selected|
    ensures forall i | 0 <= i < |t.started| :: t.started[i] == i
    ensures forall i, j | 0 <= i < j < |t.selected| :: t.selected[i] < t.selected[j]
  {
    ReachedIsOk(s, events, t);
  }

  /** A pair run executes only while nothing else does, and no more solo runs overlap than allowed. */
  lemma PairRunsAlone(s: State, events: seq<Event>, t: State)
    requires Initial(s) && Reaches(s, events, t)
    ensures Shape(t)
    ensures forall task | task in t.live && IsPair(t, task) :: t.live.Keys == {task}
    ensures |t.live.Keys| <= t.limit
  {
    ReachedIsOk(s, events, t);
  }

  ghost predicate NoRestart(events: seq<Event>) {
    forall i | 0 <= i < |events| :: !events[i].Restart?
  }

  lemma StepAfterQuota(s: State, e: Event)
    requires s.quota && Enabled(s, e) && !e.Restart?
    ensures Next(s, e).started == s.started && Next(s, e).quota
  {
  }

  /** Once a usage limit has been noted, no further run of the slice starts. */
  lemma {:induction false} NothingStartsAfterQuota(s: State, events: seq<Event>, t: State)
    requires s.quota && Reaches(s, events, t) && NoRestart(events)
    ensures t.started == s.started && t.quota
    decreases events
  {
    if events == [] {
    } else {
      var n := |events| - 1;
      var mid :| Reaches(s, events[..n], mid) && Enabled(mid, events[n]) && t == Next(mid, events[n]);
      NothingStartsAfterQuota(s, events[..n], mid);
      StepAfterQuota(mid, events[n]);
    }
  }

  /** A slice that returns has run all it selected, has noted no usage limit, and has nothing left running. */
  lemma ReturnedMeansAllRan(s: State, events: seq<Event>, t: State)
    requires Initial(s) && Reaches(s, events, t) && t.pc == Returned
    ensures t.live == map[] && !t.quota && |t.started| == |t.selected|
    ensures t.done + t.failed + t.errors == |t.selected|
  {
    ReachedIsOk(s, events, t);
  }

  // ------------------------------------------------------------ errors

  predicate Drifts(e: Event) {
    match e
    case Loop(drift) => drift
    case Raced(_, drift) => drift
    case Drained(drift) => drift
    case Retries(_, drift) => drift
    case _ => false
  }

  predicate NoDrift(events: seq<Event>) {
    forall i | 0 <= i < |events| :: !Drifts(events[i])
  }

  /** Runs not yet started can still be claimed, and nothing has gone wrong. */
  ghost predicate Smooth(s: State)
    requires Shape(s)
  {
    && (forall k: nat | s.next <= k < |s.selected| :: s.runs[s.selected[k]].status == Pending || s.runs[s.selected[k]].status == Running)
    && (forall task | task in s.live :: !s.live[task].Broken?)
    && s.errors == 0 && s.rejected == {}
  }

  lemma LocalStaysSmooth(s: State, t: State, task: nat)
    requires Shape(s) && Shape(t) && Smooth(s) && task < |s.selected| && task < t.next && s.next <= t.next && Local(s, t, task)
    requires t.errors == 0 && t.rejected == {} && (task in t.live ==> !t.live[task].Broken?)
    ensures Smooth(t)
  {
    forall k: nat | t.next <= k < |t.selected|
      ensures t.runs[t.selected[k]] == s.runs[s.selected[k]]
    {
    }
    forall k | k in t.live
      ensures !t.live[k].Broken?
    {
      if k != task {
        SameElsewhere(s, t, task, k);
      }
    }
  }

  lemma StartStaysSmooth(s: State, pair: bool)
    requires Fine(s) && Smooth(s) && s.next < |s.selected|
    ensures Shape(Start(s, pair, false)) && Smooth(Start(s, pair, false))
  {
    var mid := Taken(s, pair);
    var t := Start(s, pair, false);
    BeginShape(mid, s.next, false, false);
    BeginIsEntry(mid, s.next, false, false);
    assert t.live[s.next].Attempt?;
    LocalStaysSmooth(mid, t, s.next);
  }

  lemma EndStaysSmooth(s: State, task: nat, outcome: Outcome)
    requires Fine(s) && Smooth(s) && Enabled(s, AttemptEnds(task, outcome))
    ensures var t := End(s, task, outcome); Shape(t) && Smooth(t)
  {
    assert s.errors == 0 && s.rejected == {};
    hide AllFine, Smooth, Local;
    EndShape(s, task, outcome);
    EndKeepsFine(s, task, outcome);
    EndRaisesNothing(s, task, outcome);
    LocalStaysSmooth(s, End(s, task, outcome), task);
  }

  /** The second attempt counts as a second one, so its failure is final and no error. */
  lemma EndRaisesNothing(s: State, task: nat, outcome: Outcome)
    requires Fine(s) && Enabled(s, AttemptEnds(task, outcome)) && s.errors == 0 && s.rejected == {}
    ensures var t := End(s, task, outcome);
      t.errors == 0 && t.rejected == {} && t.next == s.next && (task in t.live ==> !t.live[task].Broken?)
  {
    EndIsEntry(s, task, outcome);
    ClaimedIs(s, task);
    var p := s.selected[task];
    assert LiveFine(s.live[task], p, s.runs[p], s.tallies[p]);
    assert RunFine(s.runs[p], s.tallies[p], true, multiset(s.ledger)[p]);
  }

  lemma RetryStaysSmooth(s: State, task: nat)
    requires Fine(s) && Smooth(s) && Enabled(s, Retries(task, false))
    ensures var t := Begin(s, task, true, false); Shape(t) && Smooth(t)
  {
    hide Local, Keyed;
    BeginShape(s, task, true, false);
    BeginIsEntry(s, task, true, false);
    assert LiveFine(s.live[task], s.selected[task], s.runs[s.selected[task]], s.tallies[s.selected[task]]);
    LocalStaysSmooth(s, Begin(s, task, true, false), task);
  }

  lemma NextStaysSmooth(s: State, e: Event)
    requires Fine(s) && Smooth(s) && Enabled(s, e) && !Drifts(e)
    ensures Shape(Next(s, e)) && Smooth(Next(s, e))
  {
    match e
    case Restart(f, n) =>
      SliceInOrder(s.runs, f.(includeFailed := false));
    case Loop(_) =>
      if s.next < |s.selected| && !s.quota && !IsPair(s, s.next) && |s.pool| < s.limit {
        StartStaysSmooth(s, false);
      }
    case Raced(first, _) =>
      if !s.quota {
        StartStaysSmooth(s, false);
      }
    case Drained(_) =>
      if !s.quota {
        StartStaysSmooth(s, true);
      }
    case AttemptEnds(task, outcome) =>
      EndStaysSmooth(s, task, outcome);
    case Retries(task, _) =>
      RetryStaysSmooth(s, task);
    case _ =>
  }

  lemma {:induction false} ReachedIsSmooth(s: State, events: seq<Event>, t: State)
    requires Initial(s) && Reaches(s, events, t) && NoDrift(events)
    ensures Shape(t) && Smooth(t)
    decreases events
  {
    if events == [] {
    } else {
      var n := |events| - 1;
      var mid :| Reaches(s, events[..n], mid) && Enabled(mid, events[n]) && t == Next(mid, events[n]);
      ReachedIsSmooth(s, events[..n], mid);
      ReachedIsFine(s, events[..n], mid);
      NextStaysSmooth(mid, events[n]);
    }
  }

  /** Without pin drift the only exit besides a usage limit is a return with every run done or failed. */
  lemma ReturnedIsComplete(s: State, events: seq<Event>, t: State)
    requires Initial(s) && Reaches(s, events, t)
    ensures t.pc == Returned && NoDrift(events) ==> t.done + t.failed == |t.selected|
  {
    if t.pc == Returned && NoDrift(events) {
      ReachedIsSmooth(s, events, t);
      ReturnedMeansAllRan(s, events, t);
    }
  }
}
