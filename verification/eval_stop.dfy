/** What may still begin once a usage limit has been noted, over every interleaving (eval/runner/commands.ts). */
module EvalStop {
  import opened Wrappers
  import opened EvalManifest
  import opened EvalSlice
  import opened EvalAccounting
  import opened EvalSchedule

  /** A call that still has its harness retry: its first attempt is running or has failed. */
  predicate HasRetry(l: Live) {
    l.Retrying? || (l.Attempt? && !l.second && l.harness < 2)
  }

  /** Attempts of task k that began between s and t. */
  function NewClaims(s: State, t: State, k: nat): int
    requires TaskIn(s, k) && TaskIn(t, k)
  {
    |t.tallies[t.selected[k]].claims| - |s.tallies[s.selected[k]].claims|
  }

  predicate TaskIn(s: State, k: nat) {
    k < |s.selected| && s.selected[k] < |s.tallies|
  }

  /** Task k's first attempt has failed by t, and its retry is not outstanding: it has begun its second. */
  ghost predicate FirstFailed(s: State, t: State, k: nat)
    requires TaskIn(s, k) && TaskIn(t, k) && k in s.live
  {
    s.live[k].Retrying? || t.tallies[t.selected[k]].failures > s.tallies[s.selected[k]].failures
  }

  ghost predicate Outstanding(t: State, k: nat) {
    k in t.live && t.live[k].Retrying?
  }

  /** How task k stands at t, when the usage limit had been noted at s. */
  ghost predicate Stopped(s: State, t: State, k: nat)
    requires TaskIn(s, k) && TaskIn(t, k)
  {
    if k !in s.live then k !in t.live && NewClaims(s, t, k) == 0
    else if !HasRetry(s.live[k]) then NewClaims(s, t, k) == 0 && (k in t.live ==> t.live[k] == s.live[k])
    else
      if FirstFailed(s, t, k) && !Outstanding(t, k) then
        && NewClaims(s, t, k) == 1
        && (k in t.live ==> t.live[k].Attempt? && t.live[k].second)
      else
        && NewClaims(s, t, k) == 0 && t.tallies[t.selected[k]].failures >= s.tallies[s.selected[k]].failures
        && (k in t.live ==> t.live[k] == s.live[k] || (t.live[k].Retrying? && FirstFailed(s, t, k)))
  }

  ghost predicate SameSlice(s: State, t: State) {
    t.quota && t.selected == s.selected && |t.tallies| == |s.tallies|
  }

  lemma NothingMoves(s: State, mid: State, e: Event)
    requires Shape(mid) && mid.quota && Enabled(mid, e) && !e.Restart? && !e.AttemptEnds? && !e.Retries? && !e.Breaks?
    ensures var t := Next(mid, e); SameSlice(mid, t) && t.live == mid.live && t.tallies == mid.tallies
  {
  }

  /** Only the task that an event is about moves. */
  lemma OthersStay(s: State, mid: State, t: State, task: nat, k: nat)
    requires Shape(mid) && Shape(t) && task < |mid.selected| && Local(mid, t, task) && k != task
    requires TaskIn(s, k) && TaskIn(mid, k) && TaskIn(t, k) && s.selected == mid.selected && Stopped(s, mid, k)
    ensures Stopped(s, t, k)
  {
    SameElsewhere(mid, t, task, k);
    assert t.selected[k] != mid.selected[task];
  }

  /** With the limit noted only solo runs are under way, and these have no pins that could drift. */
  lemma RetryClaims(mid: State, task: nat, drift: bool)
    requires Fine(mid) && SchedOk(mid) && mid.quota && Enabled(mid, Retries(task, drift))
    ensures var t := Begin(mid, task, true, drift); var p := mid.selected[task];
      && task in t.live && t.live[task].Attempt? && t.live[task].second
      && |t.tallies| == |mid.tallies| && |t.tallies[p].claims| == |mid.tallies[p].claims| + 1
      && t.tallies[p].failures == mid.tallies[p].failures
  {
    BeginIsEntry(mid, task, true, drift);
    assert LiveFine(mid.live[task], mid.selected[task], mid.runs[mid.selected[task]], mid.tallies[mid.selected[task]]);
    assert task in mid.live.Keys;
    assert !IsPair(mid, task);
  }

  lemma EndMoves(mid: State, task: nat, outcome: Outcome)
    requires Fine(mid) && Enabled(mid, AttemptEnds(task, outcome))
    ensures var t := End(mid, task, outcome); var p := mid.selected[task];
      && |t.tallies| == |mid.tallies| && t.tallies[p].claims == mid.tallies[p].claims
      && t.tallies[p].failures == mid.tallies[p].failures + (if outcome == HarnessFailed then 1 else 0)
      && (task in t.live <==> outcome == HarnessFailed && mid.live[task].harness < 2 && !mid.live[task].second)
      && (task in t.live ==> t.live[task].Retrying?)
  {
    EndIsEntry(mid, task, outcome);
  }

  lemma OwnStep(s: State, mid: State, e: Event, task: nat)
    requires Fine(mid) && SchedOk(mid) && mid.quota && Enabled(mid, e)
    requires e == Breaks(task) || (e.AttemptEnds? && e.task == task) || (e.Retries? && e.task == task)
    requires SameSlice(s, mid) && SameSlice(mid, Next(mid, e))
    requires TaskIn(s, task) && TaskIn(mid, task) && TaskIn(Next(mid, e), task) && Stopped(s, mid, task)
    ensures Stopped(s, Next(mid, e), task)
  {
    hide Begin, End, SchedOk, Fine;
    match e
    case AttemptEnds(_, outcome) => EndMoves(mid, task, outcome);
    case Retries(_, drift) => RetryClaims(mid, task, drift);
    case Breaks(_) =>
  }

  lemma StepStops(s: State, mid: State, e: Event, k: nat)
    requires Fine(mid) && SchedOk(mid) && mid.quota && Enabled(mid, e) && !e.Restart? && Fine(Next(mid, e))
    requires SameSlice(s, mid) && TaskIn(s, k) && TaskIn(mid, k) && Stopped(s, mid, k)
    ensures SameSlice(s, Next(mid, e)) && TaskIn(Next(mid, e), k) && Stopped(s, Next(mid, e), k)
  {
    hide Begin, End, SchedOk, Stopped, AllFine;
    var t := Next(mid, e);
    match e
    case AttemptEnds(task, outcome) =>
      EndShape(mid, task, outcome);
      EndKeepsSlice(mid, task, outcome);
      if task == k { OwnStep(s, mid, e, k); } else { OthersStay(s, mid, t, task, k); }
    case Retries(task, drift) =>
      BeginShape(mid, task, true, drift);
      BeginAdds(mid, task, true, drift);
      if task == k { OwnStep(s, mid, e, k); } else { OthersStay(s, mid, t, task, k); }
    case Breaks(task) =>
      if task == k { OwnStep(s, mid, e, k); } else { OthersStay(s, mid, t, task, k); }
    case _ =>
      NothingMoves(s, mid, e);
      StoppedIsSame(s, mid, t, k);
  }

  lemma StoppedIsSame(s: State, mid: State, t: State, k: nat)
    requires TaskIn(s, k) && TaskIn(mid, k) && t.live == mid.live && t.tallies == mid.tallies && t.selected == mid.selected
    requires Stopped(s, mid, k)
    ensures TaskIn(t, k) && Stopped(s, t, k)
  {
  }

  lemma EndKeepsSlice(mid: State, task: nat, outcome: Outcome)
    requires Shape(mid) && mid.quota && Enabled(mid, AttemptEnds(task, outcome))
    ensures SameSlice(mid, End(mid, task, outcome))
  {
    EndIsEntry(mid, task, outcome);
  }

  lemma {:induction false} RunStops(s: State, events: seq<Event>, t: State, k: nat)
    requires Fine(s) && SchedOk(s) && s.quota && TaskIn(s, k) && Reaches(s, events, t) && NoRestart(events)
    ensures Fine(t) && SchedOk(t) && SameSlice(s, t) && TaskIn(t, k) && Stopped(s, t, k)
    decreases events
  {
    hide Fine, SchedOk, Stopped;
    if events == [] {
      assert Stopped(s, s, k) by { StopsAtOnce(s, k); }
    } else {
      var n := |events| - 1;
      var mid :| Reaches(s, events[..n], mid) && Enabled(mid, events[n]) && t == Next(mid, events[n]);
      RunStops(s, events[..n], mid, k);
      assert Unstarted(mid) by { FineIsUnstarted(mid); }
      NextKeepsFine(mid, events[n]);
      NextIsOk(mid, events[n]);
      StepStops(s, mid, events[n], k);
    }
  }

  lemma FineIsUnstarted(s: State)
    requires Fine(s)
    ensures Unstarted(s)
  {
  }

  lemma StopsAtOnce(s: State, k: nat)
    requires TaskIn(s, k)
    ensures Stopped(s, s, k)
  {
  }

  /**
   * What still begins once the usage limit is noted, in any history and any continuation of the slice: of each task at
   * most one attempt. It begins exactly when the task was live with its harness retry left, its first attempt has
   * failed, and its retry is not outstanding. Then it is the task's second attempt. No other task begins anything.
   */
  lemma BeginsAfterQuota(s0: State, events: seq<Event>, s: State, more: seq<Event>, t: State, k: nat)
    requires Initial(s0) && Reaches(s0, events, s) && s.quota && Reaches(s, more, t) && NoRestart(more)
    requires k < |s.selected|
    ensures TaskIn(s, k) && TaskIn(t, k) && t.selected == s.selected
    ensures 0 <= NewClaims(s, t, k) <= 1
    ensures NewClaims(s, t, k) == 1 <==>
      k in s.live && HasRetry(s.live[k]) && FirstFailed(s, t, k) && !Outstanding(t, k)
    ensures NewClaims(s, t, k) == 1 && k in t.live ==> t.live[k].Attempt? && t.live[k].second
  {
    ReachedIsFine(s0, events, s);
    ReachedIsOk(s0, events, s);
    assert TaskIn(s, k);
    RunStops(s, more, t, k);
  }

  /** When all has settled, nothing more has begun exactly if no task with a retry left has failed its first attempt. */
  lemma NothingBeginsIff(s0: State, events: seq<Event>, s: State, more: seq<Event>, t: State)
    requires Initial(s0) && Reaches(s0, events, s) && s.quota && Reaches(s, more, t) && NoRestart(more) && t.live == map[]
    ensures forall k: nat | k < |s.selected| :: TaskIn(s, k) && TaskIn(t, k)
    ensures (forall k: nat | k < |s.selected| :: NewClaims(s, t, k) == 0)
       <==> (forall k: nat | k < |s.selected| && k in s.live && HasRetry(s.live[k]) :: !FirstFailed(s, t, k))
  {
    hide NewClaims, FirstFailed, HasRetry, TaskIn, Initial, Reaches;
    forall k: nat | k < |s.selected|
      ensures TaskIn(s, k) && TaskIn(t, k)
      ensures NewClaims(s, t, k) == 0 <==> !(k in s.live && HasRetry(s.live[k]) && FirstFailed(s, t, k))
    {
      BeginsAfterQuota(s0, events, s, more, t, k);
    }
  }

  lemma Reached(s: State, events: seq<Event>, mid: State, e: Event)
    ensures Reaches(s, events, mid) && Enabled(mid, e) ==> Reaches(s, events + [e], Next(mid, e))
  {
    assert (events + [e])[..|events|] == events;
  }

  // ------------------------------------------------------------ a campaign of two solo runs, step by step

  const RUN_A := Fresh(Key("t", A, 1))
  const RUN_B := Fresh(Key("t", B, 1))
  const ONCE := Tally([1], [Claim], 0, 0, 0, 0)
  const NO_FILTER := Filter(None, None, None, false)

  function Campaign(): State {
    State([RUN_A, RUN_B], [], [NEVER, NEVER], [], 1, Returned, 0, {}, map[], {}, false, [], 0, 0, 0, 0)
  }

  function Started0(): State {
    Campaign().(selected := [0, 1], limit := 2, pc := Top)
  }

  const ONE_CLAIMED := [Claimed1(RUN_A), RUN_B]
  const BOTH_CLAIMED := [Claimed1(RUN_A), Claimed1(RUN_B)]
  const BOTH_LIVE: map<nat, Live> := map[0 := Attempt(1, 1, false, ONE_CLAIMED), 1 := Attempt(1, 1, false, BOTH_CLAIMED)]

  function Claimed1(r: Run): Run {
    r.(status := Running, attempts := 1, runDir := Some(1))
  }

  function Started1(): State {
    Started0().(runs := ONE_CLAIMED, tallies := [ONCE, NEVER], next := 1, pool := {0},
                live := map[0 := Attempt(1, 1, false, ONE_CLAIMED)], started := [0])
  }

  function Started2(): State {
    Started1().(runs := BOTH_CLAIMED, tallies := [ONCE, ONCE], next := 2, pool := {0, 1},
                live := BOTH_LIVE, started := [0, 1])
  }

  function AfterFailure(): State {
    Started2().(tallies := [ONCE.(failures := 1), ONCE], live := map[0 := Retrying, 1 := Attempt(1, 1, false, BOTH_CLAIMED)])
  }

  lemma RestartStep()
    ensures Next(Campaign(), Restart(NO_FILTER, 2)) == Started0()
  {
    assert [RUN_A, RUN_B][..1] == [RUN_A] && [RUN_A][..0] == [];
    assert AllSelectable([RUN_A], NO_FILTER) == [] + [0];
    assert AllSelectable([RUN_A, RUN_B], NO_FILTER) == [0] + [1];
    assert Crash(Campaign()) == [NEVER, NEVER];
  }

  lemma StartIsEntry(s: State)
    requires Shape(s) && s.next < |s.selected|
    ensures Start(s, false, false) == BeginEntry(Taken(s, false), s.next, false, false)
  {
    BeginIsEntry(Taken(s, false), s.next, false, false);
  }

  lemma FirstStart()
    ensures Enabled(Started0(), Loop(false)) && Next(Started0(), Loop(false)) == Started1()
  {
    hide Begin, Find, Mapped;
    var t := Next(Started0(), Loop(false));
    assert [] + [1] == [1] && [] + [0] == [0] && [] + [Claim] == [Claim];
    StartIsEntry(Started0());
    assert t.runs == ONE_CLAIMED && t.tallies == [ONCE, NEVER];
    assert t.live == map[0 := Attempt(1, 1, false, ONE_CLAIMED)] && t.pool == {0} && t.started == [0];
  }

  lemma SecondStart()
    ensures Enabled(Started1(), Loop(false)) && Next(Started1(), Loop(false)) == Started2()
  {
    hide Begin, Find, Mapped, Start;
    var t := Next(Started1(), Loop(false));
    assert |Started1().pool| == 1;
    StartIsEntry(Started1());
    assert t == BeginEntry(Taken(Started1(), false), 1, false, false);
    assert [] + [1] == [1] && [0] + [1] == [0, 1] && [] + [Claim] == [Claim];
    assert t.runs == BOTH_CLAIMED && t.tallies == [ONCE, ONCE];
    assert t.live == BOTH_LIVE && t.pool == {0, 1} && t.started == [0, 1];
  }

  lemma FirstFails()
    ensures Enabled(Started2(), AttemptEnds(0, HarnessFailed)) && Next(Started2(), AttemptEnds(0, HarnessFailed)) == AfterFailure()
  {
  }

  lemma CampaignIsInitial()
    ensures Initial(Campaign())
  {
  }

  /** The usage limit has been noted, and a retry may still claim one more attempt. */
  ghost predicate ClaimsAfterQuota(t: State) {
    && t.quota && |t.tallies| == |t.runs| == 2 && Enabled(t, Retries(0, false))
    && |Next(t, Retries(0, false)).runs| == 2 && Next(t, Retries(0, false)).runs[0].attempts == t.runs[0].attempts + 1
  }

  function AfterQuota(): State {
    AfterFailure().(runs := [Claimed1(RUN_A), RUN_B.(attempts := 1, quotaAborts := 1)], live := map[0 := Retrying], pool := {0},
                    tallies := [ONCE.(failures := 1), ONCE.(quotas := 1, changes := [Claim, Release])], quota := true, quotaHits := 1)
  }

  lemma ThenQuota()
    ensures Enabled(AfterFailure(), AttemptEnds(1, QuotaHit)) && Next(AfterFailure(), AttemptEnds(1, QuotaHit)) == AfterQuota()
  {
    hide End, Replay;
    var t := Next(AfterFailure(), AttemptEnds(1, QuotaHit));
    EndIsEntry(AfterFailure(), 1, QuotaHit);
    assert [Claim] + [Release] == [Claim, Release];
    assert t.runs == AfterQuota().runs && t.tallies == AfterQuota().tallies;
    assert t.live == map[0 := Retrying] && t.pool == {0};
  }

  lemma RetryStillClaims()
    ensures ClaimsAfterQuota(AfterQuota())
  {
    hide Begin, Replay;
    BeginIsEntry(AfterQuota(), 0, true, false);
  }

  /**
   * What stops is new runs, not new attempts: a solo run whose first attempt failed is claimed again after another
   * run of the pool has hit the usage limit.
   */
  lemma RetryAfterQuota()
    ensures exists s: State, events: seq<Event>, t: State :: Initial(s) && Reaches(s, events, t) && ClaimsAfterQuota(t)
  {
    var events := FirstFour();
    ThenQuota();
    RetryStillClaims();
    CampaignIsInitial();
    hide Initial, Reaches, Next, ClaimsAfterQuota;
    Reached(Campaign(), events, AfterFailure(), AttemptEnds(1, QuotaHit));
  }

  lemma FirstThree() returns (events: seq<Event>)
    ensures Reaches(Campaign(), events, Started2())
  {
    RestartStep();
    FirstStart();
    SecondStart();
    events := [];
    Reached(Campaign(), events, Campaign(), Restart(NO_FILTER, 2));
    events := events + [Restart(NO_FILTER, 2)];
    Reached(Campaign(), events, Started0(), Loop(false));
    events := events + [Loop(false)];
    Reached(Campaign(), events, Started1(), Loop(false));
    events := events + [Loop(false)];
  }

  lemma FirstFour() returns (events: seq<Event>)
    ensures Reaches(Campaign(), events, AfterFailure())
  {
    FirstFails();
    events := FirstThree();
    Reached(Campaign(), events, Started2(), AttemptEnds(0, HarnessFailed));
    events := events + [AttemptEnds(0, HarnessFailed)];
  }

  /**
   * Why every save loads first: in a reachable state the copy that an attempt still holds lacks the other run's claim,
   * and to change and save that copy would undo it.
   */
  lemma StaleCopy()
    ensures exists s: State, events: seq<Event>, t: State ::
      && Initial(s) && Reaches(s, events, t)
      && 0 in t.live && t.live[0].Attempt? && |t.runs| == 2
      && match (Updated(t.live[0].copy, t.runs[0].key, Complete(false)), Updated(t.runs, t.runs[0].key, Complete(false)))
         case (Ok(stale), Ok(saved)) => |stale| == |saved| == 2 && saved[1] == t.runs[1] && stale[1] != t.runs[1]
         case _ => false
  {
    var events := FirstThree();
    CampaignIsInitial();
    hide Initial, Reaches, Updated, Mapped;
    KeyedUpdate(ONE_CLAIMED, 0, Complete(false));
    KeyedUpdate(BOTH_CLAIMED, 0, Complete(false));
  }
}
