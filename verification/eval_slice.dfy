/**
 * Slices of an evaluation campaign as a state machine: the walk of cmdSlice over its runs, the attempts of runOne and
 * runWithRetry, and their updates of the manifest and the ledger. Each event is one stretch of code between two awaits,
 * so that any order of events is an interleaving the event loop may produce (eval/runner/commands.ts, run-one.ts).
 */
module EvalSlice {
  import opened Wrappers
  import opened EvalManifest

  /** A call of runWithRetry that has not settled. */
  datatype Live =
    | Attempt(number: nat, harness: nat, second: bool, copy: seq<Run>)  // running, with the manifest as it saved it
    | Retrying    // the first attempt failed, the second has not begun
    | Broken      // rejected with an error that is neither quota nor retryable

  /** Where the loop of cmdSlice stands; an await holds the tasks it waits for. */
  datatype Pc = Top | Racing(waiting: set<nat>) | Draining(waiting: set<nat>) | InPair | Ending(waiting: set<nat>) | Returned | Threw

  datatype Outcome = Graded | QuotaHit | HarnessFailed

  datatype Settled = Won | Lost | Quota | Error

  /** What has happened to one run so far, over all slices. */
  datatype Tally = Tally(claims: seq<nat>, changes: seq<Change>, quotas: nat, failures: nat, wins: nat, crashes: nat)

  const NEVER := Tally([], [], 0, 0, 0, 0)

  /**
   * `runs` is the manifest file. Tasks and selected runs are named by their place in `selected`, which holds manifest
   * positions; the tallies are bookkeeping of the model.
   */
  datatype State = State(
    runs: seq<Run>, ledger: seq<nat>, tallies: seq<Tally>,
    selected: seq<nat>, limit: nat, pc: Pc, next: nat, pool: set<nat>, live: map<nat, Live>, rejected: set<nat>,
    quota: bool, started: seq<nat>, done: nat, failed: nat, quotaHits: nat, errors: nat)

  datatype Event =
    | Restart(filter: Filter, parallelSolo: int)
    | Loop(drift: bool)
    | Raced(first: nat, drift: bool)
    | Drained(drift: bool)
    | DrainThrew(first: nat)
    | AttemptEnds(task: nat, outcome: Outcome)
    | Breaks(task: nat)
    | Retries(task: nat, drift: bool)
    | Ended
    | EndThrew(first: nat)

  // ------------------------------------------------------------ runOne

  function KeyOf(s: State, task: nat): Key
    requires task < |s.selected| && s.selected[task] < |s.runs|
  {
    s.runs[s.selected[task]].key
  }

  /** The synchronous start of runOne: load the manifest, guards, pin drift for arm C, claim, and save the whole. */
  function Begin(s: State, task: nat, second: bool, drift: bool): State
    requires task < |s.selected| && s.selected[task] < |s.runs| == |s.tallies|
  {
    var p, key, loaded := s.selected[task], KeyOf(s, task), s.runs;
    match Find(loaded, key)
    case None => s.(live := s.live[task := Broken])
    case Some(found) =>
      var run := loaded[found];
      match (if run.status == Done || (run.key.arm == C && drift) then Throw(AlreadyOver) else Updated(loaded, key, Claim))
      case Throw(_) => s.(live := s.live[task := Broken])
      case Ok(saved) =>
        var attempt := run.attempts + 1;
        var tally := s.tallies[p];
        s.(runs := saved,
           tallies := s.tallies[p := tally.(claims := tally.claims + [attempt], changes := tally.changes + [Claim])],
           live := s.live[task := Attempt(attempt, if run.quotaAborts <= attempt then attempt - run.quotaAborts else 0, second, saved)])
  }

  /** runWithRetry settles: the task leaves the pool; for a pair run the loop goes on with the next run. */
  function Settle(s: State, task: nat, how: Settled): State
    requires task in s.live
  {
    var t := s.(live := s.live - {task}, pool := s.pool - {task},
                pc := if s.pc.InPair? then (if how == Error then Threw else Top) else s.pc);
    match how
    case Won => t.(done := t.done + 1)
    case Lost => t.(failed := t.failed + 1)
    case Quota => t.(quota := true, quotaHits := t.quotaHits + 1)
    case Error => t.(rejected := t.rejected + {task}, errors := t.errors + 1)
  }

  /** Append the ledger row, load the manifest as it is by now, change the run in it, save the whole, and settle. */
  function Close(s: State, task: nat, change: Change, rows: seq<nat>, tally: Tally, how: Settled): State
    requires task in s.live && task < |s.selected| && s.selected[task] < |s.runs| == |s.tallies|
  {
    var t := s.(ledger := s.ledger + rows);
    match Updated(s.runs, KeyOf(s, task), change)
    case Throw(_) => Settle(t, task, Error)
    case Ok(saved) =>
      Settle(t.(runs := saved, tallies := s.tallies[s.selected[task] := tally.(changes := tally.changes + [change])]), task, how)
  }

  /** The rest of runOne, once its arm has ended: ledger row and manifest, or release, or retry. */
  function End(s: State, task: nat, outcome: Outcome): State
    requires task in s.live && s.live[task].Attempt? && task < |s.selected| && s.selected[task] < |s.runs| == |s.tallies|
  {
    var p := s.selected[task];
    var tally, attempt := s.tallies[p], s.live[task];
    match outcome
    case Graded => Close(s, task, Complete(false), [p], tally.(wins := tally.wins + 1), Won)
    case QuotaHit => Close(s, task, Release, [], tally.(quotas := tally.quotas + 1), Quota)
    case HarnessFailed =>
      var failed := tally.(failures := tally.failures + 1);
      if attempt.harness >= 2 then Close(s, task, Complete(true), [p], failed, Lost)
      else
        var t := s.(tallies := s.tallies[p := failed]);
        if attempt.second then Settle(t, task, Error) else t.(live := t.live[task := Retrying])
  }

  // ------------------------------------------------------------ cmdSlice

  function PoolLimit(parallelSolo: int): nat {
    if parallelSolo >= 1 then parallelSolo else 1
  }

  predicate IsPair(s: State, task: nat)
    requires task < |s.selected| && s.selected[task] < |s.runs|
  {
    s.runs[s.selected[task]].key.arm == C
  }

  /** The loop takes the next run: a solo run joins the pool, a pair run has it emptied. */
  function Taken(s: State, pair: bool): State {
    s.(pc := if pair then InPair else Top, next := s.next + 1, pool := if pair then {} else s.pool + {s.next},
       started := s.started + [s.next])
  }

  function Start(s: State, pair: bool, drift: bool): State
    requires s.next < |s.selected| && s.selected[s.next] < |s.runs| == |s.tallies|
  {
    Begin(Taken(s, pair), s.next, false, drift)
  }

  /** One turn of the loop, up to its first await. */
  function Turn(s: State, drift: bool): State
    requires s.next < |s.selected| ==> s.selected[s.next] < |s.runs| == |s.tallies|
  {
    if s.next >= |s.selected| || s.quota then s.(pc := Ending(s.pool))
    else if IsPair(s, s.next) then s.(pc := Draining(s.pool))
    else if |s.pool| >= s.limit then s.(pc := Racing(s.pool))
    else Start(s, false, drift)
  }

  /** A new process starts a slice; whatever the last one still had running is lost. Failed runs are never selected. */
  function Begun(s: State, f: Filter, parallelSolo: int): State
    requires |s.tallies| == |s.runs|
  {
    State(s.runs, s.ledger, Crash(s), Slice(s.runs, f.(includeFailed := false)), PoolLimit(parallelSolo), Top, 0, {}, map[], {}, false, [], 0, 0, 0, 0)
  }

  function Crash(s: State): (tallies: seq<Tally>)
    requires |s.tallies| == |s.runs|
    ensures |tallies| == |s.runs|
  {
    seq(|s.runs|, p requires 0 <= p < |s.runs| => if Claimed(s, p) then s.tallies[p].(crashes := s.tallies[p].crashes + 1) else s.tallies[p])
  }

  /** An attempt of the run at a manifest position is under way. */
  predicate Claimed(s: State, p: nat) {
    exists task | task in s.live :: task < |s.selected| && s.selected[task] == p && s.live[task].Attempt?
  }

  ghost predicate TaskOk(s: State, task: nat) {
    task < |s.selected| && s.selected[task] < |s.runs| == |s.tallies|
  }

  /** The task has settled. */
  predicate Settles(s: State, task: nat, waiting: set<nat>) {
    task in waiting && task !in s.live
  }

  ghost predicate Enabled(s: State, e: Event) {
    match e
    case Restart(_, _) => |s.tallies| == |s.runs|
    case Loop(_) => s.pc.Top? && (s.next < |s.selected| ==> TaskOk(s, s.next))
    case Raced(first, _) => s.pc.Racing? && Settles(s, first, s.pc.waiting) && TaskOk(s, s.next)
    case Drained(_) => s.pc.Draining? && s.pc.waiting !! s.live.Keys && s.pc.waiting !! s.rejected && TaskOk(s, s.next)
    case DrainThrew(first) => s.pc.Draining? && Settles(s, first, s.pc.waiting) && first in s.rejected
    case AttemptEnds(task, _) => task in s.live && s.live[task].Attempt? && TaskOk(s, task)
    case Breaks(task) => task in s.live && s.live[task].Broken?
    case Retries(task, _) => task in s.live && s.live[task].Retrying? && TaskOk(s, task)
    case Ended => s.pc.Ending? && s.pc.waiting !! s.live.Keys && s.pc.waiting !! s.rejected
    case EndThrew(first) => s.pc.Ending? && Settles(s, first, s.pc.waiting) && first in s.rejected
  }

  function Next(s: State, e: Event): State
    requires Enabled(s, e)
  {
    match e
    case Restart(f, parallelSolo) => Begun(s, f, parallelSolo)
    case Loop(drift) => Turn(s, drift)
    case Raced(first, drift) =>
      if first in s.rejected then s.(pc := Threw)
      else if s.quota then s.(pc := Ending(s.pool))
      else Start(s, false, drift)
    case Drained(drift) => if s.quota then s.(pc := Ending({}), pool := {}) else Start(s, true, drift)
    case DrainThrew(_) => s.(pc := Threw)
    case AttemptEnds(task, outcome) => End(s, task, outcome)
    case Breaks(task) => Settle(s, task, Error)
    case Retries(task, drift) => Begin(s, task, true, drift)
    case Ended => s.(pc := if s.quota then Threw else Returned)
    case EndThrew(_) => s.(pc := Threw)
  }

  /** A campaign before its first slice. */
  ghost predicate Initial(s: State) {
    && Keyed(s.runs) && |s.tallies| == |s.runs| && s.ledger == []
    && (forall p | 0 <= p < |s.runs| :: s.runs[p] == Fresh(s.runs[p].key) && s.tallies[p] == NEVER)
    && s.selected == [] && s.pc == Returned && s.next == 0 && s.pool == {} && s.live == map[] && s.rejected == {}
    && !s.quota && s.started == [] && s.done == s.failed == s.quotaHits == s.errors == 0 && s.limit == 1
  }

  /** The states that a sequence of events leads through. */
  ghost predicate Reaches(s: State, events: seq<Event>, t: State)
    decreases events
  {
    if events == [] then s == t
    else
      var n := |events| - 1;
      exists mid :: Reaches(s, events[..n], mid) && Enabled(mid, events[n]) && t == Next(mid, events[n])
  }
}
