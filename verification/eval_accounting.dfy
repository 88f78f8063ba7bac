/** Retry accounting over every history of slices, crashes included (eval/runner/run-one.ts, manifest.ts). */
module EvalAccounting {
  import opened Wrappers
  import opened EvalManifest
  import opened EvalSlice

  // ------------------------------------------------------------ one entry

  /** Begin, as it acts on the one entry of the task's run. */
  function BeginEntry(s: State, task: nat, second: bool, drift: bool): State
    requires task < |s.selected| && s.selected[task] < |s.runs| == |s.tallies|
  {
    var p := s.selected[task];
    var run, tally := s.runs[p], s.tallies[p];
    match (if run.status == Done || (run.key.arm == C && drift) then Throw(AlreadyOver) else Changed(run, Claim))
    case Throw(_) => s.(live := s.live[task := Broken])
    case Ok(claimed) =>
      var attempt := run.attempts + 1;
      s.(runs := s.runs[p := claimed],
         tallies := s.tallies[p := tally.(claims := tally.claims + [attempt], changes := tally.changes + [Claim])],
         live := s.live[task := Attempt(attempt, if run.quotaAborts <= attempt then attempt - run.quotaAborts else 0, second,
                                        s.runs[p := claimed])])
  }

  function CloseEntry(s: State, task: nat, change: Change, rows: seq<nat>, tally: Tally, how: Settled): State
    requires task in s.live && task < |s.selected| && s.selected[task] < |s.runs| == |s.tallies| && change != Claim
  {
    var p := s.selected[task];
    Settle(s.(runs := s.runs[p := Changed(s.runs[p], change).value], ledger := s.ledger + rows,
              tallies := s.tallies[p := tally.(changes := tally.changes + [change])]), task, how)
  }

  /** End, as it acts on the one entry of the task's run. */
  function EndEntry(s: State, task: nat, outcome: Outcome): State
    requires task in s.live && s.live[task].Attempt? && task < |s.selected| && s.selected[task] < |s.runs| == |s.tallies|
  {
    var p := s.selected[task];
    var tally, attempt := s.tallies[p], s.live[task];
    match outcome
    case Graded => CloseEntry(s, task, Complete(false), [p], tally.(wins := tally.wins + 1), Won)
    case QuotaHit => CloseEntry(s, task, Release, [], tally.(quotas := tally.quotas + 1), Quota)
    case HarnessFailed =>
      var failed := tally.(failures := tally.failures + 1);
      if attempt.harness >= 2 then CloseEntry(s, task, Complete(true), [p], failed, Lost)
      else
        var t := s.(tallies := s.tallies[p := failed]);
        if attempt.second then Settle(t, task, Error) else t.(live := t.live[task := Retrying])
  }

  /** Loading, changing and saving the whole manifest by key comes down to changing one entry of it. */
  lemma BeginIsEntry(s: State, task: nat, second: bool, drift: bool)
    requires Shape(s) && task < |s.selected|
    ensures Begin(s, task, second, drift) == BeginEntry(s, task, second, drift)
  {
    KeyedUpdate(s.runs, s.selected[task], Claim);
  }

  lemma EndIsEntry(s: State, task: nat, outcome: Outcome)
    requires Shape(s) && task in s.live && s.live[task].Attempt?
    ensures End(s, task, outcome) == EndEntry(s, task, outcome)
  {
    var p := s.selected[task];
    KeyedUpdate(s.runs, p, Complete(false));
    KeyedUpdate(s.runs, p, Complete(true));
    KeyedUpdate(s.runs, p, Release);
  }

  /** A run after a list of changes. */
  function Replay(r: Run, changes: seq<Change>): Run {
    if changes == [] then r
    else
      var before := Replay(r, changes[..|changes| - 1]);
      match Changed(before, changes[|changes| - 1])
      case Throw(_) => before
      case Ok(after) => after
  }

  lemma ReplayOneMore(r: Run, changes: seq<Change>, change: Change)
    ensures Replay(r, changes + [change])
         == match Changed(Replay(r, changes), change) { case Throw(_) => Replay(r, changes) case Ok(after) => after }
  {
    assert (changes + [change])[..|changes|] == changes;
  }

  // ------------------------------------------------------------ one run

  /** What a run's manifest entry says, against what has happened to the run and the rows it has in the ledger. */
  ghost predicate RunFine(r: Run, t: Tally, claimed: bool, rows: nat) {
    && r == Replay(Fresh(r.key), t.changes)
    && |t.claims| == r.attempts && (forall i | 0 <= i < |t.claims| :: t.claims[i] == i + 1)
    && r.quotaAborts == t.quotas && r.runDir == (if r.status == Pending then None else Some(r.attempts))
    && r.attempts == t.quotas + t.failures + t.wins + t.crashes + (if claimed then 1 else 0)
    && (r.status == Done <==> t.wins == 1) && t.wins <= 1
    && (r.status == Failed ==> t.failures >= 1 && t.failures + t.crashes >= 2 && !claimed)
    && (r.status == Done ==> !claimed)
    && t.failures <= 2 && (t.failures == 2 ==> r.status == Failed)
    && rows == t.wins + (if r.status == Failed then 1 else 0)
  }

  ghost predicate LiveFine(l: Live, p: nat, r: Run, t: Tally) {
    match l
    case Attempt(number, harness, second, copy) =>
      && r.status == Running && number == r.attempts && harness == r.attempts - r.quotaAborts && (second ==> t.failures == 1)
      && p < |copy| && copy[p] == r
    case Retrying => r.status == Running && t.failures == 1 && r.attempts - r.quotaAborts == 1
    case Broken => true
  }

  // ------------------------------------------------------------ all runs

  ghost predicate Shape(s: State) {
    && Keyed(s.runs) && |s.tallies| == |s.runs|
    && (forall k | 0 <= k < |s.selected| :: s.selected[k] < |s.runs|)
    && (forall k, l | 0 <= k < l < |s.selected| :: s.selected[k] < s.selected[l])
    && (forall task | task in s.live :: task < |s.selected|)
  }

  ghost predicate AllFine(s: State)
    requires Shape(s)
  {
    && (forall p | 0 <= p < |s.runs| :: RunFine(s.runs[p], s.tallies[p], Claimed(s, p), multiset(s.ledger)[p]))
    && (forall task | task in s.live :: LiveFine(s.live[task], s.selected[task], s.runs[s.selected[task]], s.tallies[s.selected[task]]))
  }

  lemma ClaimedIs(s: State, task: nat)
    requires Shape(s) && task < |s.selected|
    ensures Claimed(s, s.selected[task]) <==> task in s.live && s.live[task].Attempt?
  {
    forall other | other in s.live && s.selected[other] == s.selected[task]
      ensures other == task
    {
    }
  }

  /** Only one task, and the run it works on, differ. */
  ghost predicate Local(s: State, t: State, task: nat)
    requires Shape(s) && Shape(t) && task < |s.selected|
  {
    var p := s.selected[task];
    && t.selected == s.selected && |t.runs| == |s.runs|
    && (forall q | 0 <= q < |s.runs| && q != p :: t.runs[q] == s.runs[q] && t.tallies[q] == s.tallies[q])
    && (forall q | q != p :: multiset(t.ledger)[q] == multiset(s.ledger)[q])
    && t.live - {task} == s.live - {task}
  }

  lemma SameElsewhere(s: State, t: State, task: nat, k: nat)
    requires Shape(s) && Shape(t) && task < |s.selected| && Local(s, t, task) && k != task
    ensures k in t.live <==> k in s.live
    ensures k in s.live ==> t.live[k] == s.live[k]
  {
    assert k in t.live <==> k in t.live - {task};
    assert k in s.live <==> k in s.live - {task};
    if k in s.live {
      assert (t.live - {task})[k] == t.live[k] && (s.live - {task})[k] == s.live[k];
    }
  }

  lemma LocalKeepsClaims(s: State, t: State, task: nat, q: nat)
    requires Shape(s) && Shape(t) && task < |s.selected| && Local(s, t, task) && q != s.selected[task]
    ensures Claimed(t, q) == Claimed(s, q)
  {
    if Claimed(s, q) {
      var k :| k in s.live && k < |s.selected| && s.selected[k] == q && s.live[k].Attempt?;
      SameElsewhere(s, t, task, k);
    }
    if Claimed(t, q) {
      var k :| k in t.live && k < |t.selected| && t.selected[k] == q && t.live[k].Attempt?;
      SameElsewhere(s, t, task, k);
    }
  }

  lemma LocalKeepsFine(s: State, t: State, task: nat)
    requires Shape(s) && Shape(t) && task < |s.selected| && Local(s, t, task) && AllFine(s)
    requires var p := s.selected[task];
      && RunFine(t.runs[p], t.tallies[p], task in t.live && t.live[task].Attempt?, multiset(t.ledger)[p])
      && (task in t.live ==> LiveFine(t.live[task], p, t.runs[p], t.tallies[p]))
    ensures AllFine(t)
  {
    var p := s.selected[task];
    ClaimedIs(t, task);
    forall q | 0 <= q < |t.runs|
      ensures RunFine(t.runs[q], t.tallies[q], Claimed(t, q), multiset(t.ledger)[q])
    {
      if q != p {
        LocalKeepsClaims(s, t, task, q);
      }
    }
    forall k | k in t.live
      ensures LiveFine(t.live[k], t.selected[k], t.runs[t.selected[k]], t.tallies[t.selected[k]])
    {
      if k != task {
        SameElsewhere(s, t, task, k);
        assert t.selected[k] != p;
      }
    }
  }

  // ------------------------------------------------------------ the steps

  /** A task that may begin an attempt: it has none yet, or its first one has failed. */
  ghost predicate MayBegin(s: State, task: nat, second: bool)
    requires Shape(s)
  {
    && task < |s.selected|
    && if second then task in s.live && s.live[task].Retrying? else task !in s.live
  }

  lemma BeginShape(s: State, task: nat, second: bool, drift: bool)
    requires Shape(s) && task < |s.selected|
    ensures Shape(Begin(s, task, second, drift)) && Local(s, Begin(s, task, second, drift), task)
  {
    BeginIsEntry(s, task, second, drift);
    KeyedUpdate(s.runs, s.selected[task], Claim);
  }

  lemma BeginKeepsFine(s: State, task: nat, second: bool, drift: bool)
    requires Shape(s) && AllFine(s) && MayBegin(s, task, second)
    ensures var t := Begin(s, task, second, drift); Shape(t) && AllFine(t)
  {
    var t := Begin(s, task, second, drift);
    var p := s.selected[task];
    BeginIsEntry(s, task, second, drift);
    BeginShape(s, task, second, drift);
    ClaimedIs(s, task);
    ReplayOneMore(Fresh(s.runs[p].key), s.tallies[p].changes, Claim);
    assert RunFine(s.runs[p], s.tallies[p], false, multiset(s.ledger)[p]);
    LocalKeepsFine(s, t, task);
  }

  lemma SettleShape(s: State, task: nat, how: Settled)
    requires Shape(s) && task in s.live
    ensures Shape(Settle(s, task, how))
  {
  }

  /** A bare settling, with no change to the run, is right only when no attempt is under way. */
  lemma BreakKeepsFine(s: State, task: nat)
    requires Shape(s) && AllFine(s) && task in s.live && s.live[task].Broken?
    ensures var t := Settle(s, task, Error); Shape(t) && AllFine(t)
  {
    var t := Settle(s, task, Error);
    SettleShape(s, task, Error);
    ClaimedIs(s, task);
    LocalKeepsFine(s, t, task);
  }

  lemma EndShape(s: State, task: nat, outcome: Outcome)
    requires Shape(s) && task in s.live && s.live[task].Attempt?
    ensures Shape(End(s, task, outcome)) && Local(s, End(s, task, outcome), task)
  {
    hide End, Keyed;
    var p := s.selected[task];
    var tally := s.tallies[p];
    EndIsEntry(s, task, outcome);
    match outcome
    case Graded => CloseShape(s, task, Complete(false), [p], tally.(wins := tally.wins + 1), Won);
    case QuotaHit => CloseShape(s, task, Release, [], tally.(quotas := tally.quotas + 1), Quota);
    case HarnessFailed =>
      if s.live[task].harness >= 2 { CloseShape(s, task, Complete(true), [p], tally.(failures := tally.failures + 1), Lost); }
  }

  lemma CloseShape(s: State, task: nat, change: Change, rows: seq<nat>, tally: Tally, how: Settled)
    requires Shape(s) && task in s.live && change != Claim && (rows == [] || rows == [s.selected[task]])
    ensures var t := CloseEntry(s, task, change, rows, tally, how); Shape(t) && Local(s, t, task)
  {
    KeyedUpdate(s.runs, s.selected[task], change);
  }

  /** What an attempt's end makes of its run's entry, tally and ledger rows; the harness failure that is retried changes no entry. */
  lemma EntryEnds(r: Run, t: Tally, change: Change, t': Tally, rows: nat)
    requires RunFine(r, t, true, rows) && r.status == Running && t'.changes == t.changes + [change]
    requires match change
      case Complete(false) => t' == t.(wins := t.wins + 1, changes := t'.changes)
      case Complete(true) => t' == t.(failures := t.failures + 1, changes := t'.changes) && r.attempts - r.quotaAborts >= 2
      case Release => t' == t.(quotas := t.quotas + 1, changes := t'.changes)
      case Claim => false
    ensures RunFine(Changed(r, change).value, t', false, rows + if change.Complete? then 1 else 0)
  {
    ReplayOneMore(Fresh(r.key), t.changes, change);
  }

  lemma RetryIsFine(r: Run, t: Tally, rows: nat)
    requires RunFine(r, t, true, rows) && r.status == Running && r.attempts - r.quotaAborts < 2
    ensures RunFine(r, t.(failures := t.failures + 1), false, rows)
    ensures t.failures == 0 && r.attempts - r.quotaAborts == 1
  {
  }

  lemma EndIsFine(s: State, task: nat, outcome: Outcome)
    requires Shape(s) && AllFine(s) && task in s.live && s.live[task].Attempt?
    ensures var t := End(s, task, outcome);
      var p := s.selected[task];
      && p < |t.runs| == |t.tallies|
      && RunFine(t.runs[p], t.tallies[p], task in t.live && t.live[task].Attempt?, multiset(t.ledger)[p])
      && (task in t.live ==> LiveFine(t.live[task], p, t.runs[p], t.tallies[p]))
  {
    hide Local, End, Keyed, RunFine, Claimed;
    var p := s.selected[task];
    EndIsEntry(s, task, outcome);
    ClaimedIs(s, task);
    var r, tally, rows := s.runs[p], s.tallies[p], multiset(s.ledger)[p];
    assert RunFine(r, tally, true, rows);
    assert LiveFine(s.live[task], p, r, tally);
    match outcome
    case Graded => EntryEnds(r, tally, Complete(false), tally.(wins := tally.wins + 1, changes := tally.changes + [Complete(false)]), rows);
    case QuotaHit => EntryEnds(r, tally, Release, tally.(quotas := tally.quotas + 1, changes := tally.changes + [Release]), rows);
    case HarnessFailed =>
      if s.live[task].harness >= 2 {
        EntryEnds(r, tally, Complete(true), tally.(failures := tally.failures + 1, changes := tally.changes + [Complete(true)]), rows);
      } else {
        RetryIsFine(r, tally, rows);
      }
  }

  lemma EndKeepsFine(s: State, task: nat, outcome: Outcome)
    requires Shape(s) && AllFine(s) && task in s.live && s.live[task].Attempt?
    ensures var t := End(s, task, outcome); Shape(t) && AllFine(t)
  {
    hide End, AllFine, RunFine, LiveFine;
    EndShape(s, task, outcome);
    EndIsFine(s, task, outcome);
    LocalKeepsFine(s, End(s, task, outcome), task);
  }

  lemma RestartKeepsFine(s: State, f: Filter, parallelSolo: int)
    requires Shape(s) && AllFine(s)
    ensures var t := Begun(s, f, parallelSolo); Shape(t) && AllFine(t)
  {
    var t := Begun(s, f, parallelSolo);
    SliceInOrder(s.runs, f.(includeFailed := false));
    forall p | 0 <= p < |t.runs|
      ensures RunFine(t.runs[p], t.tallies[p], Claimed(t, p), multiset(t.ledger)[p])
    {
      assert RunFine(s.runs[p], s.tallies[p], Claimed(s, p), multiset(s.ledger)[p]);
    }
  }

  /** The loop only starts runs that it has not started: the tasks it knows are below `next`. */
  ghost predicate Unstarted(s: State) {
    forall task | task in s.live :: task < s.next
  }

  ghost predicate Fine(s: State) {
    Shape(s) && AllFine(s) && Unstarted(s)
  }

  lemma SameData(s: State, t: State)
    requires Fine(s) && t.runs == s.runs && t.ledger == s.ledger && t.tallies == s.tallies && t.selected == s.selected
    requires t.live == s.live && t.next >= s.next
    ensures Fine(t)
  {
    forall p | 0 <= p < |t.runs|
      ensures RunFine(t.runs[p], t.tallies[p], Claimed(t, p), multiset(t.ledger)[p])
    {
      assert Claimed(t, p) == Claimed(s, p);
    }
  }

  lemma StartKeepsFine(s: State, pair: bool, drift: bool)
    requires Fine(s) && s.next < |s.selected|
    ensures Fine(Start(s, pair, drift))
  {
    hide AllFine, Changed;
    var t := Taken(s, pair);
    SameData(s, t);
    BeginKeepsFine(t, s.next, false, drift);
    BeginAddsTask(t, s.next, false, drift);
  }

  lemma BeginAddsTask(s: State, task: nat, second: bool, drift: bool)
    requires Shape(s) && task < |s.selected|
    ensures var t := Begin(s, task, second, drift); t.live.Keys == s.live.Keys + {task} && t.next == s.next
  {
    BeginIsEntry(s, task, second, drift);
  }

  lemma TurnKeepsFine(s: State, drift: bool)
    requires Fine(s) && Enabled(s, Loop(drift))
    ensures Fine(Turn(s, drift))
  {
    if s.next < |s.selected| && !s.quota && !IsPair(s, s.next) && |s.pool| < s.limit {
      StartKeepsFine(s, false, drift);
    } else {
      SameData(s, Turn(s, drift));
    }
  }

  lemma AwaitKeepsFine(s: State, e: Event)
    requires Fine(s) && Enabled(s, e) && (e.Raced? || e.Drained? || e.DrainThrew? || e.Ended? || e.EndThrew?)
    ensures Fine(Next(s, e))
  {
    if e.Raced? && e.first !in s.rejected && !s.quota {
      StartKeepsFine(s, false, e.drift);
    } else if e.Drained? && !s.quota {
      StartKeepsFine(s, true, e.drift);
    } else {
      SameData(s, Next(s, e));
    }
  }

  lemma TaskStaysStarted(s: State, t: State, task: nat)
    requires Shape(s) && Shape(t) && Unstarted(s) && task in s.live && Local(s, t, task) && t.next == s.next
    ensures Unstarted(t)
  {
    forall k | k in t.live
      ensures k < t.next
    {
      if k != task {
        SameElsewhere(s, t, task, k);
      }
    }
  }

  lemma EndKeepsNext(s: State, task: nat, outcome: Outcome)
    requires Shape(s) && task in s.live && s.live[task].Attempt?
    ensures End(s, task, outcome).next == s.next
  {
    EndIsEntry(s, task, outcome);
  }

  lemma EndStaysFine(s: State, task: nat, outcome: Outcome)
    requires Fine(s) && task in s.live && s.live[task].Attempt?
    ensures Fine(End(s, task, outcome))
  {
    hide End, AllFine, Local;
    EndKeepsNext(s, task, outcome);
    EndKeepsFine(s, task, outcome);
    EndShape(s, task, outcome);
    TaskStaysStarted(s, End(s, task, outcome), task);
  }

  lemma BreakStaysFine(s: State, task: nat)
    requires Fine(s) && task in s.live && s.live[task].Broken?
    ensures Fine(Settle(s, task, Error))
  {
    BreakKeepsFine(s, task);
    TaskStaysStarted(s, Settle(s, task, Error), task);
  }

  lemma RetryStaysFine(s: State, task: nat, drift: bool)
    requires Fine(s) && task in s.live && s.live[task].Retrying?
    ensures Fine(Begin(s, task, true, drift))
  {
    BeginKeepsFine(s, task, true, drift);
    BeginShape(s, task, true, drift);
    TaskStaysStarted(s, Begin(s, task, true, drift), task);
  }

  lemma NextKeepsFine(s: State, e: Event)
    requires Fine(s) && Enabled(s, e)
    ensures Fine(Next(s, e))
  {
    match e
    case Restart(f, n) => RestartKeepsFine(s, f, n);
    case Loop(drift) => TurnKeepsFine(s, drift);
    case AttemptEnds(task, outcome) => EndStaysFine(s, task, outcome);
    case Breaks(task) => BreakStaysFine(s, task);
    case Retries(task, drift) => RetryStaysFine(s, task, drift);
    case _ => AwaitKeepsFine(s, e);
  }

  lemma {:induction false} ReachedIsFine(s: State, events: seq<Event>, t: State)
    requires Initial(s) && Reaches(s, events, t)
    ensures Fine(t)
    decreases events
  {
    if events == [] {
      forall p | 0 <= p < |s.runs|
        ensures RunFine(s.runs[p], s.tallies[p], Claimed(s, p), multiset(s.ledger)[p])
      {
        assert s.runs[p] == Fresh(s.runs[p].key) && s.tallies[p] == NEVER;
      }
    } else {
      var n := |events| - 1;
      var mid :| Reaches(s, events[..n], mid) && Enabled(mid, events[n]) && t == Next(mid, events[n]);
      ReachedIsFine(s, events[..n], mid);
      NextKeepsFine(mid, events[n]);
    }
  }

  // ------------------------------------------------------------ the accounting

  /**
   * In every history: attempts are numbered 1, 2, 3, ..., each once; those that neither a quota abort nor a crash used
   * up are at most two; a run fails only after a second failure, a crashed attempt standing in for the first; and each
   * finished run has exactly one ledger row. A run that is not pending has the directory of its latest attempt.
   */
  lemma RetryAccounting(s: State, events: seq<Event>, t: State, p: nat)
    requires Initial(s) && Reaches(s, events, t) && p < |t.runs|
    ensures |t.tallies| == |t.runs|
    ensures var run, tally := t.runs[p], t.tallies[p];
      && |tally.claims| == run.attempts && (forall i | 0 <= i < run.attempts :: tally.claims[i] == i + 1)
      && 0 <= run.attempts - run.quotaAborts <= 2 + tally.crashes
      && (run.status == Failed && tally.crashes == 0 ==> tally.failures == 2)
      && (run.status == Failed ==> tally.failures >= 1)
      && multiset(t.ledger)[p] == (if run.status == Done || run.status == Failed then 1 else 0)
      && run.runDir == if run.status == Pending then None else Some(run.attempts)
  {
    ReachedIsFine(s, events, t);
    assert RunFine(t.runs[p], t.tallies[p], Claimed(t, p), multiset(t.ledger)[p]);
  }

  /**
   * No manifest update is ever lost, although every save rewrites the whole file: each entry is what its run's own
   * updates make of a fresh one, and agrees with all that has happened to the run. An attempt's copy of the manifest
   * is right about its own entry.
   */
  lemma NoUpdateIsLost(s: State, events: seq<Event>, t: State, p: nat)
    requires Initial(s) && Reaches(s, events, t) && p < |t.runs|
    ensures |t.tallies| == |t.runs|
    ensures t.runs[p] == Replay(Fresh(t.runs[p].key), t.tallies[p].changes)
    ensures var run, tally := t.runs[p], t.tallies[p];
      && run.attempts == |tally.claims| && run.quotaAborts == tally.quotas
      && run.attempts == tally.quotas + tally.failures + tally.wins + tally.crashes + (if Claimed(t, p) then 1 else 0)
      && (run.status == Done <==> tally.wins > 0)
    ensures forall task | task in t.live && t.live[task].Attempt? && task < |t.selected| && t.selected[task] == p ::
        p < |t.live[task].copy| && t.live[task].copy[p] == t.runs[p]
  {
    ReachedIsFine(s, events, t);
    assert RunFine(t.runs[p], t.tallies[p], Claimed(t, p), multiset(t.ledger)[p]);
    forall task | task in t.live && t.live[task].Attempt? && task < |t.selected| && t.selected[task] == p
      ensures p < |t.live[task].copy| && t.live[task].copy[p] == t.runs[p]
    {
      assert LiveFine(t.live[task], p, t.runs[p], t.tallies[p]);
    }
  }

  /** Only entry p and its tally may differ, and the entry only by the one update that its tally notes. */
  ghost predicate OneEntry(s: State, t: State, p: nat) {
    && |t.runs| == |s.runs| == |t.tallies| == |s.tallies|
    && (forall q | 0 <= q < |s.runs| && q != p :: t.runs[q] == s.runs[q] && t.tallies[q] == s.tallies[q])
    && (p < |s.runs| ==>
          if t.tallies[p].changes == s.tallies[p].changes then t.runs[p] == s.runs[p]
          else
            var n := |s.tallies[p].changes|;
            && |t.tallies[p].changes| == n + 1 && t.tallies[p].changes[..n] == s.tallies[p].changes
            && Changed(s.runs[p], t.tallies[p].changes[n]) == Ok(t.runs[p]))
  }

  lemma BeginOneEntry(s: State, task: nat, second: bool, drift: bool)
    requires Shape(s) && task < |s.selected|
    ensures OneEntry(s, Begin(s, task, second, drift), s.selected[task])
  {
    BeginIsEntry(s, task, second, drift);
  }

  lemma EndOneEntry(s: State, task: nat, outcome: Outcome)
    requires Shape(s) && task in s.live && s.live[task].Attempt?
    ensures OneEntry(s, End(s, task, outcome), s.selected[task])
  {
    hide Shape;
    assert task < |s.selected| && s.selected[task] < |s.runs| == |s.tallies| by { AShape(s, task); }
    EndIsEntry(s, task, outcome);
  }

  lemma AShape(s: State, task: nat)
    requires Shape(s) && task in s.live
    ensures task < |s.selected| && s.selected[task] < |s.runs| == |s.tallies|
  {
  }

  /** Each event makes at most one update of the manifest, and every other entry is saved as it stands. */
  lemma OneUpdateEach(s: State, e: Event) returns (p: nat)
    requires Fine(s) && Enabled(s, e) && !e.Restart?
    ensures OneEntry(s, Next(s, e), p)
  {
    hide OneEntry, AllFine, Begin, End, Start, Turn;
    p := 0;
    match e
    case AttemptEnds(task, outcome) =>
      p := s.selected[task];
      EndOneEntry(s, task, outcome);
    case Retries(task, drift) =>
      p := s.selected[task];
      BeginOneEntry(s, task, true, drift);
    case Loop(drift) =>
      p := TurnOneEntry(s, drift);
    case Raced(first, drift) =>
      if first in s.rejected || s.quota {
        NoEntry(s, Next(s, e));
      } else {
        p := s.selected[s.next];
        StartOneEntry(s, false, drift);
      }
    case Drained(drift) =>
      if s.quota {
        NoEntry(s, Next(s, e));
      } else {
        p := s.selected[s.next];
        StartOneEntry(s, true, drift);
      }
    case Restart(_, _) =>
    case _ =>
      NoEntry(s, Next(s, e));
  }

  lemma NoEntry(s: State, t: State)
    requires Shape(s) && t.runs == s.runs && t.tallies == s.tallies
    ensures OneEntry(s, t, 0)
  {
  }

  lemma StartOneEntry(s: State, pair: bool, drift: bool)
    requires Shape(s) && s.next < |s.selected|
    ensures OneEntry(s, Start(s, pair, drift), s.selected[s.next])
  {
    BeginOneEntry(Taken(s, pair), s.next, false, drift);
  }

  lemma TurnOneEntry(s: State, drift: bool) returns (p: nat)
    requires Fine(s) && Enabled(s, Loop(drift))
    ensures OneEntry(s, Turn(s, drift), p)
  {
    hide OneEntry, AllFine, Start;
    p := 0;
    if s.next < |s.selected| && !s.quota && !IsPair(s, s.next) && |s.pool| < s.limit {
      StartOneEntry(s, false, drift);
      assert Turn(s, drift) == Start(s, false, drift);
      p := s.selected[s.next];
    } else {
      NoEntry(s, Turn(s, drift));
    }
  }

  predicate IsOver(r: Run) {
    r.status == Done || r.status == Failed
  }

  /** Done and failed runs are never touched again, nor does their ledger row count change. */
  lemma OverStaysOver(s: State, e: Event, p: nat)
    requires Fine(s) && Enabled(s, e) && p < |s.runs| && IsOver(s.runs[p])
    ensures var t := Next(s, e); p < |t.runs| && t.runs[p] == s.runs[p] && multiset(t.ledger)[p] == multiset(s.ledger)[p]
  {
    match e
    case AttemptEnds(task, outcome) =>
      assert RunFine(s.runs[p], s.tallies[p], Claimed(s, p), multiset(s.ledger)[p]);
      ClaimedIs(s, task);
      EndShape(s, task, outcome);
    case Retries(task, drift) =>
      OverIsNotClaimed(s, task, true, drift, p);
    case Loop(drift) =>
      TurnLeavesOver(s, drift, p);
    case Raced(first, drift) =>
      if first !in s.rejected && !s.quota {
        OverIsNotClaimed(Taken(s, false), s.next, false, drift, p);
      }
    case Drained(drift) =>
      if !s.quota {
        OverIsNotClaimed(Taken(s, true), s.next, false, drift, p);
      }
    case _ =>
  }

  lemma OverIsNotClaimed(s: State, task: nat, second: bool, drift: bool, p: nat)
    requires Shape(s) && task < |s.selected| && p < |s.runs| && IsOver(s.runs[p])
    ensures var t := Begin(s, task, second, drift); p < |t.runs| && t.runs[p] == s.runs[p] && t.ledger == s.ledger
  {
    BeginIsEntry(s, task, second, drift);
  }

  lemma TurnLeavesOver(s: State, drift: bool, p: nat)
    requires Fine(s) && Enabled(s, Loop(drift)) && p < |s.runs| && IsOver(s.runs[p])
    ensures var t := Turn(s, drift); p < |t.runs| && t.runs[p] == s.runs[p] && t.ledger == s.ledger
  {
    if s.next < |s.selected| && !s.quota && !IsPair(s, s.next) && |s.pool| < s.limit {
      OverIsNotClaimed(Taken(s, false), s.next, false, drift, p);
    }
  }

  /** The retry of runWithRetry is enough: its second attempt never asks for a third. */
  lemma SecondAttemptIsLast(s: State, events: seq<Event>, t: State, task: nat)
    requires Initial(s) && Reaches(s, events, t)
    requires task in t.live && t.live[task].Attempt? && t.live[task].second
    ensures t.live[task].harness >= 2
  {
    ReachedIsFine(s, events, t);
    var p := t.selected[task];
    assert LiveFine(t.live[task], p, t.runs[p], t.tallies[p]);
    assert RunFine(t.runs[p], t.tallies[p], Claimed(t, p), multiset(t.ledger)[p]);
    ClaimedIs(t, task);
  }
}
