/** The campaign manifest of the evaluation runner (eval/runner/manifest.ts). */
module EvalManifest {
  import opened Wrappers

  datatype Arm = A | B | C

  datatype Status = Pending | Running | Done | Failed

  datatype Key = Key(task: string, arm: Arm, trial: nat)

  /** The run directory is named after the attempt. */
  datatype Run = Run(key: Key, status: Status, attempts: nat, quotaAborts: nat, runDir: Option<nat>)

  datatype Error = NoRun | AlreadyOver

  datatype Change = Claim | Release | Complete(failed: bool)

  function Changed(r: Run, change: Change): Reply<Run, Error> {
    match change
    case Claim =>
      if r.status == Done || r.status == Failed then Throw(AlreadyOver)
      else Ok(r.(status := Running, attempts := r.attempts + 1, runDir := Some(r.attempts + 1)))
    case Release => Ok(r.(status := Pending, quotaAborts := r.quotaAborts + 1, runDir := None))
    case Complete(failed) => Ok(r.(status := if failed then Failed else Done))
  }

  ghost predicate Keyed(runs: seq<Run>) {
    forall i, j | 0 <= i < j < |runs| :: runs[i].key != runs[j].key
  }

  ghost predicate Listed(runs: seq<Run>, key: Key) {
    exists i :: 0 <= i < |runs| && runs[i].key == key
  }

  /** The first run with the key. */
  function Find(runs: seq<Run>, key: Key): (p: Option<nat>)
    ensures p.Some? ==> p.value < |runs| && runs[p.value].key == key
    ensures p.None? ==> forall i | 0 <= i < |runs| :: runs[i].key != key
    ensures p.Some? ==> forall i | 0 <= i < p.value :: runs[i].key != key
  {
    if runs == [] then None
    else
      var n := |runs| - 1;
      match Find(runs[..n], key)
      case Some(p) => Some(p)
      case None => if runs[n].key == key then Some(n) else None
  }

  /** Every run with the key is changed; the first that refuses stops it. */
  function Mapped(runs: seq<Run>, key: Key, change: Change): Reply<seq<Run>, Error> {
    if runs == [] then Ok([])
    else
      var n := |runs| - 1;
      match Mapped(runs[..n], key, change)
      case Throw(e) => Throw(e)
      case Ok(out) =>
        if runs[n].key != key then Ok(out + [runs[n]])
        else
          match Changed(runs[n], change)
          case Throw(e) => Throw(e)
          case Ok(r) => Ok(out + [r])
  }

  function Updated(runs: seq<Run>, key: Key, change: Change): Reply<seq<Run>, Error> {
    match Mapped(runs, key, change)
    case Throw(e) => Throw(e)
    case Ok(out) => if Find(runs, key).None? then Throw(NoRun) else Ok(out)
  }

  lemma {:induction false} MappedThrows(runs: seq<Run>, i: nat, key: Key, change: Change)
    requires i <= |runs| && Mapped(runs[..i], key, change).Throw?
    ensures Mapped(runs, key, change) == Mapped(runs[..i], key, change)
    decreases |runs|
  {
    if i == |runs| {
      assert runs[..i] == runs;
    } else {
      var n := |runs| - 1;
      assert runs[..n][..i] == runs[..i];
      MappedThrows(runs[..n], i, key, change);
    }
  }

  /** updateRun. */
  method UpdateRun(runs: seq<Run>, key: Key, change: Change) returns (r: Reply<seq<Run>, Error>)
    ensures r == Updated(runs, key, change)
  {
    var found := false;
    var out: seq<Run> := [];
    for i := 0 to |runs|
      invariant found <==> exists k :: 0 <= k < i && runs[k].key == key
      invariant Mapped(runs[..i], key, change) == Ok(out)
    {
      assert runs[..i + 1][..i] == runs[..i];
      if runs[i].key != key {
        out := out + [runs[i]];
      } else {
        found := true;
        match Changed(runs[i], change)
        case Throw(e) =>
          MappedThrows(runs, i + 1, key, change);
          return Throw(e);
        case Ok(run) =>
          out := out + [run];
      }
    }
    assert runs[..|runs|] == runs;
    if !found {
      return Throw(NoRun);
    }
    r := Ok(out);
  }

  ghost predicate EntryUpdated(run: Run, out: Run, key: Key, change: Change) {
    if run.key == key then Changed(run, change) == Ok(out) else out == run
  }

  lemma {:induction false} MappedIs(runs: seq<Run>, key: Key, change: Change)
    ensures Mapped(runs, key, change).Ok? <==> forall i | 0 <= i < |runs| && runs[i].key == key :: Changed(runs[i], change).Ok?
    ensures match Mapped(runs, key, change)
      case Throw(e) => e == AlreadyOver
      case Ok(out) => |out| == |runs| && forall i | 0 <= i < |runs| :: EntryUpdated(runs[i], out[i], key, change)
  {
    if runs == [] {
    } else {
      var n := |runs| - 1;
      MappedIs(runs[..n], key, change);
      if Mapped(runs, key, change).Ok? {
        assert forall i | 0 <= i < n :: runs[..n][i] == runs[i];
      } else if i :| 0 <= i < n && runs[..n][i].key == key && Changed(runs[..n][i], change).Throw? {
        assert Changed(runs[i], change).Throw?;
      }
    }
  }

  /**
   * What an update does, for any list of runs: it fails without the key, or when a run with the key is over and cannot
   * be claimed; otherwise it changes every run with the key and keeps every other as it was.
   */
  lemma UpdatedIs(runs: seq<Run>, key: Key, change: Change)
    ensures match Updated(runs, key, change)
      case Throw(NoRun) => !Listed(runs, key)
      case Throw(AlreadyOver) =>
        && change == Claim
        && exists i :: 0 <= i < |runs| && runs[i].key == key && (runs[i].status == Done || runs[i].status == Failed)
      case Ok(out) => Listed(runs, key) && |out| == |runs| && forall i | 0 <= i < |runs| :: EntryUpdated(runs[i], out[i], key, change)
  {
    MappedIs(runs, key, change);
    match Updated(runs, key, change)
    case Throw(AlreadyOver) =>
      var i :| 0 <= i < |runs| && runs[i].key == key && Changed(runs[i], change).Throw?;
    case _ =>
  }

  /** Where no key is listed twice, an update of a listed run changes that one entry of the list. */
  lemma KeyedUpdate(runs: seq<Run>, p: nat, change: Change)
    requires Keyed(runs) && p < |runs|
    ensures Find(runs, runs[p].key) == Some(p)
    ensures Updated(runs, runs[p].key, change)
         == match Changed(runs[p], change) { case Throw(e) => Throw(e) case Ok(r) => Ok(runs[p := r]) }
    ensures Changed(runs[p], change).Ok? ==> Keyed(runs[p := Changed(runs[p], change).value])
  {
    UpdatedIs(runs, runs[p].key, change);
    MappedIs(runs, runs[p].key, change);
    match Updated(runs, runs[p].key, change)
    case Ok(out) =>
      assert EntryUpdated(runs[p], out[p], runs[p].key, change);
      assert out == runs[p := Changed(runs[p], change).value];
    case Throw(_) =>
  }

  // ------------------------------------------------------------ building it

  function Trials(task: string, arm: Arm, trials: nat): seq<Key> {
    if trials == 0 then [] else Trials(task, arm, trials - 1) + [Key(task, arm, trials)]
  }

  function Schedule(tasks: seq<string>, trials: nat): seq<Key> {
    if tasks == [] then []
    else
      var t := tasks[|tasks| - 1];
      Schedule(tasks[..|tasks| - 1], trials) + Trials(t, A, trials) + Trials(t, B, trials) + Trials(t, C, trials)
  }

  function Fresh(key: Key): Run {
    Run(key, Pending, 0, 0, None)
  }

  function FreshAll(keys: seq<Key>): (runs: seq<Run>)
    ensures |runs| == |keys| && forall i | 0 <= i < |runs| :: runs[i] == Fresh(keys[i])
  {
    seq(|keys|, i requires 0 <= i < |keys| => Fresh(keys[i]))
  }

  method AddTrials(runs: seq<Run>, task: string, arm: Arm, trials: nat) returns (out: seq<Run>)
    ensures out == runs + FreshAll(Trials(task, arm, trials))
  {
    out := runs;
    for trial := 0 to trials
      invariant out == runs + FreshAll(Trials(task, arm, trial))
    {
      out := out + [Fresh(Key(task, arm, trial + 1))];
    }
  }

  /** buildManifest without its shuffle: every task in every arm, `trials` times. */
  method BuildRuns(tasks: seq<string>, trials: nat) returns (runs: seq<Run>)
    ensures runs == FreshAll(Schedule(tasks, trials))
  {
    runs := [];
    for t := 0 to |tasks|
      invariant runs == FreshAll(Schedule(tasks[..t], trials))
    {
      ghost var before := runs;
      assert tasks[..t + 1][..t] == tasks[..t];
      runs := AddTrials(runs, tasks[t], A, trials);
      runs := AddTrials(runs, tasks[t], B, trials);
      runs := AddTrials(runs, tasks[t], C, trials);
    }
    assert tasks[..|tasks|] == tasks;
  }

  lemma {:induction false} TrialsAre(task: string, arm: Arm, trials: nat, key: Key)
    ensures multiset(Trials(task, arm, trials))[key] == if key.task == task && key.arm == arm && 1 <= key.trial <= trials then 1 else 0
  {
    if trials <= 0 {
    } else {
      TrialsAre(task, arm, trials - 1, key);
    }
  }

  function CountTasks(tasks: seq<string>, task: string): nat {
    multiset(tasks)[task]
  }

  /** Each task runs in each arm once for each trial number, as often as the task is listed. */
  lemma {:induction false} ScheduleIs(tasks: seq<string>, trials: nat, key: Key)
    ensures multiset(Schedule(tasks, trials))[key] == if 1 <= key.trial <= trials then CountTasks(tasks, key.task) else 0
  {
    hide Trials;
    if tasks == [] {
    } else {
      var before, t := tasks[..|tasks| - 1], tasks[|tasks| - 1];
      assert tasks == before + [t];
      ScheduleIs(before, trials, key);
      TrialsAre(t, A, trials, key);
      TrialsAre(t, B, trials, key);
      TrialsAre(t, C, trials, key);
    }
  }

  /** However the shuffle orders the runs, distinct task slugs give distinct keys. */
  lemma ShuffledIsKeyed(tasks: seq<string>, trials: nat, runs: seq<Run>)
    requires forall task :: CountTasks(tasks, task) <= 1
    requires multiset(KeysOf(runs)) == multiset(Schedule(tasks, trials))
    ensures Keyed(runs)
  {
    var keys := KeysOf(runs);
    forall i, j | 0 <= i < j < |runs|
      ensures runs[i].key != runs[j].key
    {
      ScheduleIs(tasks, trials, keys[i]);
      if keys[i] == keys[j] {
        TwiceIsTwo(keys, i, j);
      }
    }
  }

  lemma TwiceIsTwo(keys: seq<Key>, i: nat, j: nat)
    requires i < j < |keys| && keys[i] == keys[j]
    ensures multiset(keys)[keys[i]] >= 2
  {
    var front := keys[..j];
    assert front[i] in front;
    assert keys == front + [keys[j]] + keys[j + 1..];
  }

  function KeysOf(runs: seq<Run>): (keys: seq<Key>)
    ensures |keys| == |runs| && forall i | 0 <= i < |runs| :: keys[i] == runs[i].key
  {
    seq(|runs|, i requires 0 <= i < |runs| => runs[i].key)
  }

  // ------------------------------------------------------------ selecting a slice

  datatype Filter = Filter(arms: Option<set<Arm>>, tasks: Option<set<string>>, limit: Option<int>, includeFailed: bool)

  predicate Selectable(r: Run, f: Filter) {
    && (r.status == Pending || r.status == Running || (f.includeFailed && r.status == Failed))
    && (f.arms.Some? ==> r.key.arm in f.arms.value)
    && (f.tasks.Some? ==> r.key.task in f.tasks.value)
  }

  /** The positions of the selectable runs, in manifest order. */
  function AllSelectable(runs: seq<Run>, f: Filter): seq<nat> {
    if runs == [] then []
    else
      var n := |runs| - 1;
      AllSelectable(runs[..n], f) + if Selectable(runs[n], f) then [n] else []
  }

  /** The limit is looked at after a run is taken, so that any limit below 1 still lets one run through. */
  function Limited(all: seq<nat>, limit: Option<int>): seq<nat> {
    if limit.None? || |all| <= limit.value then all
    else if limit.value < 1 && all != [] then all[..1]
    else if all == [] then all
    else all[..limit.value]
  }

  function Slice(runs: seq<Run>, f: Filter): seq<nat> {
    Limited(AllSelectable(runs, f), f.limit)
  }

  lemma {:induction false} SelectablePrefix(runs: seq<Run>, f: Filter, i: nat)
    requires i <= |runs|
    ensures AllSelectable(runs[..i], f) <= AllSelectable(runs, f)
    decreases |runs| - i
  {
    if i == |runs| {
      assert runs[..i] == runs;
    } else {
      assert runs[..i + 1][..i] == runs[..i];
      SelectablePrefix(runs, f, i + 1);
    }
  }

  /** selectSlice. */
  method SelectSlice(runs: seq<Run>, f: Filter) returns (out: seq<nat>)
    ensures out == Slice(runs, f)
  {
    out := [];
    for i := 0 to |runs|
      invariant out == AllSelectable(runs[..i], f)
      invariant f.limit.Some? ==> out == [] || |out| < f.limit.value
    {
      assert runs[..i + 1][..i] == runs[..i];
      if !Selectable(runs[i], f) {
        continue;
      }
      out := out + [i];
      SelectablePrefix(runs, f, i + 1);
      if f.limit.Some? && |out| >= f.limit.value {
        return;
      }
    }
    assert runs[..|runs|] == runs;
  }

  lemma {:induction false} SelectableAt(runs: seq<Run>, f: Filter, k: nat)
    requires k < |AllSelectable(runs, f)|
    ensures AllSelectable(runs, f)[k] < |runs| && Selectable(runs[AllSelectable(runs, f)[k]], f)
  {
    var n := |runs| - 1;
    if k >= |AllSelectable(runs[..n], f)| {
    } else {
      SelectableAt(runs[..n], f, k);
    }
  }

  lemma {:induction false} SelectableAscends(runs: seq<Run>, f: Filter, k: nat, l: nat)
    requires k < l < |AllSelectable(runs, f)|
    ensures AllSelectable(runs, f)[k] < AllSelectable(runs, f)[l]
  {
    var n := |runs| - 1;
    if l < |AllSelectable(runs[..n], f)| {
      SelectableAscends(runs[..n], f, k, l);
    } else {
      SelectableAt(runs[..n], f, k);
    }
  }

  lemma {:induction false} SelectableIsListed(runs: seq<Run>, f: Filter, i: nat)
    requires i < |runs| && Selectable(runs[i], f)
    ensures i in AllSelectable(runs, f)
  {
    if i >= |runs| - 1 {
    } else {
      SelectableIsListed(runs[..|runs| - 1], f, i);
    }
  }

  /**
   * A slice lists selectable runs of the manifest, each once, in manifest order: all of them without a limit, and the
   * first of them, up to the limit, with one. The command line admits limits from 1 on.
   */
  lemma SliceInOrder(runs: seq<Run>, f: Filter)
    ensures var s := Slice(runs, f);
      && (forall k | 0 <= k < |s| :: s[k] < |runs| && Selectable(runs[s[k]], f))
      && (forall k, l | 0 <= k < l < |s| :: s[k] < s[l])
      && (forall i: nat | i < |runs| && Selectable(runs[i], f) ::
            i in s || (f.limit.Some? && |s| >= f.limit.value && forall k | 0 <= k < |s| :: s[k] < i))
      && (f.limit.Some? && f.limit.value >= 1 ==>
            |s| == if |AllSelectable(runs, f)| < f.limit.value then |AllSelectable(runs, f)| else f.limit.value)
  {
    var all, s := AllSelectable(runs, f), Slice(runs, f);
    assert s <= all;
    forall k | 0 <= k < |s|
      ensures s[k] < |runs| && Selectable(runs[s[k]], f)
    {
      SelectableAt(runs, f, k);
    }
    forall k, l | 0 <= k < l < |s|
      ensures s[k] < s[l]
    {
      SelectableAscends(runs, f, k, l);
    }
    forall i: nat | i < |runs| && Selectable(runs[i], f)
      ensures i in s || (f.limit.Some? && |s| >= f.limit.value && forall k | 0 <= k < |s| :: s[k] < i)
    {
      SelectableIsListed(runs, f, i);
      var l :| 0 <= l < |all| && all[l] == i;
      if l < |s| {
        assert s[l] == i;
      } else {
        forall k | 0 <= k < |s| ensures s[k] < i { SelectableAscends(runs, f, k, l); }
      }
    }
  }

  /** What a slice asks of a run: not done, failed only on request, and in the arms and tasks named, if any are. */
  lemma SliceAsks(runs: seq<Run>, f: Filter, i: nat)
    requires f.limit.None?
    ensures i in Slice(runs, f) <==>
      && i < |runs| && runs[i].status != Done
      && (runs[i].status == Failed ==> f.includeFailed)
      && (f.arms == None || (f.arms.Some? && runs[i].key.arm in f.arms.value))
      && (f.tasks == None || (f.tasks.Some? && runs[i].key.task in f.tasks.value))
  {
    SliceInOrder(runs, f);
  }
}
