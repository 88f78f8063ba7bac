/** The bounded retry queue around write transactions (open-database.ts). */
module WriteQueue {
  import opened Wrappers

  const FIRST_BACKOFF := 10
  const MAX_BACKOFF := 250

  /** How one attempt at a transaction ends, and how long it blocks. Only a success leaves anything in the database. */
  datatype Try =
    | Committed(value: string, ms: int)
    | Locked(ms: int)    // SQLITE_BUSY or SQLITE_BUSY_SNAPSHOT
    | Failed(ms: int)    // any other error

  datatype Failure = LockError | OtherError

  /** The environment: what the n-th attempt does when SQLite may block for at most `cap` milliseconds. */
  type Env = (nat, int) -> Try

  /** Attempts take time, and one that fails on a lock blocks no longer than its cap. */
  ghost predicate EnvOk(env: Env) {
    forall n: nat, cap: int :: env(n, cap).ms >= 0 && (env(n, cap).Locked? && cap >= 1 ==> env(n, cap).ms <= cap)
  }

  function Min(a: int, b: int): int {
    if a < b then a else b
  }

  function Max(a: int, b: int): int {
    if a < b then b else a
  }

  function Cap(busy: int, deadline: int, now: int): int {
    Max(1, Min(busy, deadline - now))
  }

  function Sleep(backoff: int, deadline: int, now: int): int {
    Min(backoff, Max(1, deadline - now))
  }

  /** How the loop ends: its reply, the time, and the number of attempts made. */
  datatype End = End(reply: Reply<string, Failure>, time: int, attempts: nat)

  /** The loop from its n-th attempt on. */
  function Queue(env: Env, busy: int, deadline: int, now: int, backoff: int, n: nat): End
    requires EnvOk(env) && backoff >= 1
    decreases deadline - now
  {
    var tried := env(n, Cap(busy, deadline, now));
    match tried
    case Committed(value, ms) => End(Ok(value), now + ms, n + 1)
    case Failed(ms) => End(Throw(OtherError), now + ms, n + 1)
    case Locked(ms) =>
      if now + ms >= deadline then End(Throw(LockError), now + ms, n + 1)
      else Queue(env, busy, deadline, now + ms + Sleep(backoff, deadline, now + ms), Min(backoff * 2, MAX_BACKOFF), n + 1)
  }

  lemma QueueTurn(env: Env, busy: int, deadline: int, now: int, backoff: int, n: nat)
    requires EnvOk(env) && backoff >= 1
    ensures var tried := env(n, Cap(busy, deadline, now)); var over := now + tried.ms;
      Queue(env, busy, deadline, now, backoff, n)
      == if tried.Committed? then End(Ok(tried.value), over, n + 1)
         else if tried.Failed? then End(Throw(OtherError), over, n + 1)
         else if over >= deadline then End(Throw(LockError), over, n + 1)
         else Queue(env, busy, deadline, over + Sleep(backoff, deadline, over), Min(backoff * 2, MAX_BACKOFF), n + 1)
  {
  }

  // ------------------------------------------------------------ bodies that nest

  /** The body of a transaction function: it may call one further transaction function, and then does its own work. */
  datatype Body = Body(nested: Option<Body>, work: Env)

  /** What the body does in the n-th attempt of the outermost call: an error of the nested call ends it. */
  function AttemptOf(body: Body, n: nat, cap: int): Try {
    match body.nested
    case None => body.work(n, cap)
    case Some(inner) =>
      match AttemptOf(inner, n, cap)
      case Committed(_, ms) => Later(body.work(n, cap), ms)
      case Locked(ms) => Locked(ms)
      case Failed(ms) => Failed(ms)
  }

  function Later(tried: Try, ms: int): Try {
    tried.(ms := tried.ms + ms)
  }

  function EnvOf(body: Body): Env {
    (n: nat, cap: int) => AttemptOf(body, n, cap)
  }

  function ReplyOf(tried: Try): Reply<string, Failure> {
    match tried
    case Committed(value, _) => Ok(value)
    case Locked(_) => Throw(LockError)
    case Failed(_) => Throw(OtherError)
  }

  /** A connection as the queue sees it. */
  class Connection {
    var busyTimeoutMs: int    // the pragma
    var inTransaction: bool
    var now: int              // the clock
    var attempts: nat         // attempts made in the current outermost call
    var commits: nat

    constructor (configured: int, now: int)
      ensures busyTimeoutMs == configured && !inTransaction && this.now == now && attempts == 0 && commits == 0
    {
      busyTimeoutMs, inTransaction, this.now, attempts, commits := configured, false, now, 0, 0;
    }

    /** One run of a body inside an open transaction. */
    method RunBody(body: Body, configured: int, maxWriteWaitMs: int) returns (tried: Try)
      requires inTransaction
      modifies this
      ensures inTransaction && attempts == old(attempts) && busyTimeoutMs == old(busyTimeoutMs) && commits == old(commits)
      ensures tried == AttemptOf(body, attempts, busyTimeoutMs) && now == old(now) + tried.ms
      decreases body, 0
    {
      var start := now;
      if body.nested.Some? {
        var reply := Transaction(body.nested.value, configured, maxWriteWaitMs);
        match reply {
          case Throw(LockError) => return Locked(now - start);
          case Throw(OtherError) => return Failed(now - start);
          case Ok(_) =>
        }
      }
      var own := body.work(attempts, busyTimeoutMs);
      now := now + own.ms;
      tried := own.(ms := now - start);
    }

    /** runQueued: each attempt opens a transaction, which its end closes, committed or rolled back. */
    method RunQueued(body: Body, configured: int, maxWriteWaitMs: int) returns (reply: Reply<string, Failure>)
      requires !inTransaction && EnvOk(EnvOf(body))
      modifies this
      ensures !inTransaction && busyTimeoutMs == configured
      ensures var end := Queue(EnvOf(body), configured, old(now) + maxWriteWaitMs, old(now), FIRST_BACKOFF, 0);
        reply == end.reply && now == end.time && attempts == end.attempts
      ensures commits == old(commits) + if reply.Ok? then 1 else 0
      decreases body, 1
    {
      hide AttemptOf, Queue;
      var deadline := now + maxWriteWaitMs;
      var backoffMs := FIRST_BACKOFF;
      attempts := 0;
      ghost var start := now;
      while true
        invariant backoffMs >= 1 && !inTransaction && commits == old(commits)
        invariant Queue(EnvOf(body), configured, deadline, now, backoffMs, attempts)
               == Queue(EnvOf(body), configured, deadline, start, FIRST_BACKOFF, 0)
        decreases deadline - now
      {
        busyTimeoutMs := Max(1, Min(configured, deadline - now));
        QueueTurn(EnvOf(body), configured, deadline, now, backoffMs, attempts);
        inTransaction := true;
        var tried := RunBody(body, configured, maxWriteWaitMs);
        assert tried == EnvOf(body)(attempts, busyTimeoutMs);
        inTransaction := false;
        attempts := attempts + 1;
        match tried {
          case Committed(value, _) =>
            commits := commits + 1;
            busyTimeoutMs := configured;
            return Ok(value);
          case Failed(_) =>
            busyTimeoutMs := configured;
            return Throw(OtherError);
          case Locked(_) =>
            if now >= deadline {
              busyTimeoutMs := configured;
              return Throw(LockError);
            }
            now := now + Min(backoffMs, Max(1, deadline - now));
            backoffMs := Min(backoffMs * 2, MAX_BACKOFF);
        }
      }
    }

    /** A transaction function. Inside another transaction it is a savepoint: one run, never a retry of its own. */
    method Transaction(body: Body, configured: int, maxWriteWaitMs: int) returns (reply: Reply<string, Failure>)
      requires !inTransaction ==> EnvOk(EnvOf(body))
      modifies this
      ensures inTransaction == old(inTransaction)
      ensures old(inTransaction) ==>
        && attempts == old(attempts) && busyTimeoutMs == old(busyTimeoutMs) && commits == old(commits)
        && var tried := AttemptOf(body, attempts, busyTimeoutMs); reply == ReplyOf(tried) && now == old(now) + tried.ms
      ensures !old(inTransaction) ==>
        && busyTimeoutMs == configured && commits == old(commits) + (if reply.Ok? then 1 else 0)
        && var end := Queue(EnvOf(body), configured, old(now) + maxWriteWaitMs, old(now), FIRST_BACKOFF, 0);
           reply == end.reply && now == end.time && attempts == end.attempts
      decreases body, 2
    {
      if inTransaction {
        var tried := RunBody(body, configured, maxWriteWaitMs);
        return ReplyOf(tried);
      }
      reply := RunQueued(body, configured, maxWriteWaitMs);
    }
  }

  /** Every level of the body succeeds in attempt n. */
  ghost predicate AllCommit(body: Body, n: nat, cap: int) {
    body.work(n, cap).Committed? && (body.nested.Some? ==> AllCommit(body.nested.value, n, cap))
  }

  lemma {:induction false} CommitsIff(body: Body, n: nat, cap: int)
    ensures AttemptOf(body, n, cap).Committed? <==> AllCommit(body, n, cap)
  {
    match body.nested
    case None =>
    case Some(inner) => CommitsIff(inner, n, cap);
  }

  /** Whether `inner` is called from `body`, at any depth. */
  ghost predicate CalledFrom(inner: Body, body: Body) {
    body.nested.Some? && (inner == body.nested.value || CalledFrom(inner, body.nested.value))
  }

  lemma {:induction false} InnerLockLocks(body: Body, inner: Body, n: nat, cap: int)
    requires CalledFrom(inner, body) && AttemptOf(inner, n, cap).Locked?
    ensures AttemptOf(body, n, cap) == AttemptOf(inner, n, cap)
  {
    if inner == body.nested.value {
    } else {
      InnerLockLocks(body.nested.value, inner, n, cap);
    }
  }

  /** A lock error anywhere inside restarts the outermost body from its beginning, unless the time is up. */
  lemma InnerLockRestartsOuter(body: Body, inner: Body, busy: int, deadline: int, now: int, backoff: int, n: nat)
    requires EnvOk(EnvOf(body)) && backoff >= 1 && CalledFrom(inner, body)
    requires AttemptOf(inner, n, Cap(busy, deadline, now)).Locked?
    ensures var failed := now + AttemptOf(inner, n, Cap(busy, deadline, now)).ms;
      Queue(EnvOf(body), busy, deadline, now, backoff, n)
      == if failed >= deadline then End(Throw(LockError), failed, n + 1)
         else Queue(EnvOf(body), busy, deadline, failed + Sleep(backoff, deadline, failed), Min(backoff * 2, MAX_BACKOFF), n + 1)
  {
    InnerLockLocks(body, inner, n, Cap(busy, deadline, now));
  }

  /** What is committed is one attempt in which every level succeeded. */
  lemma {:induction false} CommittedInOneAttempt(body: Body, busy: int, deadline: int, now: int, backoff: int, n: nat) returns (cap: int)
    requires EnvOk(EnvOf(body)) && backoff >= 1
    ensures var end := Queue(EnvOf(body), busy, deadline, now, backoff, n);
      && end.attempts > n
      && (end.reply.Ok? ==>
            AllCommit(body, end.attempts - 1, cap) && end.reply == ReplyOf(AttemptOf(body, end.attempts - 1, cap)))
    decreases deadline - now
  {
    cap := Cap(busy, deadline, now);
    var tried := AttemptOf(body, n, cap);
    CommitsIff(body, n, cap);
    assert EnvOf(body)(n, cap) == tried;
    if !tried.Locked? || now + tried.ms >= deadline {
    } else {
      cap := CommittedInOneAttempt(body, busy, deadline, now + tried.ms + Sleep(backoff, deadline, now + tried.ms),
                                   Min(backoff * 2, MAX_BACKOFF), n + 1);
    }
  }

  // ------------------------------------------------------------ bounds

  /** A lock error is given up on at the deadline, or within a millisecond of it. */
  lemma {:induction false} LockErrorByDeadline(env: Env, busy: int, deadline: int, now: int, backoff: int, n: nat)
    requires EnvOk(env) && backoff >= 1 && now <= deadline
    ensures var end := Queue(env, busy, deadline, now, backoff, n);
      end.reply == Throw(LockError) ==> deadline <= end.time <= deadline + 1
    decreases deadline - now
  {
    var cap := Cap(busy, deadline, now);
    var tried := env(n, cap);
    if !tried.Locked? || now + tried.ms >= deadline {
    } else {
      LockErrorByDeadline(env, busy, deadline, now + tried.ms + Sleep(backoff, deadline, now + tried.ms), Min(backoff * 2, MAX_BACKOFF), n + 1);
    }
  }

  /** No attempt blocks longer than its cap, whichever way it ends. */
  ghost predicate WithinCap(env: Env) {
    forall n: nat, cap: int | cap >= 1 :: env(n, cap).ms <= cap
  }

  /** When no attempt overruns its cap, the call is over a millisecond after the deadline, whatever it replies. */
  lemma {:induction false} OverByDeadline(env: Env, busy: int, deadline: int, now: int, backoff: int, n: nat)
    requires EnvOk(env) && WithinCap(env) && backoff >= 1 && now <= deadline
    ensures now <= Queue(env, busy, deadline, now, backoff, n).time <= deadline + 1
    decreases deadline - now
  {
    var cap := Cap(busy, deadline, now);
    var tried := env(n, cap);
    assert tried.ms <= cap;
    if !tried.Locked? || now + tried.ms >= deadline {
    } else {
      OverByDeadline(env, busy, deadline, now + tried.ms + Sleep(backoff, deadline, now + tried.ms), Min(backoff * 2, MAX_BACKOFF), n + 1);
    }
  }

  /** The times at which the attempts begin. */
  function Begins(env: Env, busy: int, deadline: int, now: int, backoff: int, n: nat): seq<int>
    requires EnvOk(env) && backoff >= 1
    decreases deadline - now
  {
    var tried := env(n, Cap(busy, deadline, now));
    if !tried.Locked? || now + tried.ms >= deadline then [now]
    else [now] + Begins(env, busy, deadline, now + tried.ms + Sleep(backoff, deadline, now + tried.ms), Min(backoff * 2, MAX_BACKOFF), n + 1)
  }

  /** Every attempt begins by the deadline, and later than the one before. */
  lemma {:induction false} BeginsByDeadline(env: Env, busy: int, deadline: int, now: int, backoff: int, n: nat)
    requires EnvOk(env) && backoff >= 1 && now <= deadline
    ensures var begins := Begins(env, busy, deadline, now, backoff, n);
      && n + |begins| == Queue(env, busy, deadline, now, backoff, n).attempts && begins != [] && begins[0] == now
      && (forall i | 0 <= i < |begins| :: begins[i] <= deadline)
      && (forall i | 0 < i < |begins| :: begins[i - 1] < begins[i])
    decreases deadline - now
  {
    var tried := env(n, Cap(busy, deadline, now));
    if !tried.Locked? || now + tried.ms >= deadline {
    } else {
      BeginsByDeadline(env, busy, deadline, now + tried.ms + Sleep(backoff, deadline, now + tried.ms), Min(backoff * 2, MAX_BACKOFF), n + 1);
    }
  }

  /** The wait after the i-th failure, counted from 0: it doubles, up to 250 milliseconds. */
  function WaitAt(backoff: int, i: nat): int
    decreases i
  {
    if i == 0 then backoff else WaitAt(if backoff * 2 < MAX_BACKOFF then backoff * 2 else MAX_BACKOFF, i - 1)
  }

  function Power(i: nat): nat {
    if i == 0 then 1 else 2 * Power(i - 1)
  }

  lemma {:induction false} WaitsDouble(backoff: int, i: nat)
    requires 1 <= backoff <= MAX_BACKOFF
    ensures WaitAt(backoff, i) == if backoff * Power(i) < MAX_BACKOFF then backoff * Power(i) else MAX_BACKOFF
    decreases i
  {
    if i == 0 {
    } else {
      var next := if backoff * 2 < MAX_BACKOFF then backoff * 2 else MAX_BACKOFF;
      WaitsDouble(next, i - 1);
      Regroup(backoff, Power(i - 1));
      PowerIsPositive(i - 1);
      AtLeast(next, Power(i - 1));
      AtLeast(backoff * 2, Power(i - 1));
    }
  }

  lemma Regroup(a: int, k: int)
    ensures a * (2 * k) == (a * 2) * k
  {
  }

  lemma {:induction false} PowerIsPositive(i: nat)
    ensures Power(i) >= 1
  {
    if i == 0 {
    } else {
      PowerIsPositive(i - 1);
    }
  }

  lemma AtLeast(a: int, k: nat)
    requires a >= 0 && k >= 1
    ensures a * k >= a
  {
  }

  /** How long SQLite may block at a time: as long as configured, but not past the deadline, and a millisecond at least. */
  predicate IsCap(cap: int, busy: int, left: int) {
    if busy >= 1 && left >= 1 then cap == (if busy <= left then busy else left) else cap == 1
  }

  /**
   * The course of a call. Every attempt but the last failed on a lock before the deadline, and the next began after a
   * wait that doubles but does not pass the deadline; the last one did not, and its result is the call's.
   */
  ghost predicate Course(env: Env, busy: int, deadline: int, backoff: int, n: nat, begins: seq<int>, end: End) {
    && begins != [] && end.attempts == n + |begins|
    && forall i: nat | i < |begins| :: Turn(env, busy, deadline, backoff, n, begins, i, end)
  }

  ghost predicate Turn(env: Env, busy: int, deadline: int, backoff: int, n: nat, begins: seq<int>, i: nat, end: End)
    requires i < |begins|
  {
    exists cap :: IsCap(cap, busy, deadline - begins[i]) && Turns(env, cap, deadline, backoff, n, begins, i, end)
  }

  ghost predicate Turns(env: Env, cap: int, deadline: int, backoff: int, n: nat, begins: seq<int>, i: nat, end: End)
    requires i < |begins|
  {
    var tried := env(n + i, cap);
    var over := begins[i] + tried.ms;
    if i + 1 < |begins| then
      && tried.Locked? && over < deadline
      && begins[i + 1] == over + if WaitAt(backoff, i) <= deadline - over then WaitAt(backoff, i) else deadline - over
    else
      && !(tried.Locked? && over < deadline)
      && end.reply == ReplyOf(tried) && end.time == over
  }

  lemma TurnsLater(env: Env, cap: int, deadline: int, backoff: int, n: nat, first: int, later: seq<int>, i: nat, end: End)
    requires i < |later| && Turns(env, cap, deadline, Min(backoff * 2, MAX_BACKOFF), n + 1, later, i, end)
    ensures Turns(env, cap, deadline, backoff, n, [first] + later, i + 1, end)
  {
    assert n + 1 + i == n + (i + 1);
  }

  lemma CourseLater(env: Env, busy: int, deadline: int, backoff: int, n: nat, first: int, later: seq<int>, cap: int, end: End)
    requires Course(env, busy, deadline, Min(backoff * 2, MAX_BACKOFF), n + 1, later, end)
    requires IsCap(cap, busy, deadline - first) && Turns(env, cap, deadline, backoff, n, [first] + later, 0, end)
    ensures Course(env, busy, deadline, backoff, n, [first] + later, end)
  {
    hide IsCap, Turns;
    var begins := [first] + later;
    forall i: nat | i < |begins|
      ensures Turn(env, busy, deadline, backoff, n, begins, i, end)
    {
      if i == 0 {
        assert IsCap(cap, busy, deadline - begins[0]);
      } else {
        assert Turn(env, busy, deadline, Min(backoff * 2, MAX_BACKOFF), n + 1, later, i - 1, end);
        var c :| IsCap(c, busy, deadline - later[i - 1]) && Turns(env, c, deadline, Min(backoff * 2, MAX_BACKOFF), n + 1, later, i - 1, end);
        TurnsLater(env, c, deadline, backoff, n, first, later, i - 1, end);
        assert begins[i] == later[i - 1];
        assert IsCap(c, busy, deadline - begins[i]) && Turns(env, c, deadline, backoff, n, begins, i, end);
      }
    }
    assert begins != [] && end.attempts == n + |begins|;
  }

  lemma {:induction false} CallCourse(env: Env, busy: int, deadline: int, now: int, backoff: int, n: nat)
    requires EnvOk(env) && 1 <= backoff <= MAX_BACKOFF
    ensures Course(env, busy, deadline, backoff, n, Begins(env, busy, deadline, now, backoff, n), Queue(env, busy, deadline, now, backoff, n))
    decreases deadline - now
  {
    var cap := Cap(busy, deadline, now);
    assert IsCap(cap, busy, deadline - now);
    var tried := env(n, cap);
    var begins, end := Begins(env, busy, deadline, now, backoff, n), Queue(env, busy, deadline, now, backoff, n);
    if !tried.Locked? || now + tried.ms >= deadline {
      assert Turns(env, cap, deadline, backoff, n, begins, 0, end);
    } else {
      var over := now + tried.ms;
      var next, more := over + Sleep(backoff, deadline, over), Min(backoff * 2, MAX_BACKOFF);
      var later := Begins(env, busy, deadline, next, more, n + 1);
      CallCourse(env, busy, deadline, next, more, n + 1);
      hide Course;
      BeginsAtNow(env, busy, deadline, next, more, n + 1);
      assert Turns(env, cap, deadline, backoff, n, [now] + later, 0, end);
      CourseLater(env, busy, deadline, backoff, n, now, later, cap, end);
    }
  }

  lemma BeginsAtNow(env: Env, busy: int, deadline: int, now: int, backoff: int, n: nat)
    requires EnvOk(env) && backoff >= 1
    ensures Begins(env, busy, deadline, now, backoff, n)[0] == now
  {
  }

  /** Each wait costs at least a millisecond, so the number of attempts is bounded by the budget. */
  lemma {:induction false} AttemptsByBudget(env: Env, busy: int, deadline: int, now: int, backoff: int, n: nat)
    requires EnvOk(env) && backoff >= 1 && now <= deadline
    ensures Queue(env, busy, deadline, now, backoff, n).attempts - n <= deadline - now + 1
    decreases deadline - now
  {
    var tried := env(n, Cap(busy, deadline, now));
    if !tried.Locked? || now + tried.ms >= deadline {
    } else {
      AttemptsByBudget(env, busy, deadline, now + tried.ms + Sleep(backoff, deadline, now + tried.ms), Min(backoff * 2, MAX_BACKOFF), n + 1);
    }
  }

  /** What the doubling still has to make up until the wait is the full 250 milliseconds. */
  function Deficit(backoff: int): (d: int)
    requires backoff >= FIRST_BACKOFF
    ensures d >= 0
    decreases MAX_BACKOFF - backoff
  {
    if backoff >= MAX_BACKOFF then 0 else MAX_BACKOFF - backoff + Deficit(Min(backoff * 2, MAX_BACKOFF))
  }

  /** With the doubling the attempts are far fewer: but for the last two, each costs 250 milliseconds, less the deficit. */
  lemma {:induction false} AttemptsByBackoff(env: Env, busy: int, deadline: int, now: int, backoff: int, n: nat)
    requires EnvOk(env) && FIRST_BACKOFF <= backoff <= MAX_BACKOFF && now <= deadline
    ensures MAX_BACKOFF * (Queue(env, busy, deadline, now, backoff, n).attempts - n - 2) <= deadline - now + Deficit(backoff)
    decreases deadline - now
  {
    var tried := env(n, Cap(busy, deadline, now));
    if !tried.Locked? || now + tried.ms >= deadline {
    } else {
      var sleep := Sleep(backoff, deadline, now + tried.ms);
      var next := now + tried.ms + sleep;
      AttemptsByBackoff(env, busy, deadline, next, Min(backoff * 2, MAX_BACKOFF), n + 1);
      if next == deadline {
        OneMoreAtDeadline(env, busy, deadline, Min(backoff * 2, MAX_BACKOFF), n + 1);
      }
    }
  }

  lemma OneMoreAtDeadline(env: Env, busy: int, deadline: int, backoff: int, n: nat)
    requires EnvOk(env) && backoff >= 1
    ensures Queue(env, busy, deadline, deadline, backoff, n).attempts == n + 1
  {
  }

  /** The queue as configured by default: a write that never gets the lock fails after 30 seconds and at most 125 attempts. */
  lemma DefaultsAreBounded(env: Env, now: int)
    requires EnvOk(env)
    ensures var end := Queue(env, 5000, now + 30000, now, FIRST_BACKOFF, 0);
      end.attempts <= 125 && (end.reply == Throw(LockError) ==> now + 30000 <= end.time <= now + 30001)
  {
    AttemptsByBackoff(env, 5000, now + 30000, now, FIRST_BACKOFF, 0);
    LockErrorByDeadline(env, 5000, now + 30000, now, FIRST_BACKOFF, 0);
    assert Deficit(160) == 90 + Deficit(250);
    assert Deficit(40) == 210 + (170 + Deficit(160));
    assert Deficit(10) == 240 + (230 + Deficit(40));
  }
}
