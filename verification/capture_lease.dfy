/** The host-wide clipboard capture lease (clipboard-capture-lease.ts). */
module CaptureLease {
  import opened Wrappers

  /** The single row of the table; the acquisition time is also the fencing token. */
  datatype Row = Row(holder: Option<string>, pid: Option<int>, acquiredAt: Option<int>)

  const FREE := Row(None, None, None)

  function Held(collab: string, pid: int, token: int): Row {
    Row(Some(collab), Some(pid), Some(token))
  }

  predicate IsStale(row: Row, alive: set<int>, now: int, ttl: int) {
    || row.holder.None?
    || row.pid.None? || row.pid.value !in alive
    || row.acquiredAt.None? || now - row.acquiredAt.value > ttl
  }

  /** One transaction. An acquire looks at the clock twice: for the age of the old lease, and for its own token. */
  datatype Event =
    | Acquire(collab: string, pid: int, seen: int, stamp: int, alive: set<int>)
    | Release(collab: string, token: int)
    | ReleaseForPid(collab: string, pid: int)
    | Sweep(now: int, alive: set<int>)

  predicate Succeeds(row: Option<Row>, e: Event, ttl: int) {
    e.Acquire? && (row.None? || IsStale(row.value, e.alive, e.seen, ttl))
  }

  function Next(row: Option<Row>, e: Event, ttl: int): Option<Row> {
    match e
    case Acquire(collab, pid, _, stamp, _) => if Succeeds(row, e, ttl) then Some(Held(collab, pid, stamp)) else row
    case Release(collab, token) =>
      if row.Some? && row.value.holder == Some(collab) && row.value.acquiredAt == Some(token) then Some(FREE) else row
    case ReleaseForPid(collab, pid) =>
      if row.Some? && row.value.holder == Some(collab) && row.value.pid == Some(pid) then Some(FREE) else row
    case Sweep(now, alive) =>
      if row.Some? && row.value.holder.Some? && IsStale(row.value, alive, now, ttl) then Some(FREE) else row
  }

  function Run(row: Option<Row>, events: seq<Event>, ttl: int): Option<Row> {
    if events == [] then row else Next(Run(row, events[..|events| - 1], ttl), events[|events| - 1], ttl)
  }

  class LeaseTable {
    var row: Option<Row>

    constructor ()
      ensures row == None
    {
      row := None;
    }

    /** acquireCaptureLease. */
    method AcquireLease(collab: string, pid: int, seen: int, stamp: int, alive: set<int>, ttl: int) returns (token: Option<int>)
      modifies this
      ensures row == Next(old(row), Acquire(collab, pid, seen, stamp, alive), ttl)
      ensures token == if Succeeds(old(row), Acquire(collab, pid, seen, stamp, alive), ttl) then Some(stamp) else None
    {
      if row.Some? && !IsStale(row.value, alive, seen, ttl) {
        return None;
      }
      row := Some(Row(Some(collab), Some(pid), Some(stamp)));
      token := Some(stamp);
    }

    method ReleaseLease(collab: string, token: int)
      modifies this
      ensures forall ttl :: row == Next(old(row), Release(collab, token), ttl)
    {
      if row.Some? && row.value.holder == Some(collab) && row.value.acquiredAt == Some(token) {
        row := Some(Row(None, None, None));
      }
    }

    method ReleaseLeaseForHolderPid(collab: string, pid: int)
      modifies this
      ensures forall ttl :: row == Next(old(row), ReleaseForPid(collab, pid), ttl)
    {
      if row.Some? && row.value.holder == Some(collab) && row.value.pid == Some(pid) {
        row := Some(Row(None, None, None));
      }
    }

    method SweepStaleLease(now: int, alive: set<int>, ttl: int)
      modifies this
      ensures row == Next(old(row), Sweep(now, alive), ttl)
    {
      if row.None? || row.value.holder.None? {
        return;
      }
      if IsStale(row.value, alive, now, ttl) {
        row := Some(Row(None, None, None));
      }
    }
  }

  // ------------------------------------------------------------ exclusion

  /** The event is not the holder's own release, and it finds the holder alive and its lease young enough. */
  predicate Respects(e: Event, collab: string, pid: int, token: int, ttl: int) {
    match e
    case Acquire(_, _, seen, _, alive) => pid in alive && seen - token <= ttl
    case Release(c, t) => c != collab || t != token
    case ReleaseForPid(c, p) => c != collab || p != pid
    case Sweep(now, alive) => pid in alive && now - token <= ttl
  }

  /**
   * Exclusion, and at which event it ends: a lease stays with its holder, and no acquire succeeds, through any events
   * up to and without the first that is the holder's own release or finds the holder dead or its lease too old.
   */
  lemma {:induction false} HeldUntilDisturbed(collab: string, pid: int, token: int, events: seq<Event>, ttl: int, n: nat)
    requires n <= |events| && forall i | 0 <= i < n :: Respects(events[i], collab, pid, token, ttl)
    ensures Run(Some(Held(collab, pid, token)), events[..n], ttl) == Some(Held(collab, pid, token))
    ensures forall i | 0 <= i < n :: !Succeeds(Run(Some(Held(collab, pid, token)), events[..i], ttl), events[i], ttl)
  {
    if n <= 0 {
    } else {
      HeldUntilDisturbed(collab, pid, token, events, ttl, n - 1);
      assert events[..n][..n - 1] == events[..n - 1];
    }
  }

  /** Conversely the first such event does end it: it frees the lease, or hands it to the acquirer. */
  lemma DisturbedIsLost(collab: string, pid: int, token: int, e: Event, ttl: int)
    requires !Respects(e, collab, pid, token, ttl)
    ensures var after := Next(Some(Held(collab, pid, token)), e, ttl);
      if e.Acquire? then after == Some(Held(e.collab, e.pid, e.stamp)) else after == Some(FREE)
  {
  }

  // ------------------------------------------------------------ fencing

  datatype Grant = Grant(collab: string, pid: int, token: int)

  /** The leases granted so far, in order. */
  function Grants(row: Option<Row>, events: seq<Event>, ttl: int): seq<Grant> {
    if events == [] then []
    else
      var n := |events| - 1;
      var e := events[n];
      Grants(row, events[..n], ttl)
      + if Succeeds(Run(row, events[..n], ttl), e, ttl) then [Grant(e.collab, e.pid, e.stamp)] else []
  }

  ghost predicate ShowsLast(row: Option<Row>, grants: seq<Grant>) {
    || row.None?
    || row == Some(FREE)
    || (grants != [] && row == Some(Held(grants[|grants| - 1].collab, grants[|grants| - 1].pid, grants[|grants| - 1].token)))
  }

  /** Whatever has happened, the row is free or shows the last grant. */
  lemma {:induction false} RowIsLastGrant(events: seq<Event>, ttl: int)
    ensures ShowsLast(Run(None, events, ttl), Grants(None, events, ttl))
  {
    if events == [] {
    } else {
      RowIsLastGrant(events[..|events| - 1], ttl);
    }
  }

  ghost predicate DistinctTokens(grants: seq<Grant>) {
    forall i, j | 0 <= i < j < |grants| :: grants[i].token != grants[j].token
  }

  /**
   * What a release kept from an earlier grant does, over all histories: nothing, exactly when the lease is free or the
   * last grant went to another collab or with another token.
   */
  lemma {:induction false} OldReleaseIff(events: seq<Event>, ttl: int, i: nat)
    requires i + 1 < |Grants(None, events, ttl)|
    ensures var grants, row := Grants(None, events, ttl), Run(None, events, ttl);
      var g, last := grants[i], grants[|grants| - 1];
      Next(row, Release(g.collab, g.token), ttl) == row <==>
        row.None? || row == Some(FREE) || last.collab != g.collab || last.token != g.token
  {
    RowIsLastGrant(events, ttl);
  }

  /** So a release with the token of an earlier grant never touches a later lease, not even one of the same collab. */
  lemma OldTokenIsFenced(events: seq<Event>, ttl: int, i: nat)
    requires DistinctTokens(Grants(None, events, ttl)) && i + 1 < |Grants(None, events, ttl)|
    ensures var g := Grants(None, events, ttl)[i];
      Next(Run(None, events, ttl), Release(g.collab, g.token), ttl) == Run(None, events, ttl)
  {
    OldReleaseIff(events, ttl, i);
    var grants := Grants(None, events, ttl);
    assert grants[i].token != grants[|grants| - 1].token;
  }

  /**
   * The tokens do have to differ. When a collab releases and acquires again within one clock tick, its first release,
   * run late, takes the second lease away.
   */
  lemma SameTickDefeatsFencing(collab: string, pid: int, now: int, alive: set<int>, ttl: int)
    ensures var a := Acquire(collab, pid, now, now, alive);
      var events := [a, ReleaseForPid(collab, pid), a];
      && |Grants(None, events, ttl)| == 2
      && Run(None, events, ttl) == Some(Held(collab, pid, now))
      && Next(Run(None, events, ttl), Release(collab, Grants(None, events, ttl)[0].token), ttl) != Run(None, events, ttl)
  {
    var a, r := Acquire(collab, pid, now, now, alive), ReleaseForPid(collab, pid);
    var events := [a, r, a];
    assert events[..2] == [a, r] && [a, r][..1] == [a] && [a][..0] == [];
    assert Run(None, [a], ttl) == Some(Held(collab, pid, now));
    assert Run(None, [a, r], ttl) == Some(FREE);
    assert Grants(None, [a], ttl) == [] + [Grant(collab, pid, now)];
    assert Grants(None, [a, r], ttl) == Grants(None, [a], ttl) + [];
    OldReleaseIff(events, ttl, 0);
  }

  // ------------------------------------------------------------ whole histories

  /** The clock does not go back, and two grants never fall on the same tick. */
  ghost predicate ClockOk(events: seq<Event>, ttl: int) {
    && (forall i | 0 <= i < |events| :: events[i].Acquire? ==> events[i].seen <= events[i].stamp)
    && (forall i, j | 0 <= i < j < |events| && events[i].Acquire? && events[j].Acquire? :: events[i].stamp < events[j].seen)
  }

  lemma {:induction false} GrantsComeLater(events: seq<Event>, ttl: int)
    requires ClockOk(events, ttl)
    ensures DistinctTokens(Grants(None, events, ttl))
    ensures forall g | g in Grants(None, events, ttl) :: exists i :: 0 <= i < |events| && events[i].Acquire? && events[i].stamp == g.token
  {
    if events == [] {
    } else {
      var n := |events| - 1;
      GrantsComeLater(events[..n], ttl);
      var before, grants := Grants(None, events[..n], ttl), Grants(None, events, ttl);
      forall g | g in grants
        ensures exists i :: 0 <= i < |events| && events[i].Acquire? && events[i].stamp == g.token
      {
        if g in before {
          var i :| 0 <= i < n && events[..n][i].Acquire? && events[..n][i].stamp == g.token;
          assert events[i].Acquire?;
        } else {
          assert events[n].stamp == g.token;
        }
      }
      forall i, j | 0 <= i < j < |grants|
        ensures grants[i].token != grants[j].token
      {
        assert grants[i] in before;
        var k :| 0 <= k < n && events[..n][k].Acquire? && events[..n][k].stamp == grants[i].token;
        assert events[k].stamp == grants[i].token;
      }
    }
  }

  /** With such a clock, no release kept from an earlier grant disturbs the present holder, over all histories. */
  lemma ReleasesAreFenced(events: seq<Event>, ttl: int, i: nat)
    requires ClockOk(events, ttl) && i + 1 < |Grants(None, events, ttl)|
    ensures var g := Grants(None, events, ttl)[i];
      Next(Run(None, events, ttl), Release(g.collab, g.token), ttl) == Run(None, events, ttl)
  {
    GrantsComeLater(events, ttl);
    OldTokenIsFenced(events, ttl, i);
  }
}
