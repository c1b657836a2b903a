/** The proxy manager: which rows are running and which servers are listening. */
module ProxyManager {
  import opened Wrappers
  import opened Quality

  datatype Row = Row(id: string, port: int, status: ProxyStatus, expiresAt: Option<int>, revokedAt: Option<int>)

  /** The proxy table in the order it is listed, and the id of the server listening on each port. */
  datatype State = State(rows: seq<Row>, servers: map<int, string>)

  datatype Fault = NotFound | HasExpired | ListenFailed

  predicate Overdue(r: Row, now: int) {
    r.expiresAt.Some? && now > r.expiresAt.value
  }

  function IndexOf(rows: seq<Row>, id: string, i: nat): (at: Option<nat>)
    requires i <= |rows|
    ensures at.Some? ==> i <= at.value < |rows| && rows[at.value].id == id
    ensures at.None? ==> forall k :: i <= k < |rows| ==> rows[k].id != id
    decreases |rows| - i
  {
    if i == |rows| then None else if rows[i].id == id then Some(i) else IndexOf(rows, id, i + 1)
  }

  function Retired(r: Row, now: int): Row {
    r.(status := Expired, revokedAt := Some(now))
  }

  /** StartProxy on the row at i; `listens` says whether the port can be opened. */
  function StartAt(st: State, i: nat, now: int, listens: bool): State
    requires i < |st.rows|
  {
    var r := st.rows[i];
    if r.port in st.servers then st.(rows := st.rows[i := r.(status := Running)])
    else if Overdue(r, now) then st.(rows := st.rows[i := Retired(r, now)])
    else if !listens then st.(rows := st.rows[i := r.(status := Errored)])
    else State(st.rows[i := r.(status := Running)], st.servers[r.port := r.id])
  }

  /** Closes the server on the row's port, if any, and saves the row as given. */
  function CloseAt(st: State, i: nat, r: Row): State
    requires i < |st.rows|
  {
    State(st.rows[i := r], st.servers - {st.rows[i].port})
  }

  function Start(st: State, id: string, now: int, listens: bool): State {
    var i := IndexOf(st.rows, id, 0);
    if i.None? then st else StartAt(st, i.value, now, listens)
  }

  function Started(st: State, id: string, now: int, listens: bool): Option<Fault> {
    var i := IndexOf(st.rows, id, 0);
    if i.None? then Some(NotFound)
    else if st.rows[i.value].port in st.servers then None
    else if Overdue(st.rows[i.value], now) then Some(HasExpired)
    else if !listens then Some(ListenFailed)
    else None
  }

  function Stop(st: State, id: string): State {
    var i := IndexOf(st.rows, id, 0);
    if i.None? then st else CloseAt(st, i.value, st.rows[i.value].(status := Stopped))
  }

  function Expire(st: State, id: string, now: int): State {
    var i := IndexOf(st.rows, id, 0);
    if i.None? then st else CloseAt(st, i.value, Retired(st.rows[i.value], now))
  }

  function SweptRow(r: Row, now: int): Row {
    if Overdue(r, now) && (r.status == Running || r.status == Stopped) then Retired(r, now) else r
  }

  /** The ports among the first n rows that a sweep closes. */
  predicate ClosedBySweep(rows: seq<Row>, port: int, now: int, n: nat)
    requires n <= |rows|
  {
    exists k :: 0 <= k < n && rows[k].port == port && Overdue(rows[k], now) && rows[k].status == Running
  }

  function Sweep(st: State, now: int): State {
    State(seq(|st.rows|, k requires 0 <= k < |st.rows| => SweptRow(st.rows[k], now)),
          map port | port in st.servers && !ClosedBySweep(st.rows, port, now, |st.rows|) :: st.servers[port])
  }

  /** RestoreProxies over the first n rows, `listens` saying which of their ports can be opened. */
  function Restore(st: State, now: int, listens: seq<bool>, n: nat): (after: State)
    requires n <= |st.rows| == |listens|
    ensures |after.rows| == |st.rows|
    ensures forall k :: 0 <= k < |st.rows| ==>
            after.rows[k].id == st.rows[k].id && after.rows[k].port == st.rows[k].port
    ensures forall k :: n <= k < |st.rows| ==> after.rows[k] == st.rows[k]
  {
    if n == 0 then st
    else
      var before := Restore(st, now, listens, n - 1);
      var r := st.rows[n - 1];
      if Overdue(r, now) then before.(rows := before.rows[n - 1 := Retired(r, now)])
      else if r.status == Running then StartAt(before, n - 1, now, listens[n - 1])
      else before
  }

  function Create(st: State, id: string, port: int, expiresAt: Option<int>): State {
    if exists k :: 0 <= k < |st.rows| && st.rows[k].port == port then st
    else st.(rows := st.rows + [Row(id, port, Stopped, expiresAt, None)])
  }

  /** The handler stops the proxy before it deletes the row. */
  function Delete(st: State, id: string): State {
    var i, stopped := IndexOf(st.rows, id, 0), Stop(st, id);
    if i.None? then stopped else stopped.(rows := stopped.rows[..i.value] + stopped.rows[i.value + 1..])
  }

  // ----- the manager itself

  class Manager {
    var rows: seq<Row>
    var servers: map<int, string>

    ghost function View(): State
      reads this
    {
      State(rows, servers)
    }

    constructor (rows: seq<Row>)
      ensures View() == State(rows, map[])
    {
      this.rows, servers := rows, map[];
    }

    method GetByID(id: string) returns (i: Option<nat>)
      ensures i == IndexOf(rows, id, 0)
    {
      for k := 0 to |rows|
        invariant IndexOf(rows, id, 0) == IndexOf(rows, id, k)
      {
        if rows[k].id == id {
          return Some(k);
        }
      }
      i := None;
    }

    method StartProxy(id: string, now: int, listens: bool) returns (fault: Option<Fault>)
      modifies this
      ensures View() == Start(old(View()), id, now, listens) && fault == Started(old(View()), id, now, listens)
    {
      var i := GetByID(id);
      if i.None? {
        return Some(NotFound);
      }
      var r := rows[i.value];
      if r.port in servers {
        rows := rows[i.value := r.(status := Running)];
        return None;
      }
      if r.expiresAt.Some? && now > r.expiresAt.value {
        rows := rows[i.value := r.(status := Expired, revokedAt := Some(now))];
        return Some(HasExpired);
      }
      if !listens {
        rows := rows[i.value := r.(status := Errored)];
        return Some(ListenFailed);
      }
      servers := servers[r.port := r.id];
      rows := rows[i.value := r.(status := Running)];
      fault := None;
    }

    method StopProxy(id: string) returns (fault: Option<Fault>)
      modifies this
      ensures View() == Stop(old(View()), id)
      ensures fault == if IndexOf(old(rows), id, 0).None? then Some(NotFound) else None
    {
      var i := GetByID(id);
      if i.None? {
        return Some(NotFound);
      }
      var r := rows[i.value];
      if r.port in servers {
        servers := servers - {r.port};
      }
      assert servers == old(servers) - {r.port};
      rows := rows[i.value := r.(status := Stopped)];
      fault := None;
    }

    method ExpireProxy(id: string, now: int) returns (fault: Option<Fault>)
      modifies this
      ensures View() == Expire(old(View()), id, now)
      ensures fault == if IndexOf(old(rows), id, 0).None? then Some(NotFound) else None
    {
      var i := GetByID(id);
      if i.None? {
        return Some(NotFound);
      }
      var r := rows[i.value];
      if r.port in servers {
        servers := servers - {r.port};
      }
      assert servers == old(servers) - {r.port};
      rows := rows[i.value := r.(status := Expired, revokedAt := Some(now))];
      fault := None;
    }

    method SweepExpiredProxies(now: int)
      requires Keyed(View())
      modifies this
      ensures View() == Sweep(old(View()), now)
    {
      var listed := rows;
      ghost var before := View();
      for n := 0 to |listed|
        invariant listed == before.rows && |rows| == |listed|
        invariant forall k :: 0 <= k < |listed| ==> rows[k] == if k < n then SweptRow(listed[k], now) else listed[k]
        invariant servers == map port | port in before.servers &&
                  !ClosedBySweep(listed, port, now, n) :: before.servers[port]
      {
        var r := listed[n];
        RowIsFound(listed, rows, n);
        ClosesOneMore(listed, now, n);
        if r.expiresAt.Some? && now > r.expiresAt.value && r.status == Running {
          var _ := ExpireProxy(r.id, now);
        } else if r.expiresAt.Some? && now > r.expiresAt.value && r.status == Stopped {
          rows := rows[n := r.(status := Expired, revokedAt := Some(now))];
        }
      }
      assert rows == Sweep(before, now).rows;
    }

    method RestoreProxies(now: int, listens: seq<bool>)
      requires Keyed(View()) && |listens| == |rows|
      modifies this
      ensures View() == Restore(old(View()), now, listens, |listens|)
    {
      var listed := rows;
      ghost var before := View();
      for n := 0 to |listed|
        invariant listed == before.rows && |listens| == |listed|
        invariant View() == Restore(before, now, listens, n)
      {
        var r := listed[n];
        if r.expiresAt.Some? && now > r.expiresAt.value {
          rows := rows[n := r.(status := Expired, revokedAt := Some(now))];
          continue;
        }
        if r.status == Running {
          RowIsFound(listed, rows, n);
          var _ := StartProxy(r.id, now, listens[n]);
        }
      }
    }
  }

  // ----- agreement between rows and servers

  /** The primary key and the unique index on ports. */
  ghost predicate Keyed(st: State) {
    forall i, j :: 0 <= i < j < |st.rows| ==> st.rows[i].id != st.rows[j].id && st.rows[i].port != st.rows[j].port
  }

  ghost predicate Agrees(st: State) {
    && (forall k :: 0 <= k < |st.rows| && st.rows[k].status == Running ==>
          st.rows[k].port in st.servers && st.servers[st.rows[k].port] == st.rows[k].id)
    && (forall port :: port in st.servers ==>
          exists k :: 0 <= k < |st.rows| && st.rows[k].port == port && st.rows[k].status == Running)
  }

  lemma RowIsFound(listed: seq<Row>, rows: seq<Row>, n: nat)
    requires |rows| == |listed| && n < |listed|
    requires forall i, j :: 0 <= i < j < |listed| ==> listed[i].id != listed[j].id
    requires forall k :: 0 <= k < |listed| ==> rows[k].id == listed[k].id
    ensures IndexOf(rows, listed[n].id, 0) == Some(n)
  {
    var found := IndexOf(rows, listed[n].id, 0);
    assert found.Some? && listed[found.value].id == listed[n].id;
  }

  lemma ClosesOneMore(rows: seq<Row>, now: int, n: nat)
    requires n < |rows|
    ensures forall port :: ClosedBySweep(rows, port, now, n + 1) <==>
              || ClosedBySweep(rows, port, now, n)
              || (rows[n].port == port && Overdue(rows[n], now) && rows[n].status == Running)
  {
  }

  /** Changing one row that no server vouches for, or whose server stays, keeps agreement. */
  lemma OneRowChanges(st: State, after: State, i: nat)
    requires Keyed(st) && i < |st.rows| == |after.rows| && after.rows == st.rows[i := after.rows[i]]
    requires after.rows[i].id == st.rows[i].id && after.rows[i].port == st.rows[i].port
    requires Agrees(st)
    requires forall port :: port != st.rows[i].port ==>
               (port in after.servers <==> port in st.servers) &&
                   (port in st.servers ==> after.servers[port] == st.servers[port])
    requires after.rows[i].status == Running <==> st.rows[i].port in after.servers
    requires st.rows[i].port in after.servers ==> after.servers[st.rows[i].port] == st.rows[i].id
    ensures Keyed(after) && Agrees(after)
  {
    forall k | 0 <= k < |st.rows| && k != i ensures after.rows[k] == st.rows[k] && st.rows[k].port != st.rows[i].port {
      assert k < i || i < k;
    }
    forall port | port in after.servers
      ensures exists k :: 0 <= k < |after.rows| && after.rows[k].port == port && after.rows[k].status == Running
    {
      if port == st.rows[i].port {
        assert after.rows[i].port == port;
      } else {
        var k :| 0 <= k < |st.rows| && st.rows[k].port == port && st.rows[k].status == Running;
        assert after.rows[k] == st.rows[k];
      }
    }
  }

  /** In an agreeing state a port is served exactly while its own row runs. */
  lemma ServedMeansRunning(st: State, i: nat)
    requires Keyed(st) && Agrees(st) && i < |st.rows|
    ensures st.rows[i].port in st.servers <==> st.rows[i].status == Running
    ensures st.rows[i].port in st.servers ==> st.servers[st.rows[i].port] == st.rows[i].id
  {
    if st.rows[i].port in st.servers {
      var k :| 0 <= k < |st.rows| && st.rows[k].port == st.rows[i].port && st.rows[k].status == Running;
      assert k == i || k < i || i < k;
    }
  }

  datatype Op =
    | StartOp(id: string, now: int, listens: bool)
    | StopOp(id: string)
    | ExpireOp(id: string, now: int)
    | SweepOp(now: int)
    | CreateOp(id: string, port: int, expiresAt: Option<int>)
    | DeleteOp(id: string)

  function Do(st: State, op: Op): State {
    match op
    case StartOp(id, now, listens) => Start(st, id, now, listens)
    case StopOp(id) => Stop(st, id)
    case ExpireOp(id, now) => Expire(st, id, now)
    case SweepOp(now) => Sweep(st, now)
    case CreateOp(id, port, expiresAt) => Create(st, id, port, expiresAt)
    case DeleteOp(id) => Delete(st, id)
  }

  /** New rows have fresh ids. */
  predicate Legal(st: State, op: Op) {
    op.CreateOp? ==> forall k :: 0 <= k < |st.rows| ==> st.rows[k].id != op.id
  }

  lemma StartKeeps(st: State, i: nat, now: int, listens: bool)
    requires Keyed(st) && Agrees(st) && i < |st.rows|
    ensures Keyed(StartAt(st, i, now, listens)) && Agrees(StartAt(st, i, now, listens))
  {
    ServedMeansRunning(st, i);
    OneRowChanges(st, StartAt(st, i, now, listens), i);
  }

  lemma CloseKeeps(st: State, i: nat, r: Row)
    requires Keyed(st) && Agrees(st) && i < |st.rows|
    requires r.id == st.rows[i].id && r.port == st.rows[i].port && r.status != Running
    ensures Keyed(CloseAt(st, i, r)) && Agrees(CloseAt(st, i, r))
  {
    OneRowChanges(st, CloseAt(st, i, r), i);
  }

  lemma SweepKeeps(st: State, now: int)
    requires Keyed(st) && Agrees(st)
    ensures Keyed(Sweep(st, now)) && Agrees(Sweep(st, now))
  {
    var after := Sweep(st, now);
    forall k | 0 <= k < |st.rows| && after.rows[k].status == Running
      ensures after.rows[k].port in after.servers && after.servers[after.rows[k].port] == after.rows[k].id
    {
      assert forall j :: 0 <= j < |st.rows| && st.rows[j].port == st.rows[k].port ==> j == k;
    }
    forall port | port in after.servers
      ensures exists k :: 0 <= k < |after.rows| && after.rows[k].port == port && after.rows[k].status == Running
    {
      var k :| 0 <= k < |st.rows| && st.rows[k].port == port && st.rows[k].status == Running;
      assert after.rows[k] == st.rows[k];
    }
  }

  /** A row without a server goes away and leaves the rest as it was. */
  lemma RemovalKeeps(st: State, i: nat)
    requires Keyed(st) && Agrees(st) && i < |st.rows| && st.rows[i].status != Running
    ensures var after := st.(rows := st.rows[..i] + st.rows[i + 1..]); Keyed(after) && Agrees(after)
  {
    var after := st.(rows := st.rows[..i] + st.rows[i + 1..]);
    assert forall k :: 0 <= k < |after.rows| ==> after.rows[k] == st.rows[if k < i then k else k + 1];
    forall port | port in st.servers
      ensures exists k :: 0 <= k < |after.rows| && after.rows[k].port == port && after.rows[k].status == Running
    {
      var k :| 0 <= k < |st.rows| && st.rows[k].port == port && st.rows[k].status == Running;
      assert after.rows[if k < i then k else k - 1] == st.rows[k];
    }
  }

  lemma CreateKeeps(st: State, id: string, port: int, expiresAt: Option<int>)
    requires Keyed(st) && Agrees(st) && forall k :: 0 <= k < |st.rows| ==> st.rows[k].id != id
    ensures Keyed(Create(st, id, port, expiresAt)) && Agrees(Create(st, id, port, expiresAt))
  {
    var after := Create(st, id, port, expiresAt);
    forall p | p in st.servers
      ensures exists k :: 0 <= k < |after.rows| && after.rows[k].port == p && after.rows[k].status == Running
    {
      var k :| 0 <= k < |st.rows| && st.rows[k].port == p && st.rows[k].status == Running;
      assert after.rows[k] == st.rows[k];
    }
  }

  lemma StepKeepsAgreement(st: State, op: Op)
    requires Keyed(st) && Agrees(st) && Legal(st, op)
    ensures Keyed(Do(st, op)) && Agrees(Do(st, op))
  {
    match op
    case StartOp(id, now, listens) =>
      var i := IndexOf(st.rows, id, 0);
      if i.Some? {
        StartKeeps(st, i.value, now, listens);
      }
    case StopOp(id) => StopKeeps(st, id);
    case ExpireOp(id, now) =>
      var i := IndexOf(st.rows, id, 0);
      if i.Some? {
        CloseKeeps(st, i.value, Retired(st.rows[i.value], now));
      }
    case SweepOp(now) => SweepKeeps(st, now);
    case CreateOp(id, port, expiresAt) => CreateKeeps(st, id, port, expiresAt);
    case DeleteOp(id) =>
      StopKeeps(st, id);
      var i := IndexOf(st.rows, id, 0);
      if i.Some? {
        RemovalKeeps(Stop(st, id), i.value);
      }
  }

  lemma StopKeeps(st: State, id: string)
    requires Keyed(st) && Agrees(st)
    ensures Keyed(Stop(st, id)) && Agrees(Stop(st, id))
  {
    var i := IndexOf(st.rows, id, 0);
    if i.Some? {
      CloseKeeps(st, i.value, st.rows[i.value].(status := Stopped));
    }
  }

  // ----- from start-up on

  /** Half-way through restoring, the rows done agree with the servers and no later row has one. */
  ghost predicate HalfRestored(st: State, n: nat)
    requires n <= |st.rows|
  {
    && (forall k :: 0 <= k < n && st.rows[k].status == Running ==>
          st.rows[k].port in st.servers && st.servers[st.rows[k].port] == st.rows[k].id)
    && (forall port :: port in st.servers ==>
          exists k :: 0 <= k < n && st.rows[k].port == port && st.rows[k].status == Running)
  }

  lemma RestoreOne(before: State, after: State, n: nat)
    requires Keyed(before) && n < |before.rows| && HalfRestored(before, n)
    requires |after.rows| == |before.rows| && after.rows == before.rows[n := after.rows[n]]
    requires after.rows[n].id == before.rows[n].id && after.rows[n].port == before.rows[n].port
    requires if after.rows[n].status == Running
             then after.servers == before.servers[before.rows[n].port := before.rows[n].id]
             else after.servers == before.servers
    ensures HalfRestored(after, n + 1)
  {
    forall port | port in after.servers
      ensures exists k :: 0 <= k < n + 1 && after.rows[k].port == port && after.rows[k].status == Running
    {
      if port in before.servers {
        var k :| 0 <= k < n && before.rows[k].port == port && before.rows[k].status == Running;
        assert after.rows[k] == before.rows[k];
      } else {
        assert after.rows[n].port == port;
      }
    }
  }

  /** No two rows share a port after restoring some of them. */
  lemma RestoreKeepsKeys(st: State, now: int, listens: seq<bool>, n: nat)
    requires Keyed(st) && n <= |st.rows| == |listens|
    ensures Keyed(Restore(st, now, listens, n))
  {
    var after := Restore(st, now, listens, n);
    forall i, j | 0 <= i < j < |after.rows|
      ensures after.rows[i].id != after.rows[j].id && after.rows[i].port != after.rows[j].port
    {
      assert st.rows[i].id != st.rows[j].id;
    }
  }

  lemma {:induction false} RestoreAgrees(st: State, now: int, listens: seq<bool>, n: nat)
    requires Keyed(st) && st.servers == map[] && n <= |st.rows| == |listens|
    ensures Keyed(Restore(st, now, listens, n)) && HalfRestored(Restore(st, now, listens, n), n)
  {
    if n > 0 {
      RestoreAgrees(st, now, listens, n - 1);
      var before, after := Restore(st, now, listens, n - 1), Restore(st, now, listens, n);
      RestoreOne(before, after, n - 1);
    }
    RestoreKeepsKeys(st, now, listens, n);
  }

  function After(st: State, ops: seq<Op>, n: nat): State
    requires n <= |ops|
  {
    if n == 0 then st else Do(After(st, ops, n - 1), ops[n - 1])
  }

  predicate LegalRun(st: State, ops: seq<Op>, n: nat)
    requires n <= |ops|
  {
    n == 0 || (LegalRun(st, ops, n - 1) && Legal(After(st, ops, n - 1), ops[n - 1]))
  }

  lemma {:induction false} RunKeepsAgreement(st: State, ops: seq<Op>, n: nat)
    requires Keyed(st) && Agrees(st) && n <= |ops| && LegalRun(st, ops, n)
    ensures Keyed(After(st, ops, n)) && Agrees(After(st, ops, n))
  {
    if n > 0 {
      RunKeepsAgreement(st, ops, n - 1);
      StepKeepsAgreement(After(st, ops, n - 1), ops[n - 1]);
    }
  }

  /** Whatever the table held at start-up, once its proxies are restored the served ports are exactly those of the
      running rows, each server under its row's id, after every serial run. */
  lemma ManagerAgrees(rows: seq<Row>, now: int, listens: seq<bool>, ops: seq<Op>, n: nat)
    requires Keyed(State(rows, map[])) && |listens| == |rows| && n <= |ops|
    requires LegalRun(Restore(State(rows, map[]), now, listens, |rows|), ops, n)
    ensures var st := After(Restore(State(rows, map[]), now, listens, |rows|), ops, n);
            && Keyed(st)
            && (forall port :: port in st.servers <==>
                  exists k :: 0 <= k < |st.rows| && st.rows[k].port == port && st.rows[k].status == Running)
            && (forall k :: 0 <= k < |st.rows| && st.rows[k].port in st.servers ==>
                st.servers[st.rows[k].port] == st.rows[k].id)
  {
    var restored := Restore(State(rows, map[]), now, listens, |rows|);
    RestoreAgrees(State(rows, map[]), now, listens, |rows|);
    assert Agrees(restored);
    RunKeepsAgreement(restored, ops, n);
    var st := After(restored, ops, n);
    forall k | 0 <= k < |st.rows| && st.rows[k].port in st.servers ensures st.servers[st.rows[k].port] ==
        st.rows[k].id {
      ServedMeansRunning(st, k);
    }
  }

  /** A sweep leaves no overdue row running or stopped, touches only such rows, and no server of an overdue row
      survives it. */
  lemma SweepClears(st: State, now: int)
    requires Keyed(st) && Agrees(st)
    ensures var after := Sweep(st, now);
            && (forall k :: 0 <= k < |after.rows| && Overdue(after.rows[k], now) ==>
                  after.rows[k].status != Running && after.rows[k].status != Stopped &&
                      after.rows[k].port !in after.servers)
            && (forall k :: 0 <= k < |st.rows| && !Overdue(st.rows[k], now) ==>
                  after.rows[k] == st.rows[k] && (st.rows[k].port in after.servers <==> st.rows[k].port in st.servers))
  {
    SweepKeeps(st, now);
    forall k | 0 <= k < |st.rows| ensures st.rows[k].port in Sweep(st, now).servers <==>
        Sweep(st, now).rows[k].status == Running {
      ServedMeansRunning(Sweep(st, now), k);
      ServedMeansRunning(st, k);
    }
    forall k | 0 <= k < |st.rows| ensures st.rows[k].port in st.servers <==> st.rows[k].status == Running {
      ServedMeansRunning(st, k);
    }
  }

  /** Starting succeeds exactly when the proxy ends up running under its own server. */
  lemma StartSucceedsExactly(st: State, id: string, now: int, listens: bool)
    requires Keyed(st) && Agrees(st)
    ensures var i, after := IndexOf(st.rows, id, 0), Start(st, id, now, listens);
            Started(st, id, now, listens).None? <==>
            i.Some? && after.rows[i.value].status == Running &&
            st.rows[i.value].port in after.servers && after.servers[st.rows[i.value].port] == id
  {
    var i := IndexOf(st.rows, id, 0);
    if i.Some? {
      ServedMeansRunning(st, i.value);
    }
  }
}
