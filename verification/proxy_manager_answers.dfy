/** What each operation of the proxy manager answers and leaves behind, said of the row and the ports alone. */
module ProxyManagerAnswers {
  import opened Wrappers
  import opened Quality
  import opened ProxyManager

  lemma RowIsUnique(st: State, i: nat)
    requires Keyed(st) && i < |st.rows|
    ensures IndexOf(st.rows, st.rows[i].id, 0) == Some(i)
  {
    RowIsFound(st.rows, st.rows, i);
  }

  /** Starting answers without a fault exactly when the port is served already, or the row is not past its expiry and
      the port opens; the row then runs, under a server of its own if there was none. Otherwise the first reason that
      applies is the fault and decides the status. */
  lemma StartAnswers(st: State, i: nat, now: int, listens: bool)
    requires Keyed(st) && i < |st.rows|
    ensures var r := st.rows[i];
            var st1, fault := Start(st, r.id, now, listens), Started(st, r.id, now, listens);
            var late := r.expiresAt.Some? && now > r.expiresAt.value;
            && (fault == None <==> r.port in st.servers || (!late && listens))
            && (r.port in st.servers ==> st1 == State(st.rows[i := r.(status := Running)], st.servers))
            && (r.port !in st.servers && late ==>
                  fault == Some(HasExpired) &&
                  st1 == State(st.rows[i := r.(status := Expired, revokedAt := Some(now))], st.servers))
            && (r.port !in st.servers && !late && !listens ==>
                  fault == Some(ListenFailed) && st1 == State(st.rows[i := r.(status := Errored)], st.servers))
            && (r.port !in st.servers && !late && listens ==>
                  st1 == State(st.rows[i := r.(status := Running)], st.servers[r.port := r.id]))
  {
    RowIsUnique(st, i);
  }

  /** An id that is not in the table is not found, and nothing changes; no operation makes up a row. */
  lemma UnknownAnswers(st: State, id: string, now: int, listens: bool)
    requires forall i :: 0 <= i < |st.rows| ==> st.rows[i].id != id
    ensures Started(st, id, now, listens) == Some(NotFound) && Start(st, id, now, listens) == st
    ensures Stop(st, id) == st && Expire(st, id, now) == st && Delete(st, id) == st
  {
  }

  /** In an agreeing state a start without fault leaves the port served under the row's own id. */
  lemma StartedIsServed(st: State, i: nat, now: int, listens: bool)
    requires Keyed(st) && Agrees(st) && i < |st.rows|
    ensures var r, st1 := st.rows[i], Start(st, st.rows[i].id, now, listens);
            st.rows[i].port in st.servers || (!(r.expiresAt.Some? && now > r.expiresAt.value) && listens) ==>
              r.port in st1.servers && st1.servers[r.port] == r.id && st1.rows[i].status == Running
  {
    StartAnswers(st, i, now, listens);
    ServedMeansRunning(st, i);
  }

  /** Stopping and expiring close the row's port and change nothing but its status, and when expiring its
      revocation. */
  lemma StopAnswers(st: State, i: nat, now: int)
    requires Keyed(st) && i < |st.rows|
    ensures var r := st.rows[i];
            && Stop(st, r.id) == State(st.rows[i := r.(status := Stopped)], st.servers - {r.port})
            && Expire(st, r.id, now) ==
               State(st.rows[i := r.(status := Expired, revokedAt := Some(now))], st.servers - {r.port})
            && Delete(st, r.id) == State(st.rows[..i] + st.rows[i + 1..], st.servers - {r.port})
  {
    RowIsUnique(st, i);
    var stopped := Stop(st, st.rows[i].id);
    assert stopped.rows[..i] == st.rows[..i] && stopped.rows[i + 1..] == st.rows[i + 1..];
  }

  /** A new proxy is stopped and not revoked, and refused exactly for a port that a row has. */
  lemma CreateAnswers(st: State, id: string, port: int, expiresAt: Option<int>)
    ensures Create(st, id, port, expiresAt).servers == st.servers
    ensures Create(st, id, port, expiresAt).rows ==
            if forall k :: 0 <= k < |st.rows| ==> st.rows[k].port != port
            then st.rows + [Row(id, port, Stopped, expiresAt, None)] else st.rows
  {
  }

  /** A sweep expires exactly the running and stopped rows past their expiry, and closes exactly the ports of the
      running ones. */
  lemma SweepAnswers(st: State, now: int, i: nat, port: int)
    requires i < |st.rows|
    ensures var r := st.rows[i];
            |Sweep(st, now).rows| == |st.rows| &&
            Sweep(st, now).rows[i] ==
            if r.expiresAt.Some? && now > r.expiresAt.value && (r.status == Running || r.status == Stopped)
            then r.(status := Expired, revokedAt := Some(now)) else r
    ensures var closed := exists k :: 0 <= k < |st.rows| && st.rows[k].port == port && st.rows[k].status == Running &&
                                      st.rows[k].expiresAt.Some? && now > st.rows[k].expiresAt.value;
            && (port in Sweep(st, now).servers <==> port in st.servers && !closed)
            && (port in Sweep(st, now).servers ==> Sweep(st, now).servers[port] == st.servers[port])
  {
  }

  // ----- start-up

  /** What restoring makes of one row, its port opening or not. */
  predicate RestoredTo(r: Row, r1: Row, now: int, listens: bool) {
    if r.expiresAt.Some? && now > r.expiresAt.value then r1 == r.(status := Expired, revokedAt := Some(now))
    else if r.status == Running && !listens then r1 == r.(status := Errored)
    else r1 == r
  }

  predicate ComesUp(r: Row, now: int, listens: bool) {
    r.status == Running && !(r.expiresAt.Some? && now > r.expiresAt.value) && listens
  }

  /** The first n rows are as restoring leaves them, and the ports served are those of the rows that came up. */
  ghost predicate RestoredUpto(st: State, after: State, now: int, listens: seq<bool>, n: nat)
    requires n <= |st.rows| == |listens|
  {
    && |after.rows| == |st.rows|
    && (forall i :: 0 <= i < n ==> RestoredTo(st.rows[i], after.rows[i], now, listens[i]))
    && (forall i :: 0 <= i < n && ComesUp(st.rows[i], now, listens[i]) ==>
          st.rows[i].port in after.servers && after.servers[st.rows[i].port] == st.rows[i].id)
    && (forall port :: port in after.servers ==>
          exists i :: 0 <= i < n && st.rows[i].port == port && ComesUp(st.rows[i], now, listens[i]))
  }

  lemma RestoreNext(st: State, before: State, after: State, now: int, listens: seq<bool>, n: nat)
    requires Keyed(st) && n < |st.rows| == |listens| && RestoredUpto(st, before, now, listens, n)
    requires var r := st.rows[n];
             before.rows[n] == r &&
             after == if r.expiresAt.Some? && now > r.expiresAt.value
                      then before.(rows := before.rows[n := r.(status := Expired, revokedAt := Some(now))])
                      else if r.status == Running then StartAt(before, n, now, listens[n]) else before
    ensures RestoredUpto(st, after, now, listens, n + 1)
  {
    var r := st.rows[n];
    forall port | port in after.servers
      ensures exists i :: 0 <= i < n + 1 && st.rows[i].port == port && ComesUp(st.rows[i], now, listens[i])
    {
      if port in before.servers {
        var i :| 0 <= i < n && st.rows[i].port == port && ComesUp(st.rows[i], now, listens[i]);
        assert i < n + 1;
      } else {
        assert st.rows[n].port == port;
      }
    }
  }

  lemma RestoreUnfolds(st: State, now: int, listens: seq<bool>, n: nat)
    requires 0 < n <= |st.rows| == |listens|
    ensures var r, before := st.rows[n - 1], Restore(st, now, listens, n - 1);
            before.rows[n - 1] == r &&
            Restore(st, now, listens, n) ==
            if r.expiresAt.Some? && now > r.expiresAt.value
            then before.(rows := before.rows[n - 1 := r.(status := Expired, revokedAt := Some(now))])
            else if r.status == Running then StartAt(before, n - 1, now, listens[n - 1]) else before
  {
  }

  lemma {:induction false} RestoreGoesOn(st: State, now: int, listens: seq<bool>, n: nat)
    requires Keyed(st) && st.servers == map[] && n <= |st.rows| == |listens|
    ensures RestoredUpto(st, Restore(st, now, listens, n), now, listens, n)
  {
    if n > 0 {
      RestoreGoesOn(st, now, listens, n - 1);
      RestoreUnfolds(st, now, listens, n);
      RestoreNext(st, Restore(st, now, listens, n - 1), Restore(st, now, listens, n), now, listens, n - 1);
    }
  }

  /** At start-up every running row that is not past its expiry and whose port opens is served again under its id, and
      no other port is; rows past their expiry are expired, and running ones whose port does not open are in error. */
  lemma RestoreServesExactly(st: State, now: int, listens: seq<bool>, i: nat, port: int)
    requires Keyed(st) && st.servers == map[] && |st.rows| == |listens| && i < |st.rows|
    ensures var r, after := st.rows[i], Restore(st, now, listens, |st.rows|);
            var late := r.expiresAt.Some? && now > r.expiresAt.value;
            && (late ==> after.rows[i] == r.(status := Expired, revokedAt := Some(now)))
            && (!late && r.status == Running && !listens[i] ==> after.rows[i] == r.(status := Errored))
            && (!late && (r.status != Running || listens[i]) ==> after.rows[i] == r)
            && (!late && r.status == Running && listens[i] ==>
                  r.port in after.servers && after.servers[r.port] == r.id)
            && (port in after.servers ==>
                  exists k :: 0 <= k < |st.rows| && st.rows[k].port == port && st.rows[k].status == Running &&
                              !(st.rows[k].expiresAt.Some? && now > st.rows[k].expiresAt.value) && listens[k])
  {
    RestoreGoesOn(st, now, listens, |st.rows|);
  }
}
