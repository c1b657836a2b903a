/** The lockout with logins in flight together, whatever order their blocks are written in: a block held up may be
    written over a later one, and what the key can come to then is exactly known. */
module AbuseLateBlocks {
  import opened Wrappers
  import opened SlidingWindow
  import opened Abuse
  import opened AbuseRaces

  /** 1 + 2 + ... + k. */
  function Tri(k: nat): nat {
    if k == 0 then 0 else k + Tri(k - 1)
  }

  lemma {:induction false} TriGrows(j: nat, k: nat)
    requires j <= k
    ensures Tri(j) <= Tri(k)
    decreases k
  {
    if j < k {
      TriGrows(j, k - 1);
    }
  }

  // ----- one window of ten minutes, up to t

  /** The logins whose block, once written, is over before the window is. */
  function Stale(flight: map<nat, Phase>, t: int): set<nat> {
    set id | id in flight && flight[id].Filling? && flight[id].now + 10 * MINUTE <= t
  }

  /** A block is in force for the rest of the window. */
  predicate Shut(s: Race, t: int) {
    s.key.until.Some? && s.key.until.value > t
  }

  /** From twenty failures on, those in the window, those that logins in flight may add, and those that may follow
      while no block shuts it, leave to each stale block as many as there are logins not stale when it is written. */
  predicate Leaves(count: nat, trying: nat, stale: nat, flying: nat, shut: bool, k: nat) {
    count <= 19 ||
    (stale <= k && flying <= k && count + trying + (if shut then 0 else k - flying) <= 19 + Tri(k - stale))
  }

  ghost predicate Room(s: Race, clock: int, k: nat, t: int) {
    if clock > t then TenMinutesTo(s.times, t) <= 19 + Tri(k)
    else Leaves(TenMinutesTo(s.times, t), |TryingIn(s.flight)|, |Stale(s.flight, t)|, |s.flight|, Shut(s, t), k)
  }

  ghost predicate Contained(s: Race, clock: int, k: nat, t: int) {
    Recorded(s, clock) && Flying(s, clock) && |s.flight| <= k && Room(s, clock, k, t)
  }

  lemma FewerThanKeys(ids: set<nat>, flight: map<nat, Phase>)
    requires ids <= flight.Keys
    ensures |ids| <= |flight|
  {
    var others := flight.Keys - ids;
    assert flight.Keys == ids + others && |flight.Keys| == |flight|;
  }

  lemma TryingOrStale(flight: map<nat, Phase>, t: int)
    ensures |TryingIn(flight)| + |Stale(flight, t)| <= |flight|
  {
    FewerThanKeys(TryingIn(flight) + Stale(flight, t), flight);
    assert TryingIn(flight) !! Stale(flight, t);
  }

  /** Once the window is past, nothing is added to it. */
  lemma RoomStays(s: Race, clock: int, k: nat, t: int)
    requires Room(s, clock, k, t)
    ensures TenMinutesTo(s.times, t) <= 19 + Tri(k)
  {
    if clock <= t && TenMinutesTo(s.times, t) > 19 {
      TriGrows(k - |Stale(s.flight, t)|, k);
    }
  }

  lemma AskJoins(s: Race, now: int, clock: int, t: int)
    requires Recorded(s, clock) && Flying(s, clock) && clock <= now && !Blocked(s.key, now)
    ensures var s1 := Apply(s, Ask(now));
            && |s1.flight| == |s.flight| + 1 && |TryingIn(s1.flight)| == |TryingIn(s.flight)| + 1
            && Stale(s1.flight, t) == Stale(s.flight, t)
  {
    var s1, id := Apply(s, Ask(now)), |s.asks|;
    assert id !in s.flight && s1.flight.Keys == s.flight.Keys + {id};
    assert |s1.flight.Keys| == |s1.flight| && |s.flight.Keys| == |s.flight|;
    assert TryingIn(s1.flight) == TryingIn(s.flight) + {id};
  }

  lemma AskStaysContained(s: Race, now: int, clock: int, k: nat, t: int)
    requires Contained(s, clock, k, t) && clock <= now && |Apply(s, Ask(now)).flight| <= k
    ensures Contained(Apply(s, Ask(now)), now, k, t)
  {
    RoomStays(s, clock, k, t);
    if !Blocked(s.key, now) {
      AskKeepsRecorded(s, now, clock);
      AskJoins(s, now, clock, t);
    }
  }

  /** A login leaves; what it was does not matter to the others. */
  lemma LeavingFlight(flight: map<nat, Phase>, id: nat, t: int)
    requires id in flight
    ensures |flight - {id}| == |flight| - 1
    ensures TryingIn(flight - {id}) == TryingIn(flight) - {id} && Stale(flight - {id}, t) == Stale(flight, t) - {id}
  {
    assert (flight - {id}).Keys == flight.Keys - {id};
    assert |(flight - {id}).Keys| == |flight - {id}| && |flight.Keys| == |flight|;
  }

  lemma LeavingKeepsRecorded(s: Race, id: nat, clock: int)
    requires Recorded(s, clock) && Flying(s, clock) && (Enabled(s, Settle(id)) || Enabled(s, Block(id)))
    ensures var s1 := Apply(s, if s.flight[id].Trying? then Settle(id) else Block(id));
            Recorded(s1, clock) && Flying(s1, clock)
  {
  }

  function One(b: bool): nat {
    if b then 1 else 0
  }

  lemma SettleLeaves(s: Race, id: nat, t: int)
    requires Enabled(s, Settle(id))
    ensures var s1 := Apply(s, Settle(id));
            && |s1.flight| == |s.flight| - 1 && |TryingIn(s1.flight)| == |TryingIn(s.flight)| - 1
            && |Stale(s1.flight, t)| == |Stale(s.flight, t)| && |s.flight| > 0 && |TryingIn(s.flight)| > 0
            && s1.times == s.times && s1.key == s.key
  {
    LeavingFlight(s.flight, id, t);
    assert id in TryingIn(s.flight) && id !in Stale(s.flight, t);
  }

  lemma SettleStaysInRoom(s: Race, id: nat, clock: int, k: nat, t: int)
    requires Room(s, clock, k, t) && |s.flight| <= k && Enabled(s, Settle(id))
    ensures Room(Apply(s, Settle(id)), clock, k, t) && |Apply(s, Settle(id)).flight| <= k
  {
    SettleLeaves(s, id, t);
  }

  lemma BlockOpens(s: Race, id: nat, t: int)
    requires Enabled(s, Block(id))
    ensures var s1 := Apply(s, Block(id));
            && |s1.flight| == |s.flight| - 1 && |s.flight| > 0
            && |TryingIn(s1.flight)| == |TryingIn(s.flight)|
            && |Stale(s1.flight, t)| == |Stale(s.flight, t)| - One(!Shut(s1, t))
            && (!Shut(s1, t) ==> |Stale(s.flight, t)| > 0)
            && s1.times == s.times
  {
    LeavingFlight(s.flight, id, t);
    assert id !in TryingIn(s.flight);
    assert id in Stale(s.flight, t) <==> !Shut(Apply(s, Block(id)), t);
  }

  /** A stale block reopens the window to as many logins as are not stale. */
  lemma BlockLeaves(count: nat, trying: nat, stale: nat, flying: nat, shut: bool, k: nat)
    requires Leaves(count, trying, stale, flying, shut, k) && flying > 0 && trying + stale <= flying
    ensures Leaves(count, trying, stale, flying - 1, true, k)
    ensures stale > 0 ==> Leaves(count, trying, stale - 1, flying - 1, false, k)
  {
  }

  lemma BlockStaysInRoom(s: Race, id: nat, clock: int, k: nat, t: int)
    requires Room(s, clock, k, t) && |s.flight| <= k && Enabled(s, Block(id))
    ensures Room(Apply(s, Block(id)), clock, k, t) && |Apply(s, Block(id)).flight| <= k
  {
    BlockOpens(s, id, t);
    TryingOrStale(s.flight, t);
    if clock <= t {
      BlockLeaves(TenMinutesTo(s.times, t), |TryingIn(s.flight)|, |Stale(s.flight, t)|, |s.flight|, Shut(s, t), k);
    }
  }

  lemma {:induction false} CountInOfPrefix(a: seq<int>, b: seq<int>, n: nat, from: int, to: int)
    requires n <= |a| && n <= |b| && forall i :: 0 <= i < n ==> a[i] == b[i]
    ensures CountInUpto(a, n, from, to) == CountInUpto(b, n, from, to)
  {
    if n > 0 {
      CountInOfPrefix(a, b, n - 1, from, to);
    }
  }

  lemma WindowAppends(times: seq<int>, now: int, t: int)
    ensures TenMinutesTo(times + [now], t) == TenMinutesTo(times, t) + if t - 10 * MINUTE < now <= t then 1 else 0
  {
    CountInOfPrefix(times + [now], times, |times|, t - 10 * MINUTE, t);
  }

  /** A failure inside the window fills its own ten minutes if nineteen are in the window already. */
  lemma WindowFills(times: seq<int>, now: int, t: int)
    requires (forall i :: 0 <= i < |times| ==> times[i] <= now) && now <= t && TenMinutesTo(times, t) >= 19
    ensures CountAfter(times, now - 10 * MINUTE) >= 19
  {
    CountInIsAfter(times, |times|, t - 10 * MINUTE, t);
    CountAfterShrinks(times, |times|, now - 10 * MINUTE, t - 10 * MINUTE);
  }

  lemma EarlyIsOutside(times: seq<int>, t: int)
    requires forall i :: 0 <= i < |times| ==> times[i] <= t - 10 * MINUTE
    ensures TenMinutesTo(times, t) == 0
  {
    CountInIsAfter(times, |times|, t - 10 * MINUTE, t);
    NoneAfter(times, |times|, t - 10 * MINUTE);
  }

  /** The twentieth failure of the window, or a later one: its login is in flight still, and not stale. */
  lemma FillingStaysInRoom(s: Race, id: nat, now: int, clock: int, k: nat, t: int)
    requires Contained(s, clock, k, t) && clock <= now && Enabled(s, Record(id, now))
    requires t - 10 * MINUTE < now <= t && TenMinutesTo(s.times, t) >= 19
    ensures Room(Apply(s, Record(id, now)), now, k, t) && |Apply(s, Record(id, now)).flight| <= k
  {
    WindowAppends(s.times, now, t);
    WindowFills(s.times, now, t);
    RecordsNext(s, id, now, clock, t - 10 * MINUTE, CountAfter(s.times, t - 10 * MINUTE));
    var s1 := Apply(s, Record(id, now));
    OneLessTries(s.flight, id, now);
    assert Stale(s1.flight, t) == Stale(s.flight, t);
    if TenMinutesTo(s.times, t) == 19 {
      FewerThanKeys(TryingIn(s1.flight) + Stale(s1.flight, t) + {id}, s1.flight);
      assert |TryingIn(s1.flight) + Stale(s1.flight, t) + {id}| ==
             |TryingIn(s1.flight)| + |Stale(s1.flight, t)| + 1;
    }
  }

  lemma RecordStaysInRoom(s: Race, id: nat, now: int, clock: int, k: nat, t: int)
    requires Contained(s, clock, k, t) && clock <= now && Enabled(s, Record(id, now))
    ensures Room(Apply(s, Record(id, now)), now, k, t) && |Apply(s, Record(id, now)).flight| <= k
  {
    RoomStays(s, clock, k, t);
    WindowAppends(s.times, now, t);
    FlightShrinks(s, id, now);
    if now <= t - 10 * MINUTE {
      EarlyIsOutside(s.times, t);
    } else if now <= t && TenMinutesTo(s.times, t) >= 19 {
      FillingStaysInRoom(s, id, now, clock, k, t);
    }
  }

  lemma FlightShrinks(s: Race, id: nat, now: int)
    requires Enabled(s, Record(id, now))
    ensures |Apply(s, Record(id, now)).flight| <= |s.flight|
  {
    FewerThanKeys(Apply(s, Record(id, now)).flight.Keys, s.flight);
    assert |Apply(s, Record(id, now)).flight.Keys| == |Apply(s, Record(id, now)).flight|;
  }

  /** Every step keeps the window contained, in whatever order blocks are written. */
  lemma StepStaysContained(s: Race, step: Step, clock: int, k: nat, t: int)
    requires Contained(s, clock, k, t) && Enabled(s, step) && clock <= Clock(step, clock)
    requires |Apply(s, step).flight| <= k
    ensures Contained(Apply(s, step), Clock(step, clock), k, t)
  {
    match step
    case Ask(now) => AskStaysContained(s, now, clock, k, t);
    case Settle(id) =>
      LeavingKeepsRecorded(s, id, clock);
      SettleStaysInRoom(s, id, clock, k, t);
    case Record(id, now) =>
      RecordKeepsRecorded(s, id, now, clock);
      RecordStaysInRoom(s, id, now, clock, k, t);
    case Block(id) =>
      LeavingKeepsRecorded(s, id, clock);
      BlockStaysInRoom(s, id, clock, k, t);
  }

  lemma {:induction false} RunStaysContained(s: Race, steps: seq<Step>, clock: int, k: nat, t: int) returns (end: int)
    requires Contained(s, clock, k, t) && Runs(s, steps) && Timely(steps, clock) && AtMostInFlight(s, steps, k)
    ensures Contained(After(s, steps), end, k, t)
    decreases |steps|
  {
    end := clock;
    if steps != [] {
      StepStaysContained(s, steps[0], clock, k, t);
      end := RunStaysContained(Apply(s, steps[0]), steps[1..], Clock(steps[0], clock), k, t);
    }
  }

  // ----- every run

  lemma FreshIsContained(s: Race, clock: int, k: nat, t: int)
    requires Fresh(s, clock)
    ensures Contained(s, clock, k, t)
  {
  }

  lemma RunIsWithin(s: Race, steps: seq<Step>, clock: int, k: nat, t: int)
    requires Fresh(s, clock) && Runs(s, steps) && Timely(steps, clock) && AtMostInFlight(s, steps, k)
    ensures TenMinutesTo(After(s, steps).times, t) <= 19 + Tri(k)
    ensures var s1 := After(s, steps); Ordered(s1.times) && s1.key.log == Log(s1.times, |s1.times|, HOUR)
  {
    FreshIsContained(s, clock, k, t);
    var end := RunStaysContained(s, steps, clock, k, t);
    RoomStays(After(s, steps), end, k, t);
  }

  lemma {:induction false} CountInGrows(times: seq<int>, n: nat, from: int, to: int)
    requires n <= |times|
    ensures CountInUpto(times, n, from, to) <= CountIn(times, from, to)
    decreases |times| - n
  {
    if n < |times| {
      CountInGrows(times, n + 1, from, to);
    }
  }

  /** What holds of every window holds of the ten minutes before each failure. */
  lemma EveryWindowHolds(times: seq<int>, limit: nat)
    requires Ordered(times) && forall t :: TenMinutesTo(times, t) <= limit
    ensures TenMinutesHold(times, limit)
  {
    forall n | 0 < n <= |times| ensures Recent(times, n) <= limit {
      var t := times[n - 1];
      CountInIsAfter(times, n, t - 10 * MINUTE, t);
      CountInGrows(times, n, t - 10 * MINUTE, t);
      assert TenMinutesTo(times, t) <= limit;
    }
  }

  lemma LogIsWithin(times: seq<int>, limit: nat)
    requires Ordered(times) && forall t :: TenMinutesTo(times, t) <= limit
    ensures |Log(times, |times|, HOUR)| <= 6 * limit
  {
    if times != [] {
      EveryWindowHolds(times, limit);
      HourCountAgrees(times, |times|);
      AnyHour(times, limit, times[|times| - 1]);
    }
  }

  lemma FreshRunIsBounded(s: Race, steps: seq<Step>, clock: int, k: nat, t: int)
    requires Fresh(s, clock) && Runs(s, steps) && Timely(steps, clock) && AtMostInFlight(s, steps, k)
    ensures var s1 := After(s, steps);
            TenMinutesTo(s1.times, t) <= 19 + Tri(k) && |s1.key.log| <= 6 * (19 + Tri(k))
  {
    forall u ensures TenMinutesTo(After(s, steps).times, u) <= 19 + Tri(k) {
      RunIsWithin(s, steps, clock, k, u);
    }
    RunIsWithin(s, steps, clock, k, t);
    LogIsWithin(After(s, steps).times, 19 + Tri(k));
  }

  /** With at most k logins of the key in flight at once, whatever order their blocks are written in, no ten minutes
      see more than 19 + (1 + ... + k) recorded failures, and the log never holds more than six times that. */
  lemma LockoutHoldsInAnyOrder(steps: seq<Step>, clock: int, k: nat, t: int)
    requires Runs(QUIET, steps) && Timely(steps, clock) && AtMostInFlight(QUIET, steps, k)
    ensures var s := After(QUIET, steps);
            CountIn(s.times, t - 10 * MINUTE, t) <= 19 + Tri(k) && |s.key.log| <= 6 * (19 + Tri(k))
  {
    assert Fresh(QUIET, clock);
    FreshRunIsBounded(QUIET, steps, clock, k, t);
  }

  // ----- a run that comes to it

  function FillingAt(flight: map<nat, Phase>, now: int): set<nat> {
    set id | id in flight && flight[id] == Filling(now)
  }

  /** So many logins' blocks are held up since `from`, so many logins have still to fail, and so many failures have
      just filled their ten minutes; there are no others. */
  ghost predicate Mix(flight: map<nat, Phase>, from: int, now: int, held: nat, trying: nat, newer: nat) {
    && from != now
    && (forall id :: id in flight ==> flight[id] == Trying || flight[id] == Filling(from) || flight[id] == Filling(now))
    && |FillingAt(flight, from)| == held && |TryingIn(flight)| == trying && |FillingAt(flight, now)| == newer
    && |flight| == held + trying + newer
  }

  lemma MixAsks(flight: map<nat, Phase>, id: nat, from: int, now: int, held: nat, trying: nat, newer: nat)
    requires Mix(flight, from, now, held, trying, newer) && id !in flight
    ensures Mix(flight[id := Trying], from, now, held, trying + 1, newer)
  {
    var after := flight[id := Trying];
    assert TryingIn(after) == TryingIn(flight) + {id};
    assert FillingAt(after, from) == FillingAt(flight, from) && FillingAt(after, now) == FillingAt(flight, now);
    assert |after| == |flight| + 1;
  }

  lemma MixFills(flight: map<nat, Phase>, id: nat, from: int, now: int, held: nat, trying: nat, newer: nat)
    requires Mix(flight, from, now, held, trying, newer) && id in TryingIn(flight)
    ensures trying > 0 && Mix(flight[id := Filling(now)], from, now, held, trying - 1, newer + 1)
  {
    var after := flight[id := Filling(now)];
    OneLessTries(flight, id, now);
    assert FillingAt(after, from) == FillingAt(flight, from) && FillingAt(after, now) == FillingAt(flight, now) + {id};
  }

  lemma MixBlocks(flight: map<nat, Phase>, id: nat, from: int, now: int, held: nat, trying: nat, newer: nat)
    requires Mix(flight, from, now, held, trying, newer) && id in flight && flight[id].Filling?
    ensures id in FillingAt(flight, now) ==> newer > 0 && Mix(flight - {id}, from, now, held, trying, newer - 1)
    ensures id in FillingAt(flight, from) ==> held > 0 && Mix(flight - {id}, from, now, held - 1, trying, newer)
  {
    var after := flight - {id};
    LeavingFlight(flight, id, 0);
    assert TryingIn(after) == TryingIn(flight);
    assert FillingAt(after, from) == FillingAt(flight, from) - {id};
    assert FillingAt(after, now) == FillingAt(flight, now) - {id};
  }

  /** Every slot whose block is not held up is filled, one failure each; q blocks are held up since `from`. */
  lemma {:induction false} RoundAsks(s: Race, from: int, now: int, k: nat, q: nat, trying: nat)
    requires q < k && q + trying <= k && from < now - 10 * MINUTE && Mix(s.flight, from, now, q, trying, 0)
    requires Stands(s, now, s.flight, now - 10 * MINUTE, 19 + Tri(k - q - 1)) && !Blocked(s.key, now)
    ensures Sees(s, now, k, 19 + Tri(k), false)
    decreases q, 2, k - q - trying
  {
    var n := 19 + Tri(k - q - 1);
    if q + trying < k {
      AskAlong(s, now, now, now - 10 * MINUTE, n, k, 19 + Tri(k), false);
      MixAsks(s.flight, |s.asks|, from, now, q, trying, 0);
      RoundAsks(Apply(s, Ask(now)), from, now, k, q, trying + 1);
    } else {
      RoundRecords(s, from, now, k, q, trying, n);
    }
  }

  lemma RoundRecordsOne(
    s: Race, from: int, now: int, k: nat, q: nat, trying: nat, newer: nat, n: nat, total: nat) returns (s1: Race)
    requires Stands(s, now, s.flight, now - 10 * MINUTE, n) && n >= 19 && |s.flight| <= k
    requires trying > 0 && Mix(s.flight, from, now, q, trying, newer)
    ensures Stands(s1, now, s1.flight, now - 10 * MINUTE, n + 1) && Mix(s1.flight, from, now, q, trying - 1, newer + 1)
    ensures Sees(s1, now, k, total, false) ==> Sees(s, now, k, total, false)
  {
    var id :| id in TryingIn(s.flight);
    FillAlong(s, id, now, now - 10 * MINUTE, n, k, total, false);
    MixFills(s.flight, id, from, now, q, trying, newer);
    s1 := Apply(s, Record(id, now));
  }

  lemma {:induction false} RoundRecords(s: Race, from: int, now: int, k: nat, q: nat, trying: nat, n: nat)
    requires Stands(s, now, s.flight, now - 10 * MINUTE, n) && from < now - 10 * MINUTE
    requires q < k && q + trying <= k && n >= 19 && n + trying == 19 + Tri(k - q)
    requires Mix(s.flight, from, now, q, trying, k - q - trying)
    ensures Sees(s, now, k, 19 + Tri(k), false)
    decreases q, 1, trying
  {
    if trying > 0 {
      var s1 := RoundRecordsOne(s, from, now, k, q, trying, k - q - trying, n, 19 + Tri(k));
      RoundRecords(s1, from, now, k, q, trying - 1, n + 1);
    } else if q == 0 {
      EndsHere(s, now, k, false);
    } else {
      RoundBlocks(s, from, now, k, q, k - q);
    }
  }

  lemma RoundBlocksOne(
    s: Race, id: nat, from: int, now: int, k: nat, q: nat, newer: nat, n: nat, total: nat) returns (s1: Race)
    requires Stands(s, now, s.flight, now - 10 * MINUTE, n) && |s.flight| <= k && from < now - 10 * MINUTE
    requires Mix(s.flight, from, now, q, 0, newer) && id in s.flight && s.flight[id].Filling?
    ensures Stands(s1, now, s1.flight, now - 10 * MINUTE, n)
    ensures s.flight[id].now == now ==> newer > 0 && Mix(s1.flight, from, now, q, 0, newer - 1)
    ensures s.flight[id].now == from ==>
              q > 0 && Mix(s1.flight, from, now, q - 1, 0, newer) && !Blocked(s1.key, now)
    ensures Sees(s1, now, k, total, false) ==> Sees(s, now, k, total, false)
  {
    BlockAlong(s, id, now, now - 10 * MINUTE, n, k, total);
    MixBlocks(s.flight, id, from, now, q, 0, newer);
    s1 := Apply(s, Block(id));
  }

  /** The newest blocks are written first, and then one held up, which lets the next logins in. */
  lemma {:induction false} RoundBlocks(s: Race, from: int, now: int, k: nat, q: nat, newer: nat)
    requires 0 < q && q + newer <= k && from < now - 10 * MINUTE && Mix(s.flight, from, now, q, 0, newer)
    requires Stands(s, now, s.flight, now - 10 * MINUTE, 19 + Tri(k - q))
    ensures Sees(s, now, k, 19 + Tri(k), false)
    decreases q, 0, newer
  {
    var n := 19 + Tri(k - q);
    if newer > 0 {
      var id :| id in FillingAt(s.flight, now);
      var s1 := RoundBlocksOne(s, id, from, now, k, q, newer, n, 19 + Tri(k));
      RoundBlocks(s1, from, now, k, q, newer - 1);
    } else {
      var id :| id in FillingAt(s.flight, from);
      var s1 := RoundBlocksOne(s, id, from, now, k, q, newer, n, 19 + Tri(k));
      RoundAsks(s1, from, now, k, q - 1, 0);
    }
  }

  /** Failures one after another, until nineteen are in the window. */
  lemma {:induction false} UpToNineteen(s: Race, clock: int, now: int, n: nat, k: nat, total: nat) returns (s1: Race)
    requires Stands(s, clock, s.flight, now - 10 * MINUTE, n) && clock <= now && !Blocked(s.key, now)
    requires n < 19 && |s.flight| < k
    ensures Stands(s1, now, s.flight, now - 10 * MINUTE, 19) && s1.key.until == None
    ensures Sees(s1, now, k, total, false) ==> Sees(s, clock, k, total, false)
    decreases 19 - n
  {
    s1 := FailureAlong(s, now, clock, now - 10 * MINUTE, n, k, total, false);
    if n < 18 {
      s1 := UpToNineteen(s1, now, now, n + 1, k, total);
    }
  }

  /** A login whose block will be held up fails and fills its ten minutes. */
  lemma HoldUpOne(s: Race, from: int, now: int, k: nat, held: nat, total: nat) returns (s1: Race)
    requires Stands(s, from, s.flight, from - 10 * MINUTE, 19 + held) && held < k && s.key.until == None
    requires Mix(s.flight, now, from, 0, 0, held)
    ensures Stands(s1, from, s1.flight, from - 10 * MINUTE, 19 + held + 1) && s1.key.until == None
    ensures Mix(s1.flight, now, from, 0, 0, held + 1)
    ensures Sees(s1, from, k, total, false) ==> Sees(s, from, k, total, false)
  {
    var cutoff, id := from - 10 * MINUTE, |s.asks|;
    AskAlong(s, from, from, cutoff, 19 + held, k, total, false);
    s1 := Apply(s, Ask(from));
    MixAsks(s.flight, id, now, from, 0, 0, held);
    FillAlong(s1, id, from, cutoff, 19 + held, k, total, false);
    MixFills(s1.flight, id, now, from, 0, 1, held);
    s1 := Apply(s1, Record(id, from));
  }

  /** Once those ten minutes are over, the one slot left brings the window to nineteen. */
  lemma AfterHoldUp(s: Race, from: int, now: int, k: nat)
    requires k > 0 && Stands(s, from, s.flight, from - 10 * MINUTE, 19 + k - 1) && s.key.until == None
    requires now == from + 10 * MINUTE + 1 && Mix(s.flight, now, from, 0, 0, k - 1)
    ensures Sees(s, from, k, 19 + Tri(k), false)
  {
    NoneAfter(s.times, |s.times|, now - 10 * MINUTE);
    var s1 := UpToNineteen(s, from, now, 0, k, 19 + Tri(k));
    RoundAsks(s1, from, now, k, k - 1, 0);
  }

  lemma {:induction false} HoldUp(s: Race, from: int, now: int, k: nat, held: nat)
    requires Stands(s, from, s.flight, from - 10 * MINUTE, 19 + held) && held < k && s.key.until == None
    requires now == from + 10 * MINUTE + 1 && Mix(s.flight, now, from, 0, 0, held)
    ensures Sees(s, from, k, 19 + Tri(k), false)
    decreases k - held
  {
    if held < k - 1 {
      var s1 := HoldUpOne(s, from, now, k, held, 19 + Tri(k));
      HoldUp(s1, from, now, k, held + 1);
    } else {
      AfterHoldUp(s, from, now, k);
    }
  }

  lemma FreshComesToIt(s: Race, clock: int, k: nat)
    requires Fresh(s, clock) && k > 0
    ensures Sees(s, clock, k, 19 + Tri(k), false)
  {
    var s1 := UpToNineteen(s, clock, clock, 0, k, 19 + Tri(k));
    HoldUp(s1, clock, clock + 10 * MINUTE + 1, k, 0);
  }

  /** k logins in flight, all but one of whose blocks are held up for ten minutes and then written over newer ones,
      can bring a key to 19 + (1 + ... + k) failures in ten minutes. */
  lemma LateBlocksReachTheBound(clock: int, k: nat)
    requires k > 0
    ensures Sees(QUIET, clock, k, 19 + Tri(k), false)
  {
    assert Fresh(QUIET, clock);
    FreshComesToIt(QUIET, clock, k);
  }

  // ----- exactly

  /** No run, or none in which blocks only ever prolong, has more than 19 + b failures in any ten minutes. */
  ghost predicate NeverMore(k: nat, b: nat, prolonging: bool) {
    forall steps, clock, total: nat, t :: SeesBy(QUIET, steps, clock, k, total, prolonging, t) ==> total <= 19 + b
  }

  /** The bound for k logins in flight is exactly 19 + (1 + ... + k), and exactly 19 + k where blocks only prolong. */
  lemma LockoutBoundIsExact(k: nat, b: nat)
    ensures NeverMore(k, b, false) <==> b >= Tri(k)
    ensures NeverMore(k, b, true) <==> b >= k
  {
    if k > 0 {
      LateBlocksReachTheBound(0, k);
      RacesReachTheBound(0, k);
    }
    forall steps, clock, total: nat, t | SeesBy(QUIET, steps, clock, k, total, false, t) ensures total <= 19 + Tri(k) {
      LockoutHoldsInAnyOrder(steps, clock, k, t);
    }
    forall steps, clock, total: nat, t | SeesBy(QUIET, steps, clock, k, total, true, t) ensures total <= 19 + k {
      LockoutHoldsUpToRaces(steps, clock, k, t);
    }
  }

  /** Two logins in flight and one late block bring a key to 22 failures. */
  lemma LateBlockPassesTheBound(clock: int)
    ensures Sees(QUIET, clock, 2, 22, false)
  {
    LateBlocksReachTheBound(clock, 2);
    assert Tri(2) == 3;
  }

  /** The order of the blocks makes no difference to the bound exactly when no two logins are in flight together. */
  lemma OrderMattersFromTwoOn(k: nat)
    ensures NeverMore(k, k, false) <==> k <= 1
  {
    LockoutBoundIsExact(k, k);
    if k > 1 {
      TriGrows(1, k - 1);
    }
  }
}
