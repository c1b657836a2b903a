/** Logins of one (proxy, user, address) key in flight together: the block is looked up, the failure recorded and the
    new block written each under its own lock. */
module AbuseRaces {
  import opened Wrappers
  import opened SlidingWindow
  import opened Abuse

  /** A login past the block look-up: its password is still to be judged, or its failure filled the ten minutes and
      the block is still to be written. */
  datatype Phase = Trying | Filling(now: int)

  /** A look-up that found no block, and the logins in flight right after it. */
  datatype Asked = Asked(at: int, crew: set<nat>)

  /** The last four fields are history: the look-ups, a login's number being its place there; and the recorded
      failures with their logins, and whether they filled their ten minutes. */
  datatype Race = Race(
    key: KeyState, flight: map<nat, Phase>, asks: seq<Asked>, times: seq<int>, who: seq<nat>, filled: seq<bool>)

  const QUIET := Race(KeyState([], None), map[], [], [], [], [])

  datatype Step =
    | Ask(now: int)                // blockedUntil
    | Settle(id: nat)              // the password is right
    | Record(id: nat, now: int)    // RecordFailedAuth up to the release of its first lock
    | Block(id: nat)               // its second lock

  predicate Enabled(s: Race, step: Step) {
    match step
    case Ask(_) => true
    case Settle(id) => id in s.flight && s.flight[id].Trying?
    case Record(id, _) => id in s.flight && s.flight[id].Trying?
    case Block(id) => id in s.flight && s.flight[id].Filling?
  }

  function AfterAsk(s: Race, now: int): Race {
    if Blocked(s.key, now) then s
    else
      var id := |s.asks|;
      s.(key := s.key.(until := None), flight := s.flight[id := Trying],
         asks := s.asks + [Asked(now, s.flight.Keys + {id})])
  }

  function AfterRecord(s: Race, id: nat, now: int): Race {
    var log := Since(s.key.log + [now], now - HOUR);
    var fills := Escalate(log, now).block;
    Race(s.key.(log := log), if fills then s.flight[id := Filling(now)] else s.flight - {id}, s.asks,
         s.times + [now], s.who + [id], s.filled + [fills])
  }

  function Apply(s: Race, step: Step): Race
    requires Enabled(s, step)
  {
    match step
    case Ask(now) => AfterAsk(s, now)
    case Settle(id) => s.(flight := s.flight - {id})
    case Record(id, now) => AfterRecord(s, id, now)
    case Block(id) =>
      s.(key := s.key.(until := Some(s.flight[id].now + 10 * MINUTE)), flight := s.flight - {id})
  }

  predicate Runs(s: Race, steps: seq<Step>)
    decreases |steps|
  {
    steps == [] || (Enabled(s, steps[0]) && Runs(Apply(s, steps[0]), steps[1..]))
  }

  function After(s: Race, steps: seq<Step>): Race
    requires Runs(s, steps)
    decreases |steps|
  {
    if steps == [] then s else After(Apply(s, steps[0]), steps[1..])
  }

  // ----- one login on its own

  function StepsOf(s: Race, l: Login): seq<Step> {
    var id := |s.asks|;
    if Blocked(s.key, l.asked) then [Ask(l.asked)]
    else if !l.fails then [Ask(l.asked), Settle(id)]
    else if Escalate(Since(s.key.log + [l.recorded], l.recorded - HOUR), l.recorded).block
    then [Ask(l.asked), Record(id, l.recorded), Block(id)]
    else [Ask(l.asked), Record(id, l.recorded)]
  }

  lemma First(s: Race, step: Step, rest: seq<Step>)
    requires Enabled(s, step) && Runs(Apply(s, step), rest)
    ensures Runs(s, [step] + rest) && After(s, [step] + rest) == After(Apply(s, step), rest)
  {
    assert ([step] + rest)[1..] == rest;
  }

  lemma Last(s: Race, step: Step)
    requires Enabled(s, step)
    ensures Runs(s, [step]) && After(s, [step]) == Apply(s, step)
  {
    assert Runs(Apply(s, step), []);
  }

  lemma ThreeInARow(s: Race, a: Step, b: Step, c: Step)
    requires Enabled(s, a) && Enabled(Apply(s, a), b) && Enabled(Apply(Apply(s, a), b), c)
    ensures Runs(s, [a, b, c]) && After(s, [a, b, c]) == Apply(Apply(Apply(s, a), b), c)
  {
    Last(Apply(Apply(s, a), b), c);
    First(Apply(s, a), b, [c]);
    First(s, a, [b] + [c]);
    assert [a, b, c] == [a] + ([b] + [c]);
  }

  /** A login no one interrupts is the serial one. */
  lemma AloneIsAttempt(s: Race, l: Login)
    requires forall id :: id in s.flight ==> id < |s.asks|
    ensures Runs(s, StepsOf(s, l))
    ensures var s1 := After(s, StepsOf(s, l)); s1.key == Attempt(s.key, l) && s1.flight == s.flight
  {
    var steps, id, ask := StepsOf(s, l), |s.asks|, Ask(l.asked);
    var s1 := Apply(s, ask);
    if |steps| == 1 {
      Last(s, ask);
    } else {
      var s2 := Apply(s1, steps[1]);
      if |steps| == 2 {
        Last(s1, steps[1]);
        First(s, ask, [steps[1]]);
        assert steps == [ask] + [steps[1]];
        assert s2.flight == s.flight;
      } else {
        ThreeInARow(s, ask, steps[1], Block(id));
        assert steps == [ask, steps[1], Block(id)];
        assert Apply(s2, Block(id)).flight == s.flight;
      }
    }
  }

  // ----- the clock, and the order of blocks

  /** No reading lies before an earlier one, in the order of the locks. */
  predicate Timely(steps: seq<Step>, clock: int)
    decreases |steps|
  {
    || steps == []
    || match steps[0]
       case Ask(now) => clock <= now && Timely(steps[1..], now)
       case Record(_, now) => clock <= now && Timely(steps[1..], now)
       case _ => Timely(steps[1..], clock)
  }

  function Clock(step: Step, clock: int): int {
    match step
    case Ask(now) => now
    case Record(_, now) => now
    case _ => clock
  }

  /** No block is written over one that ends later. */
  predicate Prolongs(s: Race, step: Step)
    requires Enabled(s, step)
  {
    step.Block? && s.key.until.Some? ==> s.key.until.value <= s.flight[step.id].now + 10 * MINUTE
  }

  predicate AllProlong(s: Race, steps: seq<Step>)
    requires Runs(s, steps)
    decreases |steps|
  {
    steps == [] || (Prolongs(s, steps[0]) && AllProlong(Apply(s, steps[0]), steps[1..]))
  }

  /** At no moment are more than k logins of the key in flight. */
  predicate AtMostInFlight(s: Race, steps: seq<Step>, k: nat)
    requires Runs(s, steps)
    decreases |steps|
  {
    |s.flight| <= k && (steps == [] || AtMostInFlight(Apply(s, steps[0]), steps[1..], k))
  }

  // ----- what every interleaving keeps

  /** The failure was the twentieth or later in its ten minutes. */
  predicate Fills(times: seq<int>, i: nat)
    requires i < |times|
  {
    Full(times, i + 1)
  }

  /** The log is the last hour of the failures, whose times are in order. */
  ghost predicate Logged(s: Race, clock: int) {
    && Ordered(s.times) && s.key.log == Log(s.times, |s.times|, HOUR)
    && |s.filled| == |s.times|
    && (forall i :: 0 <= i < |s.times| ==> s.times[i] <= clock)
    && (forall i :: 0 <= i < |s.filled| ==> (s.filled[i] <==> Fills(s.times, i)))
  }

  /** Each failure is of another login, which asked before. */
  ghost predicate Recorded(s: Race, clock: int) {
    && Logged(s, clock) && |s.who| == |s.times|
    && (forall i :: 0 <= i < |s.who| ==> s.who[i] < |s.asks| && s.asks[s.who[i]].at <= s.times[i])
    && (forall i, j :: 0 <= i < j < |s.who| ==> s.who[i] != s.who[j])
  }

  ghost predicate Flying(s: Race, clock: int)
    requires |s.who| == |s.times|
  {
    && (forall id :: id in s.flight ==> id < |s.asks| && s.asks[id].at <= clock)
    && (forall id, i :: id in s.flight && 0 <= i < |s.who| && s.who[i] == id ==> s.flight[id] == Filling(s.times[i]))
  }

  predicate Over(s: Race, clock: int, failure: int) {
    || (s.key.until.Some? && s.key.until.value >= failure + 10 * MINUTE)
    || clock > failure + 10 * MINUTE
  }

  /** A failure that filled its ten minutes is about to block, or is blocked for, or is over. */
  ghost predicate Guarded(s: Race, clock: int)
    requires |s.who| == |s.times| == |s.filled|
  {
    forall i :: 0 <= i < |s.who| && s.filled[i] ==> s.who[i] in s.flight || Over(s, clock, s.times[i])
  }

  /** Who asked after such a failure's login was in flight together with it, or asked after its ten minutes. */
  ghost predicate Together(s: Race)
    requires |s.who| == |s.times| == |s.filled|
  {
    forall i, b :: 0 <= i < |s.who| && s.filled[i] && s.who[i] < b < |s.asks| ==>
      s.who[i] in s.asks[b].crew || s.asks[b].at > s.times[i] + 10 * MINUTE
  }

  ghost predicate Crews(s: Race, k: nat) {
    && (forall b :: 0 <= b < |s.asks| ==> b in s.asks[b].crew && |s.asks[b].crew| <= k)
    && (forall id, b :: id in s.flight && id < b < |s.asks| ==> id in s.asks[b].crew)
  }

  ghost predicate Inv(s: Race, clock: int, k: nat) {
    Recorded(s, clock) && Flying(s, clock) && Guarded(s, clock) && Together(s) && Crews(s, k)
  }

  lemma AskKeepsCrews(s: Race, now: int, clock: int, k: nat)
    requires Inv(s, clock, k) && !Blocked(s.key, now) && |Apply(s, Ask(now)).flight| <= k
    ensures Crews(Apply(s, Ask(now)), k)
  {
    var s1, b := Apply(s, Ask(now)), |s.asks|;
    assert s1.asks[b].crew == s1.flight.Keys && |s1.flight.Keys| == |s1.flight|;
    forall c | 0 <= c < |s1.asks| ensures c in s1.asks[c].crew && |s1.asks[c].crew| <= k {
      assert c < b ==> s1.asks[c] == s.asks[c];
    }
    forall id, c | id in s1.flight && id < c < |s1.asks| ensures id in s1.asks[c].crew {
      assert c < b ==> s1.asks[c] == s.asks[c];
    }
  }

  /** Where no block is found, every failure that filled its ten minutes is over or about to block. */
  lemma UnblockedIsOver(s: Race, now: int, clock: int)
    requires Recorded(s, clock) && Guarded(s, clock) && clock <= now && !Blocked(s.key, now)
    ensures forall i :: 0 <= i < |s.who| && s.filled[i] && s.who[i] !in s.flight ==> now > s.times[i] + 10 * MINUTE
  {
    forall i | 0 <= i < |s.who| && s.filled[i] && s.who[i] !in s.flight ensures now > s.times[i] + 10 * MINUTE {
      assert Over(s, clock, s.times[i]);
    }
  }

  lemma AskKeepsTogether(s: Race, now: int, clock: int, k: nat)
    requires Inv(s, clock, k) && clock <= now && !Blocked(s.key, now)
    ensures Guarded(Apply(s, Ask(now)), now) && Together(Apply(s, Ask(now)))
  {
    UnblockedIsOver(s, now, clock);
    var s1 := Apply(s, Ask(now));
    forall i, b | 0 <= i < |s1.who| && s1.filled[i] && s1.who[i] < b < |s1.asks|
      ensures s1.who[i] in s1.asks[b].crew || s1.asks[b].at > s1.times[i] + 10 * MINUTE
    {
      assert b < |s.asks| ==> s1.asks[b] == s.asks[b];
    }
  }

  lemma AskKeepsRecorded(s: Race, now: int, clock: int)
    requires Recorded(s, clock) && Flying(s, clock) && clock <= now && !Blocked(s.key, now)
    ensures Recorded(Apply(s, Ask(now)), now) && Flying(Apply(s, Ask(now)), now)
  {
    var s1 := Apply(s, Ask(now));
    assert forall b :: 0 <= b < |s.asks| ==> s1.asks[b] == s.asks[b];
  }

  lemma AskKeeps(s: Race, now: int, clock: int, k: nat)
    requires Inv(s, clock, k) && clock <= now && |Apply(s, Ask(now)).flight| <= k
    ensures Inv(Apply(s, Ask(now)), now, k)
  {
    if !Blocked(s.key, now) {
      AskKeepsCrews(s, now, clock, k);
      AskKeepsTogether(s, now, clock, k);
      AskKeepsRecorded(s, now, clock);
    }
  }

  lemma SettleKeeps(s: Race, id: nat, clock: int, k: nat)
    requires Inv(s, clock, k) && Enabled(s, Settle(id))
    ensures Inv(Apply(s, Settle(id)), clock, k)
  {
  }

  lemma BlockKeeps(s: Race, id: nat, clock: int, k: nat)
    requires Inv(s, clock, k) && Enabled(s, Block(id)) && Prolongs(s, Block(id))
    ensures Inv(Apply(s, Block(id)), clock, k)
  {
    var s1 := Apply(s, Block(id));
    forall i | 0 <= i < |s1.who| && s1.filled[i] ensures s1.who[i] in s1.flight || Over(s1, clock, s1.times[i]) {
      assert s.who[i] in s.flight || Over(s, clock, s.times[i]);
    }
  }

  lemma FillsStay(times: seq<int>, now: int)
    ensures forall i :: 0 <= i < |times| ==> (Fills(times + [now], i) <==> Fills(times, i))
  {
    forall i | 0 <= i < |times| ensures Fills(times + [now], i) <==> Fills(times, i) {
      CountAfterOfPrefix(times + [now], times, i + 1, times[i] - 10 * MINUTE);
    }
  }

  lemma RecordKeepsLog(s: Race, id: nat, now: int, clock: int)
    requires Recorded(s, clock) && clock <= now && Enabled(s, Record(id, now))
    ensures Logged(Apply(s, Record(id, now)), now)
  {
    var s1, n := Apply(s, Record(id, now)), |s.times|;
    LogAppends(s.times, now);
    FillsStay(s.times, now);
    forall i | 0 <= i < |s1.filled| ensures s1.filled[i] <==> Fills(s1.times, i) {
      if i < n {
        assert s.filled[i] <==> Fills(s.times, i);
      }
    }
  }

  lemma RecordKeepsRecorded(s: Race, id: nat, now: int, clock: int)
    requires Recorded(s, clock) && Flying(s, clock) && clock <= now && Enabled(s, Record(id, now))
    ensures Recorded(Apply(s, Record(id, now)), now) && Flying(Apply(s, Record(id, now)), now)
  {
    RecordKeepsLog(s, id, now, clock);
    assert forall i :: 0 <= i < |s.times| ==> s.who[i] != id;
  }

  lemma RecordKeeps(s: Race, id: nat, now: int, clock: int, k: nat)
    requires Inv(s, clock, k) && clock <= now && Enabled(s, Record(id, now))
    ensures Inv(Apply(s, Record(id, now)), now, k)
  {
    RecordKeepsRecorded(s, id, now, clock);
    var s1 := Apply(s, Record(id, now));
    assert forall i :: 0 <= i < |s.who| ==> s.who[i] != id;
  }

  lemma StepKeeps(s: Race, step: Step, clock: int, k: nat)
    requires Inv(s, clock, k) && Enabled(s, step) && Prolongs(s, step) && clock <= Clock(step, clock)
    requires |Apply(s, step).flight| <= k
    ensures Inv(Apply(s, step), Clock(step, clock), k)
  {
    match step
    case Ask(now) => AskKeeps(s, now, clock, k);
    case Settle(id) => SettleKeeps(s, id, clock, k);
    case Record(id, now) => RecordKeeps(s, id, now, clock, k);
    case Block(id) => BlockKeeps(s, id, clock, k);
  }

  lemma {:induction false} RunKeeps(s: Race, steps: seq<Step>, clock: int, k: nat) returns (end: int)
    requires Inv(s, clock, k) && Runs(s, steps) && Timely(steps, clock)
    requires AllProlong(s, steps) && AtMostInFlight(s, steps, k)
    ensures Inv(After(s, steps), end, k)
    decreases |steps|
  {
    end := clock;
    if steps != [] {
      StepKeeps(s, steps[0], clock, k);
      end := RunKeeps(Apply(s, steps[0]), steps[1..], Clock(steps[0], clock), k);
    }
  }

  // ----- how many failures fit into ten minutes

  lemma {:induction false} LatestAsker(who: seq<nat>, i: nat, n: nat) returns (j: nat)
    requires i < n <= |who|
    ensures i <= j < n && forall l :: i <= l < n ==> who[l] <= who[j]
    decreases n
  {
    j := n - 1;
    if i < n - 1 {
      var l := LatestAsker(who, i, n - 1);
      j := if who[l] > who[n - 1] then l else n - 1;
    }
  }

  lemma {:induction false} DistinctMany(who: seq<nat>, i: nat, n: nat, crew: set<nat>)
    requires i <= n <= |who| && forall j, l :: 0 <= j < l < |who| ==> who[j] != who[l]
    requires forall j :: i <= j < n ==> who[j] in crew
    ensures n - i <= |crew|
    decreases n
  {
    if i < n {
      DistinctMany(who, i, n - 1, crew - {who[n - 1]});
    }
  }

  /** Filling failures in a row, all within ten minutes, are of logins that were once in flight together. */
  lemma FillingAreTogether(s: Race, clock: int, k: nat, i: nat, n: nat)
    requires Inv(s, clock, k) && i < n <= |s.times| && forall j :: i <= j < n ==> s.filled[j]
    requires s.times[i] > s.times[n - 1] - 10 * MINUTE
    ensures n - i <= k
  {
    var last := LatestAsker(s.who, i, n);
    var b := s.who[last];
    forall j | i <= j < n ensures s.who[j] in s.asks[b].crew {
      assert s.times[i] <= s.times[j] && s.times[last] <= s.times[n - 1];
    }
    DistinctMany(s.who, i, n, s.asks[b].crew);
  }

  lemma {:induction false} CountSplits(times: seq<int>, i: nat, n: nat, cutoff: int)
    requires i <= n <= |times|
    ensures CountAfterUpto(times, n, cutoff) <= CountAfterUpto(times, i, cutoff) + n - i
    decreases n
  {
    if i < n {
      CountSplits(times, i, n - 1, cutoff);
    }
  }

  /** Where the last filling failures in a row after the cutoff begin, and how few come before them. */
  lemma {:induction false} RowBegins(s: Race, clock: int, k: nat, i: nat, n: nat) returns (start: nat)
    requires Inv(s, clock, k) && i < n <= |s.times| && forall j :: i <= j < n ==> s.filled[j]
    requires s.times[i] > s.times[n - 1] - 10 * MINUTE
    ensures start < n && (forall j :: start <= j < n ==> s.filled[j]) && s.times[start] > s.times[n - 1] - 10 * MINUTE
    ensures CountAfterUpto(s.times, start, s.times[n - 1] - 10 * MINUTE) <= 19
    decreases i
  {
    var cutoff := s.times[n - 1] - 10 * MINUTE;
    start := i;
    if i > 0 && s.filled[i - 1] && s.times[i - 1] > cutoff {
      start := RowBegins(s, clock, k, i - 1, n);
    } else if i > 0 && s.filled[i - 1] {
      NoneAfter(s.times, i, cutoff);
    } else if i > 0 {
      CountAfterShrinks(s.times, i, s.times[i - 1] - 10 * MINUTE, cutoff);
    }
  }

  lemma TenMinutesAreBounded(s: Race, clock: int, k: nat)
    requires Inv(s, clock, k)
    ensures TenMinutesHold(s.times, 19 + k)
  {
    forall n | 0 < n <= |s.times| ensures Recent(s.times, n) <= 19 + k {
      assert s.filled[n - 1] <==> Fills(s.times, n - 1);
      if s.filled[n - 1] {
        var i := RowBegins(s, clock, k, n - 1, n);
        FillingAreTogether(s, clock, k, i, n);
        CountSplits(s.times, i, n, s.times[n - 1] - 10 * MINUTE);
      }
    }
  }

  lemma QuietKeeps(clock: int, k: nat)
    ensures Inv(QUIET, clock, k)
  {
    assert Log(QUIET.times, 0, HOUR) == [];
  }

  lemma InvBounds(s: Race, clock: int, k: nat, t: int)
    requires Inv(s, clock, k)
    ensures CountIn(s.times, t - 10 * MINUTE, t) <= 19 + k && |s.key.log| <= 6 * (19 + k)
  {
    TenMinutesAreBounded(s, clock, k);
    AnyTenMinutes(s.times, 19 + k, |s.times|, t);
    if s.times != [] {
      HourCountAgrees(s.times, |s.times|);
      AnyHour(s.times, 19 + k, s.times[|s.times| - 1]);
    }
  }

  lemma RunIsBounded(s: Race, steps: seq<Step>, clock: int, k: nat, t: int)
    requires Inv(s, clock, k) && Runs(s, steps) && Timely(steps, clock)
    requires AllProlong(s, steps) && AtMostInFlight(s, steps, k)
    ensures var s1 := After(s, steps);
            CountIn(s1.times, t - 10 * MINUTE, t) <= 19 + k && |s1.key.log| <= 6 * (19 + k)
  {
    var end := RunKeeps(s, steps, clock, k);
    InvBounds(After(s, steps), end, k, t);
  }

  /** With at most k logins of the key in flight at once, and as long as no block is written over a later one, no ten
      minutes see more than 19 + k recorded failures, and the log never holds more than six times that. */
  lemma LockoutHoldsUpToRaces(steps: seq<Step>, clock: int, k: nat, t: int)
    requires Runs(QUIET, steps) && Timely(steps, clock) && AllProlong(QUIET, steps) && AtMostInFlight(QUIET, steps, k)
    ensures var s := After(QUIET, steps);
            CountIn(s.times, t - 10 * MINUTE, t) <= 19 + k && |s.key.log| <= 6 * (19 + k)
  {
    QuietKeeps(clock, k);
    RunIsBounded(QUIET, steps, clock, k, t);
  }

  // ----- the bound is reached

  function TenMinutesTo(times: seq<int>, t: int): nat {
    CountIn(times, t - 10 * MINUTE, t)
  }

  ghost predicate SeesBy(s: Race, steps: seq<Step>, clock: int, k: nat, total: nat, prolonging: bool, t: int) {
    && Runs(s, steps) && Timely(steps, clock) && AtMostInFlight(s, steps, k) && (prolonging ==> AllProlong(s, steps))
    && TenMinutesTo(After(s, steps).times, t) == total
  }

  /** Some run from here on, with at most k logins in flight, has that many failures in some ten minutes. */
  ghost predicate Sees(s: Race, clock: int, k: nat, total: nat, prolonging: bool) {
    exists steps, t :: SeesBy(s, steps, clock, k, total, prolonging, t)
  }

  lemma StepAlong(s: Race, step: Step, clock: int, k: nat, total: nat, prolonging: bool)
    requires Enabled(s, step) && clock <= Clock(step, clock) && |s.flight| <= k && (prolonging ==> Prolongs(s, step))
    requires Sees(Apply(s, step), Clock(step, clock), k, total, prolonging)
    ensures Sees(s, clock, k, total, prolonging)
  {
    var rest, t :| SeesBy(Apply(s, step), rest, Clock(step, clock), k, total, prolonging, t);
    First(s, step, rest);
    var steps := [step] + rest;
    assert steps[0] == step && steps[1..] == rest;
    assert SeesBy(s, steps, clock, k, total, prolonging, t);
  }

  lemma EndsHere(s: Race, clock: int, k: nat, prolonging: bool)
    requires Recorded(s, clock) && |s.flight| <= k
    ensures Sees(s, clock, k, CountAfter(s.times, clock - 10 * MINUTE), prolonging)
  {
    CountInIsAfter(s.times, |s.times|, clock - 10 * MINUTE, clock);
    assert SeesBy(s, [], clock, k, CountAfter(s.times, clock - 10 * MINUTE), prolonging, clock);
  }

  /** The log is right, no block is set, and that many failures came after the cutoff. */
  ghost predicate Stands(s: Race, clock: int, flight: map<nat, Phase>, cutoff: int, n: nat) {
    && Recorded(s, clock) && Flying(s, clock) && s.flight == flight && CountAfter(s.times, cutoff) == n
  }

  lemma AsksNext(s: Race, now: int, clock: int, cutoff: int, n: nat)
    requires Stands(s, clock, s.flight, cutoff, n) && clock <= now && !Blocked(s.key, now)
    ensures var s1 := Apply(s, Ask(now));
            && Stands(s1, now, s.flight[|s.asks| := Trying], cutoff, n) && s1.key.until == None
            && |s1.asks| == |s.asks| + 1
  {
    AskKeepsRecorded(s, now, clock);
  }

  lemma RecordsNext(s: Race, id: nat, now: int, clock: int, cutoff: int, n: nat)
    requires Stands(s, clock, s.flight, cutoff, n) && clock <= now && Enabled(s, Record(id, now)) && now > cutoff
    ensures var s1, fills := Apply(s, Record(id, now)), CountAfter(s.times, now - 10 * MINUTE) >= 19;
            && Stands(s1, now, if fills then s.flight[id := Filling(now)] else s.flight - {id}, cutoff, n + 1)
            && s1.key.until == s.key.until && s1.asks == s.asks
  {
    RecordKeepsRecorded(s, id, now, clock);
    LogAppends(s.times, now);
    CountAfterOfPrefix(s.times + [now], s.times, |s.times|, cutoff);
    CountAfterOfPrefix(s.times + [now], s.times, |s.times|, now - 10 * MINUTE);
  }

  lemma AskAlong(s: Race, now: int, clock: int, cutoff: int, n: nat, k: nat, total: nat, prolonging: bool)
    requires Stands(s, clock, s.flight, cutoff, n) && clock <= now && !Blocked(s.key, now) && |s.flight| < k
    ensures var s1 := Apply(s, Ask(now));
            && Stands(s1, now, s.flight[|s.asks| := Trying], cutoff, n) && s1.key.until == None
            && |s1.asks| == |s.asks| + 1 && |s.asks| !in s.flight && |s1.flight| == |s.flight| + 1
            && s1.times == s.times
            && (Sees(s1, now, k, total, prolonging) ==> Sees(s, clock, k, total, prolonging))
  {
    AsksNext(s, now, clock, cutoff, n);
    var s1 := Apply(s, Ask(now));
    assert |s.asks| !in s.flight && |s1.flight.Keys| == |s1.flight|;
    if Sees(s1, now, k, total, prolonging) {
      StepAlong(s, Ask(now), clock, k, total, prolonging);
    }
  }

  lemma RecordAlong(s: Race, id: nat, now: int, cutoff: int, n: nat, k: nat, total: nat, prolonging: bool)
    requires Stands(s, now, s.flight, cutoff, n) && Enabled(s, Record(id, now)) && now > cutoff && |s.flight| <= k
    requires CountAfter(s.times, now - 10 * MINUTE) < 19
    ensures var s1 := Apply(s, Record(id, now));
            && Stands(s1, now, s.flight - {id}, cutoff, n + 1) && s1.key.until == s.key.until
            && (Sees(s1, now, k, total, prolonging) ==> Sees(s, now, k, total, prolonging))
  {
    RecordsNext(s, id, now, now, cutoff, n);
    if Sees(Apply(s, Record(id, now)), now, k, total, prolonging) {
      StepAlong(s, Record(id, now), now, k, total, prolonging);
    }
  }

  /** One more failure that does not fill the ten minutes, its login alone with those in flight. */
  lemma FailureAlong(
    s: Race, now: int, clock: int, cutoff: int, n: nat, k: nat, total: nat, prolonging: bool) returns (s2: Race)
    requires Stands(s, clock, s.flight, cutoff, n) && clock <= now && !Blocked(s.key, now) && now > cutoff
    requires CountAfter(s.times, now - 10 * MINUTE) < 19 && |s.flight| < k
    ensures Stands(s2, now, s.flight, cutoff, n + 1) && s2.key.until == None
    ensures Sees(s2, now, k, total, prolonging) ==> Sees(s, clock, k, total, prolonging)
  {
    AskAlong(s, now, clock, cutoff, n, k, total, prolonging);
    var s1, id := Apply(s, Ask(now)), |s.asks|;
    assert s1.flight == s.flight[id := Trying];
    assert s1.flight - {id} == s.flight;
    RecordAlong(s1, id, now, cutoff, n, k, total, prolonging);
    s2 := Apply(s1, Record(id, now));
  }

  lemma FillAlong(s: Race, id: nat, now: int, cutoff: int, n: nat, k: nat, total: nat, prolonging: bool)
    requires Stands(s, now, s.flight, cutoff, n) && Enabled(s, Record(id, now)) && now > cutoff && |s.flight| <= k
    requires CountAfter(s.times, now - 10 * MINUTE) >= 19
    ensures var s1 := Apply(s, Record(id, now));
            && Stands(s1, now, s.flight[id := Filling(now)], cutoff, n + 1)
            && s1.key.until == s.key.until && s1.asks == s.asks
            && (Sees(s1, now, k, total, prolonging) ==> Sees(s, now, k, total, prolonging))
  {
    RecordsNext(s, id, now, now, cutoff, n);
    if Sees(Apply(s, Record(id, now)), now, k, total, prolonging) {
      StepAlong(s, Record(id, now), now, k, total, prolonging);
    }
  }

  lemma BlocksNext(s: Race, id: nat, clock: int, cutoff: int, n: nat)
    requires Stands(s, clock, s.flight, cutoff, n) && Enabled(s, Block(id))
    ensures var s1 := Apply(s, Block(id));
            Stands(s1, clock, s.flight - {id}, cutoff, n) && s1.key.until == Some(s.flight[id].now + 10 * MINUTE)
  {
  }

  lemma BlockAlong(s: Race, id: nat, clock: int, cutoff: int, n: nat, k: nat, total: nat)
    requires Stands(s, clock, s.flight, cutoff, n) && Enabled(s, Block(id)) && |s.flight| <= k
    ensures var s1 := Apply(s, Block(id));
            && Stands(s1, clock, s.flight - {id}, cutoff, n)
            && s1.key.until == Some(s.flight[id].now + 10 * MINUTE)
            && (Sees(s1, clock, k, total, false) ==> Sees(s, clock, k, total, false))
  {
    BlocksNext(s, id, clock, cutoff, n);
    if Sees(Apply(s, Block(id)), clock, k, total, false) {
      StepAlong(s, Block(id), clock, k, total, false);
    }
  }

  // ----- nineteen failures, and then k logins at once

  function TryingIn(flight: map<nat, Phase>): set<nat> {
    set id | id in flight && flight[id].Trying?
  }

  lemma OneLessTries(flight: map<nat, Phase>, id: nat, now: int)
    requires id in TryingIn(flight)
    ensures TryingIn(flight[id := Filling(now)]) == TryingIn(flight) - {id}
    ensures |flight[id := Filling(now)]| == |flight|
  {
    var after := flight[id := Filling(now)];
    assert after.Keys == flight.Keys && |after.Keys| == |after| && |flight.Keys| == |flight|;
  }

  lemma {:induction false} AllRecord(s: Race, now: int, k: nat, n: nat, total: nat)
    requires Stands(s, now, s.flight, now - 10 * MINUTE, n) && 19 <= n && |s.flight| <= k
    requires total == n + |TryingIn(s.flight)|
    ensures Sees(s, now, k, total, true)
    decreases total - n
  {
    if TryingIn(s.flight) == {} {
      EndsHere(s, now, k, true);
    } else {
      var id :| id in TryingIn(s.flight);
      FillAlong(s, id, now, now - 10 * MINUTE, n, k, total, true);
      OneLessTries(s.flight, id, now);
      AllRecord(Apply(s, Record(id, now)), now, k, n + 1, total);
    }
  }

  lemma OneMoreTries(flight: map<nat, Phase>, id: nat)
    requires TryingIn(flight) == flight.Keys && id !in flight
    ensures TryingIn(flight[id := Trying]) == flight[id := Trying].Keys
  {
  }

  lemma {:induction false} AllAsk(s: Race, now: int, k: nat)
    requires Stands(s, now, s.flight, now - 10 * MINUTE, 19) && !Blocked(s.key, now)
    requires TryingIn(s.flight) == s.flight.Keys && |s.flight| <= k
    ensures Sees(s, now, k, 19 + k, true)
    decreases k - |s.flight|
  {
    if |s.flight| == k {
      assert |s.flight.Keys| == |s.flight|;
      AllRecord(s, now, k, 19, 19 + k);
    } else {
      AskAlong(s, now, now, now - 10 * MINUTE, 19, k, 19 + k, true);
      OneMoreTries(s.flight, |s.asks|);
      AllAsk(Apply(s, Ask(now)), now, k);
    }
  }

  lemma {:induction false} NineteenFail(s: Race, now: int, k: nat, n: nat)
    requires Stands(s, now, map[], now - 10 * MINUTE, n) && n <= 19 && !Blocked(s.key, now) && k > 0
    ensures Sees(s, now, k, 19 + k, true)
    decreases 19 - n
  {
    if n == 19 {
      AllAsk(s, now, k);
    } else {
      var s1 := FailureAlong(s, now, now, now - 10 * MINUTE, n, k, 19 + k, true);
      NineteenFail(s1, now, k, n + 1);
    }
  }

  /** Nothing has happened yet. */
  ghost predicate Fresh(s: Race, clock: int) {
    Recorded(s, clock) && Flying(s, clock) && s.flight == map[] && s.times == [] && s.key.until.None?
  }

  lemma FreshReaches(s: Race, clock: int, k: nat)
    requires Fresh(s, clock) && k > 0
    ensures Sees(s, clock, k, 19 + k, true)
  {
    NineteenFail(s, clock, k, 0);
  }

  /** k logins in flight together can bring a key to 19 + k failures in ten minutes. */
  lemma RacesReachTheBound(clock: int, k: nat)
    requires k > 0
    ensures Sees(QUIET, clock, k, 19 + k, true)
  {
    assert Fresh(QUIET, clock);
    FreshReaches(QUIET, clock, k);
  }
}
