/** The abuse service's request limiter and its escalating answer to failed proxy logins. */
module Abuse {
  import opened Wrappers
  import opened SlidingWindow

  const SECOND := 1_000_000_000
  const MINUTE := 60 * SECOND
  const HOUR := 60 * MINUTE

  // ----- the request limiter against its full history

  /** The n-th request of the history is let through. */
  predicate Admits(history: seq<int>, n: nat, window: int, limit: int)
    requires 0 < n <= |history|
  {
    |Log(history, n, window)| <= limit
  }

  /** How many of the first n requests were let through and lie in (from, to]. */
  function AdmittedIn(history: seq<int>, n: nat, window: int, limit: int, from: int, to: int): nat
    requires n <= |history|
  {
    if n == 0 then 0
    else AdmittedIn(history, n - 1, window, limit, from, to) +
         (if Admits(history, n, window, limit) && from < history[n - 1] <= to then 1 else 0)
  }

  /** A request is admitted exactly when at most `limit` requests, denied ones included, lie in its window. */
  lemma LimiterAgreesWithHistory(history: seq<int>, n: nat, window: int, limit: int)
    requires Ordered(history) && 0 < n <= |history| && window >= 0
    ensures var now := history[n - 1];
            && Log(history, n, window) == SinceUpto(history, n, now - window)
            && (Admits(history, n, window, limit) <==> CountInUpto(history, n, now - window, now) <= limit)
  {
    LogIsWindow(history, n, window);
    SinceLength(history, n, history[n - 1] - window);
    CountInIsAfter(history, n, history[n - 1] - window, history[n - 1]);
  }

  lemma {:induction false} AdmittedIsLess(history: seq<int>, n: nat, window: int, limit: int, from: int, to: int)
    requires n <= |history|
    ensures AdmittedIn(history, n, window, limit, from, to) <= CountInUpto(history, n, from, to)
  {
    if n > 0 {
      AdmittedIsLess(history, n - 1, window, limit, from, to);
    }
  }

  lemma AdmittedBoundsWindow(history: seq<int>, n: nat, window: int, limit: int, t: int)
    requires Ordered(history) && 0 < n <= |history| && window >= 0
    requires Admits(history, n, window, limit) && t - window < history[n - 1] <= t
    ensures CountInUpto(history, n, t - window, t) <= limit
  {
    var now := history[n - 1];
    LimiterAgreesWithHistory(history, n, window, limit);
    SinceLength(history, n, now - window);
    CountInIsAfter(history, n, t - window, t);
    CountAfterShrinks(history, n, now - window, t - window);
  }

  /** No window of that length, wherever it ends, holds more than `limit` admitted requests. */
  lemma {:induction false} WindowHoldsAtMostLimit(history: seq<int>, n: nat, window: int, limit: int, t: int)
    requires Ordered(history) && n <= |history| && window >= 0 && limit >= 0
    ensures AdmittedIn(history, n, window, limit, t - window, t) <= limit
  {
    if n > 0 {
      WindowHoldsAtMostLimit(history, n - 1, window, limit, t);
      var now := history[n - 1];
      if Admits(history, n, window, limit) && t - window < now <= t {
        AdmittedIsLess(history, n, window, limit, t - window, t);
        AdmittedBoundsWindow(history, n, window, limit, t);
      }
    }
  }

  // ----- failed logins

  datatype Escalation = Escalation(warn: bool, block: bool, suspend: bool)

  function Escalate(log: seq<int>, now: int): Escalation {
    Escalation(CountAfter(log, now - 5 * MINUTE) >= 5, CountAfter(log, now - 10 * MINUTE) >= 20, |log| >= 50)
  }

  /** The warning, the block and the suspension fire exactly when the unpruned history of failures reaches
      5 in five minutes, 20 in ten and 50 in an hour. */
  lemma EscalationAgreesWithHistory(history: seq<int>, n: nat)
    requires Ordered(history) && 0 < n <= |history|
    ensures var now := history[n - 1];
            Escalate(Log(history, n, HOUR), now) ==
            Escalation(CountInUpto(history, n, now - 5 * MINUTE, now) >= 5,
                       CountInUpto(history, n, now - 10 * MINUTE, now) >= 20,
                       CountInUpto(history, n, now - HOUR, now) >= 50)
  {
    var now := history[n - 1];
    ShorterWindowAgrees(history, n, HOUR, 5 * MINUTE);
    ShorterWindowAgrees(history, n, HOUR, 10 * MINUTE);
    CountInIsAfter(history, n, now - 5 * MINUTE, now);
    CountInIsAfter(history, n, now - 10 * MINUTE, now);
    LimiterAgreesWithHistory(history, n, HOUR, |Log(history, n, HOUR)|);
    HourCountAgrees(history, n);
  }

  lemma HourCountAgrees(history: seq<int>, n: nat)
    requires Ordered(history) && 0 < n <= |history|
    ensures |Log(history, n, HOUR)| == CountInUpto(history, n, history[n - 1] - HOUR, history[n - 1])
  {
    LogIsWindow(history, n, HOUR);
    SinceLength(history, n, history[n - 1] - HOUR);
    CountInIsAfter(history, n, history[n - 1] - HOUR, history[n - 1]);
  }

  /** What the service knows about one (proxy, user, address) key. */
  datatype KeyState = KeyState(log: seq<int>, until: Option<int>)

  predicate Blocked(s: KeyState, now: int) {
    s.until.Some? && now <= s.until.value
  }

  function Failed(s: KeyState, now: int): KeyState {
    var log := Since(s.log + [now], now - HOUR);
    KeyState(log, if Escalate(log, now).block then Some(now + 10 * MINUTE) else s.until)
  }

  /** One login: the block is looked up at `asked`; a failure is recorded at `recorded`. */
  datatype Login = Login(asked: int, recorded: int, fails: bool)

  function Attempt(s: KeyState, l: Login): KeyState {
    if Blocked(s, l.asked) then s
    else
      var s1 := s.(until := None);
      if l.fails then Failed(s1, l.recorded) else s1
  }

  /** The key's state after the first n logins. */
  function AfterLogins(logins: seq<Login>, n: nat): KeyState
    requires n <= |logins|
  {
    if n == 0 then KeyState([], None) else Attempt(AfterLogins(logins, n - 1), logins[n - 1])
  }

  /** When the failures among the first n logins were recorded. */
  function Failures(logins: seq<Login>, n: nat): seq<int>
    requires n <= |logins|
  {
    if n == 0 then []
    else if logins[n - 1].fails && !Blocked(AfterLogins(logins, n - 1), logins[n - 1].asked)
    then Failures(logins, n - 1) + [logins[n - 1].recorded] else Failures(logins, n - 1)
  }

  /** Calls come one after another on a clock that never goes back. */
  predicate Serial(logins: seq<Login>) {
    && (forall i :: 0 <= i < |logins| ==> logins[i].asked <= logins[i].recorded)
    && (forall i :: 0 < i < |logins| ==> logins[i - 1].recorded <= logins[i].asked)
  }

  /** How many of the first n failures came in the last ten minutes before the n-th. */
  function Recent(failures: seq<int>, n: nat): nat
    requires 0 < n <= |failures|
  {
    CountAfterUpto(failures, n, failures[n - 1] - 10 * MINUTE)
  }

  /** The n-th failure is the twentieth or later in its ten minutes. */
  predicate Full(failures: seq<int>, n: nat)
    requires n <= |failures|
  {
    n > 0 && Recent(failures, n) >= 20
  }

  /** After a failure that fills its ten minutes, the next one comes more than ten minutes later. */
  predicate Spaced(failures: seq<int>) {
    forall n :: 0 < n < |failures| && Full(failures, n) ==> failures[n] > failures[n - 1] + 10 * MINUTE
  }

  lemma {:induction false} NoneAfter(times: seq<int>, n: nat, cutoff: int)
    requires n <= |times| && forall i :: 0 <= i < n ==> times[i] <= cutoff
    ensures CountAfterUpto(times, n, cutoff) == 0
  {
    if n > 0 {
      NoneAfter(times, n - 1, cutoff);
    }
  }

  lemma {:induction false} LastTenMinutes(failures: seq<int>, n: nat)
    requires Ordered(failures) && Spaced(failures) && 0 < n <= |failures|
    ensures Recent(failures, n) <= 20
  {
    assert Recent(failures, n) == CountAfterUpto(failures, n - 1, failures[n - 1] - 10 * MINUTE) + 1;
    if n > 1 {
      LastTenMinutes(failures, n - 1);
      if Full(failures, n - 1) {
        NoneAfter(failures, n - 1, failures[n - 1] - 10 * MINUTE);
      } else {
        CountAfterShrinks(failures, n - 1, failures[n - 2] - 10 * MINUTE, failures[n - 1] - 10 * MINUTE);
      }
    }
  }

  /** No failure is more than the limit-th of its ten minutes. */
  predicate TenMinutesHold(failures: seq<int>, limit: nat) {
    forall n :: 0 < n <= |failures| ==> Recent(failures, n) <= limit
  }

  lemma SpacedHold(failures: seq<int>)
    requires Ordered(failures) && Spaced(failures)
    ensures TenMinutesHold(failures, 20)
  {
    forall n | 0 < n <= |failures| ensures Recent(failures, n) <= 20 {
      LastTenMinutes(failures, n);
    }
  }

  lemma {:induction false} AnyTenMinutes(failures: seq<int>, limit: nat, n: nat, t: int)
    requires Ordered(failures) && TenMinutesHold(failures, limit) && n <= |failures|
    ensures CountInUpto(failures, n, t - 10 * MINUTE, t) <= limit
  {
    if n > 0 {
      AnyTenMinutes(failures, limit, n - 1, t);
      if t - 10 * MINUTE < failures[n - 1] <= t {
        assert Recent(failures, n) <= limit;
        CountInIsAfter(failures, n, t - 10 * MINUTE, t);
        CountAfterShrinks(failures, n, failures[n - 1] - 10 * MINUTE, t - 10 * MINUTE);
      }
    }
  }

  lemma AnyHour(failures: seq<int>, limit: nat, now: int)
    requires Ordered(failures) && TenMinutesHold(failures, limit)
    ensures CountIn(failures, now - HOUR, now) <= 6 * limit
  {
    var n := |failures|;
    CountInSplits(failures, n, now - 60 * MINUTE, now - 50 * MINUTE, now);
    CountInSplits(failures, n, now - 50 * MINUTE, now - 40 * MINUTE, now);
    CountInSplits(failures, n, now - 40 * MINUTE, now - 30 * MINUTE, now);
    CountInSplits(failures, n, now - 30 * MINUTE, now - 20 * MINUTE, now);
    CountInSplits(failures, n, now - 20 * MINUTE, now - 10 * MINUTE, now);
    AnyTenMinutes(failures, limit, n, now - 50 * MINUTE);
    AnyTenMinutes(failures, limit, n, now - 40 * MINUTE);
    AnyTenMinutes(failures, limit, n, now - 30 * MINUTE);
    AnyTenMinutes(failures, limit, n, now - 20 * MINUTE);
    AnyTenMinutes(failures, limit, n, now - 10 * MINUTE);
    AnyTenMinutes(failures, limit, n, now);
  }

  /** What serial logins keep, the last of which was done at `last`: the log is the last hour of the failures h, and
      a full ten minutes is still blocked or over. */
  ghost predicate KeyInv(h: seq<int>, s: KeyState, last: int) {
    && Ordered(h) && Spaced(h) && s.log == Log(h, |h|, HOUR)
    && (h != [] ==> h[|h| - 1] <= last)
    && (Full(h, |h|) ==>
          if s.until.Some? then s.until.value == h[|h| - 1] + 10 * MINUTE else last > h[|h| - 1] + 10 * MINUTE)
  }

  lemma FailureStaysSpaced(h: seq<int>, now: int)
    requires Spaced(h) && (Full(h, |h|) ==> now > h[|h| - 1] + 10 * MINUTE)
    ensures Spaced(h + [now])
  {
    var h1 := h + [now];
    forall n | 0 < n < |h1| && Full(h1, n) ensures h1[n] > h1[n - 1] + 10 * MINUTE {
      CountAfterOfPrefix(h1, h, n, h[n - 1] - 10 * MINUTE);
      assert Full(h, n);
    }
  }

  /** The log with one more failure, and whether that one has to block, are as the history says. */
  lemma LogAppends(h: seq<int>, now: int)
    requires Ordered(h) && (h != [] ==> h[|h| - 1] <= now)
    ensures var h1 := h + [now];
            && Ordered(h1) && Since(Log(h, |h|, HOUR) + [now], now - HOUR) == Log(h1, |h1|, HOUR)
            && (Escalate(Log(h1, |h1|, HOUR), now).block <==> Full(h1, |h1|))
  {
    var h1 := h + [now];
    LogOfPrefix(h1, h, |h|, HOUR);
    ShorterWindowAgrees(h1, |h1|, HOUR, 10 * MINUTE);
  }

  lemma FailureAppends(h: seq<int>, s: KeyState, now: int)
    requires Ordered(h) && Spaced(h) && s.log == Log(h, |h|, HOUR)
    requires h != [] ==> h[|h| - 1] <= now
    requires Full(h, |h|) ==> now > h[|h| - 1] + 10 * MINUTE
    ensures var h1 := h + [now];
            && Ordered(h1) && Spaced(h1) && Failed(s, now).log == Log(h1, |h1|, HOUR)
            && (Full(h1, |h1|) ==> Failed(s, now).until == Some(now + 10 * MINUTE))
  {
    FailureStaysSpaced(h, now);
    LogAppends(h, now);
  }

  lemma LoginKeeps(h: seq<int>, s: KeyState, last: int, l: Login)
    requires KeyInv(h, s, last) && last <= l.asked <= l.recorded
    ensures KeyInv(if l.fails && !Blocked(s, l.asked) then h + [l.recorded] else h, Attempt(s, l), l.recorded)
  {
    if l.fails && !Blocked(s, l.asked) {
      FailureAppends(h, s.(until := None), l.recorded);
    }
  }

  lemma {:induction false} SerialLoginsKeep(logins: seq<Login>, n: nat)
    requires Serial(logins) && 0 < n <= |logins|
    ensures KeyInv(Failures(logins, n), AfterLogins(logins, n), logins[n - 1].recorded)
  {
    var l := logins[n - 1];
    if n == 1 {
      assert Failures(logins, 0) == [] && AfterLogins(logins, 0) == KeyState([], None);
      LoginKeeps([], KeyState([], None), l.asked, l);
    } else {
      SerialLoginsKeep(logins, n - 1);
      LoginKeeps(Failures(logins, n - 1), AfterLogins(logins, n - 1), logins[n - 2].recorded, l);
    }
  }

  /** Over any number of blocks and unblocks a key never has more than 20 recorded failures in any ten minutes,
      so its one-hour log never holds more than 120. */
  lemma LockoutBoundsFailures(logins: seq<Login>, t: int)
    requires Serial(logins)
    ensures CountIn(Failures(logins, |logins|), t - 10 * MINUTE, t) <= 20
    ensures |AfterLogins(logins, |logins|).log| <= 120
  {
    if logins != [] {
      SerialLoginsKeep(logins, |logins|);
    }
    var h := Failures(logins, |logins|);
    SpacedHold(h);
    AnyTenMinutes(h, 20, |h|, t);
    if h != [] {
      HourCountAgrees(h, |h|);
      AnyHour(h, 20, h[|h| - 1]);
    }
  }

  // ----- the service

  datatype Credential = Credential(proxy: string, customer: string, active: bool)

  datatype AuthResult = AuthResult(allowed: bool, customer: string)

  function LogOf(logs: map<string, seq<int>>, key: string): seq<int> {
    if key in logs then logs[key] else []
  }

  function LoginKey(proxy: string, username: string, clientIP: string): string {
    proxy + "|" + username + "|" + clientIP
  }

  /** Ids of proxies and addresses hold no bar; a user name may. */
  predicate Plain(proxy: string, clientIP: string) {
    '|' !in proxy && '|' !in clientIP
  }

  /** No two different logins share a key. */
  lemma LoginKeyIsInjective(
    proxy: string, username: string, clientIP: string, proxy2: string, username2: string, clientIP2: string)
    requires Plain(proxy, clientIP) && Plain(proxy2, clientIP2)
    ensures LoginKey(proxy, username, clientIP) == LoginKey(proxy2, username2, clientIP2) <==>
            proxy == proxy2 && username == username2 && clientIP == clientIP2
  {
    var a, b := LoginKey(proxy, username, clientIP), LoginKey(proxy2, username2, clientIP2);
    if a == b {
      assert a == proxy + "|" + (username + "|" + clientIP) && b == proxy2 + "|" + (username2 + "|" + clientIP2);
      SameBeforeBar(proxy, username + "|" + clientIP, proxy2, username2 + "|" + clientIP2);
      SameAfterBar(username, clientIP, username2, clientIP2);
    }
  }

  lemma KeysDiffer(proxy: string, username: string, clientIP: string)
    requires Plain(proxy, clientIP)
    ensures forall p, u, ip :: Plain(p, ip) && (p, u, ip) != (proxy, username, clientIP) ==>
              LoginKey(p, u, ip) != LoginKey(proxy, username, clientIP)
  {
    forall p, u, ip | Plain(p, ip) && (p, u, ip) != (proxy, username, clientIP)
      ensures LoginKey(p, u, ip) != LoginKey(proxy, username, clientIP)
    {
      LoginKeyIsInjective(p, u, ip, proxy, username, clientIP);
    }
  }

  lemma FirstBar(left: string, right: string)
    requires '|' !in left
    ensures var s := left + "|" + right; s[|left|] == '|' && forall i :: 0 <= i < |left| ==> s[i] != '|'
  {
  }

  lemma LastBar(left: string, right: string)
    requires '|' !in right
    ensures var s := left + "|" + right; s[|left|] == '|' && forall i :: |left| < i < |s| ==> s[i] != '|'
  {
    forall i | |left| < i < |left| + 1 + |right| ensures (left + "|" + right)[i] != '|' {
      assert (left + "|" + right)[i] == right[i - |left| - 1];
    }
  }

  lemma SameParts(left: string, right: string, left2: string, right2: string)
    requires left + "|" + right == left2 + "|" + right2 && |left| == |left2|
    ensures left == left2 && right == right2
  {
    var a, b := left + "|" + right, left2 + "|" + right2;
    assert left == a[..|left|] && left2 == b[..|left2|];
    assert right == a[|left| + 1..] && right2 == b[|left2| + 1..];
  }

  lemma SameBeforeBar(left: string, right: string, left2: string, right2: string)
    requires '|' !in left && '|' !in left2 && left + "|" + right == left2 + "|" + right2
    ensures left == left2 && right == right2
  {
    FirstBar(left, right);
    FirstBar(left2, right2);
    SameParts(left, right, left2, right2);
  }

  lemma SameAfterBar(left: string, right: string, left2: string, right2: string)
    requires '|' !in right && '|' !in right2 && left + "|" + right == left2 + "|" + right2
    ensures left == left2 && right == right2
  {
    LastBar(left, right);
    LastBar(left2, right2);
    SameParts(left, right, left2, right2);
  }

  /** Within one scope each customer has a log of its own, and those without a name share one. */
  lemma RateKeyIsInjective(identity: string, identity2: string, scope: string)
    ensures RateKey(identity, scope) == RateKey(identity2, scope) <==>
            (if identity == "" then "anonymous" else identity) == (if identity2 == "" then "anonymous" else identity2)
  {
    if RateKey(identity, scope) == RateKey(identity2, scope) {
      SameParts(scope, if identity == "" then "anonymous" else identity,
                scope, if identity2 == "" then "anonymous" else identity2);
    }
  }

  function RateKey(identity: string, scope: string): string {
    scope + "|" + if identity == "" then "anonymous" else identity
  }

  function Bumped(risk: map<string, int>, customer: string, delta: int): map<string, int> {
    if customer == "" then risk
    else
      var score := (if customer in risk then risk[customer] else 0) + delta;
      risk[customer := if score > 100 then 100 else score]
  }

  /** Every credential of that proxy and user name is suspended; user names are unique. */
  function Suspended(credentials: map<string, Credential>, proxy: string, username: string): map<string, Credential> {
    if username in credentials && credentials[username].proxy == proxy
    then credentials[username := credentials[username].(active := false)] else credentials
  }

  /** A warning costs 3 points of risk, a block 12 and a suspension 30, each capped at 100. */
  function Penalised(risk: map<string, int>, customer: string, e: Escalation): map<string, int> {
    var r1 := if e.warn then Bumped(risk, customer, 3) else risk;
    var r2 := if e.block then Bumped(r1, customer, 12) else r1;
    if e.suspend then Bumped(r2, customer, 30) else r2
  }

  class Service {
    var requests: map<string, seq<int>>
    var failedAuth: map<string, seq<int>>
    var tempBlocked: map<string, int>
    var credentials: map<string, Credential>
    var risk: map<string, int>

    ghost function KeyOf(key: string): KeyState
      reads this
    {
      KeyState(LogOf(failedAuth, key), if key in tempBlocked then Some(tempBlocked[key]) else None)
    }

    constructor (credentials: map<string, Credential>)
      ensures requests == map[] && risk == map[] && this.credentials == credentials
      ensures forall key :: KeyOf(key) == AfterLogins([], 0)
    {
      requests, failedAuth, tempBlocked, risk := map[], map[], map[], map[];
      this.credentials := credentials;
    }

    /** pruneTimes(append(log, now), now.Add(-window)) */
    static method Extend(log: seq<int>, now: int, window: int) returns (pruned: seq<int>)
      ensures pruned == Since(log + [now], now - window)
    {
      var values := new int[|log| + 1](i requires 0 <= i <= |log| => if i < |log| then log[i] else now);
      assert values[..] == log + [now];
      var n := PruneTimes(values, now - window);
      pruned := values[..n];
    }

    method CheckRequestRate(identity: string, scope: string, limit: int, window: int, now: int) returns (ok: bool)
      modifies this`requests
      ensures var key := RateKey(identity, scope);
              var log := Since(LogOf(old(requests), key) + [now], now - window);
              requests == old(requests)[key := log] && (ok <==> |log| <= limit)
    {
      var id := identity;
      if id == "" {
        id := "anonymous";
      }
      var key := scope + "|" + id;
      var log := Extend(LogOf(requests, key), now, window);
      requests := requests[key := log];
      ok := |requests[key]| <= limit;
    }

    method BumpRisk(customer: string, delta: int)
      modifies this`risk
      ensures risk == Bumped(old(risk), customer, delta)
    {
      if customer == "" {
        return;
      }
      var score := 0;
      if customer in risk {
        score := risk[customer];
      }
      score := score + delta;
      if score > 100 {
        score := 100;
      }
      risk := risk[customer := score];
    }

    method RecordFailedAuth(customer: string, proxy: string, username: string, clientIP: string, now: int)
      modifies this`failedAuth, this`tempBlocked, this`credentials, this`risk
      ensures KeyOf(LoginKey(proxy, username, clientIP)) == Failed(old(KeyOf(LoginKey(proxy, username, clientIP))), now)
      ensures forall key :: key != LoginKey(proxy, username, clientIP) ==> KeyOf(key) == old(KeyOf(key))
      ensures Plain(proxy, clientIP) ==>
                forall p, u, ip :: Plain(p, ip) && (p, u, ip) != (proxy, username, clientIP) ==>
                  KeyOf(LoginKey(p, u, ip)) == old(KeyOf(LoginKey(p, u, ip)))
      ensures var e := Escalate(KeyOf(LoginKey(proxy, username, clientIP)).log, now);
              && credentials == (if e.suspend then Suspended(old(credentials), proxy, username) else old(credentials))
              && risk == Penalised(old(risk), customer, e)
    {
      var key := LoginKey(proxy, username, clientIP);
      var log := Extend(LogOf(failedAuth, key), now, HOUR);
      ghost var e := Escalate(log, now);
      failedAuth := failedAuth[key := log];
      var count5 := CountSince(log, now - 5 * MINUTE);
      var count10 := CountSince(log, now - 10 * MINUTE);
      var count60 := |log|;
      if count5 >= 5 {
        BumpRisk(customer, 3);
      }
      assert risk == if e.warn then Bumped(old(risk), customer, 3) else old(risk);
      if count10 >= 20 {
        tempBlocked := tempBlocked[key := now + 10 * MINUTE];
        BumpRisk(customer, 12);
      }
      if count60 >= 50 {
        SuspendCredential(proxy, username);
        BumpRisk(customer, 30);
      }
      if Plain(proxy, clientIP) {
        KeysDiffer(proxy, username, clientIP);
      }
    }

    /** The update of the credential rows. */
    method SuspendCredential(proxy: string, username: string)
      modifies this`credentials
      ensures credentials == Suspended(old(credentials), proxy, username)
    {
      if username in credentials && credentials[username].proxy == proxy {
        credentials := credentials[username := credentials[username].(active := false)];
      }
    }

    method BlockedUntil(key: string, now: int) returns (blocked: bool)
      modifies this`tempBlocked
      ensures blocked <==> Blocked(old(KeyOf(key)), now)
      ensures KeyOf(key) == if blocked then old(KeyOf(key)) else old(KeyOf(key)).(until := None)
      ensures forall k :: k != key ==> KeyOf(k) == old(KeyOf(k))
    {
      if key !in tempBlocked || tempBlocked[key] < now {
        tempBlocked := tempBlocked - {key};
        return false;
      }
      blocked := true;
    }

    /** `matches` and `ipAllowed` stand for the password hash and the whitelist; the three times are the clock
        readings of the block look-up, of the recorded failure and of the rate check. */
    method ValidateProxyCredential(proxy: string, username: string, matches: bool, clientIP: string, ipAllowed: bool,
                                   asked: int, recorded: int, checked: int) returns (result: AuthResult)
      modifies this
      ensures var key := LoginKey(proxy, username, clientIP);
              var right := matches && username in old(credentials) && old(credentials)[username].proxy == proxy &&
                           old(credentials)[username].active;
              && KeyOf(key) == Attempt(old(KeyOf(key)), Login(asked, recorded, !right))
              && (forall k :: k != key ==> KeyOf(k) == old(KeyOf(k)))
      ensures Plain(proxy, clientIP) ==>
                forall p, u, ip :: Plain(p, ip) && (p, u, ip) != (proxy, username, clientIP) ==>
                  KeyOf(LoginKey(p, u, ip)) == old(KeyOf(LoginKey(p, u, ip)))
      ensures var key := proxy + "|" + username + "|" + clientIP;
              var known := username in old(credentials) && old(credentials)[username].proxy == proxy &&
                           old(credentials)[username].active;
              var blocked := key in old(tempBlocked) && asked <= old(tempBlocked)[key];
              var customer := if known && !blocked then old(credentials)[username].customer else "";
              var rate := "proxy-auth" + "|" + if customer == "" then "anonymous" else customer;
              var log := Since(LogOf(old(requests), rate) + [checked], checked - MINUTE);
              var e := Escalate(KeyOf(key).log, recorded);
              var (wrong, far) := (!blocked && !(known && matches), !blocked && known && matches && ipAllowed);
              && result == AuthResult(far && |log| <= 120, customer)
              && requests == (if far then old(requests)[rate := log] else old(requests))
              && credentials == (if wrong && e.suspend then Suspended(old(credentials), proxy, username)
                                 else old(credentials))
              && risk == (if wrong then Penalised(old(risk), customer, e)
                          else if !blocked && !ipAllowed then Bumped(old(risk), customer, 8) else old(risk))
    {
      if Plain(proxy, clientIP) {
        KeysDiffer(proxy, username, clientIP);
      }
      var key := LoginKey(proxy, username, clientIP);
      var blocked := BlockedUntil(key, asked);
      if blocked {
        return AuthResult(false, "");
      }
      if username !in credentials || credentials[username].proxy != proxy || !credentials[username].active {
        RecordFailedAuth("", proxy, username, clientIP, recorded);
        return AuthResult(false, "");
      }
      var customer := credentials[username].customer;
      if !matches {
        RecordFailedAuth(customer, proxy, username, clientIP, recorded);
        return AuthResult(false, customer);
      }
      if !ipAllowed {
        BumpRisk(customer, 8);
        return AuthResult(false, customer);
      }
      var ok := CheckRequestRate(customer, "proxy-auth", 120, MINUTE, checked);
      result := AuthResult(ok, customer);
    }
  }
}
