/** Whose failures a login pays for, over any run of calls by any users, and what failures cost. */
module AbuseAnswers {
  import opened Wrappers
  import opened SlidingWindow
  import opened Abuse

  // ----- one state per proxy, user and address

  datatype Call = Call(proxy: string, username: string, clientIP: string, login: Login)

  function StateOf(keys: map<string, KeyState>, key: string): KeyState {
    if key in keys then keys[key] else KeyState([], None)
  }

  /** The states of all keys after the first n calls: each call changes that of its own key. */
  function AfterCalls(calls: seq<Call>, n: nat): map<string, KeyState>
    requires n <= |calls|
  {
    if n == 0 then map[]
    else
      var keys, c := AfterCalls(calls, n - 1), calls[n - 1];
      var key := LoginKey(c.proxy, c.username, c.clientIP);
      keys[key := Attempt(StateOf(keys, key), c.login)]
  }

  /** The logins among the first n calls that are made for the proxy by the user from the address. */
  function Own(calls: seq<Call>, n: nat, proxy: string, username: string, clientIP: string): seq<Login>
    requires n <= |calls|
  {
    if n == 0 then []
    else
      var c, before := calls[n - 1], Own(calls, n - 1, proxy, username, clientIP);
      if c.proxy == proxy && c.username == username && c.clientIP == clientIP then before + [c.login] else before
  }

  predicate AllPlain(calls: seq<Call>) {
    forall i :: 0 <= i < |calls| ==> Plain(calls[i].proxy, calls[i].clientIP)
  }

  lemma {:induction false} PrefixState(a: seq<Login>, b: seq<Login>, n: nat)
    requires n <= |a| && n <= |b| && forall i :: 0 <= i < n ==> a[i] == b[i]
    ensures AfterLogins(a, n) == AfterLogins(b, n)
  {
    if n > 0 {
      PrefixState(a, b, n - 1);
    }
  }

  /** After every run of calls by whomever, what is kept for a proxy, user and address is what its own calls alone
      would have left. */
  lemma {:induction false} KeysAreSeparate(
    calls: seq<Call>, n: nat, proxy: string, username: string, clientIP: string)
    requires n <= |calls| && AllPlain(calls) && Plain(proxy, clientIP)
    ensures var own := Own(calls, n, proxy, username, clientIP);
            StateOf(AfterCalls(calls, n), LoginKey(proxy, username, clientIP)) == AfterLogins(own, |own|)
  {
    if n > 0 {
      KeysAreSeparate(calls, n - 1, proxy, username, clientIP);
      var c, before := calls[n - 1], Own(calls, n - 1, proxy, username, clientIP);
      LoginKeyIsInjective(c.proxy, c.username, c.clientIP, proxy, username, clientIP);
      PrefixState(before + [c.login], before, |before|);
    }
  }

  // ----- when a login is refused at the block

  /** A block is in force only if the latest failure set it, ten minutes long. */
  predicate BlockFits(h: seq<int>, s: KeyState) {
    s.until.Some? ==> h != [] && Full(h, |h|) && s.until.value == h[|h| - 1] + 10 * MINUTE
  }

  lemma {:induction false} BlockAlwaysFits(logins: seq<Login>, n: nat)
    requires Serial(logins) && n <= |logins|
    ensures BlockFits(Failures(logins, n), AfterLogins(logins, n))
  {
    if n > 0 {
      BlockAlwaysFits(logins, n - 1);
      var h, s, l := Failures(logins, n - 1), AfterLogins(logins, n - 1), logins[n - 1];
      if l.fails && !Blocked(s, l.asked) {
        if n > 1 {
          SerialLoginsKeep(logins, n - 1);
        }
        LogAppends(h, l.recorded);
      }
    }
  }

  /** Where calls come one after another, a login is refused at the block exactly when the latest failure was the
      twentieth or later of its ten minutes and is not ten minutes over. */
  lemma RefusedExactly(logins: seq<Login>, asked: int)
    requires Serial(logins) && (logins != [] ==> logins[|logins| - 1].recorded <= asked)
    ensures var h := Failures(logins, |logins|);
            Blocked(AfterLogins(logins, |logins|), asked) <==>
            && h != [] && CountIn(h, h[|h| - 1] - 600_000_000_000, h[|h| - 1]) >= 20
            && asked <= h[|h| - 1] + 600_000_000_000
  {
    var h := Failures(logins, |logins|);
    BlockAlwaysFits(logins, |logins|);
    if logins != [] {
      SerialLoginsKeep(logins, |logins|);
      if h != [] {
        CountInIsAfter(h, |h|, h[|h| - 1] - 10 * MINUTE, h[|h| - 1]);
      }
    }
  }

  /** So whoever logs in pays for failures at the same proxy, under the same name and from the same address only. */
  lemma RefusedForOwnFailures(calls: seq<Call>, n: nat)
    requires n < |calls| && AllPlain(calls)
    requires var c := calls[n]; var own := Own(calls, n, c.proxy, c.username, c.clientIP);
             Serial(own) && (own != [] ==> own[|own| - 1].recorded <= c.login.asked)
    ensures var c := calls[n];
            var h := Failures(Own(calls, n, c.proxy, c.username, c.clientIP),
                              |Own(calls, n, c.proxy, c.username, c.clientIP)|);
            Blocked(StateOf(AfterCalls(calls, n), LoginKey(c.proxy, c.username, c.clientIP)), c.login.asked) <==>
            && h != [] && CountIn(h, h[|h| - 1] - 600_000_000_000, h[|h| - 1]) >= 20
            && c.login.asked <= h[|h| - 1] + 600_000_000_000
  {
    var c := calls[n];
    KeysAreSeparate(calls, n, c.proxy, c.username, c.clientIP);
    RefusedExactly(Own(calls, n, c.proxy, c.username, c.clientIP), c.login.asked);
  }

  /** After a failure its key's log warns at 5 in five minutes, blocks at 20 in ten and suspends at 50 in an hour,
      of all failures there ever were. */
  lemma EscalatesExactly(h: seq<int>, n: nat)
    requires Ordered(h) && 0 < n <= |h|
    ensures var now, e := h[n - 1], Escalate(Log(h, n, HOUR), h[n - 1]);
            && (e.warn <==> CountInUpto(h, n, now - 300_000_000_000, now) >= 5)
            && (e.block <==> CountInUpto(h, n, now - 600_000_000_000, now) >= 20)
            && (e.suspend <==> CountInUpto(h, n, now - 3_600_000_000_000, now) >= 50)
  {
    EscalationAgreesWithHistory(h, n);
  }

  // ----- what failures cost

  /** A failure costs its customer 3 points for a warning, 12 for a block and 30 for a suspension, up to 100 in all, and
      nobody else anything. */
  lemma PenaltyIs(risk: map<string, int>, customer: string, e: Escalation)
    ensures var after := Penalised(risk, customer, e);
            var cost := (if e.warn then 3 else 0) + (if e.block then 12 else 0) + (if e.suspend then 30 else 0);
            && after - {customer} == risk - {customer}
            && (customer == "" || cost == 0 ==> after == risk)
            && (customer != "" && cost > 0 ==>
                  var before := if customer in risk then risk[customer] else 0;
                  customer in after && after[customer] == if before + cost > 100 then 100 else before + cost)
  {
  }

  /** A suspension takes the one credential of that proxy and user name out of use. */
  lemma SuspensionIs(credentials: map<string, Credential>, proxy: string, username: string)
    ensures var after := Suspended(credentials, proxy, username);
            && after.Keys == credentials.Keys
            && forall u :: u in credentials ==>
                 after[u] == if u == username && credentials[u].proxy == proxy
                             then credentials[u].(active := false) else credentials[u]
  {
  }
}
