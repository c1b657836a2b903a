/** What the bodies of the command bus leave behind, said of the rows, messages and clock readings alone. */
module CommandBusAnswers {
  import opened Wrappers
  import opened CommandBus
  import opened CommandBusSafety
  import opened CommandBusStable

  // ----- the timeout monitor

  lemma ListedIsActive(w: World, active: seq<Command>, c: Id)
    requires ListsActive(w.rows, active) && c in w.rows && w.rows[c].id == c
    ensures Among(active, c) <==> w.rows[c].status == Dispatched || w.rows[c].status == Executing
  {
    if Among(active, c) {
      var i :| 0 <= i < |active| && active[i].id == c;
      assert w.rows[active[i].id] == active[i];
    }
    assert w.rows[c] in active ==> Among(active, c);
  }

  /** A listed row is timed out exactly when its time limit has passed since it was dispatched, or since it was created
      if it never was; nothing else of it changes, and no other row does. */
  lemma SweepTimesOutExactly(w: World, active: seq<Command>, now: int, c: Id)
    requires ListsActive(w.rows, active) && c in w.rows && w.rows[c].id == c
    ensures c in Swept(w, active, now).rows
    ensures var k, k1 := w.rows[c], Swept(w, active, now).rows[c];
            if k.status == Dispatched || k.status == Executing
            then
              && (k.dispatchedAt.Some? ==>
                    (k1.status == Timeout <==> now - k.dispatchedAt.value > k.timeoutSeconds * 1_000_000_000))
              && (k.dispatchedAt.None? ==>
                    (k1.status == Timeout <==> now - k.createdAt > k.timeoutSeconds * 1_000_000_000))
              && k1 == if k1.status == Timeout then k.(status := Timeout, lastError := "execution timed out") else k
            else k1 == k
  {
    SweptRow(w, active, now, c);
    ListedIsActive(w, active, c);
  }

  /** The same of one turn of a pass that others interrupt, which goes by the copy it listed and by its own reading. */
  lemma SweepTurnTimesOutExactly(w: World, t: nat)
    requires Enabled(w, SweepNext(t))
    ensures var k, from := w.threads[t].todo[0], w.threads[t].todo[0].dispatchedAt;
            Apply(w, SweepNext(t)).rows ==
            if w.threads[t].now - (if from == None then k.createdAt else from.value) > k.timeoutSeconds * 1_000_000_000
            then w.rows[k.id := k.(status := Timeout, lastError := "execution timed out")]
            else w.rows
  {
  }

  // ----- a session in which the monitor never reads late

  predicate Active(k: Command) {
    k.status == Dispatched || k.status == Executing
  }

  /** The command has not timed out, and whatever is dispatched of it, or about to be, was dispatched since `from`. */
  ghost predicate Recent(w: World, f: Focus, from: int, seconds: int) {
    && f.id in w.rows && w.rows[f.id].timeoutSeconds == seconds && w.rows[f.id].status != Timeout
    && (Active(w.rows[f.id]) ==> w.rows[f.id].dispatchedAt.Some? && w.rows[f.id].dispatchedAt.value >= from)
    && (forall u :: AttemptIn(w, u, Loaded) && w.threads[u].cmd.id == f.id ==>
          w.threads[u].cmd.dispatchedAt.Some? && w.threads[u].cmd.dispatchedAt.value >= from)
  }

  /** Attempts at the command load at `from` or later, and the monitor reads at most its time limit after that. */
  predicate Punctual(w: World, ev: Event, f: Focus, from: int, seconds: int) {
    match ev
    case Single(s) => s.Load? && MentionedIn(w, s.t, f.id) ==> s.now >= from
    case Handle(_, _, _) => true
    case Monitor(_, now, _) => now <= from + seconds * 1_000_000_000
  }

  ghost predicate AllPunctual(w: World, evs: seq<Event>, f: Focus, from: int, seconds: int)
    requires Session(w, evs, f)
    decreases |evs|
  {
    evs == [] ||
    (Punctual(w, evs[0], f, from, seconds) && AllPunctual(After(w, StepsOf(w, evs[0], f)), evs[1..], f, from, seconds))
  }

  lemma OtherStaysRecent(w: World, s: Step, f: Focus, b: Option<nat>, from: int, seconds: int)
    requires StableAt(w, f, b) && Enabled(w, s) && !Concerns(w, s, f) && Recent(w, f, from, seconds)
    ensures Recent(Apply(w, s), f, from, seconds)
  {
    StepKeepsInv(w, s);
    OtherStepIgnores(w, s, f);
    OthersKeep(w, EffectOf(w, s), f, b);
    var w1 := Apply(w, s);
    forall u | AttemptIn(w1, u, Loaded) && w1.threads[u].cmd.id == f.id
      ensures w1.threads[u].cmd.dispatchedAt.Some? && w1.threads[u].cmd.dispatchedAt.value >= from
    {
      assert Mentions(w1.threads[u], f.id);
      assert AttemptIn(w, u, Loaded);
    }
  }

  lemma AttemptStaysRecent(w: World, s: Step, f: Focus, t: nat, from: int, seconds: int)
    requires StableAt(w, f, Some(t)) && Enabled(w, s) && OwnStep(w, s, f) && Recent(w, f, from, seconds)
    requires (s.Spawn? || s.Save? || s.Send?) || (s.Load? && s.now >= from)
    ensures Recent(Apply(w, s), f, from, seconds)
  {
    var w1 := Apply(w, s);
    forall u | AttemptIn(w1, u, Loaded) && w1.threads[u].cmd.id == f.id ensures u == t && s.Load? {
      if u in w.threads && w1.threads[u] == w.threads[u] {
        assert Mentions(w.threads[u], f.id);
      }
    }
  }

  lemma AgentLoadsNothing(w: World, s: Step)
    requires Enabled(w, s) && (s.Transmit? || s.Receive? || s.Announce? || s.Finish?)
    ensures Apply(w, s).rows == w.rows
    ensures forall u :: AttemptIn(Apply(w, s), u, Loaded) ==>
              AttemptIn(w, u, Loaded) && Apply(w, s).threads[u] == w.threads[u]
  {
  }

  lemma AgentStaysRecent(w: World, s: Step, f: Focus, from: int, seconds: int)
    requires Enabled(w, s) && OwnStep(w, s, f) && !OfAttempt(s) && Recent(w, f, from, seconds)
    ensures Recent(Apply(w, s), f, from, seconds)
  {
    AgentLoadsNothing(w, s);
  }

  lemma AnsweredStaysRecent(w: World, m: nat, t: nat, now: int, f: Focus, from: int, seconds: int)
    requires StableAt(w, f, Some(m)) && Allowed(w, Handle(m, t, now), f) && Recent(w, f, from, seconds)
    requires Heeds(w, f.id, w.threads[m].outbox[0])
    ensures Recent(Handled(w, m, t, now), f, from, seconds)
  {
    var w1 := Handled(w, m, t, now);
    forall u | AttemptIn(w1, u, Loaded) ensures AttemptIn(w, u, Loaded) && w1.threads[u] == w.threads[u] {
    }
    assert Active(w.rows[f.id]);
    assert RowBounded(w, f.id);
  }

  lemma IgnoredStaysRecent(w: World, m: nat, t: nat, f: Focus, from: int, seconds: int)
    requires Enabled(w, Consume(m, t)) && Recent(w, f, from, seconds)
    ensures Recent(Commit(w, ConsumeEffect(w, m, t)), f, from, seconds)
  {
    var w1 := Commit(w, ConsumeEffect(w, m, t));
    forall u | AttemptIn(w1, u, Loaded) ensures AttemptIn(w, u, Loaded) && w1.threads[u] == w.threads[u] {
    }
  }

  lemma HandleStaysRecent(w: World, m: nat, t: nat, now: int, f: Focus, from: int, seconds: int)
    requires StableAt(w, f, Some(m)) && Allowed(w, Handle(m, t, now), f) && Recent(w, f, from, seconds)
    requires Runs(w, HandleSteps(w, m, t, now))
    ensures Recent(After(w, HandleSteps(w, m, t, now)), f, from, seconds)
  {
    if Heeds(w, f.id, w.threads[m].outbox[0]) {
      HandleRuns(w, m, t, now);
      AnsweredStaysRecent(w, m, t, now, f, from, seconds);
    } else {
      RunFirst(w, Consume(m, t), []);
      IgnoredStaysRecent(w, m, t, f, from, seconds);
    }
  }

  lemma MonitorStaysRecent(w: World, t: nat, now: int, active: seq<Command>, f: Focus, from: int, seconds: int)
    requires Inv(w) && t !in w.threads && ListsActive(w.rows, active) && Recent(w, f, from, seconds)
    requires now <= from + seconds * 1_000_000_000
    ensures Recent(Swept(w, active, now), f, from, seconds)
  {
    assert RowBounded(w, f.id);
    SweepTimesOutExactly(w, active, now, f.id);
    assert forall u :: AttemptIn(Swept(w, active, now), u, Loaded) ==> AttemptIn(w, u, Loaded);
  }

  lemma EventStaysRecent(w: World, ev: Event, f: Focus, b: Option<nat>, from: int, seconds: int)
    requires StableAt(w, f, b) && Allowed(w, ev, f) && Runs(w, StepsOf(w, ev, f))
    requires Recent(w, f, from, seconds) && Punctual(w, ev, f, from, seconds)
    ensures Recent(After(w, StepsOf(w, ev, f)), f, from, seconds)
  {
    match ev
    case Single(s) =>
      RunFirst(w, s, []);
      if !Concerns(w, s, f) {
        OtherStaysRecent(w, s, f, b, from, seconds);
      } else if OfAttempt(s) {
        AttemptStaysRecent(w, s, f, b.value, from, seconds);
      } else {
        AgentStaysRecent(w, s, f, from, seconds);
      }
    case Handle(m, t, now) =>
      assert Mentions(w.threads[m], f.id);
      HandleStaysRecent(w, m, t, now, f, from, seconds);
    case Monitor(t, now, active) =>
      MonitorRuns(w, t, now, active);
      MonitorStaysRecent(w, t, now, active, f, from, seconds);
  }

  lemma {:induction false} SessionStaysRecent(
    w: World, evs: seq<Event>, f: Focus, b: Option<nat>, from: int, seconds: int)
    requires StableAt(w, f, b) && Session(w, evs, f) && Recent(w, f, from, seconds)
    requires AllPunctual(w, evs, f, from, seconds)
    ensures Recent(AfterSession(w, evs, f), f, from, seconds)
    decreases |evs|
  {
    if evs != [] {
      EventStaysRecent(w, evs[0], f, b, from, seconds);
      var b1 := EventMoves(w, evs[0], f, b);
      SessionStaysRecent(After(w, StepsOf(w, evs[0], f)), evs[1..], f, b1, from, seconds);
    }
  }

  /** A command dispatched on a connection is not timed out within its time limit after its attempts load, however long
      before that it was created. */
  lemma NotTimedOutInTime(w: World, t: nat, cmd: Command, created: int, evs: seq<Event>, f: Focus, from: int)
    requires Inv(w) && Enabled(w, Create(t, cmd, created)) && cmd.id == f.id && cmd.agent == f.agent
    requires cmd.attempts == 0 && cmd.maxAttempts >= 0
    requires f.agent in w.registry && w.registry[f.agent] == f.chan && f.chan in w.channels
    requires !w.channels[f.chan].closed
    requires forall u :: u in w.threads ==> w.threads[u] != Listing(f.agent)
    requires Session(Apply(w, Create(t, cmd, created)), evs, f)
    requires AllPunctual(Apply(w, Create(t, cmd, created)), evs, f, from,
                         if cmd.timeoutSeconds == 0 then 120 else cmd.timeoutSeconds)
    ensures var w1 := AfterSession(Apply(w, Create(t, cmd, created)), evs, f);
            f.id in w1.rows && w1.rows[f.id].status != Timeout
  {
    DispatchStarts(w, t, cmd, created, f);
    var w0, seconds := Apply(w, Create(t, cmd, created)), if cmd.timeoutSeconds == 0 then 120 else cmd.timeoutSeconds;
    forall u | AttemptIn(w0, u, Loaded) ensures w0.threads[u].cmd.id != f.id {
      assert u != t;
      UnknownIsUnmentioned(w, f.id);
    }
    SessionStaysRecent(w0, evs, f, Some(t), from, seconds);
  }

  // ----- dispatching and attempting

  /** What Dispatch stores: the command as it came, pending since now, three attempts and two minutes by default. */
  lemma DispatchStores(w: World, t: nat, cmd: Command, now: int)
    requires Enabled(w, Create(t, cmd, now))
    ensures var w1 := Apply(w, Create(t, cmd, now));
            && cmd.id in w1.rows && w1.rows - {cmd.id} == w.rows && t in w1.threads
            && w1.threads[t] == Spawning(w1.rows[cmd.id])
            && w1.rows[cmd.id] == cmd.(status := Pending, createdAt := now,
                                       maxAttempts := w1.rows[cmd.id].maxAttempts,
                                       timeoutSeconds := w1.rows[cmd.id].timeoutSeconds)
            && w1.rows[cmd.id].maxAttempts == (if cmd.maxAttempts == 0 then 3 else cmd.maxAttempts)
            && w1.rows[cmd.id].timeoutSeconds == (if cmd.timeoutSeconds == 0 then 120 else cmd.timeoutSeconds)
  {
    assert (w.rows[cmd.id := Accepted(cmd, now)] - {cmd.id}) == w.rows;
  }

  /** An attempt on a connected agent stores its own copy as dispatched now, with one attempt more, and holds the
      channel found; without a connection it stores nothing. */
  lemma AttemptStores(w: World, t: nat, now: int)
    requires AttemptIn(w, t, Start)
    ensures var cmd, w1 := w.threads[t].cmd, Apply(w, Load(t, now));
            && w1.rows == w.rows
            && (AttemptIn(w1, t, Loaded) <==> cmd.agent in w.registry)
            && (cmd.agent in w.registry ==>
                  && w1.threads[t].chan == w.registry[cmd.agent]
                  && Apply(w1, Save(t)).rows ==
                     w.rows[cmd.id := cmd.(status := Dispatched, dispatchedAt := Some(now),
                                           attempts := cmd.attempts + 1)])
  {
    var cmd, w1 := w.threads[t].cmd, Apply(w, Load(t, now));
    if cmd.agent in w.registry {
      assert w1.threads[t] == Attempting(Loaded, Sent(cmd, now), w.registry[cmd.agent], w.threads[t].rest);
    } else {
      ScanIsNotLoaded(w.threads[t].rest);
    }
  }

  lemma ScanIsNotLoaded(todo: seq<Command>)
    ensures Scan(todo).Some? ==> Scan(todo).value.Attempting? && Scan(todo).value.phase == Start
  {
  }

  /** A send queues the command's message at the end of the channel's buffer when fewer than a hundred are there; else
      the row goes back to pending, as the attempt dispatched it, attempt counted. */
  lemma SendAnswers(w: World, t: nat, m: nat)
    requires Enabled(w, Send(t, m))
    ensures var th, w1 := w.threads[t], Apply(w, Send(t, m));
            && w1.rows == w.rows && th.chan in w1.channels
            && if |w.channels[th.chan].buffer| < 100
               then w1.channels[th.chan].buffer == w.channels[th.chan].buffer + [m] && m in w1.threads &&
                    w1.threads[m] == Message(th.cmd.id, false)
               else w1.channels == w.channels && AttemptIn(w1, t, Reverting) &&
                    Apply(w1, PutBack(t)).rows == w.rows[th.cmd.id := th.cmd.(status := Pending)]
  {
  }

  // ----- reports

  /** HandleResult goes on exactly for a row that is there and not yet over and one of the three known reports. */
  lemma ReadGoesOnExactly(w: World, t: nat, c: Id, report: Report)
    requires t !in w.threads
    ensures Enabled(w, Read(t, c, report)) <==>
            && c in w.rows && (w.rows[c].status in {Pending, Dispatched, Executing})
            && (report.SaysExecuting? || report.SaysCompleted? || report.SaysFailed?)
  {
  }

  /** A failed command is retried exactly while it has attempts left, and is a dead letter otherwise; the other two
      reports are stored with their time. */
  lemma ReportIsStored(w: World, t: nat, now: int)
    requires Enabled(w, Answer(t, now)) && !w.threads[t].report.SaysOther?
    ensures var cmd, report, w1 := w.threads[t].cmd, w.threads[t].report, Apply(w, Answer(t, now));
            && cmd.id in w1.rows && w1.rows == w.rows[cmd.id := w1.rows[cmd.id]]
            && (report.SaysExecuting? ==>
                  w1.rows[cmd.id] == cmd.(status := Executing, executedAt := Some(now)) && t !in w1.threads)
            && (report.SaysCompleted? ==>
                  w1.rows[cmd.id] == cmd.(status := Completed, completedAt := Some(now), result := report.result) &&
                  t !in w1.threads)
            && (report.SaysFailed? && cmd.attempts < cmd.maxAttempts ==>
                  w1.rows[cmd.id] == cmd.(status := Pending, lastError := report.error) &&
                  t in w1.threads && w1.threads[t] == Spawning(w1.rows[cmd.id]))
            && (report.SaysFailed? && cmd.attempts >= cmd.maxAttempts ==>
                  w1.rows[cmd.id] == cmd.(status := DeadLetter, lastError := report.error) && t !in w1.threads)
  {
  }

  // ----- connecting

  /** A connection is stored under its agent, its channel open and empty, and a scan for the agent starts; the last
      one stored counts. Disconnecting only removes the entry. */
  lemma ConnectionIsStored(w: World, t: nat, agent: Id, chan: Id)
    requires Enabled(w, Register(t, agent, chan))
    ensures var w1 := Apply(w, Register(t, agent, chan));
            && w1.rows == w.rows && w1.registry == w.registry[agent := chan]
            && w1.channels == w.channels[chan := Channel([], false)] && w1.threads == w.threads[t := Listing(agent)]
    ensures var w1 := Apply(w, Unregister(agent));
            && w1.rows == w.rows && w1.registry == w.registry - {agent}
            && w1.channels == w.channels && w1.threads == w.threads
  {
  }

  /** A scan has before it exactly the agent's pending rows, each once, oldest first, and starts with the oldest. */
  lemma ScanTriesExactly(w: World, t: nat, listed: seq<Command>)
    requires Enabled(w, List(t, listed))
    ensures var agent := w.threads[t].agent;
            && (forall k :: k in listed <==>
                  (k.id in w.rows && w.rows[k.id] == k && k.status == Pending && k.agent == agent))
            && (forall i, j :: 0 <= i < j < |listed| ==>
                  listed[i].id != listed[j].id && listed[i].createdAt <= listed[j].createdAt)
    ensures var w1 := Apply(w, List(t, listed));
            && w1.rows == w.rows
            && (t in w1.threads <==> listed != [])
            && (t in w1.threads ==>
                  AttemptIn(w1, t, Start) && [w1.threads[t].cmd] + w1.threads[t].rest == listed)
  {
  }
}
