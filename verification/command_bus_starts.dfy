/** Every start of a command at its agent is accounted for, under every interleaving: whatever sets a command on its
    way does so for one start, and that start happens, is lost, is given up, or is still to come. */
module CommandBusStarts {
  import opened Wrappers
  import opened CommandBus
  import opened CommandBusSafety

  /** The goroutine or message can still lead to a start of c. */
  predicate Underway(th: Thread, c: Id) {
    match th
    case Spawning(cmd) => cmd.id == c
    case Attempting(phase, cmd, _, rest) => (cmd.id == c && phase != Reverting) || Among(rest, c)
    case Message(about, _) => about == c
    case _ => false
  }

  ghost function AllUnderway(threads: map<nat, Thread>, c: Id): set<nat> {
    set t | t in threads && Underway(threads[t], c)
  }

  predicate Distinct(todo: seq<Command>) {
    forall i, j :: 0 <= i < j < |todo| ==> todo[i].id != todo[j].id
  }

  /** No scan has the same command before it twice. */
  predicate Once(th: Thread) {
    th.Attempting? ==> !Among(th.rest, th.cmd.id) && Distinct(th.rest)
  }

  ghost predicate AllOnce(w: World) {
    forall t :: t in w.threads ==> Once(w.threads[t])
  }

  /** The starts there were and those that may still come. */
  ghost function Starts(w: World, c: Id): nat {
    CountOf(w.executions, c) + |AllUnderway(w.threads, c)|
  }

  // ----- what a step opens and gives up

  /** The step sets c on its way: its creation, a scan that lists it, a report that has it retried. */
  predicate Opens(w: World, s: Step, c: Id) {
    match s
    case Create(_, cmd, _) => cmd.id == c
    case List(_, listed) => Among(listed, c)
    case Answer(t, _) => t in w.threads && w.threads[t].Reporting? && w.threads[t].cmd.id == c &&
      Retries(w.threads[t].cmd, w.threads[t].report)
    case _ => false
  }

  /** The step ends an attempt at c without a start: no connection, a full buffer, a message lost. */
  predicate GivesUp(w: World, s: Step, c: Id) {
    match s
    case Load(t, _) => t in w.threads && w.threads[t].Attempting? && w.threads[t].cmd.id == c &&
      w.threads[t].cmd.agent !in w.registry
    case Send(t, _) => t in w.threads && w.threads[t].Attempting? && w.threads[t].cmd.id == c &&
      w.threads[t].chan in w.channels && |w.channels[w.threads[t].chan].buffer| >= SEND_BUFFER
    case Lose(m) => m in w.threads && w.threads[m].Message? && w.threads[m].about == c
    case _ => false
  }

  function One(b: bool): nat {
    if b then 1 else 0
  }

  predicate UnderwayAt(threads: map<nat, Thread>, t: nat, c: Id) {
    t in threads && Underway(threads[t], c)
  }

  function Replaced(threads: map<nat, Thread>, t: nat, th: Option<Thread>): map<nat, Thread> {
    if th.Some? then threads[t := th.value] else threads - {t}
  }

  predicate OnceIf(th: Option<Thread>) {
    th.Some? ==> Once(th.value)
  }

  lemma OthersStay(threads: map<nat, Thread>, t: nat, th: Option<Thread>, c: Id)
    ensures AllUnderway(Replaced(threads, t, th), c) - {t} == AllUnderway(threads, c) - {t}
  {
  }

  /** Replacing thread t changes what is under way at t alone. */
  lemma OneChanges(threads: map<nat, Thread>, t: nat, th: Option<Thread>, c: Id)
    ensures |AllUnderway(Replaced(threads, t, th), c)| ==
            |AllUnderway(threads, c)| - One(UnderwayAt(threads, t, c)) + One(th.Some? && Underway(th.value, c))
  {
    var before, after := AllUnderway(threads, c), AllUnderway(Replaced(threads, t, th), c);
    OthersStay(threads, t, th, c);
    assert |before| == |before - {t}| + One(t in before);
    assert |after| == |after - {t}| + One(t in after);
  }

  lemma ScanTakesRest(todo: seq<Command>, c: Id)
    requires Distinct(todo)
    ensures Scan(todo).Some? ==> Once(Scan(todo).value)
    ensures (Scan(todo).Some? && Underway(Scan(todo).value, c)) <==> Among(todo, c)
  {
    if todo != [] {
      assert forall i :: 0 <= i < |todo| - 1 ==> todo[1..][i] == todo[i + 1];
      if Among(todo, c) && todo[0].id != c {
        var i :| 0 <= i < |todo| && todo[i].id == c;
        assert todo[1..][i - 1].id == c;
      }
    }
  }

  // ----- one step

  ghost predicate Accounts(w: World, s: Step, c: Id)
    requires Enabled(w, s)
  {
    && AllOnce(Apply(w, s))
    && Starts(Apply(w, s), c) + One(GivesUp(w, s, c)) == Starts(w, c) + One(Opens(w, s, c))
  }

  /** An effect that changes thread t alone and starts nothing. */
  lemma OneThread(w: World, e: Effect, t: nat, th: Option<Thread>, c: Id)
    requires AllOnce(w) && e.started.None? && OnceIf(th)
    requires if th.Some? then e.ended == {} && e.threads == map[t := th.value] else e.ended == {t} && e.threads == map[]
    ensures AllOnce(Commit(w, e))
    ensures Starts(Commit(w, e), c) ==
            Starts(w, c) - One(UnderwayAt(w.threads, t, c)) + One(th.Some? && Underway(th.value, c))
  {
    assert Commit(w, e).threads == Replaced(w.threads, t, th);
    OneChanges(w.threads, t, th, c);
  }

  lemma CreateAccounts(w: World, t: nat, cmd: Command, now: int, c: Id)
    requires AllOnce(w) && Enabled(w, Create(t, cmd, now))
    ensures Accounts(w, Create(t, cmd, now), c)
  {
    OneThread(w, CreateEffect(w, t, cmd, now), t, Some(Spawning(Accepted(cmd, now))), c);
  }

  lemma SpawnAccounts(w: World, t: nat, c: Id)
    requires AllOnce(w) && Enabled(w, Spawn(t))
    ensures Accounts(w, Spawn(t), c)
  {
    OneThread(w, SpawnEffect(w, t), t, Some(Attempting(Start, w.threads[t].cmd, "", [])), c);
  }

  lemma LoadAccounts(w: World, t: nat, now: int, c: Id)
    requires AllOnce(w) && Enabled(w, Load(t, now))
    ensures Accounts(w, Load(t, now), c)
  {
    var th := w.threads[t];
    ScanTakesRest(th.rest, c);
    var th1 := if th.cmd.agent in w.registry
               then Some(Attempting(Loaded, Sent(th.cmd, now), w.registry[th.cmd.agent], th.rest))
               else Scan(th.rest);
    OneThread(w, LoadEffect(w, t, now), t, th1, c);
  }

  lemma WriteAccounts(w: World, s: Step, c: Id)
    requires AllOnce(w) && Enabled(w, s) && (s.Save? || s.PutBack?)
    ensures Accounts(w, s, c)
  {
    var th := w.threads[s.t];
    ScanTakesRest(th.rest, c);
    OneThread(w, EffectOf(w, s), s.t,
              if s.Save? then Some(Attempting(Sending, th.cmd, th.chan, th.rest)) else Scan(th.rest), c);
  }

  lemma FullSendAccounts(w: World, t: nat, m: nat, c: Id)
    requires AllOnce(w) && Enabled(w, Send(t, m)) && |w.channels[w.threads[t].chan].buffer| >= SEND_BUFFER
    ensures Accounts(w, Send(t, m), c)
  {
    var th := w.threads[t];
    OneThread(w, SendEffect(w, t, m), t,
              Some(Attempting(Reverting, th.cmd.(status := Pending), th.chan, th.rest)), c);
  }

  /** An effect that changes threads t and m and starts nothing. */
  lemma TwoThreads(w: World, e: Effect, t: nat, th: Option<Thread>, m: nat, th2: Option<Thread>, c: Id)
    requires AllOnce(w) && e.started.None? && OnceIf(th) && OnceIf(th2) && m != t && m !in w.threads
    requires Commit(w, e).threads == Replaced(Replaced(w.threads, t, th), m, th2)
    ensures AllOnce(Commit(w, e))
    ensures Starts(Commit(w, e), c) ==
            Starts(w, c) - One(UnderwayAt(w.threads, t, c)) + One(th.Some? && Underway(th.value, c)) +
                One(th2.Some? && Underway(th2.value, c))
  {
    OneChanges(w.threads, t, th, c);
    OneChanges(Replaced(w.threads, t, th), m, th2, c);
  }

  /** The message takes over from the attempt. */
  lemma RoomySendAccounts(w: World, t: nat, m: nat, c: Id)
    requires AllOnce(w) && Enabled(w, Send(t, m)) && |w.channels[w.threads[t].chan].buffer| < SEND_BUFFER
    ensures Accounts(w, Send(t, m), c)
  {
    var th := w.threads[t];
    ScanTakesRest(th.rest, c);
    SendReplaces(w, t, m);
    TwoThreads(w, SendEffect(w, t, m), t, Scan(th.rest), m, Some(Message(th.cmd.id, false)), c);
  }

  lemma SendReplaces(w: World, t: nat, m: nat)
    requires Enabled(w, Send(t, m)) && |w.channels[w.threads[t].chan].buffer| < SEND_BUFFER
    ensures var th := w.threads[t];
            Commit(w, SendEffect(w, t, m)).threads ==
            Replaced(Replaced(w.threads, t, Scan(th.rest)), m, Some(Message(th.cmd.id, false)))
  {
  }

  lemma ListAccounts(w: World, t: nat, listed: seq<Command>, c: Id)
    requires AllOnce(w) && Enabled(w, List(t, listed))
    ensures Accounts(w, List(t, listed), c)
  {
    ScanTakesRest(listed, c);
    OneThread(w, EffectOf(w, List(t, listed)), t, Scan(listed), c);
  }

  lemma AnswerAccounts(w: World, t: nat, now: int, c: Id)
    requires AllOnce(w) && Enabled(w, Answer(t, now))
    ensures Accounts(w, Answer(t, now), c)
  {
    var th := w.threads[t];
    OneThread(w, AnswerEffect(w, t, now), t,
              if Retries(th.cmd, th.report) then Some(Spawning(Answered(th.cmd, th.report, now))) else None, c);
  }

  lemma SweepAccounts(w: World, s: Step, c: Id)
    requires AllOnce(w) && Enabled(w, s) && (s.SweepList? || s.SweepNext?)
    ensures Accounts(w, s, c)
  {
    OneThread(w, EffectOf(w, s), s.t,
              if s.SweepList? then Sweep(s.now, s.active)
              else Sweep(w.threads[s.t].now, w.threads[s.t].todo[1..]), c);
  }

  lemma ReadAccounts(w: World, t: nat, about: Id, report: Report, c: Id)
    requires AllOnce(w) && Enabled(w, Read(t, about, report))
    ensures Accounts(w, Read(t, about, report), c)
  {
    OneThread(w, EffectOf(w, Read(t, about, report)), t, Some(Reporting(w.rows[about], report)), c);
  }

  lemma ConnectionAccounts(w: World, s: Step, c: Id)
    requires AllOnce(w) && Enabled(w, s) && (s.Register? || s.Unregister? || s.Close?)
    ensures Accounts(w, s, c)
  {
    if s.Register? {
      OneThread(w, RegisterEffect(w, s.t, s.agent, s.chan), s.t, Some(Listing(s.agent)), c);
    } else {
      assert Apply(w, s).threads == w.threads;
    }
  }

  lemma TransmitAccounts(w: World, chan: Id, c: Id)
    requires AllOnce(w) && Enabled(w, Transmit(chan))
    ensures Accounts(w, Transmit(chan), c)
  {
    var m := w.channels[chan].buffer[0];
    OneThread(w, TransmitEffect(w, chan), m, Some(Message(w.threads[m].about, true)), c);
  }

  lemma ReceiveAccounts(w: World, m: nat, c: Id)
    requires AllOnce(w) && Enabled(w, Receive(m))
    ensures Accounts(w, Receive(m), c)
  {
    var th := Some(Running(w.threads[m].about, false, false, []));
    var w1 := Commit(w, ReceiveEffect(w, m));
    assert w1.threads == Replaced(w.threads, m, th);
    OneChanges(w.threads, m, th, c);
  }

  lemma LoseAccounts(w: World, m: nat, c: Id)
    requires AllOnce(w) && Enabled(w, Lose(m))
    ensures Accounts(w, Lose(m), c)
  {
    OneThread(w, EffectOf(w, Lose(m)), m, None, c);
  }

  lemma AgentAccounts(w: World, s: Step, c: Id)
    requires AllOnce(w) && Enabled(w, s) && (s.Announce? || s.Finish?)
    ensures Accounts(w, s, c)
  {
    var th := w.threads[s.m];
    var report := if s.Announce? then SaysExecuting else s.report;
    OneThread(w, EffectOf(w, s), s.m, Some(Running(th.about, true, th.announced, th.outbox + [report])), c);
  }

  lemma BothReplaced(w: World, m: nat, th: Option<Thread>, t: nat, th2: Option<Thread>)
    requires m != t && t !in w.threads
    ensures var e := Becomes(Nothing(w), m, th);
            && (w.threads - e.ended) + e.threads == Replaced(w.threads, m, th)
            && (th2.Some? ==> (w.threads - e.ended) + e.threads[t := th2.value] ==
                              Replaced(Replaced(w.threads, m, th), t, th2))
            && (th2.None? ==> Replaced(w.threads, m, th) == Replaced(Replaced(w.threads, m, th), t, th2))
  {
  }

  lemma ConsumeReplaces(w: World, m: nat, t: nat) returns (th: Option<Thread>, th2: Option<Thread>)
    requires Enabled(w, Consume(m, t))
    ensures Commit(w, ConsumeEffect(w, m, t)).threads == Replaced(Replaced(w.threads, m, th), t, th2)
    ensures (th.Some? ==> th.value.Running?) && (th2.Some? ==> th2.value.Reporting?)
  {
    var was := w.threads[m];
    th := if was.finished && was.outbox[1..] == [] then None
          else Some(Running(was.about, was.announced, was.finished, was.outbox[1..]));
    th2 := if Heeds(w, was.about, was.outbox[0]) then Some(Reporting(w.rows[was.about], was.outbox[0])) else None;
    BothReplaced(w, m, th, t, th2);
  }

  lemma ConsumeAccounts(w: World, m: nat, t: nat, c: Id)
    requires AllOnce(w) && Enabled(w, Consume(m, t))
    ensures Accounts(w, Consume(m, t), c)
  {
    var th, th2 := ConsumeReplaces(w, m, t);
    TwoThreads(w, ConsumeEffect(w, m, t), m, th, t, th2, c);
  }

  lemma AttemptAccounts(w: World, s: Step, c: Id)
    requires AllOnce(w) && Enabled(w, s) && OfAttempt(s)
    ensures Accounts(w, s, c)
  {
    if s.Spawn? {
      SpawnAccounts(w, s.t, c);
    } else if s.Load? {
      LoadAccounts(w, s.t, s.now, c);
    } else if s.Save? || s.PutBack? {
      WriteAccounts(w, s, c);
    } else if |w.channels[w.threads[s.t].chan].buffer| < SEND_BUFFER {
      RoomySendAccounts(w, s.t, s.m, c);
    } else {
      FullSendAccounts(w, s.t, s.m, c);
    }
  }

  lemma TableAccounts(w: World, s: Step, c: Id)
    requires AllOnce(w) && Enabled(w, s)
    requires s.Create? || s.List? || s.Read? || s.Answer? || s.SweepList? || s.SweepNext?
    ensures Accounts(w, s, c)
  {
    if s.Create? {
      CreateAccounts(w, s.t, s.cmd, s.now, c);
    } else if s.List? {
      ListAccounts(w, s.t, s.listed, c);
    } else if s.Read? {
      ReadAccounts(w, s.t, s.about, s.report, c);
    } else if s.Answer? {
      AnswerAccounts(w, s.t, s.now, c);
    } else {
      SweepAccounts(w, s, c);
    }
  }

  /** Every step: what it opens, it adds to the starts there were and may be; what it gives up, it takes away. */
  lemma StepAccounts(w: World, s: Step, c: Id)
    requires AllOnce(w) && Enabled(w, s)
    ensures AllOnce(Apply(w, s))
    ensures Starts(Apply(w, s), c) + One(GivesUp(w, s, c)) == Starts(w, c) + One(Opens(w, s, c))
  {
    if OfAttempt(s) {
      AttemptAccounts(w, s, c);
    } else if s.Register? || s.Unregister? || s.Close? {
      ConnectionAccounts(w, s, c);
    } else if s.Transmit? {
      TransmitAccounts(w, s.chan, c);
    } else if s.Receive? {
      ReceiveAccounts(w, s.m, c);
    } else if s.Lose? {
      LoseAccounts(w, s.m, c);
    } else if s.Announce? || s.Finish? {
      AgentAccounts(w, s, c);
    } else if s.Consume? {
      ConsumeAccounts(w, s.m, s.t, c);
    } else {
      TableAccounts(w, s, c);
    }
  }

  // ----- runs

  ghost function Openings(w: World, steps: seq<Step>, c: Id): nat
    requires Runs(w, steps)
    decreases |steps|
  {
    if steps == [] then 0 else One(Opens(w, steps[0], c)) + Openings(Apply(w, steps[0]), steps[1..], c)
  }

  ghost function GivenUp(w: World, steps: seq<Step>, c: Id): nat
    requires Runs(w, steps)
    decreases |steps|
  {
    if steps == [] then 0 else One(GivesUp(w, steps[0], c)) + GivenUp(Apply(w, steps[0]), steps[1..], c)
  }

  lemma {:induction false} RunAccounts(w: World, steps: seq<Step>, c: Id)
    requires AllOnce(w) && Runs(w, steps)
    ensures Starts(After(w, steps), c) + GivenUp(w, steps, c) == Starts(w, c) + Openings(w, steps, c)
    decreases |steps|
  {
    if steps != [] {
      StepAccounts(w, steps[0], c);
      RunAccounts(Apply(w, steps[0]), steps[1..], c);
    }
  }

  /** After any run of the bus, a command's creation, the scans that listed it and the reports that had it retried are
      as many as its starts at the agent, its attempts that were given up or lost, and those still under way. */
  lemma StartsAreAccountedFor(steps: seq<Step>, c: Id)
    requires Runs(INITIAL, steps)
    ensures Openings(INITIAL, steps, c) ==
            CountOf(After(INITIAL, steps).executions, c) + |AllUnderway(After(INITIAL, steps).threads, c)| +
                GivenUp(INITIAL, steps, c)
  {
    RunAccounts(INITIAL, steps, c);
    assert AllUnderway(INITIAL.threads, c) == {};
  }

  /** So the agent never starts it more often than it was set on its way, and exactly as often once nothing is under
      way and nothing was given up. */
  lemma StartsAreBounded(steps: seq<Step>, c: Id)
    requires Runs(INITIAL, steps)
    ensures CountOf(After(INITIAL, steps).executions, c) <= Openings(INITIAL, steps, c)
    ensures CountOf(After(INITIAL, steps).executions, c) == Openings(INITIAL, steps, c) <==>
            GivenUp(INITIAL, steps, c) == 0 && AllUnderway(After(INITIAL, steps).threads, c) == {}
  {
    StartsAreAccountedFor(steps, c);
  }
}
