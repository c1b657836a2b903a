/** Exactly when a terminal row can still change: when some goroutine is a threat to it. */
module CommandBusFinal {
  import opened Wrappers
  import opened CommandBus
  import opened CommandBusSafety
  import opened CommandBusStable
  import opened CommandBusTerminal

  // ----- channels

  /** The attempt holds the channel and has still to send on it. */
  predicate InFlight(th: Thread) {
    th.Attempting? && (th.phase == Loaded || th.phase == Sending)
  }

  predicate BoundFor(th: Thread, chan: Id) {
    InFlight(th) && th.chan == chan
  }

  ghost function Senders(w: World, chan: Id): set<nat> {
    set t | t in w.threads && BoundFor(w.threads[t], chan)
  }

  predicate Open(w: World, chan: Id) {
    chan in w.channels && !w.channels[chan].closed
  }

  /** Some agent is still connected through the channel. */
  predicate Targeted(registry: map<Id, Id>, chan: Id) {
    exists a :: a in registry && registry[a] == chan
  }

  /** The buffer can still be filled before an attempt sends: by new commands for an agent on the channel, or by the
      attempts that already hold it. */
  ghost predicate CanFill(w: World, chan: Id) {
    && Open(w, chan)
    && (Targeted(w.registry, chan) || |w.channels[chan].buffer| + |Senders(w, chan)| > SEND_BUFFER)
  }

  /** Whoever holds a channel holds one that was made. */
  ghost predicate Plugged(w: World) {
    && (forall a :: a in w.registry ==> w.registry[a] in w.channels)
    && (forall t :: t in w.threads && InFlight(w.threads[t]) ==> w.threads[t].chan in w.channels)
  }

  // ----- threats

  /** What the goroutine holds can change the terminal row c. */
  ghost predicate Threat(w: World, c: Id, th: Thread)
    requires c in w.rows
  {
    match th
    case Spawning(cmd) => cmd.id == c
    case Attempting(phase, cmd, chan, rest) =>
      || (cmd.id == c && (phase == Sending ==> CanFill(w, chan)))
      || (Among(rest, c) && (phase == Loaded || phase == Sending ==> Open(w, chan)))
    case Reporting(cmd, report) =>
      cmd.id == c && (report.SaysFailed? ==> AnswerRewrites(w.rows[c], cmd, report, 0))
    case Sweeping(now, todo) =>
      exists i :: 0 <= i < |todo| && todo[i].id == c && Overdue(todo[i], now) && TimeoutRewrites(w.rows[c], todo[i])
    case Listing(_) => false
    case Message(_, _) => false
    case Running(_, _, _, _) => false
  }

  ghost predicate NoThreats(w: World, c: Id)
    requires c in w.rows
  {
    forall t :: t in w.threads ==> !Threat(w, c, w.threads[t])
  }

  ghost predicate Settled(w: World, c: Id) {
    Inv(w) && Plugged(w) && c in w.rows && Terminal(w.rows[c].status)
  }

  lemma UnmentionedIsNoThreat(w: World, c: Id, th: Thread)
    requires c in w.rows && !Mentions(th, c)
    ensures !Threat(w, c, th)
  {
  }

  // ----- channels only ever get harder to fill

  /** No channel reopens, and one no agent is connected through gets neither an agent nor a longer queue. */
  ghost predicate CalmAt(w: World, e: Effect, chan: Id)
    requires chan in w.channels
  {
    && chan in e.channels && (w.channels[chan].closed ==> e.channels[chan].closed)
    && (!Targeted(w.registry, chan) ==>
          && !Targeted(e.registry, chan)
          && |e.channels[chan].buffer| + |Senders(Commit(w, e), chan)| <= |w.channels[chan].buffer|
              + |Senders(w, chan)|)
  }

  ghost predicate Calm(w: World, e: Effect) {
    forall chan :: chan in w.channels ==> CalmAt(w, e, chan)
  }

  ghost predicate PlugsIn(w: World, e: Effect) {
    && (forall chan :: chan in w.channels ==> chan in e.channels)
    && (forall a :: a in e.registry ==> e.registry[a] in e.channels)
    && (forall t :: t in e.threads && InFlight(e.threads[t]) ==> e.threads[t].chan in w.channels)
  }

  lemma FewerSenders(w: World, e: Effect, chan: Id, gone: set<nat>)
    requires forall t :: t in e.threads && BoundFor(e.threads[t], chan) ==>
               t in w.threads && BoundFor(w.threads[t], chan) && t !in gone
    requires gone <= Senders(w, chan) && forall t :: t in gone ==> t in e.ended || t in e.threads
    ensures |Senders(Commit(w, e), chan)| <= |Senders(w, chan)| - |gone|
  {
    var now, left := Senders(Commit(w, e), chan), Senders(w, chan) - gone;
    assert now <= left;
    Subset(now, left);
    assert |Senders(w, chan)| == |left| + |gone| by {
      assert Senders(w, chan) == left + gone;
    }
  }

  lemma {:induction false} Subset(a: set<nat>, b: set<nat>)
    requires a <= b
    ensures |a| <= |b|
  {
    assert b == a + (b - a);
  }

  /** A step that puts no attempt on a channel and leaves channels and connections alone. */
  lemma QuietIsCalm(w: World, e: Effect)
    requires e.registry == w.registry && e.channels == w.channels
    requires forall t :: t in e.threads && InFlight(e.threads[t]) ==>
               t in w.threads && InFlight(w.threads[t]) && e.threads[t].chan == w.threads[t].chan
    ensures Calm(w, e)
  {
    forall chan ensures |Senders(Commit(w, e), chan)| <= |Senders(w, chan)| {
      FewerSenders(w, e, chan, {});
    }
  }

  lemma ConnectionIsCalm(w: World, s: Step)
    requires Plugged(w) && Enabled(w, s) && (s.Register? || s.Unregister? || s.Close? || s.Transmit?)
    ensures Calm(w, EffectOf(w, s)) && PlugsIn(w, EffectOf(w, s))
  {
    var e := EffectOf(w, s);
    forall chan ensures |Senders(Commit(w, e), chan)| <= |Senders(w, chan)| {
      FewerSenders(w, e, chan, {});
    }
  }

  lemma LoadIsCalm(w: World, t: nat, now: int)
    requires Plugged(w) && AttemptIn(w, t, Start)
    ensures Calm(w, LoadEffect(w, t, now)) && PlugsIn(w, LoadEffect(w, t, now))
  {
    var e := LoadEffect(w, t, now);
    forall chan | chan in w.channels && !Targeted(w.registry, chan)
      ensures |Senders(Commit(w, e), chan)| <= |Senders(w, chan)|
    {
      FewerSenders(w, e, chan, {});
    }
  }

  lemma SendLeavesSenders(w: World, t: nat, m: nat, chan: Id)
    requires Enabled(w, Send(t, m))
    ensures |Senders(Commit(w, SendEffect(w, t, m)), chan)| <=
            |Senders(w, chan)| - if chan == w.threads[t].chan then 1 else 0
  {
    var e := SendEffect(w, t, m);
    assert forall u :: u in e.threads ==> !InFlight(e.threads[u]);
    if chan == w.threads[t].chan {
      assert t in Senders(w, chan);
      FewerSenders(w, e, chan, {t});
    } else {
      FewerSenders(w, e, chan, {});
    }
  }

  lemma SendIsCalm(w: World, t: nat, m: nat)
    requires Plugged(w) && Enabled(w, Send(t, m))
    ensures Calm(w, SendEffect(w, t, m))
  {
    forall chan | chan in w.channels ensures CalmAt(w, SendEffect(w, t, m), chan) {
      SendLeavesSenders(w, t, m, chan);
    }
  }

  lemma SendPlugsIn(w: World, t: nat, m: nat)
    requires Plugged(w) && Enabled(w, Send(t, m))
    ensures PlugsIn(w, SendEffect(w, t, m))
  {
  }

  predicate OfConnection(s: Step) {
    s.Register? || s.Unregister? || s.Close? || s.Transmit? || s.Load? || s.Send?
  }

  /** A step leaves channels and connections alone and no attempt in flight that was not. */
  ghost predicate LeavesChannels(w: World, e: Effect) {
    && e.registry == w.registry && e.channels == w.channels
    && (forall t :: t in e.threads && InFlight(e.threads[t]) ==>
          t in w.threads && InFlight(w.threads[t]) && e.threads[t].chan == w.threads[t].chan)
  }

  lemma RowStepLeavesChannels(w: World, s: Step)
    requires Enabled(w, s)
    requires s.Create? || s.Spawn? || s.Save? || s.PutBack?
    ensures LeavesChannels(w, EffectOf(w, s))
  {
  }

  lemma ListStepLeavesChannels(w: World, s: Step)
    requires Enabled(w, s) && (s.List? || s.Answer? || s.SweepNext? || s.SweepList?)
    ensures LeavesChannels(w, EffectOf(w, s))
  {
  }

  lemma ReportStepLeavesChannels(w: World, s: Step)
    requires Enabled(w, s)
    requires s.Read? || s.Receive? || s.Lose? || s.Announce? || s.Finish? || s.Consume?
    ensures LeavesChannels(w, EffectOf(w, s))
  {
    if s.Consume? {
      ConsumeLeavesChannels(w, s.m, s.t);
    }
  }

  lemma ConsumeLeavesChannels(w: World, m: nat, t: nat)
    requires m in w.threads && w.threads[m].Running? && w.threads[m].outbox != []
    ensures LeavesChannels(w, ConsumeEffect(w, m, t))
  {
  }

  lemma OtherIsCalm(w: World, s: Step)
    requires Plugged(w) && Enabled(w, s) && !OfConnection(s)
    ensures Calm(w, EffectOf(w, s)) && PlugsIn(w, EffectOf(w, s))
  {
    if s.Read? || s.Receive? || s.Lose? || s.Announce? || s.Finish? || s.Consume? {
      ReportStepLeavesChannels(w, s);
    } else if s.List? || s.Answer? || s.SweepNext? || s.SweepList? {
      ListStepLeavesChannels(w, s);
    } else {
      RowStepLeavesChannels(w, s);
    }
    QuietIsCalm(w, EffectOf(w, s));
  }

  lemma StepIsCalm(w: World, s: Step)
    requires Plugged(w) && Enabled(w, s)
    ensures Calm(w, EffectOf(w, s)) && PlugsIn(w, EffectOf(w, s))
  {
    if s.Load? {
      LoadIsCalm(w, s.t, s.now);
    } else if s.Send? {
      SendIsCalm(w, s.t, s.m);
      SendPlugsIn(w, s.t, s.m);
    } else if OfConnection(s) {
      ConnectionIsCalm(w, s);
    } else {
      OtherIsCalm(w, s);
    }
  }

  lemma StepKeepsPlugged(w: World, s: Step)
    requires Plugged(w) && Enabled(w, s)
    ensures Plugged(Apply(w, s))
  {
    StepIsCalm(w, s);
  }

  // ----- without a threat, nothing changes and no threat appears

  lemma ThreatsDoNotGrow(w: World, e: Effect, c: Id, th: Thread)
    requires Calm(w, e) && c in w.rows && c in Commit(w, e).rows && Commit(w, e).rows[c] == w.rows[c]
    requires InFlight(th) ==> th.chan in w.channels
    requires Threat(Commit(w, e), c, th)
    ensures Threat(w, c, th)
  {
  }

  /** The effect leaves the row as it is and no goroutine that is a threat. */
  ghost predicate Quiet(w: World, e: Effect, c: Id)
    requires c in w.rows
  {
    && (e.write.Some? && e.write.value.id == c ==> e.write.value == w.rows[c])
    && (forall t :: t in e.threads ==> !Threat(w, c, e.threads[t]))
  }

  lemma QuietKeeps(w: World, e: Effect, c: Id)
    requires Plugged(w) && c in w.rows && NoThreats(w, c) && Calm(w, e) && PlugsIn(w, e) && Quiet(w, e, c)
    ensures c in Commit(w, e).rows && Commit(w, e).rows[c] == w.rows[c] && NoThreats(Commit(w, e), c)
  {
    var w1 := Commit(w, e);
    forall t | t in w1.threads ensures !Threat(w1, c, w1.threads[t]) {
      if Threat(w1, c, w1.threads[t]) {
        ThreatsDoNotGrow(w, e, c, w1.threads[t]);
      }
    }
  }

  lemma ScanIsQuiet(w: World, c: Id, todo: seq<Command>)
    requires c in w.rows && !Among(todo, c)
    ensures Scan(todo).Some? ==> !Threat(w, c, Scan(todo).value)
  {
    ScanMentions(todo, c);
  }

  lemma LookUpIsQuiet(w: World, s: Step, c: Id)
    requires Settled(w, c) && NoThreats(w, c) && Enabled(w, s) && (s.Spawn? || s.Load? || s.PutBack?)
    ensures Quiet(w, EffectOf(w, s), c)
  {
    assert !Threat(w, c, w.threads[s.t]);
    if !s.Spawn? {
      ScanIsQuiet(w, c, w.threads[s.t].rest);
    }
  }

  lemma SaveIsQuiet(w: World, t: nat, c: Id)
    requires Settled(w, c) && NoThreats(w, c) && AttemptIn(w, t, Loaded)
    ensures Quiet(w, SaveEffect(w, t), c)
  {
    assert !Threat(w, c, w.threads[t]);
  }

  lemma SendIsQuiet(w: World, t: nat, m: nat, c: Id)
    requires Settled(w, c) && NoThreats(w, c) && Enabled(w, Send(t, m))
    ensures Quiet(w, SendEffect(w, t, m), c)
  {
    var th := w.threads[t];
    assert !Threat(w, c, th);
    ScanIsQuiet(w, c, th.rest);
    if th.cmd.id == c {
      HasRoom(w, t);
    }
    SentIsQuiet(w, t, m, c);
  }

  lemma SentIsQuiet(w: World, t: nat, m: nat, c: Id)
    requires c in w.rows && AttemptIn(w, t, Sending) && w.threads[t].chan in w.channels
    requires !Among(w.threads[t].rest, c)
    requires Scan(w.threads[t].rest).Some? ==> !Threat(w, c, Scan(w.threads[t].rest).value)
    requires w.threads[t].cmd.id == c ==> |w.channels[w.threads[t].chan].buffer| < SEND_BUFFER
    ensures Quiet(w, SendEffect(w, t, m), c)
  {
  }

  lemma HasRoom(w: World, t: nat)
    requires AttemptIn(w, t, Sending) && Open(w, w.threads[t].chan) && !CanFill(w, w.threads[t].chan)
    ensures |w.channels[w.threads[t].chan].buffer| < SEND_BUFFER
  {
    assert t in Senders(w, w.threads[t].chan);
    Subset({t}, Senders(w, w.threads[t].chan));
  }

  lemma AnswerIsQuiet(w: World, t: nat, now: int, c: Id)
    requires Settled(w, c) && NoThreats(w, c) && Enabled(w, Answer(t, now))
    ensures Quiet(w, AnswerEffect(w, t, now), c)
  {
    assert !Threat(w, c, w.threads[t]);
  }

  lemma RestIsNoThreat(w: World, now: int, todo: seq<Command>, c: Id)
    requires c in w.rows && todo != [] && !Threat(w, c, Sweeping(now, todo))
    ensures !Threat(w, c, Sweeping(now, todo[1..]))
  {
    assert forall i :: 0 <= i < |todo| - 1 ==> todo[1..][i] == todo[i + 1];
  }

  lemma SweepIsQuiet(w: World, t: nat, c: Id)
    requires Settled(w, c) && NoThreats(w, c) && Enabled(w, SweepNext(t))
    ensures Quiet(w, SweepNextEffect(w, t), c)
  {
    var th := w.threads[t];
    assert !Threat(w, c, th);
    assert !TimeoutRewrites(w.rows[c], th.todo[0]) || !Overdue(th.todo[0], th.now) || th.todo[0].id != c;
    RestIsNoThreat(w, th.now, th.todo, c);
  }

  lemma CopyIsQuiet(w: World, s: Step, c: Id)
    requires Settled(w, c) && NoThreats(w, c) && Enabled(w, s)
    requires OfAttempt(s) || s.Answer? || s.SweepNext?
    ensures Quiet(w, EffectOf(w, s), c)
  {
    if s.Save? {
      SaveIsQuiet(w, s.t, c);
    } else if s.Send? {
      SendIsQuiet(w, s.t, s.m, c);
    } else if s.Answer? {
      AnswerIsQuiet(w, s.t, s.now, c);
    } else if s.SweepNext? {
      SweepIsQuiet(w, s.t, c);
    } else {
      LookUpIsQuiet(w, s, c);
    }
  }

  lemma UnmentionedIsQuiet(w: World, e: Effect, c: Id)
    requires c in w.rows && (e.write.Some? ==> e.write.value.id != c)
    requires forall t :: t in e.threads ==> !HoldsCopy(e.threads[t], c)
    ensures Quiet(w, e, c)
  {
    forall t | t in e.threads ensures !Threat(w, c, e.threads[t]) {
      if !Mentions(e.threads[t], c) {
        UnmentionedIsNoThreat(w, c, e.threads[t]);
      }
    }
  }

  /** Steps that hold no copy yet never pick one up of a terminal row. */
  lemma OtherIsQuiet(w: World, s: Step, c: Id)
    requires Settled(w, c) && Enabled(w, s) && !OfAttempt(s) && !s.Answer? && !s.SweepNext?
    ensures Quiet(w, EffectOf(w, s), c)
  {
    if s.List? {
      ScanLeavesAlone(w, s.t, s.listed, c);
    } else if s.Consume? {
      ConsumeLeavesAlone(w, s.m, s.t, c);
    } else if !s.Create? {
      QuietLeavesAlone(w, s, c);
    }
    UnmentionedIsQuiet(w, EffectOf(w, s), c);
  }

  lemma StepKeepsQuiet(w: World, s: Step, c: Id)
    requires Settled(w, c) && NoThreats(w, c) && Enabled(w, s)
    ensures Settled(Apply(w, s), c) && Apply(w, s).rows[c] == w.rows[c] && NoThreats(Apply(w, s), c)
  {
    if OfAttempt(s) || s.Answer? || s.SweepNext? {
      CopyIsQuiet(w, s, c);
    } else {
      OtherIsQuiet(w, s, c);
    }
    StepIsCalm(w, s);
    QuietKeeps(w, EffectOf(w, s), c);
    StepKeepsInv(w, s);
    StepKeepsPlugged(w, s);
  }

  /** Without a threat, the row never changes again. */
  lemma {:induction false} NoThreatsIsFinal(w: World, steps: seq<Step>, c: Id)
    requires Settled(w, c) && NoThreats(w, c) && Runs(w, steps)
    ensures c in After(w, steps).rows && After(w, steps).rows[c] == w.rows[c]
    decreases |steps|
  {
    if steps != [] {
      StepKeepsQuiet(w, steps[0], c);
      NoThreatsIsFinal(Apply(w, steps[0]), steps[1..], c);
    }
  }

  // ----- with a threat, some run changes the row

  /** The run, if these steps are one, ends with the row as it is now. */
  ghost predicate LeavesRow(w: World, steps: seq<Step>, c: Id)
    requires c in w.rows
  {
    Runs(w, steps) ==> c in After(w, steps).rows && After(w, steps).rows[c] == w.rows[c]
  }

  /** The clock reading the step stores or compares with. */
  function Reading(s: Step): Option<int> {
    match s
    case Create(_, _, now) => Some(now)
    case Load(_, now) => Some(now)
    case Answer(_, now) => Some(now)
    case SweepList(_, now, _) => Some(now)
    case _ => None
  }

  /** No reading lies before the clock or before an earlier one. */
  predicate Timely(steps: seq<Step>, clock: int)
    decreases |steps|
  {
    || steps == []
    || (match Reading(steps[0])
        case None => Timely(steps[1..], clock)
        case Some(now) => clock <= now && Timely(steps[1..], now))
  }

  ghost predicate Changeable(w: World, c: Id, clock: int) {
    c in w.rows && exists steps :: Timely(steps, clock) && !LeavesRow(w, steps, c)
  }

  /** No run from here on, of anybody, ends with another row while the clock goes on from where it is. */
  ghost predicate IsFinal(w: World, c: Id, clock: int)
    requires c in w.rows
  {
    forall steps :: Timely(steps, clock) ==> LeavesRow(w, steps, c)
  }

  predicate ReadsNow(s: Step, clock: int) {
    Reading(s).Some? ==> Reading(s).value == clock
  }

  lemma TimelyFirst(s: Step, steps: seq<Step>, clock: int)
    requires if Reading(s).Some? then Reading(s).value >= clock && Timely(steps, Reading(s).value)
             else Timely(steps, clock)
    ensures Timely([s] + steps, clock)
  {
    var run := [s] + steps;
    assert run[0] == s && run[1..] == steps;
  }

  lemma StepsAlong(w: World, s: Step, c: Id, clock: int)
    requires Enabled(w, s) && c in w.rows && ReadsNow(s, clock)
    requires Apply(w, s).rows[c] != w.rows[c] || Changeable(Apply(w, s), c, clock)
    ensures Changeable(w, c, clock)
  {
    var w1 := Apply(w, s);
    if w1.rows[c] != w.rows[c] {
      ChangesNext(w, s, c, clock);
    } else {
      var steps :| Timely(steps, clock) && !LeavesRow(w1, steps, c);
      RunFirst(w, s, steps);
      TimelyFirst(s, steps, clock);
      assert !LeavesRow(w, [s] + steps, c);
    }
  }

  lemma ChangesNext(w: World, s: Step, c: Id, clock: int)
    requires Enabled(w, s) && c in w.rows && Apply(w, s).rows[c] != w.rows[c]
    requires Reading(s).Some? ==> Reading(s).value >= clock
    ensures Changeable(w, c, clock)
  {
    assert Runs(Apply(w, s), []);
    RunFirst(w, s, []);
    TimelyFirst(s, [], clock);
    assert !LeavesRow(w, [s] + [], c);
  }

  lemma StaysSettled(w: World, s: Step, c: Id)
    requires Settled(w, c) && Enabled(w, s)
    ensures c in Apply(w, s).rows && (Apply(w, s).rows[c] == w.rows[c] ==> Settled(Apply(w, s), c))
  {
    StepKeepsInv(w, s);
    StepKeepsPlugged(w, s);
  }

  // ----- fresh names

  lemma {:induction false} FreshNumber(taken: set<nat>) returns (n: nat)
    ensures forall t :: t in taken ==> t < n
  {
    n := 0;
    if taken != {} {
      var t :| t in taken;
      var others := FreshNumber(taken - {t});
      n := if t < others then others else t + 1;
      assert forall u :: u in taken ==> u == t || u in taken - {t};
    }
  }

  lemma {:induction false} LongerThan(taken: set<Id>) returns (n: nat)
    ensures forall x :: x in taken ==> |x| < n
  {
    n := 0;
    if taken != {} {
      var x :| x in taken;
      var others := LongerThan(taken - {x});
      n := if |x| < others then others else |x| + 1;
    }
  }

  lemma FreshId(taken: set<Id>) returns (x: Id)
    ensures x !in taken
  {
    var n := LongerThan(taken);
    x := seq(n, _ => 'x');
  }

  // ----- copies that are written at once, or after a look-up

  lemma WrittenNext(w: World, s: Step, c: Id, clock: int)
    requires Settled(w, c) && Enabled(w, s) && Rewrites(w, s, c)
    requires Reading(s).Some? ==> Reading(s).value >= clock
    ensures Changeable(w, c, clock)
  {
    TerminalChangesExactly(w, s, c);
    ChangesNext(w, s, c, clock);
  }

  lemma LoadConnects(w: World, t: nat, clock: int)
    requires AttemptIn(w, t, Start) && w.threads[t].cmd.agent in w.registry
    ensures var w1 := Apply(w, Load(t, clock));
            w1.rows == w.rows && AttemptIn(w1, t, Loaded) && w1.threads[t].cmd.id == w.threads[t].cmd.id
  {
  }

  lemma RegisterKeeps(w: World, t: nat, agent: Id, chan: Id)
    requires Enabled(w, Register(t, agent, chan))
    ensures var w1 := Apply(w, Register(t, agent, chan));
            && w1.rows == w.rows && agent in w1.registry
            && forall u :: u in w.threads ==> u in w1.threads && w1.threads[u] == w.threads[u]
  {
  }

  lemma LookedUpNext(w: World, c: Id, t: nat, clock: int)
    requires Settled(w, c) && Tries(w, t, Start, c) && w.threads[t].cmd.agent in w.registry
    ensures Changeable(w, c, clock)
  {
    LoadConnects(w, t, clock);
    StaysSettled(w, Load(t, clock), c);
    WrittenNext(Apply(w, Load(t, clock)), Save(t), c, clock);
    StepsAlong(w, Load(t, clock), c, clock);
  }

  /** An attempt at its start: the agent connects, if it is not connected, and the attempt writes the row. */
  lemma StartIsThreat(w: World, c: Id, t: nat, clock: int)
    requires Settled(w, c) && Tries(w, t, Start, c)
    ensures Changeable(w, c, clock)
  {
    var agent := w.threads[t].cmd.agent;
    if agent in w.registry {
      LookedUpNext(w, c, t, clock);
    } else {
      var u := FreshNumber(w.threads.Keys);
      var chan := FreshId(w.channels.Keys);
      var s := Register(u, agent, chan);
      RegisterKeeps(w, u, agent, chan);
      StaysSettled(w, s, c);
      LookedUpNext(Apply(w, s), c, t, clock);
      StepsAlong(w, s, c, clock);
    }
  }

  lemma SpawnStarts(w: World, t: nat)
    requires t in w.threads && w.threads[t].Spawning?
    ensures var w1 := Apply(w, Spawn(t));
            w1.rows == w.rows && w1.registry == w.registry && w1.channels == w.channels &&
            w1.threads == w.threads[t := Attempting(Start, w.threads[t].cmd, "", [])]
  {
  }

  lemma SpawningIsThreat(w: World, c: Id, t: nat, clock: int)
    requires Settled(w, c) && t in w.threads && w.threads[t].Spawning? && w.threads[t].cmd.id == c
    ensures Changeable(w, c, clock)
  {
    SpawnStarts(w, t);
    StaysSettled(w, Spawn(t), c);
    StartIsThreat(Apply(w, Spawn(t)), c, t, clock);
    StepsAlong(w, Spawn(t), c, clock);
  }

  lemma ReportingIsThreat(w: World, c: Id, t: nat, clock: int)
    requires Settled(w, c) && Reports(w, t, c) && Threat(w, c, w.threads[t])
    ensures Changeable(w, c, clock)
  {
    assert ThreadOk(w, w.threads[t]);
    var row := w.rows[c];
    var now := if row.completedAt == Some(clock) then clock + 1 else clock;
    WrittenNext(w, Answer(t, now), c, clock);
  }

  // ----- the monitor's list

  lemma SweepGoesOn(w: World, t: nat)
    requires t in w.threads && w.threads[t].Sweeping? && |w.threads[t].todo| > 1
    ensures var w1 := Apply(w, SweepNext(t));
            && t in w1.threads && w1.threads[t] == Sweeping(w.threads[t].now, w.threads[t].todo[1..])
            && forall i :: 0 < i < |w.threads[t].todo| ==> w1.threads[t].todo[i - 1] == w.threads[t].todo[i]
  {
  }

  lemma FirstSweptIsThreat(w: World, c: Id, t: nat, clock: int)
    requires Settled(w, c) && SweepsOver(w, t, c) && TimeoutRewrites(w.rows[c], w.threads[t].todo[0])
    ensures Changeable(w, c, clock)
  {
    WrittenNext(w, SweepNext(t), c, clock);
  }

  /** The monitor comes to a copy of c at place i, and writes it over the row. */
  predicate SweepsAt(w: World, c: Id, t: nat, i: nat) {
    && c in w.rows && t in w.threads && w.threads[t].Sweeping? && i < |w.threads[t].todo|
    && w.threads[t].todo[i].id == c && Overdue(w.threads[t].todo[i], w.threads[t].now)
    && TimeoutRewrites(w.rows[c], w.threads[t].todo[i])
  }

  lemma SweepComesNearer(w: World, c: Id, t: nat, i: nat)
    requires Settled(w, c) && SweepsAt(w, c, t, i) && i > 0
    ensures c in Apply(w, SweepNext(t)).rows
    ensures Apply(w, SweepNext(t)).rows[c] == w.rows[c] ==> SweepsAt(Apply(w, SweepNext(t)), c, t, i - 1)
  {
    SweepGoesOn(w, t);
    var w1 := Apply(w, SweepNext(t));
    assert w1.threads[t].todo[i - 1] == w.threads[t].todo[i];
  }

  lemma SweptNowIsThreat(w: World, c: Id, t: nat, clock: int)
    requires Settled(w, c) && SweepsAt(w, c, t, 0)
    ensures Changeable(w, c, clock)
  {
    FirstSweptIsThreat(w, c, t, clock);
  }

  lemma {:induction false} SweepingIsThreat(w: World, c: Id, t: nat, i: nat, clock: int)
    requires Settled(w, c) && SweepsAt(w, c, t, i)
    ensures Changeable(w, c, clock)
    decreases i
  {
    if i == 0 {
      SweptNowIsThreat(w, c, t, clock);
    } else {
      SweepComesNearer(w, c, t, i);
      StaysSettled(w, SweepNext(t), c);
      if Apply(w, SweepNext(t)).rows[c] == w.rows[c] {
        SweepingIsThreat(Apply(w, SweepNext(t)), c, t, i - 1, clock);
      }
      StepsAlong(w, SweepNext(t), c, clock);
    }
  }

  // ----- what a scan has still to try

  /** The scan goes on with the next command. */
  predicate GoesOn(w1: World, t: nat, rest: seq<Command>)
    requires rest != []
  {
    t in w1.threads && w1.threads[t] == Attempting(Start, rest[0], "", rest[1..])
  }

  lemma UnconnectedGoesOn(w: World, t: nat, clock: int)
    requires AttemptIn(w, t, Start) && w.threads[t].cmd.agent !in w.registry && w.threads[t].rest != []
    ensures GoesOn(Apply(w, Load(t, clock)), t, w.threads[t].rest) && Apply(w, Load(t, clock)).rows == w.rows
  {
  }

  lemma UnregisterKeeps(w: World, agent: Id)
    ensures var w1 := Apply(w, Unregister(agent));
            w1.rows == w.rows && w1.threads == w.threads && agent !in w1.registry
  {
  }

  lemma PutBackGoesOn(w: World, t: nat)
    requires AttemptIn(w, t, Reverting) && w.threads[t].rest != []
    ensures GoesOn(Apply(w, PutBack(t)), t, w.threads[t].rest)
  {
  }

  lemma SaveGoesOn(w: World, t: nat)
    requires AttemptIn(w, t, Loaded)
    ensures var w1 := Apply(w, Save(t));
            && w1.channels == w.channels && w1.registry == w.registry
            && w1.threads == w.threads[t := w.threads[t].(phase := Sending)]
  {
  }

  lemma SendGoesOn(w: World, t: nat, m: nat)
    requires Enabled(w, Send(t, m)) && w.threads[t].rest != []
    ensures var w1 := Apply(w, Send(t, m));
            && w1.rows == w.rows
            && (GoesOn(w1, t, w.threads[t].rest) ||
                (AttemptIn(w1, t, Reverting) && w1.threads[t].rest == w.threads[t].rest))
  {
  }

  function PhaseRank(phase: Phase): nat {
    match phase
    case Start => 0
    case Reverting => 1
    case Sending => 2
    case Loaded => 3
  }

  predicate Waits(w: World, t: nat, c: Id) {
    t in w.threads && w.threads[t].Attempting? && Among(w.threads[t].rest, c) &&
    (InFlight(w.threads[t]) ==> Open(w, w.threads[t].chan))
  }

  predicate Nearer(th: Thread, w1: World, t: nat)
    requires th.Attempting?
  {
    && t in w1.threads && w1.threads[t].Attempting? && w1.threads[t].rest == th.rest
    && PhaseRank(w1.threads[t].phase) < PhaseRank(th.phase)
    && (InFlight(w1.threads[t]) ==> Open(w1, w1.threads[t].chan))
  }

  lemma NextStepOfScan(w: World, c: Id, t: nat) returns (s: Step)
    requires Waits(w, t, c) && w.threads[t].phase != Start
    ensures Enabled(w, s) && Reading(s).None?
    ensures GoesOn(Apply(w, s), t, w.threads[t].rest) || Nearer(w.threads[t], Apply(w, s), t)
  {
    match w.threads[t].phase
    case Loaded =>
      s := Save(t);
      SaveGoesOn(w, t);
    case Sending =>
      var m := FreshNumber(w.threads.Keys);
      s := Send(t, m);
      SendGoesOn(w, t, m);
    case Reverting =>
      s := PutBack(t);
      PutBackGoesOn(w, t);
  }

  lemma {:induction false} WaitingIsThreat(w: World, c: Id, t: nat, clock: int)
    requires Settled(w, c) && Waits(w, t, c)
    ensures Changeable(w, c, clock)
    decreases |w.threads[t].rest|, PhaseRank(w.threads[t].phase), if w.threads[t].cmd.agent in w.registry then 1 else 0
  {
    var th := w.threads[t];
    if th.phase != Start {
      var s := NextStepOfScan(w, c, t);
      StaysSettled(w, s, c);
      if Apply(w, s).rows[c] == w.rows[c] {
        if GoesOn(Apply(w, s), t, th.rest) {
          NextIsThreat(Apply(w, s), c, t, th.rest, clock);
        } else {
          WaitingIsThreat(Apply(w, s), c, t, clock);
        }
      }
      StepsAlong(w, s, c, clock);
    } else if th.cmd.agent in w.registry {
      UnregisterKeeps(w, th.cmd.agent);
      StaysSettled(w, Unregister(th.cmd.agent), c);
      WaitingIsThreat(Apply(w, Unregister(th.cmd.agent)), c, t, clock);
      StepsAlong(w, Unregister(th.cmd.agent), c, clock);
    } else {
      UnconnectedGoesOn(w, t, clock);
      StaysSettled(w, Load(t, clock), c);
      NextIsThreat(Apply(w, Load(t, clock)), c, t, th.rest, clock);
      StepsAlong(w, Load(t, clock), c, clock);
    }
  }

  lemma {:induction false} NextIsThreat(w: World, c: Id, t: nat, todo: seq<Command>, clock: int)
    requires Settled(w, c) && Among(todo, c) && GoesOn(w, t, todo)
    ensures Changeable(w, c, clock)
    decreases |todo| - 1, 4
  {
    if todo[0].id == c {
      StartIsThreat(w, c, t, clock);
    } else {
      var i :| 0 <= i < |todo| && todo[i].id == c;
      assert todo[1..][i - 1].id == c;
      WaitingIsThreat(w, c, t, clock);
    }
  }

  // ----- a send that may still find the buffer full

  function Buffered(w: World, chan: Id): nat
    requires chan in w.channels
  {
    |w.channels[chan].buffer|
  }

  lemma FullSendReverts(w: World, t: nat, m: nat)
    requires Enabled(w, Send(t, m)) && Buffered(w, w.threads[t].chan) >= SEND_BUFFER
    ensures var w1 := Apply(w, Send(t, m));
            w1.rows == w.rows && AttemptIn(w1, t, Reverting) && w1.threads[t].cmd.id == w.threads[t].cmd.id
  {
  }

  lemma FullSendIsThreat(w: World, c: Id, t: nat, clock: int)
    requires Settled(w, c) && Tries(w, t, Sending, c) && Open(w, w.threads[t].chan)
    requires Buffered(w, w.threads[t].chan) >= SEND_BUFFER
    ensures Changeable(w, c, clock)
  {
    var m := FreshNumber(w.threads.Keys);
    FullSendReverts(w, t, m);
    StaysSettled(w, Send(t, m), c);
    WrittenNext(Apply(w, Send(t, m)), PutBack(t), c, clock);
    StepsAlong(w, Send(t, m), c, clock);
  }

  /** The step leaves attempt t, the connections and the channels as they are. */
  predicate Undisturbed(w: World, w1: World, t: nat) {
    && t in w.threads && t in w1.threads && w1.threads[t] == w.threads[t]
    && w1.registry == w.registry && w1.channels == w.channels
  }

  /** u queues one more message on the channel, and t is where it was. */
  predicate QueuedOne(w: World, w1: World, t: nat, chan: Id) {
    && t in w.threads && t in w1.threads && w1.threads[t] == w.threads[t]
    && w1.registry == w.registry && w1.rows == w.rows
    && chan in w.channels && Open(w1, chan) && Buffered(w1, chan) == Buffered(w, chan) + 1
  }

  lemma SendQueues(w: World, t: nat, u: nat, m: nat)
    requires Enabled(w, Send(u, m)) && Buffered(w, w.threads[u].chan) < SEND_BUFFER && t in w.threads && t != u
    ensures QueuedOne(w, Apply(w, Send(u, m)), t, w.threads[u].chan)
  {
  }

  // ----- filling it with new commands

  /** u carries a command for an agent that is connected through the channel, and nothing else. */
  predicate Helps(th: Thread, agent: Id, chan: Id) {
    match th
    case Spawning(cmd) => cmd.agent == agent
    case Attempting(phase, cmd, at, rest) =>
      cmd.agent == agent && rest == [] && phase != Reverting && (phase != Start ==> at == chan)
    case _ => false
  }

  ghost predicate Filling(w: World, c: Id, t: nat, agent: Id, u: Option<nat>) {
    && Settled(w, c) && Tries(w, t, Sending, c)
    && Open(w, w.threads[t].chan) && agent in w.registry && w.registry[agent] == w.threads[t].chan
    && (u.Some? ==> u.value != t && u.value in w.threads && Helps(w.threads[u.value], agent, w.threads[t].chan))
  }

  function HelperRank(w: World, u: Option<nat>): nat {
    if u.None? || u.value !in w.threads then 5
    else match w.threads[u.value]
      case Spawning(_) => 4
      case Attempting(phase, _, _, _) =>
        (match phase
         case Start => 3
         case Loaded => 2
         case Sending => 1
         case Reverting => 0)
      case _ => 0
  }

  lemma HelperIsCreated(w: World, t: nat, u: nat, k: Id, agent: Id, clock: int)
    requires t in w.threads && u !in w.threads && k !in w.rows
    ensures var s := Create(u, Command(k, agent, "", "", Pending, 120, 0, 3, 0, None, None, None, "", ""), clock);
            && Enabled(w, s) && Undisturbed(w, Apply(w, s), t) && u in Apply(w, s).threads
            && Apply(w, s).threads[u].Spawning? && Apply(w, s).threads[u].cmd.agent == agent
  {
  }

  lemma HelperLoads(w: World, t: nat, u: nat, agent: Id, clock: int)
    requires t in w.threads && t != u && AttemptIn(w, u, Start) && w.threads[u].cmd.agent == agent
    requires agent in w.registry
    requires w.threads[u].rest == []
    ensures var w1 := Apply(w, Load(u, clock));
            && Undisturbed(w, w1, t) && AttemptIn(w1, u, Loaded)
            && Helps(w1.threads[u], agent, w.registry[agent])
  {
  }

  /** The helper's next step, until it sends. */
  lemma HelperGoesOn(w: World, c: Id, t: nat, agent: Id, u: Option<nat>, clock: int) returns (s: Step, u1: Option<nat>)
    requires Filling(w, c, t, agent, u) && HelperRank(w, u) > 1
    ensures Enabled(w, s) && ReadsNow(s, clock) && Undisturbed(w, Apply(w, s), t)
    ensures u1.Some? && u1.value != t && u1.value in Apply(w, s).threads
    ensures Helps(Apply(w, s).threads[u1.value], agent, w.threads[t].chan)
    ensures HelperRank(Apply(w, s), u1) < HelperRank(w, u)
  {
    if u.None? {
      var v := FreshNumber(w.threads.Keys);
      var k := FreshId(w.rows.Keys);
      HelperIsCreated(w, t, v, k, agent, clock);
      s := Create(v, Command(k, agent, "", "", Pending, 120, 0, 3, 0, None, None, None, "", ""), clock);
      u1 := Some(v);
    } else {
      u1 := u;
      if w.threads[u.value].Spawning? {
        s := Spawn(u.value);
        SpawnStarts(w, u.value);
      } else if w.threads[u.value].phase == Start {
        s := Load(u.value, clock);
        HelperLoads(w, t, u.value, agent, clock);
      } else {
        s := Save(u.value);
        SaveGoesOn(w, u.value);
      }
    }
  }

  function Room(w: World, chan: Id): nat
    requires chan in w.channels
  {
    if Buffered(w, chan) < SEND_BUFFER then SEND_BUFFER - Buffered(w, chan) else 0
  }

  /** Commands dispatched to the connected agent fill the buffer before attempt t sends. */
  lemma {:induction false} TargetedSendIsThreat(w: World, c: Id, t: nat, agent: Id, u: Option<nat>, clock: int)
    requires Filling(w, c, t, agent, u)
    ensures Changeable(w, c, clock)
    decreases Room(w, w.threads[t].chan), HelperRank(w, u)
  {
    if Buffered(w, w.threads[t].chan) >= SEND_BUFFER {
      FullSendIsThreat(w, c, t, clock);
    } else if HelperRank(w, u) > 1 {
      var s, u1 := HelperGoesOn(w, c, t, agent, u, clock);
      StaysSettled(w, s, c);
      if Apply(w, s).rows[c] == w.rows[c] {
        TargetedSendIsThreat(Apply(w, s), c, t, agent, u1, clock);
      }
      StepsAlong(w, s, c, clock);
    } else {
      HelperSends(w, c, t, agent, u.value, clock);
    }
  }

  lemma {:induction false} HelperSends(w: World, c: Id, t: nat, agent: Id, u: nat, clock: int)
    requires Filling(w, c, t, agent, Some(u)) && AttemptIn(w, u, Sending)
    requires Buffered(w, w.threads[t].chan) < SEND_BUFFER
    ensures Changeable(w, c, clock)
    decreases Room(w, w.threads[t].chan), 0
  {
    var m := FreshNumber(w.threads.Keys);
    SendQueues(w, t, u, m);
    StaysSettled(w, Send(u, m), c);
    TargetedSendIsThreat(Apply(w, Send(u, m)), c, t, agent, None, clock);
    StepsAlong(w, Send(u, m), c, clock);
  }

  // ----- filling it with what is in flight

  lemma SaveKeepsSenders(w: World, u: nat, chan: Id)
    requires AttemptIn(w, u, Loaded)
    ensures Senders(Apply(w, Save(u)), chan) == Senders(w, chan)
  {
    SaveGoesOn(w, u);
  }

  lemma QueueingTakesOneSender(w: World, u: nat, m: nat)
    requires Enabled(w, Send(u, m)) && Buffered(w, w.threads[u].chan) < SEND_BUFFER
    ensures Senders(Apply(w, Send(u, m)), w.threads[u].chan) == Senders(w, w.threads[u].chan) - {u}
  {
  }

  ghost predicate Crowded(w: World, c: Id, t: nat) {
    && Settled(w, c) && Tries(w, t, Sending, c) && Open(w, w.threads[t].chan)
    && Buffered(w, w.threads[t].chan) + |Senders(w, w.threads[t].chan)| > SEND_BUFFER
  }

  /** The other attempts that hold the channel fill the buffer before attempt t sends. */
  lemma {:induction false} CrowdedSendIsThreat(w: World, c: Id, t: nat, clock: int)
    requires Crowded(w, c, t)
    ensures Changeable(w, c, clock)
    decreases Room(w, w.threads[t].chan), 1
  {
    var chan := w.threads[t].chan;
    if Buffered(w, chan) >= SEND_BUFFER {
      FullSendIsThreat(w, c, t, clock);
    } else {
      var u := AnotherSender(w, t, chan);
      if w.threads[u].phase == Sending {
        OtherSends(w, c, t, u, clock);
      } else {
        SaveGoesOn(w, u);
        SaveKeepsSenders(w, u, chan);
        StaysSettled(w, Save(u), c);
        if Apply(w, Save(u)).rows[c] == w.rows[c] {
          OtherSends(Apply(w, Save(u)), c, t, u, clock);
        }
        StepsAlong(w, Save(u), c, clock);
      }
    }
  }

  lemma AnotherSender(w: World, t: nat, chan: Id) returns (u: nat)
    requires |Senders(w, chan)| > 1
    ensures u in Senders(w, chan) && u != t
  {
    var others := Senders(w, chan) - {t};
    assert others != {} by {
      if others == {} {
        Subset(Senders(w, chan), {t});
      }
    }
    u :| u in others;
  }

  lemma {:induction false} OtherSends(w: World, c: Id, t: nat, u: nat, clock: int)
    requires Crowded(w, c, t) && u != t && AttemptIn(w, u, Sending) && w.threads[u].chan == w.threads[t].chan
    requires Buffered(w, w.threads[t].chan) < SEND_BUFFER
    ensures Changeable(w, c, clock)
    decreases Room(w, w.threads[t].chan), 0
  {
    var m := FreshNumber(w.threads.Keys);
    SendQueues(w, t, u, m);
    QueueingTakesOneSender(w, u, m);
    assert u in Senders(w, w.threads[t].chan);
    StaysSettled(w, Send(u, m), c);
    CrowdedSendIsThreat(Apply(w, Send(u, m)), c, t, clock);
    StepsAlong(w, Send(u, m), c, clock);
  }

  // ----- exactly

  lemma AttemptIsThreat(w: World, c: Id, t: nat, clock: int)
    requires Settled(w, c) && t in w.threads && w.threads[t].Attempting? && Threat(w, c, w.threads[t])
    ensures Changeable(w, c, clock)
  {
    var th := w.threads[t];
    if th.cmd.id != c || (th.phase == Sending && !CanFill(w, th.chan)) {
      WaitingIsThreat(w, c, t, clock);
    } else {
      match th.phase
      case Start => StartIsThreat(w, c, t, clock);
      case Loaded => WrittenNext(w, Save(t), c, clock);
      case Reverting => WrittenNext(w, PutBack(t), c, clock);
      case Sending =>
        if Targeted(w.registry, th.chan) {
          var agent :| agent in w.registry && w.registry[agent] == th.chan;
          TargetedSendIsThreat(w, c, t, agent, None, clock);
        } else {
          CrowdedSendIsThreat(w, c, t, clock);
        }
    }
  }

  lemma ThreatIsReal(w: World, c: Id, t: nat, clock: int)
    requires Settled(w, c) && t in w.threads && Threat(w, c, w.threads[t])
    ensures Changeable(w, c, clock)
  {
    var th := w.threads[t];
    match th
    case Spawning(_) => SpawningIsThreat(w, c, t, clock);
    case Attempting(_, _, _, _) => AttemptIsThreat(w, c, t, clock);
    case Reporting(_, _) => ReportingIsThreat(w, c, t, clock);
    case Sweeping(now, todo) =>
      var i :| 0 <= i < |todo| && todo[i].id == c && Overdue(todo[i], now) && TimeoutRewrites(w.rows[c], todo[i]);
      SweepingIsThreat(w, c, t, i, clock);
  }

  /** A terminal row is final, whatever anybody does from now on, exactly when no goroutine is a threat to it. It
      makes no difference to that whether the clock may go back. */
  lemma FinalExactly(w: World, c: Id, clock: int)
    requires Settled(w, c)
    ensures IsFinal(w, c, clock) <==> NoThreats(w, c)
    ensures IsFinal(w, c, clock) <==> forall steps :: LeavesRow(w, steps, c)
  {
    if NoThreats(w, c) {
      forall steps | Runs(w, steps) ensures LeavesRow(w, steps, c) {
        NoThreatsIsFinal(w, steps, c);
      }
    } else {
      var t :| t in w.threads && Threat(w, c, w.threads[t]);
      ThreatIsReal(w, c, t, clock);
    }
  }

  lemma {:induction false} RunKeepsPlugged(w: World, steps: seq<Step>)
    requires Plugged(w) && Runs(w, steps)
    ensures Plugged(After(w, steps))
    decreases |steps|
  {
    if steps != [] {
      StepKeepsPlugged(w, steps[0]);
      RunKeepsPlugged(Apply(w, steps[0]), steps[1..]);
    }
  }

  /** So it is after every run of the bus from its start, wherever the clock then stands. */
  lemma TerminalIsFinalExactly(steps: seq<Step>, c: Id, clock: int)
    requires Runs(INITIAL, steps) && c in After(INITIAL, steps).rows && Terminal(After(INITIAL, steps).rows[c].status)
    ensures IsFinal(After(INITIAL, steps), c, clock) <==> NoThreats(After(INITIAL, steps), c)
  {
    RunKeepsInv(INITIAL, steps);
    RunKeepsPlugged(INITIAL, steps);
    FinalExactly(After(INITIAL, steps), c, clock);
  }
}
