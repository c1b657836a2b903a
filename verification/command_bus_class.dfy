/** The command bus as the object the server holds: each method is one uninterrupted stretch of a goroutine. */
module CommandBusClass {
  import opened Wrappers
  import opened CommandBus
  import opened CommandBusSafety
  import opened CommandBusStable

  lemma OneThread(threads: map<nat, Thread>, t: nat, th: Option<Thread>)
    ensures th.Some? ==> (threads - {}) + map[t := th.value] == threads[t := th.value]
    ensures (threads - {t}) + map[] == threads - {t}
  {
  }

  lemma DispatchRuns(w: World, t: nat, cmd: Command, now: int)
    requires Enabled(w, Create(t, cmd, now))
    ensures var k := Accepted(cmd, now);
            && Runs(w, [Create(t, cmd, now), Spawn(t)])
            && After(w, [Create(t, cmd, now), Spawn(t)]) ==
               w.(rows := w.rows[k.id := k], reverted := w.reverted - {k.id}, limits := Limited(w, k),
                  threads := w.threads[t := Attempting(Start, k, "", [])])
  {
    var k := Accepted(cmd, now);
    var w1 := Commit(w, CreateEffect(w, t, cmd, now));
    OneThread(w.threads, t, Some(Spawning(k)));
    OneThread(w1.threads, t, Some(Attempting(Start, k, "", [])));
    Together(Commit(w1, SpawnEffect(w1, t)),
             w.(rows := w.rows[k.id := k], reverted := w.reverted - {k.id}, limits := Limited(w, k),
                threads := w.threads[t := Attempting(Start, k, "", [])]));
    RunFirst(w1, Spawn(t), []);
    RunFirst(w, Create(t, cmd, now), [Spawn(t)]);
    assert [Spawn(t)] + [] == [Spawn(t)] && [Create(t, cmd, now)] + [Spawn(t)] == [Create(t, cmd, now), Spawn(t)];
  }

  datatype SendOutcome = Queued | BufferFull | Panics

  class Bus {
    var table: map<Id, Command>       // the agent_commands table
    var wsRegistry: map<Id, Id>       // agent to send channel
    var channels: map<Id, Channel>
    var threads: map<nat, Thread>     // the goroutines' local variables, and what is in flight
    ghost var reverts: map<Id, nat>
    ghost var reverted: set<Id>
    ghost var executions: map<Id, nat>
    ghost var limits: map<Id, int>

    ghost function View(): World
      reads this
    {
      World(table, wsRegistry, channels, threads, reverts, reverted, executions, limits)
    }

    constructor ()
      ensures View() == INITIAL && Inv(View())
    {
      table, wsRegistry, channels, threads := map[], map[], map[], map[];
      reverts, reverted, executions, limits := map[], {}, map[], map[];
    }

    // ----- the goroutine's own variables

    method Continue(t: nat, th: Option<Thread>)
      modifies this`threads
      ensures threads == if th.Some? then old(threads)[t := th.value] else old(threads) - {t}
    {
      if th.Some? {
        threads := threads[t := th.value];
      } else {
        threads := threads - {t};
      }
    }

    method Store(cmd: Command)
      modifies this`table, this`reverted, this`limits
      ensures table == old(table)[cmd.id := cmd] && reverted == old(reverted) - {cmd.id}
      ensures limits == Limited(old(View()), cmd)
    {
      limits := Limited(View(), cmd);
      table := table[cmd.id := cmd];
      reverted := reverted - {cmd.id};
    }

    // ----- Dispatch

    /** A key or an id that is already in the table is refused; otherwise the row is stored and its attempt is
        under way. */
    method Dispatch(t: nat, cmd: Command, now: int) returns (ok: bool)
      requires t !in threads
      modifies this
      ensures ok <==>
                && cmd.id !in old(table)
                && (cmd.key == "" || forall c :: c in old(table) ==> old(table)[c].key != cmd.key)
      ensures !ok ==> View() == old(View())
      ensures ok ==> Runs(old(View()), [Create(t, cmd, now), Spawn(t)]) &&
                     View() == After(old(View()), [Create(t, cmd, now), Spawn(t)])
    {
      if cmd.key != "" && exists c :: c in table && table[c].key == cmd.key {
        return false;
      }
      if cmd.id in table {
        return false;
      }
      ghost var w := View();
      var k := cmd;
      k := k.(status := Pending, createdAt := now);
      if k.maxAttempts == 0 {
        k := k.(maxAttempts := 3);
      }
      if k.timeoutSeconds == 0 {
        k := k.(timeoutSeconds := 120);
      }
      Store(k);
      Continue(t, Some(Attempting(Start, k, "", [])));
      ok := true;
      DispatchRuns(w, t, cmd, now);
    }

    // ----- attemptDispatch, cut where other goroutines may come in between

    method AttemptLoad(t: nat, now: int)
      requires AttemptIn(View(), t, Start)
      modifies this`threads
      ensures View() == Apply(old(View()), Load(t, now))
    {
      var th := threads[t];
      if th.cmd.agent !in wsRegistry {
        Continue(t, Scan(th.rest));
      } else {
        var cmd := th.cmd;
        cmd := cmd.(status := Dispatched, dispatchedAt := Some(now), attempts := cmd.attempts + 1);
        Continue(t, Some(Attempting(Loaded, cmd, wsRegistry[cmd.agent], th.rest)));
      }
      Together(View(), Apply(old(View()), Load(t, now)));
    }

    method AttemptSave(t: nat)
      requires AttemptIn(View(), t, Loaded)
      modifies this`threads, this`table, this`reverted, this`limits
      ensures View() == Apply(old(View()), Save(t))
    {
      var th := threads[t];
      Store(th.cmd);
      Continue(t, Some(Attempting(Sending, th.cmd, th.chan, th.rest)));
      Together(View(), Apply(old(View()), Save(t)));
    }

    /** The non-blocking send; on a channel that is already closed it panics, and the process is gone. */
    method AttemptSend(t: nat, m: nat) returns (outcome: SendOutcome)
      requires AttemptIn(View(), t, Sending) && m !in threads && threads[t].chan in channels
      modifies this`threads, this`channels
      ensures outcome.Panics? <==> old(channels)[old(threads)[t].chan].closed
      ensures outcome.Panics? ==> View() == old(View())
      ensures !outcome.Panics? ==>
                && View() == Apply(old(View()), Send(t, m))
                && (outcome.Queued? <==> |old(channels)[old(threads)[t].chan].buffer| < SEND_BUFFER)
    {
      var th := threads[t];
      var ch := channels[th.chan];
      if ch.closed {
        return Panics;
      }
      if |ch.buffer| < SEND_BUFFER {
        outcome := Queued;
        channels := channels[th.chan := ch.(buffer := ch.buffer + [m])];
        Continue(t, Scan(th.rest));
        Continue(m, Some(Message(th.cmd.id, false)));
      } else {
        outcome := BufferFull;
        Continue(t, Some(Attempting(Reverting, th.cmd.(status := Pending), th.chan, th.rest)));
      }
      ghost var e := SendEffect(old(View()), t, m);
      assert threads == (old(threads) - e.ended) + e.threads;
      Together(View(), Commit(old(View()), e));
    }

    method AttemptPutBack(t: nat)
      requires AttemptIn(View(), t, Reverting)
      modifies this`threads, this`table, this`reverted, this`limits, this`reverts
      ensures View() == Apply(old(View()), PutBack(t))
    {
      var th := threads[t];
      Store(th.cmd);
      reverts := reverts[th.cmd.id := CountOf(reverts, th.cmd.id) + 1];
      reverted := reverted + {th.cmd.id};
      Continue(t, Scan(th.rest));
      OneThread(old(threads), t, Scan(th.rest));
      Together(View(), Apply(old(View()), PutBack(t)));
    }

    // ----- connections

    method RegisterAgentConnection(t: nat, agent: Id, chan: Id)
      requires t !in threads && chan !in channels
      modifies this`wsRegistry, this`channels, this`threads, this`reverted
      ensures View() == Apply(old(View()), Register(t, agent, chan))
    {
      reverted := StillReverted(View(), Some(agent));
      channels := channels[chan := Channel([], false)];
      wsRegistry := wsRegistry[agent := chan];
      Continue(t, Some(Listing(agent)));
      OneThread(old(threads), t, Some(Listing(agent)));
      Together(View(), Apply(old(View()), Register(t, agent, chan)));
    }

    method UnregisterAgentConnection(agent: Id)
      modifies this`wsRegistry
      ensures View() == Apply(old(View()), Unregister(agent))
    {
      wsRegistry := wsRegistry - {agent};
      Together(View(), Apply(old(View()), Unregister(agent)));
    }

    /** processPendingCommandsForAgent reads the table; `listed` is the query's answer. */
    method ProcessPending(t: nat, listed: seq<Command>)
      requires Enabled(View(), List(t, listed))
      modifies this`threads
      ensures View() == Apply(old(View()), List(t, listed))
    {
      Continue(t, Scan(listed));
      Together(View(), Apply(old(View()), List(t, listed)));
    }

    // ----- HandleResult

    /** The read: a missing or terminal row, or an unknown report, ends the call there. */
    method HandleRead(t: nat, id: Id, report: Report) returns (goesOn: bool)
      requires t !in threads
      modifies this`threads
      ensures goesOn <==> Heeds(old(View()), id, report)
      ensures View() == if goesOn then Apply(old(View()), Read(t, id, report)) else old(View())
    {
      if id !in table {
        return false;
      }
      var cmd := table[id];
      if Terminal(cmd.status) || report.SaysOther? {
        return false;
      }
      Continue(t, Some(Reporting(cmd, report)));
      goesOn := true;
      QuietCommit(old(View()), Becomes(Nothing(old(View())), t, Some(Reporting(cmd, report))), threads);
    }

    method HandleWrite(t: nat, now: int)
      requires t in threads && threads[t].Reporting? && !threads[t].report.SaysOther?
      modifies this`threads, this`table, this`reverted, this`limits
      ensures View() == Apply(old(View()), Answer(t, now))
    {
      var cmd, report := threads[t].cmd, threads[t].report;
      var next := None;
      match report {
        case SaysExecuting =>
          cmd := cmd.(status := Executing, executedAt := Some(now));
        case SaysCompleted(result) =>
          cmd := cmd.(status := Completed, completedAt := Some(now), result := result);
        case SaysFailed(error) =>
          cmd := cmd.(lastError := error);
          if cmd.attempts < cmd.maxAttempts {
            cmd := cmd.(status := Pending);
            next := Some(Spawning(cmd));
          } else {
            cmd := cmd.(status := DeadLetter);
          }
      }
      Store(cmd);
      Continue(t, next);
      ghost var e := Becomes(Nothing(old(View())), t, next);
      assert (old(threads) - e.ended) + e.threads == threads;
      WritingCommit(old(View()), e, cmd, threads);
    }

    // ----- the timeout monitor

    /** checkCommandTimeouts running alone; `active` is the query's answer. */
    method CheckCommandTimeouts(now: int, active: seq<Command>)
      modifies this`table, this`reverted, this`limits
      ensures View() == Swept(old(View()), active, now)
    {
      var i := 0;
      while i < |active|
        invariant 0 <= i <= |active|
        invariant Swept(View(), active[i..], now) == Swept(old(View()), active, now)
        invariant threads == old(threads)
      {
        var cmd := active[i];
        var ref := cmd.createdAt;
        if cmd.dispatchedAt.Some? {
          ref := cmd.dispatchedAt.value;
        }
        assert active[i..][0] == cmd && active[i..][1..] == active[i + 1..];
        if now - ref > cmd.timeoutSeconds * SECOND {
          cmd := cmd.(status := Timeout, lastError := "execution timed out");
          Store(cmd);
        }
        i := i + 1;
      }
    }

    // ----- the agent

    /** executeCommand: the "executing" report, then exactly one final report. */
    method ExecuteCommand(m: nat, failed: bool, text: string)
      requires m in threads && threads[m].Message? && threads[m].wired
      modifies this`threads, this`executions
      ensures m in threads && threads[m].Running? && OutboxOk(threads[m])
      ensures threads == old(threads)[m := Running(old(threads)[m].about, true, true,
                           [SaysExecuting, if failed then SaysFailed(text) else SaysCompleted(text)])]
      ensures executions == old(executions)[old(threads)[m].about := CountOf(old(executions), old(threads)[m].about)
              + 1]
    {
      var c := threads[m].about;
      executions := executions[c := CountOf(executions, c) + 1];
      var sent := [SaysExecuting];
      if failed {
        sent := sent + [SaysFailed(text)];
      } else {
        sent := sent + [SaysCompleted(text)];
      }
      assert sent == [SaysExecuting, if failed then SaysFailed(text) else SaysCompleted(text)];
      threads := threads[m := Running(c, true, true, sent)];
    }
  }
}
