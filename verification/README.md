# Verification of the VPN agent control plane

This project models the control plane that drives VPN agents, routes customers to proxies and limits abuse, and proves
what its state machines keep. Rows in the database are values in maps and sequences, the clock is an integer number of
nanoseconds, and every object that the program updates in place is a class whose methods are proved against a
specification function on a snapshot of its fields. The theorems are about those functions, over all inputs, all runs or
all interleavings.

| module | file | what it covers |
|---|---|---|
| `CommandBus`, `CommandBusSafety`, `CommandBusStarts`, `CommandBusStable`, `CommandBusProgress`, `CommandBusTerminal`, `CommandBusFinal`, `CommandBusAnswers`, `CommandBusClass` | `command_bus*.dfy` | the at-least-once command bus between server and agents, one table or registry access per step, every goroutine with its own, possibly stale, copy of a row |
| `SlidingWindow`, `Abuse`, `AbuseRaces`, `AbuseLateBlocks`, `AbuseAnswers` | `sliding_window.dfy`, `abuse*.dfy` | request limiter and failed-login lockout against their unpruned histories, and logins in flight together |
| `Counting`, `ConnectionGuard` | `counting.dfy`, `connection_guard.dfy` | connection counters with check and count under separate locks |
| `Quality`, `Selection`, `Router`, `RouterAnswers` | `quality.dfy`, `selection.dfy`, `router*.dfy` | scoring, filters, the two stable sorts, round robin and sticky sessions |
| `Allocation`, `AllocationLaws`, `AllocationSharing`, `AllocationRaces`, `AllocationSharingRaces`, `AllocationAnswers`, `AllocationClass` | `allocation*.dfy` | customers, subscriptions, invoices and proxy allocations of the customer and billing services, how many holders a proxy comes to, and allocations and rotations in flight together |
| `ProxyManager`, `ProxyManagerAnswers` | `proxy_manager*.dfy` | proxy rows against listening servers |
| `Socks5`, `Socks5Answers` | `socks5*.dfy` | the SOCKS5 handshake up to the end of the request |
| `WireGuard`, `WireGuardAnswers` | `wireguard*.dfy` | the line filter for WireGuard configurations |

The modules whose names end in `Answers` say what each operation answers and leaves behind in terms of its inputs, rows and
clock readings alone, without the functions the operations are specified by.

`dafny verify dfyconfig.toml` verifies the whole project.

Five points where the model follows the code against what one might expect of it. Terminal command rows are not final
under every interleaving, because a goroutine that read the row earlier writes it back whole: `CommandBusTerminal` gives a
run that does it and exactly the steps that can, and `CommandBusFinal` says exactly when a terminal row is final under
every continuation. Deleting a proxy does not look at its allocations, so the loads summed over the proxies fall short of
the active allocations exactly from then on. Only the fallback keeps a proxy to one holder; the server always plugs in a
router, which may allocate a proxy that is held, and so may a rotation. `AllocationSharing` gives a store where it
happens, says of every step exactly when it gives a held proxy to a second holder, and bounds the holders of a proxy by 21
over every serial run, and `AllocationSharingRaces` by 20 + n with n calls in flight, bounds that are reached; without a
router and without rotations no serial run shares a proxy. A failed login writes its block under a second lock whatever
block there is, so one held up may be written over a later one: `AbuseLateBlocks` proves that with k logins in flight ten
minutes then see up to 19 + (1 + ... + k) failures and never more, where `AbuseRaces` has 19 + k as long as blocks only
prolong one another; the order makes no difference exactly when no two logins are in flight together. The SOCKS5 handler
does not look at the version and reserved bytes of the request, so an encoding carries any value there.

## Model

| member | source | states |
|---|---|---|
| CommandBusSafety.NoCommandIsMissed | internal/event/command_bus.go:36-173 | after every interleaving, a row pending while its agent is connected still has an attempt to come, or a reconnect scan that has not listed, or was put back by the full-buffer branch since the agent's latest connection; what was put back before a reconnect is taken up by its scan |
| CommandBusSafety.QuietMeansDelivered | internal/event/command_bus.go:74-112 | when no attempt and no scan is left, the only pending rows of a connected agent are ones the full buffer put back on its present connection |
| CommandBusSafety.AttemptsAreBounded | internal/event/command_bus.go:58-157 | under every interleaving, stale whole-row writes included, each row's attempts stay within what its creation allows plus its full-buffer put-backs, and pending rows and copies about to be tried strictly below |
| CommandBusSafety.LimitsComeFromCreation | internal/event/command_bus.go:56-67 | what a row may be attempted is settled by the one step that created it and never changes: the command's limit, three without one, and once if it comes with its attempts used up |
| CommandBusSafety.StepKeepsInv | internal/event/command_bus.go:36-209 | every single step of bus, monitor, handler, connection and agent keeps the delivery and attempt invariants |
| CommandBusSafety.RunKeepsInv | internal/event/command_bus.go:36-209 | every interleaving keeps them from any state that has them |
| CommandBusStarts.StepAccounts | internal/event/command_bus.go:36-209 | each step adds to the starts there were and those under way exactly what it opens, and takes away exactly what it gives up |
| CommandBusStarts.RunAccounts | internal/event/command_bus.go:36-209 | so does every run |
| CommandBusStarts.StartsAreAccountedFor | internal/event/command_bus.go:47-173 | under every interleaving, a command's creation, the scans that listed it and the reports that had it retried are as many as its starts at the agent, its attempts given up or lost, and those still under way |
| CommandBusStarts.StartsAreBounded | internal/event/command_bus.go:47-173 | so the agent never starts it more often than that, and exactly as often if and only if nothing is under way and nothing was given up |
| CommandBusStable.DispatchStarts | internal/event/command_bus.go:47-72 | dispatching to a connected agent creates exactly one baton for the command, at its highest rank |
| CommandBusStable.OtherStepKeeps | internal/event/command_bus.go:36-209 | a step that does not concern a command leaves its row, its baton and its rank alone |
| CommandBusStable.OwnStepMoves | internal/event/command_bus.go:74-112 | each step of the command's own attempt, message or execution hands the one baton on and lowers the rank |
| CommandBusStable.HandleRuns | internal/event/command_bus.go:114-162 | the handler body run alone is a legal run of its two steps, and gives the row and retry it should |
| CommandBusStable.HandleMoves | internal/event/command_bus.go:114-162 | handling the execution's next report keeps one baton while the row is not terminal and lowers the rank; on a terminal row it writes nothing |
| CommandBusStable.MonitorRuns | internal/event/command_bus.go:189-209 | the monitor body run alone is a legal run that leaves exactly the swept table |
| CommandBusStable.SweptRow | internal/event/command_bus.go:189-209 | a sweep writes exactly the overdue rows among those it listed, as timed out |
| CommandBusStable.MonitorMoves | internal/event/command_bus.go:189-209 | a sweep leaves a command's row or times it out, never touching a terminal one |
| CommandBusStable.EventMoves | internal/event/command_bus.go:74-209 | any event of a session keeps the baton property and terminal rows, and whatever moves the command lowers its rank |
| CommandBusStable.SessionKeeps | internal/event/command_bus.go:74-209 | over a whole session, moves plus the remaining rank never exceed the rank at the start |
| CommandBusStable.OneBatonUntilTerminal | internal/event/command_bus.go:47-209 | for a new command on one connection whose buffer has room there is exactly one baton until the row is terminal, the agent starts the command at most as often as it is attempted, which is within the limit, and it moves a bounded number of times |
| CommandBusStable.TerminalIsFinal | internal/event/command_bus.go:114-162 | in such sessions completed, dead-lettered and timed-out rows never change again |
| CommandBusProgress.StepKeepsQueues | internal/event/command_bus.go:92-112 | under every interleaving each message not yet on the wire is in one buffer, at one place, and nothing else is |
| CommandBusProgress.SomethingAdvances | internal/event/command_bus.go:74-162 | while the command is not terminal, some event of the session can move it or take a message out of the very buffer it waits in or for |
| CommandBusProgress.Finishes | internal/event/command_bus.go:74-162 | from every such state some session brings it to a terminal row, however full the buffer |
| CommandBusProgress.SessionsEndTerminal | internal/event/command_bus.go:47-209 | after any run, any session of a new command on one connection can be continued to a terminal row, and one in which nothing can move it or clear the buffer it waits for has ended in one, whatever other channels hold |
| CommandBusTerminal.TerminalChangesExactly | internal/event/command_bus.go:86-207 | under arbitrary interleaving, a step changes a terminal row if and only if it stores an older copy that differs from it, and changes its status if and only if it stores one under another status, spelled out for attempts, each kind of report and the monitor |
| CommandBusTerminal.TerminalWithoutCopiesIsFinal | internal/event/command_bus.go:74-209 | a terminal row of which no goroutine holds a copy never changes, whatever happens |
| CommandBusTerminal.TimedOutCanBeDispatchedAgain | internal/event/command_bus.go:74-112 | a reachable run in which a timed-out row becomes dispatched again |
| CommandBusFinal.StepIsCalm | internal/event/command_bus.go:36-112 | no step reopens a channel, and on a channel no agent is connected through, messages queued and attempts in flight together never grow |
| CommandBusFinal.StepKeepsQuiet | internal/event/command_bus.go:74-209 | while no goroutine is a threat to a terminal row, no step changes it or makes a threat |
| CommandBusFinal.NoThreatsIsFinal | internal/event/command_bus.go:74-209 | then no run changes it |
| CommandBusFinal.WaitingIsThreat | internal/event/command_bus.go:164-173 | a copy that a scan has still to try can always be brought to change the row, unless the scan is stuck on a closed channel |
| CommandBusFinal.TargetedSendIsThreat | internal/event/command_bus.go:102-111 | an attempt about to send can find the buffer filled by new commands of an agent still on the channel, and puts the row back |
| CommandBusFinal.CrowdedSendIsThreat | internal/event/command_bus.go:102-111 | so it can by the other attempts in flight, when with the queue they exceed the buffer |
| CommandBusFinal.ThreatIsReal | internal/event/command_bus.go:74-209 | from every threat some run changes the row, on a clock that goes on from any reading |
| CommandBusFinal.FinalExactly | internal/event/command_bus.go:74-209 | a terminal row is final under every continuation on a clock that never goes back if and only if no attempt, scan, handler or monitor pass is a threat to it, and then it is final on any clock |
| CommandBusFinal.TerminalIsFinalExactly | internal/event/command_bus.go:74-209 | this holds after every run of the bus from its start, whatever the clock then shows |
| CommandBusAnswers.SweepTimesOutExactly | internal/event/command_bus.go:189-209 | a pass times a dispatched or executing row out if and only if its time limit has passed since it was dispatched, or since its creation if it never was, and changes nothing else |
| CommandBusAnswers.SweepTurnTimesOutExactly | internal/event/command_bus.go:195-207 | so does one turn of an interrupted pass, by the copy it listed and its own reading |
| CommandBusAnswers.NotTimedOutInTime | internal/event/command_bus.go:47-209 | over a whole session a command is not timed out while the monitor reads at most its time limit after its attempts load, however long before it was created |
| CommandBusAnswers.DispatchStores | internal/event/command_bus.go:56-67 | the row as it came, pending since now, with three attempts and 120 seconds where none are given |
| CommandBusAnswers.AttemptStores | internal/event/command_bus.go:74-90 | with a connection the attempt stores its copy as dispatched now with one attempt more, without one nothing |
| CommandBusAnswers.SendAnswers | internal/event/command_bus.go:102-111 | the message goes to the end of a buffer of fewer than a hundred; otherwise the row goes back to pending, attempt counted |
| CommandBusAnswers.ReadGoesOnExactly | internal/event/command_bus.go:114-124 | a report is heeded if and only if its row is there and pending, dispatched or executing, and it is one of the three known |
| CommandBusAnswers.ReportIsStored | internal/event/command_bus.go:126-161 | each report's fields are stored; a failure is retried if and only if attempts are left, and a dead letter otherwise |
| CommandBusAnswers.ConnectionIsStored | internal/event/command_bus.go:36-45 | connecting stores an open, empty channel under the agent and starts its scan; disconnecting removes the entry |
| CommandBusAnswers.ScanTriesExactly | internal/event/command_bus.go:164-173 | a scan has exactly the agent's pending rows before it, each once, oldest first |
| CommandBusClass.DispatchRuns | internal/event/command_bus.go:47-72 | storing the row and starting the attempt is the run of those two steps |
| CommandBusClass.Bus.constructor | internal/event/command_bus.go:22-34 | a new bus is the initial world and satisfies the invariants |
| CommandBusClass.Bus.Dispatch | internal/event/command_bus.go:47-72 | refuses exactly a key or an id that is in the table; otherwise defaults are filled in, the row is stored and one attempt is under way |
| CommandBusClass.Bus.AttemptLoad | internal/event/command_bus.go:74-90 | without a connection the attempt ends and the row stays pending; otherwise its copy becomes the next dispatched attempt |
| CommandBusClass.Bus.AttemptSave | internal/event/command_bus.go:86-90 | the whole copy is stored |
| CommandBusClass.Bus.AttemptSend | internal/event/command_bus.go:92-112 | panics exactly on a closed channel; otherwise queues exactly when the buffer has room, and goes on to put the row back when it has not |
| CommandBusClass.Bus.AttemptPutBack | internal/event/command_bus.go:107-110 | the whole copy is stored as pending and counted as a put-back |
| CommandBusClass.Bus.RegisterAgentConnection | internal/event/command_bus.go:36-40 | the channel is known before the scan it starts, which will see every pending row of the agent |
| CommandBusClass.Bus.UnregisterAgentConnection | internal/event/command_bus.go:42-45 | only the registry entry goes |
| CommandBusClass.Bus.ProcessPending | internal/event/command_bus.go:164-173 | the scan takes copies of exactly the listed rows |
| CommandBusClass.Bus.HandleRead | internal/event/command_bus.go:114-124 | goes on exactly for a known row that is not terminal and a known report |
| CommandBusClass.Bus.HandleWrite | internal/event/command_bus.go:126-161 | the copy read earlier is stored with the report's outcome, and retried exactly while attempts remain |
| CommandBusClass.Bus.CheckCommandTimeouts | internal/event/command_bus.go:189-209 | the loop leaves exactly the swept table |
| CommandBusClass.Bus.ExecuteCommand | cmd/agent/main.go:183-215 | one start, one executing report, then exactly one final report |
| SlidingWindow.PruneTimes | internal/abuse/service.go:453-461 | the in-place filter leaves exactly the later timestamps, in order, at the front of the same array |
| SlidingWindow.CountSince | internal/abuse/service.go:463-471 | the number of later timestamps |
| SlidingWindow.LogIsWindow | internal/abuse/service.go:357-370 | a log pruned at every addition is the part of the full history inside the latest window |
| SlidingWindow.ShorterWindowAgrees | internal/abuse/service.go:130-156 | a shorter window counts the same on the pruned log as on the full history |
| Abuse.LimiterAgreesWithHistory | internal/abuse/service.go:357-370 | a request is let through if and only if at most the limit of requests, denied ones included, lie in its window |
| Abuse.WindowHoldsAtMostLimit | internal/abuse/service.go:357-370 | no window of that length, wherever it ends, holds more admitted requests than the limit |
| Abuse.EscalationAgreesWithHistory | internal/abuse/service.go:130-156 | warn, block and suspend fire exactly when the unpruned history reaches 5 in 5, 20 in 10 and 50 in 60 minutes |
| Abuse.HourCountAgrees | internal/abuse/service.go:130-156 | the length of the pruned log is the last hour's count of the history |
| Abuse.LoginKeeps | internal/abuse/service.go:63-77 | one serial login keeps the log equal to the last hour of failures and a full ten minutes blocked or over |
| Abuse.SerialLoginsKeep | internal/abuse/service.go:63-156 | so does any serial run of logins, over any number of blocks and unblocks |
| Abuse.LockoutBoundsFailures | internal/abuse/service.go:130-150 | hence at most 20 recorded failures in any ten minutes and at most 120 log entries, for each key |
| Abuse.LoginKeyIsInjective | internal/abuse/service.go:131 | two logins share a key if and only if proxy, user name and address are the same, the ids and addresses holding no bar |
| Abuse.RateKeyIsInjective | internal/abuse/service.go:357-370 | within a scope every customer has a log of its own, and the nameless share one |
| AbuseAnswers.KeysAreSeparate | internal/abuse/service.go:63-77 | after every run of calls by any users, what is kept for a proxy, user and address is what its own calls alone leave |
| AbuseAnswers.RefusedExactly | internal/abuse/service.go:63-67 | for serial callers a login is refused at the block if and only if the latest failure was the twentieth or later of its ten minutes and is at most ten minutes old |
| AbuseAnswers.RefusedForOwnFailures | internal/abuse/service.go:63-77 | amid the calls of others, so is a login, by its own triple's failures only |
| AbuseAnswers.EscalatesExactly | internal/abuse/service.go:130-156 | 5 in five, 20 in ten and 50 in sixty minutes, of all failures there were, by the nanosecond |
| AbuseAnswers.PenaltyIs | internal/abuse/service.go:140-155 | 3, 12 and 30 points for warning, block and suspension, capped at 100 in all, for this customer only |
| AbuseAnswers.SuspensionIs | internal/abuse/service.go:151-153 | exactly the credential of that proxy and user name goes out of use |
| AbuseRaces.AloneIsAttempt | internal/abuse/service.go:63-77 | the steps of a login no one interrupts are the serial login |
| AbuseRaces.StepKeeps | internal/abuse/service.go:130-150 | look-ups, failures and blocks of logins in flight keep the log equal to the last hour of failures and, when a block written ends no earlier than the one it replaces, every failure that filled its ten minutes in flight, blocked or over |
| AbuseRaces.LockoutHoldsUpToRaces | internal/abuse/service.go:130-150 | with at most k logins of a key in flight, in runs where blocks only prolong one another, at most 19 + k failures are recorded in any ten minutes, and the log holds at most six times that |
| AbuseRaces.RacesReachTheBound | internal/abuse/service.go:130-150 | for every k above zero such a run records 19 + k failures in ten minutes |
| AbuseLateBlocks.StepStaysContained | internal/abuse/service.go:130-150 | every step, in whatever order blocks are written, keeps the failures of a window, those in flight and those still to be let in within 19 + (1 + ... + the logins whose blocks outlast it) |
| AbuseLateBlocks.LockoutHoldsInAnyOrder | internal/abuse/service.go:63-156 | with at most k logins of a key in flight, under every interleaving, at most 19 + (1 + ... + k) failures are recorded in any ten minutes, and the log holds at most six times that |
| AbuseLateBlocks.LateBlocksReachTheBound | internal/abuse/service.go:144-147 | for every k above zero a run in which all blocks but one are held up and written over newer ones records that many |
| AbuseLateBlocks.LockoutBoundIsExact | internal/abuse/service.go:130-150 | 19 + b bounds every run if and only if b is at least 1 + ... + k, and every run in which blocks only prolong one another if and only if b is at least k |
| AbuseLateBlocks.LateBlockPassesTheBound | internal/abuse/service.go:144-147 | with two logins in flight 22 failures come in ten minutes |
| AbuseLateBlocks.OrderMattersFromTwoOn | internal/abuse/service.go:130-150 | 19 + k bounds every run if and only if k is at most one |
| Abuse.Service.constructor | internal/abuse/service.go:31-40 | a new service has empty logs, no blocks and no risk |
| Abuse.Service.Extend | internal/abuse/service.go:357-370 | appending and pruning in place gives the window of the extended log |
| Abuse.Service.CheckRequestRate | internal/abuse/service.go:357-370 | the key's log becomes its window, and the answer is whether that exceeds the limit; other keys are untouched |
| Abuse.Service.BumpRisk | internal/abuse/service.go:417-434 | a known customer's score rises by the penalty, capped at 100 |
| Abuse.Service.RecordFailedAuth | internal/abuse/service.go:130-156 | the key's log and block, the credential and the risk change exactly as the escalation says, and nothing else |
| Abuse.Service.SuspendCredential | internal/abuse/service.go:151-153 | exactly the credential of that proxy and user name is suspended |
| Abuse.Service.BlockedUntil | internal/abuse/service.go:441-451 | answers whether the block is in force and forgets one that is over |
| Abuse.Service.ValidateProxyCredential | internal/abuse/service.go:63-88 | blocked, wrong, from an unlisted address or at the rate check: the answer, the key's failures, the customer's request log, the risk and the credential all change exactly as that stage says |
| ConnectionGuard.StepKeepsExact | internal/abuse/service.go:90-114 | check, count and release in any interleaving keep each counter equal to its live connections |
| ConnectionGuard.CountersAreLiveConnections | internal/abuse/service.go:90-114 | after any interleaving both kinds of counters are the live connections and have the same total |
| ConnectionGuard.StepKeepsRoom | internal/abuse/service.go:303-327 | connections plus calls in flight, of a customer or through a proxy, stay within limit - 1 + k |
| ConnectionGuard.LimitHoldsUpToRaces | internal/abuse/service.go:303-327 | with at most k of its guard calls in flight neither a customer nor a proxy ever has more than its limit - 1 + k connections; a serial caller never exceeds the limit |
| ConnectionGuard.PassesExactly | internal/abuse/service.go:303-327 | a call passes if and only if customer and proxy each have fewer live connections than their positive limit |
| ConnectionGuard.Guard.constructor | internal/abuse/service.go:31-40 | all counters start exact at zero |
| ConnectionGuard.Guard.CheckConnectionLimits | internal/abuse/service.go:303-327 | refuses exactly when a positive limit is reached, and counts nothing |
| ConnectionGuard.Guard.CountConnection | internal/abuse/service.go:100-103 | both counters rise by one for the admitted call |
| ConnectionGuard.Guard.ReleaseConnection | internal/abuse/service.go:104-113 | both counters fall by one, never below zero |
| Quality.CalculateQuality | internal/routing/service.go:130-200 | the accumulating loop and the clamped deductions give the score, grade, latency and failures of the specification |
| Quality.LoadLowersRank | internal/routing/service.go:162-178 | more load never raises the score or revives a dead grade and strictly lowers the weighted rank |
| Quality.DeadExactly | internal/routing/service.go:162-215 | a proxy is graded dead exactly when its base score less three per allocation is under 40, so one with more than 20 allocations always is |
| Selection.EligibleMembers | internal/routing/service.go:398-440 | the candidate list holds exactly the rows that pass every filter |
| Selection.SortRefines | internal/routing/service.go:441-446 | a stable sort orders by its own criterion and keeps the earlier order among equals, losing nothing |
| Selection.RankedIsSorted | internal/routing/service.go:398-448 | candidates come by weight, then latency, then table row, and are exactly the eligible ones |
| Selection.ResortIsLexicographic | internal/routing/service.go:476-494 | the two sorts in a row order by the strategy's criterion, then weight, latency and row |
| Selection.FirstIsBest | internal/routing/service.go:476-494 | the first element is eligible and at least as good as every eligible proxy; there is none exactly when nothing is eligible |
| Router.Service.constructor | internal/routing/service.go:46-48 | no turns taken, no sessions |
| Router.Service.CandidateForProxy | internal/routing/service.go:450-474 | the candidate of the row with that id, or none |
| Router.Service.ActiveReservations | internal/routing/service.go:521-530 | exactly the reservations in force for the customer |
| Router.Service.ReservationAllowed | internal/routing/service.go:583-604 | allowed if and only if there are no reservations or one of them grants the proxy |
| Router.Service.Candidates | internal/routing/service.go:398-448 | the loop of filters and the sort give the ranking |
| Router.Service.Balance | internal/routing/service.go:476-494 | the strategy's choice; only round robin moves its key's counter, by one |
| Router.Service.FindSticky | internal/routing/service.go:496-505 | the unexpired session of the key that expires last, for identified customers in sticky modes only |
| Router.Service.SaveSticky | internal/routing/service.go:507-513 | the key's rows are replaced by one with the mode's duration; other rows stay |
| Router.Service.SelectProxy | internal/routing/service.go:217-241 | a serving session wins, otherwise the ranking and the strategy, and the new state is that of the specification |
| Router.NewestLivesLongest | internal/routing/service.go:496-505 | the session used is live and of the key, and none of the key's lives longer |
| Router.SelectionIsExact | internal/routing/service.go:217-241 | off the sticky path it fails if and only if no proxy passes all filters; otherwise an eligible one, the strategy's best unless round robin |
| Router.SelectionWritesSessions | internal/routing/service.go:217-238 | sessions are written exactly when a sticky request found none that serves and got a proxy, and there is never more than one row a key |
| Router.SessionServes | internal/routing/service.go:217-229 | a live session answers its key's request with its proxy and stays as it is |
| Router.StickyUntilExpiry | internal/routing/service.go:496-513 | over any run before its expiry, while its proxy exists and is not dead, a session is never changed or extended and every request of its key gets its proxy |
| Router.OneSessionRowAlways | internal/routing/service.go:507-513 | over every run of selections from an empty table no key ever has two session rows |
| Router.RankedIsDistinct | internal/routing/service.go:398-448 | no proxy is ranked twice |
| Router.RoundRobinIsFair | internal/routing/service.go:482-489 | over any run with other selections in between, each of an unchanging list of candidates gets its share of the turns rounded down or up, from any starting counter |
| RouterAnswers.LatencyIsTheAverage | internal/routing/service.go:138-153 | the average of the positive latencies over all metrics, rounded down, or 300 |
| RouterAnswers.ScoreIs | internal/routing/service.go:162-178 | what each failure, ten milliseconds, bad status, offline agent and allocation takes from 100, between 0 and 100, and the ranking weight |
| RouterAnswers.GradesAre | internal/routing/service.go:202-215 | each grade if and only if the score is in its range |
| RouterAnswers.HealthIsRead | internal/routing/service.go:130-178 | a score is made of the proxy's twenty latest metrics, status, agent and load |
| RouterAnswers.EligibleIsUsable | internal/routing/service.go:398-440 | the filters are kind, country, region, reservation, provider, network and carrier as asked for, and neither error, dead grade nor offline agent |
| RouterAnswers.SelectionFits | internal/routing/service.go:217-241 | a request that is not sticky is answered if and only if a row is usable, by a usable row that none beats in latency, load or weight as the strategy has it |
| RouterAnswers.SessionFound | internal/routing/service.go:496-505 | the live session of the customer, session key and country that lasts longest |
| RouterAnswers.SessionAnswers | internal/routing/service.go:217-225 | a session answers if and only if the request is sticky, it is live, and its proxy is there and not dead; nothing is written then |
| RouterAnswers.SessionIsSaved | internal/routing/service.go:507-513 | otherwise the session names the proxy chosen for 30 minutes, 6 or 24 hours, and others' sessions stay |
| RouterAnswers.TurnIsTaken | internal/routing/service.go:482-489 | round robin takes the next of its country's own turns, and no other strategy moves a counter |
| AllocationLaws.LatestIsActive | internal/billing/service.go:435-439 | the subscription used is one in force and none in force expires later; there is none only when none is in force |
| AllocationLaws.EnforcedPermitExactly | internal/customer/service.go:242-254 | with the enforcer set a request is permitted if and only if the commercial plan has room, allows the country and has traffic left; rotation mode and legacy subscriptions make no difference |
| AllocationLaws.FallbackIsMostRecent | internal/customer/service.go:270-298 | the fallback takes the most recently updated of the fitting proxies no one holds, and finds one if there is one |
| AllocationAnswers.FleetIsCounted | internal/routing/service.go:515-519 | the router sees the tables as they are, and as a load the number of active allocations |
| AllocationAnswers.PlanIsTheLongest | internal/billing/service.go:435-445 | the plan is that of the valid subscription expiring last, if it is active; there is none if and only if no subscription is valid |
| AllocationAnswers.PermitWithoutEnforcer | internal/customer/service.go:509-522 | the refusal is the first of subscription, plan, number, country and mode that applies |
| AllocationAnswers.PermitWithEnforcer | internal/billing/service.go:408-433 | it is the first of number, country and all traffic so far under the commercial plan, and refusal without one |
| AllocationAnswers.AllocatedFits | internal/customer/service.go:256-299 | a permitted request that is not sticky fails if and only if no row of its kind and country is usable for the router and no free proxy will do; it gets the router's best or the free one updated last |
| AllocationAnswers.AllocatedIsAsAsked | internal/customer/service.go:256-299 | the proxy allocated is not in error, of the kind asked for, and of the country asked for or free and on an agent online |
| AllocationAnswers.StickyAllocation | internal/customer/service.go:256-268 | in a sticky mode the session of customer and country decides while its proxy lives, and otherwise remembers the choice |
| AllocationAnswers.AllocationIsStored | internal/customer/service.go:306-334 | one active row with the proxy's country or else the one asked for; the proxy's row is touched and nothing else changes |
| AllocationAnswers.RotationFits | internal/routing/service.go:251-272 | a rotation moves the allocation to a usable row of its country that none but its own proxy beats, and fails if and only if there is none |
| AllocationAnswers.ReleaseIs | internal/customer/service.go:396-401 | a release deletes exactly the customer's allocation of that id |
| AllocationAnswers.RotateProxyIs | internal/customer/service.go:403-408 | rotating anew is that release and then an allocation of any kind and country in rotating mode |
| AllocationAnswers.TrafficIsRecorded | internal/abuse/service.go:116-127 | traffic goes to exactly the customer's unreleased allocations of the proxy |
| AllocationAnswers.SuspendProxyIs | internal/abuse/service.go:256-262 | the allocation of that id is suspended, whatever it was |
| AllocationAnswers.StatusIsStored | internal/billing/service.go:170-186 | one of five statuses is stored; suspended, expired and cancelled also suspend the customer's active allocations, and nothing else does |
| AllocationAnswers.SuspensionIsStored | internal/billing/service.go:344-355 | customer, all its subscriptions and its active allocations, and no others, are suspended |
| AllocationAnswers.PaymentIsStored | internal/billing/service.go:232-249 | the invoice is paid and its subscription active, and nothing else changes |
| AllocationAnswers.SubscriptionIsStored | internal/billing/service.go:144-168 | the new row, its status and its days as given or by default |
| AllocationSharing.ExclusiveBreaksExactly | internal/customer/service.go:256-299 | from where every proxy has at most one holder, a step of any kind, routed or not, keeps it so if and only if it does not allocate, re-allocate or move onto a proxy that is held |
| AllocationSharing.ExclusiveUntilShared | internal/routing/service.go:251-272 | every run without such a step keeps every proxy to one holder |
| AllocationSharing.UnroutedIsExclusive | internal/customer/service.go:284-296 | in particular, without a router and without rotations no serial run ever shares a proxy |
| AllocationSharing.HeldProxyIsAllocatedAgain | cmd/server/main.go:124 | with the router, the only proxy, held by one customer, is allocated to the next |
| AllocationSharing.StepKeepsAtMost | internal/routing/service.go:162-178 | no operation takes a proxy above 21 active allocations |
| AllocationSharing.HoldersAreBounded | internal/routing/service.go:162-178 | no run does, whatever is routed, sticky, rotated, suspended or deleted in it |
| AllocationSharing.TwentyOneIsReached | internal/routing/service.go:162-178 | a proxy with a perfect record and 20 holders is allocated once more |
| AllocationSharingRaces.StepKeepsFit | internal/routing/service.go:251-272 | a proxy's active allocations plus the calls that have chosen it stay within 20 + n, whatever is interleaved |
| AllocationSharingRaces.HoldersHoldUpToRaces | internal/customer/service.go:256-346 | with at most n allocations and rotations to a proxy in flight past their choice, no interleaving takes it above 20 + n active allocations |
| AllocationSharingRaces.CrowdsReachTheBound | internal/customer/service.go:256-346 | for every n, n calls bring a proxy with 20 holders to 20 + n |
| AllocationLaws.LoadIsCount | internal/routing/service.go:515-519 | the load routing reads is the number of active allocations of the proxy |
| AllocationLaws.StepKeepsInv | internal/customer/service.go:242-408 | every operation, deleting proxies included, keeps proxy and allocation ids distinct |
| AllocationLaws.RunKeepsInv | internal/customer/service.go:242-408 | so does every run |
| AllocationLaws.LoadsAddUp | internal/routing/service.go:515-519 | the loads summed over all proxies are the active allocations whose proxy is in the table, so all active ones if and only if each has its proxy there |
| AllocationLaws.LoadsAreConserved | internal/routing/service.go:515-519 | so they are after every run, whatever proxies are deleted in it |
| AllocationLaws.LoadsBreakExactly | internal/api/handler.go:573-577 | where the loads add up to all active allocations, a step breaks that if and only if it deletes a proxy that is held |
| AllocationLaws.LoadsAddUpUntilDropped | internal/routing/service.go:515-519 | over any run that deletes no held proxy the loads add up to all active allocations |
| AllocationLaws.DeletedProxyLosesLoad | internal/api/handler.go:573-577 | deleting the proxy of the only active allocation leaves a load sum of zero against it |
| AllocationLaws.ReplacementIsBest | internal/routing/service.go:251-272 | the replacement is the best-ranked eligible proxy other than the current one; there is none exactly when no other is eligible |
| AllocationLaws.RotationMovesOneUnit | internal/routing/service.go:251-272 | rotating an active allocation, also off a proxy that is deleted, takes one unit of load from its proxy, gives it to the best other one, and changes no other count; it fails if and only if no other proxy is eligible |
| AllocationLaws.AllocateCounts | internal/customer/service.go:242-346 | a successful allocation adds one to its customer and its proxy and to no one else; a refused one adds nothing |
| AllocationLaws.GateOpensExactly | internal/billing/service.go:144-249 | a shut account is opened by a step if and only if that step activates one of its subscriptions, by status, payment or creation |
| AllocationLaws.SuspensionGate | internal/billing/service.go:344-360 | from SuspendCustomer to the next such activation no run of operations gives the customer an active allocation |
| AllocationLaws.ShutRefuses | internal/billing/service.go:408-445 | with the enforcer set, no active commercial subscription means every request is refused, legacy subscription or not |
| AllocationLaws.SettlingSuspends | internal/billing/service.go:170-186 | billing decisions only ever suspend allocations and relabel subscriptions |
| AllocationLaws.ReleasedComesBackExactly | internal/abuse/service.go:256-262 | a released allocation comes back, as suspended, at SuspendProxy of its id and at no other operation |
| AllocationLaws.PermitIsBelowLimit | internal/customer/service.go:509-522 | what is permitted is permitted strictly below the limit of the plan in force |
| AllocationLaws.OthersDoNotAdd | internal/customer/service.go:396-401 | no operation but allocating raises a customer's count |
| AllocationLaws.QuotaIsNeverExceeded | internal/billing/service.go:413-417 | while the customer's plans are limited to a number, no run takes its active allocations above it |
| AllocationRaces.AloneIsAllocate | internal/customer/service.go:242-346 | the steps of an allocation no one interrupts are the serial one, refused or not |
| AllocationRaces.AloneIsRotate | internal/routing/service.go:251-272 | the steps of a rotation no one interrupts are the serial one |
| AllocationRaces.StepKeepsRoom | internal/customer/service.go:509-522 | a customer's active allocations plus its calls past the limit check stay within limit - 1 + n, whatever is interleaved |
| AllocationRaces.QuotaHoldsUpToRaces | internal/customer/service.go:242-346 | with at most n of a customer's calls in flight past the check, no interleaving takes it above limit - 1 + n active allocations |
| AllocationRaces.RacesReachTheBound | internal/customer/service.go:242-346 | for every n, a customer allowed one allocation comes to n of them with n calls in flight |
| AllocationLaws.LighterTwinIsBetter | internal/routing/service.go:162-178 | of two alike proxies the less loaded one is eligible whenever the other is, and ranks strictly higher |
| AllocationLaws.AllocatesTheLighterTwin | internal/customer/service.go:256-299 | in a mode that is not sticky, routed or by fallback, the proxy allocated has no twin with less load |
| AllocationLaws.GapNeverWidensBeyondOne | internal/customer/service.go:256-299 | no such allocation widens the load gap between two twins beyond one |
| AllocationClass.Service.ActiveCount | internal/billing/service.go:413-414 | the number of active allocations of a customer or a proxy |
| AllocationClass.Service.CurrentFleet | internal/routing/service.go:515-519 | the fleet with every proxy's load counted afresh |
| AllocationClass.Service.LatestSubscription | internal/billing/service.go:435-439 | the active, unexpired subscription that expires last |
| AllocationClass.Service.ActiveCommercialSubscription | internal/billing/service.go:435-445 | that subscription's plan if it is active |
| AllocationClass.Service.JsonListAllows | internal/billing/service.go:522-536 | allows everything without a list, otherwise exactly its values, case apart |
| AllocationClass.Service.EnforceAllocation | internal/billing/service.go:408-433 | refuses for the first of subscription, plan limit, country and traffic that fails |
| AllocationClass.Service.ActiveSubscription | internal/customer/service.go:472-507 | the commercial plan without rotation modes, otherwise the legacy plan |
| AllocationClass.Service.CheckAllocationAllowed | internal/customer/service.go:509-522 | refuses for the first of limit, country and mode that fails |
| AllocationClass.Service.CheckPermit | internal/customer/service.go:242-254 | all gates in order |
| AllocationClass.Service.Fallback | internal/customer/service.go:270-298 | the most recently updated fitting proxy that no one holds |
| AllocationClass.Service.AllocateProxy | internal/customer/service.go:242-346 | refused or allocated as specified, with the new row, the touched proxy and the router's new state |
| AllocationClass.Service.ReleaseProxy | internal/customer/service.go:396-401 | exactly the customer's row of that id is deleted |
| AllocationClass.Service.RotateProxy | internal/customer/service.go:403-408 | releases, then allocates anew; a refused allocation leaves the release done |
| AllocationClass.Service.RotateAllocation | internal/routing/service.go:251-272 | the loop finds the replacement and moves the row there, or changes nothing |
| AllocationClass.Service.MoveAllocation | internal/routing/service.go:265-267 | only the proxy of that row changes |
| AllocationClass.Service.RecordUsage | internal/abuse/service.go:116-127 | traffic is added to exactly the customer's undeleted rows on the proxy |
| AllocationClass.Service.SuspendProxy | internal/abuse/service.go:256-262 | exactly the row of that id becomes suspended, whatever its status was, a deleted one included |
| AllocationClass.Service.SuspendExistingAllocations | internal/billing/service.go:447-450 | exactly the customer's active rows become suspended |
| AllocationClass.Service.SuspendCustomer | internal/billing/service.go:344-355 | customer, all subscriptions and all active allocations are suspended together |
| AllocationClass.Service.ActivateCustomer | internal/billing/service.go:357-360 | only the customer's own status changes |
| AllocationClass.Service.SetSubscriptionStatus | internal/billing/service.go:174-177 | only the status of that subscription changes |
| AllocationClass.Service.UpdateSubscriptionStatus | internal/billing/service.go:170-186 | an unknown status is refused; one that stops the subscription also suspends its customer's allocations |
| AllocationClass.Service.MarkInvoicePaid | internal/billing/service.go:232-249 | the invoice is paid and its subscription active, whatever either was before |
| AllocationClass.Service.CreateSubscription | internal/billing/service.go:144-168 | a new row, pending for 30 days unless told otherwise |
| AllocationClass.Service.ActivateSubscription | internal/customer/service.go:220-240 | a new active legacy row |
| ProxyManager.Manager.constructor | internal/proxy/manager.go:25-38 | the table as it is, and no server |
| ProxyManager.Manager.GetByID | internal/proxy/manager.go:44-47 | the row of that id |
| ProxyManager.Manager.StartProxy | internal/proxy/manager.go:40-119 | running, expired or error as the port, the expiry and the listener decide, and the matching answer |
| ProxyManager.Manager.StopProxy | internal/proxy/manager.go:121-146 | the server of the row's port is closed and the row stopped |
| ProxyManager.Manager.ExpireProxy | internal/proxy/manager.go:148-177 | the same, with the row expired and revoked |
| ProxyManager.Manager.SweepExpiredProxies | internal/proxy/manager.go:179-194 | exactly the overdue running and stopped rows are expired and exactly the running ones' servers closed |
| ProxyManager.Manager.RestoreProxies | internal/proxy/manager.go:214-232 | the start-up loop row by row |
| ProxyManager.StepKeepsAgreement | internal/proxy/manager.go:40-194 | start, stop, expire, sweep, create and delete keep served ports and running rows in agreement |
| ProxyManager.RestoreAgrees | internal/proxy/manager.go:214-232 | restoring from no servers establishes the agreement, whatever the table said |
| ProxyManager.ManagerAgrees | internal/proxy/manager.go:40-232 | after restoring and every serial run the served ports are exactly the running rows' ports, each server under its row's id |
| ProxyManager.SweepClears | internal/proxy/manager.go:179-194 | after a sweep no overdue row is running, stopped or served, and no other row or server is touched |
| ProxyManager.StartSucceedsExactly | internal/proxy/manager.go:40-119 | starting succeeds if and only if the proxy ends up running under its own server |
| ProxyManagerAnswers.StartAnswers | internal/proxy/manager.go:40-119 | no fault if and only if the port is served or the row is not past its expiry and the port opens, and then the row runs; otherwise the first reason gives fault, status and revocation |
| ProxyManagerAnswers.StartedIsServed | internal/proxy/manager.go:108-110 | after a start without fault the port is served under the row's own id |
| ProxyManagerAnswers.UnknownAnswers | internal/proxy/manager.go:44-47 | an unknown id is not found and changes nothing |
| ProxyManagerAnswers.StopAnswers | internal/proxy/manager.go:121-177 | stopping and expiring close the port and change the row's status, and its revocation when expiring |
| ProxyManagerAnswers.SweepAnswers | internal/proxy/manager.go:179-194 | exactly running and stopped rows past their expiry are expired, and exactly the running ones' ports closed |
| ProxyManagerAnswers.RestoreServesExactly | internal/proxy/manager.go:214-232 | every running row that is not past its expiry and whose port opens is served again, and nothing else is |
| Socks5.Handler.constructor | internal/proxy/go_proxy.go:144-151 | nothing read, nothing written |
| Socks5.Handler.ReadFull | internal/proxy/go_proxy.go:190-193 | the next n bytes, or the end of the stream |
| Socks5.Handler.AuthenticateSocks5 | internal/proxy/go_proxy.go:317-372 | the login's fields, answer and reply, and how far the stream was read |
| Socks5.Handler.ReadAddress | internal/proxy/go_proxy.go:249-279 | the address of each of the three types |
| Socks5.Handler.Admit | internal/proxy/go_proxy.go:289-298 | lets through anything without a customer, otherwise exactly what destination and connection limits allow, and then counts the connection |
| Socks5.Handler.Release | internal/proxy/go_proxy.go:298 | the counted connection is released, the counters staying exact |
| Socks5.Handler.ReadDestination | internal/proxy/go_proxy.go:236-287 | destination or refusal of the request, its reply and the bytes it took |
| Socks5.Handler.ReadRequest | internal/proxy/go_proxy.go:236-309 | the request, the guard and the dial in order; however it ends, the guard's counters are exact and know no other connections than before |
| Socks5.Handler.Dial | internal/proxy/go_proxy.go:300-310 | the destination is connected or unreachable, with the matching reply |
| Socks5.Handler.ReadGreeting | internal/proxy/go_proxy.go:190-199 | the offered methods |
| Socks5.Handler.ChooseMethod | internal/proxy/go_proxy.go:201-221 | username and password exactly when the server has credentials, none exactly when it has not, if offered |
| Socks5.Handler.Negotiate | internal/proxy/go_proxy.go:187-234 | where and with what replies the request is reached, and for which customer, or how the handshake ended before |
| Socks5.Handler.HandleSocks5 | internal/proxy/go_proxy.go:187-315 | outcome, bytes read and replies are those of the specification, with the guard answering for the customer who logged in and the room it has; no connection stays counted |
| Socks5.NegotiationIgnoresGuard | internal/proxy/go_proxy.go:187-234 | greeting and login go the same way whatever the guard will answer |
| Socks5.GreetingExactly | internal/proxy/go_proxy.go:190-199 | a greeting is read if and only if its encoding is there |
| Socks5.LoginExactly | internal/proxy/go_proxy.go:317-341 | a login is read if and only if its encoding is there |
| Socks5.HostExactly | internal/proxy/go_proxy.go:249-279 | an address is read if and only if its encoding is there |
| Socks5.RequestExactly | internal/proxy/go_proxy.go:236-287 | a request is read if and only if its encoding is there |
| Socks5.RoundTrip | internal/proxy/go_proxy.go:187-287 | every encoding of a suitable client is understood: its destination, exactly its bytes, and the replies |
| Socks5.ReadsAnEncoding | internal/proxy/go_proxy.go:187-287 | whatever reaches the guard was the encoding of some suitable client |
| Socks5.ReachesExactly | internal/proxy/go_proxy.go:187-298 | a destination is asked for after n bytes if and only if those bytes encode a suitable client asking for it |
| Socks5.NoPrefixReaches | internal/proxy/go_proxy.go:187-298 | no proper prefix of an encoding reaches the guard or the dial |
| Socks5Answers.OutcomeExactly | internal/proxy/go_proxy.go:289-309 | a suitable client is refused with reply 2 if and only if it has a customer and the destination is not admitted or no connection is left, else connected with reply 0 if and only if the destination is reachable, else told so with reply 4 |
| Socks5Answers.CustomerIsTheOwner | internal/proxy/go_proxy.go:228-234 | the customer is the owner of the accepted login, and nobody without one |
| Socks5Answers.MethodIsRefused | internal/proxy/go_proxy.go:201-226 | without the method the server wants the client gets 255 and no more |
| Socks5Answers.LoginIsRefused | internal/proxy/go_proxy.go:317-341 | a wrong or missing version is answered, a login cut off is not |
| Socks5Answers.WrongCredentialsAreRefused | internal/proxy/go_proxy.go:343-372 | credentials that are not accepted end the handshake with their answer |
| Socks5Answers.RequestIsRefused | internal/proxy/go_proxy.go:236-287 | replies 7 and 8 for other commands and address types, and none for a request cut off |
| WireGuard.SanitizeLine | internal/vpn/wg_driver.go:182-207 | the section from here on and what the line turns into |
| WireGuard.FilterLines | internal/vpn/wg_driver.go:178-208 | the loop keeps exactly the lines of the specification or fails |
| WireGuard.SanitizeWireGuardConfig | internal/vpn/wg_driver.go:162-210 | splitting, filtering and joining |
| WireGuard.PaddingIsIgnored | internal/vpn/wg_driver.go:182 | white space around a line makes no difference to what becomes of it |
| WireGuard.FailsExactly | internal/vpn/wg_driver.go:199-204 | it fails if and only if some endpoint of a peer does not resolve |
| WireGuard.OutputIsClean | internal/vpn/wg_driver.go:162-210 | every output line is one of the two headers or an entry allowed for the nearest header above it, endpoints normalised |
| WireGuard.CleanStays | internal/vpn/wg_driver.go:162-210 | a clean configuration passes unchanged |
| WireGuard.SanitizingTwiceIsOnce | internal/vpn/wg_driver.go:162-240 | sanitising is idempotent for a normaliser whose results for endpoints on one line are trimmed, on one line and their own normal form |
| WireGuardAnswers.NothingIsKept | internal/vpn/wg_driver.go:182-193 | blank lines, comments and lines without an equals sign go |
| WireGuardAnswers.HeaderIsKept | internal/vpn/wg_driver.go:186-192 | a bracketed name starts its section, case apart, and is kept for the two sections there are |
| WireGuardAnswers.EntryIsKept | internal/vpn/wg_driver.go:194-207 | an entry is kept as it stands if and only if its section lists its name, case apart, and a peer's endpoint in its normal form or not at all |
| WireGuardAnswers.OneMoreLine | internal/vpn/wg_driver.go:178-208 | each line adds at the end what becomes of it, adds nothing, or makes the whole fail |
| WireGuardAnswers.SectionGoesOn | internal/vpn/wg_driver.go:186-187 | a header's section lasts until the next header |
| WireGuardAnswers.TextIsFiltered | internal/vpn/wg_driver.go:162-210 | the text's lines come out as their filtered lines, each ended |

## Left out

- CommandBusClass.Bus.Dispatch: looks the idempotency key up and stores the row in one step, so two dispatches of one key at the same moment are not modelled; the index on the key is not unique.
- CommandBusProgress.SessionsEndTerminal: says that a session can go on and where it ends, not how the scheduler, the network and the agent choose; in a session no message about the command is lost.
- CommandBusStable.OneBatonUntilTerminal: is about a command handed in with no attempts counted and no negative limit, as the one caller does; `CommandBusSafety.AttemptsAreBounded` covers all.
- CommandBusClass.Bus.AttemptSend: says when the send panics; a run of steps ends there, as the process does.
- CommandBusClass.Bus.CheckCommandTimeouts: is the monitor body run alone; the interleaved form is the steps `SweepList` and `SweepNext`.
- CommandBusClass.Bus.ExecuteCommand: does not model what the command does on the agent, nor the payload's encoding.
- AbuseLateBlocks.LockoutHoldsInAnyOrder: takes the clock readings in the order of the locks, as the next one does.
- AbuseRaces.LockoutHoldsUpToRaces: takes the clock readings, each made just before a lock is taken, in the order of the locks.
- Abuse.Service.ValidateProxyCredential: takes the password match and the address whitelist as arguments and leaves out the customer's allocation and event rows.
- ConnectionGuard.Guard.CheckConnectionLimits: takes the two limits as arguments; the blocked-target check before it only refuses.
- Quality.CalculateQuality: leaves out uptime and success percentages, the health label and the stored snapshot, which selection does not read.
- Router.Service.Balance: counts turns without bound; the program's counter is a 64-bit integer.
- Router.Service.FindSticky: takes the earliest row among sessions that expire at the same moment; with one row a key there is only one.
- Router.Service.SelectProxy: leaves out the pool and pool-member rows it refreshes and the event rows it writes; one clock reading stands for the several of a call.
- AllocationRaces.QuotaHoldsUpToRaces: takes each of the five stages of a call, plan, enforcer, check, choice and row, and the two of a rotation, as one step each.
- AllocationClass.Service.AllocateProxy: leaves out the credential it generates and the subscription id on the row; database errors do not occur.
- AllocationClass.Service.EnforceAllocation: adds traffic without the wrap-around of 64-bit sums.
- AllocationClass.Service.JsonListAllows: a list is already decoded; text that is no list allows everything, as no text does.
- ProxyManager.Manager.StartProxy: takes from outside whether the port can be opened; namespaces and outbound addresses are not modelled.
- ProxyManager.Manager.SweepExpiredProxies: is serial, like all operations of the manager here; one clock reading stands for the several of a sweep.
- Socks5.Handler.HandleSocks5: stops at the end of the request; the bridge, timeouts and write errors are not modelled, and an address stays bytes.
- WireGuard.SanitizeWireGuardConfig: works on characters, and takes the endpoint normaliser with its name look-up as a function.
- Case folding beyond ASCII, except the two letters whose lower case is ASCII in the WireGuard filter.
- HTTP proxying, handlers, dashboards, metrics, backups, agent port scans and location parsing, which would add easy members only.
- Suspension by the abuse service, which leaves subscriptions as they are, and reinstating a customer, which is `ActivateCustomer` again.
- Plan changes and refunds; an invoice paid again after a refund activates its subscription again, as `MarkInvoicePaid` says.
