# Verified models of the connection and command logic

A Dafny project that models the stateful core of the Alarm.com plugin for Homebridge and proves what
its comments promise. Run `dafny verify dfyconfig.toml` here to check all of it.

Each machine comes in three parts.

- A specification module (`StreamSpec`, `PartitionSpec`, `LimiterSpec`, `BreakerSpec`, `SessionSpec`,
  `ClientSpec`, `DiscoverySpec`, `SignalsSpec`, `SignalStore`, `DiagnosticsSpec`): the object's fields,
  the environment around it and the history an observer would keep, as one value, with a function for
  every step. `Run` applies any sequence of events. The events are the adversary's: a timer that is due
  fires whenever it likes, tokens resolve or reject, sockets open, close, fail or hang, HomeKit writes,
  commands and keep-alives come back in any order, and any amount of time may pass between two events.
- Theorem modules: invariants kept by every step, and the promises stated over every run.
- A class in the form of the source (`EventStreams.EventStream`, `Partitions.PartitionAccessory` and so
  on), whose methods are proved to take `State()` exactly where the specification's step says. A
  `Replay` method takes a new object through any events and is proved to end in the machine's `Run` of
  them, so what is proved of every run is proved of the code's own branches and assignments.

The machines are the event stream's make-before-break reconnection, the partition's command
serialiser, the request limiter, the circuit breaker with the client's listener, the session manager,
the retry and session-recovery layers of a request, discovery's reconciliation of HomeKit
accessories, the PagerDuty signals with the write cache behind them, and the diagnostics collector.

Where a promise turned out not to hold as stated, the code is modelled as it is, a lemma gives a run
that breaks it, and another says exactly when it holds:

- The limiter keeps `minIntervalMs` between grants exactly when it does not exceed `windowMs`, and
  keeps to `maxRequests` exactly when that is at least one (or the window is empty). The wait it asks
  is the one the whole history calls for exactly unless the last grant is out of the window and still
  nearer than the gap.
- A breaker configured with no half-open probes can get stuck half open and then refuses every call
  until it is reset. Its counter is the number of probes really out exactly as long as no probe of an
  earlier spell succeeds while slots are taken and the spell goes on.
- The failures its status reports are the bursts of the whole log inside the window exactly when the
  coalescing gap fits the window; the configured 15 s and 5 min do.
- Attempts that fail in a row before a give-up are bounded only without the refreshes made over an
  open live socket, of which any number may fail.
- A refresh whose candidate cannot be constructed is treated as superseded and not retried; an open
  socket has its refresh pending at all times exactly when that never happens.
- The command serialiser lets two commands out only after a late outcome whose reporting throws while
  a command is held. A held command means the outcome is superseded, so what has to throw is its
  `#log.debug` line, and the one in the handler's `catch` has then to succeed.
- The next login can start inside the interval of one that Alarm.com granted exactly when that
  login's session callback threw (and the interval exceeds 3 s).
- A new accessory is remembered before it is registered. If building its handler or registering it
  throws, it is not registered later either, as long as the account lists the device.
- The store can show `auth-failed` and `cloud-offline` both active, exactly after the write clearing
  the second is refused, or when the grace runs out over an `auth-failed` row whose clearing was refused
  or that an earlier process left.

## Assumptions about the environment

Clocks never go back, timers and sleeps never end early, and callbacks of one process do not
interleave inside a synchronous stretch of code. Zero stands for "never" in the session manager, so its
clock starts above the login interval. Partition and sensor ids are distinct, accessory identifiers are
as distinct as device ids, and a detail read answers only for ids it was asked. Each session object is
distinct from every other. The signal store has one writer, and a write that fails leaves its row alone.

## Model

| member | source | states |
|---|---|---|
| StreamTheorems.NeverWedged | src/api/event-stream.ts:257-838 | In every reachable state between a start and a stop something is on its way (live socket open or its close undelivered, a retry or recovery armed, an owning fetch out, or a timed handshake), and retry and recovery are never both armed |
| StreamTheorems.MakeBeforeBreak | src/api/event-stream.ts:342-524 | While connected, only a start, a stop or the server closing the live socket disconnects the stream, and only an already open candidate replaces the live socket, the replaced one being closed and silenced |
| StreamTheorems.ConnectedStepKeepsLive | src/api/event-stream.ts:439-524 | One step form of the same: the live socket stays, or a promotion takes place |
| StreamTheorems.FramesComeFromTheLiveSocket | src/api/event-stream.ts:414-420 | A frame is delivered exactly when it comes from the live socket; no other step delivers one |
| StreamTheorems.SocketsAreOwnedOrClosed | src/api/event-stream.ts:586-620 | Every socket ever created is the live one, the candidate, closed, or closing with its listeners removed |
| StreamTheorems.AtMostTwoSocketsAtOnce | src/api/event-stream.ts:342-373 | Among any three sockets one is closing or closed |
| StreamTheorems.AtMostOneOwner | src/api/event-stream.ts:283-326 | Of any two pending token fetches at least one is superseded |
| StreamTheorems.SupersededFetchDoesNothing | src/api/event-stream.ts:306-326 | The answer to a superseded fetch, good or bad, changes nothing but the record that it came |
| StreamTheorems.StopIsFinalUntilStart | src/api/event-stream.ts:191-199 | After a stop, whatever the environment delivers before the next start asks for no token, opens no socket, arms no timer and calls nothing back, with fetches left pending included |
| StreamRefresh.RefreshStaysPendingExactlyWhen | src/api/event-stream.ts:329-356 | An open live socket keeps a refresh scheduled, retried, fetching or shaking hands through a step if and only if the step is not a candidate's constructor throwing after its token arrived |
| StreamRefresh.RefreshAlwaysPendingExactlyWhen | src/api/event-stream.ts:329-356 | Over whole runs: a refresh is pending at every moment the live socket is open if and only if no event is that one |
| StreamRefresh.ConnectedWithNoRefreshPending | src/api/event-stream.ts:347-349 | The concrete run in which that step leaves a connected stream with no refresh pending |
| StreamInvariant.RunKeepsInv | src/api/event-stream.ts:175-838 | The structural invariant of sockets, fetches, timers and generation holds in every reachable state |
| StreamPacing.TokenRequestsArePaced | src/api/event-stream.ts:769-838 | Any two token requests since the last start are at least 3750 ms apart, and one that ends a give-up follows every earlier request by the full 900 s recovery interval |
| StreamPacing.RefreshLandsEarly | src/api/event-stream.ts:700-719 | A connection's refresh comes due in the last thirty seconds of its interval, whatever the jitter |
| StreamGiveUp.FailuresInARowAreBounded | src/api/event-stream.ts:769-815 | At most one attempt more than the failure limit fails in a row before a full recovery wait, refreshes asked for over an open live socket apart: those are not counted |
| StreamGiveUp.NeverGivesUpTooSoon | src/api/event-stream.ts:774-815 | Over every run: with a recovery armed, at least four attempts have failed in a row since the last open, start or recovery, refreshes over an open socket not counted |
| StreamSoonest.GivesUpAfterFour | src/api/event-stream.ts:499-815 | Four is reached: the concrete run in which a refresh loses its candidate and then its closing live socket, and four retries are refused |
| StreamDeadlines.FirstLossIsRetriedSoon | src/api/event-stream.ts:737-785 | Over every run, losing an open connection arms a drop retry due in 3750 to 6250 ms, arms no recovery and announces nothing |
| StreamDeadlines.LossIsRetriedByTheTable | src/api/event-stream.ts:769-838 | A counted loss is retried after 5, 10, 20, 40 or 80 s, a quarter either way, or on the sixth in a row arms the recovery for exactly 900 s; one that is not counted changes nothing |
| StreamDeadlines.NothingIsPutOffForLong | src/api/event-stream.ts:439-838 | Over every run no timer is further off than its own interval: 5 s for a refresh retry, 100 s for a drop retry, 210 s, 900 s and 15 s for refresh, recovery and handshake |
| StreamDeadlines.EachSocketIsGivenFifteenSeconds | src/api/event-stream.ts:329-437 | Over every run a socket is opened by nothing but a token, one at a time, becomes the candidate or the live socket, and is given exactly 15 s to shake hands |
| StreamAttempts.AttemptsAreBoundedExactlyWhen | src/api/event-stream.ts:769-815 | With every attempt counted: those in a row exceed the limit plus one only by refreshes made over an open socket, and keep to it if and only if few enough were such |
| StreamAttempts.DeferredMeansConnected | src/api/event-stream.ts:283-303 | A request counts as such a refresh only if it is made while the live socket is open, by the refresh timer or its retry |
| StreamAttempts.AnyNumberOfRefreshesMayFail | src/api/event-stream.ts:572-576 | For every n there is a run in which n + 1 refreshes fail in a row, five seconds apart, with the live socket up throughout |
| StreamOutage.OutageIsDatedFromItsStart | src/api/event-stream.ts:598-756 | From any state the date of an outage, once set, is moved by nothing but a start and cleared by nothing else but a socket that opens, which always clears it; it is only ever set to the moment at hand, and is set whenever the live socket of a running stream closes, or anything else parts with a live socket once one has opened since the start |
| StreamOutage.StartForgets | src/api/event-stream.ts:175-188 | Over every run a start forgets that anything had opened, and dates an outage only if it tears an open socket down |
| StreamGiveUp.AnnouncementsAlternate | src/api/event-stream.ts:655-698 | Since the last start onUnavailable and onRecovered strictly take turns, beginning with onUnavailable |
| StreamGiveUp.AnnouncementsAreCurrent | src/api/event-stream.ts:655-815 | Over every run the last thing announced is onUnavailable while a recovery is awaited, and nothing or onRecovered while a socket is up |
| EventStreams.EventStream.constructor | src/api/event-stream.ts:144-152 | A new stream is in the state before any start |
| EventStreams.EventStream.Start | src/api/event-stream.ts:175-188 | `start()` resets every counter and timer and begins an attempt: the start step the run theorems are about |
| EventStreams.EventStream.Stop | src/api/event-stream.ts:191-199 | `stop()` supersedes every fetch, clears the timers and disposes both sockets: the stop step of the machine |
| EventStreams.EventStream.Begin | src/api/event-stream.ts:283-303 | `#beginAttempt`: a refresh over an open socket defers disposal and keeps the generation, any other attempt bumps it and tears both sockets down first |
| EventStreams.EventStream.OnToken | src/api/event-stream.ts:257-281 | `#connect` once its fetch resolves: abandoned, or on to a socket, exactly by ownership |
| EventStreams.EventStream.OnTokenFailure | src/api/event-stream.ts:547-584 | `#handleConnectFailure` of a rejected fetch |
| EventStreams.EventStream.OpenNext | src/api/event-stream.ts:329-373 | `#openSocket`: a candidate beside the live socket with the generation bumped first, or a live socket of its own |
| EventStreams.EventStream.HandshakeTimedOut | src/api/event-stream.ts:439-470 | `#onHandshakeTimeout`: the four outcomes by generation, role and liveness |
| EventStreams.EventStream.HandshakeOpened | src/api/event-stream.ts:472-497 | `#onHandshakeOpen`: promotion closes the old live socket after the new one is in place |
| EventStreams.EventStream.HandshakeClosed | src/api/event-stream.ts:499-524 | `#onHandshakeClose` for the candidate, the live socket and a stranger |
| EventStreams.EventStream.OpenReported | src/api/event-stream.ts:655-698 | `#handleOpen`: counters forgiven, recovery announced only after a give-up, the next refresh armed |
| EventStreams.EventStream.CloseReported | src/api/event-stream.ts:737-756 | `#handleClose`: the drop takes over from any pending refresh |
| EventStreams.EventStream.ArmRefreshRetry | src/api/event-stream.ts:721-735 | `#scheduleRefreshRetry`: one handle, never over an armed one |
| EventStreams.EventStream.ArmReconnect | src/api/event-stream.ts:769-815 | `#scheduleReconnect`: counts, gives up past five failures, else arms the backoff, as the table of delays and the bounds on giving up say |
| EventStreams.EventStream.GiveUpNow | src/api/event-stream.ts:787-838 | Giving up announces once per outage and arms the recovery |
| EventStreams.EventStream.DropSocket | src/api/event-stream.ts:598-610 | `#disposeSocket` |
| EventStreams.EventStream.DropCandidate | src/api/event-stream.ts:612-619 | `#disposeCandidate` |
| EventStreams.EventStream.SettlePending | src/api/event-stream.ts:201-205 | `#settleHandshake`: the pending handshake is settled once |
| EventStreams.EventStream.OnRefreshTimer | src/api/event-stream.ts:700-719 | The refresh timer cancels a pending retry and reconnects as a refresh |
| EventStreams.EventStream.OnReconnectTimer | src/api/event-stream.ts:721-815 | The shared reconnect handle, whose two callbacks differ |
| EventStreams.EventStream.OnRecoveryTimer | src/api/event-stream.ts:817-838 | The recovery timer starts the count over and connects |
| EventStreams.EventStream.OnOpen | src/api/event-stream.ts:375-437 | The socket's open event reaches the handshake only while it is listened to |
| EventStreams.EventStream.OnClose | src/api/event-stream.ts:375-437 | The socket's close event, likewise |
| EventStreams.EventStream.OnFrame | src/api/event-stream.ts:414-420 | Messages are taken by socket identity |
| Backoff.BackoffStaysInBand | src/utils/retry.ts:97-109 | Whatever the draw, the delay is at most the ceiling and within a quarter (and rounding) of the capped exponential |
| Backoff.BackoffIsAtLeastThreeQuartersOfBase | src/utils/retry.ts:97-109 | No delay is below three quarters of the base |
| Backoff.ExponentialDoubles | src/utils/retry.ts:97-101 | The delay before jitter is the base at first and twice the one before it after, under the ceiling |
| Backoff.JitterSpreadsEvenly | src/utils/retry.ts:102-103 | The draw moves the delay evenly across the half of it that the band is wide |
| Backoff.Clamped | src/utils/retry.ts:103-108 | The clamp after jitter keeps the delay under the ceiling without moving it by more than a rounding |
| PartitionTheorems.LastRequestWins | src/devices/partition.ts:595-692 | Over every run without a double release: at most one command out, commands attempted and applied in request order, and once nothing is out nothing is held, the last attempted is the last accepted, and if the panel took it the panel ends there |
| PartitionTheorems.OnlyDoubleReleaseBreaksIt | src/devices/partition.ts:644-692 | The serialiser's invariant survives a step if and only if the step is not a late outcome whose reporting throws while a command is held and can start |
| PartitionTheorems.FreedSlotLetsTwoOut | src/devices/partition.ts:644-692 | After such a step, from any state, the next request accepted before the running command completes puts a second command out beside it |
| PartitionTheorems.DoubleReleaseLetsTwoCommandsOut | src/devices/partition.ts:644-678 | The concrete run with reporting throwing on the late path that ends with two commands out |
| PartitionTheorems.SupersededOutcomeIsSilent | src/devices/partition.ts:749-800 | A completing command owns the tile exactly when nothing is held; a superseded outcome clears no target and reports nothing |
| PartitionTheorems.PendingTargetIsTheLastRequest | src/devices/partition.ts:435-462 | A pending target is the last accepted request's; it ends only by confirmation, expiry, its own command's failure, or a newer request |
| PartitionTheorems.ReportsSpeakForTheNewest | src/devices/partition.ts:749-800 | Every outcome ever reported was, when reported, that of the newest accepted request |
| PartitionTheorems.ArmOverOpenContactsBypassesOrIsRefused | src/devices/partition.ts:530-567 | With contacts open an arm is refused or carries the bypass: the refusal and the option builder agree |
| PartitionTheorems.CommandDeterminesTarget | src/devices/partition.ts:871-880 | Verb and night modifier together still tell which target was asked for |
| PartitionGates.AcceptedExactlyWhen | src/devices/partition.ts:489-583 | From any state a request is accepted if and only if HomeKit arming is allowed, the reading gives permission, the target is one of the four, and it disarms, finds no contact open, or may bypass (allowed by the user and offered for that very mode); it then asks for exactly that target's verb, night modifier and bypass. Refused, it changes nothing, and nothing else is ever accepted |
| PartitionGates.EveryRequestPassed | src/devices/partition.ts:489-583 | Over every run each accepted request was asked for at a moment when arming was allowed and the account had permission; it carries a bypass if and only if the user allowed one and the reading offered it for that mode, and always does if it arms over an open contact |
| PartitionGates.TargetMovesExactlySo | src/devices/partition.ts:375-462 | Over every run, what each event does to the pending target, exactly: acceptance sets and dates it, a reading clears it if it is displayed or 90 s old and otherwise not, an outcome clears it if and only if the command owning the tile failed |
| Partitions.PartitionAccessory.SetTargetState | src/devices/partition.ts:489-528 | `#handleTargetState`: accepted if and only if permission, settings, target and open contacts allow it, spelled out, and then sent or held |
| Partitions.PartitionAccessory.Send | src/devices/partition.ts:595-640 | `#sendCommand`: the slot and the token claimed together, or the request held in the latest-wins queue |
| Partitions.PartitionAccessory.Record | src/devices/partition.ts:749-800 | `#recordOutcome`: only the owner of the tile clears the target or reports |
| Partitions.PartitionAccessory.SettleOutcome | src/devices/partition.ts:671-678 | `#settle` with the second release of the late path |
| Partitions.PartitionAccessory.ReleaseSlot | src/devices/partition.ts:680-692 | `#releaseAndDrain` |
| Partitions.PartitionAccessory.Update | src/devices/partition.ts:375-462 | What a reading does to a pending target |
| Partitions.PartitionAccessory.OnOutcome | src/devices/partition.ts:595-678 | A completed command leaves the panel's side and is settled |
| LimiterTheorems.CeilingHoldsExactlyWhen | src/api/rate-limiter.ts:80-148 | Over every run and every half-open window, at most maxRequests grants, if and only if at least one request is configured or the window is empty (with none configured one is still granted) |
| LimiterTheorems.GapHoldsExactlyWhen | src/api/rate-limiter.ts:90-103 | Over every run consecutive grants are minIntervalMs apart if and only if minIntervalMs does not exceed windowMs |
| LimiterTheorems.GrantsKeepTheirPromises | src/api/rate-limiter.ts:80-148 | Unconditionally: the count in any window is at most the effective cap and grants are spaced by the lesser of gap and window |
| LimiterTheorems.GrantsAreInArrivalOrder | src/api/rate-limiter.ts:121-148 | Claims are granted in the order they arrived, each at most once |
| LimiterTheorems.PruningLosesNothingExactlyWhen | src/api/rate-limiter.ts:80-103 | The wait computed from the pruned list is the least one the whole history calls for if and only if the last grant is not out of the window while still nearer than the gap; if it is, no wait is asked |
| LimiterTheorems.OnlyAGrantUsesASlot | src/api/rate-limiter.ts:121-148 | A claim refused or abandoned, a status read or time passing adds no grant; a grant adds one, stamped when it is made |
| LimiterTheorems.NoWaitBeyondTheWindow | src/api/rate-limiter.ts:90-103 | No wait is longer than the larger of the gap and the window |
| LimiterWaits.KeptExactlyAsLongAsNeeded | src/api/rate-limiter.ts:121-145 | Over every run the head of the chain is refused if and only if the wait the whole history calls for exceeds maxWaitMs, granted at once if it is zero, and otherwise sleeps until exactly now plus that wait, never longer than the larger of gap and window (no wait is due once the last grant is forgotten) |
| LimiterWaits.NeededWaitIsTheLeast | src/api/rate-limiter.ts:90-103 | That wait ends at the earliest instant from now at which a grant keeps both promises |
| LimiterWaits.SleepersWakeToAGrant | src/api/rate-limiter.ts:131-148 | A sleeper is granted the instant it wakes, not before it is due; an abandoned one takes nothing, and no other event touches the grants |
| LimiterWaits.NobodyIsDroppedOtherwise | src/api/rate-limiter.ts:121-148 | Over every run each claim that arrived has been granted, is waiting or asleep, or was dropped by its caller's abort or because its needed wait exceeded maxWaitMs |
| LimiterWaits.StatusCountsTheWindow | src/api/rate-limiter.ts:80-109 | Over every run a status read keeps exactly as many entries as grants lie inside the window, and changes nothing else |
| LimiterTheorems.NoSlotsStillGrantsOne | src/api/rate-limiter.ts:98-100 | The concrete run with maxRequests 0 that is granted a request |
| LimiterTheorems.ForgottenSpacing | src/api/rate-limiter.ts:80-95 | The concrete run in which a gap longer than the window is forgotten with the pruned grant |
| RateLimiters.RateLimiter.DropAged | src/api/rate-limiter.ts:80-82 | `#prune`, a filter that keeps exactly the entries inside the window |
| RateLimiters.RateLimiter.ComputeWaitMs | src/api/rate-limiter.ts:90-103 | `#computeWaitMs`, early return included |
| RateLimiters.RateLimiter.GetStatus | src/api/rate-limiter.ts:106-109 | A status read prunes and reports the free slots |
| RateLimiters.RateLimiter.Acquire | src/api/rate-limiter.ts:121-148 | A claim joins the chain behind every earlier one |
| RateLimiters.RateLimiter.RunHead | src/api/rate-limiter.ts:122-145 | The head of the chain is refused exactly when its wait exceeds maxWaitMs, else granted at once or put to sleep until the wait is over |
| RateLimiters.RateLimiter.OnWake | src/api/rate-limiter.ts:131-141 | The slot is taken when the wait really ends |
| RateLimiters.RateLimiter.OnAbort | src/api/rate-limiter.ts:131-147 | An aborted wait takes no slot and the chain goes on |
| SlidingWindow.RecentIsSuffix | src/api/rate-limiter.ts:80-82 | Pruning an ordered list drops a prefix that is out of the window and nothing else |
| SlidingWindow.PruningKeepsSuffix | src/api/circuit-breaker.ts:149-152 | Pruning again what was pruned before is still pruning the whole history |
| BreakerOpening.OpensNoSoonerThan | src/api/circuit-breaker.ts:197-221 | A closed breaker opens only on a failure, with the threshold of failures inside the window, none older than its last reset, coalesced apart, so at least (threshold - 1) coalescing gaps after it closed |
| BreakerOpening.OpensExactlyWhen | src/api/circuit-breaker.ts:149-221 | It opens on a failure if and only if the bursts among all failures ever recorded since it closed reach the threshold inside the window, whatever the two widths |
| BreakerTheorems.NeverSticksExactlyWhen | src/api/circuit-breaker.ts:155-174 | With nothing out and the cooldown over, a request is let through from every reachable state if and only if it is not half open with no probes configured |
| BreakerTheorems.EveryRefusalPasses | src/api/circuit-breaker.ts:155-174 | Every refusal is a cooldown still running, with its last failure known, or at least halfOpenProbes probes of this spell still out |
| BreakerCooldown.OpenAdmitsExactlyWhenCooled | src/api/circuit-breaker.ts:155-174 | Over every run an open breaker has a failure logged; within resetTimeoutMs of the last one it refuses, and asking or calling leaves it as it was; from then on it admits, and the next call is the one probe of a new half-open spell |
| BreakerCooldown.OtherwiseAdmitsExactlyWhen | src/api/circuit-breaker.ts:155-268 | Closed it lets every call out as an ordinary one; half open it admits a probe if and only if a slot is free, and takes the slot |
| BreakerCooldown.RemainingIsTheCooldownLeft | src/api/circuit-breaker.ts:233-240 | Over every run the remaining time reported is what is left of resetTimeoutMs since the last logged failure while open, never negative, and absent otherwise |
| BreakerStatus.StatusTellsTheBurstsExactlyWhen | src/api/circuit-breaker.ts:149-250 | The failures a status reports are, after any events, the bursts inside the window of all recorded since it closed, if and only if the coalescing gap does not exceed the window (or the window is empty) |
| BreakerStatus.AbsorbingTellsOther | src/api/circuit-breaker.ts:149-205 | The concrete run with a wider gap in which it reports one failure where the log has no burst inside the window |
| BreakerCooldown.ModeMovesExactlySo | src/api/circuit-breaker.ts:155-230 | Over every run the state after any event is told by the failure log and the spell's successes, and the log holds exactly the failures settled since the breaker last closed or was reset |
| BreakerCooldown.BurstsCoverTheLog | src/api/circuit-breaker.ts:197-205 | Every logged failure falls in a burst begun less than the coalescing gap before it |
| BreakerCooldown.BurstsAreLogged | src/api/circuit-breaker.ts:197-205 | Every burst began at a logged failure |
| BreakerTheorems.StuckForGood | src/api/circuit-breaker.ts:155-174 | Half open with no probes to give and nothing out, it refuses every call after any events at all other than a reset |
| BreakerTheorems.OneShortOfClosing | src/api/circuit-breaker.ts:155-186 | The concrete run that gets there, one success short of closing |
| BreakerTheorems.HalfOpenCounterIsBounded | src/api/circuit-breaker.ts:256-283 | The half-open counter never exceeds its limit (or the one probe that finds the cooldown over) nor the probes of this spell really out |
| BreakerTheorems.AgreesExactlyWhen | src/api/circuit-breaker.ts:256-283 | Over whole runs the counter is at every moment the number of probes out if and only if no probe of an earlier spell succeeds while this one has slots taken and is not thereby closed |
| BreakerTheorems.PartsCompanyExactlyWhen | src/api/circuit-breaker.ts:269-283 | One step form of the same, both ways |
| BreakerTheorems.ProbesKeepTheLimit | src/api/circuit-breaker.ts:256-283 | In every run without such a success no more probes are out than are allowed |
| BreakerTheorems.GoesOverTheLimitExactlyWhen | src/api/circuit-breaker.ts:256-268 | The step that puts one probe too many out is a call admitted while the counter is below a limit the probes already fill, and no other |
| BreakerTheorems.ProbesOutAreBounded | src/api/circuit-breaker.ts:256-283 | The probes really out exceed the limit by at most the stale probes that settled during the spell, and equal the counter when none did |
| BreakerTheorems.ClosesExactlyWhen | src/api/circuit-breaker.ts:177-211 | A half-open breaker reopens on any failure that settles and closes exactly on the success completing successesToClose within this spell, by an observer's own count |
| BreakerOpening.StaleProbeFreesASlot | src/api/circuit-breaker.ts:279-281 | The concrete run with one probe allowed and two of the same spell out |
| BreakerTheorems.EachOutageIsAnnouncedOnce | src/api/client.ts:253-291 | onCircuitOpen fires once per closed-to-open edge however often probes flap, and the outage flag is up exactly while not closed |
| CircuitBreakers.CircuitBreaker.constructor | src/api/circuit-breaker.ts:115-124 | A new breaker is closed with nothing recorded |
| CircuitBreakers.CircuitBreaker.AskToRequest | src/api/circuit-breaker.ts:155-174 | `canRequest`, the transition to half open included: allowed exactly as the cooldown theorems say |
| CircuitBreakers.CircuitBreaker.NoteSuccess | src/api/circuit-breaker.ts:177-186 | `recordSuccess` |
| CircuitBreakers.CircuitBreaker.NoteAFailure | src/api/circuit-breaker.ts:197-221 | `recordFailure` |
| CircuitBreakers.CircuitBreaker.PushFailure | src/api/circuit-breaker.ts:197-205 | A failure inside the last burst only moves the last failure time |
| CircuitBreakers.CircuitBreaker.Close | src/api/circuit-breaker.ts:224-230 | `reset` |
| CircuitBreakers.CircuitBreaker.TransitionTo | src/api/circuit-breaker.ts:139-146 | Listeners hear only of a change |
| CircuitBreakers.CircuitBreaker.OnStateChange | src/api/client.ts:253-291 | The client's listener and `#logCircuitTransition`'s flag |
| CircuitBreakers.CircuitBreaker.DropAgedFailures | src/api/circuit-breaker.ts:149-152 | `#pruneFailures` |
| CircuitBreakers.CircuitBreaker.GetStatus | src/api/circuit-breaker.ts:233-250 | A status prunes and reports the failures kept and the cooldown left |
| CircuitBreakers.CircuitBreaker.BeginExecute | src/api/circuit-breaker.ts:256-268 | `execute` up to the operation: admitted exactly when `canRequest` says so, else refused with the cooldown left, or the whole of it when half open |
| CircuitBreakers.CircuitBreaker.FinishExecute | src/api/circuit-breaker.ts:269-283 | `execute` from the outcome on, the slot handed back whatever spell it was of |
| SessionTheorems.LoginsNeverOverlap | src/api/session-manager.ts:104-120 | At no moment are two logins waiting or under way, though every suspended login is a flight of its own |
| SessionTheorems.LoginsKeepTheFloor | src/api/session-manager.ts:133-219 | Every authenticate call starts at least the interval after the end of every earlier granted or rejected one, and at least 3 s after the end of every earlier other one |
| SessionTheorems.LoginsInAnyWindowAreBounded | src/api/session-manager.ts:133-219 | The login starts in any window of time number at most one more than the window over 3 s |
| SessionTheorems.FloorIsWhatTheLoginsSay | src/api/session-manager.ts:133-163 | By the logins made: one that is due goes ahead, one that is not is refused while the credentials stand refused or the wait exceeds 5 s, and is otherwise waited for to the millisecond |
| SessionTheorems.NextLoginMayComeEarlyExactlyWhen | src/api/session-manager.ts:172-195 | From any reachable state after a granted login, none under way and its interval still running, the next login can start inside the interval if and only if the callback of that login threw and the interval exceeds 3 s |
| SessionTheorems.ReloginsEarly | src/api/session-manager.ts:172-195 | The concrete run in which a throwing callback has a granted login followed by another 3 s later |
| SessionKeepAlive.ReuseIsFresh | src/api/session-manager.ts:93-107 | A session handed out again had its own login or its own successful keep-alive less than the interval ago |
| SessionKeepAlive.ReusedExactlyWhenGood | src/api/session-manager.ts:93-120 | Over every run: a session held whose own last sign of life is less than the interval ago is handed out and nothing changes; else a login under way is joined and nothing changes; a new login starts if and only if there is neither |
| SessionKeepAlive.SessionMovesExactlySo | src/api/session-manager.ts:165-289 | Over every run the session held changes only when a login ends (a granted one is held, any other leaves none), on an invalidation, or when its own probe finds it dead or fails a third time in a row; a probe goes to the session held when it is sent |
| SessionKeepAlive.ReplyToAnotherChangesNothing | src/api/session-manager.ts:231-281 | A keep-alive reply leaves any session but the one it probed exactly as it was |
| SessionKeepAlive.DroppedExactlyWhen | src/api/session-manager.ts:231-281 | The probed session is dropped if and only if it is reported dead or has now failed three keep-alives since it last proved itself |
| SessionManagers.SessionManager.GetASession | src/api/session-manager.ts:104-120 | `getSession` reuses, joins or starts, exactly when the reuse theorem says |
| SessionManagers.SessionManager.AwaitLoginFloor | src/api/session-manager.ts:133-163 | `#awaitLoginFloor`: pass, re-raise, throttle or wait |
| SessionManagers.SessionManager.OnFloorPassed | src/api/session-manager.ts:165-170 | The login goes on to authenticate without looking at the floor again |
| SessionManagers.SessionManager.OnAuthenticated | src/api/session-manager.ts:172-219 | The outcome of authenticate, a throwing callback taking the failure path |
| SessionManagers.SessionManager.OnLoginSucceeded | src/api/session-manager.ts:172-181 | A granted login stamps every clock |
| SessionManagers.SessionManager.OnLoginFailed | src/api/session-manager.ts:182-219 | A failure discards the session and back-dates the floor; a rejection stamps it in full |
| SessionManagers.SessionManager.OnSettled | src/api/session-manager.ts:112-119 | The `finally` of `getSession` |
| SessionManagers.SessionManager.StartTouch | src/api/session-manager.ts:231-235 | A keep-alive is sent only for a session held |
| SessionManagers.SessionManager.FinishTouch | src/api/session-manager.ts:237-281 | What a keep-alive's reply does |
| SessionManagers.SessionManager.InvalidateSession | src/api/session-manager.ts:284-288 | `invalidate` |
| ClientTheorems.ReadsAreBounded | src/api/client.ts:381-446 | A read makes at most 2 x maxAttempts sends, maxAttempts invalidations and maxAttempts - 1 waits, which together last at most (maxAttempts - 1) x maxDelayMs |
| ClientTheorems.ReadsAreOrderly | src/api/client.ts:350-446 | Every send comes straight after the session, pacing and the breaker in that order; every invalidation after a lapse; every wait after a failure worth retrying, under the ceiling and no shorter than the server asked |
| ClientTheorems.ReadsGiveUpOnlyWhen | src/utils/retry.ts:187-219 | A read fails only in a final failure, a requested wait above the ceiling, an aborted wait, or with its attempts spent |
| ClientTheorems.DelayIsDue | src/utils/retry.ts:144-160 | The delay is given up exactly when the server asks for more than the ceiling; otherwise it is at least both the backoff and the request and at most the ceiling |
| ClientRetries.WorthRetryingIsTransient | src/api/client.ts:401-422 | Worth retrying are exactly an unavailable system, a network failure, a timeout, a rate limit and an answer of 500 or more |
| ClientRetries.ReadsPersistUntil | src/utils/retry.ts:187-219 | By the failures themselves: a read fails only in an aborted wait, a failure that is not one of those, a rate limit asking for more than the ceiling, or with every try made |
| ClientRetries.WaitsFollowTransientFailures | src/utils/retry.ts:187-219 | Every wait of a read follows one of those failures and is no shorter than a rate limit asked for |
| ClientRetries.DelayIsTheLonger | src/utils/retry.ts:144-160 | The delay is the backoff itself, or the longer of it and what a rate limit asked for, and there is none exactly when that exceeds the ceiling |
| ClientRetries.MadeOverExactlyWhen | src/api/client.ts:195-397 | An attempt is made over, once and on a new session, exactly when it met an expired session or, for a read, an unreadable answer; the second outcome is then the whole of it |
| ClientRetries.AttemptEndsWhere | src/api/client.ts:350-363 | An attempt ends in the first refusal of session, pacing and breaker with nothing sent, and otherwise in the answer to its one send |
| ClientRetries.OutagesAreRetriedToTheLast | src/utils/retry.ts:187-219 | If every attempt meets such a failure, none asking for too much and no wait aborted, a read makes every try allowed with one wait between each two |
| ClientTheorems.CommandGoesOutTwiceExactlyWhen | src/api/client.ts:567-606 | An arming command reaches the network at most twice, and twice if and only if both attempts get there and the first was answered 401 |
| ClientTheorems.CommandsAreOrderly | src/api/client.ts:381-606 | A command's sends are guarded as a read's are and its session is thrown away only on a 401 |
| Clients.AlarmComClient.GuardedAttempt | src/api/client.ts:350-363 | One attempt: session, pacing, breaker, send, the first failure ending it |
| Clients.AlarmComClient.WithSessionRecovery | src/api/client.ts:381-397 | One more attempt on a fresh session when the failure allows it |
| Clients.AlarmComClient.Request | src/utils/retry.ts:187-219 | The retry loop around a read runs exactly the course whose bounds are proved |
| Clients.AlarmComClient.CommandPartition | src/api/client.ts:593-605 | A command is recovered once and never retried |
| DiscoveryTheorems.CompletedDiscoveryShowsExactly | src/platform.ts:417-531 | After a completed discovery HomeKit shows exactly the devices read and published and those shown before that are still listed, not ignored and got no detail |
| DiscoveryTheorems.CutShortLosesNothingListed | src/platform.ts:481-531 | A discovery cut short, by a failing read or by any device whose publishing throws, keeps everything shown that is still listed and not ignored and adds only what it read; exactly that when nothing threw |
| DiscoveryTheorems.CutShortKeepsWhatItPublished | src/platform.ts:495-500 | The partitions published before it was cut short are shown |
| DiscoveryTheorems.CompletedDiscoveryHandles | src/platform.ts:566-728 | After a completed discovery the handlers are those published and those kept for want of detail |
| DiscoveryTheorems.SensorIsShownExactlyWhen | src/platform.ts:599-663 | After a completed discovery a sensor is shown, and has a handler, if and only if the last word on it is that its kind is supported and that it is not reported unmonitored, unless unmonitored sensors are asked for |
| DiscoveryTheorems.OnlyListedAndWantedAreShown | src/platform.ts:417-531 | However a discovery goes, it leaves shown only devices that the account lists and the configuration does not ignore |
| DiscoveryTheorems.AllStayKnownExactlyWhen | src/platform.ts:535-594 | A discovery leaves every remembered accessory one HomeKit knows if and only if it reaches no device, new to the cache, whose publishing throws between caching and registering; handlers stay remembered either way |
| DiscoveryTheorems.RunsStayKnownExactlyWhen | src/platform.ts:417-594 | Over whole runs: after every discovery all are known if and only if no discovery strands one |
| DiscoveryTheorems.HandlersAreRegistered | src/platform.ts:566-663 | In every such run each handler has an accessory HomeKit knows |
| DiscoveryTheorems.NewMeansNeverSeen | src/platform.ts:535-553 | New to the cache is, by the replies alone, neither cached before nor read earlier in the visit |
| DiscoveryTheorems.StrandedForGood | src/platform.ts:535-594 | A partition once stranded is never registered while the account lists it, however well every later discovery goes |
| DiscoveryTheorems.OneFailureLeavesAHandlerUnknown | src/platform.ts:574-588 | The concrete pairs of discoveries, one throwing while the handler is built and one while the accessory is registered, that leave a handler HomeKit never hears of |
| DiscoveryTheorems.PruningByList | src/platform.ts:688-728 | The prune by the account's list alone, made before any detail is read, keeps the invariant and shows exactly what was shown and requested |
| Platforms.AlarmComPlatform.ForgetUnreported | src/platform.ts:688-702 | `#reconcileKnownDevices`, two loops |
| Platforms.AlarmComPlatform.RemoveStale | src/platform.ts:710-728 | `#removeStaleAccessories`, a loop over the cache that unregisters as it deletes |
| Platforms.AlarmComPlatform.ResolveAccessory | src/platform.ts:535-553 | Found or made, and new exactly when it was not cached |
| Platforms.AlarmComPlatform.PublishPartition | src/platform.ts:566-594 | `#syncPartition`: cached, handled, registered only if new, updated, and stopped by an exception at any of these points |
| Platforms.AlarmComPlatform.PublishSensor | src/platform.ts:599-663 | `#syncSensor`, its two skips and the same points of failure |
| Platforms.AlarmComPlatform.PublishPartitions | src/platform.ts:496-500 | The partitions' loop, ended by the first that throws |
| Platforms.AlarmComPlatform.PublishSensors | src/platform.ts:501-506 | The sensors' loop, likewise |
| Platforms.AlarmComPlatform.Publish | src/platform.ts:481-531 | `#publishDevices` through whichever read fails |
| Platforms.AlarmComPlatform.DiscoverDevices | src/platform.ts:417-453 | `#discover` once the list is in hand |
| SignalsTheorems.NeverBothAccountSignals | src/alarmcom-signals.ts:171-180 | After every call at most one of auth-failed and cloud-offline was last written active |
| SignalsTheorems.AccountSignalsMeanWhatWasHeard | src/alarmcom-signals.ts:125-256 | auth-failed is on exactly when sign-in was last heard to have stopped; cloud-offline is on only a full grace after the trouble began; while it is not, the timer stands at that very deadline |
| SignalsTheorems.CloudTurnsOnOnlyAfterTheGrace | src/alarmcom-signals.ts:218-231 | cloud-offline is turned on by the timer alone, a full grace after a start or an unreachable report with no reset heard since |
| SignalsTheorems.ReportsDoNotMoveIt | src/alarmcom-signals.ts:158-163 | Nothing reported while the trouble lasts moves the moment it is counted from |
| SignalsTheorems.ClosedForGood | src/alarmcom-signals.ts:209-216 | Nothing is written after close, whatever calls and timers still come |
| SignalsTheorems.ClearsOnlyOnAFullQuietRead | src/alarmcom-signals.ts:88-96 | alarm-active turns on only with a device in alarm and off only after a full answer with none |
| SignalsWritten.EveryWriteIsDue | src/alarmcom-signals.ts:125-256 | Over every run, exactly what each event writes, by the calls heard: signal, value, severity and summary, the grace's write included, and nothing else |
| SignalsWritten.DeviceSignalsMeanWhatWasSaid | src/alarmcom-signals.ts:188-206 | Over every run alarm-active and smoke-active are each on exactly when the last read that spoke of that signal said so |
| SignalsWritten.HouseSignalSaysExactly | src/alarmcom-signals.ts:88-96 | A house signal is raised by any one device, lowered only by a full answer with none, and otherwise left |
| SignalTrackers.AlarmComSignals.Begin | src/alarmcom-signals.ts:125-133 | The fields and the writes after `start` are those the signal theorems are about |
| SignalTrackers.AlarmComSignals.NoteReached | src/alarmcom-signals.ts:141-150 | The fields and the writes after `noteReached` are those the signal theorems are about |
| SignalTrackers.AlarmComSignals.NoteUnreachable | src/alarmcom-signals.ts:158-163 | The fields and the writes after `noteUnreachable` are those the signal theorems are about |
| SignalTrackers.AlarmComSignals.NoteSignInStopped | src/alarmcom-signals.ts:171-180 | The fields and the writes after `noteSignInStopped` are those the signal theorems are about |
| SignalTrackers.AlarmComSignals.NoteSomeDevices | src/alarmcom-signals.ts:188-206 | The fields and the writes after `noteDevices` are those the signal theorems are about |
| SignalTrackers.AlarmComSignals.CloseTracker | src/alarmcom-signals.ts:209-216 | The fields and the writes after `close` are those the signal theorems are about |
| SignalTrackers.AlarmComSignals.ArmGrace | src/alarmcom-signals.ts:218-222 | An armed grace or a confirmed outage is left alone |
| SignalTrackers.AlarmComSignals.OnOfflineTimer | src/alarmcom-signals.ts:222-229 | The grace timer's callback |
| SignalStoreTheorems.CacheIsInvisible | src/pagerduty-signals.ts:62-76 | Whatever writes fail, the store behind the cache is the one that writing every time would leave |
| SignalStoreTheorems.FingerprintTellsTheRow | src/pagerduty-signals.ts:63-64 | The fingerprint determines active, severity and cleaned summary |
| SignalStoreTheorems.SkippingHidesNothing | src/pagerduty-signals.ts:65-67 | A write is skipped only by a writer that gave up or when the row is already stored |
| SignalStoreTheorems.FailedWriteIsRetried | src/pagerduty-signals.ts:68-75 | A write that failed is attempted again by the next identical call, and then it takes |
| SignalStoreTheorems.FailuresWarnOnce | src/pagerduty-signals.ts:116-121 | However many writes fail in a row one warning is logged |
| SignalStoreTheorems.CleanIsClean | src/pagerduty-signals.ts:63-63 | A cleaned summary fits, holds no control character, and cleaning it again changes nothing |
| SignalStoreTheorems.EachRunIsOneSpace | src/pagerduty-signals.ts:27-63 | A whole run of control characters is put as one space, with the text before it kept |
| SignalStoreTheorems.CleanIsTheFront | src/pagerduty-signals.ts:63-63 | A cleaned summary is the collapsed text cut to 1024 characters |
| SignalStoreTheorems.WarnsOfTheFirstFailure | src/pagerduty-signals.ts:68-121 | A failed write is warned of unless the failure before it was; one that takes ends the silence |
| SignalStoreTheorems.WithoutSqliteGivesUp | src/pagerduty-signals.ts:84-114 | Over every run without SQLite the first write gives one warning and nothing is ever written |
| SignalDelivery.ShowsBothExactlyWhen | src/alarmcom-signals.ts:171-180 | With writes refused at will, an event brings both account rows of the store up if and only if sign-in stops, its row takes and the clearing of an active cloud-offline row is refused, or the grace runs out and takes over an auth-failed row still active in the store |
| SignalDelivery.StoreNeverShowsBothExactlyWhen | src/alarmcom-signals.ts:105-255 | Over whole runs, any writes refused: the store never shows both if and only if no event is one of those two |
| SignalDelivery.RefusedClearShowsBoth | src/alarmcom-signals.ts:171-180 | The concrete run, grace run out and sign-in then stopped with the clearing write refused, after which the store shows both |
| SignalStoreTheorems.StoreNeverShowsBoth | src/alarmcom-signals.ts:240-255 | When every write takes: once both account rows have been written they are never both active |
| SignalWriters.PagerDutySignals.Collapse | src/pagerduty-signals.ts:63-63 | Each run of control characters becomes one space |
| SignalWriters.PagerDutySignals.WriteSignal | src/pagerduty-signals.ts:62-76 | `write`, with its skip and its failures |
| SignalWriters.PagerDutySignals.TryToWrite | src/pagerduty-signals.ts:68-75 | Open if need be, upsert, remember; the warning is given once |
| SignalWriters.PagerDutySignals.CloseStore | src/pagerduty-signals.ts:79-82 | `close` |
| DiagnosticsTheorems.HeartbeatsAddUp | src/diagnostics/collector.ts:294-338 | Totals are the tally of everything recorded, and the heartbeats so far plus what the next has yet to report equal them, readers that threw or recorded included |
| DiagnosticsTheorems.FailedHeartbeatLosesNothing | src/diagnostics/collector.ts:294-314 | A heartbeat whose reader throws reports nothing and leaves its whole delta to the next |
| DiagnosticsTheorems.ReportedPercentiles | src/diagnostics/collector.ts:163-243 | A reported percentile is a nearest rank among the last 200 valid networked samples of the whole history |
| DiagnosticsTheorems.ErrorRateIsOfTheLastRequests | src/diagnostics/collector.ts:277-283 | The error rate is high if and only if at least ten requests are on record and more than half of the last fifty failed, by count |
| DiagnosticsTheorems.LastPollIsTheLast | src/diagnostics/collector.ts:157-183 | Over every run nothing recorded is lost, and the last poll duration reported is that of the last cycle with a valid one |
| Percentiles.PercentileIsNearestRank | src/diagnostics/collector.ts:230-243 | A percentile is a sample with at least its share at or below it and less than its share below it |
| Percentiles.PercentileIsTheLeast | src/diagnostics/collector.ts:230-243 | A sample reaches the share if and only if it is at or above the percentile |
| Percentiles.PercentilesGrowWithRank | src/diagnostics/collector.ts:365-365 | p50 never exceeds p95 |
| Percentiles.SortedCopyIsSorted | src/diagnostics/collector.ts:235-235 | The sorted copy is ordered and holds the same samples |
| DiagnosticsCollectors.DiagnosticsCollector.OnApiRequest | src/diagnostics/collector.ts:157-175 | Counters, latency window and outcome window of one request |
| DiagnosticsCollectors.DiagnosticsCollector.OnPollCycle | src/diagnostics/collector.ts:177-183 | A poll cycle's counts and duration |
| DiagnosticsCollectors.DiagnosticsCollector.OnCount | src/diagnostics/collector.ts:186-219 | The seven one-line counters |
| DiagnosticsCollectors.DiagnosticsCollector.BuildHeartbeat | src/diagnostics/collector.ts:294-314 | Deltas from counters taken before the readers run, the marker advanced only after a report was built |
| DiagnosticsCollectors.DiagnosticsCollector.ReportPercentiles | src/diagnostics/collector.ts:230-243 | Every rank asked for, from one sort |
| DiagnosticsCollectors.DiagnosticsCollector.HasHighErrorRate | src/diagnostics/collector.ts:277-283 | The error-rate part of the roll-up |
| EventStreams.Replay | src/api/event-stream.ts:175-838 | A new stream object, taken call by call through any sequence of events, ends in the very state the run theorems are about |
| Partitions.Replay | src/devices/partition.ts:375-800 | A new partition object, taken call by call through any sequence of events, ends in the very state the run theorems are about |
| RateLimiters.Replay | src/api/rate-limiter.ts:80-148 | A new limiter object, taken call by call through any sequence of events, ends in the very state the run theorems are about |
| CircuitBreakers.Replay | src/api/circuit-breaker.ts:139-283 | A new breaker object, taken call by call through any sequence of events, ends in the very state the run theorems are about |
| SessionManagers.Replay | src/api/session-manager.ts:93-289 | A new session manager object, taken call by call through any sequence of events, ends in the very state the run theorems are about |
| Platforms.Replay | src/platform.ts:417-728 | A new platform object, taken call by call through any sequence of events, ends in the very state the run theorems are about |
| SignalTrackers.Replay | src/alarmcom-signals.ts:105-255 | A new signal tracker object, taken call by call through any sequence of events, ends in the very state the run theorems are about |
| SignalWriters.Replay | src/pagerduty-signals.ts:62-82 | A new signal writer object, taken call by call through any sequence of events, ends in the very state the run theorems are about |
| DiagnosticsCollectors.Replay | src/diagnostics/collector.ts:157-338 | A new collector object, taken call by call through any sequence of events, ends in the very state the run theorems are about |

## Left out

- Re-entrant callbacks: `onUnavailable`, `onRecovered` and event handlers are taken not to call back into the stream synchronously.
- The promise that `start()` returns: settling an older handshake can forget a newer one's settle function, which only decides when that promise resolves.
- Sockets and token fetches are entries of tables rather than objects, so aliasing between them is not modelled.
- What the stream's status says of `isConnecting`: the flag is followed, and nothing is promised of it.
- The last event's age, frame decoding, event validation and the choice of endpoint in the event stream.
- HTTP, sign-in page scraping, cookies, SQLite and the WebSocket library: each call is an outcome the environment chooses.
- Log text, log levels and redaction.
- `src/utils/mappers.ts`, `src/utils/validators.ts` and the type modules, except the few tables the partition needs.
- The sensor's pulse timer, name updates, HAP characteristics and valid target states.
- The refresh queue, poll cycle deadline and rediscovery schedule of the platform; only discovery itself is modelled.
- Initial discovery's retry schedule.
- Splitting id lists into chunks: a batched read succeeds or fails as one.
- Request timing and metrics inside an attempt; pacing and the breaker appear there as outcomes, and as machines of their own in their own modules.
- SessionManagers.SessionManager.InvalidateSession: says nothing of how many logins concurrent 401s cost, because `invalidate` does not check which session was rejected.
- SessionTheorems.LoginsInAnyWindowAreBounded: needs an interval of at least 3 s, which every accepted configuration has.
- Backoff.BackoffStaysInBand: arithmetic is over the reals, so the rounding of binary floating point is not modelled.
- Percentiles.PercentileIsNearestRank: the rank's ceiling is taken exactly, where the source multiplies in floating point.
- SignalStoreTheorems.CleanIsClean: text is a sequence of characters, so cutting a surrogate pair in two is not modelled.
- EventStreams.EventStream.OpenReported: does not model the reconnect callback that an open after a drop makes; it changes no field.
- DiagnosticsCollectors.DiagnosticsCollector.OnCount: does not model the time of the last circuit trip, which reports only echo.
- Exceptions from unregistering a stale accessory, and from the signal and log calls inside a discovery.
- Clients.AlarmComClient.GuardedAttempt: the attempt meets a given scenario rather than the live session, limiter and breaker objects.
- The collector's gauges, roll-up reasons other than the error rate, and the configuration echo.
