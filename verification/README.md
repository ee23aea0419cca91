# Verified models of the WhatsApp engine core

This project models the stateful protocols of the engine's `core` package in Dafny and proves what
they guarantee. `dafny verify dfyconfig.toml` checks everything.

Three groups of protocols are covered.

**Timing.** `RateLimiters` holds the token bucket and the wait of one caller, as a class over a clock:
the two sleeps, the loop that sleeps again after a randomly shortened wait, cancellation, and the
simulated typing delay. `Senders` puts any number of senders over limiters that can be replaced at
run time; one step is one critical section of a limiter's mutex, so the waiters interleave at the
two places where the mutex is released. `Backoffs` is the reconnect delay. `Sending` is what one
text message does to all of them.

**Events.** `EventQueues` holds the bounded queue that drops its oldest events, as a class over a
re-sliced and reallocated buffer, and the consumer's side of it. `Clients` holds the handlers that
set the client state, push events and drive backoff and presence. `Recovery` connects the two ends:
a consumer that lost nothing that matters knows the client's state. `Knowledge` says what any consumer
knows: a set of states computed from its answers, the types in the drop reports included.

**Lifecycle.** `Engines` layers the engine's states over the client's, `StartRace` takes racing
`Start` calls apart into loads, swaps and stores, `Presences` is the online/offline machine with its
idle timer, `Sessions` is the table of sessions at the granularity of the manager's critical
sections with sleep and wake on top, and `SessionManagers` is the manager as an object.

In each group a class mirrors the code's mutable object; its methods equate the new state with a
specification function of the old one, and the theorems are about those functions over whole runs.

## Environment

The library, the disk, the clock and the random generator are parameters: whether a call on them
succeeds, which events arrive, how late a timer is, which draw comes out. The assumptions are:

- Time is monotonic; a timer is never early, and a sleep takes at least one tick.
- Library events are handled only while its socket is open; `Connected` and `PairSuccess` arrive only
  when the device is linked, and `Connected` then carries its identity; the library may link the device
  while its socket is open, and only a remote logout unlinks it. Whether the library keeps its socket
  through an event is left open; the coupling and sleep theorems say exactly when that matters. QR items
  may arrive at any time. `Knowledge.HappensIff` says which activities between lifecycle calls this
  allows, and the theorems of `Knowledge` are about exactly those.
- Handlers, QR items and API calls are atomic steps, except in `StartRace`, `Senders` and `Sessions`,
  which are finer.
- A random draw is any real in [0, 1); floating-point values are reals, durations are integer
  nanoseconds, and conversion to a duration truncates toward zero.

## Where the code differs from its description

- The minimum interval holds for serialized callers only, because it is not checked again after the
  sleep: `Senders.SpacingFailsIff` says for which configurations it can be missed, and
  `Senders.SimultaneousIff` for which two sends can go out together.
- A burst size below one makes every wait endless (`RateLimiters.GrantableIffBurst`).
- The typing floor and cap are jittered after they are applied, and so is the backoff cap. Exactly when
  they hold all the same: `RateLimiters.TypingFloorIff`, `RateLimiters.TypingCapIff`,
  `Backoffs.DelayCappedIff`, `Backoffs.CapKeptIff`.
- Past its attempt limit the backoff returns no delay, and a large variance can take all of a delay
  away: an outage bounds its retries exactly if there is no limit and the variance leaves at least a
  nanosecond of the cap (`Backoffs.RetriesBoundedIff`).
- Stopping a presence manager does not take the session offline, and does not keep later sends from
  marking it online, with no timer to take it off again (`Presences.StoppedOverstaysIff`).
- A drop report names the type of the last lost event exactly as long as every clear is harmless
  (`EventQueues.ReportsNameLastLostIff`).
- Every start or pairing that reaches the library registers the event handler once more, even if its
  connection then fails, and only a completed logout drops them: a message is pushed once per registered
  handler and a disconnection costs as many attempts (`Engines.HandlersAreRegistrations`,
  `Engines.MessagePushedOnceIff`, `Clients.MessagesMultiply`, `Clients.AttemptsMultiply`).
- A phone pairing refused after its socket opened leaves the socket open behind a stopped engine
  (`Engines.LatePhoneFailureLeaks`).
- Such an engine also defeats sleep and wake: its stop does nothing and its start finds it connected
  (`Sessions.SleepWakeRestoresIff`).
- The session limit in the code is 10, while its comments say 5.
- Discovery looks for `wa.db`, while the storage layer writes `whatsapp.db`, so a restart discovers none
  of the engine's own sessions (`SessionManagers.RestartDiscoversOnlyForeign`).
- The clock-jump fallback calls the wake handler without the sleep handler, so there is nothing to
  restore (`Sessions.IdleWake`).

## Model

| member | source | states |
|---|---|---|
| Senders.WindowBound | core/ratelimit.go:107-163 | for every interleaving of any number of waiters, cancelled ones included, the grants between two instants are at most a full burst plus SustainedPerMinute for each minute in between, tokens stay between zero and the burst, and a burst below one never grants |
| Senders.SentMatchesGrants | core/send.go:79-104 | the grants a limiter ever made are exactly the sends that name it, in order, each at its refill instant, and every send names one limiter |
| Senders.ReplacementBound | core/engine.go:230-239 | across any limiter replacements, with sends still waiting on an old limiter, the sends granted in a window are at most the sum of the limiters' bursts and of SustainedPerMinute for each minute of it |
| Senders.SerializedSpacing | core/ratelimit.go:111-124 | over whole runs with token waits and external stamps, serialized callers are stamped at least the jittered minimum interval apart |
| Senders.SpacingFailsIff | core/ratelimit.go:111-124 | a send can be stamped too close to the stamp before it iff the burst is at least one and the interval less its variance is at least a nanosecond, with stamps from outside or without |
| Senders.SimultaneousIff | core/ratelimit.go:114-163 | two sends can take their tokens from one limiter at the same instant iff its burst is at least two |
| Senders.SectionGrantsIff | core/ratelimit.go:127-163 | a waiter that reaches the limiter is granted its send there and then iff a whole token is there, counting SustainedPerMinute for each minute since the last refill |
| Senders.SleepsAreBounded | core/ratelimit.go:111-146 | nobody sleeps longer than the varied interval after the last stamp, or the varied time of a token |
| Senders.CancelTakesNothing | core/ratelimit.go:119-146 | a cancelled wait takes nothing from any limiter and sends nothing |
| Senders.ReplacementTakesEffect | core/engine.go:230-239 | a replacement counts for the sends that begin after it and for no others, with a new and full limiter |
| Senders.ExternalStampCounts | core/ratelimit.go:209-215 | a stamp from outside keeps the next send away for the interval less its variance |
| RateLimiters.RateLimiter.WaitContext | core/ratelimit.go:107-163 | a granted wait is one refill, one token and one stamp; the first send of a new limiter does not wait; a cancelled wait consumes and stamps nothing; the call takes at most (1+J)(MinInterval + 60s/SustainedPerMinute) plus a tick and timer lateness, and its rounds are bounded from the configuration alone, logarithmically for a jitter factor below one |
| RateLimiters.RateLimiter.AwaitToken | core/ratelimit.go:135-159 | the token loop ends for every jitter, each round shrinks the wait by at least a tick and to about the jitter factor, and only the last round overshoots |
| RateLimiters.RateLimiter.AwaitInterval | core/ratelimit.go:111-124 | the first sleep establishes the minimum interval and is bounded by its jittered length |
| RateLimiters.LogarithmicRounds | core/ratelimit.go:135-159 | with a jitter factor below one the loop takes logarithmically many rounds in the first wait |
| RateLimiters.RoundsAtMostTicks | core/ratelimit.go:135-159 | with any jitter factor up to one the rounds are bounded by the ticks of the first wait |
| RateLimiters.RefillTwice | core/ratelimit.go:127-133 | refilling in two steps, capped each time, is refilling once |
| RateLimiters.RefillsPerMinute | core/ratelimit.go:127-133 | a refill adds SustainedPerMinute for each minute since the last one, up to the burst size |
| RateLimiters.NewBucketIsFull | core/ratelimit.go:90-99 | a new limiter has its whole burst and was never stamped |
| RateLimiters.RemainingShrinks | core/ratelimit.go:138-155 | the estimated wait shrinks by exactly the time that passes, and is over exactly when a token is there |
| RateLimiters.GrantableIffBurst | core/ratelimit.go:130-136 | a wait can ever be granted iff the burst size is at least one |
| RateLimiters.TypingDelayEnvelope | core/ratelimit.go:168-207 | through the cap, the floor and up to three jitters the typing delay stays between (1-J)400ms and (1+J)max(cap, 400ms) |
| RateLimiters.TypingBaseIs | core/ratelimit.go:173-175 | the typing time of a text is its length at the configured speed, in whole milliseconds |
| RateLimiters.TypingDelayExact | core/ratelimit.go:168-190 | without jitter the typing delay is that time cut at the cap and then raised to 400 ms |
| RateLimiters.TypingFloorIff | core/ratelimit.go:168-207 | for every text and configuration, every draw keeps the documented floor iff the text is not empty and there is no jitter or no draw that leads to the floor |
| RateLimiters.TypingCapIff | core/ratelimit.go:168-207 | for every text and configuration, every draw keeps the documented cap iff neither the jittered cap, where it is taken and not floored, nor the jittered floor, where it is taken, can exceed it |
| Sending.Sender.WaitBeforeSend | core/send.go:87-104 | presence is told first, a simulated typing lasts exactly the typing delay of this text for some draws, and then come exactly one token and one stamp of the snapshotted limiter, within the longest wait |
| Sending.Sender.SendText | core/send.go:117-149 | every outcome pushes exactly one event; a token is taken and the presence marked active iff the message is addressed well and the client logged in; only an accepted message re-arms the idle timer again |
| Backoffs.Backoff.Next | core/backoff.go:69-95 | the granted delay is that of the attempt counter, which saturates at the limit; the first one after a reset varies around the initial delay |
| Backoffs.DelayWithinBand | core/backoff.go:77-94 | the delay of attempt n lies in (1±J) of min(Initial·Mult^n, Max), up to truncation |
| Backoffs.EnvelopeMonotone | core/backoff.go:77-84 | with a multiplier of at least one the envelope never decreases |
| Backoffs.EnvelopeSteps | core/backoff.go:77-84 | the first attempt has the initial delay, every later one the multiplier times the one before, all cut at the maximum |
| Backoffs.SleptAround | core/client.go:406-412 | what is slept at an attempt lies in the jitter band of its envelope, and is nothing once the tracker has given up |
| Backoffs.AttemptsCountLosses | core/backoff.go:69-103 | the counter is the number of losses since the last recovery, saturating at the limit |
| Backoffs.DelayCappedIff | core/backoff.go:77-94 | attempt n never sleeps longer than the maximum iff (1+J) times its envelope exceeds the maximum by at most a nanosecond |
| Backoffs.CapKeptIff | core/backoff.go:77-94 | if the cap is ever reached, every attempt keeps it iff the variance of the cap is at most a nanosecond |
| Backoffs.RetriesBoundedByOutage | core/client.go:406-412 | an outage of length T has at most k + T/least + 1 losses, where attempt k reaches the cap, least is a lower bound of the capped delays, and the tracker does not give up before the last |
| Backoffs.RetriesBoundedIff | core/backoff.go:69-95 | where the cap is reached, the length of an outage bounds its losses iff there is no attempt limit and the variance leaves at least a nanosecond of the cap |
| EventQueues.EventQueue.Push | core/events.go:235-251 | the re-sliced, reallocated buffer refines pushing on the abstract bounded queue |
| EventQueues.EventQueue.Poll | core/events.go:255-279 | the buffer refines polling: losses first, then the oldest event, then nothing |
| EventQueues.EventQueue.Clear | core/events.go:300-309 | the buffer refines clearing, which counts its victims as lost |
| EventQueues.ExactGapReconstruction | core/events.go:235-309 | over any run the queue is a suffix of the pushes, the consumer's count places every delivered event exactly, and the lost events are exactly the reported holes plus the pending one |
| EventQueues.KeepsLatest | core/events.go:222-251 | a new queue keeps exactly the latest events, as many as it was made for or a thousand, and counts the others as dropped |
| EventQueues.DeliveredWasNotLost | core/events.go:235-309 | no delivered event lies among the lost ones |
| EventQueues.DeliveryPreservesOrder | core/events.go:255-279 | later answers lie at strictly later positions in the push order |
| EventQueues.EmptyPollMeansCaughtUp | core/events.go:271-273 | a poll finds nothing iff the consumer's count equals the number of events ever pushed |
| EventQueues.Conservation | core/events.go:235-322 | pushes = queued + dropped + polled events, drops = reported + pending, and the size stays within the maximum |
| EventQueues.ReportsNameLastLostIff | core/events.go:235-309 | throughout a run every drop report names the type of the last event of its hole iff every clear in it is harmless |
| EventQueues.ClearNamesLastLostIff | core/events.go:300-309 | a clear leaves the recorded type right iff it throws nothing away or the last event it throws away has that type |
| Clients.Client.HandleEvent | core/client.go:365-486 | one library event sets the state, pushes the events and drives backoff as specified; a disconnection or logout takes presence offline and clears its timer, a connection or pairing marks it online and arms the timer as configured, nothing else touches it; exactly the granted backoff is slept off |
| Clients.Client.Dispatch | core/client.go:121 | an event reaches every registered handler, one after the other: state, events, attempts, presence and the time slept are those of so many handlers |
| Clients.PresenceFollowsConnection | core/client.go:365-486 | over any events the session is marked online, with its timer armed, iff it was connected or paired after the last loss, as far as presence is configured to |
| Clients.HandleByField | core/client.go:365-486 | which events change which field of the client, and how |
| Clients.HandleQRByField | core/client.go:296-327 | which QR items show or hide a code |
| Clients.ChannelClosedByField | core/client.go:289-294 | the end of a QR channel ends the pairing and hides the code, and nothing else |
| Clients.ConnectOutcome | core/client.go:112-129 | when connecting is a no-op, when it is refused, and what its success and failure leave |
| Clients.StartPairingOutcome | core/client.go:132-172 | the same for QR pairing |
| Clients.StartPhonePairingOutcome | core/client.go:176-238 | the same for phone pairing |
| Clients.DisconnectOutcome | core/client.go:339-362 | a client that believes itself disconnected is left alone, any other shows nothing and has no socket |
| Clients.MessagesMultiply | core/client.go:434-435 | with h registered handlers one message is pushed h times |
| Clients.AttemptsMultiply | core/client.go:394-412 | with h registered handlers one disconnection costs h attempts, saturating at the limit |
| Clients.StateDoesNotMultiply | core/client.go:365-486 | however many handlers there are, the state comes out as with one |
| Clients.Client.HandleQRChannel | core/client.go:288-327 | draining a QR channel folds its items and then ends the pairing |
| Clients.Client.Connect | core/client.go:112-129 | the idempotent connect and its two failures |
| Clients.Client.StartPairing | core/client.go:132-172 | QR pairing, its refusals and its failures |
| Clients.Client.StartPhonePairing | core/client.go:176-238 | phone pairing and each point where it can fail, socket included |
| Clients.Client.Disconnect | core/client.go:339-362 | disconnecting, with the early return of a client that believes itself disconnected |
| Clients.AttemptsCountDisconnects | core/client.go:372-484 | the attempt counter is the number of disconnections handled since the connection was last healthy, saturating at the limit |
| Recovery.ActivityTellsState | core/client.go:288-486 | reading the events a handler pushes gives exactly the state it sets |
| Recovery.HistoryTellsState | core/client.go:288-486 | the client state is what a lossless reader of all pushes would believe |
| Recovery.StateRecovery | core/events.go:255-279 | whenever a poll finds nothing, a consumer that saw no loss, or a state-setting event after the last one, knows the client state |
| Knowledge.HappensIff | core/client.go:288-486 | what can happen between lifecycle calls is any activity, except library events when the socket is closed and connections without a device |
| Knowledge.ClearHidesState | core/events.go:300-309 | every run with an open socket extends in two ways that can happen, losing one more event to a clear, and give the same answers but leave the client in different states |
| Knowledge.KnowledgeIsSound | core/events.go:255-279 | after any run that ends drained the state is one of those the answers allow; with clears, the type in a report counts only if it is new and the hole no larger than the queue |
| Knowledge.KnowledgeIsExact | core/events.go:235-279 | without clears, a state is allowed by the answers iff some run that can happen gives these answers and ends in it |
| Knowledge.AnswersDecideStateIff | core/events.go:235-279 | without clears, all runs that can happen and give the same answers leave the client in the same state iff the computed knowledge is a single state |
| StartRace.ConnectsNeverOverlap | core/engine.go:122-141 | of any number of racing starts at most one is between its winning swap and its final store, and the engine is Starting iff there is one |
| StartRace.RetriesAreBounded | core/engine.go:127-129 | with n threads every failed swap is paid for by a state change, at most 2n of them, and no thread takes more than 4n+3 steps |
| StartRace.RaceEndsSettled | core/engine.go:122-141 | the race cannot get stuck, and ends with every thread returned and the engine not Starting |
| StartRace.SoloRaceIsStart | core/engine.go:122-141 | a thread running alone takes the engine where the atomic Start takes it |
| Presences.IdlePresenceDeadline | core/presence.go:87-222 | a manager that is not stopped is never marked online longer than the idle timeout after its last activity, for exactly the configurations with a positive timeout or presence off |
| Presences.OnlineExactly | core/presence.go:87-222 | until stopped, a session is online if it was marked so since the last disconnection and less than the idle timeout ever passed without activity since, and only if no more than the timeout did |
| Presences.DisabledDoesNothing | core/presence.go:87-222 | with presence switched off nothing is ever marked or timed |
| Presences.StopCancelsTimer | core/presence.go:173-176 | a stop cancels the timer, and only sends arm it again |
| Presences.StoppedOverstaysIff | core/presence.go:110-222 | a stopped manager can leave the session marked online for any length of time iff it is online already or simulates typing on sends |
| Presences.StoppedPresence | core/presence.go:87-222 | once stopped, only sends mark the session online and only disconnections offline; connecting, activity and the idle timer have no say |
| Presences.PresenceManager.BeforeSend | core/presence.go:110-125 | a send re-arms the timer and marks the session online if it simulates typing and is connected |
| Presences.PresenceManager.IdleTimerFired | core/presence.go:207-211 | the timer takes the session offline unless the manager is stopped |
| Engines.AlwaysCoupledIff | core/engine.go:122-204 | throughout a run the engine is Stopped, Running or Pairing, a stopped engine's client is disconnected and a disconnected client has no socket, iff no call of the run breaks it |
| Engines.PerformKeepsSoundIff | core/client.go:223-228 | the calls that break it are exactly a connection-ending event or QR item after which the library keeps its socket, and a phone pairing that fails after its socket opened |
| Engines.StopSettles | core/engine.go:189-204 | stopping ends stopped with the client down, is idempotent, and leaves a socket open only if the client already believed itself disconnected |
| Engines.CoupledUnlessSocketSurvives | core/client.go:343-345 | outside events can break the coupling iff the engine is stopped with a live socket |
| Engines.LatePhoneFailureLeaks | core/client.go:223-228 | a late phone-pairing failure leads to a stopped engine whose client is connected and whose Stop does nothing |
| Engines.LogoutSettles | core/engine.go:322-340 | after a logout that cleared the device the engine can only be paired again; after a failed one the old link still works |
| Engines.StartOutcome | core/engine.go:122-141 | when a start is a no-op, when it is refused, and how it ends otherwise |
| Engines.StartPairingOutcome | core/engine.go:144-162 | a QR pairing is a no-op on a pairing engine, refused on a running or paired one, and otherwise ends as the client's |
| Engines.StartPhonePairingOutcome | core/engine.go:165-187 | a phone pairing is refused on a pairing, running or paired engine, and otherwise ends as the client's |
| Engines.StopOutcome | core/engine.go:189-204 | a stop takes an engine that is up down, together with its client |
| Engines.LogoutOutcome | core/engine.go:322-340 | a logout forgets the link as soon as the device is cleared, and the client if a new one can be made |
| Engines.HandlersAreRegistrations | core/client.go:112-238 | in every run the registered handlers are exactly those of the starts and pairings that reached the library since the last completed logout, failed ones included |
| Engines.MessagePushedOnceIff | core/client.go:112-238 | a message is pushed exactly once iff exactly one call of the run registered |
| Engines.Engine.Start | core/engine.go:122-141 | the engine object's start, against the specification |
| Engines.Engine.StartPairing | core/engine.go:144-162 | the engine object's QR pairing, against the specification |
| Engines.Engine.Stop | core/engine.go:189-204 | the engine object's stop, against the specification, with its presence manager stopped exactly when the engine was up |
| Engines.Engine.Logout | core/engine.go:322-340 | the engine object's logout, with a new client and presence manager, or an error and the old ones |
| Sessions.AlwaysTableInv | core/session.go:104-331 | for every interleaving of critical sections and every run of API calls, sleeps and wakes: at most the maximum number of sessions, each with its directory and database, no engine under two names |
| Sessions.OthersLeaveSessionAlone | core/session.go:147-331 | whatever happens to other names leaves a name's engine and directory as they were |
| Sessions.PairedNeverLost | core/session.go:218-331 | a paired session keeps its engine, link and directory through any interleaving and any API calls, stops of everything, sleeps and wakes, that do not remove it or log it out |
| Sessions.ApplyIsSections | core/session.go:200-261 | every API call, sleep and wake is exactly the run of its critical sections; those of a stop of everything may come in any order |
| Sessions.AlwaysAllSoundIff | core/engine.go:122-204 | throughout a run of the whole manager every engine has its state machines coupled and no stray socket iff no call of the run breaks it |
| Sessions.StalePairingRecovers | core/session.go:218-234 | pairing an existing unpaired name either fails for storage or connection reasons or leaves a fresh engine and client in pairing, never the session limit or the silent return |
| Sessions.StalePhonePairingRecovers | core/session.go:366-382 | the same for phone pairing, up to the engine's own outcome |
| Sessions.PairingOnDisk | core/session.go:218-234 | pairing an existing unpaired name leaves a directory with nothing but a new database if the old one could be removed, none if it cannot be made again, and keeps the old files otherwise |
| Sessions.PhonePairingOnDisk | core/session.go:366-382 | the same for phone pairing |
| Sessions.CreationResult | core/session.go:147-177 | a creation fails at ten sessions and for storage reasons, and maps the name otherwise |
| Sessions.CreationOnDisk | core/session.go:147-177 | a creation makes the directory and adds the database, and leaves every other file and directory alone |
| Sessions.RemovalOutcome | core/session.go:266-289 | a removal drops the session in any case, and its directory if it can |
| Sessions.EngineAloneStaysStale | core/engine.go:144-148 | the old engine would report success and do nothing after its QR code timed out |
| Sessions.LogoutSticksIff | core/session.go:293-331 | after logging a session out, its name starts as unpaired iff the directory was removed or the server-side logout of a connected session succeeded |
| Sessions.SleepWakeRestoresIff | core/sleep.go:36-74 | for every iteration order, whatever the library does in between and whichever connections succeed, after sleep and wake an engine runs iff its client was connected, it is paired and its connection succeeds, and all others are stopped: exactly for the tables in which no engine is stopped while its client is connected, and paired or with a socket |
| Sessions.AlwaysAllSettled | core/engine.go:122-204 | in every reachable table every engine is Stopped, Running or Pairing |
| Sessions.IdleWake | core/sleep.go:55-74 | with nothing remembered and no sleep since, a wake changes nothing, whatever else happened: a second wake, or one without a sleep |
| SessionManagers.SessionManager.DiscoverSessions | core/session.go:104-143 | the directory scan is a series of creations, one per directory with a `wa.db`, and stops changing anything at the limit |
| SessionManagers.SessionManager.GetOrCreateSession | core/session.go:147-177 | the existing session, a new one, or the limit and storage errors |
| SessionManagers.SessionManager.StartPairing | core/session.go:218-234 | the two critical sections and the engine call of a pairing |
| SessionManagers.SessionManager.StopAll | core/session.go:250-261 | stops every engine, in whatever order the map is walked |
| SessionManagers.SessionManager.OnSleep | core/sleep.go:36-52 | remembers exactly the connected sessions, once each, and stops everything |
| SessionManagers.SessionManager.OnWake | core/sleep.go:55-74 | starts what was remembered and forgets it |
| SessionManagers.DiscoveredIff | core/session.go:104-143 | a directory is discovered only if it holds a `wa.db`, and unless the table is full every one that does and opens is |
| SessionManagers.RestartDiscoversOnlyForeign | core/storage.go:63-108 | a restart after any run discovers only directories that held a `wa.db` before the run, so from an empty disk none at all |
| SessionManagers.RestartKeepsLink | core/storage.go:63-108 | after any run on any disk and a restart, starting a session that was paired by its name fails with the session limit iff it was not discovered and the table is full, and otherwise brings it back paired, running iff its connection succeeds |

## Left out

- SessionManagers.SessionManager: maps names to engine values, not to engine objects; a call still
  holding an engine that has meanwhile left the map is not modelled.
- Engines.Engine: holds no limiter and no sender, only the configuration its presence managers type with;
  the replacement of limiters is in `Senders`, the send in `Sending`.
- Opening a database: that it repairs a corrupted one by deleting it, and that a failed open may have
  written the file.
- Limiters with a non-positive refill rate or a jitter factor above one; for a single caller, a minimum
  interval of 2^61 nanoseconds or more, whose variance overflows a duration.
- Knowledge.KnowledgeIsExact: only for runs without clears; for runs with clears the answers bound the
  state (`Knowledge.KnowledgeIsSound`), but not every state within the bound need be possible.
- Concurrent Start and Stop, or Start and StartPairing, on one engine: the code does not keep them apart.
- The counters of the queue as 64-bit integers: they are natural numbers here.
- Sends of media, locations, contacts, stickers, receipts: the media ones wait on the limiter as a text
  does, the others do not wait at all.
- Presence: the network calls themselves, and several managers alive at once after a replacement.
- JSON rendering, error texts, timestamps of events, device profiles, address helpers and accessors.
- The HTTP server, service installers and the platform-specific sleep watchers.
- The library, its database, profile fetching, media transfer: only their outcomes.
- Session names that are not plain path segments, so that two names could share a directory.
- The manager after Destroy.
