# Verified model of the inference data plane

This project models the request path of the platform and proves what it keeps: the
at-least-once job protocol that frontends, engines and their heartbeats run over a Valkey
broker; the quota ledger with expiring counters; the readers and decoders of results; the
token budget; and the host agent that owns model processes.  The command to verify it all is
`dafny verify dfyconfig.toml`.

## How it is laid out

| file | what it holds |
|---|---|
| `QuotaBook.dfy` | the quota ledger as one list of reservations; counters and their expiry are computed from it |
| `RateLimit.dfy` | the charge of a minute stays within the limits, and how late scripts may run for that |
| `QuotaScripts.dfy` | the three Lua scripts, command by command, on keys with a TTL; they refine the book |
| `InMemoryLimiter.dfy` | the in-process limiter: its history on values, and the 64-bit class that keeps it |
| `Protocol.dfy` | the protocol as a state machine: one action per broker command, a crash possible anywhere |
| `ProtocolSafety.dfy` | what holds in every reachable state |
| `ProtocolRuns.dfy` | building runs step by step, and the three guards on redelivery |
| `ProtocolTerminals.dfy`, `SingleTerminal.dfy` | how many terminal events a request gets, and when it is sure of one |
| `ProtocolStatus.dfy`, `ProtocolCharges.dfy` | when `completed` lasts and what a status names; what a request ends up being charged |
| `ProtocolTiming.dfy` | how long leases and statuses live, and how long an entry must have been pending |
| `LeaseBlocks.dfy`, `Heartbeat.dfy` | what lease exclusion gives, and when the heartbeat keeps the lease |
| `EngineLoop.dfy` | `run_job` and the consume loop as methods over a system that records its run; draining |
| `ResultReaders.dfy` | the resumable subscription, the streaming reader, the unary collector |
| `Envelope.dfy`, `EventStream.dfy`, `Varint.dfy` | the enveloped stream, the model's server-sent events, the varint codec |
| `TokenBudget.dfy`, `Admission.dfy` | budget policies; admission, synthetic generation and the final charge |
| `HostAgent.dfy` | the host agent's critical sections and their interleavings |
| `Basics.dfy`, `Sequences.dfy`, `Text.dfy` | optional values and bytes; joined chunks and facts on sequences; splitting on white space and trimming |

Code that the repository writes as loops and in-place updates is a method or a class here,
proved against a specification function; what the code promises is then proved about that
function, for all inputs, runs or reachable states.

## What the code does not keep

Seven things a reader might expect are false of the code.  Each has a counterexample and the
condition under which it does hold.

- *At most one terminal event per request.*  There are three ways to a second one, and a run
  for each: an engine stalls between its release and its settlement while another one takes
  over, and both publish a completion in time (`CompletedTwice`); an engine crashes after
  publishing and before marking, and the next one generates again (`CompletedAgain`); a
  finished job is found past its deadline and is failed without a look at its status
  (`CompletedThenFailed`, and `FailedTwice` without any completion).  `OnceIffGuarded`: a
  request is sure of one terminal event exactly in the runs that rule out all three.  Without
  such guards, one is certain only for entries handed out at most once
  (`OnceIffDeliveredOnce`).
- *Status `completed` is absorbing.*  A frontend notes `queued` after its XADD, possibly after
  the engine is done (`CompletedThenQueued`); an attempt that lost its lease goes on to note
  `running` (`CompletedThenRunning`).  `CompletedUnlessReopened` says of which reachable states
  it is true in every continuation.
- *A completed request is charged for what it publishes.*  A dispatch whose reply was lost is
  called off while the job runs (`CompletedUncharged`; `UnchargedIff` and `ChargedIfHeard` give
  the condition).  And the charge is that of the first settlement: an engine that crashes
  between settling and publishing leaves its count charged while the next attempt publishes its
  own (`ChargedByTheFirst`).  `SettledAtIff` and `ChargedAsCounted` say what is charged in every
  run.
- *The rate limit* is kept if and only if the scripts of a minute run within the 120 s its
  counters live after the first one (`LimitKeptIff`).
- *Settlement after 120 s* refunds nothing (`RefundIffOpen`), while the job may run much longer.
- *The unary answer is the last attempt's text.*  The collector does not look at `attempt_id`
  when it appends; it agrees with the stream exactly when the tokens it kept are that
  attempt's (`AgreeIff`); a run with a lost lease mixes two attempts (`OverlapHappens`).
- *Cancelling in the in-process limiter* gives back only generated tokens; `CancelDiffers` says
  what it leaves charged, compared with the broker's ledger.

A reservation that is cancelled at once charges nothing, but it is not without effect: it has
renewed the expiry of its bucket's counters (`CancelUndoesReserve`, `ProlongedIff`).

On the host agent, an EnsureModel that times out stops whatever process its model has by then
(`TimeoutStopsOwnIff`, `TimeoutStopsAnother`).

The model follows the code where `ARCHITECTURE.md` describes other components.

## Model

| member | source | states |
|---|---|---|
| QuotaBook.ChargedSinceLastGap | crates/inference-streams/src/lib.rs:578-621 | Conservation, in every state of every run: the live counters of a bucket equal the summed charges (reserved, reconciled or cancelled) of its reservations since the last gap of 120 s, in which the counters had expired |
| QuotaBook.GapBeforeSince | crates/inference-streams/src/lib.rs:587-594 | What the cut of that sum is: each reservation of the bucket before it was made at least 120 s before now and before every one after it; from it on each was followed by the next, or by now, within 120 s |
| QuotaBook.GapIsUnique | crates/inference-streams/src/lib.rs:587-594 | Any two cuts of that kind count the same reservations |
| QuotaBook.UsageIsChargeSince | crates/inference-streams/src/lib.rs:578-621 | The counters' value, walked back from the newest reservation, is the summed charge from the cut on |
| QuotaBook.UsageAfterSettle | crates/inference-streams/src/lib.rs:598-621 | Settling a reservation whose record lives moves its bucket's counters by exactly the difference of its charges, and no other bucket's |
| QuotaBook.UsageByTheClock | crates/inference-streams/src/lib.rs:587-594 | A counter reads the same until 120 s after the last reservation of its bucket and nothing from then on |
| QuotaBook.RemaindersAreExact | crates/inference-streams/src/lib.rs:369-376 | A reservation is admitted if and only if all three sums stay within the limits, and then the remainders returned plus the new counters are the limits, so the clamps at zero never act |
| QuotaBook.RefusalIsFirst | crates/inference-streams/src/lib.rs:584-586 | A refusal names the first of requests, prompt tokens and generated tokens that does not suffice |
| QuotaBook.SettledOnce | crates/inference-streams/src/lib.rs:598-621 | Over any operations by any number of parties a reservation is settled at most once, and what it reserved never changes |
| QuotaBook.RefundIffOpen | crates/inference-streams/src/lib.rs:598-611 | A settlement changes the ledger if and only if the record is alive and reserved; after its 120 s it refunds nothing |
| RateLimit.ChargeWithinLimits | crates/inference-streams/src/lib.rs:347-389 | Rate limit: in every state of every run whose scripts for a minute come within 120 s of the first, the net charge of all reservations ever made in that minute is within all three limits |
| RateLimit.LimitKeptIff | crates/inference-streams/src/lib.rs:371-371 | That time bound is exact: the limit holds in all runs with scripts within a given time if and only if the time is at most the 120 s expiry |
| RateLimit.PromptIsTimely | crates/inference-streams/src/lib.rs:355-355 | With one clock, scripts that run at most a minute after the minute they charge has ended satisfy the time bound |
| QuotaScripts.KeySpace.Reserve | crates/inference-streams/src/lib.rs:578-596 | The reserve script, increments before expiries, gives the reply the book gives and leaves keys that show exactly the book with the new reservation |
| QuotaScripts.KeySpace.Reconcile | crates/inference-streams/src/lib.rs:598-607 | The reconcile script refunds what the book refunds and leaves keys that show exactly the settled book |
| QuotaScripts.KeySpace.Cancel | crates/inference-streams/src/lib.rs:609-621 | The cancel script acts exactly on open reservations and leaves keys that show exactly the book without the charge |
| QuotaScripts.KeySpace.Tick | crates/inference-streams/src/lib.rs:587-594 | As time passes keys and book forget the same counters and records |
| QuotaScripts.RecordOutlivedByCounters | crates/inference-streams/src/lib.rs:587-594 | TTL order: while a reservation record lives its three counters live at least as long and hold at least its charge, so no refund recreates an expired counter or takes one below zero |
| QuotaScripts.RefinesSettle | crates/inference-streams/src/lib.rs:598-621 | Lowering the three counters by the difference in charge and changing the record's status is, on every key, what settling does to the book |
| InMemoryLimiter.WindowsStayOk | crates/generation-quota-limiter/src/lib.rs:83-181 | Over every interleaving of reservations, minute changes and reconciliations split at their two locks: counters within the limits, requests and prompt tokens exactly the current window's, generated tokens at most the current charges plus refunds in flight, and equal unless a refund came from an older window |
| InMemoryLimiter.SameFromTheStart | crates/generation-quota-limiter/src/lib.rs:83-181 | Simulation: started empty and within one minute, over any calls, it grants, refuses (same quota, same order), reports remainders and refunds as the broker's ledger does, and holds the same counters at the end; an id it no longer has counts as a refund of 0 |
| InMemoryLimiter.SameVerdicts | crates/generation-quota-limiter/src/lib.rs:83-181 | The same from any two states that agree, which they still do afterwards |
| InMemoryLimiter.ReserveSimulates | crates/generation-quota-limiter/src/lib.rs:83-154 | One reservation gives both the same verdict and the same counters |
| InMemoryLimiter.ReconcileSimulates | crates/generation-quota-limiter/src/lib.rs:156-181 | One reconciliation gives both the same refund and the same counters; the limiter reports the reservation missing exactly when the ledger has none open |
| InMemoryLimiter.CancelDiffers | crates/generation-quota-limiter/src/lib.rs:183-185 | After a cancel the two differ by exactly one request and that reservation's prompt tokens |
| InMemoryLimiter.StartsFromNothing | crates/generation-quota-limiter/src/lib.rs:86-92 | A call of another minute, earlier or later, resets its key's window, one of the same minute adds to it, and no other key's window changes |
| InMemoryLimiter.AnswerSays | crates/generation-quota-limiter/src/lib.rs:94-149 | What is left, or remains, completes the counters to the limits; a refusal names the first quota that does not suffice and what was asked of it |
| InMemoryLimiter.Limiter.ReserveTokens | crates/generation-quota-limiter/src/lib.rs:83-154 | The 64-bit limiter answers as the history says and keeps it; no addition overflows |
| InMemoryLimiter.Limiter.Admit | crates/generation-quota-limiter/src/lib.rs:94-142 | The three checks in order: refusal kind, remaining and requested amounts, and untouched counters; or the counters raised and the remainders after them |
| InMemoryLimiter.Limiter.TakeReservation | crates/generation-quota-limiter/src/lib.rs:156-173 | The first half of a reconciliation: the reservation is gone, and the refund is what it held beyond the actual tokens |
| InMemoryLimiter.Limiter.RefundTokens | crates/generation-quota-limiter/src/lib.rs:175-180 | The second half lowers whatever window the key has by then |
| ProtocolSafety.ReachableIsSafe | crates/inference-engine/src/main.rs:143-250 | In every reachable state of any engines and frontends, with crashes, redelivery, lost replies and lost leases: an acknowledged job has a terminal event in its log; a job with a terminal event has no open reservation; status `completed` implies a terminal event; every published entry is in exactly one of undelivered, pending and acknowledged |
| ProtocolSafety.StepIsSafe | crates/inference-engine/src/main.rs:182-307 | The inductive invariant behind it is kept by every action, and the store only grows |
| ProtocolSafety.AdvanceIsOk | crates/inference-engine/src/main.rs:188-250 | At each step of `run_job` a terminal event is appended only after the settlement, and an entry is acknowledged only with a terminal event in the log |
| ProtocolSafety.NothingIsTakenBack | crates/inference-streams/src/lib.rs:193-248 | Between any two states of a run: time, stream, acknowledgements and every result log only grow, and settled reservations stay settled |
| ProtocolTerminals.TerminalsWithinDeliveries | crates/inference-engine/src/main.rs:188-250 | In every reachable state a request has at most as many terminal events as its entry had deliveries |
| ProtocolTerminals.OnceIffDeliveredOnce | crates/inference-engine/src/main.rs:188-225 | At most one terminal event is guaranteed for entries delivered at most n times if and only if n is at most 1 |
| ProtocolTerminals.FailedTwice | crates/inference-engine/src/main.rs:188-200 | A run in which two engines both find the job past its deadline and each publish a failure |
| SingleTerminal.OnceIffGuarded | crates/inference-engine/src/main.rs:188-225 | Guards on a run, about one entry: its job is never found past its deadline; it is handed out only while no engine serves it; once its terminal event is there, the status is seen completed.  Every run that keeps a set of these has at most one terminal event if and only if the set is all three |
| SingleTerminal.GuardedIsOnce | crates/inference-engine/src/main.rs:182-250 | The three guards together are enough, in every run |
| SingleTerminal.CompletedTwice | crates/inference-engine/src/main.rs:218-225 | A run, in time, in which two engines each publish a completion: one stalled between release and settlement |
| SingleTerminal.CompletedAgain | crates/inference-streams/src/lib.rs:196-246 | A run, in time and with no two engines at once, with two completions: the first engine crashed between the event and the status |
| SingleTerminal.CompletedThenFailed | crates/inference-engine/src/main.rs:188-200 | A run in which a finished job is found late and failed |
| ProtocolStatus.CompletedUnlessReopened | crates/inference-engine/src/main.rs:201-218 | In a reachable state that shows a request completed, no engine waiting for a live lease on it: every continuation shows it completed as long as its status lives, if and only if its frontend is past queueing and no engine is about to start, or in, an attempt at it |
| ProtocolStatus.StaysCompleted | crates/inference-streams/src/lib.rs:193-248 | Such quiet requests stay quiet and completed along every path, while the status lives |
| ProtocolStatus.QueueReopens | crates/inference-streams/src/lib.rs:152-168 | A frontend that has not noted `queued` yet can take `completed` away without time passing |
| ProtocolStatus.EngineReopens | crates/inference-streams/src/lib.rs:214-214 | So can an engine that is in an attempt, or is about to get the lease |
| ProtocolStatus.CompletedThenQueued | crates/inference-streams/src/lib.rs:136-169 | A reachable state shows `completed` and the dispatching frontend's next step makes it `queued` |
| ProtocolStatus.CompletedThenRunning | crates/inference-streams/src/lib.rs:214-214 | A reachable state shows `completed` and the next note of an attempt that lost its lease makes it `running` |
| ProtocolCharges.UnchargedIff | crates/inference-streams/src/lib.rs:609-621 | In every run, a request is charged nothing if and only if a cancellation by its own frontend, or by an engine that found it late, came while its reservation was open |
| ProtocolCharges.SettledAtIff | crates/inference-engine/src/main.rs:220-250 | In every run, a request is settled at a number of generated tokens if and only if an engine settled it while its reservation was open: with the count of an attempt that succeeded, or 0 for one that failed |
| ProtocolCharges.ChargedAsCounted | crates/inference-engine/src/main.rs:221-224 | In every run, a settlement of a succeeded attempt that finds the reservation open leaves the request charged, for good, one request, its prompt and the smaller of the reserved and the generated tokens; of a failed one, no generated tokens |
| ProtocolCharges.PublishedAsCounted | crates/inference-engine/src/main.rs:220-250 | In every run, the same engine's next step publishes the completion with the very prompt and generated counts and finish reason it settled, or the failure |
| ProtocolCharges.UnansweredIsCalledOff | crates/inference-frontend/src/main.rs:348-358 | A publication that fails, or whose reply is lost at either of its two commands, leaves its frontend before a cancellation, and one that is answered does not |
| ProtocolCharges.ChargedByTheFirst | crates/inference-engine/src/main.rs:221-225 | A run in which one attempt's count is charged and another's is published |
| ProtocolCharges.ChargedIfHeard | crates/inference-frontend/src/main.rs:348-358 | A job that is never found late and never called off is charged its request, its prompt and no more tokens than it reserved |
| ProtocolCharges.CompletedUncharged | crates/inference-frontend/src/main.rs:348-358 | A run in which the dispatch's reply is lost, the quota is cancelled, and the request completes for nothing |
| ProtocolStatus.StatusNamesItsEvents | crates/inference-streams/src/lib.rs:209-246 | In every reachable state a status names an attempt that wrote to the request's log and a terminal event that is one, and a completed status names its terminal event |
| ProtocolTiming.LeasedAtMost | crates/inference-streams/src/lib.rs:307-345 | In every reachable state no request is leased for longer than a lease length from now |
| ProtocolTiming.LeaseTakenFor | crates/inference-streams/src/lib.rs:307-318 | A lease taken, with no live one there, lives for exactly the lease length |
| ProtocolTiming.LeaseRenewedFor | crates/inference-streams/src/lib.rs:333-345 | A renewal by the owner makes it live for exactly the lease length from then, and one that is answered ends the count of missed ones |
| ProtocolTiming.BlockedAtMost | crates/inference-streams/src/lib.rs:333-345 | In every run, an owner that is gone, after a crash say, blocks a takeover for no longer than a lease length, whatever happens meanwhile |
| ProtocolTiming.TakenOverStale | crates/inference-streams/src/lib.rs:429-441 | In every run, an entry is only taken over at least the idle time after its last delivery |
| ProtocolTiming.StaleAfter | crates/inference-streams/src/lib.rs:429-441 | And an idle engine may take it over from exactly that time on |
| ProtocolTiming.LateAfter | crates/inference-engine/src/main.rs:188-188 | A job is found late exactly from the first millisecond after its deadline, and never without one |
| ProtocolTiming.CompletedFor | crates/inference-streams/src/lib.rs:215-219 | A request marked completed shows so for exactly the retention time, and names the event that ended it and its author |
| ProtocolTiming.RunningFor | crates/inference-streams/src/lib.rs:215-219 | One noted as running shows so for exactly the active time, and names its attempt and any terminal event named before |
| ProtocolTiming.QueuedFor | crates/inference-streams/src/lib.rs:162-165 | So does one noted as queued, which names what it named before |
| LeaseBlocks.LogsInBlocks | crates/inference-engine/src/main.rs:208-302 | In every run in which no attempt loses its lease before releasing it, the AttemptStarted and Token events of each request form one block per attempt, opened by its only AttemptStarted |
| LeaseBlocks.BlocksAreContiguous | crates/inference-engine/src/main.rs:278-302 | Between two events of an attempt every event is that attempt's and none is an AttemptStarted |
| LeaseBlocks.NoRenewalAfterRelease | crates/inference-engine/src/main.rs:213-218 | From its release on, an attempt's owner never again owns any lease |
| LeaseBlocks.AloneOnRequest | crates/inference-streams/src/lib.rs:307-345 | Two attempts that hold their leases work on different requests |
| Heartbeat.LeaseIsKept | crates/inference-engine/src/main.rs:252-276 | If k+1 heartbeat cycles (reply, sleep, send) are shorter than the lease, no attempt that misses at most k renewals in a row ever loses it, in punctual runs of any length |
| Heartbeat.KeptIffFastEnough | crates/inference-engine/src/main.rs:252-276 | That bound is exact: leases are kept in all punctual runs if and only if it holds |
| Heartbeat.DefaultsKeepBlocks | crates/inference-engine/src/main.rs:262-262 | With a 60 s lease and the 20 s heartbeat, at most one missed renewal in a row and under 10 s for a command's two legs together, every result log is in blocks |
| EngineLoop.System.RunJob | crates/inference-engine/src/main.rs:182-250 | A job is left pending if and only if it is on time, not completed and another attempt's lease lives; otherwise it is ready to acknowledge, with exactly the stated events appended; an open reservation is settled at the generated count that the completion event reports, or at 0 with a failure event; other requests are untouched |
| EngineLoop.System.ExecuteAttempt | crates/inference-engine/src/main.rs:278-361 | Appends AttemptStarted and then every token with counts from 1, under the attempt's id, and changes neither lease nor ledger |
| EngineLoop.TokensAre | crates/inference-engine/src/main.rs:343-352 | One token event for each text, in order, with counts 1, 2 and so on |
| EngineLoop.System.FailExpired | crates/inference-engine/src/main.rs:188-200 | Cancels the reservation and appends the deadline failure in the engine's name |
| EngineLoop.System.CloseAttempt | crates/inference-engine/src/main.rs:216-250 | From wherever the heartbeat stands, and whether or not the lease was lost: its own lease is gone and another's untouched, an open reservation settled at the attempt's generated count, or 0 if it failed, and the terminal event appended with that count |
| EngineLoop.OnePass | crates/inference-engine/src/main.rs:143-173 | One pass of the loop acknowledges one entry not acknowledged before, and takes one off undelivered plus pending |
| EngineLoop.Drain | crates/inference-engine/src/main.rs:143-174 | From any reachable state that is ready for it, and with any pauses between its passes, the loop ends with every entry ever published acknowledged, each with a terminal event and no open reservation |
| EngineLoop.WaitingMakesDrainable | crates/inference-streams/src/lib.rs:429-441 | Every reachable state becomes ready by restarting the engine and letting time pass |
| ResultReaders.ResultSubscription.Next | crates/inference-streams/src/lib.rs:460-493 | Up to four tries; the cursor moves exactly when an entry is returned, to that entry |
| ResultReaders.AnsweredByFirstReply | crates/inference-streams/src/lib.rs:460-493 | A call returns the first entry after the cursor if its first try that does not just reconnect is a reply that has one, nothing if that reply has none, and fails if it is an error or there is none |
| ResultReaders.BrokenIff | crates/inference-streams/src/lib.rs:481-489 | A call fails if and only if no try is answered before one that cannot go on |
| ResultReaders.ServedToTheEnd | crates/inference-frontend/src/main.rs:441-518 | A reader whose reads each find the entry they wait for, often enough, gets to the terminal event |
| ResultReaders.EveryEventIsSent | crates/inference-frontend/src/main.rs:460-505 | Each event but AttemptStarted is sent in its place with its own id and attempt: a token with its text and count, a completion with its counts and reason, a failure with its message and code |
| ResultReaders.FailureIsStreamed | crates/inference-frontend/src/main.rs:405-407 | Both readers tell a failure by the same message |
| ResultReaders.ReadsNext | crates/inference-streams/src/lib.rs:460-493 | Whatever was appended meanwhile and however many tries failed, an entry returned is the first one of the final log after the cursor |
| ResultReaders.StreamGeneration | crates/inference-frontend/src/main.rs:441-518 | What is sent is a gap-free, duplicate-free segment of the log after the cursor without AttemptStarted events, and the stream ends exactly with the first terminal event, or with the first timeout or failed read |
| ResultReaders.ThroughIsFixed | crates/inference-streams/src/lib.rs:250-272 | Replay determinism: once the log has a terminal event after the cursor, what a reader sees through it does not depend on later appends |
| ResultReaders.ResumeCompletes | crates/inference-frontend/src/main.rs:441-518 | Disconnecting at any event that is not terminal and resuming after its id gives in total the undisturbed sequence |
| ResultReaders.CollectGeneration | crates/inference-frontend/src/main.rs:383-424 | A timeout or failed read that comes first is reported; otherwise the answer is the verdict of the log through its first terminal event |
| ResultReaders.UnaryIsStreaming | crates/inference-frontend/src/main.rs:383-505 | When attempts do not overlap and the last one completes, the unary text is the concatenated deltas of that attempt's id, with the same count and finish reason |
| ResultReaders.AgreeIff | crates/inference-frontend/src/main.rs:399-401 | Collector and stream agree for all token texts if and only if the tokens the collector kept are exactly that attempt's |
| ResultReaders.OverlapIsMixed | crates/inference-frontend/src/main.rs:399-401 | With overlapping attempts the unary text mixes both |
| ResultReaders.OverlapHappens | crates/inference-engine/src/main.rs:213-216 | A run with a lost lease whose log overlaps, and whose unary text is not the completing attempt's |
| ResultReaders.LeasedLogsAreInBlocks | crates/inference-engine/src/main.rs:208-302 | Runs in which no lease is lost give logs whose attempts do not overlap before the first terminal event |
| Envelope.StreamReader.Feed | crates/inference-frontend/src/bin/connect_smoke.rs:152-180 | A chunk adds exactly the envelopes it completes, or stops at the first that does not decode or ends the stream |
| Envelope.ReadStream | crates/inference-frontend/src/bin/connect_smoke.rs:145-185 | For every chunking the reader ends with the meaning of the joined bytes |
| Envelope.DecodeInTwo | crates/inference-frontend/src/bin/connect_smoke.rs:153-179 | Decoding bytes cut anywhere, with the rest held back, equals decoding them at once |
| Envelope.BigEndianDigits | crates/inference-frontend/src/main.rs:599-599 | The four bytes of the length, most significant first |
| Envelope.EndFlagIsBit | crates/inference-frontend/src/bin/connect_smoke.rs:164-164 | The end of a stream is the second lowest bit of the flags |
| Envelope.UndecodableFirst | crates/inference-frontend/src/bin/connect_smoke.rs:163-166 | A payload that does not decode fails as such, whatever its flags |
| Envelope.RoundTrip | crates/inference-frontend/src/main.rs:595-602 | Reading back any list of envelopes gives the payloads before the first end-stream flag; it fails exactly if there is one, and otherwise the buffer is empty |
| Envelope.PrefixEmitsComplete | crates/inference-frontend/src/bin/connect_smoke.rs:154-179 | After any byte prefix exactly the complete envelopes were emitted and the beginning of the next one is held back |
| Envelope.SurvivesIffShort | crates/inference-frontend/src/main.rs:599-599 | A payload survives the trip if and only if its length fits 32 bits |
| EventStream.StreamChunks | crates/inference-engine/src/main.rs:397-454 | Published tokens and usage equal folding the newline-terminated lines of the whole text, for every split into chunks; it fails if and only if a line does not parse or the transfer breaks |
| EventStream.TextsArePublished | crates/inference-engine/src/main.rs:431-447 | What is published is, for each event in turn, its text if it has one, with the count of the events through that one, and nothing else |
| EventStream.LastReportedUsage | crates/inference-engine/src/main.rs:411-430 | The finish reason and the prompt count are the last reported ones, or none |
| EventStream.DataIff | crates/inference-engine/src/main.rs:403-407 | A line carries an event if and only if it is the prefix and the data among white space, the data neither empty nor the end mark |
| EventStream.FailsThere | crates/inference-engine/src/main.rs:408-409 | A line that does not parse ends it, and what was published before it stays published |
| EventStream.LinesAreTheText | crates/inference-engine/src/main.rs:402-404 | The lines, each with its newline, and the tail make up the text |
| EventStream.WeightIsLeast | crates/inference-engine/src/main.rs:438-438 | A text weighs the least count that is at least its words and at least 1 |
| EventStream.DrainLines | crates/inference-engine/src/main.rs:402-450 | Takes every complete line of the buffer and leaves the text after the last newline |
| EventStream.LinesInTwo | crates/inference-engine/src/main.rs:401-404 | The lines of a text cut anywhere are the lines of the first part and those of its tail with the second |
| EventStream.CountIsLastReportAndLater | crates/inference-engine/src/main.rs:410-439 | The final count is the last reported one, or 0, plus the weight of the texts in that event and later ones |
| EventStream.LinesAreEvents | crates/inference-engine/src/main.rs:405-439 | Folding lines that all parse is folding the events they carry |
| Varint.Write | scripts/k6-connect.js:177-186 | Writes the base 128 encoding of the number cut to 32 bits |
| Varint.DigitsOf | scripts/k6-connect.js:177-186 | Each byte has the base 128 digit of its place and the top bit exactly if another follows, and there are no more bytes than needed |
| Varint.GuideExamples | scripts/k6-connect.js:169-175 | The two examples of the encoding guide come out byte for byte |
| Varint.ReadVarint | scripts/k6-connect.js:151-163 | Reads a varint of at most ten bytes, or nothing |
| Varint.RoundTrip | scripts/k6-connect.js:151-186 | Below 2^32, reading inverts writing at any offset, whatever follows |
| Varint.ReadVarintField | scripts/k6-connect.js:114-131 | Ends on any bytes, with the result of the search |
| Varint.GivesUp | scripts/k6-connect.js:118-148 | A key that cannot be read, or a field of another wire type, ends the search with 0 |
| Varint.FindsFirst | scripts/k6-connect.js:114-149 | On any concatenation of well-formed fields the search returns the first varint field of that number, or 0 |
| Text.WordsAreAll | crates/inference-engine/src/main.rs:512-514 | Splitting on white space leaves no word out, cuts none and joins none |
| Text.TrimParts | crates/inference-engine/src/main.rs:405-405 | Trimming removes white space at both ends, all of it, and nothing else |
| TokenBudget.Truncate | crates/token-budget-engine/src/lib.rs:186-226 | Drops the fewest oldest messages so that the rest fits; drops none exactly when strict admits (or there are none); rejects exactly when 2 plus the output exceeds the context |
| TokenBudget.CountIsLeast | crates/token-budget-engine/src/lib.rs:97-101 | A text counts the least number that is at least 1, its words, and a quarter of its characters |
| TokenBudget.MessagesAddUp | crates/token-budget-engine/src/lib.rs:82-95 | Messages add up, each its role, its content and 4; a chat counts 2 more, a plain prompt its text |
| TokenBudget.RequestedIsGreatest | crates/token-budget-engine/src/lib.rs:115-118 | What is asked for is the greatest number within the model's maximum and the request's bound, or the default without one |
| TokenBudget.FewestIsUnique | crates/token-budget-engine/src/lib.rs:195-202 | Only one number of dropped messages meets that description |
| TokenBudget.TruncatedOnce | crates/token-budget-engine/src/lib.rs:195-202 | Truncating a truncated prompt drops nothing more |
| TokenBudget.MoreRoomDropsFewer | crates/token-budget-engine/src/lib.rs:195-202 | A larger context never drops more messages |
| TokenBudget.StrictIsOutputFirst | crates/token-budget-engine/src/lib.rs:127-184 | With this counter the strict and the output-first policy decide every request alike, reason text apart |
| TokenBudget.PoliciesAgreeIff | crates/token-budget-engine/src/lib.rs:127-184 | For any counts the two agree if and only if the prompt counts at least 1 or the output fits alone |
| TokenBudget.Decide | crates/token-budget-engine/src/lib.rs:104-125 | The two errors exactly for a zero limit; otherwise admitted if and only if prompt and output fit, never beyond the model's maximum, under each policy, with the reason each policy gives |
| Admission.Admit | crates/inference-frontend/src/main.rs:267-381 | Exactly when a request is accepted, refused as malformed, as for another model, or over quota, or fails to dispatch; an accepted one fits the context and the very number sent to the runtime is the one reserved |
| Admission.EngineReadsWhatWasCounted | crates/inference-engine/src/main.rs:501-510 | The prompt the engine reads is the one the frontend counted: the messages if there are any, the plain prompt only without them |
| Admission.JoinedInTwo | crates/inference-engine/src/main.rs:503-507 | Contents are joined in order with a line break between any two |
| Admission.CancelUndoesReserve | crates/inference-frontend/src/main.rs:348-358 | A reservation cancelled on the spot adds nothing to any bucket's charge; its own bucket's counters then read what they read now for another 120 s |
| Admission.ProlongedIff | crates/inference-streams/src/lib.rs:587-592 | That differs from never having reserved if and only if the counters held something and it is between their old expiry and the new one |
| Admission.StreamSynthetic | crates/inference-engine/src/main.rs:330-361 | Publishes the first words with counts 1 to n, n the smaller of the number of words and the maximum |
| Admission.Generate | crates/inference-engine/src/main.rs:220-225 | From admission to settlement, with any other ledger operations in between: published tokens never exceed the reservation, and the final charge is exactly what was published if and only if it settles within 120 s or published everything it reserved |
| HostAgent.NoProcessOrphaned | controlplane/internal/hostagent/agent.go:43-179 | Over every interleaving, each process ever started is tracked, has exited or was signalled, and at most one per model is neither gone nor signalled |
| HostAgent.StepKeepsOk | controlplane/internal/hostagent/agent.go:43-179 | Every critical section keeps that, and forgets no process |
| HostAgent.StopAllStopsSnapshot | controlplane/internal/hostagent/agent.go:152-162 | When StopAll is through, every process tracked at its snapshot has exited or was signalled, whatever else went on |
| HostAgent.TimeoutStopsOwnIff | controlplane/internal/hostagent/agent.go:93-118 | In every run, a timed-out EnsureModel stops the process it started if and only if no other stop and no later start of that model came between the start and the timeout |
| HostAgent.TrackedUntilDisplaced | controlplane/internal/hostagent/agent.go:43-179 | In every run, a tracked process stays tracked until the first stop or later start of its model, and is never tracked again |
| HostAgent.Agent.StopAll | controlplane/internal/hostagent/agent.go:152-162 | With nothing in between, it leaves no model tracked |
| HostAgent.TimeoutStopsAnother | controlplane/internal/hostagent/agent.go:117-117 | A run in which it stops the process of a later start |
| HostAgent.Agent.Ensure | controlplane/internal/hostagent/agent.go:48-95 | The first section: a running process is to be probed, otherwise one is started and tracked unless the port answers or the start fails |
| HostAgent.Agent.Confirm | controlplane/internal/hostagent/agent.go:52-61 | Marks the probed process ready exactly if it is still the tracked one |
| HostAgent.Agent.StopOwned | controlplane/internal/hostagent/agent.go:164-179 | Untracks the model's process and signals it unless it was reaped; nothing is orphaned |
| HostAgent.SignalledIff | controlplane/internal/hostagent/agent.go:167-177 | A stop signals the model's tracked process if and only if that was not reaped, and no other |
| HostAgent.SectionsAreReported | controlplane/internal/hostagent/agent.go:43-179 | After each section a status request reports its model as starting, ready, draining or stopped accordingly, and every other model as before |
| HostAgent.Agent.Status | controlplane/internal/hostagent/agent.go:121-132 | Reports untracked and reaped processes as stopped, and notes the latter |
| HostAgent.Agent.Drain | controlplane/internal/hostagent/agent.go:134-143 | Marks the tracked process draining and changes nothing else |

## Left out

- Connections, RESP reply shapes, reconnecting and backoff delays: every broker command and script is one atomic step, and a lost reply is a step that took effect without being reported.
- Undecodable payloads: every published job and result decodes, and the schema version is always 1.
- JSON, protobuf and SHA-256: payloads are values, parsing and decoding are parameters, keys are injective; UUIDs are fresh numbers.
- Lua and JavaScript numbers beyond 2^53: counters and varints are exact integers.
- InMemoryLimiter.SameVerdicts: an id that is gone counts as a refund of 0 on both sides, where the limiter reports it as missing; ReconcileSimulates says exactly when it does.
- EngineLoop.Drain: no time passes within a pass and other processes stand still, because fairness is not modelled; WaitingMakesDrainable says how to get to such a state.
- ProtocolStatus.CompletedUnlessReopened: leaves open the states in which an engine waits for a live lease; whether it gets it before the status expires is a matter of time.
- EngineLoop.System.RunJob: runs alone, with no time passing and no publication failing; every interleaving, failure and crash of its steps is in the protocol's runs.
- EngineLoop.OnePass: runs alone, as RunJob does.
- EngineLoop.System.ExecuteAttempt: counts tokens from 1 as the synthetic backend does; the counts of the other backend are in EventStream. A publication that fails part-way is a crash or a failed attempt in the protocol's runs, not here.
- EngineLoop.TakeEntry: reclaims the smallest pending entry; the protocol's runs may reclaim any stale one, and XAUTOCLAIM's scan of a few entries at a time is not modelled.
- Expiry of result logs: logs are kept as history, so `unknown or expired` subscriptions are not modelled.
- One clock for frontends, engines and broker; RateLimit's results on late scripts are stated on the broker's clock.
- Zero durations: a lease of 0 ms and a retention of 0 s are refused by the broker or delete at once; results that need it say so.
- EventStream.StreamChunks: takes chunks split at character boundaries, where the engine decodes each chunk lossily; what lossy decoding makes of a split character is not modelled.
- Overflow of machine words in the token budget and of the engine's token counts: those are unbounded numbers here.
- TokenBudget.StrictIsOutputFirst: does not compare the reason text, which differs between the policies.
- Latencies, live printing and the terminal flag in the smoke client; the load script's own envelope walk.
- Authentication, HTTP routing, configuration, catalog checks, Temporal workflows, Kubernetes manifests and log files: plumbing without a hard property.
- ResultReaders.StreamGeneration: the error envelopes after a timeout or a failed read are the values of its `ending`, not bytes.
