# Verified model of the Polymarket C++ SDK core

A Dafny model of the parts of the SDK where a mistake costs money or silently
loses a message:

- **Exact money arithmetic** (`pm/amounts.cpp`). Decimal literals are scanned
  into digits and an exponent and rounded on the digit string; three order
  builders and a final price check work on the results. The methods on digit
  strings refine functions on naturals (`Decimals`, `Amounts`), and the laws are
  number theory about those functions (`AmountLaws`).
- **The reconnecting websocket client** (`net/ws_client.cpp`) with its
  generation-scoped write queue (`net/ws_write_queue.hpp`). All handlers run on
  one strand, so the client is a state machine with atomic steps (`WsModel`).
  Outstanding asynchronous operations carry the generation they captured and
  may complete in any order, with any result, however stale. The invariant
  (`WsInvariant`) holds after every possible run; `WsLaws` and `WsResume` state
  what follows. `WsEffects` says what each event does to a client some run reaches,
  and `WsCauses` traces states back to the events alone: what may stop a client or
  drop a message, and which delay every reconnect waits. The object with its fields
  updated in place (`WsClientObject`, `WriteQueue.WsWriteQueue`) refines the machine
  handler by handler.
- **The user feed** (`pm/user_ws.cpp`): subscription deltas and what replaying
  retained operations after a reconnect does to the server's set (`UserFeed`),
  a JSON writer and a reader that knows no field of the feed (`Json`), the feed's
  texts and what the server finds in them by key (`UserFrames`), and the feed on
  top of its client as one machine (`UserSession`), whose runs are proved to hand
  every connection the full subscription first and then the operations
  (`WsSession`, `UserSession`). `UserReopening` ties what each connection is told
  first to the set last asked for. `WsProgress` and `UserProgress` show that client
  and feed can always get through, and `UserLosses` gives the runs that settle on
  the wrong set. `UserWsObject` is the wrapper object; its states are reached ones.
- **The no-replay retry loop** for signed writes (`net/http_client.cpp`) against
  any behaviour of the network (`HttpClient`).
- **The query printer** (`pm/account_rest.cpp`) and the parser that inverts it
  (`AccountQuery`, `AccountTargets`; sections 2.1, 2.3 and 3.4 of RFC 3986).

`dafny verify dfyconfig.toml` checks everything. `{:induction false}`
stands on every lemma to which Dafny would apply automatic induction, so each
proof is what its body says.

## How the surroundings enter

- A double is `NotFinite`, `Negative`, or the decimal literal it prints as
  (`Amounts.Number`); scanning starts from the text of an arbitrary well-formed
  literal. The number a tick's text is read as is any literal of the tick's value,
  such as 1e-04 (`Amounts.Denotes`).
- Sockets, timers and DNS are the multiset `pending` of outstanding operations.
  A cancelled timer may still fire, because its handler can already be queued; a
  reconnect wait that nobody cancelled ends without an error.
- The failure policy's verdict, the hash seed of the jitter and the TLS setup
  result are free inputs of each step (`WsModel.Env`). Application callbacks may
  queue a priority frame, kick or stop (`WsModel.Action`); a plain `send` from a
  callback is posted, so it is a step of its own.
- The identity of a shared payload is a fresh number allocated by the queue.
- The network of an HTTPS attempt is any function from attempt numbers to
  connect, write and read results. The number of bytes a failed write reports is
  taken to be the number that left: `HttpClient.NoReplay` rests on that report.
- A feed call computes its operations at once and posts their texts; the strand
  runs posted sends later, in order, between any other events. Calls of the
  wrapper are serialised. The connection flag a call saw is a free input, so it
  may be out of date.
- A feed text escapes quotes, backslashes and the five short control characters;
  other characters are copied. A text that is no frame, such as the keepalive,
  leaves the server's set alone.
- Generations are unbounded naturals, and C `int` exponents do not wrap; the
  64-bit and 256-bit ranges of the amounts are modelled exactly.

## Where the code and its comments differ

- `net/http_client.hpp` says the write-once variant never retries. The code
  makes a second attempt when a write failed with nothing sent
  (`HttpClient.RetriesExactlyWhenUnsent`); the promise behind the comment, that
  a request is never put on the wire twice, holds (`HttpClient.NoReplay`).
- The tick-bound failure of the protected buy can never be thrown
  (`AmountLaws.TickBoundUnreachable`).
- The final check can refuse amounts the protected builder derived, below a cash
  cap of 10^(4-P) cents (`AmountLaws.FinalCheckCanRefuse`). The exact condition is
  in `AmountLaws.FinalCheckIffRemainder`.
- Replaying retained subscription operations is not always harmless: a change of
  the desired set made while disconnected can be undone
  (`UserLosses.OfflineChangeLostInARun`). The exact condition, for every history,
  is in `UserFeed.ConnectionConverges`, and over the client's runs in
  `UserSession.FeedSettles`.
- A change is recorded as active before the queue may refuse its text, and is then
  lost without a trace (`UserLosses.RefusedChangeLostInARun`). What is served
  nevertheless, and when it is the active set, is in
  `UserSession.SettledServesWhatWasTaken` and `UserSession.SettlesExactly`.
- The general HTTPS loop sends a request at most once exactly when no retry is
  allowed (`HttpClient.SentOnceExactlyWithoutRetries`).

## Model

| member | source | states |
|---|---|---|
| `Decimals.ParseInt` | pm/amounts.cpp:70-76 | an exponent is read only if it spans the whole text and fits an int |
| `Decimals.AddExponent` | pm/amounts.cpp:66-79 | the exponent part after its marker, with an optional plus, is added to the scale or refused |
| `Decimals.Scan` | pm/amounts.cpp:62-88 | the one-pass loop collects exactly the mantissa digits, the fraction length and the exponent |
| `Decimals.ScanLiteral` | pm/amounts.cpp:54-88 | scanning the text of any literal gives all its digits and its exact scale, or the exponent error exactly when the exponent leaves the int range |
| `Decimals.ParseU64` | pm/amounts.cpp:112-115 | reading back succeeds exactly for numbers below 2^64 |
| `Decimals.DropDigits` | pm/amounts.cpp:103-111 | cutting digits keeps the floor, and the digit test for the extra unit agrees with the arithmetic remainder, also when more places are dropped than there are digits |
| `Decimals.Scaled` | pm/amounts.cpp:91-119 | the digit-string rounding is the rounded integer when it fits 64 bits, otherwise overflow |
| `Decimals.LiteralRounding` | pm/amounts.cpp:62-119 | for every literal, places and mode: scan then scale is the unique floor, ceiling or half-up rounding of the value, and overflow exactly when that leaves 64 bits |
| `Rounding.RoundDivMeaning` | pm/amounts.cpp:45-45 | the three modes mean greatest integer not above, least not below, and closest with halves up |
| `Rounding.RoundDivMonotone` | pm/amounts.cpp:91-119 | rounding in every mode respects the order of fractions |
| `Amounts.TickSet` | pm/amounts.cpp:19-30 | the supported ticks are exactly the six listed texts |
| `Amounts.TickTable` | pm/amounts.cpp:19-30 | every supported tick has two size digits and amount = price + 2 digits |
| `Amounts.TickText` | pm/amounts.cpp:19-30 | a tick's text is "0." and as many digits as its price has places, and those digits read as its increment |
| `Amounts.TickDenotesItself` | pm/amounts.cpp:212-213 | the tick's own digits, scaled by its places, are a literal of the tick's value |
| `AmountLaws.PriceAcceptance` | pm/amounts.cpp:128-133 | a price is accepted exactly when it is a finite number from zero to one, in the order of numbers |
| `Amounts.TokenUnits` | pm/amounts.cpp:121-126 | the pre-check refuses exactly when the product leaves 64 bits |
| `Amounts.Power10` | pm/amounts.cpp:135-141 | the loop computes the power of ten |
| `Amounts.DivideDown` | pm/amounts.cpp:143-154 | long division on digits: digits out, remainder within 64 bits, quotient the floor |
| `Amounts.DecimalOf` | pm/amounts.cpp:47-89 | digits and exponent denote the number; not finite and negative are refused |
| `Amounts.TickIncrement` | pm/amounts.cpp:212-213 | any literal of the tick's value, rounded to its price digits, is one increment (1, 5 or 25 units) |
| `Amounts.FinestTickPrinted` | pm/amounts.cpp:212-213 | 1e-04 is such a literal for the finest tick |
| `Amounts.ReadPriceDigits` | pm/amounts.cpp:197-198 | the price's digits as an integer, overflow beyond 64 bits |
| `Amounts.RoundCash` | pm/amounts.cpp:199-203 | whole cents rounded up from the exact wide product |
| `Amounts.DeriveLimit` | pm/amounts.cpp:183-189 | the product stays within 256 bits and yields the limit amounts |
| `Amounts.OrderAmounts` | pm/amounts.cpp:171-190 | the text builder refines the limit order on naturals, errors included |
| `Amounts.MarketBuyAmounts` | pm/amounts.cpp:192-204 | the text builder refines the marketable buy on naturals, errors included |
| `Amounts.ProtectionUnits` | pm/amounts.cpp:212-215 | the protection price floored to a whole tick |
| `Amounts.DeriveTokens` | pm/amounts.cpp:225-230 | the string division's call site meets its bound and yields the floored token amount |
| `Amounts.CheckTickBound` | pm/amounts.cpp:231-243 | the positivity and tick-bound tests in exact integers |
| `Amounts.DeriveProtected` | pm/amounts.cpp:219-243 | the derivation from floored shares and protection |
| `Amounts.ProtectedMarketBuyAmounts` | pm/amounts.cpp:206-244 | the text builder refines the protected buy on naturals, errors included |
| `Amounts.ValidateProtectedMarketBuyPrice` | pm/amounts.cpp:246-268 | the final check refines its form on naturals |
| `AmountLaws.UnitsMonotone` | pm/amounts.cpp:91-119 | rounding to any places respects the order of numbers |
| `AmountLaws.LimitCashExact` | pm/amounts.cpp:181-186 | no rounding happens in the cash step: cash·10^P = tokens·price units, and cash ≤ tokens |
| `AmountLaws.LimitOrderOutcome` | pm/amounts.cpp:171-190 | the exact pair for every input, with the places counted on the tick's text, swapped between sides; overflow exactly when tokens leave 64 bits |
| `AmountLaws.MarketBuyOutcome` | pm/amounts.cpp:192-204 | cash is the least whole-cent amount covering the floored shares, at most the tokens; overflow exactly when tokens or price digits leave 64 bits |
| `AmountLaws.MarketBuyMonotone` | pm/amounts.cpp:192-204 | more size or a higher price never lowers either amount |
| `AmountLaws.DerivedWithinTick` | pm/amounts.cpp:225-242 | tokens·pu ≤ cash·scale < tokens·(pu+increment) for every derived pair |
| `AmountLaws.ProtectedFromOutcome` | pm/amounts.cpp:219-243 | closed form of the derivation with its overflow and positivity conditions |
| `AmountLaws.ProtectedBuyOutcome` | pm/amounts.cpp:206-244 | every outcome for a protection in range: overflow, "positive amounts" exactly when the size floors to zero, or a pair within the tick and never below the share target |
| `AmountLaws.TickBoundUnreachable` | pm/amounts.cpp:234-242 | the tick-bound failure cannot be thrown, for any input |
| `AmountLaws.OnTickAgreement` | pm/amounts.cpp:192-244 | on a whole tick whose digits fit 64 bits, whenever the protected buy succeeds the marketable buy succeeds too, with the same cash and at most as many tokens |
| `AmountLaws.Refusals` | pm/amounts.cpp:171-204 | which input is refused with which error, both ways |
| `AmountLaws.ProtectionMeaning` | pm/amounts.cpp:212-215 | the protection is the greatest whole number of ticks the price reaches |
| `AmountLaws.RangeMeaning` | pm/amounts.cpp:216-218 | the protection is in range exactly when the price is at least one tick and not one |
| `AmountLaws.ProtectedRefusals` | pm/amounts.cpp:206-219 | the refusals of the protected buy in terms of the price, both ways |
| `AmountLaws.FinalCheckRefusals` | pm/amounts.cpp:246-268 | which input the final check refuses with which error, both ways, and that there are no others |
| `AmountLaws.FinalCheckIffRemainder` | pm/amounts.cpp:206-268 | the final check of a derived pair: accepted exactly when (N mod p)·10^(4-P) < N div p, with N the cents times 10^(2P) and p the protection; otherwise the finest-tick error |
| `AmountLaws.FinalCheckThreshold` | pm/amounts.cpp:206-268 | every derived pair with at least 10^(4-P) cents is accepted, so all on four-digit ticks |
| `AmountLaws.FinalCheckCanRefuse` | pm/amounts.cpp:259-267 | 5.07 shares at 0.9 on tick 0.1 derive 4570000 for 5077000, which the check then refuses at the same price and tick |
| `AmountLaws.FinalCheckExact` | pm/amounts.cpp:246-268 | acceptance holds exactly when the ratio is strictly below every grid price above the protection, on every supported tick; the grids include 1 and above |
| `AmountLaws.FinalCheckNextTick` | pm/amounts.cpp:246-268 | acceptance keeps the ratio below the next tick of the given table |
| `WriteQueue.SweepRetained` | net/ws_write_queue.hpp:47-59 | discarding frames never touches a retained message or their order |
| `WriteQueue.RemoveAhead` | net/ws_write_queue.hpp:70-76 | completing an entry behind scoped ones removes exactly it, and the first retained message or none |
| `WriteQueue.BoundsAlways` | net/ws_write_queue.hpp:18-77 | size ≤ capacity and retained ≤ capacity − reserve after any sequence of operations |
| `WriteQueue.RetainedTakenExactly` | net/ws_write_queue.hpp:25-31 | a message is taken exactly while fewer than capacity − reserve entries are queued, and then stands last |
| `WriteQueue.FrameTakesItsPlace` | net/ws_write_queue.hpp:33-45 | an accepted frame stands first if it has priority and last otherwise, with the messages as they were |
| `WriteQueue.RejectionMeansReserveUsed` | net/ws_write_queue.hpp:33-45 | a frame is refused exactly when retained plus own-generation frames fill the capacity, and then at least `reserve` are its own generation's |
| `WriteQueue.WsWriteQueue.constructor` | net/ws_write_queue.hpp:18-23 | the reserve is capped by the capacity |
| `WriteQueue.WsWriteQueue.PushRetained` | net/ws_write_queue.hpp:25-31 | appends below capacity − reserve, else refuses unchanged; keeps the bounds |
| `WriteQueue.WsWriteQueue.EraseIf` | net/ws_write_queue.hpp:47-59 | the erasing loop keeps the order of what stays |
| `WriteQueue.WsWriteQueue.PushConnection` | net/ws_write_queue.hpp:33-45 | sweeps stale frames, then pushes at the asked end or refuses; keeps the bounds |
| `WriteQueue.WsWriteQueue.DiscardConnectionWrites` | net/ws_write_queue.hpp:47-52 | removes the frames of one generation |
| `WriteQueue.WsWriteQueue.DiscardStaleConnectionWrites` | net/ws_write_queue.hpp:54-59 | removes the frames of every other generation |
| `WriteQueue.WsWriteQueue.Front` | net/ws_write_queue.hpp:64-67 | the payload written next |
| `WriteQueue.WsWriteQueue.CompletePayload` | net/ws_write_queue.hpp:70-76 | removes the first entry with that payload, or nothing |
| `WriteQueue.WsWriteQueue.ClearAll` | net/ws_write_queue.hpp:77-77 | empties the queue |
| `WsInvariant.ScheduleKeeps` | net/ws_client.cpp:173-212 | scheduling from an idle client arms one timer or retires the client |
| `WsInvariant.DoWriteKeeps` | net/ws_client.cpp:376-395 | a write hands over the front frame once and makes it the one outstanding write |
| `WsInvariant.ConnectKeeps` | net/ws_client.cpp:214-262 | a new generation starts with one connect step, or goes straight to the backoff |
| `WsInvariant.PerformAllKeeps` | net/ws_client.cpp:315-319 | any callback actions keep the invariant, and end the session only with its generation |
| `WsInvariant.OnOpenedKeeps` | net/ws_client.cpp:301-325 | opening, callbacks and the first write and read keep the invariant |
| `WsInvariant.OnDeadlineKeeps` | net/ws_client.cpp:247-261 | the connect deadline keeps the invariant, stale or not |
| `WsInvariant.OnReadKeeps` | net/ws_client.cpp:352-374 | a read completion keeps the invariant, stale or not |
| `WsInvariant.OnWrittenKeeps` | net/ws_client.cpp:376-395 | a write completion keeps the invariant, stale or not |
| `WsInvariant.StepKeeps` | net/ws_client.cpp:42-395 | every enabled step keeps the invariant |
| `WsInvariant.RunKeeps` | net/ws_client.cpp:42-395 | the invariant holds after every possible run of a new client |
| `WsLaws.ScopedFramesStayHome` | net/ws_write_queue.hpp:13-15 | in every run a scoped frame only reaches the socket of its own generation |
| `WsLaws.RetainedInOrder` | net/ws_client.hpp:98-100 | completed then queued retained messages are the accepted ones in order, identities and texts; only stop drops any; no frame is started twice on a connection |
| `WsSession.AcceptedCarryTheirTexts` | net/ws_client.cpp:102-114 | in every run the accepted messages carry exactly the texts given to the accepted sends, in order |
| `WsResume.HandedWereAccepted` | net/ws_client.cpp:376-395 | every retained frame handed over is an accepted message, text included |
| `WsLaws.WritingMeansOneWrite` | net/ws_client.cpp:376-395 | `writing` exactly when one current write is outstanding; its frame is queued once and completing removes exactly it |
| `WsLaws.NeverStranded` | net/ws_client.cpp:133-374 | a started, unstopped client is in exactly one of session, handshake or backoff, with one read, step or timer; while connected it writes exactly when frames are queued |
| `WsLaws.StoppedForGood` | net/ws_client.cpp:48-73 | after a stop nothing connects, writes, completes or schedules, whatever still arrives |
| `WsEffects.KickLeaves` | net/ws_client.cpp:75-100 | kicking any connected client a run reaches ends the connection under a new generation, keeps every message, and leaves it waiting for its timer or retired by its policy |
| `WsEffects.KickIgnored` | net/ws_client.cpp:75-100 | any other kick changes nothing |
| `WsEffects.FailureLeaves` | net/ws_client.cpp:133-171 | a failed stage, read or write of the current generation does the same as a kick |
| `WsEffects.DeadlineLeaves` | net/ws_client.cpp:247-261 | a handshake out of time ends in the backoff too, never in a stop unless the policy gives up |
| `WsEffects.DeadlineIgnored` | net/ws_client.cpp:247-261 | a cancelled or stale deadline, or one finding the client connected or stopped, does nothing |
| `WsEffects.StaleIgnored` | net/ws_client.cpp:262-395 | a completion of another generation does nothing, whatever its result |
| `WsEffects.StartDials` | net/ws_client.cpp:42-46 | starting resolves the host under a deadline with the queue as it was, or waits to try again |
| `WsEffects.TimerDials` | net/ws_client.cpp:205-211 | so does the reconnect timer |
| `WsEffects.StagesFollow` | net/ws_client.cpp:262-300 | each finished stage is followed by the next and leaves the client in its handshake |
| `WsEffects.HandshakeOpens` | net/ws_client.cpp:301-325 | a finished handshake opens a session of its generation with every message kept and the keepalive armed, when the callback does nothing |
| `WsEffects.FrameContinues` | net/ws_client.cpp:352-374 | an application frame resets the delay to 500 ms and the session reads on, when the callback does nothing |
| `WsEffects.CallbackStops` | net/ws_client.cpp:315-319 | a callback that stops the client leaves it stopped, whatever else it does |
| `WsEffects.CallbackKicks` | net/ws_client.cpp:315-319 | a callback that kicks ends the connection it was called on, whatever else it does |
| `WsEffects.SendQueues` | net/ws_client.cpp:102-115 | a message is accepted exactly while there is room, goes last, and goes out at once on an idle connection |
| `WsEffects.PriorityLeads` | net/ws_client.cpp:117-131 | an accepted priority frame goes first, and out at once on an idle connection |
| `WsEffects.KeepalivePings` | net/ws_client.cpp:336-349 | on a connection the timer queues the keepalive text last, for this connection only, and arms itself again |
| `WsEffects.KeepaliveIgnored` | net/ws_client.cpp:336-349 | otherwise it does nothing |
| `WsEffects.StopEnds` | net/ws_client.cpp:48-73 | a stop disconnects, empties the queue, recording what it drops, and disarms the timer |
| `WsCauses.NothingElseStops` | net/ws_client.cpp:48-261 | in every run without a stop, a stopping callback or a policy that gives up, the client is never stopped |
| `WsCauses.NothingElseDrops` | net/ws_client.cpp:48-73 | and no accepted message is dropped |
| `WsCauses.DelayInEveryRun` | net/ws_client.cpp:183-204 | in every run the delay is min(500·2^k, 30000) for k reconnects scheduled since the last frame read, counted on the events |
| `WsCauses.SchedulesInEveryRun` | net/ws_client.cpp:183-204 | every reconnect of every run was scheduled on that base, and waits the policy's delay or the base plus the jitter of its seed, at most 30 s |
| `WsProgress.CanAlwaysDeliver` | net/ws_client.cpp:247-395 | from every state a started, unstopped client reaches, some continuation ends connected, drained and with every accepted message completed |
| `WsResume.ConnectionsResume` | net/ws_client.cpp:308-324 | each connection carries a contiguous run of the accepted messages from the first uncompleted one, and all of the rest once drained |
| `WsSession.FirstFits` | net/ws_write_queue.hpp:33-45 | with no scoped frame queued the first frame of a connection is never refused and goes ahead of every message |
| `WsSession.StepFronted` | net/ws_client.cpp:308-324 | every step keeps: each opened connection was handed its callback's frame first, and its other scoped frames are keepalives |
| `WsSession.StepQuiet` | net/ws_client.cpp:36-395 | only a send accepts a message and only a completed handshake opens a connection |
| `WsResume.FinishedSessionsLeaveNothing` | net/ws_client.cpp:143-145 | no frame of a finished session stays queued |
| `WsClientObject.WsClient.constructor` | net/ws_client.cpp:24-34 | a new client satisfies the invariant |
| `WsClientObject.WsClient.StopNow` | net/ws_client.cpp:52-69 | refines the stop step |
| `WsClientObject.WsClient.ArmReconnect` | net/ws_client.cpp:173-212 | refines scheduling: policy, jitter, cap and doubling |
| `WsClientObject.WsClient.LeaveConnection` | net/ws_client.cpp:143-170 | refines leaving a connection |
| `WsClientObject.WsClient.KickNow` | net/ws_client.cpp:75-100 | refines the kick step, a no-op unless connected |
| `WsClientObject.WsClient.FailNow` | net/ws_client.cpp:133-171 | refines failure, a no-op when stale or stopped |
| `WsClientObject.WsClient.StartWrite` | net/ws_client.cpp:376-395 | refines starting a write |
| `WsClientObject.WsClient.DoConnect` | net/ws_client.cpp:214-262 | refines starting a connection |
| `WsClientObject.WsClient.RunCallback` | net/ws_client.cpp:315-316 | the callback's actions run in order on the strand |
| `WsClientObject.WsClient.Open` | net/ws_client.cpp:308-324 | refines opening |
| `WsClientObject.WsClient.ConnectStageDone` | net/ws_client.cpp:262-328 | refines each stage of the completion chain |
| `WsClientObject.WsClient.DeadlineDone` | net/ws_client.cpp:247-261 | refines the deadline handler |
| `WsClientObject.WsClient.ReadDone` | net/ws_client.cpp:356-373 | refines the read handler |
| `WsClientObject.WsClient.WriteDone` | net/ws_client.cpp:386-394 | refines the write handler |
| `WsClientObject.WsClient.ReconnectDone` | net/ws_client.cpp:205-211 | refines the reconnect timer handler |
| `WsClientObject.WsClient.KeepaliveDone` | net/ws_client.cpp:336-349 | refines the keepalive handler |
| `WsClientObject.WsClient.Start` | net/ws_client.cpp:42-46 | the start step, invariant kept |
| `WsClientObject.WsClient.Stop` | net/ws_client.cpp:48-73 | the stop step, invariant kept |
| `WsClientObject.WsClient.Kick` | net/ws_client.cpp:75-100 | the kick step, invariant kept |
| `WsClientObject.WsClient.Send` | net/ws_client.cpp:102-115 | the retained send step, invariant kept |
| `WsClientObject.WsClient.SendFirst` | net/ws_client.cpp:117-131 | the priority send step, invariant kept |
| `WsClientObject.WsClient.Deliver` | net/ws_client.cpp:205-395 | any outstanding completion is one step of the machine, invariant kept |
| `UserFeed.Delta` | pm/user_ws.cpp:55-68 | the two lists in order; (active ∪ add) \ remove = desired, add and remove disjoint |
| `UserFeed.DeltaOpsMeaning` | pm/user_ws.cpp:142-145 | a change names exactly the ids whose membership changes and sets them as desired |
| `UserFeed.ServeAllMeaning` | pm/user_ws.cpp:80-88 | only the last operation naming an id decides about it |
| `UserFeed.FeedKeeps` | pm/user_ws.cpp:116-156 | after every history, ids named since the opening are active exactly when last subscribed, and all others are as the opening had them |
| `UserFeed.ReplayExact` | pm/user_ws.cpp:116-146 | replaying from any position leaves a set unchanged exactly when it agrees with the last operation on every id named |
| `UserFeed.ReplayAfterOfflineChange` | pm/user_ws.cpp:116-156 | after every history, opening with any set and replaying what the current connection sent, from any position, leaves that set exactly when it agrees with the active one on every id named |
| `UserFeed.ConnectionConverges` | pm/user_ws.cpp:116-156 | after every history, the opening's set with the operations from any earlier position gives the active set exactly when, for ids named before the opening and not after, the last operation agrees with the opening |
| `UserFeed.NothingLeftOver` | pm/user_ws.cpp:116-146 | with no operation left over at the opening, always the active set |
| `UserFeed.OnlineIsHarmless` | pm/user_ws.cpp:127-146 | with changes made while connected only, any backlog is harmless and the desired set results |
| `UserFeed.OpeningCatchesUp` | pm/user_ws.cpp:116-146 | after an opening and online changes the active set is the desired one, whatever came before |
| `UserFeed.MinusCounts` | pm/user_ws.cpp:55-68 | each list keeps every occurrence of the ids it keeps, and nothing else |
| `UserFeed.MinusOrder` | pm/user_ws.cpp:55-68 | and their order |
| `UserFeed.AdditionsFirst` | pm/user_ws.cpp:142-145 | a change sends its subscription first, then its unsubscription, and neither when empty |
| `UserFeed.FeedFollows` | pm/user_ws.cpp:116-156 | after every history the desired set is the last one asked for, and the active set what the server was last told |
| `Json.ParseInvertsWrite` | pm/user_ws.cpp:35-40 | a JSON reader that knows no field gives back every value written, nested objects and lists included |
| `UserFrames.OperationSays` | pm/user_ws.cpp:24-32 | such a reader finds "subscribe" or "unsubscribe" under "operation" and exactly the ids under "markets" |
| `UserFrames.SubscriptionSays` | pm/user_ws.cpp:12-22 | such a reader finds the three credentials under their names in "auth", the ids under "markets" and "user" under "type" |
| `UserFrames.OperationBytes` | tests/pm_test.cpp:265-270 | the exact bytes of every operation around the list of its ids |
| `UserFrames.ReadInvertsText` | pm/user_ws.cpp:35-88 | the server, looking up members by key, reads every printed frame back, for all credentials and all lists of ids |
| `UserFrames.PingIsNoFrame` | pm/user_ws.cpp:97 | a keepalive is no frame of the feed |
| `UserSession.JointStepKeeps` | pm/user_ws.cpp:92-156 | every step of feed and client keeps their joint invariant |
| `UserSession.JointRunKeeps` | pm/user_ws.cpp:92-156 | the joint invariant holds after every possible run |
| `UserSession.InitialGoesFirst` | tests/pm_test.cpp:1321-1324 | in every run the first frame handed to each connection is the authenticated subscription to the set desired at its opening, and the only other scoped frames are keepalives |
| `UserReopening.DesiredIsLastAsked` | pm/user_ws.cpp:127-156 | in every run the desired set is the last one a call asked for, online or not |
| `UserReopening.OpeningTellsLastAsked` | pm/user_ws.cpp:116-125 | in every run each opened connection was opened by one event, and the first frame it is handed reads as the full subscription to the set last asked for before that event |
| `UserReopening.ReplacingLeaves` | pm/user_ws.cpp:148-156 | replacing the set of a connected feed and kicking it leaves the connection, for the backoff |
| `UserReopening.ReplacedSetIsTold` | pm/user_ws.cpp:148-156 | and in every continuation, until another set is asked for, every connection opened is told exactly the replaced set first |
| `UserSession.OperationsInOrder` | pm/user_ws.cpp:127-146 | in every run the retained texts handed to each connection read as a contiguous run of the operations the queue took, from the first uncompleted one; without a refusal these are the operations sent |
| `UserSession.SettledServesWhatWasTaken` | pm/user_ws.cpp:92-156 | in every run, refusals included, a settled connection serves its opening's set changed by the operations taken from where it resumed |
| `UserSession.SettlesExactly` | pm/user_ws.cpp:127-146 | in every run, refusals included, a settled connection serves the active set exactly when, id by id, the last operation taken or else the opening agrees with it |
| `UserSession.FeedSettles` | pm/user_ws.cpp:92-156 | in every run without a refusal, the server reading what a settled connection was handed serves the active set exactly when the operations left over at its opening are harmless |
| `UserSession.CleanOpeningSettles` | pm/user_ws.cpp:92-156 | with every operation completed before the opening, a settled connection serves the active set |
| `UserSession.OnlineFeedSettles` | pm/user_ws.cpp:92-146 | with changes made while connected only, every settled connection serves the desired set |
| `UserProgress.FeedCanSettle` | pm/user_ws.cpp:92-156 | from every state reached with a live client, some continuation settles, wanting the same set and refusing nothing more |
| `UserLosses.OfflineChangeLostInARun` | pm/user_ws.cpp:140-141 | a possible run without a refusal that settles wanting nothing while the server serves the id dropped while disconnected |
| `UserLosses.RefusedChangeLostInARun` | pm/user_ws.cpp:137-145 | a possible run on one connection in which the full queue refuses a change, the feed settles and the server serves another set than the active one |
| `UserWsObject.UserWs.constructor` | pm/user_ws.cpp:92-109 | a new wrapper is the new joint machine, with a keepalive and no policy |
| `UserWsObject.UserWs.SendInitial` | pm/user_ws.cpp:116-125 | the desired set becomes active and the frame to queue first is its authenticated subscription |
| `UserWsObject.UserWs.SubscribeTo` | pm/user_ws.cpp:127-146 | connected: posts the delta's texts, additions first; disconnected: only records the set |
| `UserWsObject.UserWs.ReplaceSubscriptionAndReconnect` | pm/user_ws.cpp:148-156 | records the set without operations, then kicks the client |
| `UserWsObject.UserWs.RunPosted` | pm/user_ws.cpp:142-145 | the oldest posted text is sent on the strand |
| `UserWsObject.UserWs.Open` | pm/user_ws.cpp:104-108 | on an opening the wrapper's frame is queued before the application's callback acts |
| `UserWsObject.UserWs.Deliver` | pm/user_ws.cpp:92-109 | any completion of the client is one step of the joint machine |
| `HttpClient.NoReplay` | net/http_client.cpp:362-382 | at most two attempts, at most one puts bytes on the wire, none follows a read failure or partial write, no stream survives a throw |
| `HttpClient.RetriesExactlyWhenUnsent` | net/http_client.cpp:369-376 | the second attempt happens exactly when the first write failed with nothing sent |
| `HttpClient.BoundedRetries` | net/http_client.cpp:331-348 | at most retry_count + 1 attempts, throwing only when all failed and with the stream closed |
| `HttpClient.SentOnceExactlyWithoutRetries` | net/http_client.cpp:331-348 | the general loop puts a request on the wire at most once, whatever the network does, exactly when no retry is allowed |
| `HttpClient.RetryCanReplay` | net/http_client.cpp:335-347 | with any retry allowed, a network that loses answers gets the same request again |
| `HttpClient.AttemptsExplained` | net/http_client.cpp:265-348 | each attempt's bytes and outcome are those of the network it met, connecting first unless a stream is open, which only the first can find |
| `HttpClient.AnswerIsTheNetworks` | net/http_client.cpp:265-348 | an answer's status is the one the last attempt's network gave, and the stream stays open exactly when that answer keeps it alive |
| `HttpClient.HttpsClient.Connect` | net/http_client.cpp:193-252 | a failing connect leaves its stream object behind |
| `HttpClient.HttpsClient.DoRequest` | net/http_client.cpp:265-329 | one attempt: connect if needed, write, read, close unless kept alive |
| `HttpClient.HttpsClient.Request` | net/http_client.cpp:331-348 | the loop refines the trace with any-failure retries |
| `HttpClient.HttpsClient.RequestOnce` | net/http_client.cpp:362-382 | the loop refines the trace with unsent-only retry |
| `AccountQuery.PercentEncode` | pm/account_rest.cpp:62-80 | the loop encodes; decoding gives back every byte; only unreserved characters and escapes appear |
| `AccountQuery.EncodingExactly` | pm/account_rest.cpp:62-80 | each byte is itself exactly when unreserved, else a percent sign and its two upper-case hex digits, high one first |
| `AccountQuery.EncodingRoundTrip` | pm/account_rest.cpp:62-80 | decoding inverts encoding for all byte strings |
| `AccountQuery.Append` | pm/account_rest.cpp:82-89 | question mark first, ampersand afterwards |
| `AccountQuery.ParseInvertsBuild` | pm/account_rest.cpp:82-89 | parsing any built target recovers the path and the ordered fields, for all values |
| `AccountQuery.NoStraySeparators` | pm/account_rest.cpp:82-89 | exactly one question mark, n−1 ampersands and n equal signs for n fields |
| `AccountTargets.OpenOrdersTarget` | pm/account_rest.cpp:134-149 | errors by check order, else the target of the present fields in order |
| `AccountTargets.OpenOrdersAccepted` | pm/account_rest.cpp:91-99 | parameters are accepted exactly when each is absent or of its form |
| `AccountTargets.OpenOrdersSay` | pm/account_rest.cpp:140-149 | a reader of the target finds its path, and each parameter and the cursor under its name |
| `AccountTargets.OpenOrdersInjective` | pm/account_rest.cpp:134-149 | a target determines its parameters and cursor |
| `AccountTargets.JoinConditions` | pm/account_rest.cpp:225-243 | the loop reports the first bad or repeated condition, else joins them |
| `AccountTargets.CheckedExactly` | pm/account_rest.cpp:225-243 | conditions pass exactly when all are well formed and pairwise different after case folding and padding |
| `AccountTargets.PositionsTarget` | pm/account_rest.cpp:215-259 | errors by check order, else the target of the fields in order |
| `AccountTargets.PositionsSay` | pm/account_rest.cpp:245-258 | a reader of the target finds the user, the joined conditions, OPEN or CLOSED, the archive flag, the limit and the cursor under their names |
| `AccountTargets.PositionsFixed` | pm/account_rest.cpp:245-258 | and the filter and the sorting |
| `AccountTargets.PositionsInjective` | pm/account_rest.cpp:215-259 | a target determines the user, conditions, flags, limit and cursor |

## Left out

- Boost.Asio and Beast, OpenSSL, DNS and clocks: replaced by nondeterministic completions and outcomes.
- Printing doubles as shortest decimals, `snap_price`'s final division, and the double comparisons of order preparation: scanning starts from literal text.
- Wrap-around of C `int` exponents and of 64-bit generation counters.
- Starting a client twice, and callbacks or policies that re-enter the client in other ways than the listed actions.
- Reading a text whose last character is an exponent marker: the original would read past the buffer, the model reports a bad exponent.
- Failure classification, close codes, `Retry-After`, message size limits and logging of the websocket client.
- Concurrent calls of the wrapper from several threads, whose posted sends can be ordered differently from their changes.
- The market feed, whose initial subscription is itself a retained message.
- `trades_target`, `positions_target`, `balance_allowance_target` and `exact_order_target`: they would only add members of the same easy shape.
- `pop_front` of the queue, which the client never calls.
- Signing, hashing, HMAC, JSON other than the three texts of the user feed, wallet derivation, the relayer, the CLOB and public REST clients: foreign primitives, fixed byte layouts or plumbing.
