# Verified model of the managed-session platform's stateful core

The platform runs coding-agent sessions on a backend, streams their events to clients and a web
console, and charges tenants for them. This project models the parts that keep state across
interleaved asynchronous steps, and its hand-written parsers, and proves what they guarantee over
whole runs. An `await` in the program is a step boundary here; outside parties (the card processor,
the ledger, the session log, the network) are environments that may do anything their contract allows.
In every run, an event that cannot happen in a state leaves that state alone, so the theorems
quantify over all lists of events.

| files | what they model |
|---|---|
| `SessionRegistry`, `SessionInvariants`, `SessionTheorems`, `SessionAnswers`, `SessionManager` | the backend's registry of live runtimes: least-recently-used order, idle timers, wakes in flight |
| `KeyedMutex` | the promise chain that serializes auto-charge per tenant |
| `Money`, `PaymentEvents`, `AutoChargeStore`, `AutoCharge`, `AutoChargeInvariants`, `AutoChargeTheorems`, `AutoChargeCredits`, `AutoChargeReplay`, `AutoChargeEngine`, `AutoChargeOutcomes`, `WebhookCredits` | automatic top-ups: rolling caps, the failure breaker, and crediting by two independent paths |
| `SseFrame`, `SseParser`, `SseReading` | the client's incremental event-stream parser |
| `EventHistory`, `StreamServer`, `StreamClient`, `StreamProgress`, `StreamEndings`, `ConnectionManager` | the numbered event log, one connection as the server serves it, and the client that follows it through drops, polling and restarts |
| `Delegation`, `DelegationMarkers` | the durable start and completion markers of delegated sessions |
| `EntriesPage`, `EntriesCache`, `EntriesResume`, `SessionStream`, `FrameFolding` | the console's entries pages, into which stream frames race with queries |
| `MultipartFields`, `Multipart` | the two delimiter-scanning parsers of form-data bodies |
| `Text`, `OrderedMap`, `Options` | searching and splitting text, JavaScript's insertion-ordered map, optional values |

An object whose methods assign its fields is a class here, and each of its methods is tied to a
function on a snapshot of those fields; the theorems are about those functions, folded over runs.

## Findings

Where the program does less than its documentation says, the model follows the program, a lemma
shows the difference on a concrete run or input, and the exact condition is proved beside it.

- A registry emptied by `disposeAll` stays empty exactly when no wake is still booting
  (`StaysEmptyIffNoneBooting`).
- `getOrCreate` is documented to return the active runtime or wake it. It may instead join a wake
  whose runtime is already gone (`JoinMayBeStale`): exactly when the wake it joins has settled, and
  so will never register a runtime again (`JoinIsStaleIffSettled`).
- The caps always bound the recorded charges. What is put on the card exceeds them by at most what
  was missed in the same window (`CardWithinCaps`). A charge is missed exactly in two cases
  (`MissedExactly`): the payment engine answers that it failed and it was taken all the same, because
  the reply was lost or it succeeds later; or the credit of a new payment throws or finds the payment
  credited already. In `TakenUnreportedOverruns` and in `WebhookFirstOverruns` the card goes past
  the daily cap over an empty log. The first also shows that a run with the outcome `failed`, which is
  documented to be a no-op on the card, may have charged it: the card is charged exactly when
  the engine makes a new payment, whatever it answers (`ChargedExactly`).
- For a payment engine that returns the payment of a repeated key without comparing amounts, which the
  interface neither states nor excludes: a payment whose credit was lost, and whose crossing is
  delivered again after the amount was raised, is credited at the new amount (`ReplayTakesNewAmount`).
  An entry is mispriced exactly when a run's first credit of a replayed payment comes at another
  amount or for another tenant than the payment's own (`MispricedExactly`), and the balance is off
  by just the surplus of those entries (`BalanceIsOwed`). A tenant whose own amount is not patched,
  and that shares no crossing id, has none (`PlainTenantIsNeverMispriced`). An engine that refuses a
  repeated key with another amount answers with a failure instead, and that run credits nothing.
- A first connection that finds nothing to replay reads the head of the log afterwards. An event
  appended in between is in the live subscription, and is dropped from it as already replayed
  (`FirstEventLost`). The requests always served without a gap are exactly those that resume after an
  event, name a start the log has reached, or come without a live runtime (`GapFreeExactly`).
  Therefore a client delivers from the first position on in every run exactly when it resumes after an
  event or starts on a log that is not empty (`DeliversAllExactly`, `FirstSkipped`), and the
  console loses nothing in every run exactly when the session is first viewed with entries and no
  frame of theirs is rejected by the schema, or it never has any (`NothingLostExactly`, `FirstMissed`,
  `PageWithoutFirst`, `RejectedMissed`). A rejected frame is dropped until a refetch; everything else
  is kept (`NothingLost`). After its first position the client skips none.
- A frame round-trips exactly when its event is one line that does not end in a carriage return and
  its data has no carriage return before a line feed (`FrameRoundTrip`).
- A form-data part round-trips exactly when its name is not empty, its quoted values do not mention
  `content-type:`, and the first `filename="` of its headers is that of the filename: a name that
  ends in `filename=`, or without a filename a parameter of the media type, may come before
  (`FormDataRoundTrip`, `NameTakenForHeader`, `NameTakenForKey`).
- The first wait of a reconnect streak is the base itself, also where that exceeds the maximum
  (`WaitsCapped`).

The two multipart parsers of the source are two copies of one loop, and one turn of it is modelled
once, in `Scan` and `ReadPart`; what differs, the list and the map they fill, is modelled twice.

## Model

| member | source | states |
|---|---|---|
| `SessionTheorems.OneWakePerSession` | packages/backend/src/app.ts:227-293 | In every reachable state a session has at most one wake in flight, and none still booting while it is registered. |
| `SessionTheorems.WakesStartAlone` | packages/backend/src/app.ts:279-293 | A step that starts a wake does so for a session that is not registered and has no wake in flight. |
| `SessionTheorems.StepOverwritesNothing` | packages/backend/src/app.ts:227-322 | No step replaces the runtime of a session that stays registered; disposals and forgettings are only added. |
| `SessionTheorems.RuntimesConserved` | packages/backend/src/app.ts:266-322 | Over any run every runtime a wake produced is exactly one of registered, disposed once or forgotten once, and never comes back. |
| `SessionTheorems.EvictionTakes` | packages/backend/src/app.ts:404-419 | Capacity eviction disposes idle runtimes only, never the kept one, leaves the others as they are, and stops at the cap or when no idle one is left, never below the cap. |
| `SessionTheorems.EvictionIsLeastRecent` | packages/backend/src/app.ts:390-419 | Every evicted runtime was last used before every idle one that stays. |
| `SessionInvariants.StepKeeps` | packages/backend/src/app.ts:227-448 | Every step keeps the invariant: map order is order of last use, exactly the registered sessions have a live timer and one each, wakes are single, runtimes are conserved. |
| `SessionInvariants.Reachable` | packages/backend/src/app.ts:205-448 | That invariant holds after every list of events. |
| `SessionTheorems.HitsAreRemembered` | packages/backend/src/app.ts:280-286 | The last use of a session is at least as late as each of its `getOrCreate` hits. |
| `SessionTheorems.TimerDisposesOnlyIdle` | packages/backend/src/app.ts:421-440 | A timer that disposes takes exactly its own session's runtime, which is idle and had no hit within the idle timeout. |
| `SessionTheorems.DisposeAllEmpties` | packages/backend/src/app.ts:319-322 | `disposeAll` empties the registry and leaves the wakes in flight as they were. |
| `SessionTheorems.StaysEmptyIffNoneBooting` | packages/backend/src/app.ts:266-322 | Without further `getOrCreate` the registry stays empty after that, whatever happens, if and only if no wake was still booting. |
| `SessionTheorems.JoinIsStaleIffSettled` | packages/backend/src/app.ts:279-293 | In every state, a `getOrCreate` that joins a wake joins one that can never register a runtime any more if and only if that wake has settled. |
| `SessionTheorems.JoinMayBeStale` | packages/backend/src/app.ts:288-292 | A run in which `getOrCreate` joins a settled wake whose runtime has been disposed. |
| `SessionAnswers.HitHandsBackOwnRuntime` | packages/backend/src/app.ts:279-287 | In every reachable state `getOrCreate` hits if and only if the session is registered, and hands back that session's own runtime, alive; the session becomes the most recently used, the others keep their order, and its timer starts anew. |
| `SessionAnswers.ColdJoinsOrStarts` | packages/backend/src/app.ts:288-292 | Otherwise it joins if and only if a wake of that session is in flight, that one, changing nothing; or it starts a wake that was not there before, for that session and booting. |
| `SessionAnswers.CompletionRegisters` | packages/backend/src/app.ts:266-270 | A wake that completes leaves its session registered with a runtime not there before, alive and with a timer. |
| `SessionAnswers.FailureAllowsAnother` | packages/backend/src/app.ts:290-290 | A wake that fails registers nothing, and after its `finally` the next `getOrCreate` of the session starts another. |
| `SessionAnswers.DisposeDrops` | packages/backend/src/app.ts:296-306 | `dispose` drops exactly that session, disposes its runtime if there is one, and stops its timer. |
| `SessionAnswers.ForgetDrops` | packages/backend/src/app.ts:313-316 | `forget` drops exactly that session, disposes nothing, and stops its timer. |
| `SessionAnswers.IdleIsDisposedInTime` | packages/backend/src/app.ts:421-440 | Once the idle timeout has passed the timer of every registered session can fire, and disposes its runtime if and only if that is idle; a busy one gets another timeout. |
| `SessionManagers.SessionManager.GetOrCreate` | packages/backend/src/app.ts:279-293 | In place: the new state and the answer are those of `Looked`, which `HitHandsBackOwnRuntime` and `ColdJoinsOrStarts` determine. |
| `SessionManagers.SessionManager.EvictIfOverCapacity` | packages/backend/src/app.ts:404-419 | The loop that disposes the first idle runtime while over the cap removes exactly the least recently used idle ones in excess. |
| `SessionManagers.SessionManager.OnWakeFulfilled` | packages/backend/src/app.ts:266-270 | In place: a completed wake registers its runtime, schedules its timer, and evicts over capacity. |
| `SessionManagers.SessionManager.OnTimer` | packages/backend/src/app.ts:421-440 | In place: a timer that fires is rescheduled for a busy runtime and disposes an idle one. |
| `SessionManagers.SessionManager.Dispose` | packages/backend/src/app.ts:296-306 | In place: drops timer and runtime of one session and records the disposal, and nothing for an unknown one. |
| `SessionManagers.SessionManager.DisposeAll` | packages/backend/src/app.ts:319-322 | In place: the loop over the sessions registered disposes each. |
| `KeyedMutex.LockStepKeeps` | packages/billing-adapter/src/auto-charge.ts:151-165 | Every call, start, settlement and clean-up keeps the order of the chains and the tails at their ends. |
| `KeyedMutex.OneAtATimeInOrder` | packages/billing-adapter/src/auto-charge.ts:142-165 | Calls for one key never overlap and start in the order they were made. |
| `KeyedMutex.FirstWaiterCanStart` | packages/billing-adapter/src/auto-charge.ts:151-158 | The first waiting call of a key can start when none runs, however the earlier ones ended. |
| `KeyedMutex.TailHeldUntilLast` | packages/billing-adapter/src/auto-charge.ts:159-164 | The tail map holds a key while a call for it is outstanding and lets go of it exactly when its last call has been cleaned up. |
| `KeyedMutex.TenantLock.Finally` | packages/billing-adapter/src/auto-charge.ts:162-164 | In place: the tail is removed only if it is still this call's. |
| `AutoChargeStore.CheckedChargeKeepsCap` | packages/billing-adapter/src/auto-charge.ts:190-200 | A charge that passes the cap check keeps every window of that width within the cap, wherever it starts and whatever the clock did. |
| `AutoChargeStore.InMemoryAutoChargeStore.SumChargesSince` | packages/billing-adapter/src/auto-charge.ts:303-308 | The loop returns the sum of the tenant's charges strictly later than the bound. |
| `AutoChargeStore.InMemoryAutoChargeStore.UpdateConfig` | packages/billing-adapter/src/auto-charge.ts:278-296 | In place: a patch sets only the fields it names, never a cap; a new tenant starts disabled with zero caps. |
| `AutoChargeInvariants.StepKeeps` | packages/billing-adapter/src/auto-charge.ts:176-250 | Every step of any number of interleaved crossings, patches, checkouts and webhooks keeps caps, breaker, mutex and the tie between runs and accounts. |
| `AutoChargeInvariants.StartsAlone` | packages/billing-adapter/src/auto-charge.ts:142-173 | A run that begins finds no other run of its tenant under way. |
| `AutoChargeTheorems.CapsNeverExceeded` | packages/billing-adapter/src/auto-charge.ts:176-314 | In every reachable state the recorded charges of any 24 hours and of any 30 days stay within the tenant's caps, which no run changes. |
| `AutoChargeTheorems.CardWithinCaps` | packages/billing-adapter/src/auto-charge.ts:209-248 | In every reachable state and every window, the charges put on the card, reported or not, exceed the cap by at most what was missed in that window less what was replayed; where nothing was missed they are within it. |
| `AutoChargeTheorems.CardAddsUpAlways` | packages/billing-adapter/src/auto-charge.ts:209-248 | In every reachable state and every window, what went on the card, reported or not, and what was replayed is what was logged, is pending, or was missed. |
| `AutoChargeTheorems.ChargedExactly` | packages/billing-adapter/src/stripe-engine.ts:142-168 | A step charges the card if and only if the engine makes a new payment at it, whether it answers with success or with failure. |
| `AutoChargeTheorems.MissedExactly` | packages/billing-adapter/src/auto-charge.ts:218-248 | A step misses a charge if and only if the engine answers failure although it took the charge, or a run ends at the credit of its own new payment because that threw or found the payment credited. |
| `AutoChargeTheorems.TakenUnreportedOverruns` | packages/billing-adapter/src/stripe-engine.ts:156-167 | A run of two crossings answered with failure and taken all the same, in which both runs report a failure, the log stays empty, and the card goes past the daily cap. |
| `AutoChargeTheorems.WebhookFirstOverruns` | packages/billing-adapter/src/auto-charge.ts:236-248 | A run in which webhooks credit first, the log stays empty, and the card is charged past the daily cap. |
| `AutoChargeTheorems.ChargesBounded` | packages/billing-adapter/src/auto-charge.ts:218-231 | Since the last success a tenant has at most as many failed charges as the limit, plus one for each time it was enabled again. |
| `AutoChargeTheorems.FailureReportedExactly` | packages/billing-adapter/src/auto-charge.ts:218-235 | A reported failure carries the exact streak, and auto-charge is disabled exactly when the streak has reached the limit. |
| `AutoChargeOutcomes.ChargesAreWarranted` | packages/billing-adapter/src/auto-charge.ts:180-216 | Over all interleavings the card is charged only by a run of an enabled configuration whose threshold the event's balance was below, and whose caps the charge fits under. |
| `AutoChargeOutcomes.SkippedExactly` | packages/billing-adapter/src/auto-charge.ts:180-200 | Each way to skip is reported if and only if its own cause holds; a run goes on with the configuration it read and reports that amount as charged. |
| `AutoChargeOutcomes.OutcomeExactly` | packages/billing-adapter/src/auto-charge.ts:176-250 | What an undisturbed run reports and leaves in the store, in terms of configuration, balance, sums of the log, and the answers it gets. |
| `AutoChargeOutcomes.PatchTakesEffect` | packages/billing-adapter/src/auto-charge.ts:278-296 | After a patch that switches off the next run skips; after others it goes on exactly as the patched fields say, and what was not named stays. |
| `AutoChargeOutcomes.SumIsOfLater` | packages/billing-adapter/src/auto-charge.ts:303-308 | The sum since a time is the total of the charges strictly later. |
| `AutoChargeCredits.EveryPaymentBookedOnce` | packages/billing-adapter/src/types.ts:118-124 | After any run each payment presented for a tenant has one entry and there are no others, the balance is their total, and an entry is mispriced if and only if it is not its payment's own amount and tenant. |
| `AutoChargeCredits.BalanceIsOwed` | packages/billing-adapter/src/webhook-consumer.ts:41-69 | Whatever the order and number of webhooks, redeliveries, patches and auto-charges, the balance is the sum over the distinct payments presented plus the surplus of the mispriced entries, so just that sum when there are none. |
| `AutoChargeCredits.StepMisprices` | packages/billing-adapter/src/auto-charge.ts:235-241 | A step makes a mispriced entry if and only if a run lands the first credit of a payment it did not make itself, at an amount or for a tenant not the payment's own. |
| `AutoChargeCredits.MispricedExactly` | packages/billing-adapter/src/auto-charge.ts:202-241 | Over a run an entry is mispriced if and only if such a step occurred. |
| `AutoChargeCredits.PlainTenantIsNeverMispriced` | packages/billing-adapter/src/auto-charge.ts:202-241 | A tenant whose own amount is not patched and whose crossing ids are its own has no mispriced entry, and the balance it is owed, whatever happens to other tenants. |
| `AutoChargeReplay.ReplayTakesNewAmount` | packages/billing-adapter/src/auto-charge.ts:202-241 | A run from the start in which a payment of one cent is credited as two. |
| `AutoChargeEngines.AutoChargeEngine.RunLowBalance` | packages/billing-adapter/src/auto-charge.ts:176-250 | The method, run undisturbed against the store, ends in the outcome and the records the step machine ends in, which `OutcomeExactly` determines. |
| `Money.CentsFromMicros` | packages/billing-adapter/src/money.ts:32-40 | Succeeds exactly on the amounts that are a positive number of cents, and then gives the cents that convert back to the amount. |
| `Money.CreditKeyInjective` | packages/billing-adapter/src/credit-key.ts:16-18 | Two payments never share a ledger key. |
| `PaymentEvents.CheckoutAndIntentAgree` | packages/billing-adapter/src/stripe-engine.ts:171-202 | A checkout and its intent's success credit the same entry exactly when the checkout names the intent or shares its id. |
| `WebhookCredits.PaidCheckoutIsCredited` | packages/billing-adapter/src/stripe-engine.ts:174-192 | A completed checkout is credited if and only if it is paid and names a tenant: as its payment intent, or as itself without one, at the total it states; otherwise the ledger stays. |
| `WebhookCredits.IntentIsCredited` | packages/billing-adapter/src/stripe-engine.ts:193-202 | The success of an intent is credited if and only if it names a tenant, at its amount. |
| `WebhookCredits.OtherEventsAreIgnored` | packages/billing-adapter/src/stripe-engine.ts:203-211 | No other event changes the ledger. |
| `WebhookCredits.DeliveryCreditsExactly` | packages/billing-adapter/src/webhook-consumer.ts:41-69 | In the system, an event that tells of a payment made can be delivered and leaves it presented, with one entry of its own cents or the one it had; any other delivery changes nothing. |
| `SseFrames.ParseSseFrame` | packages/client-extension/src/api-client.ts:86-114 | The line loop computes the frame of a block: its last id and event, its data lines joined, none without data. |
| `SseReading.BlockReadsAs` | packages/client-extension/src/api-client.ts:86-114 | A block is a frame if and only if it has a data line; its data are the values of those lines, its event the last named or `message`, its id the last that is a number. |
| `SseReading.FieldExactly` | packages/client-extension/src/api-client.ts:92-95 | A line is a name without a value, or a name up to the first colon and a value without the one space after it. |
| `SseFrames.FrameRoundTrip` | packages/backend/src/domain/event-stream/sse-encoder.ts:34-40 | An encoded frame reads back if and only if it is sendable: no line end inside event or hidden in its data. |
| `SseParser.ParseSse` | packages/client-extension/src/api-client.ts:466-496 | For every cutting of the text into chunks the frames are those of the whole text, split at each leftmost blank line, with the rest if it is not blank. |
| `SseParser.BlocksAppend` | packages/client-extension/src/api-client.ts:481-487 | More text leaves finished blocks alone, and reading goes on from the unfinished rest. |
| `SseReading.CutExactly` | packages/client-extension/src/api-client.ts:483-488 | The blocks, each ended by a blank line, and the rest are the text; each block ends at the first blank line there is, and the rest has none. |
| `SseParser.StreamRoundTrip` | packages/client-extension/src/api-client.ts:466-496 | Encoding sendable frames, cutting the text anywhere and parsing returns them all, in order. |
| `SseParser.UnterminatedLastFrame` | packages/client-extension/src/api-client.ts:489-492 | A last frame without its blank line is read too, when the stream ends and not when it breaks. |
| `EventHistory.PagesCoverLog` | packages/backend/src/api/events.ts:234-260 | Following the cursors reads the log from the first cursor to the head, each position once, in order. |
| `EventHistory.PageIs` | packages/backend/src/api/events.ts:250-259 | A history page is the stretch of the log from its cursor, as long as limit and log allow, with a next cursor where it ends if and only if the log goes on. |
| `StreamServer.GapFree` | packages/backend/src/domain/event-stream/stream.ts:116-202 | A resumed or anchored connection is sent consecutive positions from its start, however replay, tail and new events interleave, and has all of them when nothing is held back. |
| `StreamServer.GapFreeExactly` | packages/backend/src/domain/event-stream/replay.ts:99-127 | A request is served without a gap in every run if and only if it resumes after an event, names a start below the head, or has no live runtime. |
| `StreamServer.GapFreeUnlessHeadMoved` | packages/backend/src/domain/event-stream/replay.ts:106-127 | No connection is sent a position twice or out of order, and none is left out, if and only if an empty first replay did not go on from a head other than the start asked for. |
| `StreamServer.NextEventLost` | packages/backend/src/domain/event-stream/replay.ts:122-127 | On any log that has not grown past the start asked for, a run in which the next event is held by the subscription and never sent. |
| `StreamServer.ServesFrom` | packages/backend/src/domain/event-stream/stream.ts:116-202 | Whatever the run, a client's connection is sent consecutive positions from an origin, which is the replay's start unless it came without a header to an empty log. |
| `StreamServer.FirstEventLost` | packages/backend/src/domain/event-stream/replay.ts:122-127 | A run in which the first event of a session is held by the subscription and never sent. |
| `StreamProgress.PageGoesOn` | packages/backend/src/domain/event-stream/replay.ts:106-127 | A page sends the next entries, as many as fit; a full one is followed by another, a short one has reached the head and leads to the live tail right after it, to the reading of the head, or without a runtime to the end. |
| `StreamProgress.ReplayEnds` | packages/backend/src/domain/event-stream/replay.ts:108-120 | The replay ends after as many pages as the rest of the log takes, and one more. |
| `StreamProgress.TailDrains` | packages/backend/src/domain/event-stream/stream.ts:163-189 | The live tail hands out what it holds back, and has then sent up to the head. |
| `StreamClient.DeliversInOrder` | packages/client-extension/src/api-client.ts:397-541 | Through drops, reconnects, polling, failed pages and restarts the positions handed to the handler are consecutive, and start right after the resume point or at the start of a log that was not empty. |
| `StreamClient.DeliversAllExactly` | packages/client-extension/src/api-client.ts:397-541 | They start there in every run if and only if the client resumes after an event or starts on a log that is not empty. |
| `StreamClient.FirstSkipped` | packages/client-extension/src/api-client.ts:412-455 | A run of a client on an empty log that is handed position 1 first. |
| `StreamClient.StepDelivers` | packages/client-extension/src/api-client.ts:504-541 | Every step keeps the next position wanted, and the polling cursor never more than one past the last entry seen. |
| `StreamClient.PollingReachesHead` | packages/client-extension/src/api-client.ts:512-541 | Where a chain of pages ends without a successor, the delivered positions reach the head the last page was read at. |
| `StreamClient.ReconnectsBounded` | packages/client-extension/src/panel/connection.ts:90-165 | At most `maxReconnects` sleeps between two frames, (F + 1) times as many for F frames, the j-th of a streak the base doubled j times and capped. |
| `StreamEndings.GivesUpExactly` | packages/client-extension/src/panel/connection.ts:126-163 | In every run, a failure or a status that does not end the session makes the client wait and reconnect if and only if fewer than `maxReconnects` waits lie since the last frame; an idle or terminated session makes it return. |
| `StreamEndings.ReturnsOnlyAfterAllWaits` | packages/client-extension/src/panel/connection.ts:136-163 | A client that returned although nothing ended it waited exactly `maxReconnects` times since its last frame. |
| `StreamEndings.FrameIsHandedOver` | packages/client-extension/src/panel/connection.ts:97-122 | A frame is handed over with its position, and ends the run if and only if it is a termination, an error, or for a delegating panel idleness; otherwise the stream goes on, or waits where the handler throws. |
| `StreamEndings.EntryIsHandedOver` | packages/client-extension/src/api-client.ts:525-533 | An entry of a page is handed over if and only if it is later than the last one seen. |
| `StreamEndings.PageIsRead` | packages/client-extension/src/api-client.ts:512-524 | A page that is read has the next fifty entries of the log from its cursor, or what there is, and a next cursor if and only if there is more. |
| `StreamEndings.GoesOn` | packages/client-extension/src/api-client.ts:408-541 | In every run a drop reconnects at once right after the last frame, a request that is no stream turns to polling from there, a failed page starts the pages over, and an end asks for the session's status. |
| `StreamEndings.FramesReachHead` | packages/client-extension/src/api-client.ts:452-455 | A client on a connection is handed everything up to the head. |
| `StreamClient.WaitsCapped` | packages/client-extension/src/panel/connection.ts:94-148 | Every wait is the doubled base capped at the maximum if and only if the base is within the maximum. |
| `ConnectionManagers.ConnectionManager.Run` | packages/client-extension/src/panel/connection.ts:90-165 | The loop over the fields and locals does what the step machine does, for every script of events; how that goes on and ends is in `GoesOn`, `GivesUpExactly` and `FrameIsHandedOver`. |
| `Delegation.AtMostOnce` | packages/client-extension/src/panel/delegation.ts:81-155 | Over any run, with restarts and deaths between saving and appending, each session has at most one start and one ending marker, exactly the marked ones if nothing died, and the sets are those saved. |
| `DelegationMarkers.MarkedExactly` | packages/client-extension/src/panel/delegation.ts:81-155 | Over any run the marked sessions are exactly those a call was made for, and each has exactly one marker if no process died in between. |
| `DelegationMarkers.MarksExactly` | packages/client-extension/src/panel/delegation.ts:104-155 | Each call marks, saves, and appends its own kind of marker, and does nothing for a session already marked. |
| `Delegation.SurfacesEachOnce` | packages/client-extension/src/panel/connection.ts:244-254 | What is surfaced is listed, terminal, not completed before, and comes once. |
| `Delegation.SurfacesAll` | packages/client-extension/src/panel/connection.ts:244-254 | Every terminal session listed that was not completed before is surfaced. |
| `DelegationMarkers.SurfacedExactly` | packages/client-extension/src/panel/connection.ts:244-254 | A session is surfaced if and only if it is listed as idle or terminated and was not completed. |
| `DelegationMarkers.SurfacingRecords` | packages/client-extension/src/panel/connection.ts:246-253 | Each surfaced session gets its offline marker, in order, and is completed from then on; nothing else is marked. |
| `DelegationMarkers.FivePagesAtMost` | packages/client-extension/src/panel/connection.ts:239-257 | The loop gets to the pages up to the first without a successor, and to five at most. |
| `Delegation.DelegationRecorder.SurfaceOfflineCompletions` | packages/client-extension/src/panel/connection.ts:232-259 | The loop over at most five pages surfaces and completes exactly those sessions of the pages it gets to. |
| `Delegation.DelegationRecorder.AppendCompletion` | packages/client-extension/src/panel/delegation.ts:118-132 | In place: marks, saves and appends once; nothing for a completed session. |
| `EntriesPages.UpsertUpdates` | packages/web-console/src/api/session-stream.ts:217-230 | On a sorted page the upsert is a map update by position, and the page stays sorted without repeats. |
| `EntriesPages.SortLists` | packages/web-console/src/api/session-stream.ts:134-134 | The sort puts entries with distinct positions in order and loses none. |
| `EntriesPages.ListsUnique` | packages/web-console/src/api/session-stream.ts:217-230 | A map from positions to entries has one sorted page only. |
| `EntriesCaches.BufferExcludesPages` | packages/web-console/src/api/session-stream.ts:126-200 | Over any run, frames wait only while no page has data, and the buffer is then the last frame of each position. |
| `EntriesCaches.Confluence` | packages/web-console/src/api/session-stream.ts:126-230 | However frames and resolutions interleave, the first page to resolve is the fetched one overridden by the last frame at each position, and a later one that overridden by the frames after its own resolution; both sorted and without repeats. |
| `EntriesCaches.OrderIsIrrelevant` | packages/web-console/src/api/session-stream.ts:111-144 | Two runs with the same last frame at each position end in the same page, wherever the query resolved: buffering and flushing is upserting. |
| `EntriesCaches.ReplayChangesNothing` | packages/web-console/src/api/session-stream.ts:215-230 | Frames a page shows already, delivered again in any number, leave it as it is. |
| `EntriesResume.LatestIs` | packages/web-console/src/api/session-stream.ts:232-248 | A view that mounts resumes where the leading page ends, or before rejected entries at its end. |
| `EntriesResume.InvHolds` | packages/web-console/src/api/session-stream.ts:287-339 | In every run of mounts, reconnects, unmounts, fetches and frames, accepted or rejected, on a log not empty at first, some page leads: but for rejected entries it is the log up to where no page goes beyond, and a mounted stream is not past it; before any page, the buffer is all accepted frames that were delivered. |
| `EntriesResume.NothingLost` | packages/web-console/src/api/session-stream.ts:111-116 | On a log not empty at first, however often the buffer is dropped, a mounted view with a resolved query has a page that lists entries of the log in order and lacks none of those the stream is past but rejected ones; without rejected ones it is the log as far as the stream is. |
| `EntriesResume.NothingLostExactly` | packages/web-console/src/api/session-stream.ts:181-200 | Some page is the log as far as the stream is, in every run, if and only if the log is not empty when the session is first viewed and no frame of it is rejected, or it stays empty. |
| `EntriesResume.PageWithoutFirst` | packages/web-console/src/api/session-stream.ts:318-319 | A run on an empty log after which the page shows the second event without the first, with the stream at the head. |
| `EntriesResume.RejectedMissed` | packages/web-console/src/api/session-stream.ts:184-191 | For any rejected entry, a run that goes past it with a page that lacks it. |
| `EntriesResume.ReachesTheHead` | packages/web-console/src/api/session-stream.ts:318-319 | When the stream has then delivered up to the head, that page has all entries but rejected ones, and is the whole log without any. |
| `EntriesResume.StreamCatchesUp` | packages/web-console/src/api/session-stream.ts:318-326 | From every state with a mounted view, delivering on in order gets the stream to the head. |
| `SessionStreams.QueryCaches.ApplyStreamFrame` | packages/web-console/src/api/session-stream.ts:166-213 | In place: folds the frame into the session's caches and names the stale queries, as `FrameReachesPages` and `StaleExactly` determine, and touches no other session. |
| `FrameFolding.FrameReachesPages` | packages/web-console/src/api/session-stream.ts:166-200 | A frame with an id and an accepted body puts its entry at its position in every sorted page, and changes nothing else there, or in the buffer while there is no page; any other leaves both alone. |
| `FrameFolding.FramesShowOnPage` | packages/web-console/src/api/session-stream.ts:126-213 | Over all frames and resolutions a page lists what it fetched, overridden by the last entry the frames carried for each position. |
| `FrameFolding.Follow` | packages/web-console/src/api/session-stream.ts:294-324 | The hook's callbacks, called one after the other, leave the session's caches as folding the frames says. |
| `FrameFolding.StaleExactly` | packages/web-console/src/api/session-stream.ts:171-212 | The entries are fetched again if and only if the frame is a lag notice or has an id and a rejected body; status, usage, lists and messages if and only if it has an id, an accepted body, and an event that begins with `session.status`. |
| `SessionStreams.QueryCaches.FlushPendingEntries` | packages/web-console/src/api/session-stream.ts:126-144 | In place: moves the sorted buffer into every page once some page has data. |
| `SessionStreams.QueryCaches.LatestCachedSeq` | packages/web-console/src/api/session-stream.ts:234-248 | The loops find the highest position in the session's pages, and none exactly when they are empty. |
| `Multipart.Scan` | packages/backend/src/api/skills.ts:85-96 | One turn of the loop stays within the body, and the place to go on from grows by more than a delimiter. |
| `Multipart.ParseMultipartParts` | packages/backend/src/api/skills.ts:81-107 | On every body the loop returns the readable parts between the delimiters, in order. |
| `Multipart.ParseMultipart` | packages/backend/src/api/files.ts:86-116 | On every body and boundary the map is the last-wins projection of the list the other parser returns. |
| `Multipart.LastByNameIs` | packages/backend/src/api/files.ts:113-115 | A name is in the map if and only if some part has it, with the last part that does. |
| `Multipart.BodyRoundTrip` | packages/backend/src/api/skills.ts:85-96 | A body written as section 5.1.1 of RFC 2046 has it splits into the chunks written, whatever its preamble and epilogue. |
| `Multipart.ChunkReads` | packages/backend/src/api/skills.ts:95-104 | A chunk reads back as its headers read, with its data byte for byte. |
| `Multipart.ScanSkipsTwo` | packages/backend/src/api/skills.ts:88-95 | Any two characters after a delimiter but two dashes are skipped, and the chunk up to the next delimiter is taken whole. |
| `Multipart.HeadersOnlyAreSkipped` | packages/backend/src/api/skills.ts:95-97 | A chunk without a blank line is no part. |
| `Multipart.UnclosedIsDropped` | packages/backend/src/api/skills.ts:91-92 | What follows a last delimiter that nothing closes is dropped. |
| `Multipart.FormDataRoundTrip` | packages/backend/src/api/skills.ts:81-107 | A form-data body reads back as the parts it was written from if and only if each part is readable. |
| `MultipartFields.FieldsRoundTrip` | packages/backend/src/api/skills.ts:98-103 | Written headers read back if and only if the first match of each pattern is the field itself; they are skipped exactly without a name. |
| `MultipartFields.NameTakenForHeader` | packages/backend/src/api/skills.ts:103-103 | A name that is read as a content type. |
| `MultipartFields.NameTakenForKey` | packages/backend/src/api/skills.ts:102-102 | A name that is read as the key of the filename. |

## Left out

- The rest of `app.ts` (composition, host pool, reaper, retention), routes, authorization, schemas, the live-view widget, React hooks and client commands: wiring.
- The branch of `wake` that returns a registered runtime: `getOrCreate` is the only caller and has looked before.
- `setTimeout` delays above 2^31 - 1 ms, which the platform fires at once.
- The ledger, the session log and the payment processor beyond their contracts: one entry per key; contiguous positions from 0, with pruning off and no subscriber lagging behind its buffer; one payment per idempotency key, returned for that key again or refused, and dated when the run asked for it, even if it succeeds later. Signature checks are not modelled.
- Failures of the auto-charge store, several processes sharing it, and an operator replacing a configuration during a run.
- Dollar amounts in floating point; ids of frames that are not integers; `JSON.parse`, so a frame's data is its text.
- Text decoding: a character stands for a byte in bodies and for a character in streams.
- MultipartFields.FieldsRoundTrip: does not cover media types in which a quote stands alone or inside a quoted parameter; and a value that a sender percent-encodes, because it holds quotes or line ends, counts as the encoded text, which the parsers do not decode.
- Background refetches, which close the gap of a rejected frame and may bring an entries page back to an older state, and the removal of unused pages from the query cache.
- EntriesResume.NothingLost: assumes that each query fetches the log from its start up to some length, not a slice that begins later.
- The persisted form of the dedup store: every save succeeds, or the process dies after it.
- StreamServer.GapFree: does not cover event previews, lag notices or sources that number no events; and `fromPosition` reaches the server only, as no client of the model sends it.
- The phases the stream hook reports, and the polling interval.
