# Coordinator: routing, billing, ledger, withdrawals and stream sealing

A Dafny model of the Go coordinator's core, with proofs.

The coordinator puts inference requests of consumers onto a fleet of providers. It keeps a registry of connected providers with their trust, challenge and load state; a scheduler that prices every eligible provider and picks one; a queue per model for requests that nobody can take yet; and a ledger that reserves the worst-case price of a request up front, settles it when the provider reports completion, and lets earners withdraw through Stripe. Responses can be sealed event by event on their way out, and telemetry is limited by token buckets.

How the files hang together:

- `Fleet`, `Selection`, `CostLaws`: admission gates, routing snapshots, cost, the two-pass choice.
- `Quotes`, `Gates`: the same as a price list and a list of grounds for refusal, over what a provider registered and reported.
- `Queueing`, `Draining`, `Membership`, `Registries`: the queue, what a drain may do, the cached counters, and the registry as a class, with the mutually recursive drain.
- `Protocol`, `RoutingLaws`, `Ownership`: the same critical sections as the steps of a state machine in which any number of drains, dispatchers, provider connections and challenge loops interleave, and what holds in every state of every run.
- `Simulation`: that they are the same: whatever a method of the registry class does while draining is a stretch of a run of the state machine.
- `Streaming`: response chunks between the lookup of their request and the send, with the other steps in between.
- `Pricing`, `Ledger`, `Settlement`: the cost in int64 arithmetic, the store as a class, and where each micro-USD of a reservation goes.
- `Dispatch`, `Outcomes`, `Attempts`, `Conservation`, `Accounts`: the billing lifecycle of one request over all interleavings of up to three attempts, how it can end, its removals as those of the routing protocol, and the money law for any number of requests at once, in total and for every account.
- `Withdrawals`: the Stripe handler and its webhooks, replayed and reordered at will.
- `Sealing`, `RateLimit`: the sealing response writer and the telemetry limiter.
- `Options`, `Machine`, `Sums`: optional values, Go's int64, finite sums and subsequences.

Conventions. Clocks are parameters (milliseconds in the registry, seconds in the limiter). Go's float64 is `real`. Integers are unbounded except where a sum or product of reported, requested or priced quantities can leave the int64 range (routing load, `Pricing`, the instant fee): those are written out with `Wrap64`. Go's randomised map iteration and `rand.Intn` are nondeterministic choices. A registry class method is one call running alone; interleavings are the business of the state machines.

Where a promise turns out to need a condition, the condition is proved exact and an example is given:

- Among snapshots the registry can take and loads whose int expressions stay in range, the cost never falls with load iff the static decode speed is not strictly between 0 and 1 (`CostLaws.MonotoneIffNotSlow`, `CostLaws.SlowProviderGetsCheaper`, `CostLaws.SnapshotBuilt`).
- At those speeds the cost is monotone up to a load iff running plus waiting, waiting times output tokens, and the sum of the pending requests' tokens stay within an int64; neither heartbeats nor requests are capped (`CostLaws.MonotoneIffFits`, `CostLaws.OverflowingHeartbeat`).
- A reservation never makes its provider look cheaper to the next request iff the pending-token sum stays within an int64 or the backlog that wrapping wipes out is worth no more than the penalties the reservation adds (`CostLaws.ReservingRaisesCost`, `CostLaws.HeavyReservation`).
- A token charge is the intended one iff its product fits an int64 (`Pricing.TokenCostExact`, `Pricing.OverflowIsCheaper`).
- The memory gate asks for the tokens of a request iff prompt plus limit fit an int64; beyond that it asks for none (`Gates.MemoryBar`).
- A reservation covers the intended cost of everything the request allows iff neither token product overflows (`Pricing.ReservationCovers`, `Pricing.ReservationCollapses`); what is then charged is covered too (`Pricing.ChargedWithinReservation`), and may be by luck beyond that (`Pricing.OverflowMayStillCover`).
- A reservation that is refunded restores the withdrawable balance iff it did not reach into it (`Ledger.RefundRestores`, `Ledger.RefundCanLock`).
- A settlement conserves money iff there is a payee (`Settlement.Conserves`); without one exactly the payout is missing (`Settlement.UnpaidPayout`).
- A full refund excludes a settlement iff no attempt was removed after its completion had begun (`Dispatch.RefundExcludesBills`, `Dispatch.LateCompletion`).
- The send of a response chunk meets a closed channel iff its provider was disconnected, with the request still pending, after the lookup (`Streaming.SendMeetsClosed`, `Streaming.EvictionBeforeSend`).
- Throughout a history `failed` and refunded mean the same iff no `payout.paid` is delivered for a withdrawal already refunded (`Withdrawals.StatusFollowsRefund`, `Withdrawals.PaidAfterRefund`).

Where comments and code differ, the code is followed: the platform keeps 5 per cent, and `LastChallengeVerified` is also stamped at attestation, so routing safety rests on the challenge-verified SIP flag.

## Model

| member | source | states |
|---|---|---|
| Fleet.MaxConcurrency | coordinator/registry/registry.go:339-362 | the limit is always between 2 and 12, whatever memory is reported |
| Fleet.FirstSlot | coordinator/registry/scheduler.go:358-429 | the slot found serves the model; none is found iff no slot does |
| Fleet.PendingLoad | coordinator/registry/scheduler.go:398-409 | the loop over the pending set yields the number of the model's pending requests and the int64 wrap of their token sum |
| Fleet.TakeSnapshot | coordinator/registry/scheduler.go:358-429 | a snapshot iff every gate passes, with the pending load, slot and hardware figures of the provider |
| Fleet.GatesAgree | coordinator/registry/scheduler.go:646-678 | a provider yields a candidate iff the recheck under its lock admits it, its serial is allowed, it is not thermally critical and it passes the memory gate |
| Gates.ConcurrencyTiers | coordinator/registry/registry.go:339-362 | the limit is 2, 4, 6, 8 or 12 exactly by the memory, reported or else registered, and 4 without a report |
| Gates.MemoryRaisesLimit | coordinator/registry/registry.go:339-362 | more memory never lowers the limit |
| Gates.MemoryBar | coordinator/registry/scheduler.go:437-463 | the memory gate refuses iff what is free does not cover the weights, unless loaded, and 400 kB per token |
| Gates.NothingElseBars | coordinator/registry/scheduler.go:314-429 | a provider is eligible iff none of seventeen named grounds bars it |
| Gates.OnlyBarsDecide | coordinator/registry/scheduler.go:155-312 | in any run a reservation picks a provider that nothing bars, and turns a request away only when each is excluded or barred |
| Fleet.LoadNeverHelps | coordinator/registry/scheduler.go:465-534 | a provider that is eligible with more load was eligible with less |
| Fleet.EffectiveTPS | coordinator/registry/scheduler.go:594-606 | the load-adjusted speed is positive, so no cost divides by zero |
| CostLaws.HeartbeatReports | coordinator/registry/registry.go:947-1007 | a heartbeat of int counters leaves them between zero and the int64 maximum: no other cap on running and waiting |
| CostLaws.SnapshotBuilt | coordinator/registry/scheduler.go:358-429 | a snapshot of such a provider has non-negative counters, its model's pending requests among all, the wrapped sum of their tokens, and no tokens without requests |
| CostLaws.BacklogIsMaximum | coordinator/registry/scheduler.go:497-560 | backlog tokens are the maximum of the coordinator's own pending tokens and the backend's potential plus waiting tokens, iff waiting times output tokens fits an int64 and so does the pending sum, or it is the smaller of the two |
| CostLaws.DepthIsMaximum | coordinator/registry/scheduler.go:491-495 | the queue depth is the larger of pending and running plus waiting, iff that sum fits an int64 |
| CostLaws.CostMonotone | coordinator/registry/scheduler.go:465-606 | the cost never falls when pending requests, their exact tokens, running, waiting, potential, prompt or output tokens grow to a load that fits, for a decode speed of at least 1 or none reported |
| CostLaws.SlowProviderGetsCheaper | coordinator/registry/scheduler.go:594-606 | below 1 token per second one more running request lowers the cost, with one request of one token pending |
| CostLaws.MonotoneIffNotSlow | coordinator/registry/scheduler.go:594-606 | over all buildable snapshots whose load fits, cost is monotone at a speed iff that speed is not strictly between 0 and 1 |
| CostLaws.MonotoneIffFits | coordinator/registry/scheduler.go:491-518 | at every other speed registration admits, cost is monotone up to a load and request size iff the three int expressions of that load stay in range |
| CostLaws.OverflowingHeartbeat | coordinator/registry/scheduler.go:491-518 | with nothing pending, 2^62 running and 2^62 waiting requests cost less than the running ones alone |
| CostLaws.PendingTokensGrow | coordinator/registry/scheduler.go:398-409 | one more pending request raises the snapshot's token sum iff the sum stays in range |
| CostLaws.ReservingRaisesCost | coordinator/registry/scheduler.go:398-560 | for every provider, reservation and next request: the cost does not fall by the reservation iff the token sum stays in range or the backlog lost by wrapping is worth no more than the added penalties |
| CostLaws.HeavyReservation | coordinator/registry/scheduler.go:155-216 | two admitted reservations of 2^62 tokens leave the provider cheaper for a third request than one of them |
| Quotes.SnapshotSays | coordinator/registry/scheduler.go:358-429 | a snapshot holds the state, running, waiting and potential of the first slot reported for the model, and the speeds, metrics and memory of the record |
| Quotes.Quote | coordinator/registry/scheduler.go:465-606 | every candidate in int range is priced by the list: backlog, request, queue, pending, state and health in terms of the provider's record and slot |
| Quotes.RunningIsNotBacklog | coordinator/registry/scheduler.go:594-606 | a report that differs in running requests leaves the backlog tokens as they are |
| Quotes.WaitingIsNotSpeed | coordinator/registry/scheduler.go:491-518 | a report with more waiting requests leaves the time of the request as it is and never shortens the backlog |
| Quotes.HeartbeatSlot | coordinator/registry/registry.go:947-1007 | after a heartbeat the provider reports the message's first slot for the model, negative counters read as zero |
| Quotes.HeartbeatSilent | coordinator/registry/registry.go:947-1007 | without capacity the reports stay; a model left out is unknown |
| Quotes.HeartbeatTaken | coordinator/registry/registry.go:947-1007 | metrics and memory figures are the message's, within bounds, the status follows its rule, and nothing else changes |
| Quotes.RegisteredAs | coordinator/registry/registry.go:777-893 | the new record is the registration's, within bounds, with no slots, health or trust yet |
| Quotes.BusyBeatsSlow | coordinator/registry/scheduler.go:234-312 | of a provider of 100 tokens per second running eight requests and one of 7 idle, only the first may serve |
| Selection.Cheapest | coordinator/registry/scheduler.go:234-309 | the first pass finds a candidate of minimum cost |
| Selection.NearTies | coordinator/registry/scheduler.go:234-309 | exactly the candidates within 3000 ms of the minimum, in order |
| Selection.LeastLoaded | coordinator/registry/scheduler.go:234-309 | a near tie with lexicographically least queue and pending count |
| Selection.Equivalents | coordinator/registry/scheduler.go:290-307 | exactly the near ties as little loaded as the winner |
| Selection.WindowTestRedundant | coordinator/registry/scheduler.go:300-303 | the window test on equivalents never excludes one |
| Selection.SelectBest | coordinator/registry/scheduler.go:234-312 | no winner iff no candidate; otherwise the drawn member of the winners |
| Selection.PossibleOutcomes | coordinator/registry/scheduler.go:234-309 | a candidate can be chosen iff it is a near tie of least load |
| Selection.OrderIndependent | coordinator/registry/scheduler.go:234-309 | the possible outcomes are the same for every order of the providers |
| Selection.ShorterQueueWins | coordinator/registry/scheduler.go:264-309 | of two near ties the one with the shorter queue wins, and nothing beyond the window does |
| Selection.LessPendingWins | coordinator/registry/scheduler.go:264-309 | with equal queues the near tie with less pending wins; only a full tie leaves a choice |
| Queueing.RequestQueue.constructor | coordinator/registry/queue.go:79-87 | a new queue is empty and keeps its limits |
| Queueing.RequestQueue.CleanStale | coordinator/registry/queue.go:268-289 | keeps exactly the unexpired requests in order; signals and marks done exactly the expired ones |
| Queueing.RequestQueue.Enqueue | coordinator/registry/queue.go:89-106 | refused iff the unexpired requests fill the queue; otherwise appended with a new time stamp; other queues untouched |
| Queueing.RequestQueue.PopNextFresh | coordinator/registry/queue.go:199-225 | the first unexpired request; everything before it is dropped, signalled and marked done |
| Queueing.RequestQueue.RequeueFront | coordinator/registry/queue.go:228-236 | back at the head of its model's queue |
| Queueing.RequestQueue.Remove | coordinator/registry/queue.go:185-196 | removes the first request with the id and nothing else |
| Queueing.WaitsItsTime | coordinator/registry/queue.go:268-289 | a request expires exactly after the waiting limit |
| Queueing.FreshInOrder | coordinator/registry/queue.go:268-289 | cleaning keeps the unexpired requests in their order |
| Draining.LoadKeepsUnreservable | coordinator/registry/scheduler.go:680-735 | load added to a fleet never makes an unplaceable request placeable |
| Draining.ProgressTransitive | coordinator/registry/scheduler.go:680-735 | stretches of draining compose: queues stay order-preserving subsequences, nothing is lost, only expired requests are given up, each new pending entry was handed over |
| Draining.ExpireProgress | coordinator/registry/queue.go:199-225 | dropping expired requests is such a stretch |
| Draining.HandOverProgress | coordinator/registry/scheduler.go:711-732 | so is handing a reserved request to its waiter |
| Draining.GiveUpProgress | coordinator/registry/scheduler.go:711-732 | so is releasing one whose waiter is gone or whose channel is full |
| Draining.StuckStable | coordinator/registry/scheduler.go:680-735 | a queue with nothing placeable stays so under any further draining |
| Draining.FairTraceConcat | coordinator/registry/scheduler.go:684-732 | fair assignments of consecutive stretches make up the fair assignments of the whole |
| Draining.HandOverTrace | coordinator/registry/scheduler.go:684-732 | an assignment is fair: everything ahead of it in its queue was unplaceable, its provider was a winner |
| Draining.PreparedAs | coordinator/registry/scheduler.go:155-170 | a request without a record is served with its id, no prompt and 256 tokens; a record only has its gaps filled |
| Draining.EmptyIsOnline | coordinator/registry/registry.go:1473-1489 | a provider that is empty after idling and draining is online |
| Membership.IncAllCounts | coordinator/registry/registry.go:1646-1657 | counting up adds each model's multiplicity and keeps all entries positive |
| Membership.DecAllCounts | coordinator/registry/registry.go:1659-1671 | counting down subtracts it, deleting an entry exactly at zero |
| Membership.JoinedKeepsCounters | coordinator/registry/registry.go:871-877 | registration keeps both cached counters equal to a recount |
| Membership.LeftKeepsCounters | coordinator/registry/registry.go:1021-1035 | so does a disconnect, of a trusted or an untrusted provider |
| Membership.DistrustedKeepsCounters | coordinator/registry/registry.go:1070-1087 | so does marking a provider untrusted, once or repeatedly |
| Membership.LoadedKeepsCounters | coordinator/registry/scheduler.go:680-735 | so does a whole drain |
| Membership.NewProvider | coordinator/registry/registry.go:777-893 | a registered provider is online with nothing pending and no challenge passed |
| Membership.Clamp | coordinator/registry/registry.go:720-733 | reported values end up within bounds, and in-range values are kept |
| Membership.Heartbeaten | coordinator/registry/registry.go:947-1007 | a heartbeat keeps identity, models, pending set and challenge state, and never changes whether the provider is untrusted |
| Membership.CatalogDecides | coordinator/registry/registry.go:806-840 | a model is dropped iff there is a catalogue and it lacks the model or contradicts its hash |
| Membership.KeptInOrder | coordinator/registry/registry.go:806-840 | exactly the accepted models are kept, in the message's order |
| Membership.FailuresInARow | coordinator/registry/registry.go:1146-1196 | a pass clears the failure count, a failure adds to it and takes stamp and flag away |
| Registries.Registry.constructor | coordinator/registry/registry.go:385-393 | an empty registry over an empty queue of ten places and two minutes |
| Registries.Registry.ModelProviderInc | coordinator/registry/registry.go:1646-1657 | one model's count goes up by one |
| Registries.Registry.ModelProviderDec | coordinator/registry/registry.go:1659-1671 | one model's count goes down by one, and the entry goes at zero |
| Registries.Registry.FilterModels | coordinator/registry/registry.go:810-840 | exactly the models the catalogue accepts, in order |
| Registries.Registry.Register | coordinator/registry/registry.go:777-893 | the roster with the new provider; counters match for a fresh id |
| Registries.Registry.Disconnect | coordinator/registry/registry.go:1021-1058 | the roster without the provider; its pending requests are exactly those failed; counters match |
| Registries.Registry.MarkUntrusted | coordinator/registry/registry.go:1070-1093 | the provider is untrusted and counted out once; counters match |
| Registries.Registry.RecordChallengeFailure | coordinator/registry/registry.go:1173-1196 | stamp and SIP flag cleared, failures counted; counters match |
| Registries.Registry.HandleChallengeFailure | coordinator/api/provider.go:866-893 | untrusted exactly from the third failure in a row; other providers untouched; counters match |
| Registries.Registry.BuildCandidates | coordinator/registry/scheduler.go:224-262 | in any map order: exactly the candidates of the eligible providers, and the exact number of capacity rejections |
| Registries.Registry.Select | coordinator/registry/scheduler.go:224-312 | a winner iff some provider is eligible, and then one that may serve |
| Registries.Registry.ReserveProviderEx | coordinator/registry/scheduler.go:155-216 | reserves iff some provider is eligible; the recheck never rejects the winner; only the winner's record changes; decision counts are exact; counters match |
| Registries.Registry.RemovePending | coordinator/registry/registry.go:231-242 | returns the entry once and removes it |
| Registries.Registry.RequeueSkipped | coordinator/registry/scheduler.go:684-735 | the skipped requests are back in front, in their original order |
| Registries.Registry.NextRequest | coordinator/registry/scheduler.go:692-705 | the next unexpired request, prepared; expired ones are signalled; a pop of the protocol |
| Registries.Registry.Place | coordinator/registry/scheduler.go:711-732 | after a reservation: handed over, or released with a recursive drain; progress and fairness hold; terminates |
| Registries.Registry.Serve | coordinator/registry/scheduler.go:700-732 | set aside only when no provider could take it; otherwise a reservation and the steps of the placement |
| Registries.Registry.DrainModel | coordinator/registry/scheduler.go:684-735 | work conservation, fairness and progress for one model, through the recursion, by steps of the protocol; terminates |
| Registries.Registry.Drain | coordinator/registry/scheduler.go:680-735 | when it ends, no request still queued for any drained model could be reserved in the final state; every system with this registry and queue reaches one with the final ones by drain steps |
| Registries.Registry.SetProviderIdle | coordinator/registry/registry.go:1473-1489 | a complete drain of the provider's models from the idled record; a routable provider left with nothing pending is online |
| Registries.Registry.Heartbeat | coordinator/registry/registry.go:947-1007 | the refreshed record, then a complete drain; counters match |
| Registries.Registry.RecordChallengeSuccess | coordinator/registry/registry.go:1146-1169 | the restamped record, then a complete drain; counters match |
| RoutingLaws.ChosenHasRoom | coordinator/registry/scheduler.go:155-216 | the chosen provider is connected, eligible and has room |
| RoutingLaws.RunInvariant | coordinator/registry/registry.go:947-1196 | identity, capacity, counters, challenge soundness and nonce rules hold in every state of every run |
| RoutingLaws.RoutingSafety | coordinator/api/provider.go:504-893 | in any run, a picked provider is not untrusted, meets the minimum trust, and its latest verdict on this connection is a pass at most six minutes old that answered a nonce sent to it |
| RoutingLaws.PassesAreDistinct | coordinator/api/provider.go:443-521 | in any run distinct passes answer distinct nonces: an answer is verified once and recorded once, after the provider it was sent to gave it |
| RoutingLaws.UntrustedIsAbsorbing | coordinator/registry/registry.go:985-998 | once untrusted, a provider is never trusted or picked again on that connection |
| RoutingLaws.RunCounters | coordinator/registry/registry.go:1646-1671 | in every run the counters equal a recount, no provider carries more than 12 requests, and no nonce is answered twice |
| Ownership.RunOwned | coordinator/registry/registry.go:219-249 | queues, drains' hands, pending sets and take counts agree with one owner label per request in every run |
| Ownership.SingleOwnership | coordinator/registry/scheduler.go:692-732 | in every run a request is in at most one place, taken at most once and closed at most once |
| Simulation.PopSimulated | coordinator/registry/scheduler.go:692-696 | taking the first unexpired request, or none, is a pop of the protocol; it goes to this drain's hand and the other drains keep theirs |
| Simulation.ReserveSimulated | coordinator/registry/scheduler.go:705-711 | reserving the winner for a request in hand is the protocol's reservation, which is enabled |
| Simulation.RequeueSimulated | coordinator/registry/scheduler.go:686-691 | putting all set-aside requests back in front is that many put-backs, the last one first |
| Simulation.RemoveSimulated | coordinator/registry/scheduler.go:713-731 | releasing a placed request is the protocol's removal, whether or not the entry is still there |
| Simulation.IdleSimulated | coordinator/registry/registry.go:1473-1489 | going idle is the protocol's step on that provider |
| Simulation.SimulatedThen | coordinator/registry/scheduler.go:684-735 | stretches of drain steps compose |
| Simulation.ShownIsWellFormed | coordinator/registry/scheduler.go:680-735 | in every sound state of the protocol the registry and queue meet the precondition of a drain |
| Simulation.DrainContinuesRun | coordinator/registry/scheduler.go:680-735 | a drain started in the last state of any run continues that run by drain steps only, ends with the registry and queue the method computes, and leaves nothing in hand that was not there before |
| Streaming.StepBound | coordinator/registry/registry.go:1021-1058 | a request that was looked up stays pending on its provider or taken from it; among the steps its read loop lets in only an eviction closes its channels |
| Streaming.StreamKeeps | coordinator/api/provider.go:895-928 | in every run with chunks in flight the routing invariant and single ownership hold, and every chunk's request is pending on or taken from its connection's provider |
| Streaming.SendMeetsClosed | coordinator/api/provider.go:895-928 | in any run a chunk is sent after its request's channels were closed iff an eviction of that provider, with the request pending, came between lookup and send |
| Streaming.EvictionBeforeSend | coordinator/registry/registry.go:902-938 | from any state with a pending request and an idle read loop that can happen next |
| Pricing.CalculateCost | coordinator/payments/pricing.go:86-104 | between the minimum charge and twice the largest int64 quotient, for any counts and rates |
| Pricing.TokenCostExact | coordinator/payments/pricing.go:96-97 | for any counts and rates the truncated quotient is the exact one iff the product is within an int64; a larger product is undercharged |
| Pricing.CostExact | coordinator/payments/pricing.go:86-104 | the cost is at most the intended one, and equal to it iff neither product overflows |
| Pricing.OverflowIsCheaper | coordinator/payments/pricing.go:96-103 | at a rate of 16 an overflowing report costs the minimum charge while a smaller one costs more |
| Pricing.ReservationCovers | coordinator/api/consumer.go:155-168 | the reservation for a token limit and a number of copies covers the intended cost of every usage within them, at rates up to the reserved ones, iff neither token product overflows |
| Pricing.ChargedWithinReservation | coordinator/api/provider.go:1015-1036 | no charge within a reservation that fits exceeds it |
| Pricing.OverflowMayStillCover | coordinator/api/consumer.go:155-168 | one overflowing reservation wraps to the largest int64 and covers every charge all the same |
| Pricing.ReservationIs | coordinator/api/consumer.go:155-168 | the reservation is the intended cost of prompt and limit, 256 by default, times the copies, at the platform's price |
| Pricing.ReservationCollapses | coordinator/api/consumer.go:245-257 | a limit of 2^62 tokens reserves the minimum charge, while a million tokens cost 2000 times that |
| Pricing.FeeSplit | coordinator/payments/pricing.go:116-123 | the fee is a twentieth rounded down iff the product fits, and fee and payout then share the cost exactly |
| Ledger.RunExplains | coordinator/store/memory.go:158-189 | after any history, pruned or not, the retained entries lead back from each account's balance without a gap, and ids are consecutive |
| Ledger.HistoryMembers | coordinator/store/memory.go:533-547 | the statement holds exactly the account's retained entries |
| Ledger.RunStatement | coordinator/store/memory.go:533-561 | the newest line shows the current balance, every line follows from the next older one, ids fall strictly |
| Ledger.PruningIsInvisible | coordinator/store/memory.go:158-189 | pruning changes no balance and keeps a tail of the unpruned ledger |
| Ledger.RunSolvent | coordinator/store/memory.go:460-561 | 0 <= withdrawable <= balance after any history of non-negative amounts |
| Ledger.OnlyEarningsLeave | coordinator/store/memory.go:470-530 | withdrawals never exceed what was credited as withdrawable |
| Ledger.RefundRestores | coordinator/store/memory.go:507-530 | reserve then refund restores the balance; the withdrawable part is restored iff the reservation did not reach into it, and never raised |
| Ledger.RefundCanLock | coordinator/store/memory.go:507-530 | an example where it is not restored |
| Ledger.ApplyTotal | coordinator/store/memory.go:460-561 | the total of all balances moves by exactly the accepted amount |
| Ledger.BalanceMoves | coordinator/store/memory.go:460-561 | an operation moves the named account's balance and no other: credits always, debits iff covered |
| Ledger.WithdrawableMoves | coordinator/store/memory.go:460-561 | earnings move with earning credits and withdrawals only, and spending takes of them only what the rest does not cover |
| Ledger.OneEntry | coordinator/store/memory.go:549-561 | an accepted operation leaves one entry with its account, reason, reference, signed amount and new balance; a refused one nothing |
| Ledger.PruneKeepsNewest | coordinator/store/memory.go:158-189 | pruning keeps exactly the newest entries, as many as asked for or 100 000 |
| Ledger.MemoryStore.constructor | coordinator/store/memory.go:102-143 | empty books |
| Ledger.MemoryStore.GetBalance | coordinator/store/memory.go:446-450 | the balance, zero for an unknown account |
| Ledger.MemoryStore.GetWithdrawableBalance | coordinator/store/memory.go:453-457 | the withdrawable balance, zero for an unknown account |
| Ledger.MemoryStore.CreditLocked | coordinator/store/memory.go:549-561 | balance raised and one entry appended with the balance after it |
| Ledger.MemoryStore.Credit | coordinator/store/memory.go:460-466 | the new state is that of a credit |
| Ledger.MemoryStore.CreditWithdrawable | coordinator/store/memory.go:470-476 | both balances raised |
| Ledger.MemoryStore.CreditProviderAccount | coordinator/store/memory.go:1393-1415 | refused for an empty account, otherwise a withdrawable payout |
| Ledger.MemoryStore.CreditProviderWallet | coordinator/store/memory.go:1419-1441 | refused for an empty address, otherwise a withdrawable payout |
| Ledger.MemoryStore.Debit | coordinator/store/memory.go:507-530 | refused, changing nothing, iff the balance is short; otherwise the withdrawable part is capped at the new balance |
| Ledger.MemoryStore.DebitWithdrawable | coordinator/store/memory.go:480-504 | refused, changing nothing, iff either balance is short |
| Ledger.MemoryStore.Prune | coordinator/store/memory.go:158-189 | the newest entries are kept, 100 000 by default |
| Ledger.MemoryStore.LedgerHistory | coordinator/store/memory.go:533-547 | newest first; a correct statement of account on every store a history can produce |
| Settlement.Share | coordinator/billing/referral.go:39-49 | the share is between 1 and 50 per cent |
| Settlement.BilledWithinReservation | coordinator/api/provider.go:1016-1037 | any usage report is billed a positive amount far below the int64 range, and a reserved job within its reservation |
| Settlement.BilledFee | coordinator/payments/pricing.go:116-123 | for every report the fee is a twentieth of the bill rounded down and the payout is the rest |
| Settlement.RewardBounds | coordinator/billing/referral.go:183-220 | the reward is between nothing and half of the fee |
| Settlement.Conserves | coordinator/api/provider.go:1016-1134 | for every usage, price and referral state: refund, payout, reward and platform credit add up to the reservation iff there is a payee |
| Settlement.UnpaidPayout | coordinator/api/provider.go:1084-1120 | without a payee exactly the payout is missing |
| Settlement.Shares | coordinator/api/provider.go:1040-1134 | the exact gain of every account in balance and in withdrawable earnings, overlaps included |
| Settlement.OpsNonNegative | coordinator/api/provider.go:1040-1134 | no settlement entry is negative |
| Settlement.BillIs | coordinator/api/provider.go:1008-1037 | the bill is the smaller of the reservation and the intended cost of prompt and completion at the provider's, else the platform's, else the list price, wherever the products fit |
| Settlement.ListPrice | coordinator/payments/pricing.go:52-104 | a million prompt tokens cost 50 000, a million completion tokens 200 000 and an empty report 100 micro-USD at list price |
| Settlement.ConsumerPays | coordinator/api/provider.go:1008-1062 | from reservation to settlement the consumer's balance falls by exactly that |
| Settlement.ChargedDirectly | coordinator/api/provider.go:1040-1062 | without a reservation the bill is debited iff the balance covers it; the others are paid all the same |
| Settlement.PayeeIs | coordinator/api/provider.go:1084-1120 | the payout goes to the linked account, else the wallet, else nobody |
| Settlement.RewardIs | coordinator/billing/referral.go:183-220 | the referrer is the owner of the consumer's code and gets its percentage of the fee rounded down |
| Settlement.NoReward | coordinator/billing/referral.go:183-220 | without a code, an owner or the service nobody is rewarded |
| Settlement.Billing.DistributeReferralReward | coordinator/billing/referral.go:183-220 | the referrer gets the reward, the rest of the fee is returned; no referrer, unknown code or zero reward leaves the fee whole |
| Settlement.Billing.PayPlatform | coordinator/api/provider.go:1123-1134 | the fee entries, in order |
| Settlement.Billing.SettleConsumer | coordinator/api/provider.go:1040-1062 | the refund of the unused part, or the direct charge when nothing was reserved |
| Settlement.Billing.PayProvider | coordinator/api/provider.go:1084-1120 | the linked account, else the wallet, else nobody |
| Settlement.Billing.HandleComplete | coordinator/api/provider.go:1008-1134 | the bill, and the ledger entries of a whole settlement in order |
| Dispatch.StepKeeps | coordinator/api/consumer.go:655-1016 | every dispatcher and provider step keeps the billing invariant |
| Dispatch.BillsAccounted | coordinator/api/consumer.go:655-1039 | in every run the bills are the current attempt's and those of attempts removed too late, each counted once |
| Dispatch.RefundExcludesBills | coordinator/api/consumer.go:610-618 | a refunded request has no bill iff no attempt was removed too late |
| Dispatch.NoFurtherBills | coordinator/api/consumer.go:863-903 | once refunded or over, no completion is accepted |
| Dispatch.BilledAtMostOnce | coordinator/api/consumer.go:594-618 | without a late removal: one settlement at most, none beside a refund, net debit within [0, reservation] and equal to the bill once settled |
| Dispatch.LateCompletion | coordinator/api/consumer.go:898-903 | a run with a late removal in which refund and settlement both happen |
| Outcomes.CommittedHeard | coordinator/api/consumer.go:800-1016 | in any run the dispatcher is committed only to an attempt whose chunk or close it has received |
| Outcomes.CommitMeansAnswer | coordinator/api/consumer.go:800-1016 | and the provider of that attempt had sent a chunk or completed the request |
| Outcomes.ProviderReaches | coordinator/api/provider.go:895-994 | a chunk, an acceptance, a completion or an error of the current attempt can be received by the waiting dispatcher |
| Outcomes.EntryAdvances | coordinator/api/provider.go:985-1170 | a completion is settled at its cost and then closed, a failure closed as one |
| Outcomes.AcceptedMeansAccept | coordinator/api/consumer.go:800-905 | the second wait begins only after the provider accepted the attempt |
| Outcomes.UnheardCostsNothing | coordinator/api/consumer.go:594-618 | a request of which nothing was heard ends rejected or refunded at no cost, if no attempt was removed late |
| Outcomes.FailureRetries | coordinator/api/consumer.go:835-980 | after a failed send, an error or a timeout the attempt is removed and a further one follows, until no provider is left or three were made; then the refund |
| Outcomes.CancelRefunds | coordinator/api/consumer.go:898-903 | a cancelled request is removed and refunded, not retried |
| Outcomes.ChargeDecides | coordinator/api/consumer.go:594-618 | a request is charged first, and rejected iff that fails |
| Outcomes.RefundedIffGivenUp | coordinator/api/consumer.go:610-1016 | a refund is under way iff the model was unlisted, no provider was found, three attempts failed or the consumer cancelled |
| Outcomes.DispatcherStops | coordinator/api/consumer.go:655-1039 | in any run at most three attempts and 36 dispatcher steps |
| Outcomes.DispatcherIsLive | coordinator/api/consumer.go:655-1039 | in any run the dispatcher can go on iff the request is not over |
| Attempts.RemovalAgrees | coordinator/registry/registry.go:231-242 | every removal of the billing lifecycle is one of the routing protocol; completions and errors find the entry, and the dispatcher finds it iff neither came first, changing nothing otherwise |
| Attempts.PlacementAgrees | coordinator/api/consumer.go:655-720 | a reservation under a new id opens an attempt whose entry is present exactly while the protocol lists it |
| Attempts.OthersAgree | coordinator/api/consumer.go:655-1039 | every other step of the lifecycle leaves all entries where they are |
| Attempts.DisconnectAgrees | coordinator/registry/registry.go:1021-1058 | a disconnect fails exactly the attempts still listed on that provider |
| Conservation.MoneyConserved | coordinator/api/provider.go:1016-1134 | in every run of any number of requests: balances, escrow, entries under way and unpaid payouts equal what came from outside, and no balance is negative |
| Conservation.NothingCreated | coordinator/api/consumer.go:594-618 | without late removals the books never hold more than came in |
| Accounts.EveryAccount | coordinator/api/provider.go:1008-1134 | in every state of every run each account's balance, with what settlements have yet to post to it, is what charges, refunds, settlements and outside operations so far entitle it to |
| Withdrawals.PayableAmounts | coordinator/api/stripe_payouts.go:259-284 | exactly the int64 amounts from one dollar up are payable; the fee stays below the amount and less than a cent is lost to rounding |
| Withdrawals.ReplaySafe | coordinator/api/stripe_payouts.go:528-619 | for any mix of withdrawals, replayed and reordered webhooks, other postings and prunings: a withdrawal's entries in the whole ledger sum to minus gross until refunded and to zero after, the kept ledger is a tail of it, and both indexes are exactly the rows' Stripe ids |
| Withdrawals.FailedTransferRestores | coordinator/api/stripe_payouts.go:328-366 | a failed transfer leaves every balance and withdrawable balance as before |
| Withdrawals.StatusFollowsRefund | coordinator/api/stripe_payouts.go:528-583 | throughout a history failed and refunded stay equivalent iff no paid notice meets a refunded withdrawal |
| Withdrawals.PaidAfterRefund | coordinator/api/stripe_payouts.go:541-552 | a history in which such a notice leaves a refunded withdrawal marked paid |
| Withdrawals.FailureRefunds | coordinator/api/stripe_payouts.go:555-619 | a failure notice leaves its row failed and refunded and, unless it was before, both balances of its account up by the gross amount; nothing else changes |
| Withdrawals.FailureRefundsInHistory | coordinator/api/stripe_payouts.go:528-619 | the same at any point of any history |
| Withdrawals.PaidConfirms | coordinator/api/stripe_payouts.go:541-552 | a paid notice marks its row paid and moves no money |
| Withdrawals.UnknownIgnored | coordinator/api/stripe_payouts.go:528-619 | a notice for an id that no row carries changes nothing |
| Withdrawals.AnswerMeans | coordinator/api/stripe_payouts.go:259-435 | each answer of the handler is given exactly in its case |
| Withdrawals.WithdrawalTakes | coordinator/api/stripe_payouts.go:299-366 | both balances fall by the gross amount exactly when the transfer was made |
| Withdrawals.WithdrawalRecords | coordinator/api/stripe_payouts.go:306-410 | the row left behind, with fee and net amount, status and Stripe ids |
| Withdrawals.InstantFeeExact | coordinator/api/stripe_payouts.go:259-284 | the instant fee is 1.5 per cent rounded down and at least half a dollar while the product fits, and less beyond |
| Withdrawals.StripeDesk.constructor | coordinator/store/memory.go:923-948 | no rows and empty indexes over a store |
| Withdrawals.StripeDesk.CreateStripeWithdrawal | coordinator/store/memory.go:923-948 | refused for an empty or known id, otherwise stored and indexed |
| Withdrawals.StripeDesk.UpdateStripeWithdrawal | coordinator/store/memory.go:985-1016 | refused for an unknown id, otherwise replaced and re-indexed |
| Withdrawals.StripeDesk.HandleStripeWithdraw | coordinator/api/stripe_payouts.go:259-435 | the state and reply for every combination of checks and Stripe outcomes |
| Withdrawals.StripeDesk.RevertWithdrawal | coordinator/api/stripe_payouts.go:555-583 | refunds unless already refunded, and marks failed |
| Withdrawals.StripeDesk.HandlePayoutTerminal | coordinator/api/stripe_payouts.go:528-583 | the step of a paid or failed payout notice; unknown payouts change nothing |
| Withdrawals.StripeDesk.HandleTransferFailed | coordinator/api/stripe_payouts.go:587-619 | the step of a reversed transfer; unknown transfers change nothing |
| Sealing.FirstBreak | coordinator/api/sender_encryption.go:316-323 | the leftmost LF LF, or none iff there is none |
| Sealing.EventsExtend | coordinator/api/sender_encryption.go:307-337 | the events of a stream do not depend on where the writes were cut |
| Sealing.EventsRejoin | coordinator/api/sender_encryption.go:316-337 | events and tail put back together are the stream |
| Sealing.EventsAreMinimal | coordinator/api/sender_encryption.go:316-337 | every event ends at the first break after its start and the tail has none |
| Sealing.CutIsUnique | coordinator/api/sender_encryption.go:316-337 | that determines the cut |
| Sealing.Rejoin | coordinator/api/sender_encryption.go:340-355 | rejoined frames are the stream, with one break added iff its last event was unfinished |
| Sealing.ClientReadsFrames | coordinator/api/sender_encryption.go:316-355 | a client parsing and opening the sealed stream gets the frames in order, less those whose sealing failed |
| Sealing.AllSurvive | coordinator/api/sender_encryption.go:383-393 | when sealing succeeds nothing is missing |
| Sealing.SealingWriter.constructor | coordinator/api/sender_encryption.go:236-246 | nothing written, status 200 |
| Sealing.SealingWriter.WriteHeader | coordinator/api/sender_encryption.go:250-276 | the first call decides mode and status, later ones change nothing |
| Sealing.SealingWriter.FlushCompleteEvents | coordinator/api/sender_encryption.go:316-337 | every complete event sealed in order, the tail kept |
| Sealing.SealingWriter.WriteSSE | coordinator/api/sender_encryption.go:307-314 | the sealed output is that of everything written so far |
| Sealing.SealingWriter.Write | coordinator/api/sender_encryption.go:278-292 | the same in either mode, and every byte is accepted |
| Sealing.SealingWriter.Flush | coordinator/api/sender_encryption.go:294-304 | changes nothing the client sees |
| Sealing.SealingWriter.Finish | coordinator/api/sender_encryption.go:340-378 | for every cut into writes and flushes: one frame per event plus one for a tail, or one sealed body, or a 500 |
| RateLimit.SpanBound | coordinator/api/telemetry_handlers.go:117-150 | under any limit covering a span's calls, tokens stay within the capacity, and under any clock at most capacity plus rate times the advance of the refill clock is admitted |
| RateLimit.LimitsCover | coordinator/api/telemetry_handlers.go:106-126 | the signed-in limit covers any mix of calls, the anonymous one exactly the anonymous spans |
| RateLimit.BurstIsReached | coordinator/api/telemetry_handlers.go:106-115 | a new key is admitted its whole capacity at once, so the bound is met |
| RateLimit.KeysAreSeparate | coordinator/api/telemetry_handlers.go:117-150 | a key's bucket depends on that key's calls alone |
| RateLimit.KeyBound | coordinator/api/telemetry_handlers.go:117-150 | the bound per key for any span after any past in a history of everybody's requests, whatever the mix of flags |
| RateLimit.KeysDiffer | coordinator/api/telemetry_handlers.go:117-126 | callers share a bucket iff they use the same key |
| RateLimit.AdmitsWhatIsHeld | coordinator/api/telemetry_handlers.go:127-150 | a call is admitted iff the refilled bucket, capped at the burst, holds that many tokens, and takes just these; a refused one takes none |
| RateLimit.AdmitsBurst | coordinator/api/telemetry_handlers.go:127-150 | a new key is admitted up to its burst |
| RateLimit.IdleKeyRecovers | coordinator/api/telemetry_handlers.go:127-150 | after any history a key left alone for two minutes, three if anonymous, is granted its whole burst again |
| RateLimit.TelemetryLimiter.Allow | coordinator/api/telemetry_handlers.go:117-150 | grants iff the refilled bucket covers the cost; refills even when refusing; touches no other key |

## Left out

- Update in place of shared records: providers, pending requests and queued requests are values held in maps and sequences, addressed by id, so aliasing between the registry, a drain and a handler is not captured.
- HTTP, WebSocket, Stripe, Privy, MDM and Postgres: only their outcomes appear, as parameters or nondeterministic events.
- Cryptography, base64, JSON and certificates: sealing is an arbitrary function with an inverse and no line feeds in its output; challenge verification is a verdict.
- `TryAssign` and `ForceTrustProvider`: legacy paths that set a status without the counters.
- The square root in the fallback decode speed, which enters as a reported value.
- int64 wrap-around of balances, ledger ids and counts of providers, requests and failures: these are taken as unbounded.
- Protocol steps other than those listed as events, in particular restoring a provider's stored state on reconnection.
- RoutingLaws.RoutingSafety: assumes one registration per connection id and nonces that never repeat.
- Dispatch.BilledAtMostOnce: keeps the hypothesis that no attempt was removed late, because the dispatcher ignores an empty result of the removal; providers complete only requests that were sent to them.
- Dispatch: requests without billing, and the generic inference endpoint.
- Withdrawals.ReplaySafe: webhooks are handled one at a time and after the withdraw handler has returned.
- Withdrawals: parsing and onboarding checks of the withdraw request, the failure reason texts, and refund errors, which the in-memory store never returns.
- Ledger: usage, earnings and payout history rows, which carry no balance.
- RateLimit: batch sizes are natural numbers.
- Sealing: of the line endings in section 9.2.5 of the WHATWG HTML Standard only LF LF ends an event, as in the code.
- Reputation, metrics, scoring by the superseded scheduler, enrolment, releases, pseudonyms and the console: easy, presentational or superseded.
