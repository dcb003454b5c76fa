# RiseVPN: a verified model of the control plane and the node agents

RiseVPN is a VPN service with one controller (PostgreSQL) and many nodes (SQLite) joined by a
WebSocket that loses, repeats and reorders messages and breaks at any point. This project models
the parts of it that keep accounts, move money and decide who may connect, and proves what they
promise over every run.

| file | what it models |
|---|---|
| `Options.dfy` | a value that may be missing |
| `NodeStore.dfy`, `ControlClient.dfy`, `OverlappingReaders.dfy` | the node's store, its read loop, the set of seen message ids |
| `ControlProtocol.dfy`, `UsageProgress.dfy`, `CommandEffects.dfy` | controller and nodes together: usage batches, acknowledgements, commands and what they do |
| `CommandQueue.dfy`, `DeliveryTerms.dfy` | delivery of queued commands with backoff, statement by statement |
| `Proration.dfy`, `Subscriptions.dfy`, `SubscriptionRuns.dfy`, `SubscriptionTerms.dfy` | plan changes, wallet, ledger, the lifecycle worker |
| `PriorityGate.dfy` | the admission gate that a Hysteria patch adds |
| `Devices.dfy`, `Admission.dfy`, `XrayManager.dfy` | who is admitted, who is kicked, the remote Xray user table |
| `QuotaLeases.dfy`, `Sessions.dfy`, `Enrollment.dfy`, `Compliance.dfy` | leases, login sessions, node enrolment, the block list |

How it is written:

- State that the source changes in place is a class; each method is tied to a function on values
  (`Value() == F(old(Value()), …)`), and the lemmas are about that function and about runs of it.
- What an operation computes is also stated without naming its definition: lemmas called
  `…Exact` or `…Terms` write it out on fields, in kopecks, bytes and seconds.
- A run is any sequence of actions; an action that is not possible changes nothing. One SQL
  transaction, one critical section or one HTTP request is one action, except in `CommandQueue`,
  where each statement and each socket write of a delivery tick is its own action. Where a request
  makes several writes that can fail one by one, flags of the action say which of them succeeded.
- Messages that were ever written stay available for delivery, in any order and any number of
  times. Losing one is never delivering it.
- Fields such as `log`, `applied`, `renewals`, `graceBegan`, `issued`, `gone` and `confirmed` are
  histories: the source does not have them, they let the theorems speak about the past and say
  that random values are new.
- Times are integers that never go back. Hashes are taken as injective and random tokens as new.
- Answers of the database, the network, parsers and signatures are parameters.

Six promises turned out false in general. Each has the exact condition under which the code keeps
it, and a lemma that breaks it after a run from the initial state:

- A renewal keeps wallet and ledger equal if and only if its idempotency key is unused
  (`RenewalExact`, `ForgedKeyExample`). An administrator who types a key of the form `renew:…`
  can break this; the theorems about runs exclude such keys.
- A node's usage accounts stay right all along a run if and only if no lease is written back from
  a copy with usage of a period that has moved since (`NoLostUsage`). One reader never does that
  (`OneReader`). A reader whose connection has ended and that is still busy overlaps with the next
  one, and two can (`StaleWriteBackExample`).
- A message is applied once between flushes of the seen set by one reader (`DedupWindow`), and up
  to r times by r overlapping ones, which is exact (`SharedWindow`, `SharedReached`).
- A usage round advances if and only if none of the oldest 1000 events is one the controller
  cannot book (`RoundExact`, `PoisonedExample`); such an event holds back everything after it.
- A logout is answered the same whether or not its two writes succeed. The token can be served
  again if and only if its valid row was not revoked or its cache entry was not dropped
  (`LogoutExact`, `LogoutFails`). The cache is transparent for a request if and only if no such
  entry is left for its token, and the cache answers and takes an entry it does not have for one
  that is standing (`CacheTransparent`).
- A command is written to the socket more than 344 times only if row updates are lost after
  writes, once more for each (`WritesBounded`), and then it can be, as far as two-second ticks fit
  into its 24 hours (`WriteBoundReached`, `FitsExact`).

Where code and comments differ the code is followed: the comment on sessions says the database row
rebuilds the cache, but the CSRF token is taken from the client's cookie (`LossExact` gives the
exact consequence).

## Model

| member | source | states |
|---|---|---|
| `ControlProtocol.ExactlyOnce` | internal/controlplane/nodehub.go:182-213 | in every run of losses, repeats, reorderings and crashes: each recorded event is added at most once, a sent one exactly once with its own bytes, bytes recorded = bytes credited + bytes not yet counted, and each subscription's usage is its credits since the last reset |
| `ControlProtocol.AckSound` | internal/controlplane/nodehub.go:164-176 | a command ever marked acked was applied successfully by the node it was queued for, with exactly the queued contents |
| `CommandEffects.CommandRound` | internal/controlplane/nodehub.go:164-176 | a command sent, received and answered without faults is marked acked and has had its effect on the node's store, field by field, if and only if it fits that store; else it is marked nacked and has done nothing; no other row and no other node changes |
| `CommandEffects.AckedEffect` | internal/control/client.go:220-236 | a message gets one reply; an ack means that its effect on the fields of the store took place and its id is remembered, or that it was remembered before and nothing changed |
| `CommandEffects.HandleExact` | internal/control/client.go:240-395 | a handler succeeds if and only if the message fits the store and nothing outside failed; upsert, lease, revocation, override and acknowledgement each set exactly their fields of one device or of the journal |
| `CommandEffects.RevokedIsOut` | internal/control/client.go:316-331 | a device whose revocation was acknowledged is admitted by neither path at any instant |
| `ControlProtocol.UsageHub.Usage` | internal/controlplane/nodehub.go:182-213 | a batch is booked as a whole or rolled back; the ids acknowledged are those of the batch |
| `ControlProtocol.UsageHub.TakeReply` | internal/controlplane/nodehub.go:164-176 | an ack or nack settles the row of that command and node, whatever its status was |
| `ControlProtocol.IngestGrows` | internal/controlplane/nodehub.go:195-208 | a booked batch leaves a row for each of its events, keeps all earlier rows and adds rows of that node only |
| `ControlProtocol.IngestOk` | internal/controlplane/nodehub.go:195-208 | booking genuine events keeps every usage equal to the credits since its reset and every row equal to the node's own event |
| `ControlProtocol.RunUsageOk` | internal/control/client.go:150-162 | the accounting invariant holds along every run |
| `ControlProtocol.RunAckOk` | internal/control/client.go:207-238 | the invariant behind ack soundness holds along every run, across restarts and flushes of the seen set |
| `UsageProgress.IngestExact` | internal/controlplane/nodehub.go:195-211 | a batch commits if and only if each of its events is known already or can be booked |
| `UsageProgress.BatchExact` | internal/controlplane/nodehub.go:195-211 | a batch, repeated numbers included, commits if and only if every event counted for the first time is of a device whose owner has a subscription and has no negative count; each such event then has its row and raised its owner's usage by tx + rx, and nothing else changed |
| `UsageProgress.RoundExact` | internal/control/client.go:150-162 | one send-book-acknowledge round counts and marks the oldest 1000 pending events if and only if none of them is poisoned, and otherwise changes neither tables nor store |
| `UsageProgress.RoundPoisoned` | internal/controlplane/nodehub.go:195-211 | one poisoned event among the oldest 1000 blocks the whole batch |
| `UsageProgress.PoisonedExample` | internal/controlplane/admin.go:402-429 | a run after which no round advances: a queued upsert of a device no user owns, applied and used on the node |
| `UsageProgress.PendingAfter` | internal/store/store.go:317-352 | marking the head of the pending list sent leaves exactly its tail |
| `UsageProgress.Drains` | internal/control/client.go:371-395 | without poisoned events, one round per thousand pending events gets every event counted and acknowledged |
| `NodeStore.Database.Record` | internal/store/store.go:294-315 | usage of a known device is added and journalled in one step, an unknown device changes nothing |
| `NodeStore.Database.UpsertDevice` | internal/store/store.go:218-230 | keeps usage within a period and takes the new value when the period end moves; a credential hash in use is refused |
| `NodeStore.Database.PendingUsage` | internal/store/store.go:317-338 | the first unsent events in id order, at most the limit, which falls back to 1000 outside 1..5000 |
| `NodeStore.Database.MarkUsageSent` | internal/store/store.go:340-352 | marks exactly the listed events |
| `NodeStore.PendingExact` | internal/store/store.go:317-338 | the pending list is exactly the unsent events, each once, in rising order |
| `NodeStore.NoLostUsage` | internal/control/client.go:303-311 | with any number of overlapping readers, used bytes equal the sum of each device's events since its last period change all along a run if and only if no lease write-back in it is stale, even with usage recorded between read and write-back |
| `NodeStore.WriteAccounted` | internal/store/store.go:218-230 | writing a device keeps that equality if and only if it carries no usage or does not move the period |
| `NodeStore.StepAccounted` | internal/control/client.go:303-311 | a single step keeps that equality if and only if it does not write back a copy with usage from a period that has moved since |
| `NodeStore.OneReader` | internal/control/client.go:303-311 | a run with a single reader has no stale write-back |
| `NodeStore.StaleWriteBackExample` | internal/control/client.go:303-311 | a run with two readers in which a lease write-back charges five bytes of a closed period to the next |
| `ControlClient.Reader.ReadLoop` | internal/control/client.go:207-238 | the loop over the messages of a connection yields the replies and state of the one-message step, folded |
| `ControlClient.Reader.ReadOne` | internal/control/client.go:220-236 | one message: a seen id is acknowledged unapplied, else handled, remembered if that succeeded, and answered with ack or nack |
| `ControlClient.Reader.Apply` | internal/control/client.go:240-395 | each message type changes the store as the handler does |
| `ControlClient.Reader.Remember` | internal/control/client.go:504-511 | an id is added, the set being dropped first when it is over 2048 |
| `ControlClient.DedupWindow` | internal/control/client.go:220-236 | over any messages of one reader the seen set stays within 2049 ids, its flushes are accounted for, and no id is applied twice between flushes |
| `ControlClient.FlushCount` | internal/control/client.go:498-511 | after n ≥ 1 applications there were exactly ⌊(n-1)/2049⌋ flushes and the set holds (n-1) mod 2049 + 1 ids |
| `ControlClient.RepliesSound` | internal/control/client.go:220-236 | an ack is only sent for an id that was applied; a remembered message changes nothing |
| `OverlappingReaders.SharedWindow` | internal/control/client.go:498-511 | with up to r overlapping readers the seen set stays within 2049 ids, no id is applied more than r times between flushes, and n applications flush at most ⌊(n-1)/2049⌋ times |
| `OverlappingReaders.SharedReached` | internal/control/client.go:220-236 | r applications of one id within a window are reached for every r |
| `CommandQueue.DeliveryQueue.Deliver` | internal/controlplane/nodehub.go:214-240 | one tick has the effect of its single statements and socket writes one by one, with any row updates failing, broken off at any point, also between a write and its row update |
| `CommandQueue.DeliveryQueue.WriteRows` | internal/controlplane/nodehub.go:220-237 | of the rows reached, those whose update went through are marked sent, counted and given their next due time |
| `CommandQueue.ScriptRun` | internal/controlplane/nodehub.go:214-240 | the steps of a tick compose to the row updates that went through and, if it finished, the sweep of expired commands |
| `CommandQueue.RunInv` | internal/controlplane/nodehub.go:214-240 | along every interleaving each command's attempts are spaced by the backoff schedule inside its 24 hours |
| `CommandQueue.WritesBounded` | internal/controlplane/nodehub.go:214-240 | in every run a command is put on the socket at most 344 times plus once for each write whose row update did not happen, never more than 43 201 times with a ticker of two seconds, and has at most 344 updates |
| `CommandQueue.WriteBoundReached` | internal/controlplane/nodehub.go:220-237 | every number of losses and of updates that fits into the 24 hours at that pace is reached, with that many writes in sum |
| `CommandQueue.FitsExact` | internal/controlplane/nodehub.go:86-94 | all 344 updates fit beside exactly up to 63 losses, and exactly up to 43 199 losses fit alone |
| `CommandQueue.NoStarvation` | internal/controlplane/nodehub.go:214-240 | completed ticks for which a command was due but left out number at most ⌊(344·m + x)/50⌋, m counting the commands created no later and x their failed row updates |
| `DeliveryTerms.PickedExact` | internal/controlplane/nodehub.go:214-222 | a tick starts if and only if the ticker fired in time, and takes the oldest commands that wait, are due and not expired; if it leaves one out it takes fifty no younger |
| `DeliveryTerms.TickPossible` | internal/controlplane/nodehub.go:215-215 | whatever the table holds, the query has such an answer |
| `DeliveryTerms.UpdateExact` | internal/controlplane/nodehub.go:236-236 | a row update marks the command sent and puts it off by two seconds, doubled for each attempt up to the seventh |
| `SubscriptionRuns.LedgerReconciles` | internal/controlplane/app.go:621-693 | in every reachable state each wallet is non-negative and the sum of its ledger rows, every `balance_after` is the matching prefix sum, no key repeats |
| `SubscriptionRuns.RenewalKeyFresh` | internal/controlplane/workers.go:89-89 | the key of a due renewal is new, so `ON CONFLICT DO NOTHING` never drops its ledger row |
| `SubscriptionRuns.RenewalExact` | internal/controlplane/workers.go:89-89 | a renewal keeps the books if and only if its key is unused |
| `SubscriptionRuns.ForgedKeyExample` | internal/controlplane/admin.go:362-400 | a run from the empty tables in which a credit under the key of a coming renewal makes that renewal take money without a ledger row |
| `SubscriptionRuns.RenewalsSpaced` | internal/controlplane/workers.go:83-117 | a user's automatic charges are for period ends at least 30 days apart, whatever purchases interleave |
| `SubscriptionRuns.PassIdempotent` | internal/controlplane/workers.go:83-117 | a second pass at the same instant, in any row order, changes nothing |
| `SubscriptionRuns.PassSettles` | internal/controlplane/workers.go:93-95 | after a pass no active subscription is overdue |
| `SubscriptionTerms.PassTerms` | internal/controlplane/workers.go:83-117 | in every reachable state and row order a covered user pays exactly 14 900, 29 900 or 49 900 kopecks for the next plan, has that as the one new ledger row under a key of that period end, and gets the plan, its quota, no usage and exactly 30 more days; anyone else keeps money, plan and quota and only ages |
| `SubscriptionRuns.SubscriptionMachine` | internal/controlplane/workers.go:89-95 | every reachable subscription is in an allowed state: pending trial and expired only on TRIAL, grace and suspended only on paid plans, active with an end and no grace, a scheduled plan cheaper and never TRIAL, suspension at least 24 hours after grace began |
| `SubscriptionRuns.TrialNeverReentered` | internal/controlplane/app.go:777-797 | whoever left the trial never returns, a trial starts at most once, and no transaction of any run moves the end of a period back |
| `SubscriptionRuns.SteppedUpgrade` | internal/controlplane/app.go:666-698 | upgrading over a middle plan never costs or grants more than directly, and at one instant saves at most one kopeck |
| `SubscriptionTerms.ExtendTerms` | internal/controlplane/app.go:621-650 | the plan one has, asked for while active: 30 days and the plan's quota more at the list price, from the later of end and now, if covered and under a new key; else nothing |
| `SubscriptionTerms.DowngradeTerms` | internal/controlplane/app.go:651-665 | a cheaper plan while active books nothing and is only noted |
| `SubscriptionTerms.UpgradeCharge` | internal/controlplane/app.go:666-698 | a dearer plan inside an active paid period: the prorated cost and quota, period and usage kept; refused if that cost is nothing |
| `SubscriptionTerms.PurchaseTerms` | internal/controlplane/app.go:666-698 | any other purchase: 30 days from now with the plan's quota at the list price; usage of a trial is forgotten |
| `SubscriptionTerms.CreditTerms` | internal/controlplane/admin.go:362-400 | a credit is booked if and only if it is positive, the balance stays within 64 bits and the key is new |
| `SubscriptionTerms.AdjustTerms` | internal/controlplane/admin.go:174-195 | an adjustment is booked if and only if it is not zero, the true sum is representable and not negative, and the key is new |
| `SubscriptionRuns.AdjustExact` | internal/controlplane/admin.go:174-195 | the check on a 64-bit wrapped sum accepts exactly the adjustments whose true sum is representable and non-negative |
| `Subscriptions.Billing.ChangePlanRequest` | internal/controlplane/app.go:583-703 | the request renews, schedules a downgrade or purchases, as one transaction, by the rules of `ChangePlan` |
| `Subscriptions.Billing.Extend` | internal/controlplane/app.go:621-650 | the same plan is extended by a period and paid, or nothing changes |
| `Subscriptions.Billing.Buy` | internal/controlplane/app.go:666-698 | a dearer plan or a first paid one is charged and set up, or nothing changes |
| `Subscriptions.Billing.Quote` | internal/controlplane/app.go:666-678 | cost and new subscription of a purchase, prorated inside a paid period and full outside |
| `Subscriptions.Billing.Charge` | internal/controlplane/app.go:683-698 | balance, subscription and ledger row change together; a zero cost or a used key rolls all back |
| `Subscriptions.Billing.InsertEntry` | internal/controlplane/migrations/001_initial.sql:64-68 | a row is refused exactly if its amount is zero or its key is used |
| `Subscriptions.Billing.AdjustWalletRequest` | internal/controlplane/admin.go:151-202 | a signed adjustment in 64-bit arithmetic, refused below zero or under a used key |
| `Subscriptions.Billing.CreditWalletRequest` | internal/controlplane/admin.go:362-400 | a positive credit, booked once per key |
| `Subscriptions.Billing.FirstUseRequest` | internal/controlplane/app.go:777-797 | a pending trial starts for three days unless the fingerprint was used; nothing else changes |
| `Subscriptions.Billing.RenewUser` | internal/controlplane/workers.go:89-89 | one due and covered user is debited, renewed onto the scheduled plan and booked unless the key is used |
| `Subscriptions.Billing.RenewDue` | internal/controlplane/workers.go:89-89 | the set-wide renewal is the fold of single ones in the order visited |
| `Subscriptions.Billing.AgeSubscriptions` | internal/controlplane/workers.go:93-95 | the three set-wide updates together do what `Aged` does to each row |
| `Subscriptions.UpdatesCompose` | internal/controlplane/workers.go:93-95 | the three updates in order equal `Aged`: a subscription that enters grace in a pass is not suspended by it |
| `Subscriptions.Billing.SubscriptionLifecycle` | internal/controlplane/workers.go:83-117 | one pass is renewals, then ageing, in one transaction |
| `Proration.ChainNeverMore` | internal/controlplane/billing.go:11-30 | a chain of upgrades at non-decreasing times never costs or grants more than the direct one at its first time |
| `Proration.ChainAtOnce` | internal/controlplane/billing.go:11-30 | at one instant a chain of k upgrades is at most k-1 units lower |
| `Proration.ProrateExact` | internal/controlplane/billing.go:19-29 | cost and extra quota are the differences times the whole seconds left, at most a period, over the seconds of a period, rounded down |
| `Proration.ProrateEnds` | internal/controlplane/billing.go:11-29 | a whole period left costs exactly the difference, a period that is over the full price, a cheaper plan nothing |
| `Proration.ProrateWithin` | internal/controlplane/billing.go:11-30 | cost and quota lie between zero and the difference of the plans |
| `Proration.NoOverflow` | internal/controlplane/migrations/001_initial.sql:47-51 | for plans up to the seeded ones no product leaves 64 bits |
| `PriorityGate.EveryRunSafe` | hysteria-patches/0003-risevpn-prioritize-authenticated-sessions.patch:52-108 | in every interleaving the active count is the number of slots held and within capacity, nobody waits while a slot is free, each waiter is queued once |
| `PriorityGate.NoSlotLeaks` | hysteria-patches/0003-risevpn-prioritize-authenticated-sessions.patch:61-108 | once every session is gone the gate is as at the start |
| `PriorityGate.CancelRace` | hysteria-patches/0003-risevpn-prioritize-authenticated-sessions.patch:77-90 | a cancellation either leaves the queue without touching a slot or finds its slot granted and keeps it |
| `PriorityGate.WaitsInItsClass` | hysteria-patches/0003-risevpn-prioritize-authenticated-sessions.patch:61-76 | in every run a session waits in the class of the priority it arrived with, everything above 3 in class 3 |
| `PriorityGate.HandsOver` | hysteria-patches/0003-risevpn-prioritize-authenticated-sessions.patch:93-108 | a release while a session waits wakes exactly one |
| `PriorityGate.ServedInOrder` | hysteria-patches/0003-risevpn-prioritize-authenticated-sessions.patch:93-108 | the one it wakes asked for no lower priority than any that goes on waiting, and arrived first among those of its priority |
| `PriorityGate.GrantedWithin` | hysteria-patches/0003-risevpn-prioritize-authenticated-sessions.patch:93-108 | a waiter with k sessions ahead is granted within k+1 releases if it does not cancel and nothing higher arrives |
| `PriorityGate.TopClassGrantedWithin` | hysteria-patches/0003-risevpn-prioritize-authenticated-sessions.patch:93-108 | a class-3 waiter at position k is granted within k+1 releases, whatever arrives |
| `PriorityGate.SessionGate.Acquire` | hysteria-patches/0003-risevpn-prioritize-authenticated-sessions.patch:61-76 | admits exactly if a slot is free, else queues the session in its clamped class |
| `PriorityGate.SessionGate.CancelWait` | hysteria-patches/0003-risevpn-prioritize-authenticated-sessions.patch:77-90 | removes the waiter in place and in order, or reports that it was granted meanwhile |
| `PriorityGate.SessionGate.ReleaseSlot` | hysteria-patches/0003-risevpn-prioritize-authenticated-sessions.patch:93-108 | hands the slot to the head of the highest waiting class or frees it |
| `Admission.AdmissionAgrees` | internal/policy/service.go:38-59 | Hysteria's authentication accepts exactly the devices that Xray's check allows, at every instant |
| `Admission.AllowedExact` | internal/xray/manager.go:265-283 | who is admitted, in terms of the device's fields and the four plan quotas |
| `Admission.SessionExact` | internal/policy/service.go:38-74 | what an admitted device gets: the override while it lasts, else its plan's speeds, throttled past the quota; always its plan's priority |
| `Admission.FlipExact` | internal/usage/collector.go:82-95 | more usage turns an admitted device away exactly if the kick rule fires and it is not merely throttled |
| `Admission.Collector.Collect` | internal/usage/collector.go:70-95 | a pass records the counters up to the first unknown device and kicks every device it turns away |
| `Admission.Collector.CollectOne` | internal/usage/collector.go:70-95 | one counter is recorded, and its device kicked exactly by the kick rule on its new usage |
| `Admission.AllRecorded` | internal/usage/collector.go:51-97 | the cleared counters are all recorded if and only if every device among them is known |
| `Admission.JournalExact` | internal/usage/collector.go:70-77 | a pass over known devices journals every non-negative counter, in order and as read |
| `XrayManager.Manager.Reconcile` | internal/xray/manager.go:86-129 | a finished pass leaves exactly the allowed, unblocked devices with their derived UUIDs and foreign users as they were; every remote change lowers the distance; without faults it finishes if and only if every credential decodes and no name is hidden; on a converged table it does nothing; a managed user is never added, by the preconditions of `Enter` and `Server.Add` |
| `XrayManager.Manager.Sweep` | internal/xray/manager.go:101-122 | after the first loop every user that was present is right or gone and all others are untouched |
| `XrayManager.Manager.Fill` | internal/xray/manager.go:123-128 | the second loop completes the table |
| `XrayManager.Manager.Enter` | internal/xray/manager.go:192-210 | only called for a device that is not managed; on success the device is right, otherwise the call failed or the name is hidden |
| `XrayManager.ChangesBounded` | internal/xray/manager.go:86-129 | any number of passes, failed or not, together change the table at most as often as its distance at the start |
| `XrayManager.ZeroIsConverged` | internal/xray/manager.go:86-129 | distance zero is convergence |
| `XrayManager.Manager.Upsert` | internal/xray/manager.go:65-73 | the device is unblocked and, on success, present with its UUID exactly if allowed; without faults it succeeds unless its credential does not decode or its name is hidden; a right entry is left alone; no other entry changes |
| `XrayManager.Manager.Revoke` | internal/xray/manager.go:75-80 | the device is blocked and, on success, gone; no other entry changes |
| `XrayManager.Server.Add` | internal/xray/manager.go:192-210 | takes a user that is not managed; refuses a hidden name and changes no other entry |
| `XrayManager.Manager.CollectUsage` | internal/xray/manager.go:131-170 | readings up to a failed one are recorded, every device turned away is blocked and, without faults, gone from the table |
| `XrayManager.SampledExact` | internal/xray/manager.go:141-168 | a collection pass journals the readings up to a failed one that count anything, in order, and blocks only devices it read |
| `XrayManager.Server.List` | internal/xray/manager.go:228-254 | exactly the entries with a managed name and a VLESS account |
| `XrayManager.EmailRoundTrip` | internal/xray/manager.go:291-291 | a device id is recovered from its user name |
| `QuotaLeases.LeaseDiscipline` | internal/controlplane/provisioning.go:29-78 | in every run at most one lease of a device is unexpired, and every grant was positive, at most 1 GB and at most quota minus used |
| `QuotaLeases.ProvisionExact` | internal/controlplane/provisioning.go:46-71 | in every reachable state a device is refused, upserted or leased exactly the lesser of 1 GB and what is left, for 24 hours, as its subscription, running lease and quota say |
| `QuotaLeases.GrantsPaced` | internal/controlplane/provisioning.go:49-71 | grants in a window of length W total at most ⌊W/24h⌋ + 1 + r GB, r counting the rebindings inside |
| `QuotaLeases.RenewedOk` | internal/controlplane/workers.go:58-63 | a pass of the renewal worker at any later instant keeps the discipline of every device |
| `QuotaLeases.GrantBounds` | internal/controlplane/provisioning.go:15-27 | a lease is only handed out when none is active, within 1 GB and the remaining quota |
| `QuotaLeases.LeaseBook.ProvisionDevice` | internal/controlplane/provisioning.go:29-78 | upsert only while a lease is active, else a lease of what is reservable, else an error; keeps the discipline of every device |
| `QuotaLeases.LeaseBook.RenewLeases` | internal/controlplane/workers.go:58-63 | devices are provisioned in order up to the first that is refused; keeps the discipline of every device |
| `QuotaLeases.LeaseBook.RebindDevice` | internal/controlplane/app.go:545-582 | refused within 24 hours of the last binding, else all leases of the device are dropped; keeps the discipline of every device |
| `Sessions.CacheTransparent` | internal/controlplane/app.go:229-273 | while clients send the cookies they were given, HTTP status, user, expiry and CSRF token of a request follow from what was issued and revoked if and only if, for an active user's token in time: the row is valid and the cache answers and has the entry or takes it, or the row is not valid and the cache has no entry or does not answer; so it is for every request the cache serves after no failed cache write, whatever entries were lost |
| `Sessions.LossExact` | internal/controlplane/app.go:229-273 | losing a live entry leaves the session the same up to role and second factor if and only if the CSRF cookie sent is the one in the entry, the row is valid, the user is active and the cache takes the new entry |
| `Sessions.ReadExact` | internal/controlplane/app.go:229-273 | the session read: the entry while it lasts, else one with the row's user and end, the user's present role, the cookie as CSRF token and no second factor |
| `Sessions.ServedSound` | internal/controlplane/app.go:190-208 | whoever is served is active and holds a token issued to that user, not past 30 days, whose row is valid or whose cache entry outlived it |
| `Sessions.LoggedOut` | internal/controlplane/app.go:374-381 | a token whose logout dropped the entry and revoked the row is never served again |
| `Sessions.LogoutExact` | internal/controlplane/app.go:374-381 | after a logout a token that is in time is served in some continuation if and only if its valid row was not revoked or its entry was there and not dropped |
| `Sessions.LogoutFails` | internal/controlplane/app.go:374-381 | two runs with an answered logout after which the token is still served, one for each ignored error |
| `Sessions.RetentionHarmless` | internal/controlplane/workers.go:286-289 | the 90-day deletion never changes what a request gets |
| `Sessions.MfaNotRestored` | internal/controlplane/mfa.go:59-104 | after its cache entry was lost a session has no second factor until a right code is given again |
| `Sessions.SessionStore.Read` | internal/controlplane/app.go:229-273 | the cached session while it lasts, else one rebuilt from row, current role and cookie, without second factor, provided the cache takes it |
| `Sessions.SessionStore.RequireSession` | internal/controlplane/app.go:190-208 | refused without a session, for an inactive user, or on an unsafe method with another CSRF token |
| `Sessions.SessionStore.IssueSession` | internal/controlplane/app.go:274-293 | entry and row for 30 days, or neither, or the entry alone if the row fails and the entry cannot be taken back |
| `Sessions.SessionStore.LogoutSession` | internal/controlplane/app.go:374-381 | drops the entry and revokes the row, each unless it fails; neither failure is reported |
| `Sessions.SessionStore.VerifyCode` | internal/controlplane/mfa.go:59-104 | the cached session gains the second factor exactly for a served request with a role and a right code |
| `Enrollment.IdentityStays` | internal/enrollment/service.go:168-200 | in every run the identity is there as a whole or not at all, and never changes once there |
| `Enrollment.ClaimedOnce` | internal/store/store.go:191-216 | each token is claimed at most once, with no other token issued between, and less than a day and a second after its issue |
| `Enrollment.OnlyLatest` | internal/store/store.go:164-169 | only the token issued last can be claimed |
| `Enrollment.ClaimExact` | internal/store/store.go:191-216 | a claim is accepted on exactly these conditions, and then each of its fields is stored under its own key and no other key changes |
| `Enrollment.OpenForADay` | internal/enrollment/service.go:87-100 | a token that is neither replaced nor claimed can be claimed for its whole 24 hours |
| `Enrollment.HandedOutIsOpen` | internal/enrollment/service.go:53-68 | a token that is handed out can be claimed at that moment |
| `Enrollment.Service.EnsureIdentity` | internal/enrollment/service.go:168-200 | writes all three keys or none |
| `Enrollment.Service.EnsureNode` | internal/enrollment/service.go:53-68 | nothing for a claimed node, the current token while it lasts, else a new one; the identity stays written if the row fails |
| `Enrollment.Service.ReenrollNode` | internal/enrollment/service.go:87-100 | a new unclaimed token for 24 hours replaces the row, or an error with only the identity written |
| `Enrollment.Service.ClaimOnce` | internal/enrollment/service.go:102-166 | a claim changes the store exactly if it is acceptable; it reports failure if the second transaction fails |
| `Compliance.MatchesLabels` | internal/compliance/service.go:138-144 | the text comparison holds if and only if the rule's label list is a suffix of the host's |
| `Compliance.DomainExact` | internal/compliance/service.go:140-140 | a rule stands for its text without the spaces around it and without one leading dot, in lower case |
| `Compliance.HostExact` | internal/compliance/service.go:138-138 | a host is taken without one final dot, in lower case |
| `Compliance.SubdomainsRefused` | internal/compliance/service.go:138-144 | refusing a name refuses every name below it |
| `Compliance.ValidVerdict` | internal/compliance/service.go:121-163 | on validated rules the check never fails and its answer does not depend on the order of the entries |
| `Compliance.ValidateRules` | internal/compliance/service.go:70-96 | accepts exactly the rules whose domains are non-blank without ` /:@`, whose ranges parse and whose ports are 1 to 65535 |
| `Compliance.ScanDomains` | internal/compliance/service.go:139-144 | true exactly if some rule is the host or above it, by labels |
| `Compliance.ScanRanges` | internal/compliance/service.go:145-155 | a hit or an error, whichever range comes first |
| `Compliance.ScanRules` | internal/compliance/service.go:121-163 | domains, then ranges, then ports, for any rules, valid or not |
| `Compliance.Service.Apply` | internal/compliance/service.go:36-68 | a feed is stored exactly if metadata, dates, rules and signature are right; otherwise the last one stays |
| `Compliance.Service.Blocked` | internal/compliance/service.go:121-163 | never an error; true exactly if a stored rule refuses the address |

## Left out

- HTTP routing, JSON, OIDC login, Telegram, notifications, node location choice, statistics, the web interface and the installer: no hard invariant.
- Ed25519, AES-GCM, X.509, TOTP: parameters or flags.
- Device fingerprints that refuse a second trial, device slots and roles: single lookups.
- Certificate rotation, and the side updates that an ack makes to certificates and compliance versions: a second ack is not idempotent there.
- End-to-end enforcement of a lease: a controller upsert resets the lease on the node, so the code makes no such promise.
- Progress of the lease renewal worker: it stops at the first error.
- Kick commands that a usage batch queues when a subscription runs out: they do not take part in the accounting.
- Two live connections of one node on the controller's side.
- Overlapping readers in `ControlProtocol`, where a message is received in one action: forgetting the seen ids at a restart allows the same repeated applications there.
- Retention of usage rows: a row removed after 13 months would let a very late repeat be counted again.
- The text form of event ids, and the fields of messages that no property reads.
- A failed status update on an ack or nack, which the source ignores: the row then stays as it was, as after a lost reply.
- A database that does not answer a session request: the request is refused.
- 64-bit overflow of usage and quota sums, except in wallet adjustments and prorating, where it is written out.
- Passes and requests of the Xray manager that overlap: each is one method call.
- Two requests that overlap inside `readSession` or between its cache and table accesses: a request is one action.
- Unicode details of trimming and lower-casing, IP and range parsing: parameters of `Compliance`.
- JSON errors in a stored or offered rule set: rules are already decoded.
- Hysteria's bandwidth limiting and the other patches: they depend on upstream code that is not shown.
- WritesBounded: one live connection per node, so ticks of the same node do not overlap; taking a firing of the ticker up and asking the database are one instant.
- LedgerReconciles: administrators' keys avoid the `renew:` prefix; RenewalExact says what happens otherwise.
- CacheTransparent: does not distinguish the two kinds of HTTP 401, because a blocked user gets one with and the other without a cache entry.
- Collect: kicks are the list of devices to kick; the calls that carry them out can fail and are not modelled.
- CollectUsage: the store is only changed by this pass while it lasts.
