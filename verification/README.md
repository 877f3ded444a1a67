# Sydney back end: money, subscriptions, limits and totals

A Dafny model of the parts of the back end where a wrong step costs money or access, with proofs of what
those parts promise.

**Payments** (`PaymentStates`, `PaymentStore`, `AuditTrail`, `PaymentPlans`, `PaymentInvariant`, `PaymentCommits`,
`PaymentSteps`, `PaymentRuns`, `PaymentTheorems`, `PaymentSerial`, `PaymentJournal`, `PaymentAnswers`,
`PaymentCauses`, `PaymentProgress`, `ProviderSafety`, `InboxOnce`, `InboxEffects`, `InboxAttempts`, `InboxOverlap`,
`InboxMissed`, `PaymentDatabase`, `PaymentService`).
The four payment tables are a `Store` with its CHECK, UNIQUE and foreign-key constraints and an atomic commit that
compares row versions. Every service operation is described twice: as a *plan*, a function from the states its reads
saw to the transaction it attempts, and as a method of `PaymentService` that changes a session's copies in place.
A run (`PaymentRuns`) is any list of steps; each step names, for every read it makes, the position in the history of
committed states that this read saw. So stale reads, lost races, crashes between two phases, repeated provider calls,
lost answers, and duplicated or reordered webhook deliveries are all just runs. One invariant is proved for every
committed state of every run, and the theorems follow from it.
The methods work on a `Database` that keeps the run of all its writers. Other writers may take any steps in the gap
between any two moments of a method; a method extends the run by the gaps and by its own step, and the rows it stores
are what that step comes to. So every theorem about runs is a theorem about the methods, whatever is interleaved.
`PaymentSerial` and `PaymentJournal` say what the stale reads amount to: a commit that writes anything is the one the
operation makes when it runs alone, so the ledger is the outcome of the accepted operations and events one by one.
`PaymentAnswers` says, operation by operation and in the terms of the request and the provider's reply, what is accepted,
what is answered and which columns change; `PaymentCauses` traces every stored status, captured amount and refund over all
runs to the request, reply or event that reported it; `PaymentProgress` gives the exact conditions under which a commit is
accepted.

**Billing** (`Calendar`, `Subscriptions`, `SubscriptionChanges`, `SubscriptionRuns`, `SubscriptionTheorems`,
`SubscriptionInvoices`, `SubscriptionAnswers`, `SubscriptionProgress`, `SubscriptionDatabase`, `SubscriptionService`,
`UsageQuota`). The subscription row, its time-dependent status, its append-only log, the global trial claims, the
anchored billing months and the metered quota.
Operations are functions from a row as read to an edited row and added events; runs again allow stale reads and
concurrent writers, and a catalog that changes from step to step; `SubscriptionService` is the imperative form, on a
database that keeps its run as above and flushes row, events and claims one statement at a time. `SubscriptionAnswers` says
what each operation and event accepts, leaves behind and gives access to, and `SubscriptionProgress` when it is stored.

**Smaller cores.** `RateLimit` (the sliding-window limiter against one that remembers everything), `SaleLedger`,
`DashboardPeriods` and `DashboardTotals` (refund ledger, reporting periods, trend buckets and totals), `Luhn`.

Times are integers (microseconds) or calendar values, the rate limiter's clock is `real`, money is in minor units.
SHA-256 fingerprints and identity hashes are modelled as injective: the parameters stand for their own fingerprint.
Every lemma is marked `{:induction false}`: a proof by induction spells out its own recursion.

## Results that are not plain confirmations

- **The webhook inbox is not exactly-once in every run.** The inbox row has no version column and its status is not
  read again at the commit, so an attempt that lost a race can write `failed` over `processed`, and the event is
  attempted again. `OverlappingAttemptsApplyTwice` is a concrete run. `ExactlyOnceIff` gives the exact condition: no
  event is applied twice if and only if no accepted attempt got past the guard of a settled event, for which there are
  three ways: the event was settled after the attempt's look, a failure mark had replaced the settled one before the
  look, or the recording delivery went on without looking (`GuardMissesIff`). What a second
  application can do is bounded in every run, overlaps included: an event whose earlier attempts were ignored or failed
  writes at most once, and once it has written it writes again if and only if it takes the payment back over the
  pending/requires_action swap (`EventsWriteAtMostOnce`, `WritesAgainIff`). The losing attempt may fail for any reason:
  a lost version race where row locks have no effect, or any other error.
- **An event can be settled without its effect.** `EventIsLost` is a concrete run: the event is looked up before the
  checkout has stored the provider's name for the payment, and is settled as ignored afterwards. `EventIsLostIff` is the
  exact condition: an accepted attempt that wrote nothing loses its event if and only if the rows that its look-ups
  would find at the commit are open to the event; and then its own look-ups had come out differently, or it is the swap.
  An attempt that found its rows misses nothing else (`NothingIsMissed`).
- **The limit of ten attempts can be exceeded by one.** The delivery that recorded an event goes on to its own attempt without
  looking at the row again; if ten redeliveries have failed meanwhile it makes an eleventh (`ElevenAttempts`, exact condition in
  `LimitIsBrokenIff`). For the same reason it may apply an event that a redelivery has settled: `ExactlyOnceIff` covers that too.
- **A refund can raise revenue.** `record_refund` does not ask whether the sale succeeded: `RefundRaisesRevenueIff` gives the
  exact condition and `PendingSaleEntersRevenue` an instance.
- **An override edge that no operation takes.** The billing state machine lists canceled to trialing for superadmins, and
  `docs/subscription-billing.md:49` offers it; `extend_trial` is only accepted for trialing and expired subscriptions
  (`CanceledIsNeverPutOnTrial`).
- **An older invoice reported again takes effect.** A paid invoice is ignored if and only if the row is active in the
  very period it bills (`InvoiceIsIgnoredIff`); a report of the period before that one sets the row back to it.
- **Cancelling during a grace period ends access at once.** After the trial or period end, `set_cancel_at_period_end` takes away the
  grace, and can no longer be taken back (`CancelIsRevertedIff`).
- `receive_webhook` documents that only failed events are retried on redelivery; the code, and the model, retry received ones too.

## Model

| member | source | states |
|---|---|---|
| PaymentStates.MovesDescend | backend/app/payments/state_machine.py:49-68 | every allowed payment move strictly lowers a rank, except the pending/requires_action swap, which keeps it |
| PaymentStates.LeadsIsClosed | backend/app/payments/state_machine.py:49-68 | the reachability relation between statuses contains every move and composes |
| PaymentStates.LeadsIsReached | backend/app/payments/state_machine.py:49-68 | and it contains nothing but what moves reach |
| PaymentStates.ReentryOnlyLateral | backend/app/payments/state_machine.py:17-20 | a status once left can be entered again only by the lateral swap |
| PaymentStates.NeverReoccupies | backend/app/payments/state_machine.py:70-77 | exactly failed, cancelled, expired and refunded are final, and no path leaves a status that frees the reference for one that occupies it |
| PaymentStates.MovesInto | backend/app/payments/state_machine.py:49-77 | the table read by its targets: what may become each status; a payment is cancellable or refundable exactly if it may become cancelled or refunded |
| PaymentStates.RefundMovesInto | backend/app/payments/state_machine.py:79-83 | a refund is settled once |
| AuditTrail.SequencesAreOneToN | backend/app/payments/service.py:180-194 | recursively numbered audit rows carry, per payment, exactly the numbers 1..n |
| AuditTrail.ForwardMovesBounded | backend/app/payments/state_machine.py:49-68 | a chain of permitted moves has at most five that are not pending/requires_action swaps |
| PaymentInvariant.AcceptedNumbersAreNext | backend/app/payments/models.py:212-213 | audit numbers taken from any earlier look at the trail are the next free ones, or the unique key refuses the commit, also for commits with two audit rows |
| PaymentInvariant.EffectKeeps | backend/app/payments/models.py:78-90 | a commit that changes one payment and one refund by matching amounts, with matching audit rows, keeps the whole ledger invariant, including the sums over all other refunds |
| PaymentCommits.AcceptedReadsAreCurrent | backend/app/payments/models.py:125-129 | an accepted commit that writes a payment or refund row had read its stored version |
| PaymentCommits.PendingHasRoom | backend/app/payments/service.py:218-231 | a pending refund's amount is reserved and not yet paid, so its payment is refundable and has room for it |
| PaymentCommits.CompleteEffect | backend/app/payments/service.py:218-223 | completing a refund: if the commit is accepted the payment's move was not refused, and refund, payment and audit rows change together |
| PaymentCommits.FailEffect | backend/app/payments/service.py:225-231 | failing a refund releases exactly its reservation |
| PaymentCommits.ReserveEffect | backend/app/payments/service.py:392-408 | reserving a refund adds exactly its amount to the reservation and one pending refund |
| PaymentSteps.HalfAppliedNeverCommits | backend/app/payments/service.py:613-620 | the handler of a refused transition never commits a half-applied refund: an accepted commit reported as ignored wrote nothing |
| PaymentSteps.ExpireFollows | backend/app/payments/service.py:494-508 | the expiry job's single commit over many payments keeps the invariant, though each payment's audit number was looked up in another state |
| PaymentRuns.EveryRunKeepsInvariant | backend/app/payments/service.py:139-637 | every committed state of every run satisfies the invariant, and every earlier state is extended, never rewritten |
| PaymentTheorems.RefundsAreConserved | backend/app/payments/models.py:78-87 | in every committed state reserved is the sum of pending and succeeded refunds, refunded the sum of succeeded ones, and 0 <= refunded <= reserved <= captured <= amount |
| PaymentTheorems.StatusAndMoneyAgree | backend/app/payments/service.py:218-223 | captured, partially_refunded and refunded hold exactly for their amounts, and no money moved in any other status |
| PaymentTheorems.PaymentsOnlyMoveForward | backend/app/payments/service.py:196-205 | between any two states of a run: captured is written once, refunded never shrinks, final statuses stay, no reference is occupied again |
| PaymentTheorems.HistoryIsOrdered | backend/app/payments/models.py:125-129 | any two committed states of a run extend one another: rows keep identity, key and amount, versions grow, the audit table only grows |
| PaymentTheorems.AuditTrailIsComplete | backend/app/payments/service.py:180-216 | numbers are exactly 1..n, and replaying the recorded changes gives an unbroken chain of permitted moves ending at the stored status, for each payment and each refund |
| PaymentTheorems.StatusChangesAreBounded | backend/app/payments/state_machine.py:49-70 | a payment makes at most five status changes in its life, not counting the lateral swap |
| PaymentTheorems.CompletionIsNeverRefused | backend/app/payments/service.py:218-223 | in every committed state, completing a pending refund raises nothing, and leaves the payment refunded exactly when all captured money is paid back |
| PaymentTheorems.StaleRefundAborts | backend/app/payments/service.py:428-456 | a writer that settles a refund from a row written since commits nothing, however fresh its payment row is |
| PaymentTheorems.KeyReservesOnce | backend/app/payments/service.py:383-419 | while a refund with an idempotency key is stored, another request with the key commits nothing, even when its look-up came too early |
| PaymentTheorems.KeyCreatesOnce | backend/app/payments/service.py:274-297 | the same for the keys of payments |
| PaymentTheorems.RefundKeyAnswersFromItsRow | backend/app/payments/service.py:234-237 | a used key is answered from the one refund that carries it: replayed for the same request, a conflict for any other |
| PaymentTheorems.IntentKeyAnswersFromItsRow | backend/app/payments/service.py:234-237 | the same for the keys of payments |
| PaymentTheorems.ReferencesOnlyChallengedAtCreation | backend/app/payments/models.py:92-101 | as long as no payment is added, the state machine alone keeps one live payment per business and reference |
| ProviderSafety.ProviderNeverOverpays | backend/app/payments/service.py:371-456 | with any provider that gives each refund id one stable outcome, what it pays back on a payment never exceeds the reservation, and so the captured amount, whatever is lost or repeated |
| ProviderSafety.RunStaysFaithful | backend/app/payments/service.py:428-456 | stored refund outcomes are always the provider's own |
| InboxOnce.EventsApplyExactlyOnce | backend/app/payments/service.py:567-589 | in runs whose attempts of one event do not overlap, every settled event was applied exactly once and every other one not at all |
| InboxOnce.ExactlyOnceIff | backend/app/payments/service.py:549-589 | over all runs: no event is applied twice if and only if no accepted attempt got past the guard of a settled event |
| InboxOnce.GuardMissesIff | backend/app/payments/service.py:549-565 | an accepted attempt is of an event settled in some earlier state exactly when that happened after its look, or a failure mark had replaced the settled one before, or the recording delivery did not look |
| InboxOnce.OnceIsLostIff | backend/app/payments/service.py:573-589 | the same for a single step |
| PaymentSerial.OperationIsSerial | backend/app/payments/service.py:167-177 | an accepted operation that writes the ledger writes exactly what it writes when it runs alone at the present state, whatever stale states its reads saw |
| PaymentSerial.AttemptIsSerial | backend/app/payments/service.py:567-589 | an accepted attempt writes no ledger row, or exactly its event applied to the present state, with the look-ups holding there |
| PaymentSerial.EventSerial | backend/app/payments/service.py:591-637 | the same for the handler of one event, read by read |
| PaymentJournal.LedgerIsJournal | backend/app/payments/service.py:139-637 | in every run the ledger is what comes out when the accepted operations and events are applied one after another, each alone, with every read at the state its predecessors left |
| PaymentCauses.CapturesAreReported | backend/app/payments/service.py:622-637 | over all runs: the captured amount of every payment is the one an accepted capture event named, the full amount when the event named none, or the one a checkout answer reported |
| PaymentCauses.StatusHasACause | backend/app/payments/service.py:302-637 | over all runs: every payment's status goes back to an accepted entry that allows it: creation, the checkout answer, a cancellation the provider confirmed, an expiry that had come, an event of that kind, or a refund that succeeded |
| PaymentCauses.PaymentsAreAsCreated | backend/app/payments/service.py:243-299 | over all runs: every payment has the reference, provider, amount and currency it was asked for |
| PaymentCauses.RefundsAreAsRequested | backend/app/payments/service.py:371-408 | over all runs: every refund is of the payment it was asked for, and of exactly the requested amount if one was named |
| PaymentCauses.RefundHasACause | backend/app/payments/service.py:371-456 | over all runs: every refund's outcome and name go back to its request, the provider's answer about it or a refund event under its name |
| PaymentCauses.AuditIsSigned | backend/app/payments/service.py:180-194 | every audit row a step plans names the actor of that step and the refund it acted on, or none |
| PaymentProgress.AloneIsStored | backend/app/payments/service.py:167-177 | in every legal state an operation that runs alone is stored, unless its id, its reference or the provider's name it was given belongs to another row |
| PaymentProgress.OperationCommitsIff | backend/app/payments/service.py:139-508 | over all runs: an operation with something to write is accepted if and only if its stale reads made no difference to what it writes, and it collides with no other row |
| PaymentProgress.AttemptCommitsIff | backend/app/payments/service.py:567-637 | over all runs: an attempt is accepted if and only if it writes no ledger row, or exactly its event looked up and applied alone at the present state |
| PaymentProgress.InboxCommitsIff | backend/app/payments/service.py:532-589 | over all runs: an event is recorded if and only if its key is new, and a failure can always be marked |
| InboxOnce.SettledIsFinal | backend/app/payments/service.py:549-565 | a redelivery or retry that saw the event settled in any state commits nothing, and so does a delivery of a recorded event, or an attempt by a recording delivery that has finished |
| InboxEffects.EventsWriteAtMostOnce | backend/app/payments/service.py:591-637 | over all runs, overlapping attempts included: only pending and requires_action events ever write the ledger more than once, so each event moves money or settles a refund at most once, also when earlier attempts were ignored or failed |
| InboxEffects.WritesAgainIff | backend/app/payments/service.py:622-637 | over all runs: an event that has written would write again if and only if it takes the payment back over the pending/requires_action swap |
| InboxEffects.ReapplicationWritesIff | backend/app/payments/service.py:591-637 | the same in any state in which the event is in effect, for payment and refund events |
| InboxEffects.EffectLasts | backend/app/payments/service.py:593-612 | an event's effect is never undone: the provider ids it is found by are frozen from then on |
| InboxEffects.NothingIsMissed | backend/app/payments/service.py:567-589 | an accepted attempt that found its rows and wrote nothing from stale rows has nothing to write at the present state either, except over the swap |
| InboxEffects.EventIsLostIff | backend/app/payments/service.py:591-637 | an accepted attempt that wrote nothing loses its event if and only if the rows found at the present state are open to it; then its own look-ups had come out differently, or it is the swap |
| InboxMissed.EventIsLost | backend/app/payments/service.py:593-604 | a concrete run of four steps in which an event is settled as ignored although its payment is open to it at the commit |
| InboxEffects.ApplyingTwiceIsApplyingOnce | backend/app/payments/service.py:591-637 | a payment or refund event applied to its own result writes nothing, in every state |
| InboxAttempts.AttemptsAreBounded | backend/app/payments/service.py:549-553 | no event is ever attempted more than eleven times, and never more than ten while its recording delivery is under way |
| InboxAttempts.LimitIsBrokenIff | backend/app/payments/service.py:549-553 | a committing step breaks the limit of ten if and only if it is the recording delivery's own attempt on a row already at the limit |
| InboxAttempts.ElevenAttempts | backend/app/payments/service.py:553-569 | a concrete run in which an event ends up attempted eleven times |
| InboxOverlap.OverlappingAttemptsApplyTwice | backend/app/payments/service.py:580-589 | a concrete run of eight steps in which one event is applied twice, writing the payment both times, because a losing attempt overwrote the inbox row |
| PaymentDatabase.RunFollows | backend/app/payments/models.py:125-129 | a database whose run goes on stays legal and rewrites nothing of the earlier state |
| PaymentDatabase.ReadStays | backend/app/payments/service.py:139-177 | what a session has read can be named by its position in the run ever after |
| PaymentDatabase.Database.Commit | backend/app/payments/service.py:167-177 | the flush stores all parts or none, which is what the step comes to that planned them, and the state left follows every earlier one |
| PaymentService.Session.Audit | backend/app/payments/service.py:180-194 | the new row is numbered after the stored and the unflushed rows of its payment |
| PaymentService.Session.Transition | backend/app/payments/service.py:196-205 | a change moves the status and adds one audit row, a repeat or refusal changes nothing |
| PaymentService.Session.TransitionRefund | backend/app/payments/service.py:207-216 | the same for a refund |
| PaymentService.Session.CompleteRefund | backend/app/payments/service.py:218-223 | the session after completing a refund, with other writers between its two audit look-ups |
| PaymentService.Session.FailRefund | backend/app/payments/service.py:225-231 | the session after failing a refund |
| PaymentService.CreatePayment | backend/app/payments/service.py:243-299 | what is stored and answered, including a lost race on the key and a taken reference |
| PaymentAnswers.CreationIs | backend/app/payments/service.py:243-299 | a payment is created exactly for an amount, currency and expiry within the limits under a new key, with the request's columns and no money moved |
| PaymentService.RequestCheckout | backend/app/payments/service.py:302-342 | what is stored and answered for each provider reply, including immediate capture |
| PaymentAnswers.CheckoutIs | backend/app/payments/service.py:302-342 | when a checkout is recorded, when replayed, and when refused and how; what it records is the answer's name, status, captured amount and expiry |
| PaymentService.CancelPayment | backend/app/payments/service.py:345-368 | what is stored and answered, at the provider first when it knows the payment |
| PaymentAnswers.CancellationIs | backend/app/payments/service.py:345-368 | a payment is cancelled exactly before capture and, if the provider knows it, with the provider's own confirmation for this payment; every other answer |
| PaymentAnswers.UnconfirmedCancelChangesNothing | backend/app/payments/service.py:355-362 | a step of any run that cancels without that confirmation leaves the run as it was |
| PaymentService.ReserveRefund | backend/app/payments/service.py:371-419 | phase 1 of a refund: reservation, limit, replay and conflict |
| PaymentAnswers.ReservationIs | backend/app/payments/service.py:383-408 | the requested amount is reserved, or all that is left when none is named; the limit is exceeded if and only if more is requested than is left, or nothing is left |
| PaymentAnswers.ImpossibleAmountIsRefused | backend/app/payments/service.py:376-377 | an amount out of range is refused before any look-up |
| PaymentService.SubmitRefund | backend/app/payments/service.py:428-456 | phase 2: what each provider answer records, with other writers in every gap |
| PaymentAnswers.RecordingIs | backend/app/payments/service.py:428-456 | what each answer does to a pending refund and its payment: nothing, a name, a released reservation, or money paid back with the status that follows from what is left |
| PaymentAnswers.OthersAreNotFound | backend/app/payments/service.py:139-165 | what another business owns is not found, by every operation; a refund that is not pending is left alone |
| PaymentService.ExpireDue | backend/app/payments/service.py:494-508 | the loop moves every due payment, with other writers before each audit look-up, and one commit stores all or none |
| PaymentAnswers.ExpiryIs | backend/app/payments/service.py:494-508 | the job moves exactly the open payments of the business whose expiry has come, each to expired and nothing else of it |
| PaymentAnswers.DueListExists | backend/app/payments/service.py:494-503 | the expiry query has a result in every state |
| PaymentService.RecordEvent | backend/app/payments/service.py:532-548 | an event is recorded exactly when its key is new, and its row is there either way |
| PaymentService.ReceiveWebhook | backend/app/payments/service.py:532-553 | a delivery records the event before anything else and then attempts it; a redelivery is attempted only if the stored row looks retryable |
| PaymentAnswers.AttemptedIff | backend/app/payments/service.py:549-553 | a redelivery attempts an event exactly while it is neither processed nor ignored and attempted fewer than ten times |
| PaymentAnswers.AttemptWrites | backend/app/payments/service.py:567-589 | an attempt stores exactly what applying the event comes to, with the status it earns and one more attempt |
| PaymentAnswers.InboxWrites | backend/app/payments/service.py:532-589 | a failed attempt marks the row and counts itself; a delivery stores the event as received |
| PaymentService.FindPayment | backend/app/payments/service.py:593-601 | the payment of this business, provider and provider id, or none if no stored payment matches |
| PaymentAnswers.NamedPaymentIs | backend/app/payments/service.py:593-601 | an event finds a payment exactly when one of its business and provider carries the name, and finds only such a one |
| PaymentService.FindRefund | backend/app/payments/service.py:605-612 | the refund of that payment with the event's provider refund id, or none |
| PaymentAnswers.NamedRefundIs | backend/app/payments/service.py:605-612 | the same for the refund of that payment |
| PaymentAnswers.UnknownIsIgnored | backend/app/payments/service.py:593-612 | an event that finds no payment, or a refund event that finds no refund, is ignored |
| PaymentService.ProcessInbox | backend/app/payments/service.py:567-589 | one attempt, with other writers between all its reads: applied and settled in one commit, or, on a refused commit or any error before it, marked failed over whatever the row has become; the run goes on by exactly these steps |
| PaymentService.Session.ApplyPaymentEvent | backend/app/payments/service.py:622-637 | a payment event on the session's row: currency, captured amount, transition |
| PaymentAnswers.PaymentEventIs | backend/app/payments/service.py:622-637 | processed exactly when currency and amount agree and the status is or may become the reported one; a capture records exactly the reported amount, and no other column changes |
| PaymentService.Session.ApplyRefundEvent | backend/app/payments/service.py:604-620 | a refund event on the session's rows |
| PaymentAnswers.RefundEventIs | backend/app/payments/service.py:604-620 | a pending refund is settled as the event says, with its money; a settled one counts as processed for the same outcome and ignored for the other |
| PaymentService.Session.RecordReply | backend/app/payments/service.py:428-456 | the provider's answer on the session's rows |
| Calendar.AddMonthsLands | backend/app/billing/access.py:61-65 | k months later is the k-th month after, on the same day clamped to that month, at the same time |
| Calendar.MonthLengths | backend/app/billing/access.py:61-65 | the lengths of the twelve months, February by the Gregorian rule |
| Calendar.AddMonthsIncreases | backend/app/billing/access.py:61-65 | strictly increasing in the number of months |
| Calendar.WindowNumberIsRight | backend/app/billing/access.py:76-82 | the one-step correction always finds a window that contains now, at or after the anchor |
| Calendar.WindowsAreDisjoint | backend/app/billing/access.py:68-82 | no instant lies in two windows of an anchor |
| Calendar.WindowsTileTime | backend/app/billing/access.py:68-82 | start <= now < end; exactly the instants of the window have this window; its end starts the next; its start has the anchor's day, clamped, so nothing drifts |
| Calendar.BeforeAnchorIsFirst | backend/app/billing/access.py:74-75 | before the anchor the first window is used |
| Subscriptions.AccessIsThreshold | backend/app/billing/access.py:28-58 | for every stored row access holds exactly before one deadline |
| Subscriptions.MovesInto | backend/app/billing/state_machine.py:39-55 | both tables read by their targets, and what only an administrator may do |
| SubscriptionAnswers.AccessIs | backend/app/billing/access.py:28-58 | access and reason at any time, status by status, with graces of three and seven days |
| Subscriptions.SweepNeverRaises | backend/app/billing/service.py:236-248 | what time decides is always an allowed transition, and persisting it keeps the row's constraints |
| SubscriptionAnswers.LapseIs | backend/app/billing/service.py:236-248 | what persisting writes: the status that time decided, when it was noticed, and no pending plan |
| Subscriptions.SyncIsTransparent | backend/app/billing/service.py:236-248 | persisting changes no later decision or reason, and is idempotent |
| Subscriptions.SweepsAreTransparent | backend/app/billing/service.py:250-257 | sweeps of one row at any times change no decision, reason or effective status at any later time |
| SubscriptionTheorems.QuietStepsKeepAccess | backend/app/billing/service.py:236-257 | over all runs: sweeps, syncs, plan choices and checkouts from any stale rows, and anything other businesses do, change no decision and no reason of a business until its next provider event, cancellation or override |
| SubscriptionChanges.AdminOverrideIsLegal | backend/app/billing/service.py:746-791 | every accepted override keeps constraints, trial start and a replayable log |
| SubscriptionChanges.ApplyEventIsLegal | backend/app/billing/service.py:637-716 | the same for every provider event |
| SubscriptionChanges.ChangePlanIsLegal | backend/app/billing/service.py:383-421 | the same for plan changes |
| SubscriptionChanges.CreateCheckoutIsLegal | backend/app/billing/service.py:424-474 | the same for checkouts |
| SubscriptionChanges.SetCancelIsLegal | backend/app/billing/service.py:477-504 | the same for cancellation and its reversal |
| SubscriptionRuns.EveryRunKeepsInvariant | backend/app/billing/service.py:162-791 | every committed state of every run over many businesses keeps the account and trial invariants |
| SubscriptionProgress.OperationCommitsIff | backend/app/billing/service.py:222-230 | over all runs: an operation is accepted if and only if it is allowed on the row it read, that row is still stored if it changes it, its reference is free, and the log has not grown if it adds to it |
| SubscriptionProgress.SweepStepCommitsIff | backend/app/billing/service.py:250-257 | over all runs: a sweep is stored if and only if none of the rows that time has overtaken, or their logs, has changed since it was read |
| SubscriptionProgress.StartTrialCommitsIff | backend/app/billing/service.py:315-370 | onboarding is accepted if and only if plan and size fit, the business was and is new, and no identity that the trial would claim is claimed |
| SubscriptionTheorems.LogReplaysToStatus | backend/app/billing/service.py:199-220 | event numbers are exactly 1..n, and the status-bearing events are a chain of moves the table allows for their source, ending at the stored status |
| SubscriptionTheorems.ActiveIsPaidFor | backend/app/billing/service.py:664-684 | a subscription is active only after a paid invoice or granted access |
| SubscriptionInvoices.InvoicesCarryTheirPrice | backend/app/billing/service.py:664-671 | every logged invoice carries the price its plan and interval had in the catalog of the very step that logged it |
| SubscriptionInvoices.NoPeriodIsBilledTwiceInARow | backend/app/billing/service.py:672-684 | in every log an invoice bills another period than the one billed before it, unless it revived a subscription that was no longer active |
| SubscriptionInvoices.PeriodIsLastBilled | backend/app/billing/service.py:672-684 | the row's period, start and end, is the one billed last, whatever plan changes, failures and cancellations came in between |
| SubscriptionTheorems.RowsStayLegal | backend/app/billing/models.py:98-110 | the row's constraints hold in every committed state, and no operation builds a row that violates them |
| SubscriptionTheorems.RowsAreDated | backend/app/billing/models.py:98-125 | in every state a trial and a paid period end after they start, a subscription on trial has one, and no two businesses share the provider's reference |
| SubscriptionTheorems.OneTrialPerIdentity | backend/app/billing/service.py:315-370 | no identity was presented for the started trials of two businesses, whatever onboarding calls race or repeat |
| SubscriptionTheorems.TrialStartIsWriteOnce | backend/app/billing/service.py:334-361 | the trial start never changes after creation, and is set exactly when the log begins with trial_started |
| SubscriptionTheorems.RetriedOnboardingChangesNothing | backend/app/billing/service.py:319-322 | onboarding repeated for a business that has a subscription writes nothing, also from a stale look-up |
| SubscriptionTheorems.ClaimedIdentityStartsNoTrial | backend/app/billing/models.py:242-257 | with a claimed identity no trial is committed, whatever the request saw |
| SubscriptionAnswers.TrialIsGrantedIff | backend/app/billing/service.py:315-370 | an accepted onboarding stores a trial exactly when its look found none of its identities with another business, and then claims all of them |
| SubscriptionAnswers.TrialLastsThirtyDays | backend/app/billing/service.py:333-346 | a started trial gives access for exactly thirty days, a refused one for none, and both begin without period, payment method or provider |
| SubscriptionTheorems.RejectedEventsChangeNothing | backend/app/billing/service.py:686-697 | which failed-payment and cancellation events are out of order, exactly, and that they leave row and log alone |
| SubscriptionAnswers.CheckoutCompletedIs | backend/app/billing/service.py:644-662 | every column a completed checkout changes, and when its plan counts |
| SubscriptionAnswers.PaymentFailedIs | backend/app/billing/service.py:686-689 | a failed payment makes trialing, active and past-due rows past due and changes no other column |
| SubscriptionAnswers.ProviderCancellationIs | backend/app/billing/service.py:691-697 | the status and the moment of the end, and what is cleared |
| SubscriptionAnswers.UpdateIs | backend/app/billing/service.py:699-715 | flag, plan and interval after an update, and that an unknown plan leaves only the flag |
| SubscriptionTheorems.InvoiceActivatesIffPriced | backend/app/billing/service.py:664-684 | a paid invoice takes effect exactly when on sale, in shekels, at the price and for a real period |
| SubscriptionAnswers.InvoicePaysUntilItsEnd | backend/app/billing/service.py:664-684 | an invoice that takes effect puts the row on its plan, interval, start and end; access holds as active exactly until that end, and through the three days of renewal unless cancelled; and what it logs |
| SubscriptionInvoices.RepeatedInvoiceChangesNothing | backend/app/billing/service.py:672-673 | at any later time of any run, the period billed last reported again while active leaves the store as it is, from any stale row and for any plan named or not |
| SubscriptionInvoices.InvoiceIsIgnoredIff | backend/app/billing/service.py:672-673 | a paid invoice that is in order changes nothing if and only if the row is active in the very period it bills |
| SubscriptionTheorems.PlanChoicesKeepAccess | backend/app/billing/service.py:383-474 | choosing a plan or starting a checkout changes no access decision and no reason, now or later |
| SubscriptionTheorems.PlanAppliesNowIff | backend/app/billing/service.py:393-420 | without a running paid subscription a change applies at once; with one the plan stays, a dearer plan at the same interval leaves the row alone and any other is scheduled |
| SubscriptionAnswers.PlanChangeAcceptedIff | backend/app/billing/service.py:383-408 | exactly which plan changes are accepted |
| SubscriptionAnswers.PlanChangeIs | backend/app/billing/service.py:393-421 | the row and event a plan change leaves: changed at once, requested at the provider for a dearer plan of the same interval, or pending |
| SubscriptionAnswers.CheckoutAcceptedIff | backend/app/billing/service.py:424-474 | exactly which checkouts are started, and that they change nothing but what time has decided |
| SubscriptionTheorems.CancelKeepsPaidTime | backend/app/billing/service.py:477-504 | after cancelling at period end access holds exactly until the trial or period end, and a past-due subscription keeps its deadline |
| SubscriptionTheorems.CancelIsRevertedIff | backend/app/billing/service.py:477-504 | a cancellation can be taken back, giving the same row but for its time, if and only if that end has not been reached |
| SubscriptionAnswers.CancelAcceptedIff | backend/app/billing/service.py:477-504 | exactly when cancelling and reverting are accepted, and all they change |
| SubscriptionTheorems.EndedHasNoAccess | backend/app/billing/service.py:782-785 | after end_now or the provider's cancellation there is no access at any time |
| SubscriptionAnswers.EndIs | backend/app/billing/service.py:782-785 | what ends at once, and how |
| SubscriptionTheorems.GrantHoldsUntil | backend/app/billing/service.py:773-781 | granted access holds at exactly the times before its end |
| SubscriptionAnswers.GrantIs | backend/app/billing/service.py:773-781 | grants are accepted exactly for the next 366 days; the row is active from now to then and not renewed |
| SubscriptionTheorems.ExtensionHolds | backend/app/billing/service.py:756-766 | an extended trial gives access at all times before its new end |
| SubscriptionAnswers.ExtensionIs | backend/app/billing/service.py:756-766 | extensions are accepted exactly for 1 to 90 days of a trial or lapsed trial; the days count from its end or from now |
| SubscriptionAnswers.ForcedPlanIs | backend/app/billing/service.py:767-772 | a forced plan is any plan offered, at once |
| SubscriptionTheorems.CanceledIsNeverPutOnTrial | backend/app/billing/state_machine.py:49-55 | no operation takes the canceled to trialing override edge |
| SubscriptionService.Session.MoveTo | backend/app/billing/service.py:211-220 | a change moves the status and adds one event, otherwise nothing changes |
| SubscriptionService.Session.SyncTimeBasedStatus | backend/app/billing/service.py:236-248 | the session after persisting what time decided |
| SubscriptionService.Session.ChangePlan | backend/app/billing/service.py:383-421 | upgrade at the provider, scheduled change, or immediate change |
| SubscriptionService.Session.SetCancelAtPeriodEnd | backend/app/billing/service.py:477-504 | cancellation at period end and its reversal |
| SubscriptionService.Session.Apply | backend/app/billing/service.py:637-716 | the session after each kind of provider event |
| SubscriptionService.Session.AddPaymentMethod | backend/app/billing/service.py:644-662 | checkout completed: references, payment method, chosen plan, undone cancellation |
| SubscriptionService.Session.PayInvoice | backend/app/billing/service.py:664-684 | invoice paid: price and period guards, activation, new period |
| SubscriptionService.Session.Override | backend/app/billing/service.py:746-791 | the four superadmin actions |
| SubscriptionDatabase.RunFollows | backend/app/billing/service.py:222-230 | a database whose run goes on keeps the account invariants and rewrites nothing of the earlier state |
| SubscriptionDatabase.UpdateRow | backend/app/billing/models.py:98-125 | the update goes through exactly when version, row checks and the unique provider reference allow it |
| SubscriptionDatabase.InsertEvents | backend/app/billing/service.py:199-209 | the events are inserted one by one, and all of them exactly when no number is taken |
| SubscriptionDatabase.InsertClaims | backend/app/billing/models.py:242-257 | one claim per identity is inserted exactly when none of them is taken |
| SubscriptionDatabase.Database.Commit | backend/app/billing/service.py:222-230 | row and events are stored together, or nothing is, which is what the step comes to |
| SubscriptionService.Session.Operate | backend/app/billing/service.py:383-791 | any operation on the loaded row |
| SubscriptionService.RunOperation | backend/app/billing/service.py:222-230 | load, change, number and commit with other writers in the gaps: the run goes on by one operation |
| SubscriptionService.Sweep | backend/app/billing/service.py:250-257 | the loop syncs every listed row, with other writers before each look at a log, and one commit stores all or nothing; the count is the number of rows time had overtaken |
| SubscriptionService.StartTrial | backend/app/billing/service.py:315-370 | a retry gets the existing row; a trial is stored together with a claim on each identity, exactly when neither business nor identity was taken meanwhile; a lost race stores nothing and is answered from the winner's row |
| UsageQuota.UsageIsOutstandingWithinQuota | backend/app/billing/service.py:530-572 | under any interleaving of reservations and releases a counter equals its outstanding questions and never exceeds the largest quota used |
| UsageQuota.QuestionCountsInItsWindow | backend/app/billing/access.py:68-89 | an open question counts on a window's counter exactly when the window contains the time it was asked |
| UsageQuota.Counters.ReserveQuestion | backend/app/billing/service.py:530-565 | the question is granted exactly when its month's counter is below the quota, and then counted on it |
| UsageQuota.Counters.ReleaseQuestion | backend/app/billing/service.py:567-572 | an open question's release takes exactly one off its counter |
| RateLimit.WindowBound | backend/app/core/rate_limit.py:35-59 | with a nondecreasing clock, over any stretch of events in which the key is not evicted, no closed window sees more than the maximum of the attempts let through |
| RateLimit.TurnedAwayIff | backend/app/core/rate_limit.py:47-59 | an attempt is turned away exactly when the closed window ending with it already holds the maximum of attempts let through since the key's last eviction |
| RateLimit.EarlyExitIsExact | backend/app/core/rate_limit.py:61-67 | stopping at the first fresh key removes exactly the expired keys |
| RateLimit.RecordAttempt | backend/app/core/rate_limit.py:47-59 | the kept timestamps decide as if every timestamp had been kept, and still do after the attempt |
| RateLimit.EvictOldest | backend/app/core/rate_limit.py:43-46 | eviction forgets one key, the one seen longest ago, and nothing of the others |
| RateLimit.RateLimiter.MakeRoom | backend/app/core/rate_limit.py:35-46 | the periodic sweep and the eviction leave room for the key, drop exactly the expired keys and the one seen longest ago, and change nothing of the others |
| RateLimit.RateLimiter.Check | backend/app/core/rate_limit.py:35-59 | an attempt is let through exactly when the limiter that remembers everything since the key's last eviction lets it through; the maps keep equal keys, at most the maximum, in time order |
| RateLimit.RateLimiter.RemoveExpiredKeys | backend/app/core/rate_limit.py:61-67 | exactly the keys not seen within the window are removed from both maps |
| SaleLedger.Sale.RecordRefund | backend/app/services/sale_service.py:119-154 | the sale and its events after a partial, full, excessive or repeated refund |
| SaleLedger.RefundIs | backend/app/services/sale_service.py:130-151 | exactly which refunds are recorded, for how much, and with which status and event |
| SaleLedger.RefundsReconcile | backend/app/services/sale_service.py:119-154 | over any run of refunds of a succeeded sale the event amounts add up to refunded <= net, and contribution + refunded = net |
| SaleLedger.RunKeeps | backend/app/services/sale_service.py:130-151 | status, refunded amount and event kinds agree in every reached state, and only the last event can be a full refund |
| SaleLedger.FullRefundIsFinal | backend/app/services/sale_service.py:130-131 | a fully refunded sale never changes and records no further event |
| SaleLedger.RefundRaisesRevenueIff | backend/app/models/sale.py:171-180 | a refund raises the revenue contribution exactly when part of the net of a pending or failed sale is refunded |
| SaleLedger.PendingSaleEntersRevenue | backend/app/services/sale_service.py:139-146 | an instance: a pending sale of 100.00 counts for 99.00 after a refund of 1.00 |
| DashboardPeriods.NextMonthStarts | backend/app/services/dashboard_service.py:113-119 | month arithmetic steps to the month that starts the day after this one ends, also over the turn of a year |
| DashboardPeriods.DatesAreGregorian | backend/app/services/dashboard_service.py:113-119 | day numbers repeat every 400 years after 146097 days, and 1970 begins with day 719163 |
| DashboardPeriods.MonthIsUnique | backend/app/services/dashboard_service.py:118-119 | a date lies in one month only |
| DashboardPeriods.PeriodsAreRanges | backend/app/services/dashboard_service.py:139-193 | which periods resolve; start <= end for them and their comparison; where the comparison ends and how long it is; that today lies in the current periods |
| DashboardPeriods.PeriodsAreMonths | backend/app/services/dashboard_service.py:139-193 | which days each named period and its comparison cover, by the number of today's month: this month, the one before, the last three and six, and this year up to today; and the granularity of each |
| DashboardPeriods.TrendBuckets | backend/app/services/dashboard_service.py:196-215 | for all three granularities the loops end and their buckets partition the period into days, weeks from its first day, or calendar months, cut short only at its ends |
| DashboardPeriods.MonthBuckets | backend/app/services/dashboard_service.py:209-215 | the month loop covers the period up to its end, one bucket per month touched |
| DashboardTotals.BoundsAreDays | backend/app/services/dashboard_service.py:122-125 | a sale lies between the two time bounds exactly when its day lies in the date range |
| DashboardTotals.SelectIsExact | backend/app/services/dashboard_service.py:218-225 | which sales each query counts: days of the period and statuses |
| DashboardTotals.TrendConserves | backend/app/services/dashboard_service.py:346-356 | for any value of a sale the totals of partitioning buckets add up to the total of the period, per currency |
| DashboardTotals.TrendSeesEveryCurrency | backend/app/services/dashboard_service.py:348-356 | the currencies seen in the buckets are exactly those of the period |
| DashboardTotals.TrendAddsUp | backend/app/services/dashboard_service.py:358-368 | each currency's points add up to the period's gross and net totals |
| DashboardTotals.SumByCurrency | backend/app/services/dashboard_service.py:227-233 | one pass yields every currency present and its total |
| DashboardTotals.RevenueTrend | backend/app/services/dashboard_service.py:346-368 | over any buckets: one point per bucket for every currency seen in any of them, zero where a bucket has none |
| DashboardTotals.PointIs | backend/app/services/dashboard_service.py:346-368 | every point of the trend, by its bucket and currency |
| DashboardTotals.ServiceTotals | backend/app/services/dashboard_service.py:317-322 | one pass yields the total and count of every service and currency |
| DashboardTotals.ServicesAddUp | backend/app/services/dashboard_service.py:317-336 | service totals add up to each currency's gross total, and their counts to the number of sales |
| DashboardTotals.DashboardReconciles | backend/app/services/dashboard_service.py:301-306 | whatever refunds were recorded, per currency: net = gross - VAT - fees - refunds + refunds of fully refunded sales |
| Luhn.LuhnValid | backend/app/core/payment_safety.py:27-36 | the loop computes the checksum |
| Luhn.DoublesAre | backend/app/core/payment_safety.py:27-36 | which positions count double, and what a doubled digit counts for |
| Luhn.EighteenIsValid | backend/app/core/payment_safety.py:27-36 | an instance that tells the positions apart |
| Luhn.SingleChangeIsDetected | backend/app/core/payment_safety.py:27-36 | every change of one digit is detected |
| Luhn.SwapIsDetectedIff | backend/app/core/payment_safety.py:27-36 | a swap of neighbours is detected unless they are equal or 0 and 9 |
| Luhn.OneDigitCompletes | backend/app/core/payment_safety.py:27-36 | whatever the other digits are, exactly one digit completes the number |

## Left out

- InboxAttempts.AttemptsAreBounded: states eleven, not the documented ten, because ten is false (`ElevenAttempts`); `LimitIsBrokenIff` is the exact statement.
- InboxOnce.EventsApplyExactlyOnce: needs attempts of one event not to overlap, because without that it is false (`OverlappingAttemptsApplyTwice`); `ExactlyOnceIff` is the exact statement.
- SaleLedger.RefundsReconcile: takes positive refund amounts, which the request schema demands, and refunds of one sale one after another, because the sale row carries no version.
- RateLimit.RateLimiter.Check: asks for room for at least one key; with `max_keys` of zero the source fails with a `KeyError` on the first attempt. Its clock is nondecreasing.
- UsageQuota.UsageIsOutstandingWithinQuota: each granted question is released at most once, as the callers do; a second release would be taken off another question's count.
- DashboardPeriods.TrendBuckets: dates before year 1 and after year 9999, where Python raises, are not bounded above.
- PaymentService.ReceiveWebhook: takes for granted that no other writer acts as the delivery that recorded the event.
- PaymentService.ExpireDue: the result of the due query is a parameter constrained to be that result.
- SubscriptionService.Session.ChangePlan: the outcome of the capacity look-ups, and whether a provider is configured, are parameters; an error inside the provider call is a rejected operation. The same holds for checkouts and cancellation.
- Row locks (`FOR UPDATE`): not modelled, so the model allows more interleavings than the database does.
- Provider adapters, signatures, HTTP routes, permissions, tenant scoping, text cleaning, URL checks, logging: parameters or absent.
- Columns no decision reads: checkout URL, audit actor and note, failure reason, created and updated times.
- A billing edit that adds two events reads the log once for both.
- The billing webhook inbox and the look-up of the subscription an event belongs to; events are given to a business directly. The table of checkout sessions is a parameter of the completed checkout.
- `SUBSCRIPTION_UPDATED` sets the cancel flag before its plan look-up; the model does too, so a rejected update may leave the flag set.
- The anchor of a billing month (`usage_anchor`) is a parameter; a change of the anchor starts other counters.
- Order of currencies within one bucket, the sort of services by total, averages, percentages and days remaining.
- Rounding of totals: amounts are whole hundredths, on which rounding to two places is the identity.
- Sale ingestion, documents, receipts, the assistant, migrations and the front end.
