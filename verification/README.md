# Finguard, modelled and proved

Finguard's backend keeps invoices, stock, messages, approvals, credentials and cash
consistent through append-only logs, projections of those logs, and small lock or
claim protocols. This project models those cores in Dafny and proves what they
keep, over every run and, where work interleaves, over every interleaving.
`dafny verify dfyconfig.toml` checks it all.

## What is modelled

Money is in whole cents, stock in thousandths of a unit, time in microseconds.
Each component has a specification on values, usually a state, its commands, `Do`
for one and `Run` for a sequence, and the theorems are about `Run`. Where the
program updates objects or loops, a class or method does the same and is proved
equal to the specification.

- **Invoices** (`InvoiceEvents`, `InvoiceBook`, `SnapshotText`). The fold of an event
  log, its closed form, its indifference to input order, and its resumption from a
  serialised snapshot; then every invoice command as one step on a row with its log,
  snapshots and payments. The specification replays the whole log; the class resumes
  from the latest snapshot, as the service does.
- **Reconciliation flow** (`Sankey`). The diagram built from the grouped queries over
  invoices, with its conservation laws and the exact condition under which they hold.
- **Delivery** (`Delivery`, `DeliveryProtocol`, `Outbox`, `Email`). The batch loop that
  the event projector and the mail flusher share, its bounded progress, and the
  protocol of many skip-locked workers with crashes before commit.
- **Approvals** (`Proposals`). Claim, write, un-claim, with any number of reviewers'
  calls interleaved between commits.
- **Planner** (`Planner`, `Graphs`). Worklist closure and levelled staging over an
  arbitrary registry.
- **Stock** (`Stock`, `Alerts`). The ledger, the weighted-average cost with its rounding,
  and the low-stock alert.
- **Refresh tokens** (`Tokens`). Families, rotation, reuse detection, logout, key lifetimes
  and password resets over timed runs.
- **Cash** (`Treasury`). Vault transfers that read four aggregates at four moments under
  the lock of one vault.
- **Payables** (`Payables`). The approval queue and the budget burn-down.
- **Splitter** (`Splitter`). The recursive text splitter.

## Where code and documentation differ

The model follows the code.

- `approve` promises its write exactly once (`proposal_service.py:196-212`). It can fail
  both ways. A crash between the claim's commit and the write leaves the proposal applied
  with nothing written: `Proposals.ClaimCanBeLost`. A call that raises once its write is
  made un-claims what is written, and the next approval writes it again:
  `Proposals.WriteCanHappenTwice`. The stock tool commits on its own, so there the raise
  comes after the write's commit (`RaiseLate`); a reconciliation match is only flushed,
  so there the un-claim's commit carries the write along (`RaiseFlushed`).
  `Proposals.WrittenOnceExactly` says of every run when the promise was kept, and
  `Proposals.WriteIsFirstExactly` what a call can know before it writes.
- The fold's comment says the service guards against money events after a cancel
  (`events.py:145-146`). The payment paths test only the balance:
  `InvoiceBook.PaymentsAgainstRow`.
- The flow's documentation says rails fully account for each status's collected total
  (`service.py:824-829`). A status PATCH after a cancel and a payment breaks that:
  `Sankey.NodeConservesExactly`, `Sankey.PatchBreaksTheFlow`.
- A token minted before a reset is said to be dead (`security.py:84`). Claims carry whole
  seconds, so one minted at the reset's very instant can live, and one minted later in
  that second is refused: `Tokens.ResetSparesExactly`, `Tokens.NewTokensPassExactly`.
- The splitter's documentation promises chunks of at most `chunk_size` characters
  (`ingest_kra_docs.py:104`). The separators between carried fragments are not counted:
  with the shipped separators and any chunk size from 4 on the promise holds of every text
  exactly when the overlap is negative, so not with the defaults
  (`Splitter.BoundHoldsExactly`, `Splitter.DefaultsBreakBound`).
- `fold_invoice_events` promises the same result for rows in any order
  (`events.py:204-205`). That needs distinct sequences:
  `InvoiceEvents.EqualSequencesMakeOrderMatter`, and
  `InvoiceEvents.NeighboursCommuteExactly` for the pairs that may be swapped all the same.
  A database constraint (`finance/models.py:163`) forbids a repeated sequence, so the
  service itself never folds such a log.
- Logging out blacklists the refresh token (`router.py:297-316`) under the key by which
  `refresh` recognises reuse, so presenting it afterwards is treated as reuse and revokes
  the family: `Tokens.LogoutTouchesOneToken`.

## Model

| member | source | states |
|---|---|---|
| InvoiceEvents.Fold | backend/src/domains/finance/events.py:194-221 | the accumulator loop over the sorted events computes the fold specification, from nothing or from a snapshot |
| InvoiceEvents.Accumulator.Apply | backend/src/domains/finance/events.py:141-158 | one event updates the mutable accumulator exactly as one step of the fold |
| InvoiceEvents.FoldClosedForm | backend/src/domains/finance/events.py:141-158 | paid and credited are the sums of those events before the first cancellation; total and last payment are the last such event before it |
| InvoiceEvents.FoldCounts | backend/src/domains/finance/events.py:141-158 | the cancelled flag holds exactly when the log has a cancel event; count and sequence are length and maximum |
| InvoiceEvents.CancelIsTerminal | backend/src/domains/finance/events.py:145-148 | once cancelled, no later event changes any money field or the status |
| InvoiceEvents.FoldedState | backend/src/domains/finance/events.py:161-191 | what the state read off any log is: balance is total less paid less credited, and the status and paid date follow from the sums and the cancel flag |
| InvoiceEvents.SortedRows | backend/src/domains/finance/events.py:196 | sorting keeps the events as a multiset |
| InvoiceEvents.SortedOrdered | backend/src/domains/finance/events.py:196 | sorting orders them by sequence |
| InvoiceEvents.OrderedUnique | backend/src/domains/finance/events.py:196 | two ordered arrangements of the same events with distinct sequences are equal |
| InvoiceEvents.FoldIgnoresInputOrder | backend/src/domains/finance/events.py:201-208 | any permutation of events with distinct sequences folds to the same state |
| InvoiceEvents.EqualSequencesMakeOrderMatter | backend/src/domains/finance/events.py:196 | with a repeated sequence the order does matter: a concrete pair of events |
| InvoiceEvents.NeighboursCommuteExactly | backend/src/domains/finance/events.py:141-158 | swapping two neighbouring events leaves every fold as it was exactly for the pairs listed: all but two issues of different amount, two payments of different date, and a cancellation with anything but another one or an empty credit note |
| InvoiceEvents.SnapshotRoundTrip | backend/src/domains/finance/events.py:74-107 | reading back a written snapshot gives the state it was written from, every field, for every state |
| SnapshotText.IntTextRoundTrip | backend/src/domains/finance/events.py:76-88 | the text of a number reads back as that number |
| InvoiceEvents.SortedSplits | backend/src/domains/finance/events.py:211-221 | a sorted log cut at any sequence is its sorted head then its sorted tail |
| InvoiceEvents.ResumeEqualsReplay | backend/src/domains/finance/events.py:211-221 | for any log cut at any sequence, folding the tail onto the round-tripped snapshot equals folding the whole log, field by field |
| InvoiceBook.EveryRunValid | backend/src/domains/finance/service.py:235-287 | over every run, PATCH included: sequences 1..n, the row equals the full replay, snapshots sit at the multiples of 50 and hold the replay of their prefix, balance = total - credited - paid with no negative term, and every payment event has its payment row |
| InvoiceBook.ReplayIsFold | backend/src/domains/finance/service.py:247-250 | replaying the log in append order is `fold_invoice_events` |
| InvoiceBook.TailOnSnapshot | backend/src/domains/finance/service.py:251-256 | the tail folded onto a stored snapshot is the full replay |
| InvoiceBook.TailIsShort | backend/src/domains/finance/service.py:268-274 | the next projection folds at most 50 events onto the latest snapshot, which sits at 50 times the quotient of the length by 50 |
| InvoiceBook.LatestIsLast | backend/src/domains/finance/repository.py:165-172 | the row of highest sequence is the last one written |
| InvoiceBook.MaxSequenceIsLength | backend/src/domains/finance/repository.py:116-123 | the next sequence is one more than the length of the log |
| InvoiceBook.CutIsPrefix | backend/src/domains/finance/repository.py:139-151 | the events after a sequence are the suffix of the log from that index |
| InvoiceBook.UnpatchedStatusFollowsLog | backend/src/domains/finance/service.py:289-297 | without a status PATCH the status is the one the log dictates, and cancelled exactly when the log has a cancel event |
| InvoiceBook.CancelledExactlyByEvent | backend/src/domains/finance/events.py:164-166 | a row whose status follows the log is cancelled exactly when the log has a cancel event |
| InvoiceBook.PaymentsAgainstRow | backend/src/domains/finance/service.py:1317-1361 | payment rows exceed `amount_paid` by exactly the payments taken after the first cancellation; with no cancel event they are equal |
| InvoiceBook.PayMoves | backend/src/domains/finance/service.py:1326-1361 | a payment raises `amount_paid` by its amount unless the log holds a cancel event, and the payment rows always |
| InvoiceBook.PaymentStaysBackedIffNotCancelled | backend/src/domains/finance/service.py:1321-1361 | a payment that goes through keeps rows and `amount_paid` equal if and only if no cancel event precedes it |
| InvoiceBook.InvoiceAccount.Create | backend/src/domains/finance/service.py:123-158 | creation leaves one issued event of the whole total, a draft row with all of it due, and a valid book |
| InvoiceBook.InvoiceAccount.Resume | backend/src/domains/finance/service.py:247-256 | resuming from the latest snapshot gives the replay of the whole log and folds at most the tail |
| InvoiceBook.InvoiceAccount.MaybeSnapshot | backend/src/domains/finance/service.py:268-287 | a snapshot is added exactly at the multiples of 50, never twice |
| InvoiceBook.InvoiceAccount.Project | backend/src/domains/finance/service.py:258-266 | the row is rewritten from the resumed fold exactly as from the full replay |
| InvoiceBook.InvoiceAccount.AppendEvent | backend/src/domains/finance/repository.py:116-129 | an event is appended with the next sequence and projected |
| InvoiceBook.InvoiceAccount.SendInvoice | backend/src/domains/finance/service.py:160-198 | goes through exactly on a draft, which becomes sent by a sent event and no money moves; otherwise nothing changes; equals its whole-log specification |
| InvoiceBook.InvoiceAccount.RecordCashPayment | backend/src/domains/finance/service.py:1305-1361 | goes through exactly when the amount is positive and within the balance; then one payment row on the cash vault and one payment event carry it at now, and the balance falls by it unless the log holds a cancel event |
| InvoiceBook.InvoiceAccount.MarkInvoicePaid | backend/src/domains/finance/service.py:299-349 | goes through exactly when something is due: the whole old balance becomes one payment row on the vault and one payment event, and without a cancel event the balance is then 0, the status paid and the paid date now; otherwise nothing changes |
| InvoiceBook.InvoiceAccount.ApplyCreditNote | backend/src/domains/finance/service.py:351-395 | goes through exactly when the amount is positive, within the balance, and the status not cancelled; then one credit event of it, no payment row, and the balance falls by it unless the log holds a cancel event |
| InvoiceBook.InvoiceAccount.CancelInvoice | backend/src/domains/finance/service.py:397-435 | goes through exactly when the invoice is neither cancelled nor paid; then one cancel event, the status cancelled, and no money moves |
| InvoiceBook.InvoiceAccount.ApplyReconciledPayment | backend/src/domains/finance/service.py:953-1006 | goes through exactly when something is due; the payment row and its event carry the lesser of amount and balance on the vault it came by |
| InvoiceBook.InvoiceAccount.UpdateInvoice | backend/src/domains/finance/service.py:289-297 | PATCH writes status and paid date as asked and leaves log, payments, snapshots and money alone |
| Proposals.EveryRunSafe | backend/src/domains/intelligence/proposal_service.py:189-268 | the protocol invariant holds under every interleaving of any number of calls with crashes anywhere |
| Proposals.ApprovalIsAtMostOnce | backend/src/domains/intelligence/proposal_service.py:189-268 | over every interleaving in which no call raises once its write is made at most one write is ever committed: none while proposed or rejected, exactly one once a reference is recorded; with such raises the same holds of the writes less those; always every write carries the proposed payload, at most one call holds the claim, and the deciding reviewer is not the requester |
| Proposals.WrittenOnceExactly | backend/src/domains/intelligence/proposal_service.py:246-265 | an applied proposal whose calls have ended had its write committed exactly once if and only if as many writes came from calls that raised all the same as claims were lost to a crash; the number of writes is 1 more than the first less the second |
| Proposals.WriteIsFirstExactly | backend/src/domains/intelligence/proposal_service.py:252-262 | known before a write: the call about to write makes the first one exactly when no earlier call raised with its write committed |
| Proposals.WriteCanHappenTwice | backend/src/domains/intelligence/proposal_service.py:252-265 | a concrete run ends applied with a reference, no claim lost and two writes, because the first call raised after the stock tool had committed |
| Proposals.ClaimCanBeLost | backend/src/domains/intelligence/proposal_service.py:246-265 | a concrete run ends applied with no write: the documentation says exactly once, the code gives at most once |
| Proposals.DecisionIsFinal | backend/src/domains/intelligence/proposal_service.py:220-221 | once decided with no call in flight, nothing that follows writes or changes the decision |
| Proposals.ProposalRow.Claim | backend/src/domains/intelligence/proposal_service.py:214-250 | each verdict exactly on its condition, in the order of the checks; only a claim changes the row, to applied and reviewed by the caller, and it captures the payload whose hash was checked |
| Proposals.ProposalRow.Reject | backend/src/domains/intelligence/proposal_service.py:282-300 | turned exactly when the action type is the expected one, the proposal open and the reviewer not its requester; then it is rejected and reviewed by the caller, otherwise unchanged |
| Proposals.SettleDecides | backend/src/domains/intelligence/proposal_service.py:214-250 | in the protocol, a call that settles its decision on an open proposal it may review leaves it rejected, or applied with the payload captured, by its own reviewer |
| Proposals.ReferenceIsRecorded | backend/src/domains/intelligence/proposal_service.py:264-265 | in the protocol, the step that commits a reference leaves it on the row, together with the write where the two share a commit |
| Proposals.OpenIsAsProposed | backend/src/domains/intelligence/proposal_service.py:257-262 | after however many claims that failed, an open proposal is as it was proposed, save for edits of its payload |
| Delivery.SelectBatch | backend/src/workers/outbox/projector.py:72-79 | the batch is the oldest eligible rows, as many as fit, each once |
| Delivery.SettleOneMore | backend/src/workers/outbox/projector.py:81-130 | settling row by row is settling the whole batch at once |
| Delivery.NextRow | backend/src/workers/outbox/projector.py:81-130 | one turn of the loop takes the settled prefix of the batch one row further |
| Delivery.SettleKeepsBounds | backend/src/workers/outbox/projector.py:91-108 | a pass keeps waiting rows under the limit of tries and dead letters exactly at it |
| Delivery.SettleKeepsRows | backend/src/workers/outbox/projector.py:94-108 | a pass moves rows between the live rows and the dead letters and loses none |
| Delivery.SettleLeaves | backend/src/workers/outbox/projector.py:71-130 | for any limits: what settling a batch leaves, event by event, inside the batch and outside |
| Delivery.PassAdvances | backend/src/workers/outbox/projector.py:71-130 | while a row waits, every committed pass spends one unit of its patience: full batches of older tries, then its own |
| Delivery.BoundedProgress | backend/src/workers/outbox/projector.py:71-130 | a row with p older ones waiting is delivered or dead after p*MAX/size + MAX committed passes, whatever is refused and whatever newer rows arrive, also when it dies before the last of them |
| Delivery.DeadStaysDead | backend/src/workers/outbox/projector.py:94-108 | a dead letter never becomes a live row again by any number of passes and arrivals |
| Outbox.EventLeavesInTime | backend/src/workers/outbox/projector.py:71-130 | the same with the shipped settings: published or dead after p*5/100 + 5 passes |
| Outbox.OutboxTable.HandleEvent | backend/src/workers/outbox/projector.py:82-130 | the loop body: published with its tries unchanged if accepted; one more try if refused with fewer than 4 behind it; otherwise gone from the live rows and dead with its tries counted |
| Outbox.OutboxTable.Drain | backend/src/workers/outbox/projector.py:81-130 | the loop settles the batch, each event by its own verdict, and counts the published ones |
| Outbox.OutboxTable.ProjectOnce | backend/src/workers/outbox/projector.py:49-133 | one pass takes the oldest waiting events, 100 or all there are; each is published if accepted, kept with one more try if refused with fewer than 4, dead with 5 otherwise; every other event is as it was |
| DeliveryProtocol.EveryRunSafe | backend/src/workers/outbox/projector.py:60-133 | with any number of skip-locked workers and crashes before commit: locked rows are waiting rows, tries stay within their bounds, and every acceptance is accounted for |
| DeliveryProtocol.DeliveryIsAtLeastOnce | backend/src/workers/outbox/projector.py:60-133 | a row is in one place: waiting below the limit, delivered, or dead at exactly the limit; delivered implies accepted at least once, and acceptances beyond one are those lost to crashes |
| DeliveryProtocol.RowsAfter | backend/src/workers/outbox/projector.py:60-133 | an enqueue adds one row, a replay swaps one dead letter for one row, nothing else changes which rows exist |
| DeliveryProtocol.TotalConserved | backend/src/domains/notifications/service.py:165-184 | live rows plus dead letters change only by an enqueue, by one; replay preserves the total |
| DeliveryProtocol.NothingDisappears | backend/src/workers/outbox/projector.py:60-133 | over every run without replays, the very rows enqueued are the live rows and the dead letters |
| DeliveryProtocol.EveryRowIsSomewhere | backend/src/workers/outbox/projector.py:60-133 | over every run, replays included, as many rows are live or dead as were enqueued, and none is both |
| Email.EmailOutbox.Enqueue | backend/src/domains/notifications/service.py:40-102 | a mail is enqueued if and only if it has a recipient, is not suppressed and no live row carries its key |
| Email.EmailOutbox.ReplayDeadLetter | backend/src/domains/notifications/service.py:165-184 | the dead letter is replaced by a fresh pending row; the total is preserved |
| Email.EmailOutbox.Resend | backend/src/domains/notifications/service.py:186-203 | a fresh pending row joins the source row, which stays |
| Email.AttemptSettlesOne | backend/src/workers/email/flusher.py:78-128 | one attempt on the mail tables is one settling step of the delivery model |
| Email.MailSettles | backend/src/workers/email/flusher.py:78-128 | the mail tables after the first verdicts of a batch are those of the delivery model |
| Email.SettledMailLeaves | backend/src/workers/email/flusher.py:78-128 | the verdicts on a batch of the query leave each mail, and each mail and dead letter outside, as the flush promises |
| Email.EmailOutbox.HandleRow | backend/src/workers/email/flusher.py:78-128 | the loop body counts an attempt, fails, dead-letters or marks sent, and says which |
| Email.EmailOutbox.SendAll | backend/src/workers/email/flusher.py:78-128 | the loop leaves the rows and dead letters of the verdicts, and its three counters add up to the batch |
| Email.EmailOutbox.Drain | backend/src/workers/email/flusher.py:78-128 | the same loop is settling the batch in the delivery model |
| Email.EmailOutbox.FlushOnce | backend/src/workers/email/flusher.py:37-130 | one flush takes the oldest due mails, 25 or all there are; each is sent, or failed with one more attempt if it had fewer than 4, or dead with 5 under its own address and key; every other mail and dead letter is as it was; the three counters add up |
| Planner.RequiredProducersMeaning | backend/src/domains/intelligence/agent_registry.py:554-569 | the required producers of an agent are exactly the producers of its required keys, or an error for an unknown id or producerless key |
| Planner.Close | backend/src/domains/intelligence/agent_registry.py:605-615 | the worklist ends with the agents reachable from the targets, or a truthful error |
| Graphs.ReachableIsLeast | backend/src/domains/intelligence/agent_registry.py:605-615 | the reachable set is the least one holding the targets and closed under required producers |
| Planner.Stage | backend/src/domains/intelligence/agent_registry.py:622-634 | the levelled loop ends with every agent at the length of its longest required path, or with a cycle |
| Planner.BuildPlan | backend/src/domains/intelligence/agent_registry.py:586-634 | a plan comes back exactly when nothing unknown, producerless or cyclic is reachable; its stages are disjoint, cover the closure, and an agent stands at the length of its longest required path; each error names a real culprit |
| Planner.ProducersRunEarlier | backend/src/domains/intelligence/agent_registry.py:586-592 | in a plan every required producer is in an earlier stage |
| Planner.PlanIsUnique | backend/src/domains/intelligence/agent_registry.py:586-634 | any two plans for the same targets are equal |
| Graphs.CycleExists | backend/src/domains/intelligence/agent_registry.py:627-629 | a finite set in which every agent depends on another of the set has a cycle |
| Graphs.LevelledIsAcyclic | backend/src/domains/intelligence/agent_registry.py:622-634 | an agent with a longest path lies on no cycle |
| Alerts.AlertTable.CreateIdempotent | backend/src/domains/alerts/service.py:139-161 | an alert is created if and only if none stands for its key; other keys are untouched |
| Alerts.AlertTable.EscalateOrCreate | backend/src/domains/alerts/service.py:163-188 | one alert stands for the key afterwards, at the worse of the standing grade and the new one |
| Alerts.AlertTable.ResolveActive | backend/src/domains/alerts/service.py:190-206 | no alert stands for the key afterwards, other keys are untouched, and the count is 0 exactly when none stood |
| Alerts.OtherKeysStand | backend/src/domains/alerts/service.py:139-206 | work on one key leaves what stands for every other key as it was |
| Stock.RoundHalfEven | backend/src/domains/inventory/service.py:29-43 | the result is within half a unit of the quotient, even on ties |
| Stock.AverageInBetween | backend/src/domains/inventory/service.py:32-43 | with stock in hand the new average lies between the old one and the arriving cost; without, it is that cost |
| Stock.ValueConserved | backend/src/domains/inventory/service.py:296-314 | on-hand times average differs from the exact cost of the ledger by at most half a cent times the stock held after each costed arrival |
| Stock.BoughtIsSoldPlusHeld | backend/src/domains/inventory/service.py:303-311 | in a plain trade, what was bought is what left at its stamped cost plus the stock at its average, within the same bound |
| Stock.EveryTradeBalances | backend/src/domains/inventory/service.py:303-311 | the same over every run whose sales and issues carry no cost of their own |
| Stock.EveryBalanceReplays | backend/src/domains/inventory/service.py:333-347 | every row has its index as sequence and the replay of the rows up to it as balance |
| Stock.SequencesFromOne | backend/src/domains/inventory/repository.py:71-78 | the highest sequence of a ledger is its length |
| Stock.EveryRunReplays | backend/src/domains/inventory/service.py:251-351 | over every run, alert failures or not: on-hand is never negative and is the replay of the unsigned rows, sequences are 1..n, the average is the ledger's own, value is conserved |
| Stock.AlertAgreesWithStock | backend/src/domains/inventory/service.py:316-405 | while alert writes succeed: active exactly when some outflow has happened since stock was last above a positive reorder level, critical exactly when it has been at 0 since then |
| Stock.RanOutIsShort | backend/src/domains/inventory/service.py:321-331 | only an outflow leaves the shelf empty, so a critical condition is always also a low one |
| Stock.AlertFailuresLeaveStock | backend/src/domains/inventory/service.py:362-405 | failing alert writes change no level and no ledger row |
| Stock.ProductStock.Apply | backend/src/domains/inventory/service.py:251-351 | the locked section refuses an inactive product or an oversell, and otherwise gives the specified level, row and signals |
| Stock.ProductStock.MaybeRaise | backend/src/domains/inventory/service.py:362-391 | a low-stock signal leaves one alert standing at the worse grade |
| Stock.ProductStock.RecordMovement | backend/src/domains/inventory/service.py:166-193 | succeeds exactly for a positive quantity that is no adjustment, has a cost if a receipt, and is not more than an active product has if it leaves; then on-hand moves by the signed quantity and one row carries kind, quantity, stamped cost, balance and reference |
| Stock.ProductStock.AdjustStock | backend/src/domains/inventory/service.py:195-223 | succeeds exactly with a reason, a non-zero delta and an active product that it does not oversell; then on-hand moves by the delta, the average stays, and one adjustment row carries the unsigned quantity and no cost |
| Stock.ProductStock.ReceivePurchase | backend/src/domains/inventory/service.py:225-249 | succeeds exactly for an active product and positive quantity and cost; then on-hand grows by the quantity, the average takes the cost in, and one receipt row carries quantity, cost and expense |
| Stock.ProductStock.ReconcileAlert | backend/src/domains/inventory/service.py:353-360 | the alert is resolved exactly when stock is above a positive reorder level |
| Tokens.EveryRunKeeps | backend/src/domains/identity/service.py:289-350 | every run, logouts included, keeps: blacklisted tokens are consumed or logged out and their entries outlive them, revocations outlive every token of their family |
| Tokens.BlacklistOutlives | backend/src/domains/identity/service.py:333-338 | the blacklist key, set with whole seconds, never dies before the token |
| Tokens.AtMostOneAcceptable | backend/src/domains/identity/service.py:289-331 | at any moment of any run at most one token of a family is acceptable |
| Tokens.FamilyHasOneUser | backend/src/domains/identity/service.py:323-331 | over every run all tokens of one family belong to one user |
| Tokens.JudgeIsVerdict | backend/src/domains/identity/service.py:289-321 | each verdict is given exactly on its own condition, written out over tokens, users and keys |
| Tokens.AcceptedExactly | backend/src/domains/identity/service.py:289-331 | a token is accepted exactly while it is the unexpired last of a family never caught in reuse, was not logged out, and its user is active and not reset since |
| Tokens.AcceptedAtMostOnce | backend/src/domains/identity/service.py:303-326 | no token is accepted twice in any run |
| Tokens.ReuseIsNoticed | backend/src/domains/identity/service.py:303-310 | a consumed, unexpired token is always recognised and its family marked |
| Tokens.ReuseKillsFamily | backend/src/domains/identity/service.py:303-310 | after that no token of the family is accepted at any later time |
| Tokens.LogoutEndsFamily | backend/src/domains/identity/router.py:297-316 | after a logout with the last token of a family, while it is good, no token of the family is accepted at any later time |
| Tokens.LogoutTouchesOneToken | backend/src/domains/identity/router.py:346-358 | a logout changes the verdict on its own token only; that one counts as reused from then on, and presenting it marks its family |
| Tokens.ResetEndsSessions | backend/src/domains/identity/service.py:264-284 | no token minted before a password reset is accepted at any time after it |
| Tokens.ResetSparesExactly | backend/src/core/security.py:79-90 | of the tokens already issued a reset spares exactly those of its own instant, when that is a whole second |
| Tokens.NewTokensPassExactly | backend/src/core/security.py:79-90 | a token minted after a reset passes the age check exactly when its second is later or the reset fell on a whole second |
| Tokens.IdentityService.CreateRefreshToken | backend/src/core/security.py:53-69 | a fresh id, the family passed on or started, whole-second claims a lifetime apart |
| Tokens.IdentityService.Login | backend/src/domains/identity/service.py:160-175 | an active user, and no other, gets a new token of a fresh family made out at now; nothing else changes |
| Tokens.IdentityService.BlacklistJti | backend/src/domains/identity/service.py:333-338 | the key lives from now and no shorter than the token, for a second at least, and less than a second longer than either |
| Tokens.IdentityService.RevokeFamily | backend/src/domains/identity/service.py:340-350 | every token the family has expires no later than the key, so none of them is accepted while it is good |
| Tokens.IdentityService.Rotate | backend/src/domains/identity/service.py:323-331 | the consumed token is listed until it expires, and the successor has its user and its family |
| Tokens.IdentityService.Logout | backend/src/domains/identity/router.py:311-315 | a token that decodes is blacklisted at least until it expires; any other is ignored; no other key moves |
| Tokens.IdentityService.Refresh | backend/src/domains/identity/service.py:289-331 | each verdict exactly on its condition; accepted adds one token with the user and family of the old one and the claims of now, and lists the old one until it expires; reuse marks the family for a lifetime; any other verdict changes nothing |
| Tokens.IdentityService.ResetPassword | backend/src/domains/identity/service.py:278-284 | an active user's change time, and no other's, is set to now |
| Treasury.VaultsStayBacked | backend/src/domains/finance/service.py:1171-1233 | for any interleaving, no vault falls below zero by more than its own expenses; with only transfers and fees going out every balance stays at least 0 |
| Treasury.CommitBacked | backend/src/domains/finance/service.py:1178-1188 | the guard on four aggregates read at different moments still protects the balance of the moment of commit |
| Treasury.BookedReads | backend/src/domains/finance/service.py:1171-1176 | another vault's transfer leaves what a lock holder has read usable |
| Treasury.TransferCostsItsFee | backend/src/domains/finance/service.py:1190-1213 | a transfer moves its amount between two vaults, leaves the third, and takes exactly its fee out of total cash |
| Treasury.CashIsPaymentsLessExpenses | backend/src/domains/finance/service.py:1241-1265 | total cash is payments less expenses and fees, whatever has been transferred |
| Treasury.PaymentMovesItsVault | backend/src/domains/finance/service.py:1241-1265 | one more payment raises the balance of its own vault by its amount, and no other balance moves |
| Treasury.ExpenseMovesItsVault | backend/src/domains/finance/service.py:1241-1265 | one more expense lowers the balance of its own vault by its amount, and no other balance moves |
| Treasury.AloneIsSequential | backend/src/domains/finance/service.py:1154-1234 | the protocol run alone is the sequential transfer |
| Treasury.TreasuryService.GetVaultBalances | backend/src/domains/finance/service.py:1241-1265 | every vault is listed with its balance, and the total is their sum |
| Treasury.TreasuryService.CreateVaultTransfer | backend/src/domains/finance/service.py:1154-1234 | refused exactly when the source does not hold amount and fee; otherwise books transfer and fee |
| Payables.BurnedExactlyOnce | backend/src/domains/finance/service.py:501-546 | over every run: an expense that is no fee has fired once if approved or scheduled and never otherwise, a fee never, and each budget has spent exactly what fired in its category and period since it was created |
| Payables.CashOutIsBurnedPlusFees | backend/src/domains/finance/repository.py:207-224 | what a vault counts as cash out is what has fired on it plus its transfer fees |
| Payables.MakerIsNotChecker | backend/src/domains/finance/service.py:633-640 | a submitted bill is decided exactly when somebody reviewed it, and that was not the submitter |
| Payables.BillsOnlyMoveOn | backend/src/domains/finance/service.py:557-563 | over every run a bill only moves on along the legal edges: no decision is revised, no amount, category, vault or submitter changes |
| Payables.EventsTellTheirExpense | backend/src/domains/finance/service.py:501-546 | over every run each event carries the amount, category and vault of the expense that fired it |
| Payables.PayablesService.ApplySideEffects | backend/src/domains/finance/service.py:501-546 | every matching budget is burned by the amount and one event is added |
| Payables.PayablesService.CreateExpense | backend/src/domains/finance/service.py:439-469 | an expense is signed off and fired at once |
| Payables.PayablesService.CreatePayable | backend/src/domains/finance/service.py:568-605 | a bill goes into review without side effects |
| Payables.PayablesService.BookFee | backend/src/domains/finance/service.py:1201-1213 | a transfer fee is cash out of its vault at once and fires nothing: events and budgets stay, and cash out still exceeds what has fired by exactly the fees |
| Payables.PayablesService.TransitionPayable | backend/src/domains/finance/service.py:607-649 | moves exactly along a legal edge with segregation of duties, and fires on approval only |
| Payables.PayablesService.CreateBudget | backend/src/domains/finance/service.py:1267-1271 | a new budget owes nothing to what fired before it and keeps in step with what fires after; the others are as they were |
| Sankey.ReconciliationFlow | backend/src/domains/finance/service.py:818-928 | over the query rows in any order: first links add up to total billed, each status receives its billed total and sends its rails, each rail receives what settled on it, the reconciled total is the M-Pesa and bank inflow, labels are distinct, and the diagram is empty exactly when every invoice is cancelled |
| Sankey.SumRows | backend/src/domains/finance/service.py:834-838 | the dictionary and totals over the status rows |
| Sankey.SplitByRail | backend/src/domains/finance/service.py:891-902 | the nested dictionary over the rail rows and the reconciled total |
| Sankey.SplitByStatus | backend/src/domains/finance/service.py:874-880 | the first column: total billed split over the statuses |
| Sankey.LinkRails | backend/src/domains/finance/service.py:907-919 | one status is linked to each rail it has by the amount on it |
| Sankey.Diagram.Node | backend/src/domains/finance/service.py:854-858 | a label gets one place, the same every time, and no flow changes |
| Sankey.NodeConservesExactly | backend/src/domains/finance/service.py:904-919 | what leaves a status is what its invoices collected if and only if none of them was paid after a cancellation, and never less |
| Sankey.UnpatchedFlowConserves | backend/src/domains/finance/service.py:822-829 | in every state reached without a status PATCH each status sends exactly what it collected, at most what it received |
| Sankey.UnpatchedTotalsMeet | backend/src/domains/finance/service.py:822-829 | and the total collected is what arrives on the rails |
| Sankey.PatchBreaksTheFlow | backend/src/domains/finance/service.py:289-297 | cancelling any open invoice, paying it and patching its status back makes that status send more than was collected, in any flow over it and others, by exactly that payment and what the others took late |
| Sankey.EveryRunIsSound | backend/src/domains/finance/service.py:299-435 | every run, PATCH included, leaves a valid invoice with positive payments |
| Sankey.RailedPositive | backend/src/domains/finance/repository.py:344-357 | a status has money on a rail exactly when one of its invoices has a payment there |
| Sankey.BilledPositive | backend/src/domains/finance/repository.py:86-102 | a status has something billed exactly when it has an invoice |
| Splitter.SplitText | backend/scripts/ingest_kra_docs.py:97-164 | ends for every list of separators and computes the function `Chunks`, flush by flush; with a negative overlap no chunk is longer than the chunk size |
| Splitter.ChunksSplit | backend/scripts/ingest_kra_docs.py:97-164 | every leaf of the text stands, stripped, inside some chunk, and every chunk is a non-empty trimmed join of leaves |
| Splitter.ChunksFit | backend/scripts/ingest_kra_docs.py:104 | the documented bound on chunk length holds of every text and every list of separators when the overlap is negative |
| Splitter.OverlapBreaksBound | backend/scripts/ingest_kra_docs.py:127-143 | with the shipped separators, any chunk size from 4 on and any overlap from 0 on, a concrete text gets a chunk two characters too long |
| Splitter.BoundHoldsExactly | backend/scripts/ingest_kra_docs.py:104 | with the shipped separators and any chunk size from 4 on, the bound holds of every text exactly when the overlap is negative |
| Splitter.DefaultsBreakBound | backend/scripts/ingest_kra_docs.py:80-81 | the default settings do not meet the bound |
| Splitter.OnlySeparatorsAreLost | backend/scripts/ingest_kra_docs.py:97-164 | the text is a run of pieces, each a separator of the list or a fragment no longer than a chunk that is blank or stands inside some chunk |
| Splitter.PiecesAreText | backend/scripts/ingest_kra_docs.py:111-120 | taking a text apart level by level loses nothing: the pieces in order are the text |
| Splitter.LeavesFit | backend/scripts/ingest_kra_docs.py:127-141 | every leaf fits the chunk size |
| Splitter.GapsAreSeparators | backend/scripts/ingest_kra_docs.py:111-120 | what lies between leaves is a separator of the list |
| Splitter.LeavesOfFragments | backend/scripts/ingest_kra_docs.py:125-143 | the leaves of a text are exactly those of its fragments one level down |
| Splitter.Choose | backend/scripts/ingest_kra_docs.py:111-118 | the first separator that is empty or occurs in the text |
| Splitter.JoinSplit | backend/scripts/ingest_kra_docs.py:120 | joining the parts of a split with its separator gives the text back |
| Splitter.PartsLackSeparator | backend/scripts/ingest_kra_docs.py:120 | no part of a split still holds the separator |
| Splitter.Carry | backend/scripts/ingest_kra_docs.py:131-140 | the overlap is the longest tail of the current chunk within the limit |
| Splitter.ChunksSlide | backend/scripts/ingest_kra_docs.py:125-159 | the chunks joined at one level are windows over its fragments that fit, each no gap after the one before: the first starts at the first of them, each next one and the chunk being built with the longest tail of the one before that the overlap admits; all other chunks come from fragments too long |
| Splitter.OccursInStrip | backend/scripts/ingest_kra_docs.py:164 | stripping a chunk never cuts into a trimmed text inside it |
| Splitter.CleanedCovers | backend/scripts/ingest_kra_docs.py:164 | stripping the chunks and dropping the blank ones loses no trimmed text that stood in one |

## Left out

- HTTP routers, cookies, request parsing and the frontend.
- Database, Redis, broker and mail clients: maps, sequences, locks and receivers that may accept or refuse stand for them.
- Signing of tokens, password hashing, verifiable credentials: decoding returns the issued claims, and the payload hash is taken to determine the payload.
- Decoding refuses a token from its expiry on, as section 4.1.4 of RFC 7519 asks.
- Agents, prompts, embeddings and the graph that runs the planner's stages.
- Migrations, seeds, metrics, logs and audit rows.
- `Decimal` division to 28 digits before rounding: the weighted average rounds the exact quotient once.
- Snapshot text: amounts and instants are numerals of cents and microseconds rather than `Decimal` and ISO 8601 text.
- Invoice numbers, customers, outbox rows and receipt mails inside the invoice commands.
- The interleaved protocols (`Proposals`, `DeliveryProtocol`, `Treasury`) are step relations on values; updates in place are in the classes, which run one call at a time.
- Rows of equal creation time may be taken in either order by a batch, and rows enqueued late with an older creation time are not arrivals of `BoundedProgress`.
- The order of links in the flow, and the order in which a batch query returns rows of equal age.
- `refresh` is one step: its check and its blacklisting are not separated.
- Access tokens and their half of a logout, login lockout, the checks of the reset link itself and its one-time use.
- Manual resolution of alerts, edits of reorder levels, reserved quantities and the creation of the first stock row.
- An expense is counted by the vaults from the moment it is signed off; the treasury model starts there and leaves the queue to `Payables`.
- Bank statement import, M-Pesa callbacks, ledger entries, reports and key figures: lookups and one-line arithmetic.
- Opt-out pages, mail bodies and PDF text extraction.
- Splitter.SplitText: chunks of size 0 are not modelled, because the recursion then need not end.
- Splitter.BoundHoldsExactly: chunk sizes 1 to 3 and other lists of separators have only the one direction, `ChunksFit`, because the failing text needs two separators of two characters to fit in a chunk.
- Stock.AlertAgreesWithStock: assumes the alert writes succeed, because they are best effort, and that nothing else writes the product's key; `raise_stock_alert` (`inventory_tools.py:443-480`) would raise it without an outflow, but nothing calls it. The stock half needs no such assumption.
