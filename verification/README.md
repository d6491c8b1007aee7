# A verified model of dj-paypal-checkout

This project models the money-handling core of `paypal_checkout` in Dafny and proves properties
of it: what every interleaving of the refund protocol keeps, what concurrent webhook deliveries
add up to, what reconciliation does to each row, how often the HTTP client may send one request,
and round trips of the amount and key strings.  `dafny verify dfyconfig.toml` checks all of it.

## What is modelled

**The refund protocol** (`RefundRows`, `RefundStore`, `RefundProtocol`, `RefundInvariant`,
`RefundSafety`, `RefundCounting`, `RefundPendingLimits`, `RefundRecovery`, `RefundRules`,
`RefundBodies`).  `RefundRows` gives every transaction block of `payments.py` and
`Capture.start_refund` as a function on the refund table; a block that raises rolls back.
`RefundStore` is the same table as a mutable object whose methods save, move keys and delete rows
one statement at a time, each proved to leave exactly the table its function prescribes.  `RefundProtocol` lets any number of workers, retries, webhooks, manual merges and
lost, late or repeated messages interleave with PayPal executing requests; a transaction block is
one step.  Messages are never removed from the network, so losing one is never delivering it.
`RefundRules` tells what each block decides and records, column by column.
Amounts are natural numbers of minor units; `RefundBodies` says what a stored request body means on
the wire.

The environment rules the code relies on are the guards of PayPal's steps in
`RefundProtocol.Enabled`:

- PayPal's answer to a key, a refund or a terminal refusal, is fixed once given, and different
  keys get different refund ids;
- the refunded amount is at most the amount asked for, and a refund belongs to one capture;
- a reply or a webhook describes the refund truthfully at the moment it is sent, but may omit its
  id (replies only), status or amount, and may arrive at any later time;
- remote statuses are COMPLETED, PENDING, CANCELLED and FAILED, and the last two are final.  A
  status string the library does not know is an omitted status, since it leaves the row as it is;
- a refund issued from PayPal's dashboard is at most the captured amount;
- rows merged by hand, and the one-to-one match of reconciliation, are of the same operation;
- the database never gives out a primary key twice, even after the row is deleted.

**Reconciliation.**  `RefundReconcile` and `OrderReconcile` give one pass over one capture's refunds and
the loop over captures; `RefundPasses` adds the captures' own statuses (`sync_refund_status`) and shows
that they never steer a pass; `RefundListing` starts from PayPal's listing, grouped by capture in the
order of first mention; `RefundStatuses` says when a capture's status follows, and `RefundSignals` which
refunds are announced.  `AttemptReconcile` is the matching of captures and authorizations.  `WholeOrder`
is `reconcile_order`: captures are matched, then authorizations, then the refunds of the captures as the
matching leaves them.  `Reconciler` and `WholeOrder.Ledger` are the same loops on the mutable table.

**Capture and authorization attempts** (`Attempts`), **the webhook claim** (`WebhookClaim`), **the
built-in handlers** (`Handlers`, `HandlerRules`, `Sales`), **the client's retry loop** (`ClientRetry`: the method
set is that of section 9.2.2 of RFC 9110, Retry-After is the seconds form of section 10.2.3),
**amounts** (`Decimals`, `Money`: the General Decimal Arithmetic Specification's quantize at
precision 28), **request ids** (`RequestIds`, `Digits`) and **the card-secret sanitizer with its
detector** (`CardSecrets`).

## Where the code does not do what was hoped

Each of these has a concrete input or run, and an exact condition.

- *One key of unknown outcome per capture.*  A reply that reports a status but no id settles its
  attempt without an id.  If a webhook with a status the library does not know then adopts that
  refund, and a second attempt was started meanwhile, a later reply to the first attempt merges its
  key into the adopted row, which is still INITIATED: two keys are pending.
  `RefundPendingLimits.TwoPendingReachable` is the run; `RefundPendingLimits.AlwaysOnePendingIff`
  says that exactly such merges break the property, and `RefundCounting.AtMostOnePending` that
  either of two habits of PayPal rules them out.  No key is ever *issued* while another is pending.
- *No attempt blocks its capture for good.*  An attempt stored without a body (`start_refund` called
  without `sent_body`) is never posted and cannot be retried, so PayPal has no refund to settle it with
  or to merge it into; `RefundRecovery.BodilessBlocks` is the run.  `RefundRecovery.CanUnblockIff` says
  that only such attempts block a capture for good; those started by `refund_capture` never do
  (`RefundRecovery.NeverBlockedForGood`).
- *Reconciling keeps every listed refund.*  An attempt answered with an id and an unknown status is
  still INITIATED.  If PayPal lists that refund and one unmatched refund, the pass binds the attempt
  to the unmatched one and its own refund is left without a row.
  `RefundReconcile.RebindHappens` is the input; `RefundReconcile.CarriedOnceIff`, and
  `RefundListing.ListingCarriedOnceIff` over PayPal's listing, give the exact condition.
- *Reconciling an order twice changes nothing more.*  This fails if a pass rebinds a refund as above; if
  captures or authorizations swap ids in the same way (`AttemptReconcile.SwapHappens`); and if
  several unconfirmed captures were ambiguous and the order's refunds took all but one of them out of
  INITIATED, for then the second run binds that one (`WholeOrder.AmbiguityNarrows` is the input).
  `WholeOrder.ReconcileOrderTwiceIff` says that these are all the cases, and
  `WholeOrder.ReconcileOrderTwiceForeseen` tells them from the tables before the first run.
- *Handlers commit exactly once.*  `mark_failed` writes outside the transaction and may clear a
  rival's commit; `WebhookClaim.MarkCanClearCommit` is the run, `WebhookClaim.CommittedRunsCounted`
  the exact account.

The card-secret detector looks into tuples and the sanitizer does not (`CardSecrets.TupleEscapes`).  This
is no failure of the library: every caller of the sanitizer (`paypal_checkout/models.py:1175`, `1295`,
`1303`, `1311`) passes decoded JSON, which has no tuples, and there the two agree
(`CardSecrets.DetectorAgrees`).

## Model

| member | source | states |
|---|---|---|
| RefundStore.Store.Save | paypal_checkout/models.py:687-688 | a save is refused exactly when another row has the request id or the PayPal id, and changes one row otherwise |
| RefundStore.Store.Start | paypal_checkout/models.py:512-569 | start_refund commits exactly the table, or raises exactly the error, that the critical section prescribes: unresolved attempt, amount not refundable, or a new row keyed by its primary key |
| RefundStore.Store.Merge | paypal_checkout/payments.py:220-270 | the attempt lets go of its key, the survivor takes key, body and texts with a snapshot, the attempt is deleted; a refused save undoes all of it |
| RefundStore.Store.Settle | paypal_checkout/payments.py:183-217 | a response finds the survivor of a merged attempt, merges into an adopted row with its id, or settles the attempt in place |
| RefundStore.Store.MarkFailed | paypal_checkout/payments.py:161-180 | a terminal refusal fails the row that carries the attempt's key now, only while its outcome is unknown |
| RefundStore.Store.Adopt | paypal_checkout/payments.py:332-373 | a known refund is updated; an unknown one gets a row and turns the capture's other INITIATED rows UNRESOLVED |
| RefundStore.Store.MergeAttempt | paypal_checkout/payments.py:273-304 | the manual merge with all its refusals, in the code's order |
| RefundStore.Store.RefundCapture | paypal_checkout/payments.py:61-98 | a capture without a PayPal id is refused first, then an amount that cannot be sent; otherwise the attempt is stored with the body its request will carry |
| RefundStore.Store.Retry | paypal_checkout/payments.py:101-126 | a retry posts the refreshed row's key and body, returns the survivor of a merged attempt, or raises as the code does |
| RefundStore.Store.Conclude | paypal_checkout/payments.py:129-158 | an answer settles the attempt, an error fails it only when one of its issues proves no refund was made, anything else leaves the table alone |
| RefundStore.Store.SyncRefundStatus | paypal_checkout/models.py:571-589 | the loop adds up the completed refunds of the capture and leaves the status that sum prescribes |
| RefundBodies.MinorUnitsOnWire | paypal_checkout/money.py:92-140 | n minor units of a currency can be sent exactly when n has at most 28 digits; the text then reads back as n minor units of that currency |
| RefundBodies.RefundBodyAsksForRowAmount | paypal_checkout/payments.py:61-98 | for every refund the library starts, the stored body can be sent, and what PayPal reads from it is the amount the row records |
| RefundBodies.UnsendableAmountRefused | paypal_checkout/payments.py:73-79 | an amount whose text cannot be made is refused, and no other is refused for that reason |
| RefundRows.MergeCommitsIff | paypal_checkout/payments.py:232-255 | where PayPal ids are unique, both saves of a merge are accepted if and only if no third row has the attempt's key; with the saves in the other order the survivor's would be refused |
| RefundRows.MergeReleasesExactly | paypal_checkout/payments.py:220-255 | a merge lowers the reserved sum by exactly what the attempt reserved, and no other capture's sum changes |
| RefundRows.FlaggingKeepsReservation | paypal_checkout/payments.py:369-371 | turning attempts UNRESOLVED changes no capture's reserved sum |
| RefundRules.SumsOf | paypal_checkout/models.py:479-506 | reserved_refund_amount is the sum over the capture's INITIATED, UNRESOLVED, COMPLETED and PENDING refunds, refunded_amount over the COMPLETED ones |
| RefundRules.StartDecides | paypal_checkout/models.py:521-569 | in every world with the invariant a start is refused for the lowest attempt of unknown outcome, or for exceeding what is refundable, and otherwise goes through, the full amount included; then the table has exactly one new row, with every column told |
| RefundRules.RefundCaptureGuards | paypal_checkout/payments.py:73-86 | refund_capture goes through exactly when the capture has a PayPal id, the amount can be sent and the start goes through with that body; without an id it is refused for that |
| RefundRules.FullRefundAccepted | paypal_checkout/models.py:537-569 | on every run a confirmed capture whose refunds, if any, all failed or were cancelled can be refunded in full, by a row of the whole amount |
| RefundRules.PartialRefundAcceptedIff | paypal_checkout/models.py:537-539 | part of a capture is accepted exactly when no outcome is unknown and it fits beside what the other refunds hold |
| RefundRules.SettleRecords | paypal_checkout/payments.py:183-217 | settling never raises; in place the row shows the response and is signalled exactly when COMPLETED, otherwise the row that has the refund takes over without a signal, or nothing changes |
| RefundRules.FailRecords | paypal_checkout/payments.py:161-180 | a terminal refusal turns the row with the key FAILED if its outcome was unknown, and changes nothing else |
| RefundRules.PostConcludes | paypal_checkout/payments.py:40-49 | a posted refund is failed on six issues and no other |
| RefundRules.AdoptRecords | paypal_checkout/payments.py:332-373 | adopting shows the payload on the row that has the refund, or makes one new row for the reported amount, or else the captured one, and flags the attempts of that capture |
| RefundRules.MergeByHandDecides | paypal_checkout/payments.py:273-304 | a merge by hand goes through exactly when every check passes; then the survivor has the attempt's key, body and texts, its own id, status and amount, and a record of the attempt |
| RefundRules.RetryPostsIff | paypal_checkout/payments.py:101-126 | a retry posts exactly a row of unknown outcome with a stored body on a confirmed capture, and posts that row's key and body |
| RefundRules.SyncShows | paypal_checkout/models.py:571-589 | the status becomes REFUNDED when completed refunds cover the capture, PARTIALLY_REFUNDED when some of it, and stays without any |
| RefundRules.CompletedRefundShows | paypal_checkout/payments.py:61-150 | from call to status: a refund of a capture without live refunds, answered COMPLETED, leaves its row completed and the capture REFUNDED, or PARTIALLY_REFUNDED when less was asked for |
| RefundRules.RowsShowBodyTexts | paypal_checkout/payments.py:220-255 | on every run a row that can be retried shows the note and invoice of the request it would post, merges included |
| RefundInvariant.CaptureCovered | paypal_checkout/models.py:484-506 | in every world with the invariant, what PayPal holds or may still refund under the capture's keys is at most the reserved sum |
| RefundInvariant.SettleKeeps | paypal_checkout/payments.py:183-217 | settling never raises, and keeps the invariant, whichever of its three branches is taken |
| RefundInvariant.MergeKeeps | paypal_checkout/payments.py:220-270 | every save inside a merge meets the unique constraints, and the merge keeps the invariant |
| RefundInvariant.AdoptKeeps | paypal_checkout/payments.py:332-373 | adoption never raises and keeps the invariant |
| RefundInvariant.StartKeeps | paypal_checkout/models.py:521-569 | starting a refund never trips a constraint and keeps the invariant: the budget of all keys stays within the captured amount |
| RefundInvariant.RetryKeeps | paypal_checkout/payments.py:101-126 | a retry never raises DoesNotExist and keeps the invariant |
| RefundInvariant.StepKeeps | paypal_checkout/payments.py:61-383 | every step of workers, PayPal and the network keeps the invariant |
| RefundInvariant.RunKeeps | paypal_checkout/payments.py:61-383 | every run keeps the invariant |
| RefundSafety.NeverOverRefunded | paypal_checkout/payments.py:129-270 | on every interleaving, all that PayPal has live-refunded on a capture under locally issued keys, each counted once, is at most the captured amount |
| RefundSafety.UnfinishedKeyReserved | paypal_checkout/models.py:484-569 | a key not finally refused or cancelled is on a row of its capture that still reserves at least what PayPal holds under it |
| RefundSafety.KeyOnOneRow | paypal_checkout/payments.py:220-255 | in every reachable world each issued key is on exactly one row, with the body it was issued for, and a merged-away attempt is on record there |
| RefundSafety.PostsIdentical | paypal_checkout/payments.py:129-137 | all posts under one key are the same request, asking for the amount the attempt's row was started with |
| RefundSafety.BodyFixedForEver | paypal_checkout/payments.py:101-137 | whatever happens later, a key keeps its capture, amount and body, and no post is taken back |
| RefundSafety.StaleHandleFindsRow | paypal_checkout/payments.py:193-203 | a stale object of any attempt leads to the row that carries its key now; retrying a merged-away attempt returns the survivor |
| RefundSafety.NeverTrips | paypal_checkout/payments.py:204-373 | no step of any run violates a unique constraint or misses a row: settle, adopt and mark-failed never raise |
| RefundSafety.CallsAreSteps | paypal_checkout/payments.py:61-158 | refund_capture, retry_refund and _post_refund take exactly the protocol's steps: the same table, the same posts, and nothing when they raise |
| RefundSafety.AnythingMayComeLate | paypal_checkout/payments.py:101-383 | whatever happens meanwhile, every reply, refusal and webhook can still be delivered, every object retried, and every match still bound: the runs include all lateness and repetition |
| RefundCounting.NoKeyWhilePending | paypal_checkout/models.py:521-535 | in every reachable world no attempt is started on a capture that has a row of unknown outcome |
| RefundCounting.AtMostOnePending | paypal_checkout/models.py:521-535 | if replies with a status carry their id, or webhooks carry a known status, a capture never has two keyed rows of unknown outcome |
| RefundCounting.AdoptionAddsExactly | paypal_checkout/payments.py:349-371 | adopting adds exactly the new row's own reservation, on top of any local attempt's |
| RefundCounting.RefundableNeverNegative | paypal_checkout/models.py:498-569 | in runs that adopt nothing and revive no dead refund, refundable_amount never goes negative |
| RefundCounting.DoubleCountingUndone | paypal_checkout/payments.py:183-255 | once no row of the capture is of unknown outcome and every reply that reported a status carried an id, reserving rows have distinct PayPal ids and include every unfinished key's refund; the reserved sum is at least what PayPal refunded under those ids, and equal to it exactly when each row recorded its refund's amount |
| RefundCounting.ReservedExactIff | paypal_checkout/models.py:484-506 | the same equivalence in every world with the invariant in which the reserving rows of the capture are confirmed |
| RefundCounting.ReservedEqualsRefunded | paypal_checkout/models.py:484-506 | when PayPal refunds what was asked and reports readable amounts, that sum is exactly what PayPal refunded |
| RefundPendingLimits.SettleKeepsOnePendingIff | paypal_checkout/payments.py:204-217 | a settle leaves at most one pending key per capture exactly when it does not merge a settled attempt into a row still pending beside another |
| RefundPendingLimits.StepKeepsOnePendingIff | paypal_checkout/payments.py:183-373 | of all steps, only such a settle breaks it |
| RefundPendingLimits.AlwaysOnePendingIff | paypal_checkout/payments.py:183-373 | a whole run keeps to one pending key per capture if and only if it contains no such settle |
| RefundPendingLimits.TwoPendingReachable | paypal_checkout/payments.py:204-217 | a run within the environment rules that leaves two pending keys on one capture |
| RefundRecovery.RetryRecovers | paypal_checkout/payments.py:101-137 | from every reachable world an attempt of unknown outcome with a stored body can be reloaded and posted again, and then, whatever PayPal answered before or answers now, replies to retries alone bring its key to a row of known outcome, through a second round if it was merged into a row still pending |
| RefundRecovery.CanUnblockIff | paypal_checkout/models.py:521-535 | from every reachable world some run leaves the capture without an unresolved attempt, so that start_refund is not refused for one, if and only if each of its rows of unknown outcome has a stored body or a PayPal id |
| RefundRecovery.RunKeepsUnsent | paypal_checkout/payments.py:101-126 | an attempt of unknown outcome with neither stays so on every run: no retry, reply, webhook, match or merge ends it |
| RefundRecovery.BodilessBlocks | paypal_checkout/models.py:512-569 | one start without a body, after which no run frees the capture |
| RefundRecovery.NeverBlockedForGood | paypal_checkout/payments.py:61-86 | when every attempt is started with its body, as refund_capture does, no capture is ever blocked for good |
| RefundReconcile.RefreshedAgrees | paypal_checkout/orders.py:426-433 | after the refresh loop a row agrees with every payload that names it, flagged or not |
| RefundReconcile.AdoptAllEffect | paypal_checkout/orders.py:456-462 | adopting refunds without a row flags every attempt of the capture and creates exactly one row per distinct refund, in order |
| RefundReconcile.PassEffect | paypal_checkout/orders.py:419-462 | row by row: an attempt is bound only when one INITIATED attempt faces one unmatched refund; otherwise, with unmatched refunds, all INITIATED attempts become UNRESOLVED; other captures' rows stay |
| RefundReconcile.PassLocal | paypal_checkout/orders.py:419-462 | the pass depends on the rows of its own capture only |
| RefundReconcile.PassFrame | paypal_checkout/orders.py:419-462 | the pass leaves every other capture's rows as they are |
| RefundReconcile.CarriedOnceIff | paypal_checkout/orders.py:419-462 | after a pass every listed refund is on exactly one row, under its capture, if and only if the pass did not bind an attempt already carrying another listed refund |
| RefundReconcile.SecondPassIff | paypal_checkout/orders.py:419-462 | with distinct ids a second pass changes no row, adopts and signals nothing, if and only if the first did not rebind |
| RefundReconcile.RebindHappens | paypal_checkout/orders.py:442-445 | an input on which a listed refund loses its row |
| OrderReconcile.OutcomeByCapture | paypal_checkout/orders.py:408-462 | each capture's rows end up as its own payloads prescribe, whatever the other groups and their order |
| OrderReconcile.AllCarriedOnceIff | paypal_checkout/orders.py:408-462 | over the groups of an order: every refund of every group ends up on exactly one row if and only if no pass rebinds |
| OrderReconcile.ReconcilingTwiceIff | paypal_checkout/orders.py:408-462 | over the groups of an order: the same passes again are the identity, with no adoption and no signal, if and only if no pass rebound |
| RefundPasses.PassesStrip | paypal_checkout/orders.py:408-462 | the captures' statuses never steer the passes: apart from them, the passes with sync_refund_status leave the table, adoptions and signals of the passes without it |
| RefundPasses.PassesAdvance | paypal_checkout/models.py:571-589 | the passes change nothing of a capture but its status, and make no capture unconfirmed |
| RefundPasses.SettleSucceeds | paypal_checkout/payments.py:183-255 | settling an existing attempt never trips a constraint, merging included |
| RefundStatuses.PassSettlesIff | paypal_checkout/orders.py:408-462 | a pass takes an INITIATED capture out of INITIATED exactly when PayPal completes one of its refunds, or is silent about one recorded as completed, at a moment when a completed refund of the capture has moved money |
| RefundStatuses.PassesSettleIff | paypal_checkout/orders.py:408-462 | the same over all groups of the order, each capture depending on its own group only |
| RefundStatuses.SettlesWhenPositive | paypal_checkout/orders.py:408-462 | where all amounts are positive, that is exactly when PayPal reports one of its refunds completed, or is silent about one recorded as completed |
| RefundStatuses.PassesShow | paypal_checkout/orders.py:408-462 | after the passes a capture has the status it had, unless its own refunds settle it; then it is REFUNDED or PARTIALLY_REFUNDED |
| RefundSignals.PassAnnounces | paypal_checkout/orders.py:425-462 | a pass signals exactly the listed refunds that PayPal newly reports completed, each once |
| RefundSignals.PassReports | paypal_checkout/orders.py:435-462 | a pass reports as adopted exactly the listed refunds the capture has no row for, in PayPal's order |
| RefundSignals.PassesAnnounce | paypal_checkout/orders.py:391-462 | the same over all groups of the order |
| RefundListing.ByCaptureGroups | paypal_checkout/orders.py:393-404 | by_capture holds every named parent once, in the order of first mention, with exactly its refunds in PayPal's order |
| RefundListing.ListingCarriedOnceIff | paypal_checkout/orders.py:391-462 | over PayPal's listing: every listed refund of a capture the order knows ends up on exactly one row, under it, if and only if no pass rebinds |
| RefundListing.ListingTwiceIff | paypal_checkout/orders.py:391-462 | the same listing again changes no refund row and no capture id, adopts nothing and signals nothing, if and only if the first call rebound no attempt |
| RefundListing.OutcomeOfCapture | paypal_checkout/orders.py:391-462 | however PayPal interleaves refunds of different captures, a capture's rows end up as its own refunds alone prescribe |
| WholeOrder.ReconcileOrderTwiceIff | paypal_checkout/orders.py:295-462 | reconciling the order again with the same document changes no capture id, authorization or refund row, binds and adopts nothing and sends no signal, if and only if neither matching leaves something to rematch and no pass rebinds on the table the matching leaves |
| WholeOrder.ReconcileOrderTwiceForeseen | paypal_checkout/orders.py:295-462 | the same, told from the tables and the document before the first run |
| WholeOrder.ReconciledRefundsCarried | paypal_checkout/orders.py:295-462 | after a run every listed refund of a capture known once the captures are matched is on exactly one row, under it, if and only if no pass rebinds |
| WholeOrder.SettledIff | paypal_checkout/models.py:571-589 | which of the order's unconfirmed captures the refund passes take out of INITIATED: those with a refund reported completed, or recorded completed and listed without a status, once a completed refund of the capture has moved money |
| WholeOrder.CaptureMatchIff | paypal_checkout/orders.py:363-388 | an INITIATED capture of the order is matched with an object no capture has exactly when each is the only one; otherwise the case is ambiguous |
| WholeOrder.AuthorizationMatchIff | paypal_checkout/orders.py:363-388 | the same for authorizations |
| WholeOrder.NoCaptureToMatch | paypal_checkout/orders.py:374-375 | without an INITIATED capture of the order, or an object no capture has, nothing is matched |
| WholeOrder.NoAuthorizationToMatch | paypal_checkout/orders.py:374-375 | the same for authorizations |
| WholeOrder.CapturesShow | paypal_checkout/orders.py:295-388 | after a run each capture shows what PayPal said: a bound one the object's id, status and finality as far as it tells them, every other its old ones; and a refund status instead exactly when a refund of it is reported |
| WholeOrder.AuthorizationsShow | paypal_checkout/orders.py:325-335 | a bound authorization shows the object's id, status and expiry as far as it tells them; the others stay |
| WholeOrder.MatchSignals | paypal_checkout/orders.py:465-475 | one signal for the bound capture when the match leaves it COMPLETED, DECLINED or FAILED, none otherwise |
| WholeOrder.RunAnnounces | paypal_checkout/orders.py:391-462 | payment_refunded is sent exactly for the listed refunds newly reported completed, once each |
| WholeOrder.AmbiguityNarrows | paypal_checkout/orders.py:376-388 | an order whose first reconciliation reports its captures as ambiguous and whose second binds one of them |
| WholeOrder.Ledger.Reconcile | paypal_checkout/orders.py:315-332 | the method leaves the tables and report of the run whose rows, matches and signals the lemmas of this module tell column by column |
| AttemptReconcile.MatchIff | paypal_checkout/orders.py:365-388 | told from the rows: an unconfirmed attempt and an object no row has are bound exactly when neither side has another candidate, and are ambiguous otherwise |
| AttemptReconcile.NothingToMatch | paypal_checkout/orders.py:374-375 | without a candidate on one side nothing is matched |
| AttemptReconcile.RematchIff | paypal_checkout/orders.py:363-388 | whether the next matching binds again, told from the first: an id swapped out without a status learned, or an ambiguity of which one candidate is left |
| AttemptReconcile.SwapHappens | paypal_checkout/orders.py:384-388 | two listed captures that every pass swaps again |
| AttemptReconcile.FindMatch | paypal_checkout/orders.py:363-388 | the loop and the two exits compute that match |
| Reconciler.GroupByCapture | paypal_checkout/orders.py:393-404 | the loop builds by_capture: every named parent once, in the order of first mention, with exactly its refunds in PayPal's order |
| Reconciler.FindRefunds | paypal_checkout/orders.py:419-424 | the dictionary of refunds the capture already has rows for |
| Reconciler.Refresh | paypal_checkout/orders.py:425-433 | the loop leaves the refreshed table, the capture synced, and signals the refunds it turned COMPLETED |
| Reconciler.AdoptEach | paypal_checkout/orders.py:456-462 | the adoption loop never trips a constraint and leaves the table, adoptions and signals prescribed, the capture synced after each completed one |
| Reconciler.SettleReconciled | paypal_checkout/payments.py:376-383 | the match is settled, and the settled row's capture synced if the row is completed |
| Reconciler.ReconcileCapture | paypal_checkout/orders.py:408-462 | the loop's body leaves exactly the pass's table, adopted ids and signals |
| Reconciler.ReconcileRefunds | paypal_checkout/orders.py:391-462 | the whole method makes exactly one pass for each of the order's captures that PayPal lists refunds under, in the listing's order |
| Attempts.AtMostOneUnconfirmed | paypal_checkout/models.py:266-319 | over any run with crashes at any point, at most one attempt of a pool is INITIATED, and no two share a key |
| Attempts.PostCarriesStoredKey | paypal_checkout/orders.py:163-193 | a post made while an attempt is unconfirmed carries that attempt's stored key |
| Attempts.RecoveryReusesKey | paypal_checkout/models.py:281-294 | a call begun while an attempt is unconfirmed takes up that attempt and key, and issues no other |
| Attempts.ChargesBounded | paypal_checkout/orders.py:163-292 | with equal keys collapsed, PayPal charges at most once more than outcomes were recorded |
| Attempts.CallRuns | paypal_checkout/orders.py:163-292 | one call, however it ends, is the run of its steps: start, post with the row's key, record the answer |
| Attempts.CallRecords | paypal_checkout/orders.py:163-292 | a call records the answer's id and status on the attempt it posted and on no other; without a usable answer the attempt stays unconfirmed; an unconfirmed attempt is the one taken up |
| Attempts.NewsRecorded | paypal_checkout/models.py:590-613 | reconciliation records on the unconfirmed attempt, a webhook on the rows with its id, both as PayPal says |
| Attempts.KeysAcrossPools | paypal_checkout/models.py:43-118 | the key is the text of its kind, order and primary key, and attempts of different pools never share one |
| Attempts.Table.Begin | paypal_checkout/models.py:304-319 | the pending attempt is reused, or a row is inserted and then given the key its primary key determines |
| Attempts.Table.Call | paypal_checkout/orders.py:163-292 | the call leaves the state its steps prescribe |
| WebhookClaim.CommittedRunsCounted | paypal_checkout/webhooks/views.py:108-144 | over every interleaving: committed handler runs are one if processed_at is set, plus the failure marks that cleared a set processed_at |
| WebhookClaim.ClaimDecides | paypal_checkout/webhooks/views.py:113-144 | a claim on a row that a rival processed writes nothing and answers duplicate; on an open row it takes the lock |
| WebhookClaim.OnlyOwnFailures | paypal_checkout/webhooks/views.py:113-123 | a delivery fails, or is answered 500, only after its own handlers or its own claim raised |
| WebhookClaim.CommitsWithinFailures | paypal_checkout/webhooks/views.py:108-123 | clears are at most the failed deliveries, so commits are at most one more than those; without failures there is at most one |
| WebhookClaim.AnswersTellTheTruth | paypal_checkout/webhooks/views.py:108-125 | a delivery is told "processed" exactly when its own handlers committed, and 500 exactly when it marked its failure |
| WebhookClaim.AtMostOneCommit | paypal_checkout/webhooks/views.py:113-125 | when no failure mark clears a rival's commit, at most one run commits |
| WebhookClaim.NeverAcceptedWithoutCommit | paypal_checkout/webhooks/views.py:108-125 | every 200 answer, processed or duplicate, comes after a committed run |
| WebhookClaim.HandlersExclusive | paypal_checkout/webhooks/views.py:127-144 | two deliveries never hold the claim at once |
| WebhookClaim.MarkCanClearCommit | paypal_checkout/models.py:663-667 | a run in which a late failure mark lets a second run commit |
| WebhookClaim.EventRow.Post | paypal_checkout/webhooks/views.py:108-125 | one undisturbed delivery leaves the row and gives the answer its steps prescribe |
| Handlers.DispatchTwice | paypal_checkout/webhooks/handlers.py:90-102 | a committed run of any built-in handler, repeated, changes no row |
| Handlers.DispatchIdempotent | paypal_checkout/webhooks/handlers.py:90-495 | dispatching an event any number of times leaves the rows one dispatch leaves |
| Handlers.DispatchKeepsValid | paypal_checkout/webhooks/handlers.py:90-495 | every committed run keeps the constraints, and no handler fails by breaking one |
| Handlers.RefundTwice | paypal_checkout/webhooks/handlers.py:188-232 | the same for a refund event that adopts a row, flags attempts and updates the capture's status |
| Handlers.VaultTwice | paypal_checkout/webhooks/handlers.py:423-495 | the same for vault events, which adopt unknown tokens unless a pending local attempt may match |
| HandlerRules.CaptureEventShows | paypal_checkout/webhooks/handlers.py:158-185 | a capture event leaves its status and finality on the capture with its id, and touches nothing else |
| HandlerRules.RefundEventShows | paypal_checkout/webhooks/handlers.py:188-232 | a refund event adopts the refund on the capture it names and syncs that capture |
| HandlerRules.OrderEventShows | paypal_checkout/webhooks/handlers.py:235-247 | an order event leaves its status and columns on the order with its id |
| HandlerRules.AuthorizationEventShows | paypal_checkout/webhooks/handlers.py:250-261 | the same for an authorization |
| HandlerRules.SubscriptionEventShows | paypal_checkout/webhooks/handlers.py:283-345 | the same for a subscription, where the status the event implies counts for more than the reported one |
| HandlerRules.SaleEventShows | paypal_checkout/webhooks/handlers.py:362-399 | a first sale is recorded under the subscription it names, with its amount, completed unless it says otherwise |
| HandlerRules.RepeatedSaleShows | paypal_checkout/webhooks/handlers.py:377-387 | a repeated sale changes the status of its payment only |
| HandlerRules.UnreadableSaleFails | paypal_checkout/webhooks/handlers.py:402-417 | a sale of a subscription of ours with an unreadable amount raises, so it is sent again |
| HandlerRules.TokenEventShows | paypal_checkout/webhooks/handlers.py:458-495 | a token event leaves the token active, pending deletion or deleted as the event says, and one of the other environment changes nothing |
| HandlerRules.TokenEventAdopts | paypal_checkout/webhooks/handlers.py:423-463 | an unknown token that no local attempt may turn out to be gets a row of its own |
| HandlerRules.RetryAskedIff | paypal_checkout/webhooks/handlers.py:124-155 | PayPal is asked to send an event again exactly when it is ours and its row is not here yet |
| HandlerRules.ForeignIgnored | paypal_checkout/webhooks/handlers.py:130-155 | events about someone else's objects change nothing |
| Handlers.Database.Apply | paypal_checkout/webhooks/handlers.py:235-300 | an order, authorization or subscription takes the payload, then the status the event's name implies |
| Handlers.Database.ApplyCapture | paypal_checkout/webhooks/handlers.py:130-185 | a capture event updates its row, is ignored, or raises because the order is ours and the row is not here yet |
| Handlers.Database.ApplyRefund | paypal_checkout/webhooks/handlers.py:188-232 | a refund event adopts the refund on the refund table and then syncs the capture, is ignored, or raises because the order is ours and the capture is not here yet |
| Handlers.Database.ApplyVault | paypal_checkout/webhooks/handlers.py:423-495 | a token event updates, adopts, ignores another environment's token, or asks for a retry |
| Handlers.Database.Handle | paypal_checkout/webhooks/handlers.py:90-102 | one delivery, run statement by statement on the tables, leaves exactly the rows its handler prescribes, or the old rows if it raises |
| Sales.PaidOncePerSale | paypal_checkout/webhooks/handlers.py:362-399 | after any deliveries with any repetitions paid_amount is the sum, over distinct sales, of the first amount delivered for each sale whose last reported status is completed |
| Sales.PaidForCompletedSales | paypal_checkout/models.py:955-961 | for completed sales, the sum over distinct sales of the first amount delivered |
| Sales.LedgerRecords | paypal_checkout/models.py:1051-1058 | the payments are exactly the first deliveries of each sale, with the status reported last |
| Sales.PaymentTable.HandleSale | paypal_checkout/webhooks/handlers.py:362-417 | get_or_create on the sale id; an unreadable amount raises and records nothing |
| ClientRetry.Perform | paypal_checkout/client.py:243-308 | the loop stops on every stream of answers, having sent the same request exactly as often as the answers call for, within max_retries + 2 sends and 30 seconds of sleep per retry, a POST or PATCH without a key at most twice, and ends as the last answer says |
| ClientRetry.SendsBounded | paypal_checkout/client.py:179-191 | at most max_retries + 2 sends |
| ClientRetry.KeylessWriteSentOnce | paypal_checkout/client.py:128-134 | a POST or PATCH without a request id, not declared safe, is sent at most twice, and every send but the last was answered 401 |
| ClientRetry.StrictRefusesIff | paypal_checkout/client.py:136-177 | strict mode refuses before any send exactly the requests without a key whose policy is REQUIRED, or undeclared for a method that is not safe, when retries are on |
| ClientRetry.SendsAgainIff | paypal_checkout/client.py:179-191 | an answer leads to another send exactly when it is the first 401, or a lost connection or one of five statuses while a retry is left and the request is keyed, declared safe or of a safe method |
| ClientRetry.KeyedOrReadSentAgain | paypal_checkout/client.py:179-191 | a GET or a keyed write with a retry left is sent again after a 503 or a lost connection |
| ClientRetry.RetryAfterObeyed | paypal_checkout/client.py:193-195 | a Retry-After is obeyed, up to 30 seconds |
| ClientRetry.BackoffStarts | paypal_checkout/client.py:196-200 | without one the first pause is the base times the jitter, up to 30 seconds, and none without a base |
| ClientRetry.BackoffDoubles | paypal_checkout/client.py:196-200 | from one attempt to the next the pause doubles, up to 30 seconds |
| ClientRetry.SleepBounded | paypal_checkout/client.py:193-200 | the client sleeps at most 30 * max_retries seconds |
| ClientRetry.BackoffBounded | paypal_checkout/client.py:193-200 | one backoff is between 0 and 30 seconds |
| Decimals.QuantizeExactIff | paypal_checkout/money.py:104-117 | quantizing succeeds without changing the value exactly when a coefficient of at most 28 digits expresses it |
| Decimals.RoundsToNearestEven | paypal_checkout/money.py:104-106 | quantizing rounds to the nearest multiple, half to even |
| Decimals.PlainParses | paypal_checkout/money.py:117-122 | the printed form of a decimal reads back as the same decimal, sign and exponent included |
| Decimals.ScientificParses | paypal_checkout/money.py:73-79 | digits, e or E, an optional sign and digits are read as coefficient and exponent |
| Decimals.PlusParses | paypal_checkout/money.py:73-79 | a plus sign in front says nothing |
| Decimals.UnderscoreIgnored | paypal_checkout/money.py:73-79 | nor does an underscore anywhere |
| Money.FormatSucceedsIff | paypal_checkout/money.py:61-117 | a value is formatted exactly when the currency is valid and the value is a finite amount, not below zero, that is a whole number of minor units within 28 digits; no bool, float or unreadable text is |
| Money.IntegerFormatsAsDigits | paypal_checkout/money.py:61-117 | an int is formatted as its decimal digits are; a negative one is refused |
| Money.IntegerReadsBack | paypal_checkout/money.py:92-122 | an int is formatted when it fits, and reads back as that many whole units |
| Money.IntegerText | paypal_checkout/money.py:92-117 | its text is its digits, with two zeros after a point where the currency has decimals |
| Money.HundredthsText | paypal_checkout/money.py:104-117 | an amount in hundredths is printed as the whole units, a point and two digits |
| Money.StrangersRefused | paypal_checkout/money.py:61-84 | a bool, a float and any other object are no amounts, and an infinity or NaN is not finite |
| Money.DecimalsOf | paypal_checkout/money.py:87-89 | two decimals, but none for HUF, JPY and TWD |
| Money.CurrencyRead | paypal_checkout/money.py:50-58 | three letters in either case, with or without spaces around, name the currency in upper case |
| Money.CurrencyRefused | paypal_checkout/money.py:50-58 | and nothing else does |
| Money.TextReadStripped | paypal_checkout/money.py:61-84 | spaces around an amount are dropped |
| Money.FormatRoundTrip | paypal_checkout/money.py:92-122 | the string has exactly the currency's decimals, parses to the same amount, and formatting the parse gives the same string |
| Money.PayloadSays | paypal_checkout/money.py:125-128 | the payload carries the formatted amount and the code in upper case |
| Money.PayloadReads | paypal_checkout/money.py:131-140 | any payload is read as its amount and its code in upper case, or refused when either cannot be read |
| Money.PayloadRoundTrip | paypal_checkout/money.py:125-140 | an amount payload reads back as the same amount and currency |
| Money.EqualAmountsFormatAlike | paypal_checkout/money.py:92-117 | amounts of one value, such as 10, 10.0 and 1E+1, are formatted to the same text or refused alike |
| RequestIds.RequestIdInjective | paypal_checkout/models.py:43-118 | two keys are equal only if they come from the same builder with the same primary keys |
| RequestIds.JoinInjective | paypal_checkout/models.py:43-118 | colon-joined lists of colon-free fields are equal only field by field |
| Digits.RenderInjective | paypal_checkout/models.py:43-118 | a primary key can be read back from its decimal digits |
| CardSecrets.SanitizedSecrets | paypal_checkout/models.py:1079-1089 | the detector finds a secret in the sanitized copy exactly when one was inside a tuple |
| CardSecrets.SanitizedJsonIsSafe | paypal_checkout/models.py:1079-1089 | the sanitized copy of a JSON tree holds no card secret at any depth |
| CardSecrets.UnchangedIff | paypal_checkout/models.py:1079-1089 | a tree comes back unchanged exactly when it has no secret key outside a tuple |
| CardSecrets.SecretKeysAre | paypal_checkout/models.py:1074-1089 | the secret keys are five words, in any mixture of cases |
| CardSecrets.SanitizeKeepsRest | paypal_checkout/models.py:1079-1089 | the sanitized copy has the same texts at the same places, except those below a secret key |
| CardSecrets.DetectorAgrees | paypal_checkout/vault.py:38-46 | for JSON the sanitizer changes a tree exactly when the detector finds a secret |
| CardSecrets.SanitizeIdempotent | paypal_checkout/models.py:1079-1089 | sanitizing twice is sanitizing once |
| CardSecrets.TupleEscapes | paypal_checkout/vault.py:44-45 | a tree with a tuple on which detector and sanitizer disagree |

## Left out

- HTTP transport, OAuth tokens, certificate and signature checks, settings, admin, templates, migrations, the management command and the demo: I/O, foreign libraries or plain validation.
- The async client: the same loop as the synchronous one.
- Plan, product, subscription and vault API wrappers: they set whatever PayPal answers, with no local guard.
- RefundProtocol: capture rows are constant, so `sync_refund_status` and `payment_refunded` are not part of its runs; the refund passes of `WholeOrder` and the handlers have the former.
- RefundStore.Store.Start: amounts are natural numbers in the capture's currency; a negative amount, an adopted refund in another currency and a rounding database column are not modelled.
- RefundStore.Store.RefundCapture: amounts are natural numbers of minor units, so of the refusals of an amount's text only "too large" occurs; a negative or finer amount is refused before any row in the code too (`Money.FormatSucceedsIff`).
- RefundRows.First: a lookup takes the lowest primary key, where the code's `.first()` follows the newest row; ids and issued keys are unique, so this differs only for a row without a key, whose stale handle the protocol never asks about.
- RefundRecovery.CanUnblockIff: rows from releases that posted without storing a body; `merge_refund_attempt` is their way out.
- RefundRecovery.RetryRecovers: that some continuation concludes, not that a scheduler runs it: how often a retry is made, and whether PayPal replies to one, is up to the caller and PayPal.
- RefundRows.RetryRefund: the refresh and the post are one step, since the row's key and body never change.
- Attempts.ChargesBounded: one call at a time; `start_capture` takes no lock, so concurrent calls may start two attempts.
- Attempts.CallRuns: request bodies, amounts and `final_capture` of captures; only refunds persist a body.
- Attempts.Table.Call: the same parts of a call are left out of the method.
- Reconciler.ReconcileRefunds: the walk over purchase units and the search for a refund's parent id happen before the list it takes; the messages for a person are not modelled.
- WholeOrder.Ledger.Reconcile: the order's own row, the exit for an order without a PayPal id and the count of unresolved refunds; that a match is ambiguous is reported, its text is not.
- WholeOrder.ReconcileOrderTwiceIff: rows, ids, bindings, adoptions and signals; a capture's status may still change on the second run, after a refund is reported taken back.
- AttemptReconcile.RematchIff: PayPal's objects have distinct ids, and it never sends the local status INITIATED.
- WebhookClaim.EventRow.Post: one delivery without rivals; the interleavings are the runs of `WebhookClaim`.
- Handlers.DispatchIdempotent: the built-in handlers only; timestamps, raw payloads and signals are not rows' contents here, and other columns a payload may set are one map per row.
- ClientRetry.Perform: a Retry-After that is an HTTP date, infinite or not a number; headers other than the request id; the jitter is any factor from 0.5 to 1.5.
- Money.FormatRoundTrip: text, currencies and digits beyond ASCII, and contexts other than precision 28 with unlimited exponents.
- RequestIds.RequestIdInjective: primary keys are natural numbers printed in decimal.
- CardSecrets.SanitizedSecrets: keys are strings, lower-cased as ASCII.
