# LumenFlow: a verified model

This project models the parts of LumenFlow that move money or promise delivery, and proves in
Dafny 4.11 what they keep over every run. `dafny verify dfyconfig.toml` checks all of it.

**The payment contract.** `Contract.dfy` gives the entry points for payments, batch payments,
refunds and disputes over rejected refunds as functions from one ledger state to the next.
`ContractObject.dfy` is the same contract as an object whose storage fields are updated in place,
loops and rollback included; every method is proved to do what its function says, and
`ContractRuns.dfy` drives it through any run and states of the object what the other files prove.
`RefundSafety.dfy` holds the inductive invariant, `RefundTheorems.dfy` the results about single
refunds, `RefundCaps.dfy` those about the refunds of a payment together,
`RefundCounterexamples.dfy` the runs on which a promise fails, `Authority.dfy` whose signature
stands behind each change, `Conservation.dfy` the token balances and `History.dfy` the indexes and
statistics. `PaymentRules.dfy` and `RefundRules.dfy` say exactly which calls are accepted, what they
write and at what time a payment was made, and `Refusals.dfy` that every error tells the truth. A run is any sequence of calls of these entry points by anyone, with any settings
changes and any passing of time in between.

**Recovery of an interrupted refund.** `RefundRecovery.dfy` runs the client loop against that
contract while others keep transacting and while replies are lost, writes commit and still throw
or arrive late, and sessions stop anywhere. A record of every write and read explains each outcome.

**Delivery.** `WebhookRelay.dfy` (remember after success, at least once) and `WebhookServer.dfy`
(remember before delivery, at most once) are the two opposite protocols over the same kind of
store. `EventSubscription.dfy` and `PaymentSubscription.dfy` are the stream subscriptions as
machines over any schedule of events and timers, with callbacks that unsubscribe or throw.

**Storage, encodings, traversals.** `ReceiptCache.dfy` is the 50-entry cache over an access-time
index against a plain recency list; `Encoding.dfy`, `Stroops.dfy` and `BatchCsv.dfy` are printers
with the readers that undo them; `Pagination.dfy` walks cursor chains; `Redaction.dfy` says which
differences between two events a log still shows. `Common.dfy`, `Token.dfy` and `Text.dfy` are
shared by them.

## Where the code and its promises differ

The model follows the code. Where a promise fails, a lemma gives an input on which it fails, and a
second result says exactly when it holds.

- Pending refunds do not count against the payment. `contracts/lumenflow/src/lib.rs:2211` compares
  the requested amount with the executed total only, so requests of 300 and 300 against 500 are
  both accepted and can both be paid, 600 in all; the test at
  `contracts/lumenflow/src/invariant_refund.rs:375-398` expects the second one to be refused.
  `OverCommitmentIsPossible` is the run. For what is paid, `StepWithinIff` and `NeverOverRefunded`
  give the condition: every payout fits into what is left of its payment, the guard that
  `execute_refund` and `resolve_dispute` lack. For what is asked for, it is `StepCappedIff` and
  `RunCappedIff`.
- A refund can be paid twice. Several disputes may be open on one rejected refund, and
  `contracts/lumenflow/src/lib.rs:2555-2632` pays on every forced settlement without looking at
  the refund's status. `ForcedTwiceIsPossible` is the run; `PaidOnceIff` and `StepPaidOnceIff`
  give the condition.
- The SDK status `Disputed` is never produced by the contract: raising a dispute leaves the refund
  `Rejected`.
- `webhook/webhook-server.js:221-223` promises that a token is recorded atomically. An `await`
  stands between asking the store and recording, so two messages with one token that are both
  asked about first are both delivered. `CheckedBeforeRecorded` is the input; the invariant of
  `Server` says that tokens stay single exactly when each was unknown at the moment it was recorded.
- `sdk/src/webhookRelay.ts:189-190` calls the end of the attempt loop unreachable; `RelayEvent` says
  that it is reached only when the limit is no positive whole number, and that with such a limit
  the other end of a failing loop is not reached. Likewise `RecoverRefund` can fail with "did not
  converge" against the contract only when `maxRetriesPerStep` is negative or fractional.
- `cleanup_expired_refunds` (`contracts/lumenflow/src/lib.rs:1950-1988`) deletes Completed records but
  not their places in the order index. `PurgedIdIsFree` says that the id of a paid refund can then
  be requested again, `PaidInBothLives` that executing it pays it twice without any dispute. The
  results on runs below are about runs without this purge, except `BalancedWithPurges`.
- `sdk/src/events.ts:92-106` announces a retry before it arms it, so an `onReconnecting` that throws
  leaves a subscription that is wanted but silent; `EventSubscription.Subscription.Run` says that
  this and having used all five retries are the only ways to get there.
- `monitoring/redact.py:19-21` promises never to raise; `InfiniteAmountRaises` is an event on which it
  does. `RedactEvent` raises exactly on an infinite amount it converts or a nesting it cannot copy.
  `monitoring/redact.py:75-76` matches addresses of 55 characters, while Stellar addresses have
  56: `FullAddressStays`. Contact fields are masked, not removed (`monitoring/redact.py:6`).
- `formatStroops` garbles negative amounts that are not whole: `Stroops.ReadBack` is exact.
- `build_canonical_payload` is called by the contract's test module only; the entry points and the
  SDK concatenate other layouts. Nothing is claimed about their equality.

## Model

| member | source | states |
|---|---|---|
| Token.TransferFlow | contracts/lumenflow/src/lib.rs:1281-1295 | a token transfer changes exactly the two balances it names, by its amount |
| Token.TransferKeepsSupply | contracts/lumenflow/src/invariant_escrow.rs:511-534 | a transfer neither creates nor destroys tokens of any asset |
| ContractObject.PaymentProcessingContract.ProcessPayment | contracts/lumenflow/src/lib.rs:1204-1350 | the stateful entry point reaches exactly the specified state, or returns the specified error and leaves storage untouched; what that state is, PaymentRules.PaymentWrites says, and when it is reached, PaymentRules.PaymentAccepted |
| ContractObject.PaymentProcessingContract.BatchPayment | contracts/lumenflow/src/lib.rs:1553-1724 | all five phases with their loops do what the specification says: every item checked before any change, one transfer per token and merchant, all or nothing; PaymentRules.BatchAccepted and PaymentRules.BatchWrites give the condition and the records |
| ContractObject.PaymentProcessingContract.ValidateItems | contracts/lumenflow/src/lib.rs:1568-1626 | the validation loop with its list of seen ids reports the first failing item, duplicates included |
| ContractObject.GroupByTokenAndMerchant | contracts/lumenflow/src/lib.rs:1636-1659 | the rebuild-the-vector loop computes the grouping, and stops on the first overflow |
| ContractObject.PaymentProcessingContract.PayEach | contracts/lumenflow/src/lib.rs:1661-1665 | one transfer per group in order; a failing one aborts |
| ContractObject.PaymentProcessingContract.RecordEach | contracts/lumenflow/src/lib.rs:1667-1709 | the recording loop, which carries the global statistics in a local variable, equals recording the items one by one |
| ContractObject.PaymentProcessingContract.Perform | contracts/lumenflow/src/lib.rs:1204-2632 | every transaction takes the stored state to exactly the state the specification gives, or is refused with its error and leaves every field as it was |
| ContractRuns.Drive | contracts/lumenflow/src/invariant_escrow.rs:147-534 | a contract object deployed empty and driven by any transactions satisfies the refund invariant, the balance sheet of every account and token, the indexes and counters and the limits; no payment is refunded beyond its amount if and only if every accepted payout fitted |
| ContractObject.PaymentProcessingContract.ExecuteRefund | contracts/lumenflow/src/lib.rs:2360-2415 | only an approved refund, only signed by the merchant; books and pays it, or leaves everything as it was; RefundRules.ExecutionAccepted says exactly when it is paid |
| ContractObject.PaymentProcessingContract.Settle | contracts/lumenflow/src/lib.rs:2377-2412 | the bookkeeping and the transfer of one refund, shared by execution and forced settlement; a failing part leaves the caller to roll back |
| ContractObject.PaymentProcessingContract.ResolveDispute | contracts/lumenflow/src/lib.rs:2555-2632 | a forced settlement pays the disputed refund whatever its status, once per dispute |
| RefundSafety.StepKeepsInv | contracts/lumenflow/src/lib.rs:2173-2632 | every call by anyone keeps the refund invariant: indexes exact, refunds backed by payments, payments booked, transfers traced, disputes accounted for |
| RefundSafety.RunKeepsInv | contracts/lumenflow/src/invariant_refund.rs:466-512 | the invariant holds after every sequence of calls |
| RefundSafety.PayOutKeepsInv | contracts/lumenflow/src/lib.rs:2377-2412 | one refund transfer keeps the whole invariant, given that no earlier transfer of the refund clashes with it |
| RefundSafety.CheckedItems | contracts/lumenflow/src/lib.rs:1564-1597 | what passed batch validation has positive amounts, new order ids and no repetition |
| RefundSafety.SumOfUpdate | contracts/lumenflow/src/storage.rs:469-482 | changing one refund changes an order's sum by that refund's own contribution |
| PaymentRules.FeeMeans | contracts/lumenflow/src/lib.rs:1283-1288 | the fee is the amount times the basis points over 10,000, rounded down; it overflows exactly when the product leaves 128 bits |
| PaymentRules.PaymentAccepted | contracts/lumenflow/src/lib.rs:1204-1296 | with numbers in range, a payment is accepted if and only if the contract runs, the payer signed, the amount is positive, the id new and of 1 to 64 characters, the token allowed, the merchant registered and active, and the payer holds the net amount and, when there is a collector, the fee |
| PaymentRules.PaymentWrites | contracts/lumenflow/src/lib.rs:1281-1326 | an accepted payment was allowed, and writes one record with the ledger time of the call, one event, one place in each history and the net amount received; nothing else but balances and counters |
| PaymentRules.ItemsChecked | contracts/lumenflow/src/lib.rs:1568-1626 | validation passes if and only if every item is allowed by itself and no order id repeats |
| PaymentRules.BatchAccepted | contracts/lumenflow/src/lib.rs:1553-1724 | with numbers in range and the cost of the items at hand in each token, a batch is accepted if and only if the contract runs, the payer signed, and it has at most ten items, each allowed, under different ids |
| PaymentRules.BatchCosts | contracts/lumenflow/src/lib.rs:1661-1665 | a payer none of whose items goes to himself must hold their cost in each token for the batch to be accepted |
| PaymentRules.BatchWrites | contracts/lumenflow/src/lib.rs:1667-1709 | an accepted batch was allowed, keeps every stored payment and writes one record for each item, with the ledger time of the call and no fee |
| PaymentRules.RunKeepsDeal | contracts/lumenflow/src/lib.rs:1204-2632 | over any run a stored payment keeps payer, merchant, token, amount, fee and time |
| PaymentRules.RunDates | contracts/lumenflow/src/lib.rs:1298-1311 | every payment a run brings was made by one of its accepted calls, which names its parties, token and amount, and carries the ledger time of that call |
| RefundRules.RequestAccepted | contracts/lumenflow/src/lib.rs:2173-2235 | for a stored order, a request is accepted if and only if it meets the rules and the ledger time is at most the payment's plus the window; too late is the error of one that meets the others; it writes one pending record, made now, and one place in the order's index |
| RefundRules.WindowFromPayment | contracts/lumenflow/src/lib.rs:2201-2208 | after an accepted payment and any run, a request for it that meets the other rules is accepted while no more time than the refund window has passed since the payment call, and refused as expired afterwards |
| RefundRules.DecisionAccepted | contracts/lumenflow/src/lib.rs:2285-2350 | approval and rejection are accepted if and only if the refund is pending and the admin or its merchant signs; only the status changes |
| RefundRules.ExecutionAccepted | contracts/lumenflow/src/lib.rs:2360-2415 | an execution is accepted if and only if the contract runs, the refund is approved, its merchant signs and can pay, and no counter overflows, at any time and whatever the settings; it completes the record, moves the amount from merchant to payer and changes no other balance, refund, payment or dispute |
| RefundRules.RaiseAccepted | contracts/lumenflow/src/lib.rs:2479-2526 | a dispute is accepted if and only if the payer of a rejected refund raises it under a new id with a reason of at most 256 characters; it is then open |
| RefundRules.SettlementAccepted | contracts/lumenflow/src/lib.rs:2555-2632 | a settlement is accepted if and only if the admin signs it with a resolution of 1 to 256 characters, the dispute is open and, when forced, the merchant can pay; a forced one pays the refund whatever its status |
| RefundRules.SettledForGood | contracts/lumenflow/src/lib.rs:2555-2590 | over any run a settled dispute stays as it was settled and cannot be settled again |
| Refusals.ErrorsAreTrue | contracts/lumenflow/src/lib.rs:1204-2632 | whichever call is refused, its error is true of the call and the state: each error code of the entry points is given its meaning, and a trap aside nothing else is returned |
| RefundTheorems.StepEffect | contracts/lumenflow/src/lib.rs:2173-2632 | every call has one of four effects: stored payments and refunds untouched, one refund opened, one decided, or one paid; each fixes payments, refunds, order indexes and the transfer log completely, except that the first may add payments |
| RefundTheorems.RunForward | contracts/lumenflow/src/invariant_refund.rs:144-324 | over any run a refund's status only moves forward: Completed stays, Approved and Rejected can only become Completed, and no record disappears |
| RefundTheorems.PaidOnceIff | contracts/lumenflow/src/invariant_refund.rs:289-324 | in any reachable state a refund was paid at most once if and only if no two different disputes over it were settled by force |
| RefundTheorems.StepPaidOnceIff | contracts/lumenflow/src/lib.rs:2555-2632 | an accepted call makes a second transfer of a refund exactly when it forces a dispute over one already Completed, which can be checked before the call |
| RefundTheorems.RefundTotals | contracts/lumenflow/src/invariant_escrow.rs:483-509 | in every reachable state `refunded_amount` is the sum of the transfers made, and equals the sum of the Completed refunds if and only if none of them was paid twice; the status is Completed, PartiallyRefunded or FullyRefunded exactly as the total says |
| RefundCaps.StepWithinIff | contracts/lumenflow/src/lib.rs:2360-2404 | a call keeps every refund total within its payment if and only if it is refused or the refund it pays fits into what is left, which can be checked before the call |
| RefundCaps.NeverOverRefunded | contracts/lumenflow/src/invariant_refund.rs:375-398 | after any run from an empty contract no payment is refunded beyond its amount if and only if every accepted payout fitted |
| RefundCaps.StepCappedIff | contracts/lumenflow/src/lib.rs:2210-2213 | a call keeps pending, approved and completed refunds together within the payment if and only if it is refused or there was room for the amount it commits |
| RefundCaps.RunCappedIff | contracts/lumenflow/src/invariant_refund.rs:375-398 | at no point of a run is a payment over-committed if and only if every accepted call that committed an amount had room |
| RefundCaps.RoomIsEnough | contracts/lumenflow/src/invariant_refund.rs:375-398 | room for every commitment keeps the total of an order within its payment when none of its refunds was paid twice |
| RefundCounterexamples.OverCommitmentIsPossible | contracts/lumenflow/src/lib.rs:2210-2213 | a run from an empty contract in which two requests of 300 against 500 are accepted and paid |
| RefundCounterexamples.ForcedTwiceIsPossible | contracts/lumenflow/src/lib.rs:2555-2632 | a run from an empty contract in which two forced disputes pay one rejected refund twice |
| Authority.ChangesAreAuthorised | contracts/lumenflow/src/lib.rs:2173-2632 | whatever the call, a refund changes status only as its signer may: requested in time by payer or merchant within what is left and the count limit, decided once by admin or merchant, paid by the merchant or by the admin settling an open dispute over it, never while paused |
| Authority.RequestSucceeds | contracts/lumenflow/src/lib.rs:2181-2219 | conversely every authorised request with a valid id is accepted, numbers being in range |
| Authority.DecisionSucceeds | contracts/lumenflow/src/lib.rs:2285-2342 | and so is every authorised decision |
| Authority.DebitsAreSigned | contracts/lumenflow/src/lib.rs:1204-2632 | no call takes tokens from an account that did not sign it, except a forced settlement, which takes them from the merchant of the disputed payment |
| Authority.RunWithinLimits | contracts/lumenflow/src/storage.rs:385-449 | in every reachable state no order has more than 10 refunds and no account more than 10,000 listed payments |
| RefundCleanup.PurgeMeans | contracts/lumenflow/src/lib.rs:1950-1975 | a purge removes exactly the completed and rejected records whose creation plus the retention period lies before now, and changes nothing else |
| RefundCleanup.PurgedIdIsFree | contracts/lumenflow/src/lib.rs:1950-1988 | after a purge any authorised request may take the id of a refund that was paid: it is pending again although paid, and an order that asks again lists it twice |
| RefundCleanup.PaidInBothLives | contracts/lumenflow/src/lib.rs:2360-2415 | executing a refund that was paid before its purge pays it a second time, without a dispute |
| RefundCleanup.BalancedWithPurges | contracts/lumenflow/src/lib.rs:1950-1988 | with purges anywhere in a run the supply of each token is constant and balances are what payments and refund transfers made them |
| Conservation.GroupItemsFlow | contracts/lumenflow/src/lib.rs:1636-1659 | the grouped transfers of a batch move, for every account and token, exactly what the single items would |
| Conservation.ChargeFlow | contracts/lumenflow/src/lib.rs:1281-1295 | price and fee of one payment reach merchant and collector, and nobody else's balance changes |
| Conservation.StepBalanced | contracts/lumenflow/src/invariant_escrow.rs:147-395 | every call keeps supply constant and balances equal to the journal of payments and refunds |
| Conservation.RunBalanced | contracts/lumenflow/src/invariant_escrow.rs:147-534 | over every run the supply of each token is constant and each balance is the initial one plus payments received, minus payments made, plus or minus refunds paid, and nothing else |
| History.RunListed | contracts/lumenflow/src/storage.rs:385-449 | in every reachable state each payer's and merchant's index lists exactly its payments in order, and volume counters equal min(true sum, 2^127 - 1) |
| History.RunByMerchant | contracts/lumenflow/src/lib.rs:1325-2404 | in every reachable state the statistics of each merchant are the number and volume of the payments made to it and of the refund transfers on those payments, volumes cut at 2^127 - 1 |
| History.Isolated | contracts/lumenflow/src/merchant_isolation.rs:95-330 | a stored payment occurs once in its own payer's and merchant's index and in nobody else's |
| RefundRecovery.CommitLands | sdk/src/refundRecovery.ts:329-346 | one write of a session that the contract accepts moves its own refund one phase on from the phase before, and no other refund; the first creates it for the session's order, caller and amount |
| RefundRecovery.OrderedIncreases | sdk/src/refundRecovery.ts:329-346 | the accepted writes of a session, in order, strictly increase in phase, so there are three at most |
| RefundRecovery.Chain.GetRefund | sdk/src/refundRecovery.ts:236-244 | a read may fail; when it answers, it tells the status the contract has, after whatever others did in between |
| RefundRecovery.Chain.Submit | sdk/src/refundRecovery.ts:278-283 | a write may be lost, refused, commit and still throw, or reach the contract at any later time, with other actors in between; a reply of success means the step landed |
| RefundRecovery.Chain.TimePasses | sdk/src/refundRecovery.ts:278-313 | others act and writes given up on arrive late, each at most once; the session's commits still go one phase at a time, three at most |
| RefundRecovery.Session.RunStep | sdk/src/refundRecovery.ts:273-316 | every write but the last failed transiently, with a write left and the refund known to be short of the step; how the last one went decides between applied, failed and, one write above the limit, exhausted; neither applied nor failed only when the limit is no whole number |
| RefundRecovery.FailuresAreCaused | sdk/src/refundRecovery.ts:284-313 | a step fails as permanent only after a last error that is not transient, as exhausted only after transient errors, one more than the limit, and never while a transient error leaves a write |
| RefundRecovery.Session.TryOnce | sdk/src/refundRecovery.ts:279-301 | one write and, after a failure, one fresh read decide: applied when the call returned or the read shows the refund at the step's phase, given up on an unanswered read, a vanished refund or an error that is not transient, in this order, and tried again on a transient one |
| RefundRecovery.Session.Turn | sdk/src/refundRecovery.ts:329-355 | one turn takes the step its status calls for, is closed by a read that decides how to go on, and against the contract gets strictly further |
| RefundRecovery.Session.Recover | sdk/src/refundRecovery.ts:246-364 | the record of all writes and reads explains the outcome: success exactly when the last read shows the target, with the steps that went through; refusal on a first read of rejected or disputed; each failure by the turn that caused it; against the contract with a whole retry limit three turns are enough and it never fails to converge |
| RefundRecovery.SmoothSucceeds | sdk/src/refundRecovery.ts:318-364 | a session succeeds or fails to converge when every read that ends a turn answers without rejection or dispute and each step is accepted within its writes |
| RefundRecovery.RecoverRefund | sdk/src/refundRecovery.ts:210-364 | one session, whatever happens around it: its accepted writes, late ones included, go one phase at a time, at most three, never on a rejected, disputed or completed refund nor on another one; at most five times, against the contract with a whole retry limit three times, the writes allowed for one step; the outcome is the one the replies call for, and when each step is accepted within its writes and the reads answer, it succeeds; on success with target executed the refund has been paid, exactly once if and only if no two disputes over it were forced |
| ReceiptCache.Cache.EvictIfNeeded | frontend/receipt-cache.js:114-141 | from a store of any size and any access times the cursor loop leaves exactly the min(n, 50) largest records under (accessed_at, order_id) |
| ReceiptCache.UpperPartIsNewest | frontend/receipt-cache.js:114-141 | an upper part of the index with 50 records is the set of records that fewer than 50 others come after |
| ReceiptCache.Cache.Set | frontend/receipt-cache.js:183-202 | stores the record, then evicts |
| ReceiptCache.Cache.Keys | frontend/receipt-cache.js:258-282 | the descending cursor loop lists every id once, newest first |
| ReceiptCache.GetRefines | frontend/receipt-cache.js:154-173 | an access is a move to the front |
| ReceiptCache.SetRefines | frontend/receipt-cache.js:183-202 | storing is putting in front and cutting at 50 |
| ReceiptCache.RunRefines | frontend/receipt-cache.js:114-282 | after any sequence of operations with an increasing clock the store represents the recency list |
| ReceiptCache.CacheIsRecencyList | frontend/receipt-cache.js:154-282 | then every lookup and `keys()` give what the recency list gives |
| ReceiptCache.LookupsAfter | frontend/receipt-cache.js:154-235 | what was stored is found with its data and time until deleted; an access changes no answer; storing makes others miss only in a list of 50 |
| ReceiptCache.FrontAfter | frontend/receipt-cache.js:154-202 | what was used or stored last comes first, the others keep their order, and storing keeps at most 50 |
| ReceiptCache.BeforeMeans | frontend/receipt-cache.js:114-141 | ids are ordered by the first character that differs, a proper prefix first |
| ReceiptCache.PlaceIsUnitOrder | frontend/receipt-cache.js:114-141 | characters are ordered by their UTF-16 code units |
| ReceiptCache.Perform | frontend/receipt-cache.js:154-235 | each operation on the object answers as the recency list does and leaves the object representing the list after it |
| ReceiptCache.Drive | frontend/receipt-cache.js:154-282 | a cache used from empty with an increasing clock gives the answers of the recency list, operation by operation, and its `keys()` and `size()` |
| WebhookRelay.Relay.RelayEvent | sdk/src/webhookRelay.ts:139-191 | a key is acknowledged at most once ever and duplicates cost no post; every reply but the last is no answer or one of 408, 425, 429, 500, 502, 503, 504, within the limit; the outcome is delivered on a last status from 200 to 299, rejected with the last status exactly when it is neither, and exhausted when the last allowed reply is such a failure too; a pause of min(base·2^k, cap) follows every failure but one that meets the limit |
| WebhookRelay.DelayDoubles | sdk/src/webhookRelay.ts:185-186 | the first pause is the base delay and each further one that of twice the base, none above the cap |
| WebhookRelay.KeyMeans | sdk/src/webhookRelay.ts:100-102 | the key is the paging token or, when there is none, the id, and never empty |
| WebhookRelay.Relay.RelayBatch | sdk/src/webhookRelay.ts:197-203 | whatever the endpoint answers, the acknowledged keys grow by a prefix of the new keys in first-occurrence order, and by all of them on a normal return |
| WebhookRelay.Relay.RelayUntilDone | sdk/src/webhookRelay.ts:193-203 | the same list relayed again after failures, any number of times: the acknowledged keys stay the first ones it adds, in first-occurrence order, and are all of them once a call returns |
| WebhookRelay.Resumed | sdk/src/webhookRelay.ts:193-203 | one more call after a failure adds exactly what the earlier ones left of the list |
| WebhookRelay.BatchStep | sdk/src/webhookRelay.ts:199-201 | what relaying one more event of a list adds to the acknowledged keys |
| WebhookRelay.FirstOccurrences | sdk/src/webhookRelay.ts:11-14 | the order used lists every key once |
| WebhookServer.Server.OnMessage | webhook/webhook-server.js:230-246 | messages without a token are dropped, others ask the store |
| WebhookServer.Server.Record | webhook/webhook-server.js:246-255 | a known token stops; an unknown one is recorded and enters delivery; tokens stay single exactly if it was not recorded meanwhile |
| WebhookServer.Server.Post | webhook/webhook-server.js:165-203 | one post: a status from 200 to 299 ends the delivery, anything else or no answer leads to the next attempt or, after the last, to giving up; at most MAX_RETRIES posts, none after an accepted one, pauses doubling; k refused posts have slept base(2^k - 1) in all while one more is allowed, and a fully failed delivery base(2^(MAX_RETRIES-1) - 1) |
| WebhookServer.Server.SaveCursor | webhook/webhook-server.js:260-264 | the cursor only moves to a token whose delivery loop has ended |
| WebhookServer.Server.Serve | webhook/webhook-server.js:230-264 | all of this in every interleaving of handlers; with check and record uninterrupted each token enters delivery at most once |
| WebhookServer.EnterOnce | webhook/webhook-server.js:246-255 | entering keeps all tokens single if and only if the token was not yet recorded |
| WebhookServer.CheckedBeforeRecorded | webhook/webhook-server.js:275-279 | two messages with one token that are both checked before either is recorded are both delivered |
| EventSubscription.Subscription.OnError | sdk/src/events.ts:92-106 | at most five retries in a row, the k-th announced with 1000·2^(k-1); the subscription falls silent exactly when they are used up or the announcement throws |
| EventSubscription.FilterMeans | sdk/src/events.ts:80-85 | an event passes a filter exactly when its second topic is the filter; an absent or empty filter passes all |
| EventSubscription.Subscription.OnOpen | sdk/src/events.ts:69-73 | a successful open resets the count, unless the callback throws first; reconnections are reported only after the first open |
| EventSubscription.Subscription.OnMessage | sdk/src/events.ts:75-90 | the callback gets exactly the well-formed events of the filter, and may unsubscribe from within |
| EventSubscription.Subscription.TimerFires | sdk/src/events.ts:65-68 | a retry opens one stream, and none after unsubscribe even when the timer was armed by a callback that unsubscribed |
| EventSubscription.Subscription.Unsubscribe | sdk/src/events.ts:111-116 | from any state, within a callback too: the stream is closed and the armed retry cleared |
| EventSubscription.Subscription.Run | sdk/src/events.ts:57-117 | under every schedule, with callbacks that unsubscribe or throw: at most one live stream; a wanted subscription has neither stream nor retry if and only if it used five retries or the last announcement threw; after unsubscribe nothing is opened or delivered |
| PaymentSubscription.Subscription.Reconnect | sdk/src/payments.ts:150-156 | inactivity closes the stream and opens the next one, or leaves silence when the close or the factory throws |
| PaymentSubscription.Subscription.OnMessage | sdk/src/payments.ts:169-180 | the timer is re-armed first, then exactly the payments to the merchant reach the callback |
| PaymentSubscription.Subscription.OnError | sdk/src/payments.ts:182-185 | an error keeps the stream and re-arms the timer |
| PaymentSubscription.Subscription.Unsubscribe | sdk/src/payments.ts:190-196 | no timer is left and nothing calls back; no stream is left either, unless its close throws |
| PaymentSubscription.Subscription.Run | sdk/src/payments.ts:121-197 | under every schedule: opened = closed + 1 with exactly one live stream and one pending timer while active, or silence if and only if the stream factory or a close threw; after unsubscribe nothing is opened or delivered, ever |
| Encoding.FromTo | contracts/lumenflow/src/helper.rs:102-106 | big-endian bytes of any integer read back as that integer modulo 256^width |
| Encoding.ToFrom | contracts/lumenflow/src/helper.rs:102-106 | any byte string is the encoding of the number it reads as |
| Encoding.ByteAt | contracts/lumenflow/src/helper.rs:102-106 | the bytes stand highest first: the i-th is the number divided by 256 to the number of bytes after it, modulo 256 |
| Encoding.FieldRoundTrip | contracts/lumenflow/src/helper.rs:97-106 | a length-prefixed field is read back together with what follows, and nothing else reads as it |
| Encoding.XdrRoundTrip | contracts/lumenflow/src/helper.rs:118 | the XDR string form reads back and is the only byte string that does |
| Encoding.XdrLayout | contracts/lumenflow/src/helper.rs:118 | tag 14, length and text, then fewer than four zero bytes that bring the form to a multiple of four |
| Encoding.PayloadRoundTrip | contracts/lumenflow/src/helper.rs:116-123 | a byte string decodes to (order id, amount) if and only if it is their canonical payload |
| Encoding.PayloadLayout | contracts/lumenflow/src/helper.rs:116-123 | the length of the XDR form, the form, the length 16 and the sixteen bytes of the amount |
| Encoding.PayloadInjective | contracts/lumenflow/src/helper.rs:108-115 | equal canonical payloads mean equal order ids and equal amounts |
| Encoding.BuildCanonicalPayload | contracts/lumenflow/src/helper.rs:116-123 | the appended buffer decodes to the order id and amount it was built from |
| Encoding.AmountBuffer | sdk/src/signPaymentPayload.ts:29-34 | the byte loop yields the two's complement of every amount in [-2^127, 2^127), and reads back as the amount for no other |
| Encoding.BuildPaymentPayload | sdk/src/signPaymentPayload.ts:19-37 | behind a prefix of known size, order id and amount are read back from the whole payload |
| Stroops.FractionCanonical | sdk/src/refundConfirmation.ts:64-69 | the fraction has at most seven digits, never ends in 0, is absent exactly for whole amounts and has the right value |
| Stroops.TextOfAmount | sdk/src/refundConfirmation.ts:64-69 | the text of an amount that is not negative: whole XLM of ten million stroops, a point and the fraction unless it is zero, the unit |
| Stroops.ReadBack | sdk/src/refundConfirmation.ts:64-69 | the text reads back as the amount if and only if it is not negative or is a whole number of XLM |
| Stroops.FormatInjective | sdk/src/refundConfirmation.ts:64-69 | such an amount shares its text with no other amount |
| BatchCsv.ParseLine | cli/lumenflow-cli/src/main.rs:959-1028 | the column checks give the row, or every reason in order |
| BatchCsv.LineRow | cli/lumenflow-cli/src/main.rs:959-1028 | a line gives a row if and only if it has five columns, in the order of the header, a non-empty order id, two addresses that start with G and have 56 bytes, and a positive 128-bit amount |
| BatchCsv.LineErrors | cli/lumenflow-cli/src/main.rs:959-1020 | exactly which of the six errors a refused line is reported with |
| BatchCsv.TrimMeans | cli/lumenflow-cli/src/main.rs:959-985 | trimming takes white space, and only that, off both ends |
| BatchCsv.HeaderMeans | cli/lumenflow-cli/src/main.rs:940-951 | the header is taken whatever the case of its letters and the white space around it, and nothing else is |
| BatchCsv.SplitMeans | cli/lumenflow-cli/src/main.rs:966-975 | the pieces of a line joined by commas are the line, and fewer than n pieces hold no comma |
| BatchCsv.ParseCsv | cli/lumenflow-cli/src/main.rs:927-1041 | the two loops compute the specified outcome for every text |
| BatchCsv.OkMeaning | cli/lumenflow-cli/src/main.rs:1031-1041 | rows come out exactly when the header matches and every non-blank line after it, one at least, is a valid row; then one valid row for each |
| BatchCsv.InvalidMeaning | cli/lumenflow-cli/src/main.rs:952-1034 | the reported errors are exactly those of the invalid lines, under their line numbers |
| BatchCsv.FileErrors | cli/lumenflow-cli/src/main.rs:927-1034 | in a file, each reported error is that of a line after the first non-blank one, under the number of the line counted from 1, and none is missing |
| BatchCsv.ParsePrinted | cli/lumenflow-cli/src/main.rs:927-1041 | parsing undoes printing for every non-empty list of printable rows and every accepted header |
| BatchCsv.ParsedPrints | cli/lumenflow-cli/src/main.rs:927-1041 | whatever parses is printable and parses again to the same rows |
| Pagination.FetchAllPages | sdk/src/pagination.ts:14-45 | the loop computes the walk with at most maxPages fetches |
| Pagination.WalkMeaning | sdk/src/pagination.ts:20-44 | it returns if and only if the chain ends within maxPages, and then the items of all its pages in order |
| Pagination.FailureMeaning | sdk/src/pagination.ts:20-44 | it fails on a malformed page it came to, on a page that leads to its own cursor, or when all the pages it may read lead on to others |
| Pagination.CyclicWalkFails | sdk/src/pagination.ts:37-39 | a chain that comes back to any cursor never yields a result, whatever the limit |
| Pagination.FindStuckRefunds | sdk/src/refundRecovery.ts:415-444 | exactly the pending refunds older than the cutoff, in order, of the first max(1, maxPages) pages |
| Pagination.FilterMeaning | sdk/src/refundRecovery.ts:428-436 | what is found are the items that are pending and were created before the cutoff, all of them and in their order |
| Redaction.TruncateKernel | monitoring/redact.py:83-97 | two addresses are logged alike exactly when equal, or both long with the same first 8 and last 4 characters |
| Redaction.ScrubWords | monitoring/redact.py:143-145 | a text of words and separators is scrubbed word by word: each word is masked by itself and the separators stay |
| Redaction.WordsOf | monitoring/redact.py:75-76 | every text is such a sequence |
| Redaction.FullAddressStays | monitoring/redact.py:75-76 | a 56-character address inside a text is not scrubbed |
| Redaction.LabelKernel | monitoring/redact.py:100-140 | two amounts get one label exactly when no bucket bound separates them |
| Redaction.Kernel | monitoring/redact.py:173-211 | two trees redact to the same result if and only if they differ only in contact values, in amounts of one bucket, in the middle of addresses and in scrubbed words, at visited positions |
| Redaction.RedactShows | monitoring/redact.py:173-211 | redaction follows these rules, keys, texts and bounds named one by one, and raises exactly on an infinite amount at a visited position |
| Redaction.WordScrubbed | monitoring/redact.py:75-76 | a word of G and 54 characters from A-Z and 2-7 is cut to its first 8 and last 4, every other word stays |
| Redaction.FormStays | monitoring/redact.py:173-211 | keys and list lengths stay |
| Redaction.UnvisitedShows | monitoring/redact.py:182-189 | whatever stands in a list under an address key, or in a list within a list, is logged as it is |
| Redaction.RedactDict | monitoring/redact.py:173-202 | the in-place loop computes the redaction, or raises exactly on an infinite amount |
| Redaction.RedactList | monitoring/redact.py:205-211 | the same for lists |
| Redaction.RedactEvent | monitoring/redact.py:148-165 | the copy is redacted by the rules: at every visited position the six contact keys hold [REDACTED], the ten address keys the first 8 and last 4 characters of a text of 12 or more, the seven amount keys the label of the interval, any other text is scrubbed and nothing else changes; or the call raises exactly when the event nests too deep to be copied or holds an infinite amount under an amount key; an event that is no dictionary is returned as it is |
| Redaction.InfiniteAmountRaises | monitoring/redact.py:123-126 | an event with an infinite amount makes the redaction raise |

## Left out

- Nonce, timestamp expiry, signature check, rate limit, tags and memo of a payment are inputs of a call: the two fields of `Checks` hold the error they would give.
- The refund reason, which the code stores without a check (its documentation at contracts/lumenflow/src/lib.rs:2165 promises one). Dispute reasons and resolutions keep their length guards, counted in characters.
- Ids count characters; the contract counts UTF-8 bytes, which is the same for ASCII ids.
- Admin and settings entry points, pause and timelock: one arbitrary `Configure` step stands for any change of settings; the auth lockout is not modelled.
- Merchant registration and deactivation are part of that step; `total_received` is kept beside the merchant record.
- `archive_payment_record`, `cleanup_expired_*` and `update_payment_status`: runs do not contain them.
- Escrow hold and release, subscriptions, multisig.
- `initiate_dispute`, `mark_dispute_under_review` and `escalate_dispute` (contracts/lumenflow/src/lib.rs:2680-2812): a dispute of the first kind shares the id space of the modelled ones but names no refund, so the part of RefundSafety.Inv that says every dispute's refund exists is about the others; forcing it is refused because that refund is not found.
- `process_payment_with_nonce` (contracts/lumenflow/src/lib.rs:1380), which adds the amount before fees to `total_received`, and `pay_payment_request` (contracts/lumenflow/src/lib.rs:3541) store and index payments too; runs do not contain them.
- Authority.DebitsAreSigned: the token contract is not part of this model and moves tokens when the entry point asks; one that itself wants the merchant's signature refuses more forced settlements.
- RefundCaps.RoomIsEnough: one direction only; RefundCaps.NeverOverRefunded is the exact condition.
- PaymentRules.PaymentAccepted: when a sum leaves its range the call can trap; PaymentRules.PaymentNeeds is exact in terms of the transfers and the record. A fee above 10,000 basis points, which the setter refuses, is left to it too.
- PaymentRules.BatchAccepted: likewise; items paid to the payer himself can be accepted with less at hand.
- Storage lifetimes and the events other than `payment_processed` and the refund transfer.
- Read-only queries, whose results follow from the indexes.
- History.RunListed: the counters of payments are 32-bit with checked addition, so the call that would overflow traps.
- RefundRecovery.Session.Recover: back-off delays and the text of errors are not modelled; which errors count as transient is arbitrary.
- RefundRecovery.Session.RunStep: a retry limit that is infinite or not a number.
- WebhookRelay.Relay.RelayEvent: an attempt limit that is infinite or not a number.
- `computeBackoffDelay`: a bounded delay with random jitter, without effect on any state.
- Order ids with unpaired surrogates, which no Dafny string holds; the order of all others is that of their UTF-16 code units.
- The receipt cache's IndexedDB transactions and their failures; each operation is one step.
- Concurrent relay calls for one key, which the code does not promise anything about.
- WebhookServer.Server.Serve: restarts, the cursor file and the Redis store; a cursor that moves backwards is not excluded, as in the code.
- Streams and timers: a closed stream delivers nothing and a cleared timer does not fire, as the platform promises; malformed frames are dropped messages. A first connection that throws yields no subscription.
- Parsing of payment records and the XDR of contract addresses: opaque.
- Strings of the parser and of redaction are sequences of Unicode characters; lower case is modelled as far as it can yield the ASCII header, integer parsing and letter classes of the Python runtime are parameters.
- BatchCsv.InvalidMeaning: the wording of error messages.
- Redaction.RedactDict: dictionaries and lists are values, so aliasing inside one event is not captured.
- Pagination: a source that answers differently at different times.
- HTTP, wallets, command line, dashboards and all user interface code.
