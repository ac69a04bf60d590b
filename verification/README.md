# Marketplace backend: verified models

Dafny models of the money, stock and counting logic of a quick-commerce backend (Node.js with
MongoDB), and proofs of what that logic keeps over whole runs. `dafny verify dfyconfig.toml`
checks everything.

Each module follows one component. A module about concurrent requests defines a state, events, a
total function `Apply` that performs one event, and `Run` for a sequence of events; a result about
every run is then a result about every interleaving of the events. Rider and seller withdrawals,
overlapping cash submissions, product edits, the moderation and session-less submission of
ratings, brands, all requests about a return with the commission job, overlapping cart additions,
and categories created during deletions are taken apart into their database calls, so for them an
event is one call; elsewhere an event is one whole request (see "Left out").
Where a handler changes stored data step by step, a class holds that data and its methods, written
like the handler, are proved to do what `Apply` (or `Serve`) says. A property that the code keeps
only under a condition is stated as an if-and-only-if for one step, as a theorem over runs, and
with a concrete run that breaks it.

| module | component |
|---|---|
| RiderWithdrawal, RiderConditions, RiderHandler | a rider's withdrawal: lease, idempotency lookups, balance check, insert |
| SellerWithdrawal | a seller's withdrawal: the same balance check with no lease |
| CodSettlement, CodOverlap | handing collected cash to the admin, oldest orders first |
| ProductEdit, ProductStock, ProductModeration, ProductHandler | seller edits with optimistic retry, beside creation, sales, adjustments and moderation |
| StockDesk, StockSum | manual stock adjustments and order sales with their self-heal |
| Ratings, RatingsWithoutSession, ReviewEligibility | rating totals kept incrementally, and who may rate what |
| RateLimiter | the in-memory request counters with eviction |
| ReturnModel, ReturnFlow, ReturnRefund, ReturnCommission, ReturnCodes, ReturnRuns, ReturnHandlers | return, one-time codes, inspection, refund and rider commission of one order |
| WalletHistory, Paging | the three-source wallet history and its pages |
| CatalogPaging | the product list, in stock first under every sort, price sorts by ids |
| ProductPhotos | gallery layouts and uploads |
| Cart, CartOverlap | cart lines |
| Brands, Text | brands and the copy of their name on products |
| Categories, CategoryOverlap | the category tree and its recursive deletion |
| LedgerBackfill, WalletBackfill | two restartable migration scripts |
| Wrappers | options and the smaller and larger of two numbers |

Money is in paise, time in milliseconds, averages in hundredths. Calls to services, sockets,
caches, image hosting and notifications are reduced to the one effect the caller relies on, or
left out; random ids, clocks and the order in which a query returns documents are parameters.

## Where the code and its comments differ

The models follow the code.

- `productRatingController.js:91-93` and `:574` call the aggregate update atomic; it reads the
  product and writes it back, and `updateRatingStatus` reads the rating before its transaction.
- `productController.js:1419-1421` says an edit cannot publish a product that is not approved;
  a retried edit can, because the decision is not taken again on the product read again.
- `productController.js:1452-1454` says meanwhile sales are merged in; that holds only if no two
  writes share one `updatedAt`.
- `orderWorkflowController.js:379-380` says the pickup OTP credits the commission and starts from
  `return_pickup_assigned`; it credits nothing and checks no status.
- `orderController.js:1242-1243` says the commission was paid at pickup; it is paid by a job after
  the drop.
- `backfill-ledger-from-transactions.js:72-75` books wallet payments under the refund type although
  a payment type exists.

## Model

| member | source | states |
|---|---|---|
| `RiderWithdrawal.NeverOverdrawn` | backend/app/controller/deliveryController.js:327-404 | in every interleaving in which lease holders act before their 15 s lease runs out, no failed withdrawal is revived and no settled earning is decided again, settled earnings minus all live withdrawals never go below zero and at most one request is inside an unexpired lease |
| `RiderWithdrawal.OneRowPerKey` | backend/app/controller/deliveryController.js:342-378 | in every such interleaving all successful answers to one idempotency key name one row, the only row with that key, and no keyed request ever meets the duplicate-reference error |
| `RiderWithdrawal.RetryAnswersFirstRow` | backend/app/controller/deliveryController.js:312-347 | in every run, in time or not, a retry that has not passed its second lookup when its key has a row ends only with that row, busy, without a rider or with a server error, and inserts nothing |
| `RiderWithdrawal.ApplyKeeps` | backend/app/controller/deliveryController.js:303-405 | one step of any request, of the clock, of a crash or of an admin decision keeps the whole invariant of the protocol |
| `RiderConditions.BalanceKeptIff` | backend/app/controller/deliveryController.js:352-378 | from any state that is not overdrawn, a step keeps it so exactly when the row it inserts, or the decision it takes, costs at most the balance of that moment |
| `RiderConditions.SolventIff` | backend/app/controller/deliveryController.js:303-405 | a run is never overdrawn exactly when each of its steps is affordable in that sense |
| `RiderConditions.AdmissibleIsAffordable` | backend/app/controller/deliveryController.js:327-404 | keeping to the lease time, reviving no failed withdrawal and deciding no settled earning again is enough for that |
| `RiderConditions.ReleaseFreesAnotherIff` | backend/app/controller/deliveryController.js:397-404 | giving back the lease takes it from another request that is still in time exactly when the lock holds an unexpired value that is not its own |
| `RiderConditions.ExclusiveIff` | backend/app/controller/deliveryController.js:321-404 | at most one request is inside an unexpired lease throughout a run, and holds the lock, exactly when no release in it does that |
| `RiderConditions.InTimeReleasesOwn` | backend/app/controller/deliveryController.js:397-404 | a holder that leaves within its lease time clears only its own lease |
| `RiderConditions.LateHolderOverdraws` | backend/app/controller/deliveryController.js:329-353 | without the timing hypothesis a run exists, for every amount, that takes the whole balance twice |
| `RiderConditions.LateReleaseFreesAnothersLease` | backend/app/controller/deliveryController.js:397-404 | the release is unconditional: a late holder clears the lease of a request still in time, and two requests are then inside |
| `RiderConditions.RevivalOverdraws` | backend/app/services/admin/walletAdminService.js:176-191 | an admin settling a withdrawal that had failed overdraws once its money was requested again |
| `RiderConditions.FirstLookupLetsBothThrough` | backend/app/controller/deliveryController.js:315-320 | two requests with one key can both pass the lookup made before the lease |
| `RiderWithdrawal.WithdrawableBalance` | backend/app/services/delivery/deliveryEarningsService.js:50-104 | the three sums of the balance differ by the net of all rows, and the answer is that net floored at zero |
| `RiderHandler.RiderAccount.Process` | backend/app/controller/deliveryController.js:312-404 | the handler executed on the stored rider equals the step machine run to the request's end |
| `RiderHandler.FinishIsASchedule` | backend/app/controller/deliveryController.js:303-405 | an undisturbed execution is one of the schedules the results above range over |
| `RiderHandler.UndisturbedOutcome` | backend/app/controller/deliveryController.js:312-377 | an undisturbed request inserts a row exactly when its key is new, the rider exists, the lease is free, the balance covers it and the bank details are valid; it gives the lease back |
| `CodSettlement.SettlesExactly` | backend/app/controller/deliveryController.js:135-163 | any amount up to the total pending is settled exactly, with no order settled beyond what it has pending |
| `CodSettlement.OnlySettlement` | backend/app/controller/deliveryController.js:135-163 | the greedy loop has the only result that settles that amount, over-settles no order and touches an order only when all older ones are paid up |
| `CodSettlement.SettlesOldestFirst` | backend/app/controller/deliveryController.js:135-163 | and the loop does settle in that way: behind an order not paid in full nothing changes |
| `CodSettlement.PaidUpPrefix` | backend/app/controller/deliveryController.js:139-163 | orders oldest first split into a fully paid prefix, at most one partly paid order and an untouched rest |
| `CodSettlement.SettlingKeepsBalance` | backend/app/services/finance/orderFinanceService.js:610-751 | every order keeps collected = remitted + pending |
| `CodSettlement.ManySubmissionsAreOne` | backend/app/controller/deliveryController.js:83-163 | any run of submissions within the pending total leaves the orders of one submission of the sum |
| `CodSettlement.CodBook.Submit` | backend/app/controller/deliveryController.js:95-202 | the handler refuses the empty, invalid and excessive amounts the source refuses, and otherwise leaves the orders of the specification, moving the amount from the rider's cash to the admin |
| `CodSettlement.CodBook.Spread` | backend/app/controller/deliveryController.js:135-163 | the settlement loop computes the specification and lists the shares in order, summing to the amount |
| `CodOverlap.CashConserved` | backend/app/controller/deliveryController.js:138-188 | however submissions overlap and wherever they break off, no order remits more than was collected, the admin gains exactly what the orders remit, and the settlement rows tell all of it but what requests without a row have booked |
| `CodOverlap.RowsExplainCashIff` | backend/app/controller/deliveryController.js:174-188 | the settlement rows explain the admin's gain exactly when no request without a row has booked anything |
| `CodOverlap.NoneDiesIff` | backend/app/services/finance/orderFinanceService.js:628-642 | every accepted submission of a run is filed or still open exactly when no share fails to fit its order when it is booked and nothing else throws |
| `CodOverlap.StrandsIff` | backend/app/services/finance/orderFinanceService.js:633-642 | booking a share spoils what another open submission has read exactly when both want one order that cannot pay both |
| `CodOverlap.OneAtATimeFilesAll` | backend/app/controller/deliveryController.js:83-188 | submissions that do not overlap never die, whatever cash is collected meanwhile, and only the open one is without its row |
| `CodOverlap.AloneSettles` | backend/app/controller/deliveryController.js:83-188 | a submission with nothing in between leaves exactly the books of the specification and one row |
| `CodOverlap.OverlapLeavesCashWithoutRow` | backend/app/controller/deliveryController.js:141-163 | a second submission that reads between two shares of the first makes it throw with cash booked and no settlement row |
| `SellerWithdrawal.BalanceKeptIff` | backend/app/controller/sellerController.js:79-136 | a step keeps the seller's balance non-negative exactly when the row inserted or posted, or the decision taken, costs at most the balance of that moment |
| `SellerWithdrawal.NeverOverdrawnIff` | backend/app/controller/sellerController.js:79-136 | a run of requests, postings of either sign and decisions is never overdrawn exactly when each step costs at most the balance |
| `SellerWithdrawal.DecisionCosts` | backend/app/services/admin/walletAdminService.js:176-191 | deciding an open withdrawal costs nothing; settling one that had failed costs its amount |
| `SellerWithdrawal.RefundOverdraws` | backend/app/controller/orderController.js:1234-1243 | the settled debit of a return refund overdraws a seller whose balance it exceeds, with no withdrawal at all |
| `SellerWithdrawal.TwoRequestsOverdraw` | backend/app/controller/sellerController.js:100-122 | with no lease, two concurrent requests can each take the whole balance |
| `SellerWithdrawal.Account.Balance` | backend/app/controller/sellerController.js:81-100 | the two filter-and-sum passes give the balance of the specification |
| `SellerWithdrawal.Account.RequestWithdrawal` | backend/app/controller/sellerController.js:75-136 | accepted exactly for positive amounts within the balance, which falls by the amount |
| `ProductStock.NoLostUpdate` | backend/app/controller/productController.js:1452-1471 | in every interleaving of creation, seller edits (read, guarded write, re-read, three tries), sales, adjustments and moderation, each stored variant holds its opening stock plus all its movements and the product's stock is the sum of its variants; needs every write to change updatedAt, each edit to go on with an account at most once, and a variant put back by a retry not to have moved since its stock was copied |
| `ProductStock.NoLostUpdateIff` | backend/app/controller/productController.js:1452-1471 | whatever the clock does, the accounts hold throughout a run exactly when every edit that lands goes on with no account twice and writes no stock that has changed since the server copied it, now or at an earlier try, with variants or with none |
| `ProductStock.LandCleanIff` | backend/app/controller/productController.js:1227-1256 | the same for one landing on a product changed since it was read |
| `ProductStock.StillHeldIff` | backend/app/controller/productController.js:1238-1250 | stock copied under an earlier history is unchanged exactly when the movements since add up to zero on that account |
| `ProductStock.LandKeepsIff` | backend/app/controller/productController.js:1227-1256 | an edit written on the product it read keeps the accounts exactly when no two of its variants go on with one account and stock left over from an earlier try is still held |
| `ProductStock.FirstTriesStayFresh` | backend/app/controller/productController.js:1246-1249 | an edit at its first try carries no stock of a variant that is gone, so only a retry can put such stock back |
| `ProductStock.RetryPutsBackSoldStock` | backend/app/controller/productController.js:1459-1461 | the retry takes the stock copied at the first try for a new variant's opening stock: a run with growing updatedAt in which a variant removed meanwhile comes back with two sold units |
| `ProductStock.MovedKeeps` | backend/app/controller/stockController.js:59-94 | a conditional increment is booked on the variant it changes, keeps the sum, and leaves the self-heal nothing to write |
| `ProductEdit.KeepSavedStock` | backend/app/controller/productController.js:1227-1256 | the loop fills in saved stock or opening stock for every variant and returns their sum |
| `ProductEdit.FindIsFirst` | backend/app/controller/productController.js:1238-1243 | a variant of the edit is matched with the first saved variant that has its id or its SKU, if there is one |
| `ProductEdit.GivingUpChangesNothing` | backend/app/controller/productController.js:1457-1471 | a run in which an edit never lands leaves the same product, stock history and moderation state as the run without that edit |
| `ProductModeration.ApprovedOnlyByAdmin` | backend/app/controller/productController.js:1407-1432 | from before its creation, a product is approved only while an admin approval stands, throughout a run, exactly when no edit publishes it unapproved and no seller creates it with a photo while creation needs no approval |
| `ProductModeration.LandKeepsScreeningIff` | backend/app/controller/productController.js:1417-1432 | an edit keeps that screening exactly when it does not approve a product that is unapproved when it lands |
| `ProductModeration.CreationScreensIff` | backend/app/controller/productController.js:1134-1154 | a new product starts screened unless a seller creates it with a photo while creation needs no approval |
| `ProductModeration.FirstTryKeepsScreened` | backend/app/controller/productController.js:1421-1430 | while stamps tell products apart, an edit landing on its first try publishes only an approved product, so only retries can break it |
| `ProductModeration.RetryRevivesApproval` | backend/app/controller/productController.js:1457-1466 | the retry does not take its moderation decision again: a run in which a rejected product becomes approved with no admin approval |
| `ProductStock.SameInstantLosesSale` | backend/app/controller/productController.js:1459-1461 | two writes with one updatedAt defeat the guard: a run from a sound start in which two sold units come back |
| `ProductStock.MatchingTwiceInventsStock` | backend/app/controller/productController.js:1239-1250 | an edit naming one saved variant by id and again by its old SKU stores its stock twice |
| `ProductHandler.ProductDesk.Update` | backend/app/controller/productController.js:1258-1471 | the handler with its loop plays a run of the machine and always ends saved or refused |
| `StockDesk.AdjustmentsAreExplained` | backend/app/controller/stockController.js:38-118 | every run of adjustments keeps master stock the sum of non-negative variant stocks and equal to the initial stock plus the history |
| `StockDesk.RunBalances` | backend/app/services/stockService.js:27-130 | runs of adjustments and sales keep that sum; the stock is the initial stock plus history plus the units of sales that slipped |
| `StockDesk.HistoryExplainsStockIff` | backend/app/services/stockService.js:65-118 | history explains the stock exactly when no sale on a product with variants left all its variants alone |
| `StockDesk.SaleUndone` | backend/app/services/stockService.js:65-118 | selling an untracked variant writes a history row and leaves the stock as it was, because the self-heal puts the units back |
| `StockDesk.Target` | backend/app/controller/stockController.js:42-57 | the variant adjusted is the first one called so, or the only one; with none or several candidates nothing is guessed |
| `StockDesk.Store.AdjustStock` | backend/app/controller/stockController.js:16-118 | the handler does what the specification says in every branch, and the self-heal writes only if the product was inconsistent before |
| `StockDesk.Store.SelfHeal` | backend/app/controller/stockController.js:84-94 | the recomputed sum is written exactly when it differs |
| `Ratings.IncrementalIsRebuild` | backend/app/controller/productRatingController.js:94-160 | after every run of submissions, moderation and rebuilds whose commits act on the status they read, the incremental sum, count, distribution and average equal the full rebuild; sum and count agree with the distribution and the average is between 1.00 and 5.00 |
| `Ratings.StepKeepsSyncIff` | backend/app/controller/productRatingController.js:586-635 | a step keeps the totals equal to a rebuild exactly when the rating still is as active as the moderator read it, or the clamps hide the difference because no rating is active |
| `Ratings.ChangeBumps` | backend/app/controller/productRatingController.js:613-635 | a status change moves the totals by the rating exactly when it enters or leaves ACTIVE, and the clamps change no value |
| `Ratings.HiddenTwice` | backend/app/controller/productRatingController.js:586-628 | the status is read before the transaction: two moderators hiding one rating count it out twice |
| `RatingsWithoutSession.InStepIff` | backend/app/controller/productRatingController.js:94-120 | without a session the totals are read and then written: a step keeps them the rebuild of the ratings counted so far exactly when the write finds the sum, count and distribution it read |
| `RatingsWithoutSession.InStepRunIff` | backend/app/controller/productRatingController.js:94-120 | a run of submissions stays so throughout exactly when every write finds what it read |
| `RatingsWithoutSession.TotalsAreRebuilt` | backend/app/controller/productRatingController.js:300-341 | and then, with no submission half done, the totals are the rebuild of all stored ratings |
| `RatingsWithoutSession.SecondWriteLosesFirst` | backend/app/controller/productRatingController.js:94-120 | two submissions that both read before either wrote store two ratings and count one |
| `Ratings.RebuildRepairs` | backend/app/controller/productRatingController.js:125-160 | a rebuild makes any totals right, and they stay right |
| `Ratings.AverageInRange` | backend/app/controller/productRatingController.js:101 | a sum between count and five times count gives an average between 100 and 500 hundredths |
| `Ratings.RatingDesk.SubmitRating` | backend/app/controller/productRatingController.js:300-341 | accepted exactly when the item was not rated by this customer; keeps the totals equal to a rebuild |
| `Ratings.RatingDesk.UpdateStatus` | backend/app/controller/productRatingController.js:576-643 | sets the status and keeps the totals equal to a rebuild |
| `Ratings.RatingDesk.RebuildTotals` | backend/app/controller/productRatingController.js:125-160 | the loop over active ratings stores their sum, count, distribution and average |
| `ReviewEligibility.EligibleIffAccepted` | backend/app/controller/productRatingController.js:184-235 | an ordered item is listed as eligible exactly when submitting a rating for it would be accepted |
| `ReviewEligibility.RatedOnce` | backend/app/controller/productRatingController.js:289-326 | an accepted rating keeps the records consistent and the item cannot be rated again |
| `ReviewEligibility.PendingItem` | backend/app/controller/productRatingController.js:56-89 | the item a product page offers would be accepted and is from the newest order that has one; nothing is offered only if no item of the product would be accepted |
| `RateLimiter.NextCountIff` | backend/app/middleware/rateLimiter.js:45-54 | a request gets the next count of its bucket exactly when it is the first there or its entry has not expired; otherwise it is counted as the first and let through |
| `RateLimiter.IdealIff` | backend/app/middleware/rateLimiter.js:45-54 | over a run the swept store counts the arrivals of every bucket exactly when every request finds its entry alive |
| `RateLimiter.NoStraddleFinds` | backend/app/middleware/rateLimiter.js:45-76 | clock readings in order, with no request straddling a bucket boundary, are enough for that |
| `RateLimiter.BucketAdmits` | backend/app/middleware/rateLimiter.js:74-93 | then each bucket lets through exactly min(max, arrivals) |
| `RateLimiter.IntervalBound` | backend/app/middleware/rateLimiter.js:74-93 | and any interval of one window lets through at most twice max per client |
| `RateLimiter.IntervalBoundIsTight` | backend/app/middleware/rateLimiter.js:74-93 | twice max is reached |
| `RateLimiter.StraddlingAdmitsTwice` | backend/app/middleware/rateLimiter.js:74-76 | a request that reads its bucket before and its counter after a boundary resets a full bucket |
| `RateLimiter.ServeRefines` | backend/app/middleware/rateLimiter.js:45-55 | one request, with its sweep, keeps the store a refinement of the ideal counters |
| `RateLimiter.SweptClean` | backend/app/middleware/rateLimiter.js:10-17 | after a request no expired entry is left |
| `RateLimiter.LocalStore.Cleanup` | backend/app/middleware/rateLimiter.js:10-17 | the loop removes exactly the expired entries |
| `RateLimiter.LocalStore.Handle` | backend/app/middleware/rateLimiter.js:68-93 | the limiter does what the specification says and answers accordingly |
| `ReturnFlow.CreditedOnceIff` | backend/app/controller/orderController.js:1166-1190 | a step leaves the customer credited at most once exactly when it does not credit after an earlier credit, with either refund body |
| `ReturnFlow.RefundedOnceIff` | backend/app/controller/orderController.js:767-810 | a run of handlers and inspections, call by call, ends with at most one credit exactly when no step of it credits a second time |
| `ReturnFlow.RefundedAtMostOnce` | backend/app/controller/orderController.js:767-1279 | from an untouched order, a run that reopens no closed return and in which no second inspection reads the order before the first has saved its verdict refunds the customer at most once, with either body |
| `ReturnFlow.ClosedStaysIff` | backend/app/controller/orderController.js:970-1376 | a return leaves qc_passed or refund_completed exactly when a request writes a status other than the one it read, however long ago, when a request for a drop code made earlier writes return_drop_pending, or when an inspection that read the order before fails |
| `ReturnRefund.OverlappingInspectionsRefundTwice` | backend/app/controller/orderController.js:786-807 | two inspections that both read the returned order before either saved credit the customer twice, with nothing reopened (body without transaction) |
| `ReturnRefund.ReopenedRefundsAgain` | backend/app/controller/orderController.js:1323-1345 | after any refund, a status update back to returned and one more inspection credits the customer again (body without transaction) |
| `ReturnFlow.AtomicRefundsOnce` | backend/app/services/order/orderReturnService.js:473-690 | the transactional body refunds at most once in every run, reopened or overlapping |
| `ReturnRefund.RefundRowsBalanceIff` | backend/app/controller/orderController.js:1166-1244 | closing a return leaves the refund rows at zero exactly when the amount is zero, the transaction aborted, or customer and seller are both charged or neither |
| `ReturnRefund.RefundRowsBalance` | backend/app/controller/orderController.js:1166-1244 | with customer and seller, or neither, the refund rows sum to zero at every moment of such a run at which no inspection is between the two rows |
| `ReturnCommission.OwedOnceIff` | backend/app/controller/orderWorkflowController.js:513-594 | at most one commission stays paid or on its way exactly when the step, the save of a hand-over or an inspection, does not take on another, with either refund body |
| `ReturnCommission.CommissionAtMostOnce` | backend/app/controller/orderWorkflowController.js:513-594 | so the commission is paid at most once in every run that never takes on a second payment |
| `ReturnCommission.PromptRunsPayOnce` | backend/app/controller/orderWorkflowController.js:556-594 | in particular in every run that reopens nothing and in which commission jobs and inspections have ended when a hand-over is saved or an inspection reads the order, and the hand-over is saved on an open return with the flag as it read it |
| `ReturnCodes.SingleUseKeptIff` | backend/app/services/deliveryOtpService.js:504-548 | a code lets at most one hand-over pass exactly when no hand-over finds it unconsumed after another has passed with it: the check is made on what was read, not when the consumption is written |
| `ReturnCodes.SingleUseIff` | backend/app/services/deliveryOtpService.js:504-548 | over a run every code passes at most once exactly when no step reuses one |
| `ReturnCodes.OneAtATimePaysOnce` | backend/app/controller/orderWorkflowController.js:513-594 | when a hand-over or an inspection reads the order only after earlier hand-overs are answered and their jobs ended, and nothing is reopened, every code passes once and the commission is paid at most once |
| `ReturnRuns.DoubleTapPaysTwice` | backend/app/controller/orderWorkflowController.js:518-590 | a code sent twice pays twice: both requests find it unconsumed, and the second is saved with the flag it read before the first job set it, with nothing reopened |
| `ReturnRuns.LateDropOtpReopens` | backend/app/controller/orderWorkflowController.js:435-455 | a drop code asked for in transit writes return_drop_pending after the goods were handed over and passed their inspection |
| `ReturnRuns.InspectionBeforeJobPaysTwice` | backend/app/controller/orderWorkflowController.js:556-590 | an inspection that overtakes the commission job pays twice, under two references, whichever body refunds |
| `ReturnRefund.LegacyFirstRefund` | backend/app/controller/orderController.js:1140-1279 | the three blocks of the first refund: which rows, credits and payments they make |
| `ReturnRefund.FinishIsARun` | backend/app/controller/orderController.js:767-810 | an inspection with nothing in between is one of the runs the results above range over |
| `ReturnHandlers.FinishRequestIsARun` | backend/app/controller/orderWorkflowController.js:411-535 | and so is every other request with nothing in between |
| `ReturnHandlers.ReturnDesk.UpdateReturnStatus` | backend/app/controller/orderController.js:1323-1376 | only the three delivery statuses can be set, never to a lower rank; all other statuses rank lowest |
| `ReturnHandlers.ReturnDesk.UpdateReturnQcStatus` | backend/app/controller/orderController.js:767-810 | inspects only a returned order, and on a pass runs the refund body in use to its end |
| `ReturnHandlers.ReturnDesk.CompleteReturnAndRefundLegacy` | backend/app/controller/orderController.js:1140-1279 | the sequence of wallet writes and rows, each stopping at a refused row, equals the call-by-call steps run to their end |
| `ReturnHandlers.ReturnDesk.CompleteReturnAndRefund` | backend/app/services/order/orderReturnService.js:473-690 | the transaction books the rows, credits and payments of the specification, or nothing when a row is taken or the seller cannot pay |
| `ReturnHandlers.ReturnDesk.AcceptPickup` | backend/app/controller/orderController.js:970-1002 | the first rider gets the pickup, in any status |
| `ReturnHandlers.ReturnDesk.RejectPickup` | backend/app/controller/orderController.js:1048-1095 | only the assigned rider can give the pickup back, and only before it starts |
| `ReturnHandlers.ReturnDesk.RequestDropOtp` | backend/app/controller/orderWorkflowController.js:431-455 | in transit the rider gets a new code, and the status goes with it |
| `ReturnHandlers.ReturnDesk.VerifyDropOtp` | backend/app/controller/orderWorkflowController.js:513-556 | alone, a right and unconsumed code is used up, the order is returned and the commission left to a job that saw the flag before |
| `ReturnHandlers.ReturnDesk.CreditNextJob` | backend/app/controller/orderWorkflowController.js:560-573 | the job first credits the rider, if the order it saw still owed the commission |
| `ReturnHandlers.ReturnDesk.BookNextJob` | backend/app/controller/orderWorkflowController.js:573-584 | then it stores the row, or stops at a reference already taken |
| `ReturnHandlers.ReturnDesk.FlagNextJob` | backend/app/controller/orderWorkflowController.js:585-589 | and last it sets the flag |
| `WalletHistory.NothingMissing` | backend/app/controller/customerAuthController.js:228-329 | every ledger, legacy or eligible order record is listed, or shares a key with one listed before it; listing one never removes another |
| `WalletHistory.ShownDisjoint` | backend/app/controller/customerAuthController.js:210-225 | no two listed records share a key |
| `WalletHistory.NewestSorts` | backend/app/controller/customerAuthController.js:332 | the sorted list is a permutation, newest first, and keeps the order of records of one date |
| `WalletHistory.PagesShowAll` | backend/app/controller/customerAuthController.js:334-342 | the pages together show each listed record exactly once, newest first |
| `WalletHistory.GetTransactions` | backend/app/controller/customerAuthController.js:179-343 | the handler returns that slice of that list, with total and page count; page and limit are clamped |
| `WalletHistory.Merge.TakeOrders` | backend/app/controller/customerAuthController.js:282-329 | the fallback loop offers each returned item and each positive wallet payment, in order |
| `WalletHistory.EqualRefundsShownOnce` | backend/app/controller/customerAuthController.js:287-305 | two returned items of one order with equal refunds are listed as one |
| `Paging.PagesPartition` | backend/app/controller/customerAuthController.js:334-342 | pages of a list follow each other with nothing repeated and nothing left out |
| `CatalogPaging.FetchStockOrderedPage` | backend/app/controller/productController.js:721-730 | the two queries return the slice of one list, the products in stock and then the others, in whatever order the store gives each |
| `CatalogPaging.FindSortedPage` | backend/app/controller/productController.js:513-528 | picking ids first and fetching documents in any order returns the slice of the sorted documents |
| `CatalogPaging.Reorder` | backend/app/controller/productController.js:525-527 | the page follows the ids and drops those no longer found |
| `CatalogPaging.SortFilterCommute` | backend/app/controller/productController.js:516-522 | sorting the products of one query is that part of the sorted list, ties included |
| `CatalogPaging.TiedIff` | backend/app/controller/productController.js:700-706 | two products tie, and the store may return them in either order, never under a price sort and otherwise exactly on equal sort key and creation time |
| `CatalogPaging.OneListWithoutTies` | backend/app/controller/productController.js:700-730 | without ties every list the store may return is the sorted list |
| `CatalogPaging.PagesShowEachOnce` | backend/app/controller/productController.js:710-746 | without a tie within the products in stock or within the others, all pages show the sorted products in stock and then the sorted others, each once |
| `CatalogPaging.EachShownOnceIff` | backend/app/controller/productController.js:710-746 | however the store breaks ties from page to page and whatever the page size, each product is shown once exactly when neither half has a tie |
| `CatalogPaging.TieShowsTwice` | backend/app/controller/productController.js:721-730 | with a tie in one half, pages of one product can show one product twice |
| `ProductPhotos.NothingDropped` | backend/app/controller/productController.js:388-410 | each upload appears exactly once, as cover or in the gallery, in upload order; the rest are the retained saved photos in the order asked for; surplus slots vanish |
| `ProductPhotos.UnchangedIff` | backend/app/controller/productController.js:409-415 | with the cover kept and no upload, nothing is written exactly when the layout names the gallery as saved |
| `ProductPhotos.SameLayoutNamesGallery` | backend/app/controller/productController.js:391-399 | the layout listing the photos as saved names exactly that gallery |
| `ProductPhotos.NamedTwiceStoredTwice` | backend/app/controller/productController.js:391-399 | a layout naming a saved photo twice stores it twice |
| `ProductPhotos.PhotoDesk.Fill` | backend/app/controller/productController.js:389-402 | the loop taking uploads from the front computes the arrangement |
| `ProductPhotos.PhotoDesk.ApplyPhotoEdits` | backend/app/controller/productController.js:375-416 | writes cover and gallery exactly when they change, and refuses a changed gallery of more than four |
| `Cart.CartStaysSound` | backend/app/controller/cartController.js:111-350 | while the products in it stay visible, every run keeps lines unique, one seller, and quantities within the stock seen at their last write |
| `Cart.LinesStayUnique` | backend/app/controller/cartController.js:156-173 | lines stay unique on product and SKU under every request and any catalogue |
| `Cart.OneSellerKeptIff` | backend/app/controller/cartController.js:135-154 | an addition mixes sellers exactly when its product is visible, its quantity is within the stock, the first line's product no longer exists and the sellers differ |
| `Cart.SoundThroughoutIff` | backend/app/controller/cartController.js:111-350 | a cart keeps one seller and quantities within the stock seen throughout a run exactly when no request does that or the following |
| `Cart.StockKeptIff` | backend/app/controller/cartController.js:256-276 | a quantity passes the stock last seen exactly when it is changed on a product no longer visible |
| `Cart.AvailableWithinMaster` | backend/app/controller/cartController.js:30-67 | while master stock is the sum of the variants, no SKU is offered more than the product has |
| `Cart.UpdatedLine` | backend/app/controller/cartController.js:244-259 | the line changed is the first with the SKU in any case, else the first of the product where either SKU is blank |
| `Cart.DeletedFirstProductMixesSellers` | backend/app/controller/cartController.js:138-154 | only the first line is checked: a cart that gets a second seller |
| `Cart.CartDesk.RemoveFromCart` | backend/app/controller/cartController.js:313-336 | splicing backwards leaves the lines that do not match, in order |
| `Cart.CartDesk.AddToCart` | backend/app/controller/cartController.js:111-175 | the handler does what the specification says; a refusal changes nothing |
| `Cart.CartDesk.UpdateQuantity` | backend/app/controller/cartController.js:231-281 | exact match first, then the fallback; a quantity of zero or less removes the line |
| `CartOverlap.UniqueKeptIff` | backend/app/controller/cartController.js:156-173 | with additions taken apart into read and save, lines stay unique exactly when no line is pushed that the cart has got since it was read |
| `CartOverlap.UniqueThroughoutIff` | backend/app/controller/cartController.js:111-175 | and throughout a run exactly when no save does that |
| `CartOverlap.AddsIff` | backend/app/controller/cartController.js:156-173 | a saved addition adds its quantity exactly when it pushes a line or the line still has the quantity it read |
| `CartOverlap.AloneServes` | backend/app/controller/cartController.js:111-175 | with nothing in between, the read and the save are the addition of the specification |
| `CartOverlap.BothPush` | backend/app/controller/cartController.js:156-173 | two additions that both miss the line leave two lines |
| `CartOverlap.BothRaise` | backend/app/controller/cartController.js:169-173 | two additions that both find one unit leave two, not three |
| `Brands.RunKeepsNames` | backend/app/controller/brandController.js:143-241 | in every timely run name keys stay unique and, with no rename half done, each linked product shows the current name of a brand that exists |
| `Brands.StepKeepsLinksIff` | backend/app/controller/brandController.js:193-241 | a step keeps every link right exactly when nothing it relied on has changed since it was read |
| `Brands.KeysStayUnique` | backend/app/models/brand.js:48-58 | every create and rename keeps keys unique and derived from the normalised name |
| `Brands.KeyIgnoresSpacing` | backend/app/models/brand.js:48-58 | the key of a name is the key of its normalised form, and normalising twice is normalising once |
| `Brands.SaveAfterRenameShowsOldName` | backend/app/controller/productController.js:314-345 | a product checked before a rename and saved after it keeps the old name |
| `Brands.DeleteAfterCountLeavesDangling` | backend/app/controller/brandController.js:232-241 | a brand counted as unused and then deleted can leave a product pointing nowhere |
| `Brands.BrandDesk.UpdateBrand` | backend/app/controller/brandController.js:175-213 | renaming rewrites the name on every linked product and nothing else |
| `Brands.BrandDesk.DeleteBrand` | backend/app/controller/brandController.js:225-243 | deletes exactly an existing brand no product uses |
| `Brands.BrandDesk.SaveProduct` | backend/app/controller/productController.js:314-345 | an id wins over a name, an inactive brand is accepted only if already used, a free name is kept as text |
| `Text.NormalTwice` | backend/app/models/brand.js:52-58 | white space normalisation is idempotent, its result needs no trimming, and only blank names become empty |
| `Categories.DeletionTerminatesIff` | backend/app/controller/categoryController.js:314-322 | the recursive deletion of a stored node ends exactly when the node is not its own ancestor |
| `Categories.DeletionLeavesNoOrphans` | backend/app/controller/categoryController.js:314-322 | it removes the node and its descendants, changes nothing else and leaves no child of a removed node |
| `Categories.DeletionIsShallow` | backend/app/controller/categoryController.js:314-322 | in a well-typed hierarchy it needs no more nested calls than there are levels below the node |
| `Categories.EditKeepsHierarchyIff` | backend/app/controller/categoryController.js:260-283 | an accepted update keeps the three-level hierarchy exactly when a header gets no parent and the type stays, or changes on a childless node not put under itself |
| `Categories.ServeKeepsIff` | backend/app/controller/categoryController.js:155-322 | every request on a well-typed hierarchy is answered, and keeps it exactly under that condition |
| `Categories.CarefulRunsKeepForest` | backend/app/controller/categoryController.js:155-322 | runs of such requests keep a forest of depth three and always end |
| `Categories.HeaderUnderItsChild` | backend/app/controller/categoryController.js:32-34 | a header may be given its own child as parent: deleting it never ends |
| `Categories.TypeChangeClosesCycle` | backend/app/controller/categoryController.js:267-277 | changing a header into a subcategory of its own category closes a cycle too |
| `Categories.CategoryDesk.DeleteWithChildren` | backend/app/controller/categoryController.js:314-320 | the recursive procedure with its loop over the children found on entry removes exactly the subtree |
| `Categories.CategoryDesk.Create` | backend/app/controller/categoryController.js:187-209 | creates exactly when the parent fits the type |
| `Categories.CategoryDesk.Update` | backend/app/controller/categoryController.js:257-289 | missing type and parent are taken from the stored node; a refusal changes nothing |
| `CategoryOverlap.NoOrphansKeptIff` | backend/app/controller/categoryController.js:183-320 | with creations and deletions taken apart into their calls, every node keeps its parent exactly when no node is inserted under one that is gone and none is deleted while another has it as parent |
| `CategoryOverlap.NoOrphansThroughoutIff` | backend/app/controller/categoryController.js:183-320 | and throughout a run exactly when no step does either |
| `CategoryOverlap.DeletionsLeaveNoOrphans` | backend/app/controller/categoryController.js:314-322 | any number of deletions and creations at once leave no orphan at any moment, if nothing is inserted under a node that is gone or whose children a deletion has already read |
| `CategoryOverlap.LateCreationIsOrphan` | backend/app/controller/categoryController.js:183-209 | a parent checked, found childless and deleted before the insert leaves an orphan |
| `LedgerBackfill.RestartsReachGoal` | backend/scripts/backfill-ledger-from-transactions.js:124-183 | any number of runs stopped at any row, then one full run, leave the ledger of a single run |
| `LedgerBackfill.FilledExactly` | backend/scripts/backfill-ledger-from-transactions.js:130-183 | a full run keeps every entry, adds the converted entry of each mapped row that had none, and nothing else |
| `LedgerBackfill.SecondRunCreatesNothing` | backend/scripts/backfill-ledger-from-transactions.js:143-150 | a further run creates nothing |
| `LedgerBackfill.DryRunForetells` | backend/scripts/backfill-ledger-from-transactions.js:180-183 | a dry run reports the counters of the real run and inserts nothing |
| `LedgerBackfill.EveryRowCounted` | backend/scripts/backfill-ledger-from-transactions.js:114-140 | processed = created + skipped + unmapped, and at most ten samples are kept |
| `LedgerBackfill.CreatedIsGrowth` | backend/scripts/backfill-ledger-from-transactions.js:180-183 | the created counter is the number of entries added |
| `LedgerBackfill.RefundKeepsSign` | backend/scripts/backfill-ledger-from-transactions.js:152-156 | a refund keeps its signed amount: negative ones become debits |
| `LedgerBackfill.Script.Backfill` | backend/scripts/backfill-ledger-from-transactions.js:114-190 | the cursor loop computes that ledger and those counters |
| `WalletBackfill.FilledExactly` | backend/scripts/backfill-customer-wallets.js:50-86 | no existing wallet is altered, each selected user without one gets exactly one, opened with the user's balance |
| `WalletBackfill.RestartReachesGoal` | backend/scripts/backfill-customer-wallets.js:50-86 | stopped anywhere and run again, it ends with the wallets of one run |
| `WalletBackfill.SecondRunReportsTheSame` | backend/scripts/backfill-customer-wallets.js:58-72 | a further run creates no wallet and reports the same mismatches |
| `WalletBackfill.Script.Backfill` | backend/scripts/backfill-customer-wallets.js:41-93 | the cursor loop opens those wallets; its counters and mismatch list are exact |

## Left out

- Request parsing, validation schemas, authentication and roles, caching, sockets, e-mail and SMS.
- Floating point: amounts are whole paise, averages whole hundredths rounded half up; NaN inputs are not modelled.
- The Redis counters of the rate limiter and the switch between the two stores; SHA-1 keys are taken to be injective.
- ProductEdit: edits by an administrator, which write stock without the guard, are not events; nor are sales without a variant SKU on a product with variants (StockDesk has them), whose two writes an edit could separate.
- ProductEdit: an edit's brand and photo fields, which are computed once and not again on a retry either.
- ProductEdit: opening stocks of a new product are taken as not negative.
- ProductEdit: a variant SKU stands for its trimmed, case-folded form; blank SKUs are taken as already filled in.
- StockDesk: requests are atomic here; their single writes are taken apart in ProductEdit. Giving stock back on a cancellation is a movement in ProductEdit only.
- CodSettlement: its handler runs one submission alone; CodOverlap takes overlapping ones apart. The rider's cash in hand, which is floored at zero, and cancellations after collection are not in CodOverlap.
- Ratings: a rebuild, which reads the ratings and then writes the totals with no session, is one step.
- Ratings: a submission or moderation with a session is one atomic step once its transaction runs; without a session submissions are modelled, not moderation.
- ReturnModel: consuming the old codes and making a new one is one step, and so is loading and crediting the customer's wallet. The version check that refuses some saves of a whole list (a new request, an approval, a pickup given back) is not modelled: such a save always goes through here.
- ReturnModel: OTP attempts and expiry are parameters of the requests; payout holds and seller wallet balances appear only as whether the seller can pay.
- ReturnHandlers.ReturnDesk.UpdateReturnQcStatus: does not model the seller payout that a failed inspection releases, because seller wallets are not part of this state.
- ReturnModel: items, reasons and return windows of a request are not modelled; a request may come at any time.
- WalletHistory: dedupe keys are records, not strings; titles and ids of the listed lines are not modelled.
- CatalogPaging: products changing between the pages; where products tie, which of the lists it may return the store chooses.
- ProductPhotos: the URL-list form of an edit, which replaces the gallery as sent.
- Cart: a request is one step, with the catalogue as read at its start; CartOverlap takes additions apart, not the other requests, and takes the cart as already created. Fractional quantities are not modelled.
- Text: lower-casing covers A to Z only.
- Brands: slugs, whose clashes only refuse more requests.
- Categories: a request is one step; CategoryOverlap takes creations and deletions apart, without types and without updates.
- Categories: names, slugs and images; the children of a node are deleted in an arbitrary order.
- LedgerBackfill: two scripts running at the same time, which the unique transactionId turns into a failure of one.
- Regex search, slug and SKU generation, analytics, content pages, tickets, wish lists, the point of sale and all front-end code.
