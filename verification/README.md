# Verified model of the flash-sale lab

A Dafny model of the protocols of the flash-sale lab and proofs of what they keep over every run.
`dafny verify dfyconfig.toml` checks all of it.

- **Order protocol.** Redis stock and admissions behind four Lua scripts, a MySQL ledger, two
  at-least-once messages, one message consumer, crashes, lost replies, key expiry, experiment resets
  and offline recovery. `AdmissionScripts` models the scripts and the object they update,
  `AdmissionCodec` the stored text, `OrderPrograms` the operations (CreateRedisPendingOrder, Pay,
  GiveUp, TimeoutCancel, Draw after its checks, the shared cancel and record routines) as programs with
  an explicit position, one store call per step. `OrderInvariants` and `OrderGuarantees` hold the
  rely/guarantee proof, `OrderRuns` the whole system, `OrderTheorems`, `OrderStock`, `OrderErasure`,
  `InventoryRecovery` and `OrderRecovery` the results; `OrderReplies` says what each operation answers and
  leaves behind undisturbed, `OrderDelivery` what one delivery achieves, `OrderWitnesses` shows the limits of what is promised. `MySQLRoute` is about the
  stock of the legacy MySQL mode. `Draw` is the Draw operation with its loops, `DrawTheorems` and
  `DrawReasons` what it promises; `KeySweep` the key deletion of a reset.
- **Purchase experiment.** `PurchaseModel` interleaves purchase transactions statement by statement
  with publisher, consumer, cache fills, resets and expiry; `PurchaseSafety`, `PurchaseTheorems`,
  `PurchaseCrowd`, `PurchaseReplies` and `PurchaseWitnesses` prove conservation, idempotence, the outbox
  life cycle, the invalidation debt, the exact number of winners and the truth of every answer.
- **Cache fill, rate limiter, load-test runner.** `CacheFill`, `TokenBucket`, `TaskRunner`, `EventLog`.

How failures are modelled: every store call succeeds, fails without effect, or takes effect and loses
its reply; a client that goes away leaves its program unfinished; a crashed message handler is
delivered again, and any message ever sent may be delivered again, in any order, acknowledged or not.
Actions that are not enabled leave the world as it is, so every list of actions is a run.

History variables, which no modelled operation reads: `fate` (last state of every admission, kept after
its key is gone), `removals`, and in the purchase model the stock versions, their writers, `deleted` and
`barrier`. `sent` is what the broker has ever received; `issued` and `runs` are the names already taken.

Assumptions taken from the source's own setting: a new business order number (128 random bits) and a
new run id differ from every one named before; the reset gate keeps resets and recovery out of every
running operation (internal/database/order_identity.go:28-31); one consumer handles order messages one
at a time (internal/app/app.go:75-78); `RecoverPurchaseOutbox` runs when the one publisher process
starts; task ids of the runner are new.

Where code and documentation differ, the code is modelled. Findings:

- `RecordReleasedRedisCancellation` documents convergence to cancelled, but can answer success over a
  pending row; the exact condition and a run are proved, and so is that the message consumer settles it.
- `UnpersistedAdmissionCounts` counts a key once per SCAN return, so a repeated key makes recovery
  restore less than the live stock.
- A subscriber whose Last-Event-ID lies ahead of the log (for example after switching to another task) is not
  served from there but from the next event.
- Outbox rows survive an experiment reset, so an asynchronous purchase that reuses a request id of before the reset
  fails on the unique outbox key and rolls back.
- The UPDATE of `RecordReleasedRedisCancellation` (internal/database/order.go:227-231) does not ask for the inventory
  mode. For a user with a cancelled old-format admission and an unpaid MySQL-mode row of the same gift, an old create
  message (internal/service/order.go:67-70) cancels that row, marks it released and returns no unit to the MySQL stock.
  Proved: the unit is lost exactly in this case, and the MySQL route never oversells.
- Recovery takes any row found under an admission's identity for its persisted order (internal/database/admission.go:234-238)
  but counts Redis-mode rows only (internal/database/order.go:343-360). A holder in the old format who also has a
  MySQL-mode row is counted nowhere, and recovery can put the unit on sale again. Proved: runs stay within the catalogue
  if and only if every recovery counts all holders, which holds unless such a user exists.
- After a refused claim Pay reads the user's admission and checks its gift but not its identity
  (internal/service/order.go:164-170, 203-207), so a refusal may be about another order of the user.
- The ledger has one row per user, so the cancellation of an order whose user already has the row of another order cannot
  be recorded, and its CANCEL_ORDER is redelivered without end. Proved: in no other case.

Main results, in the order of the table: scripts conserve stock over every sequence of calls
(`RunConserves`, `RestoredAtMostOnce`); the two stores agree in every reachable world, an owed cancellation is
always with the broker, and verdicts are final (`StoresNeverContradict`, `OwedCancellationIsUnacked`,
`AckedMeansSettled`, `PayAndGiveUpExclude`, `EveryStepDescends`); every operation's reply is decided by row and admission (`PayAnswers` and its companions), and a late CANCEL_ORDER is settled by one calm delivery (`LateCancelIsAcknowledged`); neither route oversells and exactly when books or
recovery can be off (`SafeExactlyWhenRecoveriesCount`, `MySQLNeverOversold`, `RecoveryRewritesLiveStock`); stale
traffic can be erased from any run (`StaleTrafficIsInvisible`); a Draw takes at most one unit and the two calls
that can lose it, and it perseveres (`DrawKeepsItsPromises`, `EveryReplyHasItsReason`); purchases conserve, exactly min(N, S) of them succeed, and every stale cache entry is
still owed its deletion (`PurchasesConserve`, `ExactlyMinSucceed`, `StaleCacheIsOwed`); rebuilds of the cache
are bounded by removals (`RebuildsMatchRemovals`); the limiter admits exactly what fits into every window
(`ServeRounds`); one load test at a time, each ending once (`OneActiveTask`, `ExitMeansSettled`). Rows
marked "Reference behaviour" say what an operation achieves undisturbed and are not among them.

## Model

| member | source | states |
|---|---|---|
| `AdmissionScripts.RedisStore.RunAcquire` | internal/database/admission.go:41-68 | The acquire script run in place is the atomic function `Acquire`: stale run, duplicate, sold out, or one unit less and a fresh `stock_acquired` admission; nothing else changes |
| `AdmissionScripts.RedisStore.RunMarkPending` | internal/database/admission.go:72-95 | The mark script in place is `MarkPending`: only the addressed admission, only from `stock_acquired`; a repeat answers Already |
| `AdmissionScripts.RedisStore.RunClaim` | internal/database/admission.go:99-122 | The claim script in place is `Claim`: only from `pending_payment`, a repeat answers Already, stock untouched |
| `AdmissionScripts.RedisStore.RunRelease` | internal/database/admission.go:127-152 | The release script in place is `Release`: one unit back exactly on the first cancellation |
| `AdmissionScripts.CommandConserves` | internal/database/admission.go:41-152 | One script with arbitrary arguments keeps stock plus holders of every gift, one expiry drops exactly the unit its admission held, stock stays non-negative |
| `AdmissionScripts.RunConserves` | internal/database/admission.go:41-152 | Over every sequence of scripts and expiries: stock + holders + expired units is constant per gift, stock >= 0 |
| `AdmissionScripts.RunConservesExactly` | internal/database/admission.go:41-152 | Without expiry: stock + number of stock_acquired/pending_payment/paid admissions = baseline, exactly |
| `AdmissionScripts.RestoredAtMostOnce` | internal/database/admission.go:124-152 | Per user: restores + expired units + unit still held = grants + unit held at the start, so no admission gives its unit back twice |
| `AdmissionScripts.AdmissionOnlyMovesForward` | internal/database/order.go:20-29 | Over every sequence an admission keeps gift and identity and moves only along the legal edges of the state machine; terminal states never change |
| `AdmissionScripts.OneLegalEdge` | internal/database/order.go:20-29 | One script moves at most the addressed admission, along one legal edge; a new admission starts as stock_acquired for the requested gift |
| `AdmissionScripts.ScriptsFollowTheEdges` | internal/database/admission.go:72-152 | Each state script moves the addressed admission exactly when its edge of the state machine is legal, answers Already exactly when the admission is in the target state, and touches nothing else but the unit a release gives back |
| `AdmissionScripts.AcquireGrantsExactly` | internal/database/admission.go:41-68 | The acquire script grants exactly in the current run, to a user without admission, with the gift in stock; which check failed first decides the refusal, and a refusal changes nothing |
| `AdmissionScripts.ReachesIsChainOfEdges` | internal/database/order.go:20-29 | The `Reaches` relation of the other results is exactly the chains of legal status edges |
| `AdmissionCodec.AtoiInvertsItoa` | internal/database/admission.go:296-301 | Decimal gift ids survive writing and parsing over the whole 64-bit range |
| `AdmissionCodec.LuaReadIsThePattern` | internal/database/admission.go:78-83 | Splitting into two or four non-empty fields is exactly what the two Lua patterns match, with the same captures |
| `AdmissionCodec.BothReadersInvertEncode` | internal/database/admission.go:296-321 | For every gift, state and valid-or-empty identity the Go parser inverts what the scripts write and the Lua patterns extract the same fields |
| `AdmissionCodec.TextGuardIsMatch` | internal/database/admission.go:84 | On every stored value the scripts' textual comparison is equality of gift and identity |
| `AdmissionCodec.MalformedIsRejected` | internal/database/admission.go:303-320 | Three fields, more than four, or an empty field: the Go parser fails and no script addresses the value, for any gift and identity |
| `AdmissionCodec.ReadersAgreeExactlyOnWrittenText` | internal/database/admission.go:296-321 | Exact set of texts that both readers understand alike: what the scripts write and the old format's bare canonical number |
| `OrderGuarantees.StepKeeps` | internal/service/order.go:37-350 | Every atomic step of every order operation, with its call succeeding, failing or losing its reply, keeps the joint store invariant, honours the guarantee to all other programs and reaches a point whose facts hold |
| `OrderGuarantees.FactsAreStable` | internal/service/order.go:37-350 | What an operation has learned at any program point survives every step of any other operation |
| `OrderRuns.StepIsGood` | internal/mq/order_consumer.go:80-96 | Every action (operation start or step, delivery, redelivery, ack, crash, expiry, MySQL purchase, old message, reset, failed reset, recovery) keeps the world invariant |
| `OrderRuns.RunIsGood` | internal/app/app.go:75-78 | Every world reachable under any interleaving with one consumer satisfies the invariant |
| `OrderRuns.UpgradedIsGood` | internal/database/admission.go:303-316 | A shop that enters with old-format admissions and old ledger rows of both modes, which carry no identity, satisfies the invariant too |
| `OrderTheorems.StoresNeverContradict` | internal/service/order.go:37-190 | In every reachable world a terminal Redis-mode row has exactly the verdict of its admission, live or expired: Redis and MySQL never hold opposite terminal states |
| `OrderTheorems.OwedCancellationIsUnacked` | internal/service/order.go:238-350 | Whenever a current admission is cancelled while its row is pending, that identity's CANCEL_ORDER was sent and is still unacknowledged |
| `OrderTheorems.AckedMeansSettled` | internal/service/order.go:238-350 | Once CANCEL_ORDER is acknowledged the identity's current admission is terminal, and if cancelled its row is cancelled with stock_released |
| `OrderTheorems.EndedForever` | internal/database/order.go:17-29 | A verdict on an identity (a numbered order's admission history, an old record's row) never changes again: for numbered orders over every run, for old records until the next reset |
| `OrderTheorems.PayAndGiveUpExclude` | internal/service/order.go:118-234 | Pay and GiveUp never both succeed for one identity, in either order and however far apart |
| `OrderTheorems.ClaimedOrderNeverConflicts` | internal/service/order.go:171-188 | After a successful claim (and in the create handler after a paid admission) the re-read finds the row paid: the conflict branches are unreachable for Redis-mode orders |
| `OrderTheorems.CancellationNeverConflicts` | internal/database/order.go:241-287 | A released cancellation meets no other gift and no paid row in Redis mode; a MySQL-mode row only under the empty identity, and then it gives up; after a duplicate key it always finds the row, so it never inserts a second time |
| `OrderTheorems.SuccessMeansReleasedUnlessPending` | internal/database/order.go:241-258 | Exact condition for success of the cancellation record to mean a cancelled, released row: the row it found was not pending; the timeout consumer never finds a pending one |
| `OrderTheorems.RefusalsAreTrue` | internal/service/order.go:118-234 | In every reachable world and under any faults, GiveUp of a numbered order answers already-paid only if it is paid, and Pay answers cancelled only if it is cancelled, except where a refused claim reads the user's admission without its identity and that is another order's |
| `OrderTheorems.RefusalsStand` | internal/service/order.go:222-234 | An already-paid answer to GiveUp of a numbered order stays true however the run goes on |
| `OrderTheorems.EveryStepDescends` | internal/service/order.go:37-350 | Every step of every operation brings it closer to its reply, under any interference and failure; the duplicate-key recursion ends at its second level |
| `OrderWitnesses.GiveUpSucceedsOverPendingRow` | internal/database/order.go:227-254 | A concrete reachable run in which GiveUp answers success while the row is pending: the insert fell between UPDATE and lookup |
| `OrderWitnesses.PaySucceedsOverPendingRow` | internal/service/order.go:147-151 | A concrete reachable run in which a late Pay answers success from a paid admission while the row is still pending |
| `OrderWitnesses.RefusalMayBeAboutAnotherOrder` | internal/service/order.go:164-170 | A concrete coherent store in which Pay answers cancelled for an order nobody cancelled: the refused claim is explained by the admission of another order of the user |
| `OrderReplies.PayAnswers` | internal/service/order.go:118-215 | For every store, the reply of an undisturbed Pay, in time or past the deadline, as a function of the row and the admission found, and the whole store it leaves behind |
| `OrderReplies.PaySucceedsExactlyWhenPaidOrPayable` | internal/service/order.go:118-190 | Pay succeeds if and only if the row is paid, or pending and payable in time, or pending past its deadline over a paid admission; a paid row answers success and a cancelled one cancelled with the stores unchanged; a late unpaid order ends cancelled on both sides; without a row the admission decides between processing, cancelled and not owned |
| `OrderReplies.PayClaimAnswers` | internal/service/order.go:158-190 | The same from the claim script on, whatever has become of row and admission since the lookup |
| `OrderReplies.PayUpdateAnswers` | internal/service/order.go:173-190 | From the ledger update on: success exactly over a pending or paid row of that key, a state conflict over any other status, an internal error if it is gone |
| `OrderReplies.GiveUpAnswers` | internal/service/order.go:222-350 | For every store, the reply of an undisturbed GiveUp in both inventory modes and the whole store it leaves behind |
| `OrderReplies.RedisCancelAnswers` | internal/service/order.go:317-350 | The Redis part of the cancel routine from the release script on, over any store and any row it had found: the admission decides, and without one the row that was found |
| `OrderReplies.MySQLCancelAnswers` | internal/service/order.go:302-315 | The MySQL part over any store: a pending row is cancelled and its unit back in one step, a paid, cancelled, vanished or stockless one is answered as such and nothing changes |
| `OrderReplies.RecordAnswers` | internal/database/order.go:215-258 | The cancellation record from its UPDATE on, at the first attempt or the retry: success exactly over an open row of the gift, its cancelled Redis-mode row, or no conflicting row, and then the row is cancelled and released and nothing else changed |
| `OrderReplies.RecordInsertAnswers` | internal/database/order.go:260-287 | The same from the insert on, whoever has inserted a row meanwhile |
| `OrderReplies.TimeoutAnswers` | internal/service/order.go:238-291 | For every store, what an undisturbed timeout message does: strangers and earlier runs are acknowledged unchanged, an order within its window is refused, a late one is cancelled, paid or foreign ones acknowledged, other failures redelivered |
| `OrderReplies.TimeoutLooksUp` | internal/service/order.go:243-254 | Only an anonymous message over a MySQL-mode row of its gift and deadline skips the admission check |
| `OrderReplies.FirstCreateAnswers` | internal/service/order.go:74-101 | A first CREATE message inserts the row, pending, or paid at once over a paid admission, and a granted admission becomes pending |
| `OrderReplies.RepeatedCreateAnswers` | internal/service/order.go:78-101 | A redelivered CREATE, or one that meets another row: a foreign row is an error, its own terminal row is acknowledged unchanged, its pending row becomes paid over a paid admission and stays pending over an open one |
| `OrderReplies.LateCreateAnswers` | internal/service/order.go:41-70 | A CREATE of no admission or an earlier run is acknowledged and changes nothing; over a released admission it records the cancellation |
| `OrderReplies.MarkAnswers` | internal/service/order.go:92-115 | From the mark script on, whatever has become of the admission meanwhile: marked, already pending, recorded as cancelled, or an error |
| `OrderReplies.FailingCalls` | internal/service/order.go:37-350 | A call that fails without effect leaves both stores as they were, one whose reply is lost has had its whole effect, and either ends the operation with its error, or sends a granted Draw into its rollback |
| `OrderReplies.DrawTriesOne` | internal/database/admission.go:41-68 | One candidate of a Draw is granted, or refused for its reason; a sold-out one leaves the Draw free to try the next |
| `OrderReplies.FailedAnnouncementIsRolledBack` | internal/service/lottery.go:231-313 | If the lookup or a send of a Draw fails and the rest goes well, the unit is back, admission and row are cancelled, and the user hears a failure |
| `OrderReplies.UnpaidOrderIsCancelledOnce` | internal/service/order.go:293-350 | Cancelling any unpaid order, granted, pending or already released, with or without row, ends cancelled and released on both sides with its unit back once |
| `OrderReplies.ADrawnAndExpiredOrderIsNeutral` | internal/service/order.go:37-350 | Drawn, created and timed out: the row is cancelled and released and the stock of every gift is as before the draw |
| `OrderDelivery.DeliveryEnds` | internal/mq/order_consumer.go:80-96 | One undisturbed delivery leaves the stores as the handler left alone would, frees the consumer, and acknowledges the message if and only if the handler succeeded |
| `OrderDelivery.LateCancelIsAcknowledged` | internal/service/order.go:238-350 | From every reachable world one undisturbed delivery of a numbered CANCEL_ORDER past its deadline settles it: acknowledged, an unpaid order of the current run cancelled and released in the ledger, anything else unchanged; it stays with the broker if and only if the order is to be cancelled and the user's one ledger row belongs to another order |
| `OrderStock.OnlyScriptsTouchRedis` | internal/database/admission.go:37-40 | No step of any order program changes stock, admissions or run except through the script it calls there; the cancellation record never touches stock |
| `OrderStock.NeverOversold` | internal/database/admission.go:41-152 | In every reachable world stock >= 0 and stock + holders <= catalogue count, through crashes, expiry, redelivery, half-finished resets and every recovery that counts all holders |
| `OrderStock.SafeExactlyWhenRecoveriesCount` | internal/database/admission.go:207-249 | Exact condition: a run stays within the catalogue at every moment if and only if each of its recoveries counts at least the holders as sold |
| `OrderStock.NeverOversoldWithoutTwins` | internal/database/admission.go:234-241 | No run oversells, recoveries included, unless a user with an old-format admission also has or takes a MySQL-mode row |
| `MySQLRoute.MixedShopOversellsAfterRecovery` | internal/database/admission.go:234-241 | A concrete upgraded shop in which recovery takes a holder's MySQL-mode row for the order of the old-format admission, counts nobody, and stock + holders exceeds the count |
| `OrderStock.BooksBalance` | internal/database/admission.go:41-152 | Without expiry and half-finished resets stock + holders = catalogue count exactly, across completed resets |
| `MySQLRoute.MySQLNeverOversold` | internal/database/inventory_cacheaside.go:262-333 | Legacy MySQL mode, any start and any run: cache_stock >= 0, cache_stock + pending/paid MySQL rows <= count, and equal exactly when nothing is missing: no cancellation record dropped a unit and no reset stopped between orders and stock since the last restocking |
| `MySQLRoute.StockIsNeverMissing` | internal/database/order.go:292-339 | The cancellation of a pending MySQL-mode order always finds its inventory row |
| `MySQLRoute.FreshIsStocked` | internal/database/reset.go:12-33 | A newly set up shop meets the hypotheses: every catalogue gift has its inventory row and the books are exact |
| `MySQLRoute.StepBalancesMySQL` | internal/database/order.go:227-231 | Every single step outside a reset moves cache_stock against its own row, except exactly the UPDATE of a Redis cancellation record that hits a MySQL-mode row, which loses one unit |
| `MySQLRoute.DropNeedsDoubleBooking` | internal/database/order.go:227-231 | A unit is lost only for a user with a cancelled old-format admission of the gift and an unpaid MySQL-mode row of it |
| `MySQLRoute.DoubleBookingDrops` | internal/service/order.go:67-70 | And such a user with a live admission does lose it: the next old CREATE message leaves the row cancelled and released while cache_stock stays, from any reachable world |
| `MySQLRoute.MixedShopLosesUnit` | internal/service/order.go:67-70 | A concrete upgraded shop with exact books in which one old CREATE message loses the unit for good |
| `MySQLRoute.BooksBalanceWithoutTwins` | internal/database/order.go:292-339 | Without a user of both kinds the MySQL books balance to the unit over every run without half-finished resets |
| `OrderErasure.StaleProgramIsInert` | internal/database/order_identity.go:91-114 | A request or message whose identity matches neither the user's admission nor row changes nothing at any of its steps |
| `OrderErasure.StaleTrafficIsInvisible` | internal/database/order_identity.go:91-114 | Erasing all traffic with stale identities from any run leaves stock, admissions, ledger, sent messages and history exactly as they were |
| `OrderErasure.MismatchedTrafficIsInvisible` | internal/database/order_identity.go:91-114 | The same from any quiet moment on, whatever is done later, for every identity that differs from what the stores hold for its user: old run, old order, another user's, or empty (the empty one for users who do not buy on the MySQL route later) |
| `OrderErasure.ResetMakesEverythingStale` | internal/database/reset.go:12-33 | After a completed reset exactly the identities named before and the empty one are stale, for every user; only the empty one of users who buy on the MySQL route afterwards is not |
| `InventoryRecovery.UnpersistedAdmissionCounts` | internal/database/admission.go:207-249 | The SCAN loop returns, per gift, how many returned keys are non-cancelled admissions without a ledger row of their identity, repeats counted |
| `InventoryRecovery.CompletedOrderCounts` | internal/database/order.go:343-360 | Per gift the number of pending or paid Redis-mode rows; gifts without such rows read as zero |
| `InventoryRecovery.WriteStock` | internal/database/inventory.go:80-117 | Each catalogue gift gets max(0, count - sold), all other stock keys go, the registry is exactly the catalogue |
| `InventoryRecovery.InitGiftInventory` | internal/database/inventory.go:66-121 | Recovery in place: stock of every catalogue gift is max(0, count - occupying rows - counted admissions), registry rebuilt, other stock keys gone |
| `InventoryRecovery.SoldIsExact` | internal/database/inventory.go:66-98 | The recovered `sold` is at least holders + surplus rows - hidden holders, and equal exactly when SCAN repeats no counted key; hidden are old-format holders whose lookup finds a MySQL-mode row |
| `InventoryRecovery.RecoveryNeverOversells` | internal/database/inventory.go:66-98 | For every SCAN that covers the keys, restored stock + holders <= count if and only if at least the holders are counted; always when no holder is hidden, and without repeated keys exactly when hidden holders do not outnumber surplus rows |
| `OrderRecovery.RecoveryWritesCountMinusHeldMinusLag` | internal/database/inventory.go:66-98 | In every reachable quiet world with nothing expired, recovery writes max(0, count - held + hidden - lag), lag = rows pending although their admission is cancelled |
| `OrderRecovery.RecoveryRewritesLiveStock` | internal/database/inventory.go:66-98 | With nothing expired recovery rewrites exactly the stock that was there if and only if lag and hidden holders balance, or the shelf is empty and stays so |
| `Draw.Lottery` | internal/util/lottery.go:12-27 | The drawn index is in range and is the one whose interval, as long as its weight, contains the random point; empty weights give -1 |
| `Draw.DrawnByOne` | internal/util/lottery.go:12-27 | Every random point belongs to one index only, so a gift's chance is its share of the stock |
| `Draw.Candidates` | internal/service/lottery.go:179-187 | The candidates are exactly the registered gifts with positive stock, in registry order, each weighted by its stock |
| `Draw.Rollback` | internal/service/lottery.go:291-313 | The rollback in place: others' scripts, then the release script unless the call never arrives |
| `Draw.Announce` | internal/service/lottery.go:231-276 | From the grant to the reply in place: result, messages and store are those of the step-by-step specification, for every fault of every call |
| `Draw.DrawGift` | internal/service/lottery.go:138-284 | The whole operation in place, both loops: for every schedule of competing scripts and every failing call it ends with the result, messages and store of the specification `DrawFrom`; a failed or positive ledger lookup ends it without any script |
| `DrawTheorems.DrawKeepsItsPromises` | internal/service/lottery.go:138-284 | What that specification promises: the store is the replay of the recorded scripts; at most one unit was granted under the identity, to this user; success is that unit with CANCEL_ORDER then CREATE_ORDER; no message names a unit that was not granted; no-stock was true of every registered gift; a unit left open without success means the last call lost it (granted acquire whose reply was lost, or release that never ran), and if nobody interferes such a call does leave it open |
| `DrawTheorems.WithoutFaultsNothingIsOwed` | internal/service/lottery.go:231-276 | If no call fails, a Draw that does not succeed leaves no open unit, whatever the others do |
| `DrawTheorems.LostAcquireReplyLeavesUnit` | internal/service/lottery.go:206-229 | Whenever the reply of an undisturbed granting acquire is lost, the caller hears a failure, nothing is sent, and the unit stays taken |
| `DrawTheorems.AloneWinsExactlyWhenPossible` | internal/service/lottery.go:138-284 | Undisturbed and without failures a Draw succeeds if and only if some registered gift is in stock, the run is current and the user is new; it answers no-stock if and only if none is in stock |
| `DrawReasons.EveryReplyHasItsReason` | internal/service/lottery.go:138-284 | Under any competition and any faults every reply has its reason in what the calls met: no-stock met an empty shelf, duplicate an admission of this user in the current run, a send failure is one, and a failed Draw met a failing call or a stale run, or read the stock `tries` times and tried every gift that each read saw in stock and found it sold out in that round |
| `DrawReasons.GivesUpAfterTenRounds` | internal/service/lottery.go:172-284 | Without faults a Draw gives up only in a stale run or after ten stock reads with every candidate of each tried and sold out |
| `DrawReasons.WinsWhileSomeGiftLasts` | internal/service/lottery.go:194-276 | Without faults, if one registered gift is in stock at every call, the run is current and the user new, the Draw wins, however many other gifts are snatched away |
| `KeySweep.SweepOnce` | internal/database/reset.go:67-88 | One SCAN iteration deletes exactly the removable keys its calls return; it reports zero deletions exactly when nothing changed; it gives up only at a failing call, and then only removable keys are missing |
| `KeySweep.CoveringPassRemovesAll` | internal/database/reset.go:60-94 | One iteration that visits every key, in any order and with repeats, leaves no matching key outside the kept set |
| `KeySweep.DeleteExcept` | internal/database/reset.go:60-94 | Unless a call of the first two iterations fails, the nested loops end after at most two iterations with exactly the matching keys outside `keep` gone; otherwise only such keys are missing |
| `PurchaseSafety.AgentKeeps` | internal/database/purchase_experiment.go:204-418 | Every statement of every buyer, publisher, consumer, reset and fill keeps the joint invariant and what all others rely on |
| `PurchaseTheorems.PurchasesConserve` | internal/database/purchase_experiment.go:204-306 | Under every statement-level interleaving, crash and rollback: stock >= 0, stock + ordered quantities = baseline, every asynchronous order has its outbox row and every open outbox row its asynchronous order |
| `PurchaseTheorems.OrdersAreFinal` | internal/database/purchase_experiment.go:204-306 | Between resets a committed order never changes and the stock taken is exactly the quantity of orders added: at most one decrement per request id |
| `PurchaseCrowd.ExactlyMinSucceed` | internal/database/purchase_experiment.go:202-306 | From every reachable world with stock S in which nobody else is about to buy or reset: N new unit purchases under distinct ids, all answered without error, succeed exactly min(N, S) times and the rest hear sold out, beside any fills, publishers, consumers, recoveries, crashes and late work of earlier buyers |
| `PurchaseReplies.AnswersAreTrue` | internal/database/purchase_experiment.go:204-306 | Over every run without a reset, under any interleaving, fault and crash: committed and duplicate mean an order under the id with the buyer's own batch, quantity and strategy, conflict one that differs, sold out that more was asked than is left |
| `PurchaseReplies.PurchaseAnswers` | internal/database/purchase_experiment.go:204-306 | For every state of MySQL with the row unlocked, the answer of one undisturbed purchase and all it leaves behind in MySQL and the cache: invalid, committed, duplicate, conflict, sold out, or failed on a used outbox id |
| `PurchaseReplies.ConflictExactlyWhenDifferent` | internal/database/purchase_experiment.go:218-224 | Undisturbed, a known request id is answered conflict if and only if batch, quantity or strategy differs, and then nothing changes |
| `PurchaseReplies.OvertakenAnswers` | internal/database/purchase_experiment.go:283-301 | A purchase that lost the race for its request id answers as if it had found the winner's order at once |
| `PurchaseReplies.OvertakenInTransaction` | internal/database/purchase_experiment.go:283-301 | The same when it learns so from the unique key inside its own transaction, which is rolled back and frees the row |
| `PurchaseReplies.FailingStatements` | internal/database/purchase_experiment.go:204-306 | A statement that fails without effect leaves MySQL, broker and cache as they were, one whose reply is lost has had its effect there, and a purchase answers an error to either, even to a commit that went through |
| `PurchaseReplies.ThreeDeletionAttempts` | internal/service/purchase_experiment.go:433-475 | The synchronous scheme makes at most three DEL attempts and reports the DTO as invalidated exactly when one that it made was confirmed |
| `PurchaseReplies.PublisherRound` | internal/service/purchase_experiment.go:678-705 | One publisher round under any faults: a confirmed send is recorded as published, a failed one puts the event up for claiming with one more retry, a lost write-back leaves it claimed |
| `PurchaseReplies.ConsumerRound` | internal/service/purchase_experiment.go:709-735 | One consumer round under any faults: an open event is completed exactly after a confirmed DEL; a failed one keeps its status and counts a retry |
| `PurchaseReplies.ResetRound` | internal/service/purchase_experiment.go:186-199 | A whole reset under any faults: it reports success exactly when transaction, read and cache write were confirmed, and then the cache shows the full stock; a transaction that did not happen changes nothing |
| `PurchaseReplies.PublishedMeansSent` | internal/database/purchase_experiment.go:371-383 | Over every run an event recorded as published was sent |
| `PurchaseReplies.NoLockIsLeftBehind` | internal/database/purchase_experiment.go:214-281 | Over every run, whatever fails or crashes, the row lock is free or held by a transaction in progress |
| `PurchaseTheorems.FinalIsAbsorbing` | internal/database/purchase_experiment.go:403-418 | Completed and cancelled events never change again under worker, consumer, recovery and reset |
| `PurchaseTheorems.OutboxLifeCycle` | internal/database/purchase_experiment.go:335-418 | A completed event's DTO was deleted after its purchase committed; at most one publisher holds an event, and a held event is not claimable |
| `PurchaseTheorems.StaleCacheIsOwed` | internal/service/purchase_experiment.go:433-475 | Whenever an un-straddled cached DTO is older than MySQL, every commit it misses is still owed its deletion: outbox event not completed (a cancelled one stays owed), synchronous buyer not past its DEL, or reset not past its prewarm |
| `PurchaseTheorems.PaidCacheIsCurrent` | internal/service/purchase_experiment.go:709-735 | With the latest commit's debt paid the cache is absent, straddled, or shows exactly MySQL's stock |
| `PurchaseWitnesses.StraddlingFillStaysStale` | internal/service/archive.go:120-135 | A concrete run in which a fill that straddles a commit leaves the cache stale although no deletion is owed, until the entry expires |
| `PurchaseWitnesses.DuplicateMayHearSoldOut` | internal/database/purchase_experiment.go:218-257 | A concrete run in which a concurrent duplicate hears sold out although its own order was just committed |
| `CacheFill.OneRebuildInFlight` | internal/service/archive.go:100-104 | At most one reader per key is between its second check and its write |
| `CacheFill.MissesAreAccountedFor` | internal/service/archive.go:75-138 | Initial misses + degraded reads = origin reads + coalesced reads + reads under way (+ negative reads given up on a failing Redis), under any faults |
| `CacheFill.EvidenceIsTrue` | internal/service/archive.go:75-138 | Over every run and any faults a read's evidence is exactly what happened to it: hit if and only if its first GET met the entry, miss if and only if it met its absence, coalesced, origin read, rebuild and failure likewise |
| `CacheFill.FirstHitAnswers` | internal/service/archive.go:79-86 | A read whose first GET met the entry was answered at once: no wait, no lock, no origin read, nothing but a hit |
| `CacheFill.OnlyTheOriginFailsReads` | internal/service/archive.go:87-97 | A DTO read fails if and only if its MySQL read failed: failing Redis calls never fail it |
| `CacheFill.EntryFollowsWrites` | internal/service/archive.go:126-135 | Over every run the entry is there exactly when a write reached Redis, or it was there at the start, with no removal since; a write whose reply was lost counts, one that was lost does not |
| `CacheFill.WarmCacheServesEverybody` | internal/service/archive.go:79-86 | While the entry stays and nothing fails there are no misses, waits or origin reads at all |
| `CacheFill.ReadsEnd` | internal/service/archive.go:100-138 | Every statement brings a read closer to its answer, except waiting for a reader that has statements to go |
| `CacheFill.RebuildsMatchRemovals` | internal/service/archive.go:75-138 | With working Redis calls and no writer outside the protocol: rebuilds + initially present = removals + now present, hence rebuilds <= removals + 1, even if MySQL fails |
| `CacheFill.OriginQueriesBounded` | internal/service/archive_experiment.go:311-351 | Without faults the origin is asked at most removals + 1 times, for the DTO key and the negative entry alike |
| `TokenBucket.Limiter.constructor` | internal/service/limiter.go:28-41 | A positive QPS gives a full bucket whose rate, burst and tokens are that QPS, anything else a disabled limiter |
| `TokenBucket.Limiter.TryAcquire` | internal/service/limiter.go:46-61 | Allow in place is the pure step: refill, then spend one token if there is one |
| `TokenBucket.Limiter.Restart` | internal/service/limiter.go:65-73 | Reset in place fills the bucket and restarts its clock; a disabled limiter stays as it is |
| `TokenBucket.Limiter.RefillAt` | internal/service/limiter.go:78-93 | Refill in place: nothing for a time that does not advance, else elapsed * rate up to the burst |
| `TokenBucket.AdmittedExactlyWithinEveryWindow` | internal/service/limiter.go:46-93 | Request n is admitted iff for every j <= n, admitted in [j, n) + 1 <= burst + rate * (T_n - T_j), T the running maximum of observed times |
| `TokenBucket.WindowBound` | internal/service/limiter.go:46-93 | Every window of requests admits at most burst + rate * its length |
| `TokenBucket.BuiltAndResetAreFull` | internal/service/limiter.go:35-40 | Construction and every later Reset restart the characterisation from a full bucket |
| `TokenBucket.DisabledAdmitsAll` | internal/service/limiter.go:29-31 | Without a positive QPS every request is admitted |
| `TokenBucket.Serve` | internal/service/limiter.go:46-93 | A whole run of requests on one built or reset limiter object: each is answered yes exactly when it fits into every window since, and the object ends in the state of the pure run |
| `TokenBucket.ServeRounds` | internal/service/limiter.go:28-93 | The whole life of one limiter object built for `qps` and reset any number of times, in terms of qps alone: in every round request n passes if and only if for all j <= n, passed in [j, n) + 1 <= qps + qps * (T_n - T_j); without a positive qps everything passes |
| `TokenBucket.QpsDecidesEveryAnswer` | internal/service/limiter.go:28-93 | That promise leaves no freedom: QPS, start and times decide every answer |
| `TokenBucket.BurstIsQps` | internal/service/limiter.go:34-40 | Of requests at one instant exactly the first qps pass |
| `TaskRunner.Runner.Start` | internal/loadtest/runner.go:173-276 | Start in place is `StartTask`: refused while one is active, else recorded, listed, made active, then pruned |
| `TaskRunner.Runner.PruneLocked` | internal/loadtest/runner.go:1380-1390 | The pruning loop in place is `Prune` |
| `TaskRunner.Runner.MoveTo` | internal/loadtest/runner.go:1126-1141 | A guarded status change in place |
| `TaskRunner.Runner.FinishTask` | internal/loadtest/runner.go:1200-1238 | The finish routine in place: a failed clean-up turns success into failure, a terminal or illegal change is ignored, Done is closed and the lock freed |
| `TaskRunner.Runner.LoadState` | internal/loadtest/runner.go:1293-1332 | Reading saved records back: unfinished ones become failed, all closed, then pruned |
| `TaskRunner.PruneKeeps` | internal/loadtest/runner.go:1380-1390 | Pruning keeps exactly the newest 24 tasks and drops no active one |
| `TaskRunner.RestartIsGood` | internal/loadtest/runner.go:1305-1330 | After a restart nothing is active, every record is terminal and closed once, the newest 24 remain |
| `TaskRunner.RestartKeepsVerdicts` | internal/loadtest/runner.go:1306-1330 | A restart remembers the verdicts of the newest 24 saved tasks and no others, and turns what was running into a failure |
| `TaskRunner.OneActiveTask` | internal/loadtest/runner.go:173-183 | At any time at most one task is active, it is activeID, it is listed, at most 24 are listed, and a start succeeds exactly when none is active |
| `TaskRunner.ActiveIsNeverPruned` | internal/loadtest/runner.go:1380-1390 | No step of anybody removes an active record or changes its status, other than its own goroutine |
| `TaskRunner.ExitMeansSettled` | internal/loadtest/runner.go:545-676 | runTask has exited exactly when its task is not active: by then status terminal, Done closed exactly once, activeID cleared, for success, errors, cancel, timeout, clean-up failure and panic |
| `TaskRunner.FinalForever` | internal/loadtest/runner.go:1200-1216 | A terminal task never changes again; at most it is forgotten |
| `TaskRunner.StoppedMeansCancelled` | internal/loadtest/runner.go:845-851 | A task ends as stopped only if the user cancelled it; a timeout is a failure |
| `TaskRunner.VerdictHasItsReason` | internal/loadtest/runner.go:545-676 | A load test leaves as completed exactly when its results were collected, as stopped exactly when it left through a context that the user ended, and as failed exactly for errors, deadlines and panics |
| `TaskRunner.VerdictIsKept` | internal/loadtest/runner.go:1200-1238 | And the record ends with that verdict, whatever the clean-up does, except that a failed clean-up turns success into failure; Done is closed once and the lock freed |
| `TaskRunner.EndedContextDecides` | internal/loadtest/runner.go:845-851 | A waiting load test that the user stopped ends as stopped, one that ran into its deadline as failed |
| `TaskRunner.FirstReasonStands` | internal/loadtest/runner.go:489-516 | Only an active load test can be stopped or time out, and the first reason to end it stands |
| `TaskRunner.TaskStepsEnd` | internal/loadtest/runner_seckill.go:26-204 | Every non-waiting step of the wrk2 and stock-burst paths brings the goroutine closer to its exit |
| `TaskRunner.UndisturbedCompletes` | internal/loadtest/runner.go:545-676 | Undisturbed, both load paths go through reset, run and collection to completed, or to failed when the clean-up fails, and free the lock |
| `TaskRunner.Turn` | internal/loadtest/runner.go:545-676 | One step of a load test's goroutine on the shared runner object equals the step of the model, board and position |
| `TaskRunner.Serve` | internal/loadtest/runner.go:173-276 | Any run of requests, stops, timeouts and goroutine steps on one runner object ends as the pure run does, with at most one active load test, all others terminal and closed once, and at most 24 listed |
| `EventLog.TaskLog.PublishEvent` | internal/loadtest/runner.go:1268-1291 | Publishing in place: next id, the newest 180 kept, every channel offered the event without blocking |
| `EventLog.TaskLog.SubscribeFrom` | internal/loadtest/runner.go:518-532 | Subscribing in place: the replay is the retained events after the given id, and a new channel is registered |
| `EventLog.LastEventsAreRetained` | internal/loadtest/runner.go:1281-1284 | Over every run the log holds exactly the last min(n, 180) consecutive ids |
| `EventLog.SubscribersSeeEverything` | internal/loadtest/runner.go:518-543 | Replay followed by the channel is consecutive and duplicate-free up to the newest event until the first full-channel drop, and complete up to that drop afterwards |
| `EventLog.OnlyFullChannelsMiss` | internal/loadtest/runner.go:1285-1290 | A published event reaches every channel with fewer than 32 unread events and is lost exactly to the full ones |
| `EventLog.GoneUntilBack` | internal/loadtest/runner.go:535-541 | Who has left is served nothing more, over any run in which it does not subscribe again |
| `EventLog.SubscribersDoNotInterfere` | internal/loadtest/runner.go:1285-1290 | Over every run the log and the other subscribers are the same whether one subscriber reads, stalls, leaves or has never come |
| `EventLog.EventsCarryTheirMessages` | internal/loadtest/runner.go:1268-1291 | Over every run what the log retains and what any subscriber was given are the published messages under their ids |
| `EventLog.StartIsAsAskedUnlessAhead` | internal/loadtest/runner.go:525-530 | A subscriber starts at max(last + 1, oldest retained) exactly when `last` has been published; a client that names a later id is served from the next event on |
| `EventLog.Serve` | internal/loadtest/runner.go:1268-1291 | Any run of publishes, subscriptions, receives and cancellations on one log object ends as the pure run does: the newest events are retained and every subscriber has everything up to its first miss |
| `PurchaseTheorems.StepTakesOnce` | internal/database/purchase_experiment.go:240-281 | Reference behaviour: one step adds at most one order, under a new request id, and takes exactly its quantity |
| `PurchaseTheorems.RecoveryRequeues` | internal/database/purchase_experiment.go:318-333 | Reference behaviour: after recovery an event is claimable (pending or retry) exactly when it was not terminal; one that was publishing or published is in retry with one more attempt counted, the others stand |

## Left out

- OrderPrograms.ProcStep: the operations of the order service and the order ledger are programs with an explicit position rather than methods, because any other program may run between two of their statements; update in place is modelled for the scripts they call.
- OrderRuns.Step: the whole acquire transaction of the legacy MySQL mode is one atomic step; its gate, statistics and read path are not modelled, and its compensating cancellations after a failed lookup or send are those that a GiveUp of the row may run at any time.
- OrderRuns.WithReset: a reset is one step because its gate is exclusive; a failed one stops after any of its stages, with any subset of keys deleted or gifts rebuilt.
- OrderStock.NeverOversoldWithoutTwins: a sufficient condition on users, over the history of admissions; the exact one, per recovery, is SafeExactlyWhenRecoveriesCount.
- MySQLRoute.BooksBalanceWithoutTwins: a sufficient condition likewise; the exact one is that of MySQLNeverOversold.
- MySQLRoute.MySQLNeverOversold: the count column is not modelled because every insert writes 1.
- OrderTheorems.OwedCancellationIsUnacked: stated for numbered orders of the current run, because old messages carry no order number and expired or earlier-run admissions are no longer decided by messages.
- OrderTheorems.PayAndGiveUpExclude: for records without an order number it holds until the next reset, which deletes such records and lets the user start again.
- InventoryRecovery.RecoveryValue: needs a SCAN that returns no counted key twice; without that only the bound of RecoveryNeverOversells holds.
- InventoryRecovery.InitGiftInventory: a stored value that does not parse is skipped by the source and cannot occur here, since admissions are values; a failing Redis or MySQL call aborts recovery and is not modelled.
- OrderPrograms.DrawStep: after the grant every failure answers one code, where the source distinguishes the failed lookup; candidates come from outside.
- OrderReplies.PayAnswers: rows without an order number carry the empty identity, as in every coherent store.
- Draw.DrawGift: the snapshot of all stock keys is one read; the ledger part of a rollback is modelled in OrderPrograms; weights and the random point are reals, not floating point.
- PurchaseModel.Step: one material row, event ids derived from request ids as the only caller does, and no material mismatch; the mutex between a run and a reset is not assumed, so more schedules are covered than can happen.
- PurchaseTheorems.StaleCacheIsOwed: an entry set by a fill that read before a commit and wrote after it is exempt, because the source does not prevent it; the witness run shows that the exemption is needed.
- PurchaseTheorems.OutboxLifeCycle: the retry clock of an event is nondeterministic and its error text is not modelled.
- CacheFill.RebuildsMatchRemovals: the unprotected reader of the experiment and the prewarm are writers outside the protocol and excluded by its hypothesis.
- CacheFill.Step: on the negative path the preceding DTO lookup, a miss for the material that does not exist, is not modelled; neither are the experiment scope and its tokens.
- TokenBucket.AdmittedExactlyWithinEveryWindow: over the reals; floating-point rounding is not modelled.
- TaskRunner.Runner.Start: request validation, connection planning, logs, clocks and persistence to disk are not modelled; cache eviction only changes metrics.
- EventLog.TaskLog.PublishEvent: payload fields other than id and message are not modelled; the retained log restored from disk is taken as saved.
- Times and deadlines: expiry checks are nondeterministic outcomes; the first reading of the run key, which creates it, has happened.
- Row lookups by primary key are modelled as the user's row with that key, because rows of one activity are unique per user.
- Order status view, purchase progress view, trace recording, metrics counters and percentiles: they do not drive protocol state.
- HTTP handlers, router, cookies, event-stream transport, pages and scripts.
- RocketMQ, GORM, go-redis and wrk2 internals.
- Circuit breaker: not wired to any route.
- Catalogue seeding, schema migration, configuration and process control.
- Several application instances: gate, fill mutex and limiter are process-local by design.
- A crash between the Redis admission and the first message, and a paid admission whose ledger update failed: the source does not promise to close these gaps.
