# Wallet ledger model

A Dafny model of the multi-wallet payment ledger, of the pre-funded JIT wallets and circle hubs built on it, and of two
bounded-staleness mechanisms beside it.

The database is one state: the apps, the transactions table, the claims table of JIT wallets, and the settlement events
that are owed or published. A `Step` is one `db.Transaction` body, or one statement where the code uses none; `Next` is
what it leaves, with the conditions that are checked inside it; a `Run` is any interleaving of steps. `AppId` stands for
a wallet, amounts are in mloki, and the `uint64` and `int64` of the code are written out where they can wrap.

There are two layers.

- **Steps and runs.** What every interleaving keeps: `Settlement`, `Conservation`, `Solvency`, `JitClaims`,
  `JitSolvency`. A hypothesis on the environment (the node reports no fee above the reserve, nobody reuses an invoice
  hash) is a rule on single steps, and a theorem takes it along the run. `FailingRuns` holds a run from an empty database
  for each promise that fails without its condition.
- **Methods.** The services as imperative code on a shared `Store`: `TransactionsService`, `NodeEvents`, `HoldInvoice`,
  `JitHubService`, `JitHubApi`, `InternalTransfer`, `JitWallet`, `Reclaim`, `AppsService`, `CircleHubs`. Between two
  transactions of a method, `Interference` lets others take any steps. A ghost trace records which steps were the
  method's own, so that each method is proved to keep the same rules itself as long as everybody else does. For the slices of JIT wallets the
  circle is closed in `JitConcurrency`: goroutines that each guarantee their own steps, whenever the others have behaved
  so far, together keep the rules, whatever their number and interleaving; payers, node events, sweeps, transfers,
  reclaims and creations are shown to be such goroutines.

`Fees`, `Ledger`, `Admission` hold the arithmetic, the balance and budget queries and the admission check. `ConfigCache`,
`SocialRefresh` and `Slots` stand alone.

Where a promise does not hold of the code on all inputs, the model says exactly when it does:

- A self-payment balances the books exactly when both rows hold the same amount (`Conservation.SelfPaymentBalancesIff`);
  an amount override on a zero-amount invoice (`FailingRuns.OverrideUnbalances`), or a keysend preimage used twice at once
  (`FailingRuns.PreimageReuseUnbalances`), breaks it.
- A receipt of the same invoice through the node, while its payer here waits, leaves the books balanced exactly when
  nothing was paid (`Conservation.OutsideReceiptBalancesIff`, `FailingRuns.OutsideReceiptUnbalances`).
- An error from a payment means its row is FAILED, unless the node reported success without a preimage
  (`TransactionsService.SendPaymentSync`). A JIT slice given back in that case, and only in that case, may be paid to the
  next claimer as well (`JitHubService.GiveBackIsSafeIff`, `FailingRuns.GivenBackSliceIsClaimedAgain`).
- A FAILED payment of a slice that settles late lets the slice be paid once more exactly when it is no longer held for
  that payment, unless it has been removed and its sweep has failed (`JitClaims.LateSettlementIsSafeIff`). Any late
  settlement leaves a wallet solvent exactly when the committed balance covers it
  (`Solvency.SettlementStaysSolventIff`); after a retry it does not (`FailingRuns.LateSettlementOverdraws`).
- What the agreement of payer and recipient of a hold invoice rests on, that a committed cancellation stands, survives a
  settlement exactly when that invoice has not been cancelled (`HoldInvoice.CancellationsStandIff`); otherwise the two
  disagree (`HoldInvoice.OverlapDisagrees`).
- Recipients of a JIT wallet are compared as text, so one key in two letter cases passes twice, although the error
  message speaks of lowercase hex; distinct text means distinct keys exactly up to letter case (`JitWallet.SameKeyIff`,
  `JitWallet.OneKeyTwice`).
- The balance check adds amount, skim and reserve in `uint64`; where that wraps it is right exactly while what remains
  still exceeds the balance (`Admission.BalanceCheckIsRightIff`).
- The skim formula is the exact floor precisely when the product fits `uint64` (`Fees.SkimExactIffNoWrap`).
- The config cache is keyed by a hash of the unlock password; it is right for injective hashes, and a collision serves a
  value to the wrong password (`ConfigCache.CollisionServesWrongPassword`).

Where the comments and the code differ, the model follows the code: the removal of a slice is described as sweeping its
amount before the row is deleted (api/api.go:3060-3070, apps/jit_hub_service.go:184-186), but the row is deleted first and
swept afterwards, so that a failed sweep leaves the money in the wallet without a slice
(`JitHubService.DeleteJITWalletClaim`).

## Model

| member | source | states |
|---|---|---|
| Fees.CalculateFeeReserveMloki | transactions/transactions_service.go:1500-1509 | the reserve is at least 10000 mloki and at least 1%, and no more than 1% rounded up when above that minimum |
| Fees.SkimExactIffNoWrap | transactions/transactions_service.go:1511-1516 | the uint64 skim is the exact floor of amount * ppm / 1000000 if and only if the product does not wrap |
| Fees.SkimAtMostAmount | apps/circle_hub_service.go:42-44 | with a rate inside the enforced bounds a skim never exceeds the payment, even when the product wraps |
| Fees.SkimMonotone | transactions/transactions_service.go:1511-1516 | a larger payment is never skimmed less |
| Fees.SplitPaymentSkim | transactions/transactions_service.go:1511-1516 | paying in n parts costs the hub at most n - 1 mloki of its cut and never earns it more |
| Fees.SplitLossIsReached | transactions/transactions_service.go:1511-1516 | that loss is reached for every n up to a million |
| Admission.HeadroomIsNeed | transactions/transactions_service.go:1433-1436 | the uint64 sum of amount, skim and charged reserve is the integer sum if and only if that fits |
| Admission.EarlyRefusals | transactions/transactions_service.go:426-449 | the first four of these reasons decide so for all amounts: an invoice with a settled payment, one with a pending payment and no settled one, an unknown app, an app without the scope |
| Admission.RefusedForFirstReason | transactions/transactions_service.go:426-496 | while uint64 holds the sums, a payment is refused for the first of seven reasons, each said on the rows and the app alone (paid, being paid, no such app, no scope, balance, budget, partial spend of a JIT wallet), and admitted as a pending row with the exact skim and reserve if and only if there is none; payments without an app and of standard apps included |
| Admission.BalanceCheckIsRightIff | transactions/transactions_service.go:1433-1466 | where the sum wraps, the balance check is right if and only if what the wrap leaves still exceeds the balance or 2^63 - 1; otherwise it admits a payment that no balance covers |
| Admission.ClearedIff | transactions/transactions_service.go:1357-1498 | an isolated wallet may pay if and only if it has the scope (or transfers internally), the balance covers amount, skim and charged reserve, and the budget covers the same in whole loki |
| Admission.ReclaimAlwaysAdmitted | transactions/transactions_service.go:1335-1343 | an internal transfer of at most the balance, of an invoice that is not paid or being paid, is admitted whatever the budget, the scope, the full-drain rule and the hub's fee say |
| Ledger.BalanceWithRow | db/queries/get_isolated_balance.go:8-24 | one more row changes the balance of its own app alone, by plus the amount if it is a settled receipt, and by minus amount, fee, reserve and skim if it is a settled or pending payment |
| Ledger.UsageWithRow | db/queries/get_budget_usage.go:11-20 | one more row adds to the usage of its own app alone, and only if it is a settled or pending payment made after the start of the period; the usage is the sum in whole loki |
| Settlement.StepAllowed | transactions/transactions_service.go:980-1151 | every step changes the table in one of four ways: a pending insert or an unknown receipt, an unsettled update, a first settlement of its hash, or one together with the hub credit it earns |
| Settlement.SettledIsFinal | transactions/transactions_service.go:1937-1946 | over any run no row is lost or changes identity, and a SETTLED row never changes again |
| Settlement.SweepReleases | transactions/transactions_service.go:966-976 | the sweeper changes the status of a pending payment and nothing else, which gives its wallet back exactly what the row held; any other row it leaves alone |
| Settlement.RunKeepsCoherent | transactions/transactions_service.go:1751-1814 | the settlement invariants hold after any run that starts with them |
| Settlement.SettlesExactlyOnce | transactions/transactions_service.go:1761-1773 | from an empty database, under any interleaving: one settled row per direction and hash, one announcement per settled payment and none of an unsettled one, one hub credit per skimmed payment and none besides |
| Settlement.HubEarnsItsSkims | transactions/transactions_service.go:1822-1868 | after any run a hub's fee credits add up to exactly the skims on the settled payments of its children |
| Settlement.HubEarnsItsFloors | transactions/transactions_service.go:1420-1431 | over any run at one rate those credits are the fee formula's cut of each settled payment that a child circle wallet sent out of the instance, and nothing else |
| Settlement.HubEarnsItsShare | transactions/transactions_service.go:1511-1516 | so, while uint64 holds the products, a hub earns its rate of what its wallets paid out, never more and at most one mloki per payment less |
| Solvency.IsolatedWalletStaysSolvent | transactions/transactions_service.go:1437-1466 | over any run in which settlements cost no more than was charged, an isolated wallet's committed balance is never negative |
| Solvency.ShownBalanceBound | transactions/transactions_service.go:1433-1436 | the balance shown by the query is below zero by at most the reserves that the check did not charge |
| Solvency.SettlementStaysSolventIff | transactions/transactions_service.go:1107-1117 | any settlement, a late one of a FAILED row included, leaves the wallet solvent if and only if the committed balance covers what it takes beyond its reservation |
| Solvency.BudgetNeverOverspent | transactions/transactions_service.go:1468-1495 | over a whole budget period usage never exceeds the cap by more than 1998 mloki |
| Solvency.BudgetSlackIsReached | db/queries/get_budget_usage.go:11-20 | those 1998 mloki are reached from every unspent budget by two settled payments: the bound is exact |
| Conservation.StepKeepsBooks | transactions/transactions_service.go:1235-1277 | a step that obeys the bookkeeping rules keeps the books: one invoice per hash, settled self-payments received, and money balanced |
| Conservation.BooksStayBalanced | transactions/transactions_service.go:407-588 | so does any run of such steps |
| Conservation.SelfPaymentBalancesIff | transactions/transactions_service.go:421-424 | completing a self-payment keeps the books balanced if and only if payer and recipient rows hold the same amount |
| Conservation.OutsideReceiptBalancesIff | transactions/transactions_service.go:1279-1315 | if the recipient was paid through the node instead, while the payer here waited, booking the payer's row keeps the books balanced if and only if its amount is 0 |
| FailingRuns.OverrideUnbalances | transactions/transactions_service.go:407-424 | for every positive amount, a run from an empty database that ends with the override paid, nothing received and the books unbalanced |
| FailingRuns.PreimageReuseUnbalances | transactions/transactions_service.go:680-713 | for any two different amounts, a run of two keysends with one preimage that ends with the second amount paid, the first received and the books unbalanced |
| FailingRuns.OutsideReceiptUnbalances | transactions/transactions_service.go:1299-1311 | for every positive amount, a run in which a waiting payer is woken by a receipt through the node and the books end unbalanced |
| FailingRuns.LateSettlementOverdraws | transactions/transactions_service.go:1107-1117 | for every amount above the smallest reserve, a run in which a payment that was reported failed and made again settles late and overdraws its isolated wallet |
| FailingRuns.GivenBackSliceIsClaimedAgain | nip47/controllers/claim_funds_controller.go:217-222 | a run in which a success without a preimage gives the slice back while its payout is PENDING, and the next claim is paid too |
| Conservation.NetIsSumOverWallets | db/queries/get_isolated_balance.go:8-24 | the net over all rows is the sum over the wallets and the rows without an app |
| Conservation.MoneyIsConserved | transactions/transactions_service.go:1822-1857 | after any such run with no self-payment in flight, receipts through the node of invoices that were also tried here included, all wallets together hold exactly what was received from outside minus what was sent outside, fees included: skims and internal transfers cancel out |
| Conservation.IdleBalanceIsNet | db/queries/get_isolated_balance.go:8-24 | a wallet with nothing pending shows its net holdings as its balance |
| Threads.TraceIsRun | transactions/transactions_service.go:74-79 | a trace whose own moves and whose other moves keep a rule is a run along that rule |
| TransactionsService.InsertOutgoing | transactions/transactions_service.go:426-496 | the inserting transaction is one step; it reports the new row's id, or the first reason to refuse, said without the check itself |
| TransactionsService.MakeInvoice | transactions/transactions_service.go:296-317 | inserts the recipient's pending row |
| TransactionsService.MarkTransactionSettled | transactions/transactions_service.go:1751-1810 | one settlement step; reports a settlement exactly when it took effect, and changes nothing without a preimage |
| TransactionsService.CreditCircleHubFeeSkim | transactions/transactions_service.go:1822-1857 | credits the parent hub with one settled receipt of exactly the skim, nobody without a parent, and fails without the paying app |
| TransactionsService.MarkPaymentFailed | transactions/transactions_service.go:1921-1966 | fails a row exactly when it is neither FAILED nor SETTLED |
| TransactionsService.SettlementStands | transactions/transactions_service.go:1761-1773 | after a settlement attempt the hash is settled, whoever settled it |
| TransactionsService.AwaitHoldUpdate | transactions/hold_invoice_self_payment_consumer.go:24-31 | answers with the first published settlement or cancellation of its hash at or after the registration, and waits exactly while there is none |
| TransactionsService.MarkHoldInvoiceAccepted | transactions/transactions_service.go:1182-1233 | one pending invoice of the hash, if there is one, ends ACCEPTED as a self-payment and no other row changes; announces no settlement or cancellation |
| TransactionsService.WokenMeansReceived | transactions/transactions_service.go:1301-1312 | a payer released by a settlement has reached its recipient, the only one of its hash while the books are kept; whether it was paid inside or through the node is in the row's flag |
| TransactionsService.InterceptSelfHoldPayment | transactions/transactions_service.go:1279-1317 | success only after a settlement of this hash, failure only after its cancellation or exactly without node info, in either case published since the call began; whoever waits has accepted the invoice; on success the recipient is settled, and waiting means that a hold invoice bears the hash |
| TransactionsService.InterceptSelfPayment | transactions/transactions_service.go:1235-1277 | lookup and settlement with interference in between: a success has fee 0 and means that the recipient's row is settled; a failure has settled nothing; a pending plain invoice with a known preimage always succeeds, a hold invoice is always waited for given node info, and without anything to pay it always fails; whatever is settled is announced |
| TransactionsService.Conclude | transactions/transactions_service.go:523-587 | the caller is told an error only if its row is FAILED or the success had no preimage, and a success only if the hash is settled; a reply without preimage is always an error; the own row is settled with the fee of the reply, and announced |
| TransactionsService.Dispatch | transactions/transactions_service.go:516-587 | from the inserted row to the answer the payer settles, fails and accepts rows of its own hash only, books the fee that the node reported, or none inside this instance, announces what it settles, and keeps the books if others do |
| TransactionsService.SendPaymentSync | transactions/transactions_service.go:374-588 | under any interference: refused for the first reason there is, and whenever there is one, said on the rows and the app without the check itself; an error means the own row is FAILED (or a success had no preimage), a success means the hash is settled, and a node success with a preimage is always a success, booked with the reported fee; an invoice of this instance fails only if it could not be paid when the payer looked; every settlement is announced; while others keep the books, the amount is the invoice's and the invoice is not paid through the node, so does this call |
| TransactionsService.SendKeysend | transactions/transactions_service.go:590-767 | the same for keysend, hold outcomes and missing node info included, without duplicate checks and settling with its own preimage, so that every error means a FAILED row; a keysend to this instance makes the recipient's invoice of the same amount and pays it, and keeps the books if no recipient row uses its hash yet |
| NodeEvents.OnPaymentReceived | transactions/transactions_service.go:982-1071 | a receipt with a preimage settles an invoice of its hash, with the reported fee, unless one is settled already, or is booked as a new row with the reported amount, fee and app if there is no invoice; without one nothing changes |
| NodeEvents.OnPaymentSent | transactions/transactions_service.go:1085-1150 | a sent payment with a preimage settles a row with the reported fee if and only if there is one to settle and the hash is not settled: a PENDING row, and a FAILED one only if none is pending |
| NodeEvents.OnPaymentFailed | transactions/transactions_service.go:1152-1178 | a failure settles nothing; a row that was pending ends FAILED unless somebody settles that row in between; without one nothing changes |
| NodeEvents.OnHoldInvoiceAccepted | transactions/transactions_service.go:1073-1083 | accepts one pending invoice as an external payment if there is a settle deadline, and changes nothing otherwise |
| NodeEvents.ConsumeEvent | transactions/transactions_service.go:980-1180 | every event has the answer of its kind, as in the four rows above; it is a sequence of protocol steps that keeps the invariants, writes rows of its own hash only, no slice and no app, and announces what it settles; SETTLED stays final |
| HoldInvoice.PayerAndRecipientAgree | transactions/transactions_service.go:1279-1315 | with settling and cancelling serialised, no sweep and no external payment, a payer that waited ends SETTLED if and only if the recipient does and FAILED if and only if it was cancelled |
| HoldInvoice.CancellationsStandIff | transactions/transactions_service.go:1605-1660 | a settlement of the recipient's row keeps what the agreement rests on, that every committed cancellation of the hash stands, if and only if no cancellation of that row has been committed |
| HoldInvoice.OverlapDisagrees | transactions/transactions_service.go:1662-1729 | in every state with a waiting payer, a cancellation during a settlement ends with the payer FAILED and the recipient SETTLED |
| HoldInvoice.SettleHoldInvoice | transactions/transactions_service.go:1605-1660 | not accepted if and only if no accepted invoice bears the hash; stopped by the node only if it refused an invoice paid through it, and then always if the accepted invoices of the hash are of one kind; not done only if the hash was settled by others before; otherwise done: an accepted row is settled at no fee with its own flag, and announced; writes rows of the hash only; keeps the discipline as long as others leave the accepted row alone |
| HoldInvoice.CancelHoldInvoice | transactions/transactions_service.go:1662-1729 | stopped by the node only if it refused an invoice paid through it, and then always if the accepted invoices of the hash are of one kind; otherwise done as long as others leave the accepted row alone, and then announced; writes rows of the hash only; keeps the discipline unconditionally, since the row is looked up again |
| JitClaims.StepKeepsSlicesSound | apps/jit_hub_service.go:150-216 | a step that obeys the claim rules keeps the link between slices and payments |
| JitClaims.RunKeepsSlicesSound | apps/jit_hub_service.go:150-216 | so does any run of such steps |
| JitClaims.SliceSafety | nip47/controllers/claim_funds_controller.go:174-228 | in every interleaving, reclaims and other payments of the wallet included, at most one payment of a slice is out or settled, be it a payout or a sweep, of exactly the slice's amount from its wallet, and the slice is then no longer claimable |
| JitClaims.LateSettlementIsSafeIff | transactions/transactions_service.go:1107-1117 | a payment of a slice that settles after it failed keeps the link between slices and payments if and only if the slice is still held for it; by goroutines that act on what they know the slice then comes to be paid twice if and only if it is not held and not a removed one whose sweep has failed |
| JitClaims.GivenBackSliceIsPaidTwice | apps/jit_hub_service.go:177-182 | otherwise the next claimer is paid as well: two payments of one slice |
| JitSolvency.PaidIsCovered | db/queries/get_isolated_balance.go:8-24 | the live payments of a JIT wallet add up to exactly its slices that have a payment |
| JitSolvency.OutstandingIsOpen | apps/jit_hub_service.go:150-182 | unclaimed, claimed but unpaid, and removed but unswept slices are exactly the slices without a payment |
| JitSolvency.JitWalletIsSolvent | jitwallet/create.go:343-378 | after any run along the claim rules: balance + fees paid + reserves held + other payments such as a reclaim = unclaimed + unpaid + unswept slices (+ whatever was paid in beyond the slices) |
| JitSolvency.UnreclaimedWalletIsSolvent | jitwallet/create.go:343-378 | while nothing but slices is being paid from the wallet, the term for other payments is 0 |
| JitSolvency.CreatedWalletIsSolvent | jitwallet/create.go:343-378 | end to end: from a created wallet, which holds exactly its slices, as long as nobody adds slices or pays in, balance + fees + reserves + other payments = unclaimed + unpaid + unswept slices |
| JitSolvency.FundedStaysFunded | jitwallet/create.go:289-301 | once its slices exist, a wallet's receipts minus its slices never shrink |
| JitSolvency.SliceIsCoveredIff | transactions/transactions_service.go:1437-1466 | a payout or sweep passes the balance check if and only if the fees, the reserves and the other payments so far are covered by the other open slices and the surplus |
| JitSolvency.EverySliceIsPayable | transactions/transactions_service.go:1468-1495 | while earlier payments were for slices, cost no fee and none is pending, every claimed slice, also on a retry of an invoice whose payout failed, passes balance, budget and full-drain checks, by superadditivity of the floor over the whole history |
| JitWallet.EveryRecipientIsPaid | jitwallet/create.go:277-378 | end to end: from a wallet that Commit reports created, along any run that keeps the slices and leaves its cap, scope and recipients alone, the recipients and amounts are those asked for, and under those conditions every claimed slice is admitted for payment |
| JitSolvency.EveryRemovedSliceIsSweepable | transactions/transactions_service.go:1335-1343 | under the same conditions every removed slice can be swept back to the hub, whatever budget and scope say |
| JitHubService.ClaimJITWalletSlice | apps/jit_hub_service.go:150-171 | read and conditional write with interference in between: success means this goroutine alone holds the slice, unpaid, of the amount it read; failure means that none was unclaimed, or that one was and has been taken |
| JitHubService.UnclaimJITWalletSlice | apps/jit_hub_service.go:177-182 | gives back the claimed slice of the identity, if there is one |
| JitHubService.GiveBack | nip47/controllers/claim_funds_controller.go:217-222 | the identity finds the holder's own slice, and giving it back with nothing out keeps the slices sound |
| JitHubService.GiveBackIsSafeIff | nip47/controllers/claim_funds_controller.go:217-222 | giving a slice back keeps the link between slices and payments if and only if no payout of it is pending or settled; otherwise, and only then, goroutines that act on what they know pay it twice |
| JitHubService.CallKeepsSlices | transactions/transactions_service.go:374-588 | paying a held slice keeps the slices whatever others do, and after an error nothing of the payment is out |
| JitHubService.ClaimFunds | nip47/controllers/claim_funds_controller.go:110-235 | the whole claim guarantees its own steps while others keep the slices: a reported payout left the slice claimed with the invoice settled, a reported failure left it unclaimed with nothing out; a rejected proof changes nothing; no slice is refused while it is available, and no outcome after the amount check without having tried to pay exactly the slice; an invoice of somebody outside that the node pays fails only if the check refused it; it asks for no other payment and otherwise writes rows of its invoice and its own claim only |
| JitConcurrency.TogetherTheyKeep | apps/jit_hub_service.go:145-195 | any number of goroutines that each guarantee their own steps, while the others have behaved so far, together keep the claim rules in every interleaving |
| JitConcurrency.ConcurrentClaimsAreSafe | apps/jit_hub_service.go:145-195 | so across any number of concurrent claimers, unclaimers and removers each slice is paid out or swept at most once, never both, provided no FAILED payout settles late |
| JitConcurrency.BystanderGuarantees | jitwallet/create.go:288-402 | a goroutine that neither takes nor pays slices, though it may add those of a JIT wallet, guarantees its steps: payers, node events, hold invoices, transfers, reclaims and creations among them |
| JitConcurrency.BystanderInRun | jitwallet/create.go:288-402 | a call that neither takes nor pays slices from the state it starts in does so inside any longer run |
| JitConcurrency.SystemIsSafe | apps/jit_hub_service.go:145-195 | so the same safety holds with any number of such goroutines beside the claimants |
| JitConcurrency.CallInRun | nip47/controllers/claim_funds_controller.go:110-235 | what ClaimFunds and DeleteJITWalletClaim guarantee from any sound state they guarantee inside any longer run |
| JitHubService.RemoveClaim | apps/jit_hub_service.go:196-217 | success means this goroutine alone took the slice out, unclaimed and unpaid; not found if and only if the wallet has no such row, and refused only if the row is no longer unclaimed |
| JitHubService.DeleteJITWalletClaim | api/api.go:3071-3108 | refused if and only if the wallet is no child of the hub, or as the removal is; a removed slice is swept at most once and never claimed, and only a slice of amount 0 is not swept; undisturbed, a completed sweep has moved exactly the slice from the wallet to the hub, any other outcome nothing, and no sweep stays open; it writes no other payment, slice or app |
| JitHubApi.DeleteJITWalletClaim | api/api.go:3071-3120 | the whole call: the wallet is reclaimed if and only if its slice was taken out and swept and every slice was gone when they were listed; nothing is ever written off; undisturbed, against the start of the call the hub's balance has grown by exactly the slice and the positive balance that was left, the wallet has lost it and nobody else's balance has moved; a failed removal or sweep reclaims nothing |
| InternalTransfer.Transfer | service/jit_cleanup_service.go:171-190 | invoice and payment, undisturbed: done or not, nothing in between; done, sender and recipient have one settled row each of exactly the amount and nothing else bears the hash; not done, no row of the hash counts; a sender that can afford it is never refused, with a preimage it is always done; every wallet that others leave alone has moved by exactly this transfer, against the start of the call; writes no other row, slice or app |
| InternalTransfer.TransferFunds | api/transactions.go:159-192 | refused if and only if an end is missing, a standard app, a JIT wallet or a circle wallet; otherwise as Transfer, the balances of both ends and of everybody else included |
| InternalTransfer.TransferMoves | transactions/transactions_service.go:1235-1277 | whoever keeps to the rows of the hash has, with a completed transfer, changed each wallet that others left alone by minus the amount, plus the amount or nothing, and with an unpaid one nobody |
| InternalTransfer.TransferMovesAmount | transactions/transactions_service.go:1235-1277 | the rows of a completed transfer are worth minus the amount to the sender, plus the amount to the recipient and nothing to anybody else |
| InternalTransfer.UntouchedMovesNothing | transactions/transactions_service.go:523-537 | a failed transfer is worth nothing to anybody |
| InternalTransfer.RestStays | db/queries/get_isolated_balance.go:8-24 | over a transfer that others do not disturb, a wallet changes by the transfer's own rows alone |
| JitWallet.SameKeyIff | jitwallet/create.go:188-191 | two accepted identity values decode to the same key if and only if they are equal up to letter case |
| JitWallet.OneKeyTwice | jitwallet/create.go:192-196 | a key in two letter cases passes as two distinct recipients |
| JitWallet.EveryKeyIsAccepted | jitwallet/create.go:188-191 | any 32 bytes have an accepted hex encoding, which decodes to them |
| JitWallet.AcceptedIsEncoding | jitwallet/create.go:188-191 | every accepted value, in lowercase, is the hex encoding of what it decodes to |
| JitWallet.DedupeKeyIsInjective | jitwallet/create.go:192-196 | the concatenated key of the duplicate check tells exactly the (type, value) pairs apart |
| JitWallet.DistinctKeysIfLowercase | jitwallet/create.go:188-196 | recipients of one type name distinct keys if and only if their values differ beyond letter case, so always if all are lowercase |
| JitWallet.SumRecipients | jitwallet/create.go:180-243 | the uint64 loop accepts if and only if all recipients are well formed, pairwise distinct and sum, over the integers, to at most 2^63 - 1; it then returns that sum; a refusal names the first recipient that is wrong, and how |
| JitWallet.Resolve | jitwallet/create.go:151-264 | accepts if and only if, in addition, hub kind, count, expiry, wallet cap and hub balance allow it; a refusal names the first of these that does not, or the first wrong recipient |
| JitWallet.CreateJITWalletClaims | apps/jit_hub_service.go:82-94 | stores exactly one unclaimed row per share, or nothing; accepts if and only if there are 1 to 100 shares, nobody is named twice and nobody is a recipient already, removed ones excepted |
| JitWallet.Commit | jitwallet/create.go:288-402 | all or nothing under interference, without a third outcome when undisturbed, and created whenever the hub can pay and its keys and invoice are in order, and never without them: created, the child exists under its hub with the claim scope and a cap of the total in whole loki, its slices are exactly the recipients with their amounts, and against the start of the call the hub has lost exactly the total to it; rolled back, no child, no slices, and nobody's balance has moved; it writes one app, one batch of slices and rows of its own invoice only |
| JitWallet.SlicesStored | apps/jit_hub_service.go:82-94 | from the insert on, the recipients and amounts of the wallet's rows are those that were stored, whatever others claim, give back or remove |
| JitWallet.FundedByTransfer | jitwallet/create.go:343-378 | a created wallet is funded exactly: its surplus in the solvency equation is what else it has received, 0 if nothing |
| JitWallet.Create | jitwallet/create.go:409-415 | one creation at a time per hub; invalid if and only if Resolve refuses; an accepted request ends as Commit does, with the child created if nobody disturbs it or moves the hub; the slot is always freed |
| Slots.Slots.TryTake | jitwallet/create.go:61-66 | a slot has at most one holder, and is taken exactly when it was free |
| Slots.Slots.Release | jitwallet/create.go:65-65 | only the holder frees the slot |
| Reclaim.ReclaimPassesCheck | service/jit_cleanup_service.go:180-184 | the whole positive balance passes the admission check, whatever others did since it was read, if they left the balance alone |
| Reclaim.BalanceAfterTransfer | service/jit_cleanup_service.go:150-190 | a completed sweep has lowered the wallet's balance by exactly the amount, a failed one has left it as it was |
| Reclaim.ReclaimAndDeleteSubWallet | service/jit_cleanup_service.go:125-203 | only the holder of the slot sweeps, and never while a receipt of the wallet is pending; the balance is written off if and only if the hub is gone and there is one; undisturbed, a live hub's balance has grown by exactly the positive balance of the child, the child is deleted, every other balance is as before, and the ledger total has changed by exactly what was written off or forgiven; a failed sweep frees the slot and changes no balance, the parent's included; it writes rows of its invoice only; undisturbed, no sweep is left under way, and with invoice, preimage and an int64 balance none fails |
| Reclaim.AnswerIsBooked | service/jit_cleanup_service.go:150-203 | what an outcome says about the rows is what it says about the balances and the ledger total, relative to the state the call found |
| Reclaim.DeletionChangesTotal | service/jit_cleanup_service.go:194-196 | the ledger total changes by exactly the negative part of the balance, or by the whole balance if it is written off |
| AppsService.CreateApp | apps/apps_service.go:331-405 | succeeds if and only if the parent, if any, exists and is the hub its parent kind names |
| AppsService.DeleteApp | apps/apps_service.go:407-472 | an app is deleted if and only if it is no hub with a child of its own kind of parent; payments and slices go with the app |
| AppsService.ForestStaysIntact | apps/apps_service.go:379-472 | in every reachable state every parent exists, is the right kind of hub and has no parent itself |
| AppsService.DeletionTakesItsBalance | db/models.go:289-289 | deleting an app takes exactly its balance out of the ledger and leaves every other balance |
| AppsService.CascadeIsExact | db/models.go:289-289 | the cascade removes every payment of the deleted apps, keeps every other one, and keeps their order |
| AppsService.DeletionTakesBalances | db/models.go:289-289 | deleting several apps takes exactly the sum of their balances |
| AppsService.DeleteCircleHub | api/api.go:2890-2949 | partitions the circle children into deleted and skipped; empty-only skips exactly those with a balance; on the tables, exactly the deleted children and, if and only if nobody is skipped, the hub are gone, with exactly their payments and slices, and every other app, payment and slice is as before |
| AppsService.EmptyChildrenHoldNothing | api/api.go:2922-2936 | deleting the empty children changes no ledger total |
| CircleHubs.CircleHubs.CreateCircleHub | apps/circle_hub_service.go:35-85 | stores a hub if and only if its configuration is valid and all saves succeed, with an omitted renewal set to monthly; otherwise nothing is left and the error says which |
| CircleHubs.CircleHubs.UpdateCircleHubConfig | apps/circle_hub_service.go:95-134 | succeeds if and only if all given fields are valid and the app has a configuration, or none is given; changes exactly the given fields or nothing; every stored rate stays within 0 and 1000000 ppm |
| CircleHubs.SkimsAreFair | apps/circle_hub_service.go:104-108 | under stored rates no payment is skimmed by more than itself, and by exactly the floor while uint64 holds the product |
| ConfigCache.CacheAgrees | config/config.go:254-319 | in every interleaving a cached value differs from an uncached read only while its key is being set |
| ConfigCache.GetIsCurrent | config/config.go:254-278 | a Get that starts while nobody sets its key answers the current row |
| ConfigCache.StaleWhileBeingSet | config/config.go:298-319 | during a set the old value may be served: the bound is exact |
| ConfigCache.CollisionServesWrongPassword | config/config.go:243-252 | passwords with colliding hashes are served each other's values |
| ConfigCache.ReadUnseals | config/config.go:280-296 | a read fails exactly for an encrypted, non-empty value that the given password does not unseal, and answers the row as stored without a password or for a value not marked as encrypted |
| ConfigCache.WriteIsReadBack | config/config.go:298-319 | a write touches its own key alone; SetIgnore keeps an existing row; any other write is read back with its password, and sealed with no other |
| ConfigCache.Config.Get | config/config.go:254-278 | with rows written under it, answers the cached value or the row, caches what it answers, and is current if its key is not being set |
| ConfigCache.Config.Set | config/config.go:298-319 | leaves the key uncached and the cache in agreement, also when the row is left alone |
| SocialRefresh.RunSocialCacheRefresh | service/nostr_social_cache.go:523-566 | a tick refreshes each identity with a pubkey in its window exactly once and resumes 2000 further on, or at 0 past the end; a failure restarts at 0 |
| SocialRefresh.OffsetsCycle | service/nostr_social_cache.go:513-522 | on a stable table the offsets cycle with period floor(N / 2000) + 1 ticks, for every N |
| SocialRefresh.RefreshedIff | service/nostr_social_cache.go:513-522 | a tick covers an identity if and only if it is in the identity's phase |
| SocialRefresh.OncePerPeriod | service/nostr_social_cache.go:513-522 | from any tick on, each identity with a pubkey is refreshed exactly once in the next period |

## Left out

- The Lightning node, gRPC, bolt11 and TLV decoding, Nostr and NIP-47: the node's replies and events are parameters.
- Hashes and keys: a payment hash is an abstract value, and the hash of a fee credit is an injective constructor.
- The float64 rounding of the fee reserve: it is 1% rounded up over the integers.
- Database failures, other than the explicit rollbacks, and the PostgreSQL locks: one transaction is one atomic step.
- Deleting an app is not a step of a run: it ends the methods that do it, and the model does not renumber the events that name rows of the remaining table.
- SweepStalePendingOutgoing and the polling of unsettled transactions are steps of a run, not methods; the sweeper's second read and its write are one step.
- NodeEvents.OnPaymentSent: does not model which of several FAILED rows of a hash was updated last; the first one stands for it.
- JitHubService.ClaimFunds: does not model the verification of the identity proof; its result is a parameter.
- AppsService.DeleteCircleHub: does not model the refusal of an unknown mode; the mode is a flag.
- The periodic cleanup (runJITCleanup) calls the modelled reclaim in bounded batches; only the reclaim is modelled.
- TransactionsService.SendPaymentSync: keeping the books is proved for a whole call against what others do over the whole call; closing the circle over all goroutines is done for the slices only.
- Waiting forever: a payer of a hold invoice that nobody settles or cancels is reported as still waiting.
- ChangeUnlockPassword, and reads that fail for other reasons than decryption, in the config cache.
- The concurrency of relay requests within a batch of the refresher, and the contents of its caches.
- Listing, paging, previews, settings, swaps, liquidity management, HTTP and desktop handlers.
