# FiberNuts: proofs about four money machines

This project models the parts of FiberNuts that move value and proves what they keep over whole
runs, with lost answers, crashes and arbitrary interleavings. To verify it, run
`dafny verify dfyconfig.toml` with Dafny 4.11.

**The crash-safe ecash ledger** (`Ecash`, `MintLedger`, `Market*`). A market application keeps one
snapshot: spendable proofs, attendee payments, vendor orders, add-cash and cash-out records. The
runtime commits before each remote call and after it. `MarketSteps` gives each piece of code between
two awaits as a step on a world that holds the snapshot, the operation in flight and the mint.
`MarketRuns` lets these steps, moves of the mint and of other people, and the death of the tab
interleave freely. Each remote call may be applied and answered, applied without an answer, or not
applied. `MarketInvariant` is the invariant; `MarketFrames` to `MarketHistory` show that every step
keeps it, and `MarketTheorems` and `MarketOutcomes` state what follows for every run.
`MarketSafety`, `MarketQuotes` and `MarketFrozen` are about cash-outs that share a melt quote,
`MarketChoices` about retries of a payment, and `MarketExamples` holds runs from an empty wallet.
Two parts of the world only keep account: `tags` gives every secret one owner, and `books` adds up
whose value moved where. `MarketRuntime` and `MarketStorage` are the object and the validator
themselves, in place: the object's fields are those of the run it has made, and every commit goes
through the validator's loops. Each method of the object is one step of the machine, or for an
answered delivery two; it states the stored record and the next operation outright, and says how
many of its commits the validator refuses: none, but for the exact cases listed below.
`MarketProgress` is about what the next calls always achieve.

**The delivery slot protocol** (`CanonicalJson*`, `Relay*`, `Settlements`, `SettlementExamples`).
Every store method of the relay is one step on its table; the class `RelayStore` performs these
steps in place. Runs are sequences of operations with a clock that never runs backwards.
`RelayProofs` says what a slot keeps over a run, `RelayAnswers` what each operation answers and
stores at every moment of one. `Settlements` runs an attendee's market, the relay and a vendor's
market side by side: the attendee posts the payload it has stored, and the vendor reads what the
relay answers.

**The faucet** (`Faucet*`). Claims and the background pass are processes that stop at every await,
over one table of claims and one lock per quote; a restart loses them. `FaucetStore` and
`FaucetService` are the two classes in place, and `FaucetAnswers` gives the outcome of every step.

**The mint adapter** (`Fiber*`, `ScriptCodec`, `Restore`). Directed rounding with 64- and 128-bit
bounds, melts split at each answer of the node, retried and checked, with a log of what the node
reported and the outcome of every call in `FiberAnswers`, the polling loop and the invoice sweep,
the packed script decoder of the mint and of the faucet, and the restoring of signatures.

## How to read the main results

- *Every run.* The results about the ledger hold after every run of the machine, unless the row
  names a guard. Where the code can lose coins, the loss has a place in the account: a coin that a
  record releases without paying it in is given to the owner `Lost`.
- *What each operation does.* Beside the laws over runs there is for every operation a table of all
  its cases, in terms of the stored record, the clock and the answer it got: `RelayAnswers`,
  `FaucetAnswers`, `FiberAnswers`, and the methods of `MarketRuntime` and `SweepInvoices`.
- *Nothing stored gets stuck.* `MarketProgress` shows for every reachable wallet at rest that a
  stored swap or token of an order, a stored payment whose request is still accepted, and a paid
  charge can be completed by the next calls, and what exactly then comes in. `PaidMeltSettles` does
  the same for a melt whose payment has gone through.
- *Where the value is.* `Conservation` equates, after every run, the value in the spendable set, in
  stored swaps, reservations and signed but uncredited outputs, and in lost coins, with what the
  mint issued and others sent, less what went to vendors, was melted or paid in fees.
  `CreditAtMostOnce`, `FootprintsDisjoint` and `GivenUpForever` say that nothing is counted or
  credited twice.
- *Labels are not absorbing.* A settled add-cash record can be set back to `payment_observed`, and a
  paid cash-out to `unknown`. All results are therefore about value, secrets and credits.
- *Safe confirmations.* `confirmCashOut` checks the balance but not the quote, and some runs that
  confirm two cash-outs under one melt quote lose coins. `SafeConfirm` is what a caller could check
  first: a paid quote has left change that does not unblind with the new outputs, and under a quote
  not paid yet no stored cash-out still reserves proofs. If every confirmation is safe (`SafeRun`),
  no coin is ever lost (`NothingIsLost`). No weaker condition would do: each unsafe confirmation, in
  every reachable wallet, has a continuation that loses a coin (`ExactlyWhenSafe`, and for whole
  runs `RunsAtNoRisk`). `UnsafeIsReachable` reaches one from an empty wallet.
- *Safe is not recoverable.* A safe confirmation under a paid quote whose change does not fit is
  never forgotten, but its proofs stay reserved for good. `NeverEndsExactly` says which reservations
  no later run can end: exactly those.
- *Locks.* A delivered token is stored before its lock is looked at, so two orders may hold one
  token (`TokensCanBeShared`). A swap is stored only for proofs locked to the order's own key, and
  each order draws a key of its own, so no two orders store a swap over one proof
  (`FootprintsDisjoint`).
- *Retries of delivered payments.* `deliverStoredPayment` itself delivers a delivered payment once
  more; a crash in the middle leaves a record that can be neither retried nor checked
  (`RedeliveryStrands`, from an empty wallet in `StrandedIsReachable`). `ExactlyWhenDelivered` shows
  that this is the one resume to avoid: a payment with a complete delivery that has a delivery time.
  Without such resumes every payment keeps a way forward (`AlwaysAWayForward`). The screens are
  stricter than that, since they offer a retry only where `paymentCanRetry` does.
- *Relay.* "The same slot" means the same registration of the order: a cancelled or expired slot may
  be deleted and the order registered anew, but only under a later expiry (`NoReplay`). That no
  payload arrives is a result about cancelled slots; a vendor's expiry after an empty read can race
  a delivery the relay accepted just before. `DeliveredTwiceSettledOnce` is a joint run in which all
  of it happens: a payment is posted twice, the second post is a duplicate, and the vendor settles.
- *Canonical JSON.* A number too large for a double prints as `null`, so equal texts mean equal
  values up to that (`InfinityIsNull`).
- *Faucet.* `ThirdDispatch` reaches the bound of three for every configuration in which a claim can
  be made. The guard against a foreign hash reads only the latest failure code of the record at
  hand. It stands in every run (`GuardStands`) except against a pass over a list read before the
  code was set (`StaleListPasses`), and it ends when any transition replaces the code
  (`GuardExactly`, `MismatchForgotten`).
- *Mint adapter.* `check_outgoing_payment` prices a payment without its amount. `CheckUndercharges`
  says exactly when that price covers what was spent, and `CheckIsSafe` that the mint stays solvent
  in all runs exactly then. `MintIsSolvent` covers all runs whose checks settle only covered
  payments; `AnswersStand` and `HistoryJustified` need no such condition.

## Model

| member | source | states |
|---|---|---|
| MarketTheorems.KeepsStep | market/src/domain/market-runtime.ts:300-928 | every step of every operation, answered or not, every move of the mint or another person, and a crash keep the whole ledger invariant |
| MarketTheorems.Conservation | market/src/domain/market-runtime.ts:300-928 | in every run with lost answers and crashes, spendable value plus the live value of stored swaps, reservations, uncredited outputs and coins released without credit, plus value locked to vendors, melted and paid in fees, equals value issued and received |
| MarketSafety.NothingIsLost | market/src/domain/market-runtime.ts:823-928 | in every run whose cash-outs are confirmed safely no coin is released without credit, and the books balance without lost coins |
| MarketTheorems.SpendableIsGood | market/src/domain/market-runtime.ts:342-359 | after every run spendable secrets are distinct, belong to the wallet, and the mint would accept each for its amount |
| MarketTheorems.FootprintsDisjoint | market/src/domain/storage.ts:374-383 | inputs, reserved proofs and outputs stored by different operations never meet, nor do they meet the spendable set; the swap inputs of two orders are kept apart by the keys they are locked to |
| MarketExamples.TokensCanBeShared | market/src/domain/market-runtime.ts:547-569 | from an empty wallet two orders come to hold one delivered token, because it is stored before its lock is looked at |
| MarketTheorems.SnapshotsLoad | market/src/domain/storage.ts:385-413 | every snapshot any run commits passes the validator again |
| MarketTheorems.CreditAtMostOnce | market/src/domain/market-runtime.ts:342-359 | over a whole run no operation pays in twice and no secret is credited twice, whatever is retried, restored or refreshed |
| MarketTheorems.GivenUpForever | market/src/domain/market-runtime.ts:823-848 | inputs of a stored payment swap and reserved proofs of a cash-out never return to the spendable set |
| MarketTheorems.SameBytes | market/src/domain/market-runtime.ts:361-401 | all deliveries of one payment in a run, across crashes, carry the identical payload to the identical address |
| MarketLaws.RefusedCheck | market/src/domain/market-runtime.ts:403-456 | the exact case in which the record a check wants to commit is refused by the validator |
| MarketOutcomes.CashOutExclusive | market/src/domain/market-runtime.ts:823-928 | a cash-out that was melted is never swapped back and one swapped back is never melted, then or later, delayed melts included |
| MarketOutcomes.RunOutcomes | market/src/domain/market-runtime.ts:873-928 | in every run a melted cash-out credits exactly its change, one swapped back the outcome of a swap over its reserved proofs, and a settlement exactly its order's amount |
| MarketOutcomes.CashOutCredit | market/src/domain/market-runtime.ts:873-928 | whatever a cash-out that once reserved proofs credits is the change of the melt paid with them, or all that a swap over exactly them yields, their total less its fee |
| MarketOutcomes.SettlementPays | market/src/domain/market-runtime.ts:590-652 | the step that settles an order raises the vendor's spendable total by exactly the order's amount and its swap inputs are spent |
| MarketQuotes.ExactlyWhenSafe | market/src/domain/market-runtime.ts:823-896 | in every reachable wallet, a confirmation of a cash-out has a continuation that forgets an unspent proof when its quote is paid with change that fits the new blanks, or is not paid while a stored cash-out under it still reserves proofs; in every wallet reached by safe confirmations these are exactly the ones that have one |
| MarketQuotes.RunsAtNoRisk | market/src/domain/market-runtime.ts:823-896 | a run confirms safely throughout exactly when from none of its moments a safe continuation loses a coin |
| MarketFrozen.NeverEndsExactly | market/src/domain/market-runtime.ts:873-928 | in every reachable wallet at rest, reserved proofs can be given up in no later run at all exactly when another cash-out has paid the quote with change the stored outputs do not unblind |
| MarketExamples.UnsafeIsReachable | market/src/domain/market-runtime.ts:823-846 | two cash-outs reviewed under one quote reach such a confirmation from an empty wallet |
| MarketChoices.DeadEnd | market/src/domain/types.ts:108-117 | in every run an unspent payment can be neither retried nor checked exactly when a delivery of it is under way although it was delivered before |
| MarketChoices.RedeliveryStrands | market/src/domain/market-runtime.ts:361-377 | resuming a delivered payment and crashing leaves such a record, whatever the record and the wallet |
| MarketExamples.StrandedIsReachable | market/src/domain/market-runtime.ts:361-377 | the same from an empty wallet, by funding, paying, delivering and resuming |
| MarketChoices.ExactlyWhenDelivered | market/src/domain/market-runtime.ts:361-377 | in every reachable wallet at rest, resuming a payment can lead to such a record in a later run that repeats no delivery exactly when the payment was delivered already |
| MarketChoices.AlwaysAWayForward | market/src/domain/types.ts:108-117 | in every run that resumes no payment delivered already, each payment is spent or can be retried or checked |
| MarketChoices.ChoicesExactly | market/src/domain/types.ts:108-117 | in every run the state of a payment and what its delivery has said decide whether it is offered for a retry or a check |
| MarketProgress.StoredSwapSettles | market/src/domain/market-runtime.ts:538-652 | in every reachable wallet at rest an order with a stored swap that the mint has made or would make is settled from the next poll on, for exactly its amount |
| MarketProgress.StoredTokenSettles | market/src/domain/market-runtime.ts:538-652 | the same for an order that holds a token worth its amount, locked to its key and unspent, whatever swap the wallet draws over it |
| MarketProgress.StoredPaymentDelivers | market/src/domain/market-runtime.ts:330-401 | in every reachable wallet at rest a payment whose swap is stored can be completed while its request is still accepted: the swap is made or restored, the change comes in and the token goes to the stored address |
| MarketProgress.PaidChargeComesIn | market/src/domain/market-runtime.ts:754-805 | in every reachable wallet at rest a charge with stored outputs comes in when looked at again, once its quote is paid and the outputs are issuable or signed |
| MarketStorage.Proofs | market/src/domain/storage.ts:109-124 | accepts exactly lists of positive amounts with distinct secrets; the upper limit of an amount is left out |
| MarketStorage.SwapRecord | market/src/domain/storage.ts:145-159 | accepts exactly swaps with a positive amount, some inputs and two valid proof lists; limits and keyset fields are left out |
| MarketStorage.NormalizePayment | market/src/domain/storage.ts:234-266 | accepts exactly the payments whose delivery fields fit their state |
| MarketStorage.PaymentRules | market/src/domain/storage.ts:234-266 | what each state of a payment asks of its token, payload, request, address, swap and delivery |
| MarketStorage.NormalizeOrder | market/src/domain/storage.ts:283-327 | accepts exactly the orders whose keys, token and swap fit their state |
| MarketStorage.OrderRules | market/src/domain/storage.ts:283-327 | what each state of an order asks of its keys, capability, token and swap |
| MarketStorage.NormalizeCashOut | market/src/domain/storage.ts:345-364 | accepts exactly the cash-outs with valid reserved proofs and recovery swap |
| MarketStorage.NotReserved | market/src/domain/storage.ts:374-383 | true exactly when no payment input and no reserved proof is spendable |
| MarketStorage.NormalizeSnapshot | market/src/domain/storage.ts:385-413 | accepts exactly the snapshots whose records are valid and whose spendable proofs no record uses |
| MarketRuntimes.FieldsBalance | market/src/domain/market-runtime.ts:239-277 | between any two steps of the object its own snapshot is valid, its proofs are spendable and it balances against the mint, with nothing lost if its confirmations were safe |
| MarketRuntimes.MarketRuntime.Save | market/src/domain/storage.ts:430-447 | stores a valid snapshot, and leaves the old one in place otherwise |
| MarketRuntimes.MarketRuntime.CommitPayment | market/src/domain/market-runtime.ts:239-247 | payment and proofs change together or not at all |
| MarketRuntimes.MarketRuntime.CommitOrder | market/src/domain/market-runtime.ts:249-257 | order and proofs change together or not at all |
| MarketRuntimes.MarketRuntime.CommitAdd | market/src/domain/market-runtime.ts:259-267 | add-cash record and proofs change together or not at all |
| MarketRuntimes.MarketRuntime.CommitCashOut | market/src/domain/market-runtime.ts:269-277 | cash-out and proofs change together or not at all |
| MarketRuntimes.MarketRuntime.ConfirmPayment | market/src/domain/market-runtime.ts:300-328 | confirms exactly when the balance is as reviewed and the order has no payment yet; then one commit, never refused, stores the swap and leaves the unselected proofs, and otherwise nothing changes |
| MarketRuntimes.MarketRuntime.FinishPaymentPreparation | market/src/domain/market-runtime.ts:342-359 | token and payload are stored with the change in one commit that drops the swap and is never refused |
| MarketRuntimes.MarketRuntime.StartDelivery | market/src/domain/market-runtime.ts:361-377 | the record says the delivery began before the stored payload is sent |
| MarketRuntimes.MarketRuntime.DeliveryAnswered | market/src/domain/market-runtime.ts:378-400 | delivered with its time, or recoverable with what the answer says about a retry |
| MarketRuntimes.MarketRuntime.CheckPayment | market/src/domain/market-runtime.ts:403-456 | spent tokens are dropped with everything that could deliver them again, unspent and pending ones are labelled unless the relay refused the payment for good, an unclear answer leaves it recoverable; the validator refuses exactly a repeated delivery refused for good |
| MarketRuntimes.MarketRuntime.ConfirmCashOut | market/src/domain/market-runtime.ts:823-846 | confirms exactly when the balance is as reviewed; then one commit, never refused, reserves the proofs and leaves the rest spendable, and otherwise nothing changes |
| MarketRuntimes.MarketRuntime.FinishMelt | market/src/domain/market-runtime.ts:846-871 | the record for each answer: the change of a paid melt comes in with the commit that drops the reservation, and in every other case proofs and reservation stay |
| MarketRuntimes.MarketRuntime.RecoveryPrepared | market/src/domain/market-runtime.ts:898-911 | a recovery swap is stored exactly when the reserved proofs are unspent and a swap was drawn, and only then is the mint asked |
| MarketRuntimes.MarketRuntime.FinishRecovery | market/src/domain/market-runtime.ts:912-924 | the proceeds of the recovery come in with the commit that drops the reservation |
| MarketRuntimes.MarketRuntime.PollOrder | market/src/domain/market-runtime.ts:538-546 | a settled order that was not acknowledged is acknowledged with its capability; otherwise a stored token or swap goes to settlement, then a capability to a read, and an order with neither is left alone |
| MarketRuntimes.MarketRuntime.ActOnMeltQuote | market/src/domain/market-runtime.ts:873-904 | a paid quote pays in change that fits the stored outputs with the commit that drops the reservation, a pending one is labelled, and an unpaid one leads to a recovery of what is reserved |
| MarketRuntimes.MarketRuntime.ReadAnswered | market/src/domain/market-runtime.ts:547-588 | the token of a fitting payload is stored before anything else, and the validator refuses it exactly when the order has given up its keys; a misfit is rejected; an empty or gone slot expires the order only after its expiry |
| MarketRuntimes.MarketRuntime.SettleOrder | market/src/domain/market-runtime.ts:590-614 | a stored swap is completed as it is; otherwise the order is validated, rejected or recoverable by its token, in the order of the source |
| MarketRuntimes.MarketRuntime.TokenAnswered | market/src/domain/market-runtime.ts:615-624 | only an unspent token goes on; a spent or mixed one is rejected, others stay recoverable |
| MarketRuntimes.MarketRuntime.SettlementPrepared | market/src/domain/market-runtime.ts:625-629 | the swap is stored exactly when it yields the order's amount, and a different amount rejects the order |
| MarketRuntimes.MarketRuntime.FinishSettlement | market/src/domain/market-runtime.ts:631-646 | the proceeds come in with the commit that gives up the order's keys |
| MarketRuntimes.MarketRuntime.TryOrder | market/src/domain/market-runtime.ts:685-702 | a commit inside a try block: the new record, or the old one marked recoverable exactly when the new one is malformed |
| MarketRuntimes.MarketRuntime.CancelOrder | market/src/domain/market-runtime.ts:679-684 | the cancellation is stored before the slot is asked, and refused exactly for an order without keys that still has its read capability |
| MarketRuntimes.MarketRuntime.CancelAnsweredBy | market/src/domain/market-runtime.ts:685-702 | cancelled without keys unless a token had already been received, which the validator refuses; when a delivery won the order goes on as in a poll, and it is recoverable otherwise |
| MarketRuntimes.MarketRuntime.Crash | market/src/hooks/useMarket.ts:249-266 | a crash loses the operation in flight and nothing else |
| CanonicalJsonProofs.TextIsMeaning | relay/src/protocol.ts:84-93 | two JSON values have the same canonical text exactly when they are equal with objects as unordered maps and infinite numbers as null |
| CanonicalJsonProofs.InfinityIsNull | relay/src/protocol.ts:84-89 | an overflowing number and a null have the same text under every key |
| CanonicalJsonProofs.BeforeExactly | relay/src/protocol.ts:84-89 | keys are compared as proper prefixes or by the first unit in which they differ |
| CanonicalJsonProofs.ObjectAs | relay/src/protocol.ts:84-89 | the same object with its keys in either order prints them in ascending order, with braces, colons and commas |
| CanonicalJsonProofs.EscapesAs | relay/src/protocol.ts:84-89 | units appear as themselves but for quotes, backslashes and controls, which take the usual escapes |
| CanonicalJsonProofs.WordsAs | relay/src/protocol.ts:84-89 | the words, and the marks around strings and lists |
| Relay.PayloadAmount | relay/src/protocol.ts:174-183 | the total of the proofs, or an error exactly when it is not a safe integer, although the loop stops early |
| Relay.RelayStore.Register | relay/src/database.ts:60-100 | created, existing or a conflict, with the table changed only when created |
| Relay.RelayStore.ExpireRow | relay/src/database.ts:205-213 | an open row past its expiry is closed, in the table and in the caller's copy |
| Relay.RelayStore.Deliver | relay/src/database.ts:102-139 | every outcome of a delivery, errors in the order of the source, with the exact new table; a refused delivery changes nothing |
| Relay.RelayStore.Read | relay/src/database.ts:141-149 | waiting, closed or the stored payload |
| Relay.RelayStore.Acknowledge | relay/src/database.ts:151-164 | a delivered slot drops its payload, a second acknowledgement is a duplicate |
| Relay.RelayStore.Cancel | relay/src/database.ts:166-178 | an open slot is cancelled, a delivered one refuses |
| Relay.RelayStore.Cleanup | relay/src/database.ts:180-197 | expired and over-retained slots close, old closed ones are deleted |
| RelayProofs.SlotLife | relay/src/database.ts:102-213 | over every run a slot only moves forward: its terms and digest stay, and its payload can only go |
| RelayProofs.CancelWins | relay/src/database.ts:166-178 | after a successful cancel no delivery is ever stored in that slot |
| RelayProofs.DeliveryWins | relay/src/database.ts:166-178 | after a stored delivery every cancel of that slot is refused |
| RelayProofs.OnePayload | relay/src/database.ts:102-139 | after a stored delivery a further one is a duplicate if it says the same field by field, and a conflict if not, unless the slot has closed |
| RelayProofs.DigestForever | relay/src/database.ts:102-139 | a slot's digest is that of its one stored delivery for good |
| RelayProofs.SameDigest | relay/src/protocol.ts:91-93 | two payloads have one digest exactly when they name the same order, memo, unit and mint and their proofs are pairwise the same JSON value |
| RelayProofs.PayloadKeys | relay/src/protocol.ts:91-93 | the hashed object has exactly the five keys of a payload |
| RelayProofs.PayloadValues | relay/src/protocol.ts:91-93 | under them the identifier, the memo or none, unit, mint and the list of proofs |
| RelayProofs.PayloadKept | relay/src/database.ts:180-197 | a stored payload stays unchanged until acknowledged or older than the retention, request expiry or not |
| RelayProofs.Readable | relay/src/database.ts:141-149 | in that time a read returns exactly that payload |
| RelayProofs.NoReplay | relay/src/protocol.ts:117-120 | a deleted registration is never created again under its old expiry |
| RelayProofs.ReadsTheStored | relay/src/database.ts:141-149 | what a read returns was stored by one earlier delivery to that slot, names the order and sums exactly to its amount |
| RelayAnswers.RegisterAnswers | relay/src/database.ts:60-100 | in every run a slot is created exactly when the request is well formed, its order new and both capabilities unused; the same request is recognised, any other for the order is a conflict, and nothing else changes |
| RelayAnswers.DeliverAnswers | relay/src/database.ts:102-139 | in every run a payload is stored exactly when its slot is open and unexpired, it is well formed and fits the order; any other delivery changes nothing and is answered by the first reason |
| RelayAnswers.ReadAnswers | relay/src/database.ts:141-149 | in every run an open slot says to wait, a delivered one hands out its payload and any other is closed, an expired one in the table too |
| RelayAnswers.AckAnswers | relay/src/database.ts:151-164 | in every run an acknowledgement drops the payload of a delivered slot and closes it, a repeated one says so, and a slot without a delivery refuses it |
| RelayAnswers.CancelAnswers | relay/src/database.ts:166-178 | in every run a cancel of an open, unexpired slot stores the cancellation and says so, a cancelled slot says so again, and in every other case a delivery has won |
| RelayAnswers.CleanupAnswers | relay/src/database.ts:180-197 | in every run a cleanup deletes, closes or keeps each slot by its state, expiry and delivery time, and counts the deleted ones |
| RelayAnswers.UnknownAnswers | relay/src/database.ts:102-178 | a capability no slot has finds nothing and changes nothing |
| Settlements.SettledOnceFromOneDelivery | market/src/domain/market-runtime.ts:538-652 | in every interleaving of attendees, relay, vendor and mint an order settles at most once, and spends exactly the coins of one delivery stored for it |
| Settlements.RetriesAreDuplicates | relay/src/database.ts:102-139 | in every joint run of attendee, relay and vendor, once one attempt of a payment is stored, later attempts, crashes included, are duplicates or closed, never conflicts |
| SettlementExamples.DeliveredTwiceSettledOnce | market/src/domain/market-runtime.ts:538-652 | for every order text of 16 to 128 code units and any two capabilities, a joint run from nothing in which the second post of a payment is a duplicate and the vendor settles the order from the first |
| SettlementExamples.PostHeard | market/src/domain/market-runtime.ts:378-400 | in every joint run the attendee hears acceptance exactly when its post was stored or repeats the stored one and the answer arrives; a lost answer invites a retry and a refusal forbids it |
| SettlementExamples.FetchBrings | market/src/domain/market-runtime.ts:547-588 | in every joint run a read brings the vendor the payload the relay holds, the word that there is none yet, or a failure |
| Faucet.FaucetStore.Reserve | faucet/src/database.ts:130-188 | the claim, or the first limit it breaks, with the table changed only for a new claim |
| Faucet.FaucetStore.MarkAttempt | faucet/src/database.ts:190-198 | counts one attempt and clears the failure |
| Faucet.FaucetStore.Transition | faucet/src/database.ts:200-206 | state and failure code change, nothing else |
| Faucet.FaucetStore.Scrub | faucet/src/database.ts:243-257 | erases exactly the identifiers of rows not updated within the retention |
| FaucetServices.FaucetService.Claim | faucet/src/service.ts:84-117 | one claim at a time per quote; a foreign, issued or erased claim starts nothing |
| FaucetServices.FaucetService.QuoteAnswered | faucet/src/service.ts:118-130 | a new claim goes on only with a locked, unpaid quote of the right terms and time left |
| FaucetServices.FaucetService.InvoiceParsed | faucet/src/service.ts:131-156 | reservation and first attempt in one step |
| FaucetServices.FaucetService.Reconcile | faucet/src/service.ts:164-175 | quote changes and finished quotes settle the claim before the node is asked |
| FaucetServices.FaucetService.PaymentLooked | faucet/src/service.ts:176-201 | the outcome of a lookup, in the order of the guards |
| FaucetServices.FaucetService.PaymentSent | faucet/src/service.ts:208-217 | an unknown outcome, a foreign hash, or the payment's status |
| FaucetServices.FaucetService.VisitNext | faucet/src/service.ts:101-108 | the pass visits the record as it read it, and skips a quote in flight |
| FaucetAnswers.ClaimAnswers | faucet/src/service.ts:84-117 | a request leaves a quote at work alone, looks again at a stored claim unless it is foreign, issued or erased, and starts a new one only while enabled |
| FaucetAnswers.NewQuoteAnswers | faucet/src/service.ts:118-130 | a new claim goes on exactly with a locked, unpaid quote of the right terms open for more than fifteen seconds |
| FaucetAnswers.ParsedAnswers | faucet/src/service.ts:131-156 | after the parse a claim is reserved and sent in one step, a foreign one is left alone, and the browser's own is reconciled with the quote at hand |
| FaucetAnswers.ReserveAnswers | faucet/src/database.ts:130-188 | a known quote gives back its claim; a new one is refused by the first limit it meets, the cooldown with the least wait that ends it, and created otherwise |
| FaucetAnswers.StoredQuoteAnswers | faucet/src/service.ts:158-175 | an issued quote makes its claim issued and a paid one makes it paid, a changed one needs attention, and only an open, unchanged one asks the node |
| FaucetAnswers.LookupAnswers | faucet/src/service.ts:178-201 | the row after a lookup: unknown, foreign hash, the status of the payment, or without a session the first guard that stops it and else the next attempt |
| FaucetAnswers.SendAnswers | faucet/src/service.ts:203-226 | the row after a send: unknown, foreign hash, or paid, failed or pending by the status of the payment |
| FaucetAnswers.EffectAnswers | faucet/src/service.ts:203-217 | the node accepts a send at most once and for its own invoice; a restart loses what is in flight and keeps the table |
| FaucetAnswers.PassStarts | faucet/src/database.ts:208-220 | a pass starts from the oldest hundred claims that are at work or recoverable and wait for nobody |
| FaucetAnswers.PassCanStart | faucet/src/database.ts:208-220 | the list of all such claims, oldest first, starts one |
| FaucetAnswers.PassGoesOn | faucet/src/service.ts:101-108 | a pass takes its next record as read, skips quotes at work, waits for what it starts and scrubs the table at its end |
| FaucetAnswers.StatesExplained | faucet/src/service.ts:164-226 | in every run a claim becomes issued only by a quote seen issued, paid only by one seen paid or a success under its own hash, failed only by a failed payment under that hash or an expired quote without one |
| FaucetAttempts.TwoAttempts | faucet/src/service.ts:194-207 | in runs of claims and restarts no claim is dispatched more than twice |
| FaucetAttempts.ThreeAttempts | faucet/src/service.ts:101-108 | with interleaved passes over lists read once, never more than three times |
| FaucetExamples.ThirdDispatch | faucet/src/service.ts:194-207 | three is reached, for every configuration in which a claim can be made, whatever its recovery delay |
| FaucetPays.PaysOnce | faucet/src/service.ts:164-217 | with truthful lookups no invoice gets two accepted sends in any run with lost answers, stale records and restarts |
| FaucetLimits.CooldownSurvivesErasure | faucet/src/config.ts:100-104 | two claims of one browser are at least the cooldown apart although scrubs erase browser hashes |
| FaucetLimits.DailyLimitHolds | faucet/src/database.ts:130-188 | no day has more claims than the daily limit |
| FaucetLimits.NetworkLimitHolds | faucet/src/database.ts:243-257 | with a retention of at least a day no network exceeds its daily limit |
| FaucetExamples.NetworkLimitForgotten | faucet/src/database.ts:243-257 | with a shorter retention a network gets one claim more than its limit |
| FaucetExamples.NetworkLimitExactly | faucet/src/database.ts:130-188 | the network limit holds in all runs exactly when the retention is at least a day or the daily limit is no larger |
| FaucetGuard.GuardStands | faucet/src/service.ts:182-201 | in every run a row that carries the mismatch code is dispatched only by a pass, from a record its list read when the row did not carry the code |
| FaucetGuard.GuardWithoutPasses | faucet/src/service.ts:182-201 | without passes a row is never dispatched while it carries the code, so some transition replaced it first |
| FaucetGuard.PassRecords | faucet/src/service.ts:101-108 | whatever a pass works on was the exact row when its list was read |
| FaucetExamples.GuardExactly | faucet/src/service.ts:187-207 | a due request that finds no session dispatches exactly when the latest failure code is not the mismatch, whatever came before |
| FaucetExamples.GuardForgets | faucet/src/service.ts:187-191 | one unanswered lookup replaces the code, and the next request dispatches |
| FaucetExamples.MismatchForgotten | faucet/src/service.ts:182-207 | the same from an empty table: a foreign hash, a stopped request, an unanswered lookup, a second dispatch |
| FaucetExamples.StaleListPasses | faucet/src/service.ts:101-108 | from an empty table a pass over an old list dispatches a row that carries the code |
| FiberAmounts.FloorIsGreatest | mint/cdk-fiber/src/amount.rs:22-27 | a credit is the greatest number of units the funds cover, refused exactly when it does not fit 64 bits |
| FiberAmounts.CeilIsLeast | mint/cdk-fiber/src/amount.rs:33-38 | a charge is the least number of units that covers the cost, refused exactly when it does not fit 64 bits |
| FiberAmounts.RoundTrip | mint/cdk-fiber/src/amount.rs:15-38 | units survive conversion to base units and back, in both directions of rounding |
| FiberAmounts.ReserveIsLeast | mint/cdk-fiber/src/amount.rs:44-58 | the reserve is the least number of units that meets the floor and the cushioned fee |
| FiberAmounts.ReserveCoversRoute | mint/cdk-fiber/src/lib.rs:482-488 | a quoted reserve covers the routed fee |
| FiberAmounts.QuoteCoversCharge | mint/cdk-fiber/src/lib.rs:241-252 | with a fee within the reserve the charge is at least amount plus fee, over-collects less than a unit and is at most quote plus reserve |
| FiberAmounts.RateAdmitsCeiling | mint/cdk-fiber/src/amount.rs:66-78 | the rate is the least above the default whose clamp admits the whole ceiling, and none is sent exactly when the default does |
| FiberAmounts.RateMissing | mint/cdk-fiber/src/amount.rs:66-78 | what happens for a zero amount or a rate that does not fit |
| FiberAmounts.CheckUndercharges | mint/cdk-fiber/src/lib.rs:552-574 | a check charges the fee alone, which covers a settled payment exactly when the amount fits in what rounding the fee up leaves over |
| FiberSolvency.MintIsSolvent | mint/cdk-fiber/src/lib.rs:501-574 | in every interleaving of deposits, melts, retried melts and checks the node's balance covers outstanding ecash at the scale, and only paid invoices credit, as long as checks settle only payments their price covers |
| FiberSolvency.AnswersStand | mint/cdk-fiber/src/lib.rs:501-574 | in every run, until the mint acts on it, a failed answer has no send of its own running or succeeded, and a paid one rests on a success and charges its fee and, unless a check gave it, its amount |
| FiberChecks.CheckIsSafe | mint/cdk-fiber/src/lib.rs:552-574 | checks of payments of one amount and fee leave the mint solvent in all runs exactly when the rounded fee covers the amount; otherwise a run from a fresh mint ends short |
| FiberHistory.HistoryJustified | mint/cdk-fiber/src/lib.rs:226-265 | in every run each failed answer follows the node's own failing of that session with no send since, each paid one its success at its fee, and before each send the last thing the node told that melt was no session or a failed one |
| FiberAnswers.LookupAnswers | mint/cdk-fiber/src/lib.rs:501-519 | before its send a melt is left locked without an answer, reported as its session is unless that failed, and sent otherwise |
| FiberAnswers.SendAnswers | mint/cdk-fiber/src/lib.rs:521-539 | a send opens a session exactly when it reaches the node and the hash has none that has not failed, with the reserve as its fee ceiling |
| FiberAnswers.PollAnswers | mint/cdk-fiber/src/lib.rs:187-224 | an error changes nothing, a forgotten session is pending, a running one is polled again and an ended one is reported with amount and fee |
| FiberAnswers.LateAnswers | mint/cdk-fiber/src/lib.rs:187-224 | the deadline ends a call as pending and never as failed, and a lost call can be made again |
| FiberAnswers.CheckAnswers | mint/cdk-fiber/src/lib.rs:552-574 | a check of an unknown hash changes nothing and a session is reported with its fee alone |
| FiberAnswers.ReturnAnswers | mint/cdk-fiber/src/lib.rs:226-265 | paid burns the charge and gives the rest back, failed gives all back, pending keeps the inputs locked |
| FiberAnswers.PaidMeltSettles | mint/cdk-fiber/src/lib.rs:226-265 | in every run, once the node has settled a payment the melt sent, the next calls charge the least units worth amount and fee, within the inputs, and give back the rest |
| FiberAnswers.FailedMeltReturns | mint/cdk-fiber/src/lib.rs:187-224 | a polled melt whose payment the node failed gives all inputs back |
| FiberAnswers.DepositCredits | mint/cdk-fiber/src/lib.rs:267-317 | a deposit of any number of units comes in as exactly that number, and once |
| FiberBackends.FiberBackend.AwaitSettlement | mint/cdk-fiber/src/lib.rs:187-224 | the result is the last session seen, the polls are bounded by the timeout in intervals, and an unsettled end means the deadline passed or the session was forgotten |
| FiberBackends.FiberBackend.Watch | mint/cdk-fiber/src/lib.rs:424 | a new invoice joins the watch |
| FiberBackends.FiberBackend.SweepInvoices | mint/cdk-fiber/src/lib.rs:267-306 | one event for each visited invoice that is paid with an amount that fits, for its floor and in the order of the list, and no other; a visited invoice stays watched exactly while open, received or unreadable, and the pass stops only for want of room, before the invoice it could not report |
| FiberBackends.FiberBackend.Unwatch | mint/cdk-fiber/src/lib.rs:319-322 | removes one invoice from the watch |
| FiberBackends.OnlyPaidReported | mint/cdk-fiber/src/lib.rs:308-317 | each report is for a paid invoice, for at most what it paid, and ends its watch |
| FiberBackends.ReportedExactly | mint/cdk-fiber/src/lib.rs:308-317 | an amount is reported for an invoice exactly when it is listed and paid and the amount is the greatest number of units its payment covers |
| ScriptCodec.DecodeIsInverse | mint/cdk-fiber/src/wire.rs:208-253 | the decoder accepts exactly the encodings of scripts with a 32-byte code hash and a known hash type, and inverts the encoder |
| ScriptCodec.EncodingBytes | mint/cdk-fiber/src/wire.rs:208-253 | the bytes of an encoding, one by one |
| ScriptCodec.DecodersAgree | faucet/src/upstream.ts:73-102 | both decoders give the same answer on all bytes |
| ScriptCodec.ProgramsAgree | faucet/src/upstream.ts:73-102 | both programs read the same from a text exactly unless it is an encoding written under `0X`, which only the faucet accepts |
| ScriptCodec.ScriptRoundTrip | mint/cdk-fiber/src/wire.rs:184-253 | every script survives packing, printing and reading, in both programs |
| ScriptCodec.HexBytes | mint/cdk-fiber/src/wire.rs:199-206 | the prefix, then for each byte its two digits, high one first |
| ScriptCodec.DigitExactly | mint/cdk-fiber/src/wire.rs:184-206 | which characters read as a digit, in either case, and which is printed |
| ScriptCodec.ShownTexts | mint/cdk-fiber/src/wire.rs:208-253 | the texts of a decoded script, digit by digit, and the names of the hash types |
| ScriptCodec.HashFromHex | mint/cdk-fiber/src/wire.rs:89-100 | on the bytes of any text: 32 bytes exactly when the body has 64 that pair up to bytes, and a panic exactly when the first bad pair cuts a character |
| ScriptCodec.HashRoundTrip | mint/cdk-fiber/src/wire.rs:79-100 | a printed hash reads back to the same bytes |
| ScriptCodec.UdtTypeScript | mint/cdk-fiber/src/wire.rs:256-271 | the one script of an invoice, nothing, or a refusal, in agreement with the faucet but for `0X`; an absent list counts as empty, where the faucet refuses |
| Restore.MatchRestored | wallet/src/lib/wallet.ts:605-638 | succeeds exactly when the response is a permutation of the stored outputs with fitting signatures, and returns them in stored order |
| Restore.OrderIrrelevant | wallet/src/lib/wallet.ts:605-638 | reordering the response changes nothing |
| Restore.MatchKeepsValue | wallet/src/lib/wallet.ts:605-638 | the matched signatures are worth exactly the stored outputs |
| Restore.TryRestoreOutputs | wallet/src/lib/wallet.ts:544-569 | succeeds exactly when the mint answers, the answer matches, and each signature gives a proof with the equality proof the mint promises; every stored output then becomes its own proof, in stored order |
| Restore.ListedRestores | wallet/src/lib/wallet.ts:544-569 | when the mint lists every stored output in any order, restoring succeeds exactly if each signature gives a proof with the equality proof required |
| Restore.TryRestoreSwap | wallet/src/lib/wallet.ts:571-586 | succeeds exactly when all outputs restore, and then looks like a completed swap: proofs to keep, the unselected ones after them, proofs to send |
| Restore.CompletePreparedSend | wallet/src/lib/wallet.ts:454-475 | answered or restored, the token is made of exactly the outputs to send and the change of those to keep, without the unselected proofs |
| Restore.CheckProofsState | wallet/src/lib/wallet.ts:531-542 | unspent, pending or spent exactly when there are proofs and all are in that state, mixed exactly when there are some and no one state is theirs, and none for no proofs |

## Left out

- MarketStorage.Proofs: amounts have no upper limit, the limit of safe integers being left out, and keyset and signature fields are dropped.
- MarketStorage.SwapRecord: safe-integer limits and keyset fields are left out, and output lists are the ledger's own.
- MarketStorage.NormalizePayment: checks of URLs, mint, unit, texts and the safe-integer limit are left out.
- MarketStorage.NormalizeOrder: the sum of the items and the fields inside a registration are not checked; keys and capability stand for them.
- MarketStorage.NormalizeCashOut: the match of quote, invoice and amounts, and the texts, are left out.
- MarketStorage.NormalizeSnapshot: the role rules (`market/src/domain/storage.ts:402-403`) are left out, because one model serves both roles; identifiers are unique since records are maps.
- MarketRuntimes.MarketRuntime.ReadAnswered: that an order really expires when nothing was delivered is not stated, because an empty read can race an accepted delivery.
- FaucetPays.PaysOnce: needs a node that keeps its sessions, answers lookups truthfully and lets a send take effect before its call ends or never, and invoices with distinct hashes.
- The records of the market are maps by identifier: display order, the fallback to a caller's copy of a record the snapshot does not hold, and a full browser storage are not modelled.
- Fields that no transition reads are dropped: labels, descriptions, order items, time stamps, error texts, keyset identifiers.
- The mint of the ledger knows secrets only: blind signatures, keysets and fees by keyset are left out. A proof and the blinded output it comes from share one secret.
- The wallet library is taken to draw fresh secrets and key pairs, to select inputs that add up with the unselected proofs to what was reviewed and cover a melt's amount, reserve and input fee, to keep all proceeds of a receive swap, and to refuse change that does not unblind with the stored outputs.
- A proof locked to an order's key is one none of whose secrets this wallet drew and whose lock names that key; the signature itself is not modelled.
- SHA-256 and HMAC are injective; a payment hash stands for its invoice.
- Each step reads the clock once; deliveries and cleanups of the relay read it twice.
- SQLite: tables are maps, a method is one step, a rollback is no change. The order of `open` among equal times is left open.
- HTTP servers, origin checks, request rates, fetch clients, gRPC, parsing of requests and URLs, the event manifest and environment values are left out.
- The wallet screens: they repeat parts of the ledger inside callbacks without the lock, so the results here do not extend to them.
- Liveness: a prepared payment whose request has expired is not shown to complete.
