/** Runs of the market machine: any sequence of events, in any interleaving. */
module MarketRuns {
  import opened Ecash
  import opened MintLedger
  import opened MarketRecords
  import opened MarketSteps

  datatype PayEvent =
    | ReviewPay(rid: nat, review: Review) | ConfirmPay(rid: nat, id: nat) | ResumePay(id: nat, stillValid: bool)
    | FinishPay(bytes: nat) | GiveUpPay | BeginDelivery | Send(delivered: DeliverAnswer) | EndDelivery(now: nat)
    | CheckPay(id: nat, token: TokenState)

  datatype AddEvent =
    | NewAdd(id: nat, quote: nat, amount: nat, expiry: Option<nat>, fromFaucet: bool) | PayerFailed(id: nat)
    | PollAdd(id: nat, answered: bool, now: nat) | ReadyAdd(outputs: seq<Coin>) | Mint(reaches: bool, answered: bool)
    | RestoreMint(answered: bool) | EndAdd | DropAdd

  datatype OutEvent =
    | ReviewOut(rid: nat, review: Review) | ConfirmOut(rid: nat, id: nat) | Melt | MeltAnswer(answered: bool) | EndMelt
    | PollOut(id: nat, answered: bool) | ActOut | ReadyRecovery(token: TokenState, swap: Swap) | EndRecovery | DropRecovery

  datatype OrderEvent =
    | NewOrder(id: nat, amount: nat, expiresAt: nat, keys: Keys, readCapability: nat) | Reregister(id: nat) | Registered(accepted: bool)
    | Poll(id: nat) | Read(read: ReadAnswer, now: nat) | Acked(acknowledged: bool)
    | Cancel(id: nat) | CancelAnswered(cancel: CancelAnswer)

  datatype SettleEvent =
    | Settle(malformed: bool, sameMint: bool, keyLocked: bool) | TokenChecked(token: TokenState) | ReadySettle(swap: Swap)
    | EndSettle | DropSettle | SettledAcked(acknowledged: bool)

  datatype MintEvent =
    | QuotePaid(quote: nat) | NewMeltQuote(quote: nat, amount: nat, feeReserve: nat) | MeltLands(request: MeltRequest)
    | MeltPays(quote: nat, change: seq<Coin>) | MeltFails(quote: nat) | ForeignSign(coins: seq<Coin>, locks: map<nat, nat>) | ForeignSpend(secrets: set<nat>)

  /** `SwapSent` and `Restoring` are the two remote calls of `completeSwap`; `Crash` is the death
      of the tab, which loses the operation in flight and nothing else. */
  datatype Event =
    | OfPayment(pay: PayEvent) | OfAdd(add: AddEvent) | OfCashOut(out: OutEvent) | OfOrder(order: OrderEvent) | OfSettle(settle: SettleEvent)
    | OfMint(mint: MintEvent) | SwapSent(reaches: bool, answered: bool) | Restoring(answered: bool) | Crash

  function PayStep(w: World, e: PayEvent): World {
    match e
    case ReviewPay(rid, rv) => ReviewPayment(w, rid, rv)
    case ConfirmPay(rid, id) => ConfirmPayment(w, rid, id)
    case ResumePay(id, valid) => ResumePayment(w, id, valid)
    case FinishPay(bytes) => FinishPayment(w, bytes)
    case GiveUpPay => GiveUpPayment(w)
    case BeginDelivery => StartDelivery(w)
    case Send(a) => Deliver(w, a)
    case EndDelivery(now) => FinishDelivery(w, now)
    case CheckPay(id, t) => CheckPayment(w, id, t)
  }

  function AddStep(w: World, e: AddEvent): World {
    match e
    case NewAdd(id, q, n, x, f) => RequestAdd(w, id, q, n, x, f)
    case PayerFailed(id) => RecordPayerFailure(w, id)
    case PollAdd(id, a, now) => RefreshAdd(w, id, a, now)
    case ReadyAdd(os) => PrepareAdd(w, os)
    case Mint(r, a) => CallIssue(w, r, a)
    case RestoreMint(a) => RestoreIssue(w, a)
    case EndAdd => FinishAdd(w)
    case DropAdd => GiveUpAdd(w)
  }

  function OutStep(w: World, e: OutEvent): World {
    match e
    case ReviewOut(rid, rv) => ReviewCashOut(w, rid, rv)
    case ConfirmOut(rid, id) => ConfirmCashOut(w, rid, id)
    case Melt => SendMelt(w)
    case MeltAnswer(a) => AnswerMelt(w, a)
    case EndMelt => FinishMelt(w)
    case PollOut(id, a) => RefreshCashOut(w, id, a)
    case ActOut => ActOnQuote(w)
    case ReadyRecovery(t, sw) => PrepareRecovery(w, t, sw)
    case EndRecovery => FinishRecovery(w)
    case DropRecovery => GiveUpRecovery(w)
  }

  function OrderStep(w: World, e: OrderEvent): World {
    match e
    case NewOrder(id, n, x, k, r) => CreateOrder(w, id, n, x, k, r)
    case Reregister(id) => RegisterStored(w, id)
    case Registered(a) => FinishRegister(w, a)
    case Poll(id) => PollOrder(w, id)
    case Read(a, now) => FinishRead(w, a, now)
    case Acked(a) => FinishAck(w, a)
    case Cancel(id) => CancelOrder(w, id)
    case CancelAnswered(a) => FinishCancel(w, a)
  }

  function SettleStep(w: World, e: SettleEvent): World {
    match e
    case Settle(m, s, l) => StartSettle(w, m, s, l)
    case TokenChecked(t) => FinishTokenCheck(w, t)
    case ReadySettle(sw) => PrepareSettle(w, sw)
    case EndSettle => FinishSettle(w)
    case DropSettle => GiveUpSettle(w)
    case SettledAcked(a) => FinishAckSettled(w, a)
  }

  function MintStep(w: World, e: MintEvent): World {
    match e
    case QuotePaid(q) => PayQuote(w, q)
    case NewMeltQuote(q, n, f) => OpenMeltQuote(w, q, n, f)
    case MeltLands(r) => LandMelt(w, r)
    case MeltPays(q, c) => PayMelt(w, q, c)
    case MeltFails(q) => FailMelt(w, q)
    case ForeignSign(cs, ls) => OthersSign(w, cs, ls)
    case ForeignSpend(ss) => OthersSpend(w, ss)
  }

  function Step(w: World, e: Event): World {
    match e
    case OfPayment(p) => PayStep(w, p)
    case OfAdd(a) => AddStep(w, a)
    case OfCashOut(o) => OutStep(w, o)
    case OfOrder(o) => OrderStep(w, o)
    case OfSettle(s) => SettleStep(w, s)
    case OfMint(m) => MintStep(w, m)
    case SwapSent(r, a) => CallSwap(w, r, a)
    case Restoring(a) => RestoreSwap(w, a)
    case Crash => Go(w, Idle)
  }

  function Run(w: World, es: seq<Event>): World {
    if es == [] then w else Step(Run(w, es[..|es| - 1]), es[|es| - 1])
  }

  /** What a caller can check before confirming the cash-out of a review: a paid quote must have
      left change that does not unblind with the new outputs, and under a quote that is not paid no
      stored cash-out may still reserve proofs. */
  predicate SafeConfirm(w: World, rid: nat)
    requires rid in w.reviews && w.reviews[rid].OutReview?
  {
    var rv := w.reviews[rid];
    if PaidAt(w.mint, rv.quote) then !Unblinds(rv.blanks, w.mint.meltQuotes[rv.quote].state.change)
    else forall id :: id in w.snap.cashOut && w.snap.cashOut[id].quote == rv.quote ==> w.snap.cashOut[id].reserved.None?
  }

  predicate SafeEvent(w: World, e: Event) {
    e.OfCashOut? && e.out.ConfirmOut? && Confirmable(w, e.out.rid, e.out.id) ==> SafeConfirm(w, e.out.rid)
  }

  /** A run in which every confirmation of a cash-out was safe when it was made. */
  predicate SafeRun(w: World, es: seq<Event>) {
    es == [] || (SafeRun(w, es[..|es| - 1]) && SafeEvent(Run(w, es[..|es| - 1]), es[|es| - 1]))
  }
}
