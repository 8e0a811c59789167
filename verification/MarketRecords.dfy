/** What a market application stores: the snapshot, its operation records and the validator every
    load and save runs over them. Records are kept in maps keyed by their identifier. */
module MarketRecords {
  import opened Ecash

  // ---- attendee payments ----

  datatype PaymentState =
    Preparing | ReadyToDeliver | Delivering | Delivered | TokenUnspent | TokenPending | TokenSpent | PaymentRecoverable

  /** The stored delivery text. `bytes` stands for everything in the text that the coins and the
      order do not determine, such as the proofs of a signature. */
  datatype Payload = Payload(orderId: nat, proofs: seq<Coin>, bytes: nat)

  datatype Payment = Payment(
    orderId: nat,
    state: PaymentState,
    amount: nat,
    request: Option<nat>,
    deliveryUrl: Option<nat>,
    payload: Option<Payload>,
    token: Option<seq<Coin>>,
    swap: Option<Swap>,
    deliveryRetryable: Option<bool>,
    deliveredAt: Option<nat>)
  {
    predicate CompleteDelivery() { token.Some? && payload.Some? && deliveryUrl.Some? }

    /** The shape rules of `normalizePayment`. */
    predicate Valid() {
      && (state.Preparing? ==> swap.Some? && request.Some? && deliveryUrl.Some?)
      && (state in {ReadyToDeliver, Delivering, Delivered, TokenUnspent, TokenPending} ==> CompleteDelivery())
      && (state.PaymentRecoverable? ==> swap.Some? || CompleteDelivery())
      && (state.TokenSpent? ==> token.None? && payload.None? && swap.None? && request.None? && deliveryUrl.None?)
      && (deliveryRetryable == Some(false) ==> state.PaymentRecoverable?)
      && (deliveredAt.Some? ==> CompleteDelivery() || state.TokenSpent?)
      && (payload.Some? ==> payload.value.orderId == orderId && ProofListValid(payload.value.proofs) && payload.value.proofs != [])
      && (swap.Some? ==> SwapValid(swap.value))
      && amount > 0
    }
  }

  predicate CanRetry(p: Payment) {
    && p.state in {Preparing, ReadyToDeliver, Delivering, PaymentRecoverable}
    && p.deliveredAt.None? && p.deliveryRetryable != Some(false)
    && if p.swap.Some? then p.request.Some? && p.deliveryUrl.Some? else p.CompleteDelivery()
  }

  predicate CanCheck(p: Payment) {
    p.token.Some? && p.state in {Delivered, TokenUnspent, TokenPending, PaymentRecoverable}
  }

  // ---- vendor orders ----

  datatype OrderState =
    | Registering | AwaitingPayment | Cancelling | PayloadReceived | Validating | Swapping
    | OrderSettled | Cancelled | OrderExpired | Rejected | OrderRecoverable

  /** The request, its digest, the delivery URL, the write capability and the key pair: an order
      keeps all of them or none. The number of the private key also stands for its public key. */
  datatype Keys = Keys(writeCapability: nat, privateKey: nat)

  datatype Order = Order(
    state: OrderState,
    amount: nat,
    expiresAt: nat,
    keys: Option<Keys>,
    readCapability: Option<nat>,
    incomingToken: Option<seq<Coin>>,
    incomingSwap: Option<Swap>,
    relayRegistered: bool,
    relayAcknowledged: bool)
  {
    /** The shape rules of `normalizeOrder`. */
    predicate Valid() {
      && (state in {Registering, AwaitingPayment, Cancelling} ==> keys.Some? && readCapability.Some?)
      && (state in {PayloadReceived, Validating} ==> incomingToken.Some? && keys.Some?)
      && (state.Swapping? ==> incomingSwap.Some? && keys.Some?)
      && (state in {OrderSettled, Cancelled, OrderExpired} ==> keys.None? && incomingToken.None? && incomingSwap.None?)
      && (incomingSwap.Some? ==> SwapValid(incomingSwap.value))
      && amount > 0
    }
  }

  // ---- add cash ----

  datatype AddState =
    AwaitingFunds | PaymentObserved | Issuing | AddSettled | AddExpired | AddRecoverable

  datatype AddCash = AddCash(
    state: AddState,
    amount: nat,
    quote: nat,
    expiry: Option<nat>,
    fromFaucet: bool,
    hasQuoteKey: bool,
    outputs: Option<seq<Coin>>)

  // ---- cash out ----

  datatype CashOutState = Dispatching | OutPending | OutPaid | OutFailed | OutUnknown

  datatype QuoteLabel = QuoteUnpaid | QuotePending | QuotePaid

  datatype CashOut = CashOut(
    state: CashOutState,
    amount: nat,
    quote: nat,
    quoteState: QuoteLabel,
    inputFee: nat,
    reserved: Option<seq<Coin>>,
    blanks: Option<seq<nat>>,
    recovery: Option<Swap>)
  {
    predicate Valid() {
      && (reserved.Some? ==> ProofListValid(reserved.value))
      && (recovery.Some? ==> SwapValid(recovery.value))
      && amount > 0
    }
  }

  // ---- the snapshot ----

  datatype Snapshot = Snapshot(
    proofs: seq<Coin>,
    payments: map<nat, Payment>,
    orders: map<nat, Order>,
    addCash: map<nat, AddCash>,
    cashOut: map<nat, CashOut>)

  const EMPTY_SNAPSHOT := Snapshot([], map[], map[], map[], map[])

  predicate ProofListValid(cs: seq<Coin>) { Distinct(cs) && Positive(cs) }

  predicate SwapValid(sw: Swap) {
    sw.amount >= 1 && sw.inputs != [] && ProofListValid(sw.inputs) && ProofListValid(sw.unselected)
  }

  function InputsOf(sw: Option<Swap>): seq<Coin> { if sw.Some? then sw.value.inputs else [] }

  function ReservedOf(o: CashOut): seq<Coin> { if o.reserved.Some? then o.reserved.value else [] }

  /** `normalizeSnapshot`: what `saveMarketSnapshot` demands of every commit. */
  predicate ValidSnapshot(s: Snapshot) {
    && ProofListValid(s.proofs)
    && (forall id :: id in s.payments ==> s.payments[id].Valid())
    && (forall id :: id in s.orders ==> s.orders[id].Valid())
    && (forall id :: id in s.cashOut ==> s.cashOut[id].Valid())
    && (forall id :: id in s.addCash ==> s.addCash[id].amount > 0)
    && (forall id :: id in s.payments ==> Secrets(InputsOf(s.payments[id].swap)) !! Secrets(s.proofs))
    && (forall id :: id in s.cashOut ==> Secrets(ReservedOf(s.cashOut[id])) !! Secrets(s.proofs))
  }
}
