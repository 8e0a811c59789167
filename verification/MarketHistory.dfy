/** What one step may change: the facts that only ever grow along a run. */
module MarketHistory {
  import opened Ecash
  import opened MintLedger
  import opened MarketRecords
  import opened MarketSteps
  import opened MarketInvariant
  import opened MarketRuns

  /** The mint forgets nothing it signed, burned or was paid for. */
  predicate MintKeeps(m: Mint, n: Mint) {
    && m.signed.Keys <= n.signed.Keys && (forall s :: s in m.signed ==> n.signed[s] == m.signed[s])
    && m.spent <= n.spent && m.ours <= n.ours
    && (forall q :: q in m.meltQuotes ==>
          && q in n.meltQuotes && n.meltQuotes[q].amount == m.meltQuotes[q].amount
          && (m.meltQuotes[q].state.Paid? ==> n.meltQuotes[q].state == m.meltQuotes[q].state))
  }

  /** In one step a melt is paid only with the inputs that were pending. */
  predicate MeltsFrom(m: Mint, n: Mint) {
    forall q :: q in n.meltQuotes && n.meltQuotes[q].state.Paid? ==> q in m.meltQuotes && PaidFrom(m.meltQuotes[q].state, n.meltQuotes[q].state)
  }

  predicate PaidFrom(before: MeltState, paid: MeltState)
    requires paid.Paid?
  {
    paid == before || (before.Pending? && before.inputs == paid.inputs)
  }

  /** A move of the mint alone. */
  predicate MintOnly(w: World, v: World) {
    && MintKeeps(w.mint, v.mint) && MeltsFrom(w.mint, v.mint)
    && v.snap == w.snap && v.credits == w.credits && v.sent == w.sent && v.pledged == w.pledged && LossesStay(w.tags, v.tags)
  }

  lemma IssueHistory(w: World, reaches: bool, answered: bool)
    ensures MintOnly(w, CallIssue(w, reaches, answered))
  {
    if w.task.IssueCall? && w.task.id in w.snap.addCash && w.snap.addCash[w.task.id].outputs.Some? {
      var a := w.snap.addCash[w.task.id];
      if CanIssue(w.mint, a.quote, a.outputs.value) { SignedAfter(w.mint.signed, a.outputs.value); }
    }
  }

  lemma PayMeltHistory(w: World, quote: nat, change: seq<Coin>)
    ensures MintOnly(w, PayMelt(w, quote, change))
  {
    if CanPay(w.mint, quote, change) { SignedAfter(w.mint.signed, change); }
  }

  lemma ForeignKeeps(m: Mint, coins: seq<Coin>)
    requires Distinct(coins) && m.Unsigned(Secrets(coins))
    ensures MintKeeps(m, SignForeign(m, coins)) && MeltsFrom(m, SignForeign(m, coins))
  {
    SignedAfter(m.signed, coins);
  }

  lemma SignHistory(w: World, coins: seq<Coin>, locks: map<nat, nat>)
    ensures MintOnly(w, OthersSign(w, coins, locks))
  {
    hide Foreign, MintKeeps, MeltsFrom, SignForeign, Distinct, Secrets, Mint.Unsigned;
    var v := OthersSign(w, coins, locks);
    if v != w { ForeignKeeps(w.mint, coins); } else { SameMint(w.mint); }
  }

  lemma SameMint(m: Mint)
    ensures MintKeeps(m, m) && MeltsFrom(m, m)
  {
  }

  lemma LandHistory(w: World, r: MeltRequest)
    ensures MintOnly(w, LandMelt(w, r))
  {
  }

  lemma FailHistory(w: World, quote: nat)
    ensures MintOnly(w, FailMelt(w, quote))
  {
  }

  lemma SwapHistory(w: World, reaches: bool, answered: bool)
    ensures MintOnly(w, CallSwap(w, reaches, answered))
  {
    if w.task.SwapCall? && HasSwap(w.snap, w.task.job) && CanSwap(w.mint, SwapOf(w.snap, w.task.job)) {
      SignedAfter(w.mint.signed, SwapOf(w.snap, w.task.job).Outputs());
    }
  }

  predicate Keeps(w: World, v: World) {
    MintKeeps(w.mint, v.mint) && MeltsFrom(w.mint, v.mint) && OutsKeep(w.snap.cashOut, v.snap.cashOut) && OrdersKeep(w.snap.orders, v.snap.orders)
    && PledgesKeep(w, v) && LogsGrow(w, v)
  }

  /** A read changes its own order alone. */
  predicate ReadOnly(w: World, v: World) {
    v.mint == w.mint && v.pledged == w.pledged
    && v.snap.payments == w.snap.payments && v.snap.addCash == w.snap.addCash && v.snap.cashOut == w.snap.cashOut
    && OrdersKeep(w.snap.orders, v.snap.orders) && v.credits == w.credits && v.sent == w.sent && LossesStay(w.tags, v.tags)
  }

  lemma OrderPut(w: World, id: nat, o: Order, t: Task)
    requires id in w.snap.orders && o.amount == w.snap.orders[id].amount
    ensures ReadOnly(w, Go(w.(snap := w.snap.(orders := w.snap.orders[id := o])), t)) && ReadOnly(w, Go(w, t))
    ensures TokenKeeps(w.snap.orders[id], o) ==> ReadOnly(w, Go(PutOrder(w, id, o), t))
  {
  }

  /** Keeping a token, or storing the order as recoverable when the validator refuses it. */
  lemma TokenStored(w: World, id: nat, token: seq<Coin>, taken: Order)
    requires id in w.snap.orders && taken == w.snap.orders[id].(state := PayloadReceived, incomingToken := Some(token))
    ensures taken.Valid() ==> StoreToken(w, id, token) == Go(w.(snap := w.snap.(orders := w.snap.orders[id := taken])), AckCall(id))
    ensures !taken.Valid() ==> StoreToken(w, id, token) == LabelOrder(w, id, OrderRecoverable, Idle)
  {
    hide Order.Valid, OrdersKeep, TokensKeep, OrderOnly;
  }

  lemma StoreTokenOnly(w: World, id: nat, token: seq<Coin>)
    requires id in w.snap.orders
    ensures ReadOnly(w, StoreToken(w, id, token))
  {
    var taken := w.snap.orders[id].(state := PayloadReceived, incomingToken := Some(token));
    hide StoreToken, Order.Valid, ReadOnly;
    TokenStored(w, id, token, taken);
    OrderPut(w, id, taken, AckCall(id));
    OrderPut(w, id, w.snap.orders[id].(state := OrderRecoverable), Idle);
  }

  lemma AcceptReadOnly(w: World, id: nat, payload: Payload, wellformed: bool, sameMint: bool, locks: map<nat, nat>)
    requires id in w.snap.orders
    ensures ReadOnly(w, AcceptRead(w, id, payload, wellformed, sameMint, locks))
  {
    hide Foreign, StoreToken, Secrets;
    var o := w.snap.orders[id];
    OrderPut(w, id, o.(state := OrderRecoverable), Idle);
    OrderPut(w, id, o.(state := Rejected), Idle);
    StoreTokenOnly(w.(tags := Foreign(w.tags, Secrets(payload.proofs), locks)), id, payload.proofs);
  }

  lemma FinishReadOnly(w: World, answer: ReadAnswer, now: nat)
    ensures ReadOnly(w, FinishRead(w, answer, now))
  {
    assert ReadOnly(w, w);
    hide ReadOnly, Go, PutOrder, AcceptRead, Order.Valid;
    if w.task.ReadCall? && w.task.id in w.snap.orders && w.snap.orders[w.task.id].readCapability.Some? {
      var id, o := w.task.id, w.snap.orders[w.task.id];
      OrderPut(w, id, Expired(o), Idle);
      OrderPut(w, id, o.(state := OrderRecoverable), Idle);
      match answer
      case Got(payload, wellformed, sameMint, locks) => AcceptReadOnly(w, id, payload, wellformed, sameMint, locks);
      case _ =>
    }
  }

  /** One step keeps what grows; each kind of credit has its own kind of step, coins are lost only by
      steps on cash-outs, and a cash-out appears only when it is confirmed. */
  predicate StepKeeps(w: World, v: World, e: Event) {
    && Keeps(w, v)
    && (v.credits != w.credits && v.credits[|w.credits|].source.Vend? ==> e.OfSettle?)
    && (v.credits != w.credits && v.credits[|w.credits|].source.Out? ==> e.OfCashOut?)
    && ((e.OfOrder? && e.order.Read?) || TokensKeep(w.snap.orders, v.snap.orders))
    && (e.OfCashOut? || (v.snap.cashOut == w.snap.cashOut && LossesStay(w.tags, v.tags)))
    && (v.snap.cashOut.Keys == w.snap.cashOut.Keys || (e.OfCashOut? && e.out.ConfirmOut?))
  }

  lemma PayHistory(w: World, p: PayEvent)
    ensures StepKeeps(w, PayStep(w, p), OfPayment(p))
  {
    hide ReviewPayment, ConfirmPayment, ResumePayment, FinishPayment, GiveUpPayment, StartDelivery, Deliver,
      FinishDelivery, CheckPayment;
  }

  lemma AddHistory(w: World, a: AddEvent)
    ensures StepKeeps(w, AddStep(w, a), OfAdd(a))
  {
    hide RecordPayerFailure, RefreshAdd, PrepareAdd, RestoreIssue, FinishAdd, GiveUpAdd, CallIssue;
    if a.Mint? { IssueHistory(w, a.reaches, a.answered); }
  }

  lemma OutHistory(w: World, o: OutEvent)
    ensures StepKeeps(w, OutStep(w, o), OfCashOut(o))
  {
    hide ReviewCashOut, ConfirmCashOut, SendMelt, AnswerMelt, FinishMelt, RefreshCashOut, ActOnQuote, PrepareRecovery,
      FinishRecovery, GiveUpRecovery, OutKeeps;
  }

  lemma OrderHistory(w: World, o: OrderEvent)
    ensures StepKeeps(w, OrderStep(w, o), OfOrder(o))
  {
    hide CreateOrder, RegisterStored, FinishRegister, PollOrder, FinishRead, FinishAck, CancelOrder, FinishCancel;
    if o.Read? { FinishReadOnly(w, o.read, o.now); }
  }

  lemma SettleHistory(w: World, s: SettleEvent)
    ensures StepKeeps(w, SettleStep(w, s), OfSettle(s))
  {
    hide StartSettle, FinishTokenCheck, PrepareSettle, FinishSettle, GiveUpSettle, FinishAckSettled;
  }

  lemma MintOnlyKeeps(w: World, v: World, e: Event)
    requires MintOnly(w, v)
    ensures StepKeeps(w, v, e)
  {
    hide MintKeeps, MeltsFrom;
  }

  lemma PaidHistory(w: World, quote: nat)
    ensures MintOnly(w, PayQuote(w, quote))
  {
  }

  lemma OpenHistory(w: World, quote: nat, amount: nat, feeReserve: nat)
    ensures MintOnly(w, OpenMeltQuote(w, quote, amount, feeReserve))
  {
  }

  lemma SpendHistory(w: World, ss: set<nat>)
    ensures MintOnly(w, OthersSpend(w, ss))
  {
  }

  lemma MintHistory(w: World, m: MintEvent)
    ensures MintOnly(w, MintStep(w, m))
  {
    hide MintOnly, PayQuote, OpenMeltQuote, PayMelt, OthersSign, OthersSpend, LandMelt, FailMelt;
    match m
    case QuotePaid(q) => PaidHistory(w, q);
    case NewMeltQuote(q, n, f) => OpenHistory(w, q, n, f);
    case MeltPays(q, change) => PayMeltHistory(w, q, change);
    case ForeignSign(coins, locks) => SignHistory(w, coins, locks);
    case ForeignSpend(ss) => SpendHistory(w, ss);
    case MeltLands(r) => LandHistory(w, r);
    case MeltFails(q) => FailHistory(w, q);
  }

  /** Remote answers and crashes move only the operation in flight. */
  lemma RestHistory(w: World, answered: bool, e: Event)
    ensures StepKeeps(w, RestoreSwap(w, answered), e) && StepKeeps(w, Go(w, Idle), e)
  {
    hide Secrets;
  }

  lemma StepHistory(w: World, e: Event)
    ensures StepKeeps(w, Step(w, e), e)
  {
    hide StepKeeps, MintOnly, PayStep, AddStep, OutStep, OrderStep, SettleStep, MintStep, CallSwap, RestoreSwap, Go;
    match e
    case OfPayment(p) => PayHistory(w, p);
    case OfAdd(a) => AddHistory(w, a);
    case OfCashOut(o) => OutHistory(w, o);
    case OfOrder(o) => OrderHistory(w, o);
    case OfSettle(s) => SettleHistory(w, s);
    case OfMint(m) => MintHistory(w, m); MintOnlyKeeps(w, Step(w, e), e);
    case SwapSent(r, a) => SwapHistory(w, r, a); MintOnlyKeeps(w, Step(w, e), e);
    case Restoring(a) => RestHistory(w, a, e);
    case Crash => RestHistory(w, true, e);
  }
}
