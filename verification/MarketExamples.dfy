/** Runs from an empty wallet that reach an unsafe cash-out confirmation, a delivered payment that can
    neither be retried nor checked, and two orders that hold one token. */
module MarketExamples {
  import opened Ecash
  import opened MintLedger
  import opened MarketRecords
  import opened MarketSteps
  import opened MarketRuns
  import opened MarketQuotes
  import opened MarketChoices

  const ONE := Coin(1, 1)
  const TWO := Coin(2, 2)
  const SENT := Coin(3, 1)

  // ---- a wallet with two coins ----

  /** Three units are charged, paid, issued and credited. */
  const FUNDING: seq<Event> :=
    [OfAdd(NewAdd(0, 0, 3, None, false))] + [OfMint(MintEvent.QuotePaid(0))] + [OfAdd(PollAdd(0, true, 0))]
      + [OfAdd(ReadyAdd([ONE, TWO]))] + [OfAdd(AddEvent.Mint(true, true))] + [OfAdd(EndAdd)]

  predicate Untouched(w: World) {
    && w.snap.payments == map[] && w.snap.cashOut == map[] && w.reviews == map[]
    && w.mint.meltQuotes == map[] && w.mint.spent == {} && w.mint.locked == {}
  }

  predicate Charged(w: World, paid: bool) {
    && Untouched(w) && w.task.Idle? && w.snap.proofs == [] && w.tags.Keys == {} && w.mint.signed == map[] && w.mint.ours == {}
    && w.snap.addCash == map[0 := AddCash(AwaitingFunds, 3, 0, None, false, false, None)]
    && w.mint.mintQuotes == map[0 := MintQuote(3, paid, false)]
  }

  predicate Prepared(w: World) {
    && Untouched(w) && w.task == MarketSteps.IssueCall(0) && w.snap.proofs == [] && w.tags.Keys == {1, 2}
    && w.mint.signed == map[] && w.mint.ours == {}
    && w.snap.addCash == map[0 := AddCash(Issuing, 3, 0, None, false, false, Some([ONE, TWO]))]
    && w.mint.mintQuotes == map[0 := MintQuote(3, true, false)]
  }

  predicate Funded(w: World) {
    && Untouched(w) && w.task.Idle? && w.snap.proofs == [ONE, TWO] && w.tags.Keys == {1, 2}
    && w.mint.signed == map[1 := 1, 2 := 2] && w.mint.ours == {1, 2}
  }

  lemma TwoCoins()
    ensures Secrets([ONE, TWO]) == {1, 2} && Total([ONE, TWO]) == 3 && Distinct([ONE, TWO]) && Positive([ONE, TWO])
    ensures Amounts([ONE, TWO]) == map[1 := 1, 2 := 2]
  {
    assert [ONE, TWO][1..] == [TWO] && [TWO][1..] == [];
    assert Secrets([ONE, TWO]) == {1, 2} by { assert ONE in [ONE, TWO] && TWO in [ONE, TWO]; }
    OneCoin(TWO);
    assert Amounts([TWO]) == map[2 := 2];
  }

  lemma Charges(w: World)
    requires w == START
    ensures Charged(Step(w, OfAdd(NewAdd(0, 0, 3, None, false))), false)
  {
  }

  lemma Pays(w: World)
    requires Charged(w, false)
    ensures Charged(Step(w, OfMint(MintEvent.QuotePaid(0))), true)
  {
  }

  lemma Draws(w: World)
    requires Charged(w, true)
    ensures Prepared(PrepareAdd(RefreshAdd(w, 0, true, 0), [ONE, TWO]))
  {
    TwoCoins();
    hide Secrets, Total, Distinct, Positive, Amounts, AddOnly;
    assert RefreshAdd(w, 0, true, 0).task == AddObserved(0);
  }

  lemma Prepares(w: World)
    requires Charged(w, true)
    ensures Prepared(Step(Step(w, OfAdd(PollAdd(0, true, 0))), OfAdd(ReadyAdd([ONE, TWO]))))
  {
    hide Prepared, Charged, RefreshAdd, PrepareAdd, PayStep, OutStep, OrderStep, SettleStep, MarketRuns.MintStep, CallSwap, RestoreSwap;
    Draws(w);
  }

  lemma Issues(w: World)
    requires Prepared(w)
    ensures Funded(FinishAdd(CallIssue(w, true, true)))
  {
    TwoCoins();
    hide Secrets, Total, Distinct, Positive, Amounts;
    assert CanIssue(w.mint, 0, [ONE, TWO]);
    var v := CallIssue(w, true, true);
    assert v == w.(mint := ApplyIssue(w.mint, 0, [ONE, TWO]), task := IssueDone(0));
    assert v.mint.signed == map[1 := 1, 2 := 2] && v.mint.ours == {1, 2};
    hide CallIssue, AddOnly;
    assert [] + [ONE, TWO] == [ONE, TWO];
  }

  lemma Credits(w: World)
    requires Prepared(w)
    ensures Funded(Step(Step(w, OfAdd(AddEvent.Mint(true, true))), OfAdd(EndAdd)))
  {
    hide Prepared, Funded, CallIssue, FinishAdd, PayStep, OutStep, OrderStep, SettleStep, MarketRuns.MintStep, CallSwap, RestoreSwap;
    Issues(w);
  }

  lemma FundingRun()
    ensures SafeRun(START, FUNDING) && Funded(Run(START, FUNDING))
  {
    hide Run, SafeRun, SafeEvent, Step, Charged, Prepared, Funded;
    var e0, e1, e2 := OfAdd(NewAdd(0, 0, 3, None, false)), OfMint(MintEvent.QuotePaid(0)), OfAdd(PollAdd(0, true, 0));
    var e3, e4, e5 := OfAdd(ReadyAdd([ONE, TWO])), OfAdd(AddEvent.Mint(true, true)), OfAdd(EndAdd);
    RunOne(START, e0);
    RunMore(START, [e0], e1);
    RunMore(START, [e0] + [e1], e2);
    RunMore(START, [e0] + [e1] + [e2], e3);
    RunMore(START, [e0] + [e1] + [e2] + [e3], e4);
    RunMore(START, [e0] + [e1] + [e2] + [e3] + [e4], e5);
    forall w: World, e | e in {e0, e1, e2, e3, e4, e5} ensures SafeEvent(w, e) { Harmless(w, e); }
    Charges(START);
    Pays(Step(START, e0));
    Prepares(Step(Step(START, e0), e1));
    Credits(Step(Step(Step(Step(START, e0), e1), e2), e3));
  }

  // ---- an unsafe confirmation ----

  const FIRST := OutReview([ONE, TWO], [TWO], [ONE], [], 0, 1, 0)
  const SECOND := OutReview([TWO], [], [TWO], [], 0, 1, 0)

  /** Two cash-outs are reviewed under one melt quote, and the first is confirmed and interrupted. */
  const SHARING: seq<Event> :=
    [OfMint(NewMeltQuote(0, 1, 0))] + [OfCashOut(ReviewOut(0, FIRST))] + [OfCashOut(ConfirmOut(0, 0))] + [Crash]
      + [OfCashOut(ReviewOut(1, SECOND))]

  predicate Quoted(w: World) {
    && w.task.Idle? && w.snap.proofs == [ONE, TWO] && w.snap.cashOut == map[] && w.reviews == map[]
    && w.mint.meltQuotes == map[0 := MeltQuote(1, 0, Unpaid)]
  }

  predicate Interrupted(w: World) {
    && w.snap.proofs == [TWO] && w.snap.cashOut.Keys == {0} && w.snap.cashOut[0].quote == 0 && w.snap.cashOut[0].reserved.Some?
    && w.reviews.Keys == {0} && w.mint.meltQuotes == map[0 := MeltQuote(1, 0, Unpaid)]
  }

  predicate Reviewed(w: World) {
    && w.task.Idle? && w.snap.proofs == [ONE, TWO] && w.snap.cashOut == map[] && w.reviews == map[0 := FIRST]
    && w.mint.meltQuotes == map[0 := MeltQuote(1, 0, Unpaid)]
  }

  lemma OneCoin(c: Coin)
    ensures Total([c]) == c.amount
  {
    assert [c][1..] == [];
  }

  lemma NoBlanks()
    ensures Blanks([]) == {}
  {
    var none: seq<nat> := [];
    assert forall b :: b in Blanks(none) ==> b in none;
  }

  lemma Reviews(w: World)
    requires Quoted(w)
    ensures Reviewed(ReviewCashOut(w, 0, FIRST))
  {
    OneCoin(ONE);
    NoBlanks();
    hide Retag, Secrets, Blanks, Total, OutsKeep, OutOnly;
    assert multiset([ONE]) + multiset([TWO]) == multiset([ONE, TWO]);
  }

  lemma Confirms(w: World)
    requires Reviewed(w)
    ensures SafeConfirm(w, 0) && Interrupted(Go(ConfirmCashOut(w, 0, 0), Idle))
  {
    hide Retag, Secrets, Blanks, OutsKeep, OutOnly;
  }

  lemma Shares(w: World)
    requires Interrupted(w) && w.task.Idle?
    ensures var v := ReviewCashOut(w, 1, SECOND); Confirmable(v, 1, 1) && !SafeConfirm(v, 1)
  {
    OneCoin(TWO);
    NoBlanks();
    hide Retag, Secrets, Blanks, Total, OutsKeep, OutOnly;
  }

  lemma SharingSteps(w: World)
    requires Funded(w)
    ensures SafeRun(w, SHARING)
    ensures Run(w, SHARING) == ReviewCashOut(Go(ConfirmCashOut(ReviewCashOut(OpenMeltQuote(w, 0, 1, 0), 0, FIRST), 0, 0), Idle), 1, SECOND)
  {
    hide Run, SafeRun, OutOnly, OutsKeep, SafeConfirm, Reviewed, ReviewCashOut, ConfirmCashOut, PayStep, AddStep, OrderStep, SettleStep, CallSwap, RestoreSwap;
    var e0, e1, e2, e4 := OfMint(NewMeltQuote(0, 1, 0)), OfCashOut(ReviewOut(0, FIRST)), OfCashOut(ConfirmOut(0, 0)), OfCashOut(ReviewOut(1, SECOND));
    RunOne(w, e0);
    RunMore(w, [e0], e1);
    RunMore(w, [e0] + [e1], e2);
    RunMore(w, [e0] + [e1] + [e2], Crash);
    RunMore(w, [e0] + [e1] + [e2] + [Crash], e4);
    Reviews(OpenMeltQuote(w, 0, 1, 0));
    Confirms(ReviewCashOut(OpenMeltQuote(w, 0, 1, 0), 0, FIRST));
  }

  /** An unsafe confirmation is reachable from an empty wallet by a run that is safe so far; by
      `ExactlyWhenSafe`, a later run then forgets an unspent coin. */
  lemma UnsafeIsReachable()
    ensures SafeRun(START, FUNDING + SHARING)
    ensures var w := Run(START, FUNDING + SHARING); Confirmable(w, 1, 1) && !SafeConfirm(w, 1) && !NeverLoses(ConfirmCashOut(w, 1, 1))
  {
    hide NeverLoses, SafeConfirm, Confirmable, ConfirmCashOut, ReviewCashOut, Run, SafeRun, Funded, Interrupted;
    FundingRun();
    var w := Run(START, FUNDING);
    SharingSteps(w);
    RunJoin(START, FUNDING, SHARING);
    QuoteOpens(w);
    Reviews(OpenMeltQuote(w, 0, 1, 0));
    Confirms(ReviewCashOut(OpenMeltQuote(w, 0, 1, 0), 0, FIRST));
    Shares(Go(ConfirmCashOut(ReviewCashOut(OpenMeltQuote(w, 0, 1, 0), 0, FIRST), 0, 0), Idle));
    ExactlyWhenSafe(FUNDING + SHARING, 1, 1);
  }

  lemma QuoteOpens(w: World)
    requires Funded(w)
    ensures Quoted(OpenMeltQuote(w, 0, 1, 0))
  {
  }

  // ---- a payment delivered twice ----

  const PAYING := Swap(1, 0, [ONE], [], [SENT], [TWO])

  /** A payment of one unit for an order is reviewed, confirmed and prepared, and its delivery begins. */
  function PayingRun(orderId: nat, url: nat, bytes: nat): seq<Event> {
    [OfPayment(ReviewPay(0, PayReview([ONE, TWO], PAYING, orderId, 1, 0, url)))] + [OfPayment(ConfirmPay(0, 0))] + [SwapSent(true, true)]
      + [OfPayment(FinishPay(bytes))] + [OfPayment(BeginDelivery)]
  }

  /** The relay accepts it. */
  const ACCEPTED: seq<Event> := [OfPayment(Send(Accepted))] + [OfPayment(EndDelivery(0))]

  lemma PayingFits()
    ensures PAYING.Wellformed() && SwapValid(PAYING) && Secrets(PAYING.Outputs()) == {3} && Secrets([ONE]) == {1} && Secrets([SENT]) == {3}
    ensures multiset([ONE]) + multiset([TWO]) == multiset([ONE, TWO]) && PAYING.Outputs() == [SENT]
  {
    assert [] + [SENT] == [SENT] && [SENT][1..] == [] && [ONE][1..] == [];
    assert Secrets([ONE]) == {1} by { assert ONE in [ONE]; }
    assert Secrets([SENT]) == {3} by { assert SENT in [SENT]; }
    OneCoin(ONE);
    OneCoin(SENT);
  }

  /** The payment as it is stored before its outputs are signed. */
  function Confirmed(orderId: nat, url: nat): Payment {
    Payment(orderId, PaymentState.Preparing, 1, Some(0), Some(url), None, None, Some(PAYING), None, None)
  }

  lemma PaymentConfirmed(w: World, orderId: nat, url: nat)
    requires Funded(w)
    ensures var v := ConfirmPayment(ReviewPayment(w, 0, PayReview([ONE, TWO], PAYING, orderId, 1, 0, url)), 0, 0);
      v.task == SwapCall(PayJob(0, true)) && 0 in v.snap.payments && v.mint == w.mint && v.snap.payments[0] == Confirmed(orderId, url)
  {
    PayingFits();
    hide Retag, Secrets, Swap.Wellformed, SwapValid, PaymentOnly;
    var v := ReviewPayment(w, 0, PayReview([ONE, TWO], PAYING, orderId, 1, 0, url));
    assert v.reviews == map[0 := PayReview([ONE, TWO], PAYING, orderId, 1, 0, url)] && v.snap == w.snap && v.mint == w.mint;
  }

  /** The delivery of this payload to this address is under way. */
  predicate Sending(w: World, payload: Payload, url: nat) {
    && w.task == DeliverCall(0) && 0 in w.snap.payments && w.snap.payments[0].CompleteDelivery()
    && w.snap.payments[0].payload == Some(payload) && w.snap.payments[0].deliveryUrl == Some(url)
  }

  lemma PaymentPrepared(w: World, orderId: nat, url: nat, bytes: nat)
    requires w.task == SwapCall(PayJob(0, true)) && 0 in w.snap.payments && w.mint.signed == map[1 := 1, 2 := 2] && w.mint.spent == {} == w.mint.locked
    requires w.snap.payments[0] == Confirmed(orderId, url)
    ensures Sending(StartDelivery(FinishPayment(CallSwap(w, true, true), bytes)), Payload(orderId, [SENT], bytes), url)
  {
    PayingFits();
    hide Secrets, Swap.Wellformed, SwapValid, Retag, PaymentOnly, ApplySwap;
    assert CanSwap(w.mint, PAYING);
  }

  /** A delivered payment that is at rest. */
  predicate AtRest(w: World, id: nat) {
    w.task.Idle? && id in w.snap.payments && w.snap.payments[id].CompleteDelivery() && w.snap.payments[id].deliveredAt.Some?
  }

  lemma PaymentDelivered(w: World, payload: Payload, url: nat)
    requires Sending(w, payload, url)
    ensures AtRest(FinishDelivery(Deliver(w, Accepted), 0), 0)
  {
    hide PaymentOnly;
  }

  lemma PreparingSteps(w: World, orderId: nat, url: nat, bytes: nat)
    requires Funded(w)
    ensures var es := PayingRun(orderId, url, bytes);
      SafeRun(w, es) && Sending(Run(w, es), Payload(orderId, [SENT], bytes), url)
  {
    hide Run, SafeRun, SafeEvent, Funded, Sending, ReviewPayment, ConfirmPayment, CallSwap, FinishPayment, StartDelivery, AddStep,
      OutStep, OrderStep, SettleStep, MarketRuns.MintStep, RestoreSwap;
    var e0, e1 := OfPayment(ReviewPay(0, PayReview([ONE, TWO], PAYING, orderId, 1, 0, url))), OfPayment(ConfirmPay(0, 0));
    var e2, e3, e4 := SwapSent(true, true), OfPayment(FinishPay(bytes)), OfPayment(BeginDelivery);
    RunOne(w, e0);
    RunMore(w, [e0], e1);
    RunMore(w, [e0] + [e1], e2);
    RunMore(w, [e0] + [e1] + [e2], e3);
    RunMore(w, [e0] + [e1] + [e2] + [e3], e4);
    forall w: World, e | e in {e0, e1, e2, e3, e4} ensures SafeEvent(w, e) { Harmless(w, e); }
    PaymentConfirmed(w, orderId, url);
    FundedMint(w);
    PaymentPrepared(ConfirmPayment(ReviewPayment(w, 0, e0.pay.review), 0, 0), orderId, url, bytes);
  }

  lemma AcceptedSteps(w: World, payload: Payload, url: nat)
    requires Sending(w, payload, url)
    ensures SafeRun(w, ACCEPTED) && AtRest(Run(w, ACCEPTED), 0)
  {
    hide Run, SafeRun, SafeEvent, AtRest, Deliver, FinishDelivery, AddStep, OutStep, OrderStep, SettleStep, MarketRuns.MintStep, CallSwap, RestoreSwap;
    var e0, e1 := OfPayment(Send(Accepted)), OfPayment(EndDelivery(0));
    RunOne(w, e0);
    RunMore(w, [e0], e1);
    forall w: World, e | e in {e0, e1} ensures SafeEvent(w, e) { Harmless(w, e); }
    PaymentDelivered(w, payload, url);
  }

  /** From an empty wallet to a payment in delivery. */
  lemma PreparedRun(orderId: nat, url: nat, bytes: nat)
    ensures var es := FUNDING + PayingRun(orderId, url, bytes); SafeRun(START, es) && Sending(Run(START, es), Payload(orderId, [SENT], bytes), url)
  {
    hide Run, SafeRun, Funded, Sending, PayingRun;
    FundingRun();
    PreparingSteps(Run(START, FUNDING), orderId, url, bytes);
    RunJoin(START, FUNDING, PayingRun(orderId, url, bytes));
  }

  lemma FundedMint(w: World)
    requires Funded(w)
    ensures w.mint.signed == map[1 := 1, 2 := 2] && w.mint.spent == {} == w.mint.locked
  {
  }

  /** A payment is charged for, prepared and delivered. */
  const DELIVERING: seq<Event> := FUNDING + PayingRun(5, 0, 0) + ACCEPTED

  /** From an empty wallet: a payment delivered once, resumed and interrupted, can be neither retried nor checked. */
  lemma StrandedIsReachable(valid: bool)
    ensures var w := Run(START, DELIVERING); w.task.Idle? && 0 in w.snap.payments && Redelivers(w.snap.payments[0])
    ensures var v := Run(ResumePayment(Run(START, DELIVERING), 0, valid), INTERRUPTED); 0 in v.snap.payments && !Open(v.snap.payments[0])
  {
    hide Run, SafeRun, Open, ResumePayment, NeverStrands, PayingRun, Sending;
    PreparedRun(5, 0, 0);
    AcceptedSteps(Run(START, FUNDING + PayingRun(5, 0, 0)), Payload(5, [SENT], 0), 0);
    RunJoin(START, FUNDING + PayingRun(5, 0, 0), ACCEPTED);
    RedeliveryStrands(Run(START, DELIVERING), 0, valid);
  }

  // ---- one token delivered to two orders ----

  /** A charge is created, registered, polled and answered with this token, and the tab dies. */
  function TokenRun(id: nat): seq<Event> {
    [OfOrder(NewOrder(id, 1, 0, Keys(0, id), 0))] + [OfOrder(Registered(true))] + [OfOrder(Poll(id))]
      + [OfOrder(Read(Got(Payload(id, [ONE], 0), true, true, map[]), 0))] + [Crash]
  }

  /** The order of `TokenRun`. */
  function FreshOrder(id: nat, state: OrderState, registered: bool): Order {
    Order(state, 1, 0, Some(Keys(0, id)), Some(0), None, None, registered, false)
  }

  lemma Creates(w: World, id: nat)
    requires w.task.Idle? && id !in w.snap.orders && FreshKey(w.snap.orders, id)
    ensures var v := CreateOrder(w, id, 1, 0, Keys(0, id), 0);
      v.task == RegisterCall(id) && v.snap.orders == w.snap.orders[id := FreshOrder(id, Registering, false)]
  {
    hide OrderOnly, OrdersKeep, TokensKeep;
  }

  lemma Registers(w: World, id: nat)
    requires w.task == RegisterCall(id) && id in w.snap.orders && w.snap.orders[id] == FreshOrder(id, Registering, false)
    ensures var v := FinishRegister(w, true);
      v.task.Idle? && v.snap.orders == w.snap.orders[id := FreshOrder(id, AwaitingPayment, true)]
  {
    hide OrderOnly, OrdersKeep, TokensKeep;
  }

  lemma Polls(w: World, id: nat)
    requires w.task.Idle? && id in w.snap.orders && w.snap.orders[id] == FreshOrder(id, AwaitingPayment, true)
    ensures PollOrder(w, id).task == ReadCall(id) && PollOrder(w, id).snap == w.snap
  {
    hide OrderOnly, OrdersKeep, TokensKeep;
  }

  lemma Awaits(w: World, id: nat)
    requires w.task.Idle? && id !in w.snap.orders && FreshKey(w.snap.orders, id)
    ensures var v := PollOrder(FinishRegister(CreateOrder(w, id, 1, 0, Keys(0, id), 0), true), id);
      v.task == ReadCall(id) && v.snap.orders == w.snap.orders[id := FreshOrder(id, AwaitingPayment, true)]
  {
    hide CreateOrder, FinishRegister, PollOrder, FreshKey;
    Creates(w, id);
    Registers(CreateOrder(w, id, 1, 0, Keys(0, id), 0), id);
    Polls(FinishRegister(CreateOrder(w, id, 1, 0, Keys(0, id), 0), true), id);
  }

  lemma Takes(w: World, id: nat)
    requires w.task == ReadCall(id) && id in w.snap.orders && w.snap.orders[id].readCapability.Some? && w.snap.orders[id].keys.Some?
    requires w.snap.orders[id].incomingSwap.None? && w.snap.orders[id].amount == 1
    ensures var v := FinishRead(w, Got(Payload(id, [ONE], 0), true, true, map[]), 0);
      v.snap.orders == w.snap.orders[id := w.snap.orders[id].(state := PayloadReceived, incomingToken := Some([ONE]))]
  {
    hide Foreign, Secrets, OrdersKeep, TokensKeep;
  }

  lemma TokenSteps(w: World, id: nat)
    requires w.task.Idle? && id !in w.snap.orders && FreshKey(w.snap.orders, id)
    ensures var v := Run(w, TokenRun(id));
      && SafeRun(w, TokenRun(id)) && v.task.Idle?
      && v.snap.orders == w.snap.orders[id := Order(PayloadReceived, 1, 0, Some(Keys(0, id)), Some(0), Some([ONE]), None, true, false)]
  {
    hide Run, SafeRun, SafeEvent, CreateOrder, FinishRegister, PollOrder, FinishRead, FreshKey, PayStep, AddStep, OutStep, SettleStep,
      MarketRuns.MintStep, CallSwap, RestoreSwap, OrderOnly;
    var e0, e1, e2 := OfOrder(NewOrder(id, 1, 0, Keys(0, id), 0)), OfOrder(Registered(true)), OfOrder(Poll(id));
    var e3 := OfOrder(Read(Got(Payload(id, [ONE], 0), true, true, map[]), 0));
    RunOne(w, e0);
    RunMore(w, [e0], e1);
    RunMore(w, [e0] + [e1], e2);
    RunMore(w, [e0] + [e1] + [e2], e3);
    RunMore(w, [e0] + [e1] + [e2] + [e3], Crash);
    forall w: World, e | e in {e0, e1, e2, e3, Crash} ensures SafeEvent(w, e) { Harmless(w, e); }
    Awaits(w, id);
    Takes(PollOrder(FinishRegister(CreateOrder(w, id, 1, 0, Keys(0, id), 0), true), id), id);
  }

  /** A token is stored before its lock is checked, so two orders may hold the same one: only swap
      inputs are kept apart. */
  lemma TokensCanBeShared()
    ensures SafeRun(START, TokenRun(0) + TokenRun(1))
    ensures var os := Run(START, TokenRun(0) + TokenRun(1)).snap.orders;
      0 in os && 1 in os && os[0].incomingToken == Some([ONE]) == os[1].incomingToken
  {
    TokenSteps(START, 0);
    hide Run, SafeRun, TokenRun;
    TokenSteps(Run(START, TokenRun(0)), 1);
    RunJoin(START, TokenRun(0), TokenRun(1));
  }
}
