/** Nothing that is stored gets stuck: from every reachable wallet at rest, a prepared payment, a paid
    charge, a received token and a stored settlement can each be brought to their end, for exactly
    their amounts, by the operation that picks them up again. */
module MarketProgress {
  import opened Ecash
  import opened MintLedger
  import opened MarketRecords
  import opened MarketSteps
  import opened MarketRuns
  import opened MarketInvariant
  import opened MarketFrames
  import opened MarketTheorems
  import opened MarketQuotes

  // ---- completing a swap ----

  /** The mint has made this swap, or would make it now. */
  predicate Swappable(m: Mint, sw: Swap) { CanSwap(m, sw) || Secrets(sw.Outputs()) <= m.signed.Keys }

  /** The remote calls of `completeSwap`: made now, or restored because it was made before. */
  function Swapping(m: Mint, sw: Swap): seq<Event> {
    if CanSwap(m, sw) then [SwapSent(true, true)] else [SwapSent(true, true)] + [Restoring(true)]
  }

  lemma SwapSteps(w: World, job: Job, sw: Swap)
    requires w.task == SwapCall(job) && HasSwap(w.snap, job) && sw == SwapOf(w.snap, job) && Swappable(w.mint, sw)
    ensures var v := Run(w, Swapping(w.mint, sw)); v == w.(task := SwapDone(job), mint := v.mint)
  {
    RunOne(w, SwapSent(true, true));
    RunMore(w, [SwapSent(true, true)], Restoring(true));
    hide Run, CanSwap, ApplySwap, SafeEvent, PayStep, AddStep, OutStep, OrderStep, SettleStep, MarketRuns.MintStep, Secrets;
    if !CanSwap(w.mint, sw) { assert Step(w, SwapSent(true, true)) == Go(w, RestoreCall(job)); }
  }

  // ---- an order with a stored swap ----

  function SettlingRun(id: nat, m: Mint, sw: Swap): seq<Event> {
    [OfOrder(Poll(id))] + [OfSettle(Settle(false, true, true))] + Swapping(m, sw) + [OfSettle(EndSettle)]
  }

  lemma PollSettles(w: World, id: nat)
    requires w.task.Idle? && id in w.snap.orders && !w.snap.orders[id].state.OrderSettled?
      && (w.snap.orders[id].incomingToken.Some? || w.snap.orders[id].incomingSwap.Some?)
    ensures Step(w, OfOrder(Poll(id))) == Go(w, SettleStart(id))
  {
    hide OrderOnly, OrdersKeep, TokensKeep, PayStep, AddStep, OutStep, SettleStep, MarketRuns.MintStep;
  }

  lemma SwapResumes(w: World, id: nat)
    requires w.task == SettleStart(id) && id in w.snap.orders && w.snap.orders[id].incomingSwap.Some?
    ensures Step(w, OfSettle(Settle(false, true, true))) == Go(w, SwapCall(VendJob(id)))
  {
    hide OrderOnly, OrdersKeep, TokensKeep, PayStep, AddStep, OutStep, OrderStep, MarketRuns.MintStep, LabelOrder, LockedTo, Total;
  }

  /** The order is settled: its proceeds have come in, and its secrets are gone. */
  predicate SettledWith(w: World, v: World, id: nat, keep: seq<Coin>)
    requires id in w.snap.orders
  {
    && v.task.Idle? && v.snap.proofs == w.snap.proofs + keep && v.credits == w.credits + [Credit(Vend(id), keep)]
    && id in v.snap.orders && v.snap.orders[id].state.OrderSettled? && v.snap.orders[id].keys.None?
    && v.snap.orders[id].incomingToken.None? && v.snap.orders[id].incomingSwap.None? && v.snap.orders[id].amount == w.snap.orders[id].amount
  }

  lemma EndSettles(w: World, id: nat, sw: Swap)
    requires w.task == SwapDone(VendJob(id)) && id in w.snap.orders && w.snap.orders[id].incomingSwap == Some(sw) && sw.keep != []
    ensures SettledWith(w, Step(w, OfSettle(EndSettle)), id, sw.keep)
  {
    hide OrderOnly, OrdersKeep, TokensKeep, PayStep, AddStep, OutStep, OrderStep, MarketRuns.MintStep, Retag, Secrets;
  }

  lemma SwapSettles(w: World, id: nat, sw: Swap)
    requires w.task == SwapCall(VendJob(id)) && id in w.snap.orders && w.snap.orders[id].incomingSwap == Some(sw) && sw.keep != []
      && Swappable(w.mint, sw)
    ensures SettledWith(w, Run(w, Swapping(w.mint, sw) + [OfSettle(EndSettle)]), id, sw.keep)
  {
    SwapSteps(w, VendJob(id), sw);
    RunMore(w, Swapping(w.mint, sw), OfSettle(EndSettle));
    hide Run, Swapping, Swappable, Step, SettledWith;
    var u := Run(w, Swapping(w.mint, sw));
    EndSettles(u, id, sw);
    SettledFrom(w, u, Step(u, OfSettle(EndSettle)), id, sw.keep);
  }

  lemma SettledFrom(w: World, u: World, v: World, id: nat, keep: seq<Coin>)
    requires u == w.(task := u.task, mint := u.mint) && id in w.snap.orders && SettledWith(u, v, id, keep)
    ensures SettledWith(w, v, id, keep)
  {
  }

  lemma OrderFacts(w: World, id: nat)
    requires Inv(w) && id in w.snap.orders && w.snap.orders[id].incomingSwap.Some?
    ensures var o, sw := w.snap.orders[id], w.snap.orders[id].incomingSwap.value;
      !o.state.OrderSettled? && Total(sw.keep) == o.amount && sw.keep != []
  {
    OrderAt(w, id);
    hide Inv, Swap.Wellformed, SwapValid;
  }

  /** In every reachable wallet at rest, an order with a stored swap that the mint has made, or would make,
      is settled by the next poll, and pays in exactly the order's amount. */
  lemma StoredSwapSettles(es: seq<Event>, id: nat)
    requires Run(START, es).task.Idle? && id in Run(START, es).snap.orders && Run(START, es).snap.orders[id].incomingSwap.Some?
    requires Swappable(Run(START, es).mint, Run(START, es).snap.orders[id].incomingSwap.value)
    ensures var w := Run(START, es); var sw := w.snap.orders[id].incomingSwap.value;
      SettledWith(w, Run(w, SettlingRun(id, w.mint, sw)), id, sw.keep) && Total(sw.keep) == w.snap.orders[id].amount
  {
    Reached(es);
    var w := Run(START, es);
    hide Inv, Run, Swapping, Swappable, Step, SettledWith;
    OrderFacts(w, id);
    StoredSwapPays(w, id, w.snap.orders[id].incomingSwap.value);
  }

  lemma StoredSwapPays(w: World, id: nat, sw: Swap)
    requires w.task.Idle? && id in w.snap.orders && w.snap.orders[id].incomingSwap == Some(sw) && !w.snap.orders[id].state.OrderSettled?
      && sw.keep != [] && Swappable(w.mint, sw)
    ensures SettledWith(w, Run(w, SettlingRun(id, w.mint, sw)), id, sw.keep)
  {
    var poll, settle := OfOrder(Poll(id)), OfSettle(Settle(false, true, true));
    PollSettles(w, id);
    SwapResumes(Go(w, SettleStart(id)), id);
    RunOne(w, poll);
    RunMore(w, [poll], settle);
    hide Run, Swapping, Swappable, Step, SettledWith;
    var u := Go(w, SwapCall(VendJob(id)));
    assert Run(w, [poll] + [settle]) == u;
    SwapSettles(u, id, sw);
    RunAppend(w, [poll] + [settle], Swapping(w.mint, sw) + [OfSettle(EndSettle)]);
    assert SettlingRun(id, w.mint, sw) == [poll] + [settle] + (Swapping(w.mint, sw) + [OfSettle(EndSettle)]);
    SettledFrom(w, u, Run(w, SettlingRun(id, w.mint, sw)), id, sw.keep);
  }

  // ---- an order with a stored token ----

  function ReceivingRun(id: nat, sw: Swap): seq<Event> {
    [OfOrder(Poll(id))] + [OfSettle(Settle(false, true, true))] + [OfSettle(TokenChecked(AllUnspent))] + [OfSettle(ReadySettle(sw))]
      + ([SwapSent(true, true)] + [OfSettle(EndSettle)])
  }

  /** The order holds a token worth its amount and locked to its key. */
  predicate HoldsToken(w: World, id: nat, token: seq<Coin>) {
    && id in w.snap.orders
    && var o := w.snap.orders[id];
    && o.incomingToken == Some(token) && o.incomingSwap.None? && o.keys.Some? && Total(token) == o.amount
    && LockedTo(w, o.keys.value.privateKey, token)
  }

  lemma TokenValidated(w: World, id: nat, token: seq<Coin>)
    requires w.task == SettleStart(id) && HoldsToken(w, id, token)
    ensures var v := Step(w, OfSettle(Settle(false, true, true)));
      v.task == TokenCheck(id) && HoldsToken(v, id, token) && v.snap.orders[id].amount == w.snap.orders[id].amount
      && v == w.(task := v.task, snap := w.snap.(orders := v.snap.orders))
  {
    hide OrderOnly, OrdersKeep, TokensKeep, PayStep, AddStep, OutStep, OrderStep, MarketRuns.MintStep, Total;
  }

  lemma TokenPrepared(w: World, id: nat, token: seq<Coin>, sw: Swap)
    requires w.task == TokenCheck(id) && HoldsToken(w, id, token) && sw.inputs == token && ReceiveSwap(w, sw) && sw.amount == w.snap.orders[id].amount
    ensures var u := Step(w, OfSettle(TokenChecked(AllUnspent))); var v := Step(u, OfSettle(ReadySettle(sw)));
      && v.task == SwapCall(VendJob(id)) && id in v.snap.orders && v.snap.orders[id].incomingSwap == Some(sw)
      && v.snap.orders[id].amount == w.snap.orders[id].amount && v.mint == w.mint && v.credits == w.credits && v.snap.proofs == w.snap.proofs
  {
    var u := Step(w, OfSettle(TokenChecked(AllUnspent)));
    assert u == Go(w, SwapPrepare(id)) by { hide OrderOnly, OrdersKeep, TokensKeep, LabelOrder, PayStep, AddStep, OutStep, OrderStep, MarketRuns.MintStep; }
    hide OrderOnly, OrdersKeep, TokensKeep, PayStep, AddStep, OutStep, OrderStep, MarketRuns.MintStep, Total, LabelOrder, Retag, Secrets, LockedTo, ReceiveSwap;
    assert ReceiveSwap(u, sw) && LockedTo(u, u.snap.orders[id].keys.value.privateKey, sw.inputs) by { SameLooks(w, u, sw, u.snap.orders[id].keys.value.privateKey); }
  }

  lemma SameLooks(w: World, u: World, sw: Swap, key: nat)
    requires u.tags == w.tags
    ensures ReceiveSwap(u, sw) == ReceiveSwap(w, sw) && LockedTo(u, key, sw.inputs) == LockedTo(w, key, sw.inputs)
  {
    hide Swap.Wellformed, SwapValid, Secrets, Total;
  }

  /** Fresh outputs over spendable inputs can be swapped. */
  lemma FreshSwaps(w: World, sw: Swap)
    requires Inv(w) && ReceiveSwap(w, sw) && w.mint.AllSpendable(sw.inputs)
    ensures CanSwap(w.mint, sw) && sw.keep != []
  {
    assert TagsOk(w.mint, w.tags);
    assert sw.Outputs() == sw.keep;
    hide Inv;
  }

  /** In every reachable wallet at rest, an order with a stored token worth its amount, locked to its key and
      unspent at the mint, is settled by the next poll for exactly its amount, whatever swap the wallet
      draws over it. */
  lemma StoredTokenSettles(es: seq<Event>, id: nat, token: seq<Coin>, sw: Swap)
    requires Run(START, es).task.Idle? && HoldsToken(Run(START, es), id, token) && Run(START, es).mint.AllSpendable(token)
    requires sw.inputs == token && ReceiveSwap(Run(START, es), sw) && sw.amount == Run(START, es).snap.orders[id].amount
    ensures var w := Run(START, es); SettledWith(w, Run(w, ReceivingRun(id, sw)), id, sw.keep) && Total(sw.keep) == w.snap.orders[id].amount
  {
    Reached(es);
    var w := Run(START, es);
    hide Run, SettledWith, Inv, HoldsToken, ReceivingRun;
    FreshSwaps(w, sw);
    TokenIsOpen(w, id, token);
    hide ReceiveSwap;
    TokenPays(w, id, token, sw);
  }

  lemma TokenIsOpen(w: World, id: nat, token: seq<Coin>)
    requires Inv(w) && HoldsToken(w, id, token)
    ensures !w.snap.orders[id].state.OrderSettled?
  {
    OrderAt(w, id);
    hide Inv, LockedTo, Total;
  }

  lemma TokenPays(w: World, id: nat, token: seq<Coin>, sw: Swap)
    requires w.task.Idle? && HoldsToken(w, id, token) && !w.snap.orders[id].state.OrderSettled? && CanSwap(w.mint, sw) && sw.keep != []
    requires sw.inputs == token && ReceiveSwap(w, sw) && sw.amount == w.snap.orders[id].amount
    ensures SettledWith(w, Run(w, ReceivingRun(id, sw)), id, sw.keep)
  {
    var e0, e1, e2, e3 := OfOrder(Poll(id)), OfSettle(Settle(false, true, true)), OfSettle(TokenChecked(AllUnspent)), OfSettle(ReadySettle(sw));
    PollSettles(w, id);
    RunOne(w, e0);
    RunMore(w, [e0], e1);
    RunMore(w, [e0] + [e1], e2);
    RunMore(w, [e0] + [e1] + [e2], e3);
    hide Run, SafeRun, SafeEvent, Step, CanSwap, SettledWith, ReceiveSwap, LockedTo, Total;
    var w1 := Go(w, SettleStart(id));
    TokenValidated(w1, id, token);
    var w2 := Step(w1, e1);
    SameLooks(w, w2, sw, 0);
    TokenPrepared(w2, id, token, sw);
    var w4 := Step(Step(w2, e2), e3);
    RunAppend(w, [e0] + [e1] + [e2] + [e3], [SwapSent(true, true)] + [OfSettle(EndSettle)]);
    SwapSettles(w4, id, sw);
    SettledSince(w, w4, Run(w4, [SwapSent(true, true)] + [OfSettle(EndSettle)]), id, sw.keep);
  }

  lemma SettledSince(w: World, u: World, v: World, id: nat, keep: seq<Coin>)
    requires id in w.snap.orders && id in u.snap.orders && SettledWith(u, v, id, keep)
      && u.snap.orders[id].amount == w.snap.orders[id].amount && u.credits == w.credits && u.snap.proofs == w.snap.proofs
    ensures SettledWith(w, v, id, keep)
  {
  }

  // ---- a prepared payment ----

  function PayingOut(id: nat, m: Mint, sw: Swap, bytes: nat, now: nat): seq<Event> {
    [OfPayment(ResumePay(id, true))] + Swapping(m, sw) + Handing(bytes, now)
  }

  function Handing(bytes: nat, now: nat): seq<Event> {
    [OfPayment(FinishPay(bytes))] + [OfPayment(BeginDelivery)] + [OfPayment(Send(Accepted))] + [OfPayment(EndDelivery(now))]
  }

  /** The payment is delivered: its token has been sent to its address, and its change has come in. */
  predicate PaidOutWith(w: World, v: World, id: nat, sw: Swap, bytes: nat, now: nat)
    requires id in w.snap.payments && w.snap.payments[id].deliveryUrl.Some?
  {
    var p := w.snap.payments[id];
    var payload := Payload(p.orderId, sw.send, bytes);
    && v.task.Idle? && v.snap.proofs == w.snap.proofs + sw.keep && v.sent == w.sent + [Delivery(id, p.deliveryUrl.value, payload)]
    && id in v.snap.payments
    && v.snap.payments[id] == p.(state := Delivered, token := Some(sw.send), payload := Some(payload), swap := None,
                                 deliveryRetryable := None, deliveredAt := Some(now))
  }

  /** Stored payment swaps never get stuck: the mint has made them, or holds their inputs unspent. */
  lemma PaymentFacts(w: World, id: nat)
    requires Inv(w) && id in w.snap.payments && w.snap.payments[id].swap.Some?
    ensures var p, sw := w.snap.payments[id], w.snap.payments[id].swap.value;
      p.token.None? && p.request.Some? && p.deliveryUrl.Some? && p.deliveryRetryable.None? && p.deliveredAt.None? && Swappable(w.mint, sw)
  {
    PaymentAt(w, id);
    hide Inv, Swap.Wellformed, SwapValid, Secrets;
  }

  lemma Resumes(w: World, id: nat)
    requires w.task.Idle? && id in w.snap.payments && w.snap.payments[id].swap.Some? && w.snap.payments[id].token.None?
      && w.snap.payments[id].request.Some? && w.snap.payments[id].deliveryUrl.Some?
    ensures Step(w, OfPayment(ResumePay(id, true))) == Go(w, SwapCall(PayJob(id, false)))
  {
    hide PaymentOnly, AddStep, OutStep, OrderStep, SettleStep, MarketRuns.MintStep;
  }

  lemma HandsOver(w: World, id: nat, sw: Swap, bytes: nat, now: nat)
    requires w.task == SwapDone(PayJob(id, false)) && id in w.snap.payments && w.snap.payments[id].swap == Some(sw) && w.snap.payments[id].deliveryUrl.Some?
    ensures PaidOutWith(w, FinishDelivery(Deliver(StartDelivery(FinishPayment(w, bytes)), Accepted), now), id, sw, bytes, now)
  {
    var p := w.snap.payments[id];
    var ready := p.(state := ReadyToDeliver, token := Some(sw.send), payload := Some(Payload(p.orderId, sw.send, bytes)), swap := None);
    var sending := ready.(state := Delivering, deliveryRetryable := Some(true));
    hide PaymentOnly, Retag, Secrets;
    var u := StartDelivery(FinishPayment(w, bytes));
    assert FinishPayment(w, bytes).task == DeliverStart(id) && FinishPayment(w, bytes).snap.payments == w.snap.payments[id := ready];
    assert u.task == DeliverCall(id) && id in u.snap.payments && u.snap.payments[id] == sending
      && u.snap.proofs == w.snap.proofs + sw.keep && u.sent == w.sent;
    hide FinishPayment, StartDelivery;
  }

  lemma HandingSteps(w: World, bytes: nat, now: nat)
    ensures Run(w, Handing(bytes, now)) == FinishDelivery(Deliver(StartDelivery(FinishPayment(w, bytes)), Accepted), now)
  {
    hide Run, SafeRun, SafeEvent, FinishPayment, StartDelivery, Deliver, FinishDelivery, AddStep, OutStep, OrderStep, SettleStep, MarketRuns.MintStep,
      CallSwap, RestoreSwap;
    var e0, e1, e2, e3 := OfPayment(FinishPay(bytes)), OfPayment(BeginDelivery), OfPayment(Send(Accepted)), OfPayment(EndDelivery(now));
    RunOne(w, e0);
    RunMore(w, [e0], e1);
    RunMore(w, [e0] + [e1], e2);
    RunMore(w, [e0] + [e1] + [e2], e3);
  }

  lemma PaidFrom(w: World, u: World, v: World, id: nat, sw: Swap, bytes: nat, now: nat)
    requires u == w.(task := u.task, mint := u.mint) && id in w.snap.payments && w.snap.payments[id].deliveryUrl.Some? && PaidOutWith(u, v, id, sw, bytes, now)
    ensures PaidOutWith(w, v, id, sw, bytes, now)
  {
  }

  lemma PreparedPays(w: World, id: nat, sw: Swap, bytes: nat, now: nat)
    requires w.task.Idle? && id in w.snap.payments && w.snap.payments[id].swap == Some(sw) && w.snap.payments[id].token.None?
      && w.snap.payments[id].request.Some? && w.snap.payments[id].deliveryUrl.Some? && Swappable(w.mint, sw)
    ensures PaidOutWith(w, Run(w, PayingOut(id, w.mint, sw, bytes, now)), id, sw, bytes, now)
  {
    var resume := OfPayment(ResumePay(id, true));
    Resumes(w, id);
    RunOne(w, resume);
    hide Run, Step, Swapping, Swappable, PaidOutWith, Handing, FinishDelivery, Deliver, StartDelivery, FinishPayment;
    var u := Go(w, SwapCall(PayJob(id, false)));
    SwapSteps(u, PayJob(id, false), sw);
    var x := Run(u, Swapping(w.mint, sw));
    RunAppend(w, [resume], Swapping(w.mint, sw));
    RunAppend(w, [resume] + Swapping(w.mint, sw), Handing(bytes, now));
    HandingSteps(x, bytes, now);
    HandsOver(x, id, sw, bytes, now);
    PaidFrom(w, x, Run(x, Handing(bytes, now)), id, sw, bytes, now);
  }

  /** In every reachable wallet at rest, resuming a payment whose swap is still stored, and whose request is
      still accepted, can complete it: the swap is made or restored, the change comes in, and the token
      goes to the stored address. */
  lemma StoredPaymentDelivers(es: seq<Event>, id: nat, bytes: nat, now: nat)
    requires Run(START, es).task.Idle? && id in Run(START, es).snap.payments && Run(START, es).snap.payments[id].swap.Some?
    ensures var w := Run(START, es);
      w.snap.payments[id].deliveryUrl.Some?
      && PaidOutWith(w, Run(w, PayingOut(id, w.mint, w.snap.payments[id].swap.value, bytes, now)), id, w.snap.payments[id].swap.value, bytes, now)
  {
    Reached(es);
    var w := Run(START, es);
    hide Inv, Run, Swappable, PaidOutWith, PayingOut;
    PaymentFacts(w, id);
    PreparedPays(w, id, w.snap.payments[id].swap.value, bytes, now);
  }

  // ---- a paid charge ----

  function Issuing(m: Mint, a: AddCash): seq<Event>
    requires a.outputs.Some?
  {
    if CanIssue(m, a.quote, a.outputs.value) then [OfAdd(AddEvent.Mint(true, true))] else [OfAdd(AddEvent.Mint(true, true))] + [OfAdd(RestoreMint(true))]
  }

  function Minting(id: nat, m: Mint, a: AddCash, now: nat): seq<Event>
    requires a.outputs.Some?
  {
    [OfAdd(PollAdd(id, true, now))] + [OfAdd(ReadyAdd([]))] + Issuing(m, a) + [OfAdd(EndAdd)]
  }

  /** The charge is settled: its outputs have come in, and no other record has changed. */
  predicate MintedWith(w: World, v: World, id: nat, outputs: seq<Coin>)
    requires id in w.snap.addCash
  {
    && v.task.Idle? && v.snap.proofs == w.snap.proofs + outputs && v.credits == w.credits + [Credit(Add(id), outputs)]
    && v.snap == w.snap.(proofs := v.snap.proofs, addCash := w.snap.addCash[id := w.snap.addCash[id].(state := AddSettled, outputs := None)])
  }

  lemma PicksUp(w: World, id: nat, now: nat, observed: AddCash)
    requires w.task.Idle? && id in w.snap.addCash && w.snap.addCash[id].outputs.Some? && w.snap.addCash[id].quote in w.mint.mintQuotes
      && w.mint.mintQuotes[w.snap.addCash[id].quote].paid && observed == w.snap.addCash[id].(state := PaymentObserved)
    ensures Step(Step(w, OfAdd(PollAdd(id, true, now))), OfAdd(ReadyAdd([])))
         == w.(task := IssueCall(id), snap := w.snap.(addCash := w.snap.addCash[id := observed]))
  {
    hide AddOnly, PayStep, OutStep, OrderStep, SettleStep, MarketRuns.MintStep, Secrets, Distinct, Positive, Total, Retag, Fresh;
  }

  lemma IssueSteps(w: World, id: nat, a: AddCash)
    requires w.task == IssueCall(id) && id in w.snap.addCash && w.snap.addCash[id] == a && a.outputs.Some?
      && (CanIssue(w.mint, a.quote, a.outputs.value) || Secrets(a.outputs.value) <= w.mint.signed.Keys)
    ensures var v := Run(w, Issuing(w.mint, a)); v == w.(task := IssueDone(id), mint := v.mint)
  {
    var issue := OfAdd(AddEvent.Mint(true, true));
    if CanIssue(w.mint, a.quote, a.outputs.value) { IssuedQuote(w.mint, a.quote, a.outputs.value); }
    RunOne(w, issue);
    RunMore(w, [issue], OfAdd(RestoreMint(true)));
    hide Run, SafeEvent, CanIssue, ApplyIssue, AddOnly, PayStep, OutStep, OrderStep, SettleStep, MarketRuns.MintStep, Secrets;
    if !CanIssue(w.mint, a.quote, a.outputs.value) { assert Step(w, issue) == Go(w, IssueRestore(id)); }
  }

  lemma IssuedQuote(m: Mint, quote: nat, outputs: seq<Coin>)
    requires CanIssue(m, quote, outputs)
    ensures quote in m.mintQuotes
  {
  }

  lemma EndMints(w: World, v: World, id: nat, outputs: seq<Coin>, a: AddCash)
    requires id in w.snap.addCash && a == w.snap.addCash[id].(state := PaymentObserved) && a.outputs == Some(outputs) && outputs != []
    requires v == w.(task := IssueDone(id), mint := v.mint, snap := w.snap.(addCash := w.snap.addCash[id := a]))
    ensures MintedWith(w, Step(v, OfAdd(EndAdd)), id, outputs)
  {
    hide AddOnly, PayStep, OutStep, OrderStep, SettleStep, MarketRuns.MintStep, Retag, Secrets;
    var settled := w.snap.addCash[id].(state := AddSettled, outputs := None);
    assert w.snap.addCash[id := a][id := settled] == w.snap.addCash[id := settled];
  }

  lemma PaidMints(w: World, id: nat, a: AddCash, now: nat)
    requires w.task.Idle? && id in w.snap.addCash && w.snap.addCash[id] == a && a.outputs.Some? && a.outputs.value != []
      && a.quote in w.mint.mintQuotes && w.mint.mintQuotes[a.quote].paid
      && (CanIssue(w.mint, a.quote, a.outputs.value) || Secrets(a.outputs.value) <= w.mint.signed.Keys)
    ensures MintedWith(w, Run(w, Minting(id, w.mint, a, now)), id, a.outputs.value)
  {
    var e0, e1, observed := OfAdd(PollAdd(id, true, now)), OfAdd(ReadyAdd([])), a.(state := PaymentObserved);
    PicksUp(w, id, now, observed);
    RunOne(w, e0);
    RunMore(w, [e0], e1);
    hide Run, SafeRun, SafeEvent, Step, CanIssue, MintedWith;
    var u := w.(task := IssueCall(id), snap := w.snap.(addCash := w.snap.addCash[id := observed]));
    IssueSteps(u, id, observed);
    assert Issuing(w.mint, observed) == Issuing(w.mint, a);
    hide Issuing;
    RunAppend(w, [e0] + [e1], Issuing(w.mint, a));
    RunMore(w, [e0] + [e1] + Issuing(w.mint, a), OfAdd(EndAdd));
    EndMints(w, Run(u, Issuing(w.mint, a)), id, a.outputs.value, observed);
  }

  /** In every reachable wallet at rest, a charge with stored outputs whose quote is paid comes in when it is
      next looked at: the mint issues the outputs, or has signed them before and lets them be restored. */
  lemma PaidChargeComesIn(es: seq<Event>, id: nat, now: nat)
    requires Run(START, es).task.Idle? && id in Run(START, es).snap.addCash && Run(START, es).snap.addCash[id].outputs.Some?
    requires var w := Run(START, es); var a := w.snap.addCash[id];
      a.quote in w.mint.mintQuotes && w.mint.mintQuotes[a.quote].paid
      && (CanIssue(w.mint, a.quote, a.outputs.value) || Secrets(a.outputs.value) <= w.mint.signed.Keys)
    ensures var w := Run(START, es); var a := w.snap.addCash[id]; MintedWith(w, Run(w, Minting(id, w.mint, a, now)), id, a.outputs.value)
  {
    Reached(es);
    var w := Run(START, es);
    AddAt(w, id);
    hide Inv, Run, CanIssue, MintedWith, Minting, Secrets, Held, Tagged;
    PaidMints(w, id, w.snap.addCash[id], now);
  }
}
