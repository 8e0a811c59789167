/** The laws of the ledger, over every run: any interleaving of operations, lost answers, crashes,
    moves of the mint and of other people. */
module MarketTheorems {
  import opened Ecash
  import opened MintLedger
  import opened MarketRecords
  import opened MarketSteps
  import opened MarketInvariant
  import opened MarketFrames
  import opened MarketLabels
  import opened MarketDrafts
  import opened MarketValue
  import opened MarketCredits
  import opened MarketCalls
  import opened MarketRuns
  import opened MarketHistory
  import opened MarketLaws

  // ---- every step keeps the invariant ----


  lemma KeepsPayStep(w: World, e: PayEvent)
    requires Inv(w)
    ensures Inv(PayStep(w, e)) && TagsGrow(w.tags, PayStep(w, e).tags)
  {
    hide Inv, TagsGrow, ReviewPayment, ConfirmPayment, ResumePayment, FinishPayment, GiveUpPayment, StartDelivery,
      Deliver, FinishDelivery, CheckPayment;
    TagsStay(w.tags);
    match e
    case ReviewPay(rid, rv) => KeepsReviewPayment(w, rid, rv);
    case ConfirmPay(rid, id) => KeepsConfirmPayment(w, rid, id);
    case ResumePay(id, valid) => KeepsResumePayment(w, id, valid);
    case FinishPay(bytes) => KeepsFinishPayment(w, bytes);
    case GiveUpPay => KeepsGiveUpPayment(w);
    case BeginDelivery => KeepsStartDelivery(w);
    case Send(a) => KeepsDeliver(w, a);
    case EndDelivery(now) => KeepsFinishDelivery(w, now);
    case CheckPay(id, t) => KeepsCheckPayment(w, id, t);
  }

  lemma KeepsAddStep(w: World, e: AddEvent)
    requires Inv(w)
    ensures Inv(AddStep(w, e)) && TagsGrow(w.tags, AddStep(w, e).tags)
  {

    hide Inv, TagsGrow, RecordPayerFailure, RefreshAdd, PrepareAdd, RestoreIssue, FinishAdd, GiveUpAdd;
    TagsStay(w.tags);
    match e
    case NewAdd(id, q, n, x, f) => KeepsRequestAdd(w, id, q, n, x, f);
    case PayerFailed(id) => KeepsRecordPayerFailure(w, id);
    case PollAdd(id, a, now) => KeepsRefreshAdd(w, id, a, now);
    case ReadyAdd(os) => KeepsPrepareAdd(w, os);
    case Mint(r, a) => KeepsCallIssue(w, r, a);
    case RestoreMint(a) => KeepsRestoreIssue(w, a);
    case EndAdd => KeepsFinishAdd(w);
    case DropAdd => KeepsGiveUpAdd(w);
  }

  lemma KeepsOutStep(w: World, e: OutEvent)
    requires Inv(w)
    ensures Inv(OutStep(w, e)) && TagsGrow(w.tags, OutStep(w, e).tags)
  {
    hide Inv, TagsGrow, ReviewCashOut, ConfirmCashOut, SendMelt, AnswerMelt, FinishMelt, RefreshCashOut, ActOnQuote,
      PrepareRecovery, FinishRecovery, GiveUpRecovery;
    TagsStay(w.tags);
    match e
    case ReviewOut(rid, rv) => KeepsReviewCashOut(w, rid, rv);
    case ConfirmOut(rid, id) => KeepsConfirmCashOut(w, rid, id);
    case Melt => KeepsSendMelt(w);
    case MeltAnswer(a) => KeepsAnswerMelt(w, a);
    case EndMelt => KeepsFinishMelt(w);
    case PollOut(id, a) => KeepsRefreshCashOut(w, id, a);
    case ActOut => KeepsActOnQuote(w);
    case ReadyRecovery(t, sw) => KeepsPrepareRecovery(w, t, sw);
    case EndRecovery => KeepsFinishRecovery(w);
    case DropRecovery => KeepsGiveUpRecovery(w);
  }

  lemma KeepsOrderStep(w: World, e: OrderEvent)
    requires Inv(w)
    ensures Inv(OrderStep(w, e)) && TagsGrow(w.tags, OrderStep(w, e).tags)
  {
    hide Inv, TagsGrow, CreateOrder, RegisterStored, FinishRegister, PollOrder, FinishRead, FinishAck, CancelOrder, FinishCancel;
    TagsStay(w.tags);
    match e
    case NewOrder(id, n, x, k, r) => KeepsCreateOrder(w, id, n, x, k, r);
    case Reregister(id) => KeepsRegisterStored(w, id);
    case Registered(a) => KeepsFinishRegister(w, a);
    case Poll(id) => KeepsPollOrder(w, id);
    case Read(a, now) => KeepsFinishRead(w, a, now);
    case Acked(a) => KeepsFinishAck(w, a);
    case Cancel(id) => KeepsCancelOrder(w, id);
    case CancelAnswered(a) => KeepsFinishCancel(w, a);
  }

  lemma KeepsSettleStep(w: World, e: SettleEvent)
    requires Inv(w)
    ensures Inv(SettleStep(w, e)) && TagsGrow(w.tags, SettleStep(w, e).tags)
  {
    hide Inv, TagsGrow, StartSettle, FinishTokenCheck, PrepareSettle, FinishSettle, GiveUpSettle, FinishAckSettled;
    TagsStay(w.tags);
    match e
    case Settle(m, s, l) => KeepsStartSettle(w, m, s, l);
    case TokenChecked(t) => KeepsFinishTokenCheck(w, t);
    case ReadySettle(sw) => KeepsPrepareSettle(w, sw);
    case EndSettle => KeepsFinishSettle(w);
    case DropSettle => KeepsGiveUpSettle(w);
    case SettledAcked(a) => KeepsFinishAckSettled(w, a);
  }

  lemma KeepsMintStep(w: World, e: MintEvent)
    requires Inv(w)
    ensures Inv(MarketRuns.MintStep(w, e)) && TagsGrow(w.tags, MarketRuns.MintStep(w, e).tags)
  {
    hide Inv, TagsGrow, OthersSign, CanLand, ApplyLand, CanPay, ApplyPay, ApplyFail, SpendForeign;
    TagsStay(w.tags);
    match e
    case QuotePaid(q) => KeepsPayQuote(w, q);
    case NewMeltQuote(q, n, f) => KeepsOpenMeltQuote(w, q, n, f);
    case MeltLands(r) => KeepsLandMelt(w, r);
    case MeltPays(q, c) => KeepsPayMelt(w, q, c);
    case MeltFails(q) => KeepsFailMelt(w, q);
    case ForeignSign(cs, ls) => KeepsOthersSign(w, cs, ls);
    case ForeignSpend(ss) => KeepsOthersSpend(w, ss);
  }

  lemma SwapTagsSame(w: World, reaches: bool, answered: bool)
    ensures CallSwap(w, reaches, answered).tags == w.tags == RestoreSwap(w, answered).tags
  {
    hide CanSwap, ApplySwap;
  }

  lemma KeepsStep(w: World, e: Event)
    requires Inv(w)
    ensures Inv(Step(w, e)) && TagsGrow(w.tags, Step(w, e).tags)
  {
    hide Inv, TagsGrow, PayStep, AddStep, OutStep, OrderStep, SettleStep, MarketRuns.MintStep, CallSwap, RestoreSwap;
    TagsStay(w.tags);
    match e
    case OfPayment(p) => KeepsPayStep(w, p);
    case OfAdd(a) => KeepsAddStep(w, a);
    case OfCashOut(o) => KeepsOutStep(w, o);
    case OfOrder(o) => KeepsOrderStep(w, o);
    case OfSettle(s) => KeepsSettleStep(w, s);
    case OfMint(m) => KeepsMintStep(w, m);
    case SwapSent(r, a) => KeepsCallSwap(w, r, a); SwapTagsSame(w, r, a);
    case Restoring(a) => KeepsRestoreSwap(w, a); SwapTagsSame(w, false, a);
    case Crash => KeepsIdle(w);
  }

  lemma StartInv()
    ensures Inv(START)
  {
    assert EMPTY_MINT.LiveOurs() == {};
  }

  lemma {:induction false} RunKeepsInv(w: World, es: seq<Event>)
    requires Inv(w)
    ensures Inv(Run(w, es)) && TagsGrow(w.tags, Run(w, es).tags)
  {
    hide Inv, Step;
    TagsStay(w.tags);
    if es != [] {
      var last := |es| - 1;
      RunKeepsInv(w, es[..last]);
      KeepsStep(Run(w, es[..last]), es[last]);
    }
  }

  lemma Reached(es: seq<Event>)
    ensures Inv(Run(START, es))
  {
    StartInv();
    RunKeepsInv(START, es);
  }

  lemma {:induction false} RunAppend(w: World, es: seq<Event>, fs: seq<Event>)
    ensures Run(w, es + fs) == Run(Run(w, es), fs)
  {
    hide Step;
    if fs == [] {
      assert es + fs == es;
    } else {
      var last := |fs| - 1;
      assert (es + fs)[..|es + fs| - 1] == es + fs[..last];
      RunAppend(w, es, fs[..last]);
    }
  }

  // ---- conservation through crashes ----

  /** After every run the spendable coins, the live coins of stored swaps and reservations, the
      signed outputs not yet credited and the coins released without credit are worth exactly what
      the mint issued to this wallet and what others sent it, less what was locked to vendors, melted
      and paid in fees. */
  lemma Conservation(es: seq<Event>)
    ensures var w := Run(START, es); var m := w.mint;
      && m.ours <= m.signed.Keys
      && Total(w.snap.proofs) + Live(m, InPayments(w.snap.payments)) + Live(m, InOrders(w.snap.orders)) + Live(m, InAdds(w.snap.addCash))
         + Live(m, InCashOuts(w.snap.cashOut)) + Live(m, LostCoins(w.tags)) + m.books.vendor + m.books.melted + m.books.fees
         == m.books.issued + m.books.received
  {
    Reached(es);
    var w := Run(START, es);
    hide Run, PaymentsOk, OrdersOk, AddsOk, OutsOk, NothingLost, ProofsOk, Live;
    EveryPlace(w.mint, w.tags, w.snap);
  }

  /** The spendable set holds distinct secrets the mint has signed for their amounts and not spent. */
  lemma SpendableIsGood(es: seq<Event>)
    ensures var w := Run(START, es);
      Distinct(w.snap.proofs) && w.mint.AllSpendable(w.snap.proofs) && Secrets(w.snap.proofs) <= w.mint.ours
  {
    Reached(es);
    hide Run;
  }

  /** Two operations never share a stored input, reserved proof or output, and none of these is in
      the spendable set. The inputs of a settlement count: the locks of two orders never agree. */
  lemma FootprintsDisjoint(es: seq<Event>, o: Owner, p: Owner)
    requires o != p
    ensures Stored(Run(START, es).snap, o) !! Stored(Run(START, es).snap, p)
  {
    Reached(es);
    var w := Run(START, es);
    hide Run, PaymentsOk, OrdersOk, AddsOk, OutsOk, Stored, StoredFor, KeysOk;
    StoredOwner(w.mint, w.tags, w.snap, o);
    StoredOwner(w.mint, w.tags, w.snap, p);
    forall s | s in Stored(w.snap, o) ensures s !in Stored(w.snap, p) {
      if s in Stored(w.snap, p) { StoredApart(w.snap, o, p, w.tags[s].owner); }
    }
  }

  /** Every snapshot any run stores would load again. */
  lemma SnapshotsLoad(es: seq<Event>)
    ensures ValidSnapshot(Run(START, es).snap)
  {
    Reached(es);
    var w := Run(START, es);
    hide Run, PaymentsOk, OrdersOk, AddsOk, OutsOk, ValidSnapshot;
    SnapshotIsValid(w.mint, w.tags, w.snap);
  }

  // ---- credit at most once ----

  /** Over a whole run no operation pays in twice and no coin is credited twice; a credited coin is
      spendable until it is given up as an input, for good. */
  lemma CreditAtMostOnce(es: seq<Event>, i: nat, j: nat)
    requires i < j < |Run(START, es).credits|
    ensures var w := Run(START, es);
      && w.credits[i].source != w.credits[j].source
      && Secrets(w.credits[i].coins) !! Secrets(w.credits[j].coins) && Distinct(w.credits[i].coins)
      && forall c :: c in w.credits[i].coins ==> c.secret in w.tags && (w.tags[c.secret].owner.Spendable? || w.tags[c.secret].retired)
  {
    Reached(es);
    hide Run;
    var w := Run(START, es);
    assert Credited(w.tags, w.credits[i].coins);
  }

  lemma RunHistory(w: World, es: seq<Event>)
    ensures w.credits <= Run(w, es).credits && w.sent <= Run(w, es).sent && MintKeeps(w.mint, Run(w, es).mint)
  {
    hide Step;
    if es != [] {
      var last := |es| - 1;
      RunHistory(w, es[..last]);
      StepHistory(Run(w, es[..last]), es[last]);
    }
  }

  /** An input or reserved proof given up once never returns to the spendable set. */
  lemma GivenUpForever(es: seq<Event>, fs: seq<Event>, owner: Owner)
    ensures GivenUp(Run(START, es).snap, owner) !! Secrets(Run(START, es + fs).snap.proofs)
  {
    RunAppend(START, es, fs);
    Reached(es);
    Reached(es + fs);
    var w := Run(START, es);
    RunKeepsInv(w, fs);
    var v := Run(w, fs);
    hide Run, GivenUp, PaymentsOk, OrdersOk, AddsOk, OutsOk;
    GivenUpRetired(w.mint, w.tags, w.snap, owner);
    assert Tagged(v.tags, Secrets(v.snap.proofs), Tag(Spendable, false));
  }

  // ---- same bytes ----

  /** All delivery attempts of one payment, before and after crashes, carry the identical payload
      to the identical address. */
  lemma SameBytes(es: seq<Event>, i: nat, j: nat)
    requires i < |Run(START, es).sent| && j < |Run(START, es).sent|
    requires Run(START, es).sent[i].id == Run(START, es).sent[j].id
    ensures Run(START, es).sent[i].payload == Run(START, es).sent[j].payload
      && Run(START, es).sent[i].url == Run(START, es).sent[j].url
  {
    Reached(es);
    hide Run;
  }
}
