/** What the attendee can still do with a stored payment: exactly the resumption of a payment that
    was delivered already can make it a dead end. */
module MarketChoices {
  import opened Ecash
  import opened MintLedger
  import opened MarketRecords
  import opened MarketSteps
  import opened MarketInvariant
  import opened MarketFrames
  import opened MarketLabels
  import opened MarketRuns
  import opened MarketTheorems

  /** The token is known to be spent, or the payment can be retried or checked. */
  predicate Open(p: Payment) {
    p.state.TokenSpent? || CanRetry(p) || CanCheck(p)
  }

  lemma DeadRecord(m: Mint, tags: map<nat, Tag>, id: nat, p: Payment)
    requires PaymentOk(m, tags, id, p)
    ensures !Open(p) <==> p.state in {ReadyToDeliver, Delivering} && p.deliveredAt.Some?
  {
    hide PaymentSwapOk, SwapValid, ProofListValid;
  }

  /** In every run a payment is a dead end exactly when a delivery of it is under way although it was
      delivered before. */
  lemma DeadEnd(es: seq<Event>, id: nat)
    requires id in Run(START, es).snap.payments
    ensures var p := Run(START, es).snap.payments[id];
      !Open(p) <==> p.state in {ReadyToDeliver, Delivering} && p.deliveredAt.Some?
  {
    Reached(es);
    var w := Run(START, es);
    assert PaymentsOk(w.mint, w.tags, w.snap.payments);
    hide Run, Inv, PaymentOk, Open;
    DeadRecord(w.mint, w.tags, id, w.snap.payments[id]);
  }

  /** The two choices by the state of the payment and what a delivery has said: a retry before the token
      is known to have arrived, unless the relay refused it for good; a check once the relay has answered. */
  predicate ChoicesByState(p: Payment) {
    && (CanRetry(p) <==> match p.state
          case Preparing => true
          case ReadyToDeliver => p.deliveredAt.None?
          case Delivering => p.deliveredAt.None?
          case PaymentRecoverable => p.deliveredAt.None? && p.deliveryRetryable != Some(false)
          case _ => false)
    && (CanCheck(p) <==> match p.state
          case Delivered => true
          case TokenUnspent => true
          case TokenPending => true
          case PaymentRecoverable => p.swap.None? || p.token.Some?
          case _ => false)
  }

  lemma ChoicesOf(m: Mint, tags: map<nat, Tag>, id: nat, p: Payment)
    requires PaymentOk(m, tags, id, p)
    ensures ChoicesByState(p)
  {
    hide PaymentSwapOk, SwapValid, ProofListValid;
  }

  /** In every run the choices offered for a payment follow from its state. */
  lemma ChoicesExactly(es: seq<Event>, id: nat)
    requires id in Run(START, es).snap.payments
    ensures ChoicesByState(Run(START, es).snap.payments[id])
  {
    Reached(es);
    var w := Run(START, es);
    assert PaymentsOk(w.mint, w.tags, w.snap.payments);
    hide Run, Inv, PaymentOk, ChoicesByState;
    ChoicesOf(w.mint, w.tags, id, w.snap.payments[id]);
  }

  // ---- resuming a delivered payment ----

  /** Resuming this payment would deliver it once more. */
  predicate Redelivers(p: Payment) { p.CompleteDelivery() && p.deliveredAt.Some? }

  predicate Guarded(w: World, e: Event) {
    e.OfPayment? && e.pay.ResumePay? && e.pay.id in w.snap.payments ==> !Redelivers(w.snap.payments[e.pay.id])
  }

  /** A run that resumes no payment that was delivered already. */
  predicate GuardedRun(w: World, es: seq<Event>) {
    es == [] || (GuardedRun(w, es[..|es| - 1]) && Guarded(Run(w, es[..|es| - 1]), es[|es| - 1]))
  }

  /** No guarded continuation makes this payment a dead end. */
  ghost predicate NeverStrands(c: World, id: nat) {
    forall es :: GuardedRun(c, es) ==> id in Run(c, es).snap.payments && Open(Run(c, es).snap.payments[id])
  }

  const INTERRUPTED: seq<Event> := [OfPayment(BeginDelivery)] + [Crash]

  lemma Interrupts(c: World, id: nat)
    requires c.task == DeliverStart(id) && id in c.snap.payments && Redelivers(c.snap.payments[id])
    ensures GuardedRun(c, INTERRUPTED) && id in Run(c, INTERRUPTED).snap.payments && !Open(Run(c, INTERRUPTED).snap.payments[id])
  {
    Interrupted(c, id);
    hide Step, Redelivers, Open, Guarded;
    var begin := OfPayment(BeginDelivery);
    GuardedMore(c, [], begin);
    assert [] + [begin] == [begin];
    GuardedMore(c, [begin], Crash);
    NotResuming(c, begin);
    NotResuming(Step(c, begin), Crash);
  }

  lemma GuardedMore(w: World, es: seq<Event>, e: Event)
    ensures Run(w, es + [e]) == Step(Run(w, es), e)
    ensures GuardedRun(w, es + [e]) == (GuardedRun(w, es) && Guarded(Run(w, es), e))
  {
    hide Step, Guarded;
    assert (es + [e])[..|es|] == es;
  }

  lemma NotResuming(w: World, e: Event)
    requires e.OfPayment? ==> !e.pay.ResumePay?
    ensures Guarded(w, e)
  {
  }

  lemma Interrupted(c: World, id: nat)
    requires c.task == DeliverStart(id) && id in c.snap.payments && Redelivers(c.snap.payments[id])
    ensures var v := Step(Step(c, OfPayment(BeginDelivery)), Crash); id in v.snap.payments && !Open(v.snap.payments[id])
  {
    hide PaymentOnly;
    assert Step(c, OfPayment(BeginDelivery)) == StartDelivery(c);
  }

  /** Resuming a delivered payment and losing the tab leaves a dead end. */
  lemma RedeliveryStrands(w: World, id: nat, valid: bool)
    requires w.task.Idle? && id in w.snap.payments && Redelivers(w.snap.payments[id])
    ensures !NeverStrands(ResumePayment(w, id, valid), id)
    ensures var v := Run(ResumePayment(w, id, valid), INTERRUPTED); id in v.snap.payments && !Open(v.snap.payments[id])
  {
    var c := ResumePayment(w, id, valid);
    assert c == Go(w, DeliverStart(id)) by { hide PaymentOnly; }
    hide Run, GuardedRun, Open, ResumePayment;
    Interrupts(c, id);
  }

  // ---- every other step leaves a way forward ----

  /** A delivery of this payment that is under way is the first one. */
  predicate FirstDelivery(payments: map<nat, Payment>, task: Task, id: nat) {
    && id in payments
    && (payments[id].state in {ReadyToDeliver, Delivering} ==> payments[id].deliveredAt.None?)
    && (task == DeliverStart(id) ==> payments[id].deliveredAt.None?)
  }

  /** A step that leaves payments alone and starts no delivery. */
  predicate Quiet(w: World, v: World) {
    v.snap.payments == w.snap.payments && (v.task == w.task || !v.task.DeliverStart?)
  }

  /** A recovery of this cash-out may be under way. */
  predicate Recovering(t: Task) {
    t.OutProofs? || t.OutSeen? || ((t.SwapCall? || t.RestoreCall? || t.SwapDone?) && t.job.RecoverJob?)
  }

  /** A quiet step that starts no recovery either. */
  predicate Calm(w: World, v: World) { Quiet(w, v) && (v.task == w.task || !Recovering(v.task)) }

  lemma QuietPrepare(w: World, outputs: seq<Coin>)
    ensures Calm(w, PrepareAdd(w, outputs))
  {
    hide Retag, Secrets, Distinct, Positive, Total, Fresh, AddOnly;
  }

  lemma QuietIssue(w: World, reaches: bool, answered: bool)
    ensures Calm(w, CallIssue(w, reaches, answered)) && Calm(w, RestoreIssue(w, answered))
  {
    hide Secrets, CanIssue, ApplyIssue, AddOnly;
  }

  lemma QuietCredit(w: World)
    ensures Calm(w, FinishAdd(w)) && Calm(w, GiveUpAdd(w))
  {
    hide Secrets, Retag, AddOnly;
  }

  lemma QuietPoll(w: World, id: nat, answered: bool, now: nat)
    ensures Calm(w, RefreshAdd(w, id, answered, now)) && Calm(w, RecordPayerFailure(w, id))
  {
    hide AddOnly;
  }

  lemma QuietAdd(w: World, e: AddEvent)
    ensures Calm(w, AddStep(w, e))
  {
    hide RecordPayerFailure, RefreshAdd, PrepareAdd, CallIssue, RestoreIssue, FinishAdd, GiveUpAdd;
    match e
    case PayerFailed(id) => QuietPoll(w, id, true, 0);
    case PollAdd(id, a, now) => QuietPoll(w, id, a, now);
    case ReadyAdd(os) => QuietPrepare(w, os);
    case Mint(r, a) => QuietIssue(w, r, a);
    case RestoreMint(a) => QuietIssue(w, false, a);
    case EndAdd => QuietCredit(w);
    case DropAdd => QuietCredit(w);
    case _ =>
  }

  lemma QuietTake(w: World, id: nat, change: seq<Coin>)
    requires id in w.snap.cashOut
    ensures Quiet(w, TakeChange(w, id, change))
  {
    hide Retag, Secrets, Unblinds, OutsKeep;
  }

  lemma QuietAct(w: World)
    ensures Quiet(w, ActOnQuote(w))
  {
    hide TakeChange, OutsKeep;
    if w.task.OutSeen? && w.task.id in w.snap.cashOut && w.task.found.Paid? { QuietTake(w, w.task.id, w.task.found.change); }
  }

  lemma QuietMelt(w: World, e: OutEvent)
    requires e.ReviewOut? || e.ConfirmOut? || e.Melt? || e.MeltAnswer? || e.EndMelt?
    ensures Quiet(w, OutStep(w, e))
  {
    hide Retag, Secrets, Fresh, Blanks, DistinctBlanks, OutsKeep, OutKeeps, LogsGrow;
  }

  lemma QuietRecovery(w: World, e: OutEvent)
    requires e.PollOut? || e.ReadyRecovery? || e.EndRecovery? || e.DropRecovery?
    ensures Quiet(w, OutStep(w, e))
  {
    hide Retag, Secrets, ReceiveSwap, OutsKeep, OutKeeps, LogsGrow;
  }

  lemma QuietOut(w: World, e: OutEvent)
    ensures Quiet(w, OutStep(w, e))
  {
    hide Quiet;
    match e
    case ActOut => QuietAct(w);
    case PollOut(_, _) => QuietRecovery(w, e);
    case ReadyRecovery(_, _) => QuietRecovery(w, e);
    case EndRecovery => QuietRecovery(w, e);
    case DropRecovery => QuietRecovery(w, e);
    case _ => hide OutStep; QuietMelt(w, e);
  }

  lemma QuietAccept(w: World, id: nat, payload: Payload, wellformed: bool, sameMint: bool, locks: map<nat, nat>)
    requires id in w.snap.orders
    ensures Calm(w, AcceptRead(w, id, payload, wellformed, sameMint, locks))
  {
    hide Foreign, Secrets, Order.Valid, OrdersKeep, TokensKeep, TokenKeeps;
  }

  lemma QuietRead(w: World, answer: ReadAnswer, now: nat)
    ensures Calm(w, FinishRead(w, answer, now))
  {
    hide AcceptRead, Order.Valid, OrderOnly, OrdersKeep, TokensKeep, TokenKeeps;
    if answer.Got? && w.task.ReadCall? && w.task.id in w.snap.orders {
      QuietAccept(w, w.task.id, answer.payload, answer.wellformed, answer.sameMint, answer.locks);
    }
  }

  lemma QuietCancel(w: World, answer: CancelAnswer)
    ensures Calm(w, FinishCancel(w, answer))
  {
    hide Order.Valid, OrderOnly, OrdersKeep, TokensKeep, TokenKeeps;
  }

  lemma QuietOrder(w: World, e: OrderEvent)
    ensures Calm(w, OrderStep(w, e))
  {
    hide FinishRead, FinishCancel, Order.Valid, OrderOnly, OrdersKeep, TokensKeep, TokenKeeps;
    match e
    case Read(a, now) => QuietRead(w, a, now);
    case CancelAnswered(a) => QuietCancel(w, a);
    case _ =>
  }

  lemma QuietLabel(w: World, id: nat, state: OrderState, next: Task)
    requires id in w.snap.orders && !next.DeliverStart? && !Recovering(next)
    ensures Calm(w, LabelOrder(w, id, state, next))
  {
    hide OrderOnly, OrdersKeep, TokensKeep;
  }

  lemma QuietStart(w: World, malformed: bool, sameMint: bool, locked: bool)
    ensures Calm(w, StartSettle(w, malformed, sameMint, locked))
  {
    hide LabelOrder, Order.Valid, Total, LockedTo, OrderOnly, OrdersKeep, TokensKeep, TokenKeeps;
    if w.task.SettleStart? && w.task.id in w.snap.orders {
      QuietLabel(w, w.task.id, OrderRecoverable, Idle);
      QuietLabel(w, w.task.id, Rejected, Idle);
      QuietLabel(w, w.task.id, Validating, TokenCheck(w.task.id));
    }
  }

  lemma QuietReady(w: World, sw: Swap)
    ensures Calm(w, PrepareSettle(w, sw))
  {
    hide LabelOrder, Retag, Secrets, Order.Valid, LockedTo, ReceiveSwap, OrderOnly, OrdersKeep, TokensKeep;
    if w.task.SwapPrepare? && w.task.id in w.snap.orders {
      QuietLabel(w, w.task.id, OrderRecoverable, Idle);
      QuietLabel(w, w.task.id, Rejected, Idle);
    }
  }

  lemma QuietEnd(w: World, answer: TokenState, acknowledged: bool)
    ensures Calm(w, FinishTokenCheck(w, answer)) && Calm(w, FinishSettle(w))
    ensures Calm(w, GiveUpSettle(w)) && Calm(w, FinishAckSettled(w, acknowledged))
  {
    hide Retag, Secrets, Order.Valid, OrderOnly, OrdersKeep, TokensKeep, TokenKeeps;
  }

  lemma QuietSettle(w: World, e: SettleEvent)
    ensures Calm(w, SettleStep(w, e))
  {
    hide Calm, StartSettle, FinishTokenCheck, PrepareSettle, FinishSettle, GiveUpSettle, FinishAckSettled;
    match e
    case Settle(m, s, l) => QuietStart(w, m, s, l);
    case TokenChecked(t) => QuietEnd(w, t, true);
    case ReadySettle(sw) => QuietReady(w, sw);
    case EndSettle => QuietEnd(w, NoAnswer, true);
    case DropSettle => QuietEnd(w, NoAnswer, true);
    case SettledAcked(a) => QuietEnd(w, NoAnswer, a);
  }

  lemma QuietMint(w: World, e: MintEvent)
    ensures Calm(w, MarketRuns.MintStep(w, e))
  {
    hide Retag, Secrets, CanLand, ApplyLand, CanPay, ApplyPay, ApplyFail, SignForeign, SpendForeign;
  }

  lemma QuietSwap(w: World, reaches: bool, answered: bool)
    ensures Quiet(w, CallSwap(w, reaches, answered)) && Quiet(w, RestoreSwap(w, answered))
  {
    hide CanSwap, ApplySwap, Secrets;
  }

  lemma FinishFirst(w: World, bytes: nat, id: nat)
    requires Inv(w) && FirstDelivery(w.snap.payments, w.task, id)
    ensures var v := FinishPayment(w, bytes); FirstDelivery(v.snap.payments, v.task, id)
  {
    if w.task.SwapDone? && w.task.job.PayJob? && HasSwap(w.snap, w.task.job) {
      assert PaymentOk(w.mint, w.tags, w.task.job.id, w.snap.payments[w.task.job.id]);
    }
    hide Inv, PaymentOk, Retag, Secrets, PaymentOnly;
  }

  lemma ResumeFirst(w: World, p: nat, valid: bool, id: nat)
    requires FirstDelivery(w.snap.payments, w.task, id) && Guarded(w, OfPayment(ResumePay(p, valid)))
    ensures var v := ResumePayment(w, p, valid); FirstDelivery(v.snap.payments, v.task, id)
  {
    hide PaymentOnly;
  }

  lemma StartFirst(w: World, id: nat)
    requires FirstDelivery(w.snap.payments, w.task, id)
    ensures FirstDelivery(StartDelivery(w).snap.payments, StartDelivery(w).task, id)
  {
    hide PaymentOnly;
  }

  lemma EndFirst(w: World, answer: DeliverAnswer, now: nat, id: nat)
    requires FirstDelivery(w.snap.payments, w.task, id)
    ensures FirstDelivery(Deliver(w, answer).snap.payments, Deliver(w, answer).task, id)
    ensures FirstDelivery(FinishDelivery(w, now).snap.payments, FinishDelivery(w, now).task, id)
  {
    hide PaymentOnly;
  }

  lemma ReviewFirst(w: World, rid: nat, rv: Review, id: nat)
    requires FirstDelivery(w.snap.payments, w.task, id)
    ensures FirstDelivery(ReviewPayment(w, rid, rv).snap.payments, ReviewPayment(w, rid, rv).task, id)
  {
    hide PaymentOnly, Retag, Secrets, Fresh, SwapValid, Swap.Wellformed;
  }

  lemma ConfirmFirst(w: World, rid: nat, p: nat, id: nat)
    requires FirstDelivery(w.snap.payments, w.task, id)
    ensures FirstDelivery(ConfirmPayment(w, rid, p).snap.payments, ConfirmPayment(w, rid, p).task, id)
  {
    hide PaymentOnly, Retag, Secrets;
  }

  lemma GiveUpFirst(w: World, id: nat)
    requires FirstDelivery(w.snap.payments, w.task, id)
    ensures FirstDelivery(GiveUpPayment(w).snap.payments, GiveUpPayment(w).task, id)
  {
    hide PaymentOnly;
  }

  lemma CheckFirst(w: World, p: nat, token: TokenState, id: nat)
    requires FirstDelivery(w.snap.payments, w.task, id)
    ensures FirstDelivery(CheckPayment(w, p, token).snap.payments, CheckPayment(w, p, token).task, id)
  {
    hide PaymentOnly, Payment.Valid;
  }

  lemma PayStepFirst(w: World, e: PayEvent, id: nat)
    requires Inv(w) && FirstDelivery(w.snap.payments, w.task, id) && Guarded(w, OfPayment(e))
    ensures FirstDelivery(PayStep(w, e).snap.payments, PayStep(w, e).task, id)
  {
    hide Inv, FirstDelivery, Guarded, ReviewPayment, ConfirmPayment, ResumePayment, FinishPayment, GiveUpPayment,
      StartDelivery, Deliver, FinishDelivery, CheckPayment;
    match e
    case ReviewPay(rid, rv) => ReviewFirst(w, rid, rv, id);
    case ConfirmPay(rid, p) => ConfirmFirst(w, rid, p, id);
    case ResumePay(p, valid) => ResumeFirst(w, p, valid, id);
    case FinishPay(bytes) => FinishFirst(w, bytes, id);
    case GiveUpPay => GiveUpFirst(w, id);
    case BeginDelivery => StartFirst(w, id);
    case Send(a) => EndFirst(w, a, 0, id);
    case EndDelivery(now) => EndFirst(w, Accepted, now, id);
    case CheckPay(p, t) => CheckFirst(w, p, t, id);
  }

  lemma StepFirst(w: World, e: Event, id: nat)
    requires Inv(w) && FirstDelivery(w.snap.payments, w.task, id) && Guarded(w, e)
    ensures FirstDelivery(Step(w, e).snap.payments, Step(w, e).task, id)
  {
    hide Inv, PayStep, AddStep, OutStep, OrderStep, SettleStep, MarketRuns.MintStep, CallSwap, RestoreSwap, Guarded;
    match e
    case OfPayment(p) => PayStepFirst(w, p, id);
    case OfAdd(a) => QuietAdd(w, a);
    case OfCashOut(o) => QuietOut(w, o);
    case OfOrder(o) => QuietOrder(w, o);
    case OfSettle(s) => QuietSettle(w, s);
    case OfMint(m) => QuietMint(w, m);
    case SwapSent(r, a) => QuietSwap(w, r, a);
    case Restoring(a) => QuietSwap(w, false, a);
    case Crash =>
  }

  lemma {:induction false} RunFirst(w: World, es: seq<Event>, id: nat)
    requires Inv(w) && FirstDelivery(w.snap.payments, w.task, id) && GuardedRun(w, es)
    ensures FirstDelivery(Run(w, es).snap.payments, Run(w, es).task, id)
  {
    hide Inv, Step, Guarded, FirstDelivery;
    if es != [] {
      var last := |es| - 1;
      RunFirst(w, es[..last], id);
      RunKeepsInv(w, es[..last]);
      StepFirst(Run(w, es[..last]), es[last], id);
    }
  }

  lemma FirstIsOpen(w: World, id: nat)
    requires Inv(w) && FirstDelivery(w.snap.payments, w.task, id)
    ensures Open(w.snap.payments[id])
  {
    PaymentAt(w, id);
    hide Inv, PaymentOk, Open;
    DeadRecord(w.mint, w.tags, id, w.snap.payments[id]);
  }

  lemma FirstNeverStrands(c: World, id: nat)
    requires Inv(c) && FirstDelivery(c.snap.payments, c.task, id)
    ensures NeverStrands(c, id)
  {
    hide Inv, FirstDelivery, Run, GuardedRun, Open;
    forall es | GuardedRun(c, es) ensures id in Run(c, es).snap.payments && Open(Run(c, es).snap.payments[id]) {
      RunFirst(c, es, id);
      RunKeepsInv(c, es);
      FirstIsOpen(Run(c, es), id);
      StillThere(Run(c, es), id);
    }
  }

  lemma StillThere(w: World, id: nat)
    requires FirstDelivery(w.snap.payments, w.task, id)
    ensures id in w.snap.payments
  {
  }

  /** In every reachable wallet at rest, resuming a payment can make it a dead end in some later run,
      although no delivered payment is resumed there, exactly when it was delivered already. */
  lemma ExactlyWhenDelivered(es: seq<Event>, id: nat, valid: bool)
    requires Run(START, es).task.Idle? && id in Run(START, es).snap.payments
    ensures var w := Run(START, es); NeverStrands(ResumePayment(w, id, valid), id) <==> !Redelivers(w.snap.payments[id])
  {
    Reached(es);
    var w := Run(START, es);
    if Redelivers(w.snap.payments[id]) {
      hide Inv, Run, NeverStrands;
      RedeliveryStrands(w, id, valid);
    } else {
      PaymentAt(w, id);
      KeepsResumePayment(w, id, valid);
      RestIsFirst(w, id);
      hide Inv, Run, NeverStrands, FirstDelivery, ResumePayment;
      ResumeFirst(w, id, valid, id);
      FirstNeverStrands(ResumePayment(w, id, valid), id);
    }
  }

  lemma RestIsFirst(w: World, id: nat)
    requires w.task.Idle? && id in w.snap.payments && w.snap.payments[id].Valid() && !Redelivers(w.snap.payments[id])
    ensures FirstDelivery(w.snap.payments, w.task, id)
  {
  }

  /** Only a confirmation stores a new payment. */
  lemma ReviewSame(w: World, rid: nat, rv: Review)
    ensures ReviewPayment(w, rid, rv).snap == w.snap
  {
    hide PaymentOnly, Retag, Secrets, Fresh, SwapValid, Swap.Wellformed;
  }

  lemma ResumeSame(w: World, id: nat, valid: bool)
    ensures ResumePayment(w, id, valid).snap == w.snap
  {
    hide PaymentOnly;
  }

  lemma PutSame(w: World, id: nat, p: Payment)
    requires id in w.snap.payments
    ensures PutPayment(w, id, p).snap.payments.Keys == w.snap.payments.Keys
  {
  }

  lemma FinishSame(w: World, bytes: nat)
    ensures FinishPayment(w, bytes).snap.payments.Keys == w.snap.payments.Keys
  {
    hide PaymentOnly, Retag, Secrets, PutPayment;
    if w.task.SwapDone? && w.task.job.PayJob? && HasSwap(w.snap, w.task.job) {
      var p := w.snap.payments[w.task.job.id];
      PutSame(w, w.task.job.id, p.(state := ReadyToDeliver, token := Some(p.swap.value.send),
                                   payload := Some(Payload(p.orderId, p.swap.value.send, bytes)), swap := None));
    }
  }

  lemma GiveUpSame(w: World)
    ensures GiveUpPayment(w).snap.payments.Keys == w.snap.payments.Keys
  {
    hide PaymentOnly;
  }

  lemma StartSame(w: World)
    ensures StartDelivery(w).snap.payments.Keys == w.snap.payments.Keys
  {
    hide PaymentOnly;
  }

  lemma EndSame(w: World, answer: DeliverAnswer, now: nat)
    ensures MarketSteps.Deliver(w, answer).snap == w.snap && FinishDelivery(w, now).snap.payments.Keys == w.snap.payments.Keys
  {
    hide PaymentOnly;
  }

  lemma CheckSame(w: World, id: nat, found: TokenState)
    ensures CheckPayment(w, id, found).snap.payments.Keys == w.snap.payments.Keys
  {
    hide PaymentOnly, Payment.Valid, CheckedPayment;
  }

  lemma SamePayments(w: World, e: PayEvent)
    requires !e.ConfirmPay?
    ensures PayStep(w, e).snap.payments.Keys == w.snap.payments.Keys
  {
    hide PaymentOnly, ReviewPayment, ConfirmPayment, ResumePayment, FinishPayment, GiveUpPayment, StartDelivery, MarketSteps.Deliver, FinishDelivery,
      CheckPayment;
    match e
    case ReviewPay(rid, rv) => ReviewSame(w, rid, rv);
    case ResumePay(id, valid) => ResumeSame(w, id, valid);
    case FinishPay(bytes) => FinishSame(w, bytes);
    case GiveUpPay => GiveUpSame(w);
    case BeginDelivery => StartSame(w);
    case Send(a) => EndSame(w, a, 0);
    case EndDelivery(now) => EndSame(w, Accepted, now);
    case CheckPay(id, t) => CheckSame(w, id, t);
  }

  lemma NewPayment(w: World, rid: nat, p: nat, id: nat)
    requires id !in w.snap.payments && id in ConfirmPayment(w, rid, p).snap.payments
    ensures FirstDelivery(ConfirmPayment(w, rid, p).snap.payments, ConfirmPayment(w, rid, p).task, id)
  {
    hide PaymentOnly, Retag, Secrets;
  }

  lemma StepNew(w: World, e: Event, id: nat)
    requires id !in w.snap.payments && id in Step(w, e).snap.payments
    ensures FirstDelivery(Step(w, e).snap.payments, Step(w, e).task, id)
  {
    hide FirstDelivery, PayStep, AddStep, OutStep, OrderStep, SettleStep, MarketRuns.MintStep, CallSwap, RestoreSwap;
    match e
    case OfPayment(p) => if p.ConfirmPay? { ConfirmStep(w, p.rid, p.id); NewPayment(w, p.rid, p.id, id); } else { SamePayments(w, p); }
    case OfAdd(a) => QuietAdd(w, a);
    case OfCashOut(o) => QuietOut(w, o);
    case OfOrder(o) => QuietOrder(w, o);
    case OfSettle(s) => QuietSettle(w, s);
    case OfMint(m) => QuietMint(w, m);
    case SwapSent(r, a) => QuietSwap(w, r, a);
    case Restoring(a) => QuietSwap(w, false, a);
    case Crash =>
  }

  lemma ConfirmStep(w: World, rid: nat, id: nat)
    ensures PayStep(w, ConfirmPay(rid, id)) == ConfirmPayment(w, rid, id)
  {
    hide ConfirmPayment;
  }

  lemma {:induction false} GuardedFirst(es: seq<Event>, id: nat)
    requires GuardedRun(START, es) && id in Run(START, es).snap.payments
    ensures FirstDelivery(Run(START, es).snap.payments, Run(START, es).task, id)
  {
    hide Inv, Step, Guarded, FirstDelivery;
    if es != [] {
      var last := |es| - 1;
      var w := Run(START, es[..last]);
      if id in w.snap.payments {
        GuardedFirst(es[..last], id);
        Reached(es[..last]);
        StepFirst(w, es[last], id);
      } else {
        StepNew(w, es[last], id);
      }
    }
  }

  /** In every run in which no delivered payment is resumed, through crashes and lost answers, each
      stored payment is spent or can still be retried or checked. */
  lemma AlwaysAWayForward(es: seq<Event>, id: nat)
    requires GuardedRun(START, es) && id in Run(START, es).snap.payments
    ensures Open(Run(START, es).snap.payments[id])
  {
    GuardedFirst(es, id);
    Reached(es);
    hide Inv, Run, FirstDelivery, GuardedRun, Open;
    FirstIsOpen(Run(START, es), id);
  }
}
