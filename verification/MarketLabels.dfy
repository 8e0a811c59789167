/** Steps that move no value: they rewrite labels of one record or only move the operation in flight. */
module MarketLabels {
  import opened Ecash
  import opened MintLedger
  import opened MarketRecords
  import opened MarketSteps
  import opened MarketInvariant
  import opened MarketFrames

  // ---- attendee ----

  lemma KeepsResumePayment(w: World, id: nat, valid: bool)
    requires Inv(w)
    ensures Inv(ResumePayment(w, id, valid))
  {
    if w.task.Idle? && id in w.snap.payments {
      var p := w.snap.payments[id];
      if p.swap.Some? && p.token.None? {
        if p.request.Some? && p.deliveryUrl.Some? && valid { Retask(w, SwapCall(PayJob(id, false))); }
      } else if p.CompleteDelivery() {
        Retask(w, DeliverStart(id));
      }
    }
  }

  lemma KeepsGiveUpPayment(w: World)
    requires Inv(w)
    ensures Inv(GiveUpPayment(w))
  {
    if w.task.SwapFailed? && w.task.job.PayJob? && w.task.job.id in w.snap.payments {
      var id := w.task.job.id;
      assert PaymentOk(w.mint, w.tags, id, w.snap.payments[id]);
      if w.task.job.confirming {
        RelabelPayment(w, id, w.snap.payments[id].(state := PaymentRecoverable), Idle);
      } else {
        Retask(w, Idle);
      }
    }
  }

  lemma KeepsStartDelivery(w: World)
    requires Inv(w)
    ensures Inv(StartDelivery(w))
  {
    if w.task.DeliverStart? {
      var id := w.task.id;
      assert PaymentOk(w.mint, w.tags, id, w.snap.payments[id]);
      RelabelPayment(w, id, w.snap.payments[id].(state := Delivering, deliveryRetryable := Some(true)), DeliverCall(id));
    }
  }

  lemma KeepsFinishDelivery(w: World, now: nat)
    requires Inv(w)
    ensures Inv(FinishDelivery(w, now))
  {
    if w.task.DeliverSeen? {
      var id := w.task.id;
      var p := w.snap.payments[id];
      assert PaymentOk(w.mint, w.tags, id, p);
      match w.task.answer
      case Accepted => RelabelPayment(w, id, p.(state := Delivered, deliveryRetryable := None, deliveredAt := Some(now)), Idle);
      case Refused(retryable) => RelabelPayment(w, id, p.(state := PaymentRecoverable, deliveryRetryable := Some(retryable)), Idle);
    }
  }

  lemma CheckedOk(m: Mint, tags: map<nat, Tag>, id: nat, p: Payment, answer: TokenState, next: Payment)
    requires PaymentOk(m, tags, id, p) && p.token.Some?
    requires (next == CheckedPayment(p, answer) && next.Valid()) || next == p.(state := PaymentRecoverable)
    ensures PaymentOk(m, tags, id, next) && next.swap == p.swap
    ensures next.payload.Some? ==> next.payload == p.payload && next.deliveryUrl == p.deliveryUrl
  {
  }

  lemma KeepsCheckPayment(w: World, id: nat, answer: TokenState)
    requires Inv(w)
    ensures Inv(CheckPayment(w, id, answer))
  {
    if w.task.Idle? && id in w.snap.payments && w.snap.payments[id].token.Some? {
      PaymentAt(w, id);
      hide Inv, PaymentOk, PaymentOnly, CheckedPayment, Payment.Valid, TaskOk;
      var p := w.snap.payments[id];
      var next := CheckedPayment(p, answer);
      var stored := if next.Valid() then next else p.(state := PaymentRecoverable);
      CheckedOk(w.mint, w.tags, id, p, answer, stored);
      IdleOk(w.mint, PutPayment(w, id, stored).snap);
      RelabelPayment(w, id, stored, Idle);
      assert Go(PutPayment(w, id, stored), Idle) == PutPayment(w, id, stored);
    }
  }

  lemma IdleOk(m: Mint, snap: Snapshot)
    ensures TaskOk(m, snap, Idle)
  {
  }

  // ---- add cash ----

  lemma KeepsRecordPayerFailure(w: World, id: nat)
    requires Inv(w)
    ensures Inv(RecordPayerFailure(w, id))
  {
    if w.task.Idle? && id in w.snap.addCash && w.snap.addCash[id].fromFaucet {
      var a := w.snap.addCash[id].(state := AddRecoverable);
      RelabelAdd(w, id, a, Idle);
      assert Go(PutAdd(w, id, a), Idle) == PutAdd(w, id, a);
    }
  }

  lemma KeepsRefreshAdd(w: World, id: nat, answered: bool, now: nat)
    requires Inv(w)
    ensures Inv(RefreshAdd(w, id, answered, now))
  {
    hide PaymentsOk, OutsOk, OutsOk, ProofsOk, TagsOk, NothingLost, AllClosed, CreditsOk, SentOk, ReviewsOk, WireOk, MeltsKnown, PledgesOk, KeysOk, OrdersOk;
    if w.task.Idle? && id in w.snap.addCash {
      var a := w.snap.addCash[id];
      if !answered || a.quote !in w.mint.mintQuotes {
        RelabelAdd(w, id, a.(state := AddRecoverable), Idle);
        assert Go(PutAdd(w, id, a.(state := AddRecoverable)), Idle) == PutAdd(w, id, a.(state := AddRecoverable));
      } else if !w.mint.mintQuotes[a.quote].paid {
        RelabelAdd(w, id, a.(state := AddExpired), Idle);
        assert Go(PutAdd(w, id, a.(state := AddExpired)), Idle) == PutAdd(w, id, a.(state := AddExpired));
      } else {
        RelabelAdd(w, id, a.(state := PaymentObserved), AddObserved(id));
      }
    }
  }

  lemma KeepsRestoreIssue(w: World, answered: bool)
    requires Inv(w)
    ensures Inv(RestoreIssue(w, answered))
  {
    if RestoreIssue(w, answered) != w { Retask(w, RestoreIssue(w, answered).task); }
  }

  lemma KeepsGiveUpAdd(w: World)
    requires Inv(w)
    ensures Inv(GiveUpAdd(w))
  {
    if w.task.IssueFailed? && w.task.id in w.snap.addCash {
      RelabelAdd(w, w.task.id, w.snap.addCash[w.task.id].(state := AddRecoverable), Idle);
    }
  }

  // ---- swaps ----

  lemma KeepsRestoreSwap(w: World, answered: bool)
    requires Inv(w)
    ensures Inv(RestoreSwap(w, answered))
  {
    if w.task.RestoreCall? && HasSwap(w.snap, w.task.job) {
      Retask(w, RestoreSwap(w, answered).task);
    }
  }

  // ---- cash out ----

  lemma KeepsAnswerMelt(w: World, answered: bool)
    requires Inv(w)
    ensures Inv(AnswerMelt(w, answered))
  {
    hide PaymentsOk, AddsOk, OrdersOk, ProofsOk, TagsOk, NothingLost, AllClosed, CreditsOk, SentOk, ReviewsOk, WireOk, MeltsKnown, PledgesOk, KeysOk, OutsKeep;
    if w.task.MeltWait? && w.task.id in w.snap.cashOut {
      assert OutOk(w.mint, w.tags, w.task.id, w.snap.cashOut[w.task.id]);
      Retask(w, AnswerMelt(w, answered).task);
    }
  }

  lemma KeepsRefreshCashOut(w: World, id: nat, answered: bool)
    requires Inv(w)
    ensures Inv(RefreshCashOut(w, id, answered))
  {
    if w.task.Idle? && id in w.snap.cashOut {
      var o := w.snap.cashOut[id];
      assert OutOk(w.mint, w.tags, id, o);
      if answered {
        Retask(w, OutSeen(id, w.mint.meltQuotes[o.quote].state));
      } else {
        RelabelOut(w, id, o.(state := OutUnknown), Idle);
        assert Go(PutOut(w, id, o.(state := OutUnknown)), Idle) == PutOut(w, id, o.(state := OutUnknown));
      }
    }
  }

  lemma KeepsGiveUpRecovery(w: World)
    requires Inv(w)
    ensures Inv(GiveUpRecovery(w))
  {
    if w.task.SwapFailed? && w.task.job.RecoverJob? && w.task.job.id in w.snap.cashOut {
      var id := w.task.job.id;
      assert OutOk(w.mint, w.tags, id, w.snap.cashOut[id]);
      RelabelOut(w, id, w.snap.cashOut[id].(state := OutUnknown), Idle);
    }
  }

  // ---- vendor ----

  lemma KeepsTryOrder(w: World, id: nat, after: Order, next: Task)
    requires Inv(w) && id in w.snap.orders
    requires after.incomingSwap == w.snap.orders[id].incomingSwap && after.amount == w.snap.orders[id].amount
      && TokenKeeps(w.snap.orders[id], after)
    requires after.keys == w.snap.orders[id].keys || (after.keys.None? && after.state in {Cancelled, OrderExpired})
    requires next in {Idle, AckCall(id)}
    ensures Inv(TryOrder(w, id, w.snap.orders[id], after, next))
  {
    hide PaymentsOk, AddsOk, OutsOk, ProofsOk, TagsOk, NothingLost, AllClosed, CreditsOk, SentOk, ReviewsOk, WireOk, MeltsKnown, PledgesOk, KeysOk, OrdersKeep, TokensKeep;
    var o := w.snap.orders[id];
    assert OrderOk(w.mint, w.tags, id, o);
    assert after.Valid() ==> OrderOk(w.mint, w.tags, id, after);
    assert OrderOk(w.mint, w.tags, id, o.(state := OrderRecoverable));
    hide Inv, OrderOk;
    if after.Valid() {
      RelabelOrder(w, id, after, next);
    } else {
      RelabelOrder(w, id, o.(state := OrderRecoverable), Idle);
    }
  }

  /** Rewriting the state of an order to one that asks nothing of its shape. */
  lemma OrderLabel(w: World, id: nat, state: OrderState)
    requires Inv(w) && id in w.snap.orders && state in {OrderRecoverable, Rejected}
    ensures Inv(Go(PutOrder(w, id, w.snap.orders[id].(state := state)), Idle))
    ensures Go(PutOrder(w, id, w.snap.orders[id].(state := state)), Idle).tags == w.tags
  {
    assert OrderOk(w.mint, w.tags, id, w.snap.orders[id]);
    RelabelOrder(w, id, w.snap.orders[id].(state := state), Idle);
  }

  lemma KeepsRegisterStored(w: World, id: nat)
    requires Inv(w)
    ensures Inv(RegisterStored(w, id))
  {
    if w.task.Idle? && id in w.snap.orders {
      var o := w.snap.orders[id];
      if o.keys.Some? && o.readCapability.Some? {
        Retask(w, RegisterCall(id));
      } else {
        OrderLabel(w, id, OrderRecoverable);
        assert Go(PutOrder(w, id, o.(state := OrderRecoverable)), Idle) == PutOrder(w, id, o.(state := OrderRecoverable));
      }
    }
  }

  lemma KeepsFinishRegister(w: World, accepted: bool)
    requires Inv(w)
    ensures Inv(FinishRegister(w, accepted))
  {
    if w.task.RegisterCall? && w.task.id in w.snap.orders {
      var o := w.snap.orders[w.task.id];
      if accepted {
        KeepsTryOrder(w, w.task.id, o.(state := AwaitingPayment, relayRegistered := true), Idle);
      } else {
        OrderLabel(w, w.task.id, OrderRecoverable);
      }
    }
  }

  lemma KeepsPollOrder(w: World, id: nat)
    requires Inv(w)
    ensures Inv(PollOrder(w, id))
  {
    if w.task.Idle? && id in w.snap.orders { Retask(w, PollTask(id, w.snap.orders[id])); }
  }

  lemma KeepsFinishAck(w: World, acknowledged: bool)
    requires Inv(w)
    ensures Inv(FinishAck(w, acknowledged))
  {
    if w.task.AckCall? && w.task.id in w.snap.orders {
      var o := w.snap.orders[w.task.id];
      assert OrderOk(w.mint, w.tags, w.task.id, o);
      RelabelOrder(w, w.task.id, o.(relayAcknowledged := acknowledged), SettleStart(w.task.id));
    }
  }

  lemma OrderLabelled(w: World, id: nat, state: OrderState)
    requires Inv(w) && id in w.snap.orders && state in {OrderRecoverable, Rejected}
    ensures Inv(LabelOrder(w, id, state, Idle))
  {
    hide Inv, OrderOnly, OrdersKeep, TokensKeep;
    OrderLabel(w, id, state);
  }

  lemma OrderValidating(w: World, id: nat)
    requires Inv(w) && id in w.snap.orders && w.snap.orders[id].incomingToken.Some? && w.snap.orders[id].keys.Some?
    ensures Inv(LabelOrder(w, id, Validating, TokenCheck(id)))
  {
    OrderAt(w, id);
    var o := w.snap.orders[id].(state := Validating);
    assert OrderOk(w.mint, w.tags, id, o);
    assert TaskOk(w.mint, w.snap.(orders := w.snap.orders[id := o]), TokenCheck(id));
    hide Inv, OrderOk, TaskOk, OrderOnly, OrdersKeep, TokensKeep;
    RelabelOrder(w, id, o, TokenCheck(id));
  }

  lemma SettleResumed(w: World, id: nat)
    requires Inv(w) && w.task == SettleStart(id)
    ensures Inv(Go(w, SwapCall(VendJob(id))))
  {
    Retask(w, SwapCall(VendJob(id)));
    hide Inv;
  }

  lemma KeepsStartSettle(w: World, malformed: bool, sameMint: bool, locked: bool)
    requires Inv(w)
    ensures Inv(StartSettle(w, malformed, sameMint, locked))
  {
    hide Inv, Go, LabelOrder, LockedTo, Total, OrderOnly, OrdersKeep, TokensKeep;
    if w.task.SettleStart? && w.task.id in w.snap.orders {
      var id := w.task.id;
      SettleResumed(w, id);
      OrderLabelled(w, id, OrderRecoverable);
      OrderLabelled(w, id, Rejected);
      if w.snap.orders[id].incomingToken.Some? && w.snap.orders[id].keys.Some? { OrderValidating(w, id); }
    }
  }

  lemma KeepsFinishTokenCheck(w: World, answer: TokenState)
    requires Inv(w)
    ensures Inv(FinishTokenCheck(w, answer))
  {
    if w.task.TokenCheck? && w.task.id in w.snap.orders && answer.AllUnspent? { Retask(w, SwapPrepare(w.task.id)); }
    hide Inv, LabelOrder, OrderOnly, OrdersKeep, TokensKeep;
    if w.task.TokenCheck? && w.task.id in w.snap.orders {
      OrderLabelled(w, w.task.id, Rejected);
      OrderLabelled(w, w.task.id, OrderRecoverable);
    }
  }

  lemma KeepsGiveUpSettle(w: World)
    requires Inv(w)
    ensures Inv(GiveUpSettle(w))
  {
    if w.task.SwapFailed? && w.task.job.VendJob? && w.task.job.id in w.snap.orders { OrderLabel(w, w.task.job.id, OrderRecoverable); }
  }

  lemma KeepsFinishAckSettled(w: World, acknowledged: bool)
    requires Inv(w)
    ensures Inv(FinishAckSettled(w, acknowledged))
  {
    if w.task.AckSettled? && w.task.id in w.snap.orders {
      var o := w.snap.orders[w.task.id];
      assert OrderOk(w.mint, w.tags, w.task.id, o);
      var next := o.(relayAcknowledged := true, readCapability := None);
      if acknowledged && next.Valid() {
        RelabelOrder(w, w.task.id, next, Idle);
      } else {
        Retask(w, Idle);
      }
    }
  }

  lemma KeepsCancelOrder(w: World, id: nat)
    requires Inv(w)
    ensures Inv(CancelOrder(w, id))
  {
    if w.task.Idle? && id in w.snap.orders && w.snap.orders[id].readCapability.Some? {
      var o := w.snap.orders[id].(state := Cancelling);
      assert OrderOk(w.mint, w.tags, id, w.snap.orders[id]);
      if o.Valid() { RelabelOrder(w, id, o, CancelCall(id)); }
    }
  }

  lemma KeepsFinishCancel(w: World, answer: CancelAnswer)
    requires Inv(w)
    ensures Inv(FinishCancel(w, answer))
  {
    if w.task.CancelCall? && w.task.id in w.snap.orders {
      var id := w.task.id;
      var o := w.snap.orders[id];
      match answer
      case CancelDone => KeepsTryOrder(w, id, o.(state := Cancelled, keys := None, readCapability := None), Idle);
      case DeliveryWon => Retask(w, PollTask(id, o));
      case CancelFailed => OrderLabel(w, id, OrderRecoverable);
    }
  }
}
