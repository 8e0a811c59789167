/** Runs whose cash-outs are all confirmed safely lose no coin: at most one stored cash-out reserves
    proofs under a quote that is not paid, and under a paid one a reservation is either melted or
    cannot be mistaken for the melted one. */
module MarketSafety {
  import opened Ecash
  import opened MintLedger
  import opened MarketRecords
  import opened MarketSteps
  import opened MarketInvariant
  import opened MarketFrames
  import opened MarketDrafts
  import opened MarketCredits
  import opened MarketRuns
  import opened MarketHistory
  import opened MarketLaws
  import opened MarketTheorems

  // ---- reservations without rivals ----

  /** No refresh of this reservation can release it under the melt of another cash-out. */
  predicate Unrivalled(m: Mint, outs: map<nat, CashOut>, id: nat)
    requires id in outs
  {
    var o := outs[id];
    o.reserved.Some? && o.blanks.Some? && o.quote in m.meltQuotes ==>
      if m.meltQuotes[o.quote].state.Paid?
      then MeltOver(m.meltQuotes[o.quote].state, o.reserved.value) || !Unblinds(o.blanks.value, m.meltQuotes[o.quote].state.change)
      else forall k :: k in outs && k != id && outs[k].quote == o.quote ==> outs[k].reserved.None?
  }

  predicate NoRivals(m: Mint, outs: map<nat, CashOut>) { forall id :: id in outs ==> Unrivalled(m, outs, id) }

  /** The pending melt of an unrivalled reservation is its own. */
  lemma OwnMelt(m: Mint, outs: map<nat, CashOut>, id: nat)
    requires MeltsKnown(m.meltQuotes, outs) && id in outs && Unrivalled(m, outs, id) && outs[id].reserved.Some? && outs[id].blanks.Some?
    requires outs[id].quote in m.meltQuotes && m.meltQuotes[outs[id].quote].state.Pending?
    ensures m.meltQuotes[outs[id].quote].state.inputs == outs[id].reserved.value
  {
    var q := outs[id].quote;
    assert Melting(outs, q, m.meltQuotes[q].state);
    var k :| k in outs && Melts(outs[k], q, m.meltQuotes[q].state);
  }

  lemma StaysUnrivalled(w: World, v: World, id: nat)
    requires Inv(w) && id in w.snap.cashOut && id in v.snap.cashOut && Unrivalled(w.mint, w.snap.cashOut, id)
    requires MintKeeps(w.mint, v.mint) && MeltsFrom(w.mint, v.mint) && OutsKeep(w.snap.cashOut, v.snap.cashOut)
    requires v.snap.cashOut.Keys == w.snap.cashOut.Keys
    ensures Unrivalled(v.mint, v.snap.cashOut, id)
  {
    OutAt(w, id);
    var o, q := w.snap.cashOut[id], w.snap.cashOut[id].quote;
    assert MeltsKnown(w.mint.meltQuotes, w.snap.cashOut) && OutKeeps(o, v.snap.cashOut[id]);
    if o.reserved.Some? && w.mint.meltQuotes[q].state.Pending? { OwnMelt(w.mint, w.snap.cashOut, id); }
    hide Inv, ReservationOk, Unblinds;
  }

  lemma NewUnrivalled(m: Mint, outs: map<nat, CashOut>, id: nat, o: CashOut)
    requires NoRivals(m, outs) && id !in outs && o.reserved.Some? && o.blanks.Some?
    requires if PaidAt(m, o.quote) then !Unblinds(o.blanks.value, m.meltQuotes[o.quote].state.change)
             else forall k :: k in outs && outs[k].quote == o.quote ==> outs[k].reserved.None?
    ensures NoRivals(m, outs[id := o])
  {
    hide Unblinds;
    var next := outs[id := o];
    forall k | k in next ensures Unrivalled(m, next, k) {
      if k != id { assert Unrivalled(m, outs, k); }
    }
  }

  lemma ConfirmedRivals(w: World, rid: nat, id: nat)
    requires NoRivals(w.mint, w.snap.cashOut) && Confirmable(w, rid, id) && SafeConfirm(w, rid)
    ensures var v := ConfirmCashOut(w, rid, id); NoRivals(v.mint, v.snap.cashOut)
  {
    ConfirmedWorld(w, rid, id);
    hide ConfirmCashOut, Unblinds, CashOutTags, NoRivals;
    NewUnrivalled(w.mint, w.snap.cashOut, id, Reserving(w.reviews[rid]));
  }

  lemma StepRivals(w: World, e: Event)
    requires Inv(w) && NoRivals(w.mint, w.snap.cashOut) && SafeEvent(w, e)
    ensures var v := Step(w, e); NoRivals(v.mint, v.snap.cashOut)
  {
    var v := Step(w, e);
    if e.OfCashOut? && e.out.ConfirmOut? {
      if Confirmable(w, e.out.rid, e.out.id) { ConfirmedRivals(w, e.out.rid, e.out.id); }
    } else {
      StepHistory(w, e);
      hide Inv, Step, Unrivalled, SafeEvent, MintKeeps, MeltsFrom, OrdersKeep, TokensKeep, LogsGrow, LossesStay;
      forall id | id in v.snap.cashOut ensures Unrivalled(v.mint, v.snap.cashOut, id) { StaysUnrivalled(w, v, id); }
    }
  }

  // ---- nothing is forgotten ----

  lemma ReleaseKeepsAll(w: World, id: nat, o: CashOut, coins: seq<Coin>)
    requires id in w.snap.cashOut && OutKeeps(w.snap.cashOut[id], o) && Forgotten(w, id, coins) == {}
    ensures LossesStay(w.tags, ReleaseOut(w, id, o, coins).tags)
  {
    hide ReleaseOut, Forgotten, OutsKeep, Secrets;
    ReleaseSplits(w, id, o, coins);
  }

  lemma MeltForgetsNothing(w: World)
    requires Inv(w)
    ensures LossesStay(w.tags, FinishMelt(w).tags)
  {
    TaskAt(w);
    hide Inv, ReleaseOut, StoreOut, OutsKeep;
    if w.task.MeltSeen? && w.task.id in w.snap.cashOut && w.task.seen.Some? && w.task.seen.value.Paid? {
      var id, o := w.task.id, w.snap.cashOut[w.task.id];
      OutAt(w, id);
      PaidForgetsNothing(w, id, w.task.seen.value.change);
      ReleaseKeepsAll(w, id, PaidRecord(o).(recovery := o.recovery), w.task.seen.value.change);
    }
  }

  lemma PaidForgetsNothing(w: World, id: nat, change: seq<Coin>)
    requires Inv(w) && id in w.snap.cashOut && w.snap.cashOut[id].reserved.Some? && PaidAt(w.mint, w.snap.cashOut[id].quote)
    requires w.mint.meltQuotes[w.snap.cashOut[id].quote].state.change == change
      && w.mint.meltQuotes[w.snap.cashOut[id].quote].state.inputs == w.snap.cashOut[id].reserved.value
    ensures Forgotten(w, id, change) == {}
  {
    OutAt(w, id);
    assert w.mint.Ok();
    hide Inv, OutOk;
    PaidPhase(w.mint, w.tags, id, w.snap.cashOut[id], change);
    hide OutFootprint;
  }

  lemma TakeForgetsNothing(w: World, id: nat, change: seq<Coin>)
    requires Inv(w) && id in w.snap.cashOut && Unrivalled(w.mint, w.snap.cashOut, id) && PaidAt(w.mint, w.snap.cashOut[id].quote)
    requires w.mint.meltQuotes[w.snap.cashOut[id].quote].state.change == change
    ensures LossesStay(w.tags, TakeChange(w, id, change).tags)
  {
    OutAt(w, id);
    var o := w.snap.cashOut[id];
    if o.reserved.None? { assert OutFootprint(o) == {}; }
    hide Inv, ReleaseOut, StoreOut, OutsKeep, Unblinds, ReservationOk, OutFootprint;
    if o.reserved.Some? && Unblinds(o.blanks.value, change) { PaidForgetsNothing(w, id, change); }
    if Forgotten(w, id, change) == {} { ReleaseKeepsAll(w, id, PaidRecord(o), change); }
  }

  /** Only a paid quote takes change; other answers leave every owner alone. */
  lemma ActsOnPaid(w: World)
    ensures if w.task.OutSeen? && w.task.id in w.snap.cashOut && w.task.found.Paid?
            then ActOnQuote(w) == TakeChange(w, w.task.id, w.task.found.change) else ActOnQuote(w).tags == w.tags
  {
    hide TakeChange, OutsKeep;
  }

  /** A refresh that saw the quote paid saw the change the mint keeps. */
  lemma SeenAtMint(w: World)
    requires Inv(w) && w.task.OutSeen? && w.task.id in w.snap.cashOut && w.task.found.Paid?
    ensures PaidAt(w.mint, w.snap.cashOut[w.task.id].quote)
      && w.mint.meltQuotes[w.snap.cashOut[w.task.id].quote].state.change == w.task.found.change
  {
    TaskAt(w);
    hide Inv;
  }

  lemma ActForgetsNothing(w: World)
    requires Inv(w) && NoRivals(w.mint, w.snap.cashOut)
    ensures LossesStay(w.tags, ActOnQuote(w).tags)
  {
    ActsOnPaid(w);
    hide Inv, ActOnQuote, TakeChange, Unrivalled, OutsKeep, OutEdits;
    if w.task.OutSeen? && w.task.id in w.snap.cashOut && w.task.found.Paid? {
      SeenAtMint(w);
      assert Unrivalled(w.mint, w.snap.cashOut, w.task.id);
      hide NoRivals, PaidAt, LossesStay;
      TakeForgetsNothing(w, w.task.id, w.task.found.change);
    }
  }

  lemma RecoveryForgetsNothing(w: World)
    requires Inv(w)
    ensures LossesStay(w.tags, FinishRecovery(w).tags)
  {
    TaskAt(w);
    if w.task.SwapDone? && w.task.job.RecoverJob? && HasSwap(w.snap, w.task.job) {
      var id := w.task.job.id;
      var o := w.snap.cashOut[id];
      OutAt(w, id);
      RecoveredPhase(w.mint, w.tags, id, o);
      hide Inv, ReleaseOut, OutsKeep;
      ReleaseKeepsAll(w, id, o.(state := OutFailed, quoteState := QuoteUnpaid, reserved := None, blanks := None, recovery := None), o.recovery.value.keep);
    }
  }

  /** Steps that only draw outputs or move reserved proofs. */
  lemma DraftsForgetNothing(w: World, rid: nat, rv: Review, id: nat)
    ensures LossesStay(w.tags, ReviewCashOut(w, rid, rv).tags) && LossesStay(w.tags, ConfirmCashOut(w, rid, id).tags)
  {
    hide Secrets, Blanks, Total, DistinctBlanks, OutsKeep, OutKeeps, LogsGrow, PledgesKeep;
  }

  lemma PreparedForgetsNothing(w: World, answer: TokenState, sw: Swap)
    ensures LossesStay(w.tags, PrepareRecovery(w, answer, sw).tags)
  {
    hide Secrets, ReceiveSwap, OutsKeep, OutKeeps, LogsGrow, PledgesKeep;
  }

  lemma OutForgetsNothing(w: World, e: OutEvent)
    requires Inv(w) && NoRivals(w.mint, w.snap.cashOut)
    ensures LossesStay(w.tags, OutStep(w, e).tags)
  {
    hide Inv, NoRivals, ReviewCashOut, ConfirmCashOut, SendMelt, AnswerMelt, FinishMelt, RefreshCashOut, ActOnQuote, PrepareRecovery,
      FinishRecovery, GiveUpRecovery;
    match e
    case ReviewOut(rid, rv) => DraftsForgetNothing(w, rid, rv, 0);
    case ConfirmOut(rid, id) => DraftsForgetNothing(w, rid, OutReview([], [], [], [], 0, 0, 0), id);
    case EndMelt => MeltForgetsNothing(w);
    case ActOut => ActForgetsNothing(w);
    case ReadyRecovery(t, sw) => PreparedForgetsNothing(w, t, sw);
    case EndRecovery => RecoveryForgetsNothing(w);
    case _ =>
  }

  lemma StepForgetsNothing(w: World, e: Event)
    requires Inv(w) && NoRivals(w.mint, w.snap.cashOut)
    ensures LossesStay(w.tags, Step(w, e).tags)
  {
    StepHistory(w, e);
    hide Inv, NoRivals, OutStep, PayStep, AddStep, OrderStep, SettleStep, MarketRuns.MintStep, CallSwap, RestoreSwap, Go, LossesStay, Keeps, TokensKeep;
    if e.OfCashOut? { OutForgetsNothing(w, e.out); }
  }

  lemma {:induction false} SafeRunKeeps(w: World, es: seq<Event>)
    requires Inv(w) && NoRivals(w.mint, w.snap.cashOut) && SafeRun(w, es)
    ensures var v := Run(w, es); NoRivals(v.mint, v.snap.cashOut) && LossesStay(w.tags, v.tags)
  {
    hide Inv, NoRivals, Step, SafeEvent;
    if es != [] {
      var last := |es| - 1;
      var v := Run(w, es[..last]);
      SafeRunKeeps(w, es[..last]);
      RunKeepsInv(w, es[..last]);
      StepRivals(v, es[last]);
      StepForgetsNothing(v, es[last]);
    }
  }

  lemma SafeReached(es: seq<Event>)
    requires SafeRun(START, es)
    ensures var w := Run(START, es); Inv(w) && NoRivals(w.mint, w.snap.cashOut) && LostCoins(w.tags) == {}
  {
    StartInv();
    Reached(es);
    hide Run, Inv, SafeRun;
    SafeRunKeeps(START, es);
  }

  /** When every cash-out is confirmed safely, no coin is ever released without credit, so the books
      balance without the lost ones. */
  lemma NothingIsLost(es: seq<Event>)
    requires SafeRun(START, es)
    ensures var w := Run(START, es); var m := w.mint;
      && LostCoins(w.tags) == {} && m.ours <= m.signed.Keys
      && Total(w.snap.proofs) + Live(m, InPayments(w.snap.payments)) + Live(m, InOrders(w.snap.orders)) + Live(m, InAdds(w.snap.addCash))
         + Live(m, InCashOuts(w.snap.cashOut)) + m.books.vendor + m.books.melted + m.books.fees == m.books.issued + m.books.received
  {
    SafeReached(es);
    Conservation(es);
    hide Run, Inv, NoRivals, InPayments, InOrders, InAdds, InCashOuts, LostCoins, Total;
    assert {} * Run(START, es).mint.LiveOurs() == {};
  }
}
