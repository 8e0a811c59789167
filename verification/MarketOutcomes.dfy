/** How cash-outs and settlements end, over every run. */
module MarketOutcomes {
  import opened Ecash
  import opened MintLedger
  import opened MarketRecords
  import opened MarketSteps
  import opened MarketInvariant
  import opened MarketFrames
  import opened MarketDrafts
  import opened MarketCredits
  import opened MarketRuns
  import opened MarketHistory
  import opened MarketLaws
  import opened MarketTheorems

  // ---- melted or swapped back, never both ----

  /** What was swapped back is spent, and the melt of its quote was not paid with it. */
  lemma BackIsSpent(w: World, id: nat)
    requires Inv(w) && SwappedBack(w, id)
    ensures id in w.pledged && w.pledged[id] != [] && Secrets(w.pledged[id]) <= w.mint.spent && !Melted(w, id)
  {
    OutAt(w, id);
    PledgeAt(w, id);
    hide Inv;
    var o := w.snap.cashOut[id];
    if o.reserved.Some? { NeverBoth(w.mint, w.tags, id, o); }
  }

  /** A pending melt holds its inputs unspent, so spent proofs are never melted. */
  lemma SpentIsNotPending(m: Mint, quote: nat, cs: seq<Coin>)
    requires m.Ok() && quote in m.meltQuotes && cs != [] && Secrets(cs) <= m.spent
    ensures !(m.meltQuotes[quote].state.Pending? && m.meltQuotes[quote].state.inputs == cs)
  {
    assert cs[0].secret in Secrets(cs);
  }

  lemma BackStays(w: World, e: Event, id: nat)
    requires Inv(w) && SwappedBack(w, id)
    ensures SwappedBack(Step(w, e), id)
  {
    BackIsSpent(w, id);
    OutAt(w, id);
    StepHistory(w, e);
    assert w.mint.Ok();
    hide Inv, Step, LogsGrow, OrdersKeep, TokensKeep, ReservationOk, Mint.Ok;
    var q := w.snap.cashOut[id].quote;
    SpentIsNotPending(w.mint, q, w.pledged[id]);
    assert OutKeeps(w.snap.cashOut[id], Step(w, e).snap.cashOut[id]);
  }

  lemma MeltStays(w: World, e: Event, id: nat)
    requires Melted(w, id)
    ensures Melted(Step(w, e), id)
  {
    StepHistory(w, e);
    hide Step, LogsGrow, OrdersKeep, TokensKeep, MeltsFrom;
    assert OutKeeps(w.snap.cashOut[id], Step(w, e).snap.cashOut[id]);
  }

  lemma {:induction false} OutcomeStays(w: World, fs: seq<Event>, id: nat)
    requires Inv(w)
    ensures Melted(w, id) ==> Melted(Run(w, fs), id)
    ensures SwappedBack(w, id) ==> SwappedBack(Run(w, fs), id)
  {
    hide Inv, Step, Melted, SwappedBack;
    if fs != [] {
      var last := |fs| - 1;
      var v := Run(w, fs[..last]);
      OutcomeStays(w, fs[..last], id);
      RunKeepsInv(w, fs[..last]);
      if Melted(v, id) { MeltStays(v, fs[last], id); }
      if SwappedBack(v, id) { BackStays(v, fs[last], id); }
    }
  }

  /** The reserved proofs of a cash-out are melted or swapped back, never both, whatever happens
      before and after, delayed melts included. */
  lemma CashOutExclusive(es: seq<Event>, fs: seq<Event>, id: nat)
    ensures Melted(Run(START, es), id) ==> Melted(Run(START, es + fs), id) && !SwappedBack(Run(START, es + fs), id)
    ensures SwappedBack(Run(START, es), id) ==> SwappedBack(Run(START, es + fs), id) && !Melted(Run(START, es + fs), id)
  {
    RunAppend(START, es, fs);
    Reached(es);
    Reached(es + fs);
    var w := Run(START, es);
    OutcomeStays(w, fs, id);
    hide Run, Inv;
    if SwappedBack(Run(START, es + fs), id) { BackIsSpent(Run(START, es + fs), id); }
  }

  // ---- what a cash-out credits ----

  /** These coins are the whole outcome of a swap over exactly these proofs, less its fee. */
  ghost predicate SwappedFor(proofs: seq<Coin>, coins: seq<Coin>) {
    exists sw: Swap :: sw.inputs == proofs && sw.keep == coins && sw.send == [] && sw.Wellformed() && Total(coins) + sw.fees == Total(proofs)
  }

  /** A cash-out credits the change the mint signed for its melt or, if its proofs were not melted,
      all that a swap over exactly its reserved proofs gave. */
  ghost predicate CreditIsChange(w: World, id: nat, coins: seq<Coin>) {
    && id in w.snap.cashOut && w.snap.cashOut[id].reserved.None? && id in w.pledged && Secrets(w.pledged[id]) <= w.mint.spent
    && if Melted(w, id) then coins == w.mint.meltQuotes[w.snap.cashOut[id].quote].state.change else SwappedFor(w.pledged[id], coins)
  }

  ghost predicate ChangeCredited(w: World) {
    forall i :: 0 <= i < |w.credits| && w.credits[i].source.Out? ==> CreditIsChange(w, w.credits[i].source.id, w.credits[i].coins)
  }

  /** The stored recovery swap of a cash-out, over what it reserved, gives these coins and takes its fee. */
  predicate Recovers(w: World, id: nat, coins: seq<Coin>) {
    && id in w.snap.cashOut && id in w.pledged && w.snap.cashOut[id].recovery.Some?
    && var sw := w.snap.cashOut[id].recovery.value;
    sw.inputs == w.pledged[id] && sw.keep == coins && sw.send == [] && sw.Wellformed() && Total(coins) + sw.fees == Total(w.pledged[id])
  }

  /** The last credit is new: the change of a melt, or the proceeds of the stored recovery swap. */
  ghost predicate NewChange(w: World, v: World) {
    && NewCredit(w, v) && v.credits[|w.credits|].source.Out?
    && var c := v.credits[|w.credits|];
    CreditIsChange(v, c.source.id, c.coins) && (!Melted(v, c.source.id) ==> Recovers(w, c.source.id, c.coins))
  }

  lemma CreditedChangeStays(w: World, e: Event, id: nat, coins: seq<Coin>)
    requires Inv(w) && CreditIsChange(w, id, coins)
    ensures CreditIsChange(Step(w, e), id, coins)
  {
    if Melted(w, id) { MeltStays(w, e, id); } else { BackStays(w, e, id); }
    StepHistory(w, e);
    hide Inv, Step, LogsGrow, OrdersKeep, TokensKeep, SwappedFor, MeltsFrom;
    assert OutKeeps(w.snap.cashOut[id], Step(w, e).snap.cashOut[id]);
  }

  /** A release under the paid melt of its own reservation. */
  lemma MeltReleases(w: World, id: nat, o: CashOut, change: seq<Coin>)
    requires id in w.snap.cashOut && OutKeeps(w.snap.cashOut[id], o) && o.reserved.None?
    requires Melted(w, id) && w.mint.meltQuotes[w.snap.cashOut[id].quote].state.change == change && Secrets(w.pledged[id]) <= w.mint.spent
    ensures var v := ReleaseOut(w, id, o, change); v.credits != w.credits ==> NewChange(w, v)
  {
    hide Retag, Secrets, OutsKeep, SwappedFor;
  }

  lemma MeltIsSpent(w: World, id: nat)
    requires Inv(w) && Melted(w, id)
    ensures Secrets(w.pledged[id]) <= w.mint.spent
  {
    hide PaymentsOk, OrdersOk, AddsOk, OutsOk, NothingLost, AllClosed, ProofsOk, TagsOk, CreditsOk, ReviewsOk, WireOk, PledgesOk, SentOk,
      MeltsKnown, KeysOk, TaskOk;
  }

  lemma MeltCredits(w: World)
    requires Inv(w)
    ensures var v := FinishMelt(w); v.credits != w.credits ==> NewChange(w, v)
  {
    TaskAt(w);
    hide Inv, ReleaseOut, StoreOut, NewChange, OutsKeep;
    if w.task.MeltSeen? && w.task.id in w.snap.cashOut && w.task.seen.Some? && w.task.seen.value.Paid? {
      var id, o := w.task.id, w.snap.cashOut[w.task.id];
      PledgeAt(w, id);
      MeltIsSpent(w, id);
      MeltReleases(w, id, PaidRecord(o).(recovery := o.recovery), w.task.seen.value.change);
    }
  }

  lemma TakenIsChange(w: World, id: nat, change: seq<Coin>)
    requires Inv(w) && id in w.snap.cashOut && PaidAt(w.mint, w.snap.cashOut[id].quote)
      && w.mint.meltQuotes[w.snap.cashOut[id].quote].state.change == change
    ensures var v := TakeChange(w, id, change); v.credits != w.credits ==> NewChange(w, v)
  {
    OutAt(w, id);
    PledgeAt(w, id);
    var o := w.snap.cashOut[id];
    if o.reserved.Some? && Unblinds(o.blanks.value, change) && w.mint.meltQuotes[o.quote].state.inputs != o.reserved.value {
      OthersChange(w.mint, w.tags, id, o, change);
    }
    hide Inv, StoreOut, NewChange, Unblinds, OutsKeep, ReleaseOut;
    NothingReleased(w, id, PaidRecord(o), change);
    if o.reserved.Some? && w.mint.meltQuotes[o.quote].state.inputs == o.reserved.value {
      MeltIsSpent(w, id);
      MeltReleases(w, id, PaidRecord(o), change);
    }
  }

  lemma NothingReleased(w: World, id: nat, o: CashOut, coins: seq<Coin>)
    requires id in w.snap.cashOut && OutKeeps(w.snap.cashOut[id], o)
    ensures coins == [] ==> ReleaseOut(w, id, o, coins).credits == w.credits
  {
    hide Retag, Secrets, OutsKeep;
  }

  lemma TakeCredits(w: World)
    requires Inv(w)
    ensures var v := ActOnQuote(w); v.credits != w.credits ==> NewChange(w, v)
  {
    TaskAt(w);
    hide Inv, TakeChange, NewChange, OutsKeep;
    if w.task.OutSeen? && w.task.found.Paid? { TakenIsChange(w, w.task.id, w.task.found.change); }
  }

  /** A release of a reservation that was swapped back. */
  lemma BackReleases(w: World, id: nat, o: CashOut)
    requires id in w.snap.cashOut && OutKeeps(w.snap.cashOut[id], o) && o.reserved.None? && w.snap.cashOut[id].recovery.Some?
    requires Recovers(w, id, w.snap.cashOut[id].recovery.value.keep) && !Melted(w, id) && Secrets(w.pledged[id]) <= w.mint.spent
    ensures var v := ReleaseOut(w, id, o, w.snap.cashOut[id].recovery.value.keep); v.credits != w.credits ==> NewChange(w, v)
  {
    hide Retag, Secrets, OutsKeep, Swap.Wellformed, Total;
    assert SwappedFor(w.pledged[id], w.snap.cashOut[id].recovery.value.keep);
  }

  lemma RecoveryCredits(w: World)
    requires Inv(w)
    ensures var v := FinishRecovery(w); v.credits != w.credits ==> NewChange(w, v)
  {
    TaskAt(w);
    hide Inv, ReleaseOut, NewChange, OutsKeep;
    if w.task.SwapDone? && w.task.job.RecoverJob? && HasSwap(w.snap, w.task.job) {
      var id := w.task.job.id;
      var o := w.snap.cashOut[id];
      OutAt(w, id);
      PledgeAt(w, id);
      RecoveredPhase(w.mint, w.tags, id, o);
      assert o.recovery.value.Outputs() == o.recovery.value.keep;
      BackReleases(w, id, o.(state := OutFailed, quoteState := QuoteUnpaid, reserved := None, blanks := None, recovery := None));
    }
  }

  lemma NewOutCredit(w: World, e: OutEvent)
    requires Inv(w)
    ensures var v := OutStep(w, e); v.credits != w.credits ==> NewChange(w, v)
  {
    hide Inv, NewChange, ReviewCashOut, ConfirmCashOut, SendMelt, AnswerMelt, FinishMelt, RefreshCashOut, ActOnQuote,
      PrepareRecovery, FinishRecovery, GiveUpRecovery;
    match e
    case EndMelt => MeltCredits(w);
    case ActOut => TakeCredits(w);
    case EndRecovery => RecoveryCredits(w);
    case _ =>
  }

  // ---- what a settlement credits ----

  /** Every settlement credits exactly its order's amount. */
  predicate SettledExactly(w: World) {
    forall i :: 0 <= i < |w.credits| && w.credits[i].source.Vend? ==>
      w.credits[i].source.id in w.snap.orders && Total(w.credits[i].coins) == w.snap.orders[w.credits[i].source.id].amount
  }

  /** The last credit is new and pays one stored settlement of its exact amount, whose inputs are spent. */
  predicate NewSettled(w: World, v: World) {
    && NewCredit(w, v) && v.credits[|w.credits|].source.Vend?
    && var c := v.credits[|w.credits|];
    && c.source.id in w.snap.orders && w.snap.orders[c.source.id].incomingSwap.Some?
    && c.coins == w.snap.orders[c.source.id].incomingSwap.value.keep && Total(c.coins) == w.snap.orders[c.source.id].amount
    && Secrets(w.snap.orders[c.source.id].incomingSwap.value.inputs) <= v.mint.spent
  }

  lemma NewSettlement(w: World, e: SettleEvent)
    requires Inv(w)
    ensures var v := SettleStep(w, e); v.credits != w.credits ==> NewSettled(w, v)
  {
    if w.task.SwapDone? && w.task.job.VendJob? && HasSwap(w.snap, w.task.job) {
      var id := w.task.job.id;
      assert OrderOk(w.mint, w.tags, id, w.snap.orders[id]);
      SettledApplied(w.mint, w.tags, id, w.snap.orders[id].amount, w.snap.orders[id].keys.value.privateKey, w.snap.orders[id].incomingSwap.value);
    }
    hide Inv, OrderOk, Retag, StartSettle, FinishTokenCheck, PrepareSettle, GiveUpSettle, FinishAckSettled;
  }

  lemma NewChangeOf(w: World, e: Event)
    requires Inv(w)
    ensures var v := Step(w, e); NewCredit(w, v) && v.credits[|w.credits|].source.Out? ==> NewChange(w, v)
  {
    hide Inv, NewChange, OutStep, PayStep, AddStep, OrderStep, SettleStep, MintStep, CallSwap, RestoreSwap, Go,
      MintKeeps, MeltsFrom, OutsKeep, OrdersKeep;
    StepHistory(w, e);
    if e.OfCashOut? { NewOutCredit(w, e.out); }
  }

  lemma StepChange(w: World, e: Event)
    requires Inv(w) && ChangeCredited(w)
    ensures ChangeCredited(Step(w, e))
  {
    hide Inv, Step, CreditIsChange, MintKeeps, MeltsFrom, OutsKeep, OrdersKeep;
    var v := Step(w, e);
    StepHistory(w, e);
    NewChangeOf(w, e);
    forall i | 0 <= i < |v.credits| && v.credits[i].source.Out? ensures CreditIsChange(v, v.credits[i].source.id, v.credits[i].coins) {
      if i < |w.credits| { CreditedChangeStays(w, e, w.credits[i].source.id, w.credits[i].coins); }
    }
  }

  lemma NewSettledOf(w: World, e: Event)
    requires Inv(w)
    ensures var v := Step(w, e); NewCredit(w, v) && v.credits[|w.credits|].source.Vend? ==> NewSettled(w, v)
  {
    hide Inv, NewSettled, OutStep, PayStep, AddStep, OrderStep, SettleStep, MintStep, CallSwap, RestoreSwap, Go,
      MintKeeps, MeltsFrom, OutsKeep, OrdersKeep;
    StepHistory(w, e);
    if e.OfSettle? { NewSettlement(w, e.settle); }
  }

  lemma StepSettled(w: World, e: Event)
    requires Inv(w) && SettledExactly(w)
    ensures SettledExactly(Step(w, e))
  {
    hide Inv, Step, MintKeeps, MeltsFrom, OutsKeep;
    StepHistory(w, e);
    NewSettledOf(w, e);
  }

  lemma {:induction false} RunOutcomes(es: seq<Event>)
    ensures ChangeCredited(Run(START, es)) && SettledExactly(Run(START, es))
  {
    hide Inv, Step;
    if es != [] {
      var last := |es| - 1;
      RunOutcomes(es[..last]);
      Reached(es[..last]);
      hide ChangeCredited, SettledExactly;
      StepChange(Run(START, es[..last]), es[last]);
      StepSettled(Run(START, es[..last]), es[last]);
    }
  }

  lemma {:induction false} PledgeStays(w: World, fs: seq<Event>, id: nat)
    requires id in w.snap.cashOut && id in w.pledged
    ensures var v := Run(w, fs); id in v.snap.cashOut && id in v.pledged && v.pledged[id] == w.pledged[id]
  {
    hide Step;
    if fs != [] {
      var last := |fs| - 1;
      PledgeStays(w, fs[..last], id);
      StepHistory(Run(w, fs[..last]), fs[last]);
      hide MintKeeps, MeltsFrom, OutKeeps, OrdersKeep, TokensKeep, LogsGrow;
    }
  }

  /** What a cash-out that once reserved `proofs` ever credits: the change of the melt the mint paid
      with them, or the whole outcome of a swap over exactly them, less its fee. */
  lemma CashOutCredit(es: seq<Event>, fs: seq<Event>, id: nat, i: nat)
    requires id in Run(START, es).snap.cashOut && Run(START, es).snap.cashOut[id].reserved.Some?
    requires i < |Run(START, es + fs).credits| && Run(START, es + fs).credits[i].source == Out(id)
    ensures var proofs, v := Run(START, es).snap.cashOut[id].reserved.value, Run(START, es + fs); var coins := v.credits[i].coins;
      id in v.snap.cashOut && v.snap.cashOut[id].reserved.None?
      && if PaidAt(v.mint, v.snap.cashOut[id].quote) && v.mint.meltQuotes[v.snap.cashOut[id].quote].state.inputs == proofs
         then coins == v.mint.meltQuotes[v.snap.cashOut[id].quote].state.change
         else SwappedFor(proofs, coins)
  {
    RunAppend(START, es, fs);
    Reached(es);
    PledgeAt(Run(START, es), id);
    PledgeStays(Run(START, es), fs, id);
    RunOutcomes(es + fs);
    hide Run, Inv, SettledExactly, SwappedFor;
    assert CreditIsChange(Run(START, es + fs), id, Run(START, es + fs).credits[i].coins);
  }

  /** A settlement adds exactly the order's amount to the vendor's spendable total. */
  lemma SettlementPays(es: seq<Event>, e: SettleEvent)
    ensures var w, v := Run(START, es), Run(START, es + [OfSettle(e)]);
      v.credits != w.credits ==>
        && NewSettled(w, v)
        && Total(v.snap.proofs) == Total(w.snap.proofs) + w.snap.orders[v.credits[|w.credits|].source.id].amount
  {
    RunAppend(START, es, [OfSettle(e)]);
    Reached(es);
    assert (es + [OfSettle(e)])[..|es|] == es;
    var w := Run(START, es);
    NewSettlement(w, e);
    StepHistory(w, OfSettle(e));
    hide Inv, SettleStep, MintKeeps, MeltsFrom, OutsKeep, OrdersKeep;
    var v := SettleStep(w, e);
    if v.credits != w.credits { TotalConcat(w.snap.proofs, v.credits[|w.credits|].coins); }
  }
}
