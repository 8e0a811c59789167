/** When a reservation can never end: exactly when its quote was paid by another cash-out with change
    that does not unblind with its own outputs. Nothing is forgotten then, and nothing can be done. */
module MarketFrozen {
  import opened Ecash
  import opened MintLedger
  import opened MarketRecords
  import opened MarketSteps
  import opened MarketInvariant
  import opened MarketFrames
  import opened MarketRuns
  import opened MarketHistory
  import opened MarketTheorems
  import opened MarketQuotes
  import opened MarketChoices

  /** The quote was paid by another cash-out, whose change these outputs do not unblind. */
  predicate Frozen(m: Mint, o: CashOut) {
    && o.reserved.Some? && o.blanks.Some? && PaidAt(m, o.quote)
    && !MeltOver(m.meltQuotes[o.quote].state, o.reserved.value) && !Unblinds(o.blanks.value, m.meltQuotes[o.quote].state.change)
  }

  // ---- a frozen reservation stays ----

  /** No recovery of this cash-out is under way. */
  predicate Unhurried(task: Task, id: nat) {
    && task != OutProofs(id) && !(task.OutSeen? && task.id == id && !task.found.Paid?)
    && task !in {SwapCall(RecoverJob(id)), RestoreCall(RecoverJob(id)), SwapDone(RecoverJob(id))}
  }

  predicate Stuck(w: World, id: nat) {
    id in w.snap.cashOut && Frozen(w.mint, w.snap.cashOut[id]) && Unhurried(w.task, id)
  }

  /** Another step leaves this reservation and its recovery alone. */
  lemma AsideStuck(w: World, v: World, id: nat)
    requires Stuck(w, id) && v.snap.cashOut == w.snap.cashOut && MintKeeps(w.mint, v.mint)
    requires v.task == w.task || !Recovering(v.task)
    ensures Stuck(v, id)
  {
    hide Unblinds;
  }

  lemma PayAside(w: World, e: PayEvent)
    ensures PayStep(w, e).task == w.task || !Recovering(PayStep(w, e).task)
  {
    hide PaymentOnly, Retag, Secrets, Fresh, SwapValid, Swap.Wellformed, Payment.Valid, CheckedPayment;
  }

  lemma SwapAside(w: World, reaches: bool, answered: bool, id: nat)
    requires Unhurried(w.task, id)
    ensures Unhurried(CallSwap(w, reaches, answered).task, id) && Unhurried(RestoreSwap(w, answered).task, id)
  {
    hide CanSwap, ApplySwap, Secrets;
  }

  lemma TaskStuck(w: World, v: World, id: nat)
    requires Stuck(w, id) && v.snap.cashOut == w.snap.cashOut && MintKeeps(w.mint, v.mint) && Unhurried(v.task, id)
    ensures Stuck(v, id)
  {
    hide Unblinds;
  }

  /** What a step on cash-outs owes a frozen one. */
  predicate OutCalm(w: World, v: World, id: nat) {
    && id in w.snap.cashOut && id in v.snap.cashOut && v.mint == w.mint && Unhurried(v.task, id)
    && v.snap.cashOut[id].reserved == w.snap.cashOut[id].reserved && v.snap.cashOut[id].blanks == w.snap.cashOut[id].blanks
    && v.snap.cashOut[id].quote == w.snap.cashOut[id].quote
  }

  lemma StoreCalm(w: World, k: nat, o: CashOut, id: nat)
    requires Stuck(w, id) && k in w.snap.cashOut && OutKeeps(w.snap.cashOut[k], o)
      && o == w.snap.cashOut[k].(state := o.state, quoteState := o.quoteState)
    ensures OutCalm(w, StoreOut(w, k, o), id)
  {
    hide Unblinds, OutEdits, OutsKeep;
  }

  lemma ReleaseCalm(w: World, k: nat, o: CashOut, coins: seq<Coin>, id: nat)
    requires Stuck(w, id) && k in w.snap.cashOut && k != id && OutKeeps(w.snap.cashOut[k], o)
    ensures OutCalm(w, ReleaseOut(w, k, o, coins), id)
  {
    hide Unblinds, Retag, Secrets, OutEdits, OutsKeep, Forgotten;
  }

  lemma MeltCalm(w: World, id: nat)
    requires Inv(w) && Stuck(w, id)
    ensures OutCalm(w, FinishMelt(w), id)
  {
    TaskAt(w);
    hide Inv, StoreOut, ReleaseOut, OutCalm, Unblinds, OutEdits, OutsKeep;
    Aside(w, id);
    if w.task.MeltSeen? && w.task.id in w.snap.cashOut {
      var k, o := w.task.id, w.snap.cashOut[w.task.id];
      match w.task.seen
      case Some(Paid(_, _, change)) => assert k != id; ReleaseCalm(w, k, PaidRecord(o).(recovery := o.recovery), change, id);
      case Some(Pending(_, _)) => StoreCalm(w, k, o.(state := OutPending, quoteState := QuotePending), id);
      case Some(Unpaid) => StoreCalm(w, k, o.(state := OutUnknown, quoteState := QuoteUnpaid), id);
      case None => StoreCalm(w, k, o.(state := OutUnknown), id);
    }
  }

  lemma Aside(w: World, id: nat)
    requires Stuck(w, id)
    ensures OutCalm(w, w, id)
  {
  }

  lemma TakeCalm(w: World, k: nat, change: seq<Coin>, id: nat)
    requires Stuck(w, id) && k in w.snap.cashOut
    requires k == id ==> w.mint.meltQuotes[w.snap.cashOut[id].quote].state.change == change
    ensures OutCalm(w, TakeChange(w, k, change), id)
  {
    hide Unblinds, Retag, Secrets, OutEdits, OutsKeep, Forgotten;
  }

  lemma ActCalm(w: World, id: nat)
    requires Inv(w) && Stuck(w, id)
    ensures OutCalm(w, ActOnQuote(w), id)
  {
    TaskAt(w);
    hide Inv, TakeChange, StoreOut, OutCalm, Unblinds, OutEdits, OutsKeep;
    Aside(w, id);
    if w.task.OutSeen? && w.task.id in w.snap.cashOut {
      var k, o := w.task.id, w.snap.cashOut[w.task.id];
      match w.task.found
      case Paid(_, _, change) => TakeCalm(w, k, change, id);
      case Pending(_, _) => StoreCalm(w, k, o.(state := OutPending, quoteState := QuotePending), id);
      case Unpaid =>
        StoreCalm(w, k, o.(state := OutUnknown), id);
        OtherTask(w, k, id);
    }
  }

  lemma OtherTask(w: World, k: nat, id: nat)
    requires Stuck(w, id) && k != id
    ensures OutCalm(w, Go(w, OutProofs(k)), id) && OutCalm(w, Go(w, SwapCall(RecoverJob(k))), id)
  {
  }

  lemma DraftCalm(w: World, rid: nat, rv: Review, k: nat, id: nat)
    requires Stuck(w, id)
    ensures OutCalm(w, ReviewCashOut(w, rid, rv), id) && OutCalm(w, ConfirmCashOut(w, rid, k), id)
  {
    hide Unblinds, Retag, Secrets, Blanks, Total, DistinctBlanks, OutEdits, OutOnly, OutsKeep;
  }

  lemma CallCalm(w: World, k: nat, answered: bool, id: nat)
    requires Stuck(w, id)
    ensures OutCalm(w, SendMelt(w), id) && OutCalm(w, AnswerMelt(w, answered), id)
    ensures OutCalm(w, RefreshCashOut(w, k, answered), id) && OutCalm(w, GiveUpRecovery(w), id)
  {
    hide Unblinds, OutEdits, OutsKeep;
  }

  lemma PrepareCalm(w: World, answer: TokenState, sw: Swap, id: nat)
    requires Stuck(w, id)
    ensures OutCalm(w, PrepareRecovery(w, answer, sw), id)
  {
    hide Unblinds, Retag, Secrets, ReceiveSwap, OutEdits, OutsKeep;
  }

  lemma RecoverCalm(w: World, id: nat)
    requires Stuck(w, id)
    ensures OutCalm(w, FinishRecovery(w), id)
  {
    hide Unblinds, ReleaseOut, OutCalm, OutEdits, OutsKeep;
    Aside(w, id);
    if w.task.SwapDone? && w.task.job.RecoverJob? && HasSwap(w.snap, w.task.job) {
      var k := w.task.job.id;
      var o := w.snap.cashOut[k];
      ReleaseCalm(w, k, o.(state := OutFailed, quoteState := QuoteUnpaid, reserved := None, blanks := None, recovery := None), o.recovery.value.keep, id);
    }
  }

  lemma OutStuck(w: World, e: OutEvent, id: nat)
    requires Inv(w) && Stuck(w, id)
    ensures OutCalm(w, OutStep(w, e), id)
  {
    hide Inv, Stuck, OutCalm, ReviewCashOut, ConfirmCashOut, SendMelt, AnswerMelt, FinishMelt, RefreshCashOut, ActOnQuote, PrepareRecovery,
      FinishRecovery, GiveUpRecovery;
    match e
    case ReviewOut(rid, rv) => DraftCalm(w, rid, rv, 0, id);
    case ConfirmOut(rid, k) => DraftCalm(w, rid, OutReview([], [], [], [], 0, 0, 0), k, id);
    case Melt => CallCalm(w, 0, true, id);
    case MeltAnswer(a) => CallCalm(w, 0, a, id);
    case EndMelt => MeltCalm(w, id);
    case PollOut(k, a) => CallCalm(w, k, a, id);
    case ActOut => ActCalm(w, id);
    case ReadyRecovery(t, sw) => PrepareCalm(w, t, sw, id);
    case EndRecovery => RecoverCalm(w, id);
    case DropRecovery => CallCalm(w, 0, true, id);
  }

  lemma CalmStuck(w: World, v: World, id: nat)
    requires Stuck(w, id) && OutCalm(w, v, id)
    ensures Stuck(v, id)
  {
    hide Unblinds, Unhurried;
  }

  lemma StepStuck(w: World, e: Event, id: nat)
    requires Inv(w) && Stuck(w, id)
    ensures Stuck(Step(w, e), id)
  {
    var v := Step(w, e);
    assert Unhurried(w.task, id);
    StepHistory(w, e);
    hide Inv, Stuck, OutCalm, Unhurried, Recovering, PayStep, AddStep, OutStep, OrderStep, SettleStep, MarketRuns.MintStep, CallSwap, RestoreSwap,
      MintKeeps, MeltsFrom, OutsKeep, OrdersKeep, TokensKeep, PledgesKeep, LogsGrow, LossesStay;
    match e
    case OfPayment(p) => PayAside(w, p); AsideStuck(w, v, id);
    case OfAdd(a) => QuietAdd(w, a); AsideStuck(w, v, id);
    case OfCashOut(o) => OutStuck(w, o, id); CalmStuck(w, v, id);
    case OfOrder(o) => QuietOrder(w, o); AsideStuck(w, v, id);
    case OfSettle(s) => QuietSettle(w, s); AsideStuck(w, v, id);
    case OfMint(m) => QuietMint(w, m); AsideStuck(w, v, id);
    case SwapSent(r, a) => SwapAside(w, r, a, id); TaskStuck(w, v, id);
    case Restoring(a) => SwapAside(w, false, a, id); TaskStuck(w, v, id);
    case Crash => NotRecovering(); AsideStuck(w, v, id);
  }

  lemma NotRecovering()
    ensures !Recovering(Idle)
  {
  }

  lemma {:induction false} RunStuck(w: World, es: seq<Event>, id: nat)
    requires Inv(w) && Stuck(w, id)
    ensures Stuck(Run(w, es), id)
  {
    hide Inv, Step, Stuck;
    if es != [] {
      var last := |es| - 1;
      RunStuck(w, es[..last], id);
      RunKeepsInv(w, es[..last]);
      StepStuck(Run(w, es[..last]), es[last], id);
    }
  }

  // ---- every other reservation can end ----

  predicate Ended(w: World, id: nat) { id in w.snap.cashOut && w.snap.cashOut[id].reserved.None? }

  /** No run whatever gives up what this cash-out reserves. */
  ghost predicate NeverEnds(w: World, id: nat) { forall es :: !Ended(Run(w, es), id) }

  /** Looking at a paid quote whose change fits releases the reservation. */
  lemma PaidEnds(w: World, id: nat)
    requires id in w.snap.cashOut && PaidAt(w.mint, w.snap.cashOut[id].quote) && w.snap.cashOut[id].blanks.Some?
    requires Unblinds(w.snap.cashOut[id].blanks.value, w.mint.meltQuotes[w.snap.cashOut[id].quote].state.change)
    ensures Ended(Run(w, LookAgain(id)), id)
  {
    LookAgainSteps(w, id);
    OutputsForChange(w.snap.cashOut[id].blanks.value, w.mint.meltQuotes[w.snap.cashOut[id].quote].state.change);
    ActEnds(Go(w, OutSeen(id, w.mint.meltQuotes[w.snap.cashOut[id].quote].state)), id);
    hide Run, ActOnQuote, Unblinds;
  }

  lemma ActEnds(w: World, id: nat)
    requires w.task.OutSeen? && w.task.id == id && id in w.snap.cashOut && w.snap.cashOut[id].blanks.Some? && w.task.found.Paid?
    requires Unblinds(w.snap.cashOut[id].blanks.value, w.task.found.change)
    requires w.task.found.change == [] || w.snap.cashOut[id].blanks.value != []
    ensures Ended(ActOnQuote(w), id)
  {
    hide Unblinds, Retag, Secrets, OutEdits, OutsKeep, Forgotten;
  }

  /** The mint pays the pending melt without change, which every record unblinds. */
  lemma PendingEnds(w: World, id: nat)
    requires w.mint.Ok() && id in w.snap.cashOut && w.snap.cashOut[id].quote in w.mint.meltQuotes && w.snap.cashOut[id].blanks.Some?
    requires w.mint.meltQuotes[w.snap.cashOut[id].quote].state.Pending?
    ensures Ended(Run(w, [OfMint(MeltPays(w.snap.cashOut[id].quote, []))] + LookAgain(id)), id)
  {
    assert Secrets([]) == {};
    var q := w.snap.cashOut[id].quote;
    assert CanPay(w.mint, q, []);
    hide Mint.Ok;
    PaidWithoutChange(w, q);
    hide Run, SafeRun, CanPay, LookAgain, Mint.LiveOurs, PayMelt;
    var pay := [OfMint(MeltPays(q, []))];
    FitsAnything(w.snap.cashOut[id].blanks.value);
    PaidEnds(Run(w, pay), id);
    RunAppend(w, pay, LookAgain(id));
  }

  lemma FitsAnything(blanks: seq<nat>)
    ensures Unblinds(blanks, [])
  {
  }

  /** A recovery swap over the reserved proofs into one new coin of their whole worth. */
  function Whole(r: seq<Coin>, secret: nat): Swap { Swap(Total(r), 0, r, [Coin(secret, Total(r))], [], []) }

  lemma {:induction false} PositiveTotal(r: seq<Coin>)
    requires r != [] && Positive(r)
    ensures Total(r) > 0
  {
    assert r[0] in r;
  }

  lemma {:induction false} FreshSecret(used: set<nat>) returns (s: nat)
    ensures forall u :: u in used ==> u < s
    decreases |used|
  {
    if used == {} {
      s := 0;
    } else {
      var u :| u in used;
      var rest := FreshSecret(used - {u});
      s := if u < rest then rest else u + 1;
      assert forall v :: v in used ==> v == u || v in used - {u};
    }
  }

  lemma WholeFits(w: World, r: seq<Coin>, secret: nat)
    requires r != [] && Distinct(r) && Positive(r) && secret !in w.tags && forall c :: c in r ==> c.secret in w.tags
    ensures ReceiveSwap(w, Whole(r, secret))
  {
    PositiveTotal(r);
    var sw := Whole(r, secret);
    assert sw.Outputs() == sw.keep && sw.keep[1..] == [];
    assert Total(sw.keep) == sw.keep[0].amount + Total(sw.keep[1..]);
    assert Secrets(sw.keep) == {secret} by { assert sw.keep[0] in sw.keep; }
  }

  const SWAP_ANSWERED: seq<Event> := [SwapSent(true, true)] + [OfCashOut(EndRecovery)]

  const SWAP_RESTORED: seq<Event> := [SwapSent(false, false)] + [Restoring(true)] + [OfCashOut(EndRecovery)]

  /** A stored recovery swap can be completed, or restored if the mint applied it before. */
  lemma SwapEnds(w: World, id: nat) returns (es: seq<Event>)
    requires Inv(w) && w.task == SwapCall(RecoverJob(id)) && id in w.snap.cashOut && w.snap.cashOut[id].recovery.Some?
    requires w.mint.meltQuotes[w.snap.cashOut[id].quote].state.Unpaid?
    ensures Ended(Run(w, es), id)
  {
    OutAt(w, id);
    var sw := w.snap.cashOut[id].recovery.value;
    SwapReady(w.mint, w.tags, id, w.snap.cashOut[id]);
    hide Inv, OutOk, Run, Step, CanSwap;
    if CanSwap(w.mint, sw) {
      es := SWAP_ANSWERED;
      SwapAnswered(w, id);
      RunOne(w, SwapSent(true, true));
      RunMore(w, [SwapSent(true, true)], OfCashOut(EndRecovery));
    } else {
      es := SWAP_RESTORED;
      SwapRestored(w, id);
      RunOne(w, SwapSent(false, false));
      RunMore(w, [SwapSent(false, false)], Restoring(true));
      RunMore(w, [SwapSent(false, false)] + [Restoring(true)], OfCashOut(EndRecovery));
    }
  }

  lemma SwapReady(m: Mint, tags: map<nat, Tag>, id: nat, o: CashOut)
    requires OutOk(m, tags, id, o) && o.recovery.Some? && m.meltQuotes[o.quote].state.Unpaid?
    ensures CanSwap(m, o.recovery.value) || Secrets(o.recovery.value.Outputs()) <= m.signed.Keys
  {
    assert o.recovery.value.Outputs() == o.recovery.value.keep;
  }

  lemma SwapAnswered(w: World, id: nat)
    requires w.task == SwapCall(RecoverJob(id)) && id in w.snap.cashOut && w.snap.cashOut[id].recovery.Some?
      && CanSwap(w.mint, w.snap.cashOut[id].recovery.value)
    ensures Ended(Step(Step(w, SwapSent(true, true)), OfCashOut(EndRecovery)), id)
  {
    hide ApplySwap, CanSwap, Retag, Secrets, OutEdits, OutsKeep, Forgotten;
  }

  lemma SwapRestored(w: World, id: nat)
    requires w.task == SwapCall(RecoverJob(id)) && id in w.snap.cashOut && w.snap.cashOut[id].recovery.Some?
      && Secrets(w.snap.cashOut[id].recovery.value.Outputs()) <= w.mint.signed.Keys
    ensures Ended(Step(Step(Step(w, SwapSent(false, false)), Restoring(true)), OfCashOut(EndRecovery)), id)
  {
    hide ApplySwap, CanSwap, Retag, Secrets, OutEdits, OutsKeep, Forgotten;
  }

  /** The reserved proofs are reported unspent, and a recovery swap over them is stored. */
  lemma RecoveryStarts(w: World, id: nat) returns (e: Event)
    requires Inv(w) && w.task == OutProofs(id) && id in w.snap.cashOut && w.snap.cashOut[id].reserved.Some? && w.snap.cashOut[id].recovery.None?
    requires w.mint.meltQuotes[w.snap.cashOut[id].quote].state.Unpaid?
    ensures var v := Step(w, e);
      && Inv(v) && v.task == SwapCall(RecoverJob(id)) && v.mint == w.mint
      && id in v.snap.cashOut && v.snap.cashOut[id].recovery.Some? && v.snap.cashOut[id].quote == w.snap.cashOut[id].quote
  {
    OutAt(w, id);
    var r := w.snap.cashOut[id].reserved.value;
    var s := FreshSecret(w.tags.Keys);
    forall c | c in r ensures c.secret in w.tags { assert c.secret in Secrets(r); }
    WholeFits(w, r, s);
    e := OfCashOut(ReadyRecovery(AllUnspent, Whole(r, s)));
    KeepsStep(w, e);
    hide Inv, OutOk;
    RecoveryStored(w, id, Whole(r, s));
  }

  lemma RecoveryStored(w: World, id: nat, sw: Swap)
    requires w.task == OutProofs(id) && id in w.snap.cashOut && w.snap.cashOut[id].reserved.Some? && w.snap.cashOut[id].recovery.None?
    requires sw.inputs == w.snap.cashOut[id].reserved.value && ReceiveSwap(w, sw)
    ensures var v := Step(w, OfCashOut(ReadyRecovery(AllUnspent, sw)));
      && v.task == SwapCall(RecoverJob(id)) && v.mint == w.mint
      && id in v.snap.cashOut && v.snap.cashOut[id].recovery.Some? && v.snap.cashOut[id].quote == w.snap.cashOut[id].quote
  {
    hide ReceiveSwap, Retag, Secrets, OutEdits, OutsKeep, PayStep, AddStep, OrderStep, SettleStep, MarketRuns.MintStep, CallSwap, RestoreSwap;
  }

  lemma UnpaidSeen(w: World, id: nat)
    requires id in w.snap.cashOut && w.snap.cashOut[id].reserved.Some? && w.snap.cashOut[id].reserved.value != []
    ensures ActOnQuote(Go(w, OutSeen(id, Unpaid))) == Go(w, if w.snap.cashOut[id].recovery.None? then OutProofs(id) else SwapCall(RecoverJob(id)))
  {
    hide OutEdits, OutsKeep;
  }

  lemma UnpaidEnds(w: World, id: nat) returns (es: seq<Event>)
    requires Inv(w) && id in w.snap.cashOut && w.snap.cashOut[id].reserved.Some? && w.mint.meltQuotes[w.snap.cashOut[id].quote].state.Unpaid?
    ensures Ended(Run(w, es), id)
  {
    OutAt(w, id);
    LookAgainSteps(w, id);
    UnpaidSeen(w, id);
    RunKeepsInv(w, LookAgain(id));
    hide Inv, Run, OutOk, Step, Ended, ActOnQuote, LookAgain;
    var v := Run(w, LookAgain(id));
    if w.snap.cashOut[id].recovery.None? {
      var e := RecoveryStarts(v, id);
      var fs := SwapEnds(Step(v, e), id);
      RunOne(v, e);
      RunAppend(v, [e], fs);
      RunAppend(w, LookAgain(id), [e] + fs);
      es := LookAgain(id) + ([e] + fs);
    } else {
      var fs := SwapEnds(v, id);
      RunAppend(w, LookAgain(id), fs);
      es := LookAgain(id) + fs;
    }
  }

  lemma ThawedEnds(w: World, id: nat) returns (es: seq<Event>)
    requires Inv(w) && id in w.snap.cashOut && w.snap.cashOut[id].reserved.Some? && !Frozen(w.mint, w.snap.cashOut[id])
    ensures Ended(Run(w, es), id)
  {
    OutAt(w, id);
    var o := w.snap.cashOut[id];
    match w.mint.meltQuotes[o.quote].state
    case Unpaid => es := UnpaidEnds(w, id);
    case Pending(_, _) => PendingEnds(w, id); es := [OfMint(MeltPays(o.quote, []))] + LookAgain(id);
    case Paid(_, _, _) => PaidEnds(w, id); es := LookAgain(id);
  }

  /** In every reachable wallet at rest, a cash-out that reserves proofs can never give them up, in any
      later run, exactly when its quote was paid by another one with change that its outputs do not
      unblind. */
  lemma NeverEndsExactly(es: seq<Event>, id: nat)
    requires Run(START, es).task.Idle? && id in Run(START, es).snap.cashOut && Run(START, es).snap.cashOut[id].reserved.Some?
    ensures var w := Run(START, es); NeverEnds(w, id) <==> Frozen(w.mint, w.snap.cashOut[id])
  {
    Reached(es);
    hide Inv, Run, Frozen, Ended, NeverEnds;
    var w := Run(START, es);
    if Frozen(w.mint, w.snap.cashOut[id]) {
      FrozenForever(w, id);
    } else {
      var fs := ThawedEnds(w, id);
      EndsOnce(w, fs, id);
    }
  }

  lemma EndsOnce(w: World, es: seq<Event>, id: nat)
    requires Ended(Run(w, es), id)
    ensures !NeverEnds(w, id)
  {
    hide Run, Ended;
  }

  lemma FrozenForever(w: World, id: nat)
    requires Inv(w) && w.task.Idle? && id in w.snap.cashOut && Frozen(w.mint, w.snap.cashOut[id])
    ensures NeverEnds(w, id)
  {
    assert Stuck(w, id);
    hide Inv, Run, Frozen, Stuck, Ended;
    forall fs ensures !Ended(Run(w, fs), id) {
      RunStuck(w, fs, id);
      StuckReserves(Run(w, fs), id);
    }
  }

  lemma StuckReserves(w: World, id: nat)
    requires Stuck(w, id)
    ensures !Ended(w, id)
  {
    hide Unblinds;
  }
}
