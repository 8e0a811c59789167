/** Cash-outs that share a melt quote: exactly which confirmations never cost a coin. */
module MarketQuotes {
  import opened Ecash
  import opened MintLedger
  import opened MarketRecords
  import opened MarketSteps
  import opened MarketInvariant
  import opened MarketFrames
  import opened MarketDrafts
  import opened MarketRuns
  import opened MarketCredits
  import opened MarketLaws
  import opened MarketTheorems
  import opened MarketSafety

  // ---- runs, one event at a time ----

  lemma RunMore(w: World, es: seq<Event>, e: Event)
    ensures Run(w, es + [e]) == Step(Run(w, es), e)
    ensures SafeRun(w, es + [e]) == (SafeRun(w, es) && SafeEvent(Run(w, es), e))
  {
    hide Step, SafeEvent;
    assert (es + [e])[..|es|] == es;
  }

  // ---- coins that were released without credit ----

  /** An unspent coin of the wallet that the durable snapshot has forgotten. */
  predicate LostCoin(w: World, s: nat) {
    s in w.mint.LiveOurs() && s in w.tags && w.tags[s].owner.Lost?
  }

  /** Acting on a paid quote whose change fits the stored blanks drops whatever else the record held. */
  lemma ActForgets(d: World, id: nat, s: nat)
    requires d.task.OutSeen? && d.task.id == id && d.task.found.Paid? && id in d.snap.cashOut
    requires d.snap.cashOut[id].blanks.Some? && Unblinds(d.snap.cashOut[id].blanks.value, d.task.found.change)
    requires s in d.mint.LiveOurs() && s in OutFootprint(d.snap.cashOut[id]) && s !in Secrets(d.task.found.change)
    ensures LostCoin(ActOnQuote(d), s)
  {
    hide Secrets, OutsKeep, Unblinds, OutFootprint, Mint.LiveOurs;
    var change := d.task.found.change;
    assert s in Forgotten(d, id, change);
    OutputsForChange(d.snap.cashOut[id].blanks.value, change);
  }

  lemma OutputsForChange(blanks: seq<nat>, change: seq<Coin>)
    requires Unblinds(blanks, change)
    ensures change == [] || blanks != []
  {
  }

  lemma RunOne(w: World, e: Event)
    ensures Run(w, [e]) == Step(w, e) && SafeRun(w, [e]) == SafeEvent(w, e)
  {
    hide Step, SafeEvent;
    assert [e][..0] == [];
    assert Run(w, []) == w && SafeRun(w, []);
  }

  /** Only a confirmation can be unsafe. */
  lemma Harmless(w: World, e: Event)
    requires !(e.OfCashOut? && e.out.ConfirmOut?)
    ensures SafeEvent(w, e)
  {
  }

  lemma {:induction false} RunJoin(w: World, es: seq<Event>, fs: seq<Event>)
    requires SafeRun(w, es) && SafeRun(Run(w, es), fs)
    ensures SafeRun(w, es + fs) && Run(w, es + fs) == Run(Run(w, es), fs)
  {
    hide Step, SafeEvent;
    if fs == [] {
      assert es + fs == es;
    } else {
      var last := |fs| - 1;
      assert es + fs == (es + fs[..last]) + [fs[last]];
      RunJoin(w, es, fs[..last]);
      RunMore(w, es + fs[..last], fs[last]);
    }
  }

  /** Lose the tab, look at the quote of a cash-out and act on what the mint says. */
  function LookAgain(id: nat): seq<Event> {
    [Crash] + [OfCashOut(PollOut(id, true))] + [OfCashOut(ActOut)]
  }

  lemma LookAgainSteps(c: World, id: nat)
    requires id in c.snap.cashOut && c.snap.cashOut[id].quote in c.mint.meltQuotes
    ensures SafeRun(c, LookAgain(id))
    ensures Run(c, LookAgain(id)) == ActOnQuote(Go(c, OutSeen(id, c.mint.meltQuotes[c.snap.cashOut[id].quote].state)))
  {
    hide ActOnQuote, Run, SafeRun, SafeEvent, PayStep, AddStep, OrderStep, SettleStep, MintStep, CallSwap, RestoreSwap, OutsKeep;
    var poll, act := OfCashOut(PollOut(id, true)), OfCashOut(ActOut);
    RunOne(c, Crash);
    RunMore(c, [Crash], poll);
    RunMore(c, [Crash] + [poll], act);
    Harmless(c, Crash);
    Harmless(Go(c, Idle), poll);
    Harmless(RefreshCashOut(Go(c, Idle), id, true), act);
  }

  /** Looking again at a quote whose change fits the blanks of this record loses what the record held. */
  lemma LookingForgets(c: World, id: nat, s: nat)
    requires id in c.snap.cashOut && PaidAt(c.mint, c.snap.cashOut[id].quote) && c.snap.cashOut[id].blanks.Some?
    requires Unblinds(c.snap.cashOut[id].blanks.value, c.mint.meltQuotes[c.snap.cashOut[id].quote].state.change)
    requires s in c.mint.LiveOurs() && s in OutFootprint(c.snap.cashOut[id])
      && s !in Secrets(c.mint.meltQuotes[c.snap.cashOut[id].quote].state.change)
    ensures SafeRun(c, LookAgain(id)) && LostCoin(Run(c, LookAgain(id)), s)
  {
    hide ActOnQuote, LostCoin, Run, SafeRun, LookAgain, Unblinds, Secrets;
    LookAgainSteps(c, id);
    ActForgets(Go(c, OutSeen(id, c.mint.meltQuotes[c.snap.cashOut[id].quote].state)), id, s);
  }

  // ---- a cash-out just confirmed ----

  /** The record, the proofs and the outputs of a confirmation, whatever its quote. */
  predicate JustReserved(c: World, id: nat, rv: Review)
    requires rv.OutReview?
  {
    && c.task == MeltCall(id) && id in c.snap.cashOut && c.snap.cashOut[id] == Reserving(rv)
    && rv.reserved != [] && Distinct(rv.reserved) && Held(c.mint, rv.reserved)
    && Tagged(c.tags, Secrets(rv.reserved), Tag(Out(id), true)) && c.mint.Unsigned(Blanks(rv.blanks))
    && rv.quote in c.mint.meltQuotes
    && Total(rv.reserved) >= c.mint.meltQuotes[rv.quote].amount + c.mint.meltQuotes[rv.quote].feeReserve + rv.inputFee
  }

  lemma ReservationTags(m: Mint, tags: map<nat, Tag>, r: seq<Coin>, b: seq<nat>, rid: nat, id: nat)
    requires Held(m, r) && m.Unsigned(Blanks(b))
    requires Tagged(tags, Secrets(r), Tag(Spendable, false)) && Tagged(tags, Blanks(b), Tag(Draft(rid), false))
    ensures Tagged(CashOutTags(tags, r, b, id), Secrets(r), Tag(Out(id), true))
    ensures forall s :: s in tags && tags[s].owner.Out? ==> s in CashOutTags(tags, r, b, id) && CashOutTags(tags, r, b, id)[s] == tags[s]
  {
    hide Blanks;
  }

  lemma Confirms(w: World, rid: nat, id: nat)
    requires Inv(w) && Confirmable(w, rid, id)
    ensures var c := ConfirmCashOut(w, rid, id);
      && JustReserved(c, id, w.reviews[rid]) && c.mint == w.mint
      && (forall k :: k in w.snap.cashOut ==> k in c.snap.cashOut && c.snap.cashOut[k] == w.snap.cashOut[k])
      && (forall s :: s in w.tags && w.tags[s].owner.Out? ==> s in c.tags && c.tags[s] == w.tags[s])
  {
    hide PaymentsOk, OrdersOk, AddsOk, OutsOk, NothingLost, AllClosed, CreditsOk, ReviewsOk, WireOk, PledgesOk, SentOk, MeltsKnown, KeysOk,
      TaskOk, Mint.Ok, ConfirmCashOut, CashOutTags, DistinctBlanks, Total;
    var rv := w.reviews[rid];
    CashOutReview(w, rid);
    ConfirmedWorld(w, rid, id);
    ProofsSplit(w.mint, w.tags, w.snap.proofs, rv.reserved, rv.keep);
    DraftsUnsigned(w.mint, w.tags, Blanks(rv.blanks), rid);
    ReservationTags(w.mint, w.tags, rv.reserved, rv.blanks, rid, id);
    hide Inv, Held, Blanks, TagsOk;
  }

  // ---- what an unsafe confirmation can lose ----

  lemma PaidLoses(c: World, id: nat, rv: Review)
    requires rv.OutReview? && JustReserved(c, id, rv) && PaidAt(c.mint, rv.quote)
    requires Unblinds(rv.blanks, c.mint.meltQuotes[rv.quote].state.change)
    ensures SafeRun(c, LookAgain(id)) && LostCoin(Run(c, LookAgain(id)), rv.reserved[0].secret)
    ensures rv.reserved[0].secret in c.tags && c.tags[rv.reserved[0].secret].owner == Out(id)
  {
    hide LostCoin, Run, SafeRun, LookAgain, Unblinds;
    ChangeIsBlank(rv.blanks, c.mint.meltQuotes[rv.quote].state.change);
    var r := rv.reserved[0];
    assert r.secret in Secrets(rv.reserved) && c.mint.Spendable(r);
    LookingForgets(c, id, r.secret);
  }

  /** The mint pays a pending melt without change. */
  lemma PaidWithoutChange(c: World, quote: nat)
    requires CanPay(c.mint, quote, [])
    ensures var p := Run(c, [OfMint(MeltPays(quote, []))]); var st := c.mint.meltQuotes[quote].state;
      && SafeRun(c, [OfMint(MeltPays(quote, []))]) && p == PayMelt(c, quote, [])
      && p.snap == c.snap && p.tags == c.tags && PaidAt(p.mint, quote) && p.mint.meltQuotes[quote].state.change == []
      && p.mint.LiveOurs() == c.mint.LiveOurs() - Secrets(st.inputs)
  {
    assert Secrets([]) == {};
    hide Run, SafeRun, SafeEvent, Mint.Ok, PayStep, AddStep, OutStep, OrderStep, SettleStep, CallSwap, RestoreSwap;
    RunOne(c, OfMint(MeltPays(quote, [])));
    Harmless(c, OfMint(MeltPays(quote, [])));
  }

  lemma PendingLoses(c: World, id: nat, rv: Review)
    requires c.mint.Ok() && rv.OutReview? && JustReserved(c, id, rv) && c.mint.meltQuotes[rv.quote].state.Pending?
    ensures var es := [OfMint(MeltPays(rv.quote, []))] + LookAgain(id);
      SafeRun(c, es) && LostCoin(Run(c, es), rv.reserved[0].secret)
    ensures rv.reserved[0].secret in c.tags && c.tags[rv.reserved[0].secret].owner == Out(id)
  {
    var r := rv.reserved[0];
    assert r.secret in Secrets(rv.reserved) && c.mint.Spendable(r);
    assert r.secret !in Secrets(c.mint.meltQuotes[rv.quote].state.inputs);
    assert Secrets([]) == {};
    PaidWithoutChange(c, rv.quote);
    hide LostCoin, Run, SafeRun, LookAgain, Mint.Ok, Mint.LiveOurs;
    var pay := [OfMint(MeltPays(rv.quote, []))];
    assert r.secret in c.mint.LiveOurs();
    LookingForgets(Run(c, pay), id, r.secret);
    RunJoin(c, pay, LookAgain(id));
  }

  /** The melt of a confirmed cash-out reaches the mint. */
  function MeltArrives(rv: Review): seq<Event>
    requires rv.OutReview?
  {
    [OfCashOut(Melt)] + [OfMint(MeltLands(MeltRequest(rv.quote, rv.reserved, rv.blanks, rv.inputFee)))]
  }

  lemma MeltFits(c: World, id: nat, rv: Review)
    requires c.mint.Ok() && rv.OutReview? && JustReserved(c, id, rv) && c.mint.meltQuotes[rv.quote].state.Unpaid?
    ensures var r := MeltRequest(rv.quote, rv.reserved, rv.blanks, rv.inputFee);
      CanLand(c.mint, r) && CanPay(ApplyLand(c.mint, r), rv.quote, [])
  {
    assert Secrets([]) == {};
  }

  lemma MeltSent(c: World, id: nat, rv: Review)
    requires rv.OutReview? && JustReserved(c, id, rv)
    ensures var r := MeltRequest(rv.quote, rv.reserved, rv.blanks, rv.inputFee); var v := SendMelt(c);
      r in v.wire && v.mint == c.mint && v.snap == c.snap && v.tags == c.tags
  {
    hide Held, Tagged, Total, Secrets, Mint.Unsigned, OutOnly, OutsKeep;
  }

  lemma MeltLanded(v: World, r: MeltRequest)
    requires r in v.wire && CanLand(v.mint, r)
    ensures LandMelt(v, r) == v.(mint := ApplyLand(v.mint, r))
  {
    hide CanLand, ApplyLand;
  }

  lemma ArrivesAs(c: World, rv: Review)
    requires rv.OutReview?
    ensures var r := MeltRequest(rv.quote, rv.reserved, rv.blanks, rv.inputFee);
      SafeRun(c, MeltArrives(rv)) && Run(c, MeltArrives(rv)) == LandMelt(SendMelt(c), r)
  {
    hide Run, SafeRun, SafeEvent, SendMelt, LandMelt, PayStep, AddStep, OrderStep, SettleStep, CallSwap, RestoreSwap;
    var melt, lands := OfCashOut(Melt), OfMint(MeltLands(MeltRequest(rv.quote, rv.reserved, rv.blanks, rv.inputFee)));
    RunOne(c, melt);
    RunMore(c, [melt], lands);
    Harmless(c, melt);
    Harmless(SendMelt(c), lands);
  }

  lemma Arrives(c: World, id: nat, rv: Review)
    requires c.mint.Ok() && rv.OutReview? && JustReserved(c, id, rv) && c.mint.meltQuotes[rv.quote].state.Unpaid?
    ensures var l := Run(c, MeltArrives(rv));
      && SafeRun(c, MeltArrives(rv)) && l.snap == c.snap && l.tags == c.tags
      && l.mint == ApplyLand(c.mint, MeltRequest(rv.quote, rv.reserved, rv.blanks, rv.inputFee))
      && CanPay(l.mint, rv.quote, [])
  {
    var r := MeltRequest(rv.quote, rv.reserved, rv.blanks, rv.inputFee);
    MeltFits(c, id, rv);
    MeltSent(c, id, rv);
    hide Run, SafeRun, MeltArrives, CanLand, ApplyLand, CanPay, Mint.Ok, JustReserved, SendMelt, LandMelt;
    MeltLanded(SendMelt(c), r);
    ArrivesAs(c, rv);
  }

  /** Whatever a cash-out under an unpaid quote still holds is live, as itself or swapped back. */
  lemma ReservedLives(w: World, k: nat) returns (s: nat)
    requires Inv(w) && k in w.snap.cashOut && w.snap.cashOut[k].reserved.Some?
      && w.mint.meltQuotes[w.snap.cashOut[k].quote].state.Unpaid?
    ensures s in w.mint.LiveOurs() && s in w.tags && w.tags[s].owner == Out(k) && w.snap.cashOut[k].blanks.Some?
    ensures s in OutFootprint(w.snap.cashOut[k])
  {
    OutAt(w, k);
    hide Inv;
    var o := w.snap.cashOut[k];
    var c := if Held(w.mint, o.reserved.value) then o.reserved.value[0] else o.recovery.value.Outputs()[0];
    assert o.recovery.Some? ==> o.recovery.value.Outputs() == o.recovery.value.keep;
    s := c.secret;
    assert c in (if Held(w.mint, o.reserved.value) then o.reserved.value else o.recovery.value.keep);
  }

  /** The second melt is paid without change, and looking at the first one loses what it reserved. */
  lemma UnpaidLoses(c: World, id: nat, rv: Review, k: nat, s: nat)
    requires c.mint.Ok() && rv.OutReview? && JustReserved(c, id, rv) && c.mint.meltQuotes[rv.quote].state.Unpaid?
    requires k != id && k in c.snap.cashOut && c.snap.cashOut[k].quote == rv.quote && c.snap.cashOut[k].blanks.Some?
    requires s in c.mint.LiveOurs() && s in c.tags && c.tags[s].owner == Out(k) && s in OutFootprint(c.snap.cashOut[k])
    ensures var es := MeltArrives(rv) + ([OfMint(MeltPays(rv.quote, []))] + LookAgain(k));
      SafeRun(c, es) && LostCoin(Run(c, es), s)
  {
    Arrives(c, id, rv);
    var l := Run(c, MeltArrives(rv));
    assert s !in Secrets(rv.reserved);
    assert s in l.mint.LiveOurs() && l.mint.meltQuotes[rv.quote].state == Pending(rv.reserved, rv.blanks) && Secrets([]) == {};
    hide LostCoin, Run, SafeRun, LookAgain, MeltArrives, CanPay, ApplyLand, PayMelt, JustReserved, Mint.Ok, Mint.LiveOurs, Secrets, Tagged;
    PaidWithoutChange(l, rv.quote);
    var pay := [OfMint(MeltPays(rv.quote, []))];
    LookingForgets(Run(l, pay), k, s);
    RunJoin(l, pay, LookAgain(k));
    RunJoin(c, MeltArrives(rv), pay + LookAgain(k));
  }

  // ---- the exact condition ----

  /** No safe continuation ever forgets another unspent coin. */
  ghost predicate NeverLoses(c: World) {
    forall es :: SafeRun(c, es) ==> LossesStay(c.tags, Run(c, es).tags)
  }

  lemma LosingRun(c: World, es: seq<Event>, s: nat)
    requires SafeRun(c, es) && LostCoin(Run(c, es), s) && s in c.tags && !c.tags[s].owner.Lost?
    ensures !NeverLoses(c)
  {
    hide Run, SafeRun;
  }

  /** Under a quote not paid yet, `k` still reserves proofs. */
  lemma SharedLoses(w: World, rid: nat, id: nat, k: nat)
    requires Inv(w) && Confirmable(w, rid, id) && !PaidAt(w.mint, w.reviews[rid].quote)
    requires k in w.snap.cashOut && w.snap.cashOut[k].quote == w.reviews[rid].quote && w.snap.cashOut[k].reserved.Some?
    ensures !NeverLoses(ConfirmCashOut(w, rid, id))
  {
    hide NeverLoses, ConfirmCashOut, LostCoin, JustReserved, SafeRun, Run, LookAgain, MeltArrives, Mint.Ok, Mint.LiveOurs;
    Confirms(w, rid, id);
    ReservedQuote(w, k);
    assert w.mint.Ok();
    var rv, c := w.reviews[rid], ConfirmCashOut(w, rid, id);
    if w.mint.meltQuotes[rv.quote].state.Pending? {
      hide Inv;
      PendingLoses(c, id, rv);
      LosingRun(c, [OfMint(MeltPays(rv.quote, []))] + LookAgain(id), rv.reserved[0].secret);
    } else {
      var s := ReservedLives(w, k);
      hide Inv;
      UnpaidLoses(c, id, rv, k, s);
      LosingRun(c, MeltArrives(rv) + ([OfMint(MeltPays(rv.quote, []))] + LookAgain(k)), s);
    }
  }

  lemma UnsafeLoses(w: World, rid: nat, id: nat)
    requires Inv(w) && Confirmable(w, rid, id) && !SafeConfirm(w, rid)
    ensures !NeverLoses(ConfirmCashOut(w, rid, id))
  {
    hide Inv, NeverLoses, ConfirmCashOut, LostCoin, SafeRun, Run, Unblinds, LookAgain;
    var rv, c := w.reviews[rid], ConfirmCashOut(w, rid, id);
    if PaidAt(w.mint, rv.quote) {
      Confirms(w, rid, id);
      PaidLoses(c, id, rv);
      LosingRun(c, LookAgain(id), rv.reserved[0].secret);
    } else {
      var k :| k in w.snap.cashOut && w.snap.cashOut[k].quote == rv.quote && w.snap.cashOut[k].reserved.Some?;
      SharedLoses(w, rid, id, k);
    }
  }

  lemma ReservedQuote(w: World, k: nat)
    requires Inv(w) && k in w.snap.cashOut
    ensures w.snap.cashOut[k].quote in w.mint.meltQuotes
  {
    OutAt(w, k);
    hide Inv;
  }

  lemma SafeNeverLoses(w: World, rid: nat, id: nat)
    requires Inv(w) && NoRivals(w.mint, w.snap.cashOut) && Confirmable(w, rid, id) && SafeConfirm(w, rid)
    ensures NeverLoses(ConfirmCashOut(w, rid, id))
  {
    hide Inv, NoRivals, SafeConfirm, Confirmable, ConfirmCashOut;
    CashOutConfirmed(w, rid, id);
    ConfirmedRivals(w, rid, id);
    AlwaysKeeps(ConfirmCashOut(w, rid, id));
  }

  lemma AlwaysKeeps(c: World)
    requires Inv(c) && NoRivals(c.mint, c.snap.cashOut)
    ensures NeverLoses(c)
  {
    hide Inv, NoRivals, Run, SafeRun, LossesStay;
    forall es | SafeRun(c, es) ensures LossesStay(c.tags, Run(c, es).tags) { SafeRunKeeps(c, es); }
  }

  /** In any reachable world, an unsafe confirmation of a cash-out has a continuation that forgets an
      unspent coin of the wallet: it is made under a paid quote whose change fits the new blank
      outputs, or under a quote not paid yet for which a stored cash-out still reserves proofs. If all
      was safe before, these are exactly the confirmations that have one. */
  lemma ExactlyWhenSafe(es: seq<Event>, rid: nat, id: nat)
    requires Confirmable(Run(START, es), rid, id)
    ensures var w := Run(START, es);
      && (!SafeConfirm(w, rid) ==> !NeverLoses(ConfirmCashOut(w, rid, id)))
      && (SafeRun(START, es) ==> (NeverLoses(ConfirmCashOut(w, rid, id)) <==> SafeConfirm(w, rid)))
  {
    Reached(es);
    hide Inv, NoRivals, Run, SafeRun, SafeConfirm, NeverLoses, ConfirmCashOut;
    var w := Run(START, es);
    if !SafeConfirm(w, rid) {
      UnsafeLoses(w, rid, id);
    } else if SafeRun(START, es) {
      SafeReached(es);
      SafeNeverLoses(w, rid, id);
    }
  }

  /** A run never puts a coin at risk exactly when all its confirmations are safe. */
  lemma {:induction false} RunsAtNoRisk(es: seq<Event>)
    ensures SafeRun(START, es) <==> forall n :: 0 <= n <= |es| ==> NeverLoses(Run(START, es[..n]))
  {
    hide Inv, NoRivals, Run, SafeRun, NeverLoses, SafeEvent;
    if SafeRun(START, es) {
      forall n | 0 <= n <= |es| ensures NeverLoses(Run(START, es[..n])) {
        SafePrefix(es, n);
        SafeReached(es[..n]);
        AlwaysKeeps(Run(START, es[..n]));
      }
    } else {
      var n := FirstUnsafe(es);
      Reached(es[..n]);
      UnsafeEvent(Run(START, es[..n]), es[n]);
      RunMore(START, es[..n], es[n]);
      assert es[..n] + [es[n]] == es[..n + 1];
      assert !NeverLoses(Run(START, es[..n + 1]));
    }
  }

  lemma {:induction false} SafePrefix(es: seq<Event>, n: nat)
    requires SafeRun(START, es) && n <= |es|
    ensures SafeRun(START, es[..n])
  {
    hide Step, SafeEvent, Run;
    if n == |es| { assert es[..n] == es; }
    else {
      assert es[..|es| - 1][..n] == es[..n];
      SafePrefix(es[..|es| - 1], n);
    }
  }

  lemma {:induction false} FirstUnsafe(es: seq<Event>) returns (n: nat)
    requires !SafeRun(START, es)
    ensures n < |es| && !SafeEvent(Run(START, es[..n]), es[n])
  {
    hide Step, SafeEvent, Run;
    var last := |es| - 1;
    if SafeRun(START, es[..last]) {
      n := last;
    } else {
      n := FirstUnsafe(es[..last]);
      assert es[..last][..n] == es[..n] && es[..last][n] == es[n];
    }
  }

  lemma UnsafeEvent(w: World, e: Event)
    requires Inv(w) && !SafeEvent(w, e)
    ensures !NeverLoses(Step(w, e))
  {
    hide Inv, NeverLoses, ConfirmCashOut;
    UnsafeLoses(w, e.out.rid, e.out.id);
  }
}
