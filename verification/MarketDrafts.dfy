/** Steps that draw fresh outputs or give up inputs: reviews, confirmations and preparations. */
module MarketDrafts {
  import opened Ecash
  import opened MintLedger
  import opened MarketRecords
  import opened MarketSteps
  import opened MarketInvariant
  import opened MarketFrames
  import opened MarketRuns

  // ---- fresh secrets ----

  /** New secrets get tags; the old ones keep theirs. */
  predicate TagsMore(tags: map<nat, Tag>, tags': map<nat, Tag>) {
    forall s :: s in tags ==> s in tags' && tags'[s] == tags[s]
  }

  lemma MoreConfined(m: Mint, tags: map<nat, Tag>, tags': map<nat, Tag>)
    requires TagsMore(tags, tags')
    ensures Confined(m, tags, m, tags', {}) && TagsGrow(tags, tags')
  {
  }

  /** Secrets drawn by anybody disturb nothing. */
  lemma KeepsMoreTags(w: World, tags': map<nat, Tag>)
    requires Inv(w) && TagsMore(w.tags, tags')
    ensures Inv(w.(tags := tags')) && TagsGrow(w.tags, tags')
  {
    MoreConfined(w.mint, w.tags, tags');
    AllRecordsFrame(w.mint, w.tags, w.mint, tags', {}, w.snap);
    ReviewsFrame(Needs(w.mint), w.tags, Needs(w.mint), tags', w.reviews);
    CreditsFrame(w.tags, tags', w.credits);
    LostFrame(w.mint, w.tags, w.snap, w.mint, tags', w.snap, {});
    hide PaymentOk, OrderOk, AddOk, OutOk, Confined, Recorded, Closed, Credited, ReviewOk;
  }

  lemma KeepsFreshTags(w: World, ss: set<nat>, t: Tag)
    requires Inv(w) && Fresh(w, ss)
    ensures Inv(w.(tags := Retag(w.tags, ss, t))) && TagsGrow(w.tags, w.(tags := Retag(w.tags, ss, t)).tags)
  {
    assert TagsMore(w.tags, Retag(w.tags, ss, t));
    hide Inv, TagsGrow;
    KeepsMoreTags(w, Retag(w.tags, ss, t));
  }

  lemma KeepsReviewPayment(w: World, rid: nat, rv: Review)
    requires Inv(w)
    ensures Inv(ReviewPayment(w, rid, rv)) && TagsGrow(w.tags, ReviewPayment(w, rid, rv).tags)
  {
    var v := ReviewPayment(w, rid, rv);
    if v != w {
      KeepsFreshTags(w, Secrets(rv.swap.Outputs()), Tag(Draft(rid), false));
      assert ReviewOk(Needs(v.mint), v.tags, rid, rv);
    }
  }

  lemma KeepsReviewCashOut(w: World, rid: nat, rv: Review)
    requires Inv(w)
    ensures Inv(ReviewCashOut(w, rid, rv)) && TagsGrow(w.tags, ReviewCashOut(w, rid, rv).tags)
  {
    var v := ReviewCashOut(w, rid, rv);
    if v != w {
      KeepsFreshTags(w, Blanks(rv.blanks), Tag(Draft(rid), false));
      assert ReviewOk(Needs(v.mint), v.tags, rid, rv);
    }
  }

  // ---- giving up inputs ----

  lemma {:induction false} CountOne(cs: seq<Coin>, c: Coin)
    requires Distinct(cs)
    ensures multiset(cs)[c] <= 1
  {
    if cs != [] {
      assert cs == [cs[0]] + cs[1..];
      CountOne(cs[1..], c);
      assert c in cs[1..] ==> c != cs[0] by {
        forall i | 0 <= i < |cs[1..]| ensures cs[1..][i] != cs[0] { assert cs[1..][i] == cs[i + 1]; }
      }
    }
  }

  lemma SameSecretSameCoin(cs: seq<Coin>, c: Coin, d: Coin)
    requires Distinct(cs) && c in cs && d in cs && c.secret == d.secret
    ensures c == d
  {
  }

  lemma {:induction false} DistinctFromCounts(cs: seq<Coin>, whole: seq<Coin>)
    requires Distinct(whole) && multiset(cs) <= multiset(whole)
    ensures Distinct(cs) && forall c :: c in cs ==> c in whole
  {
    forall c | c in cs ensures c in whole { assert multiset(cs)[c] > 0; }
    forall i, j | 0 <= i < j < |cs| ensures cs[i].secret != cs[j].secret {
      if cs[i].secret == cs[j].secret {
        SameSecretSameCoin(whole, cs[i], cs[j]);
        CountTwo(cs, i, j);
        CountOne(whole, cs[i]);
      }
    }
  }

  /** A selection splits the spendable set into two disjoint lists. */
  lemma SplitProofs(proofs: seq<Coin>, taken: seq<Coin>, left: seq<Coin>)
    requires Distinct(proofs) && multiset(taken) + multiset(left) == multiset(proofs)
    ensures Distinct(taken) && Distinct(left) && Secrets(taken) !! Secrets(left)
    ensures forall c :: c in taken || c in left ==> c in proofs
    ensures Secrets(proofs) == Secrets(taken) + Secrets(left)
  {
    DistinctFromCounts(taken, proofs);
    DistinctFromCounts(left, proofs);
    forall s | s in Secrets(taken) ensures s !in Secrets(left) {
      if s in Secrets(left) {
        var c :| c in taken && c.secret == s;
        var d :| d in left && d.secret == s;
        SameSecretSameCoin(proofs, c, d);
        assert multiset(taken)[c] > 0 && multiset(left)[d] > 0;
        CountOne(proofs, c);
      }
    }
    forall s | s in Secrets(proofs) ensures s in Secrets(taken) + Secrets(left) {
      var c :| c in proofs && c.secret == s;
      assert c in multiset(taken) + multiset(left);
    }
    forall s | s in Secrets(taken) + Secrets(left) ensures s in Secrets(proofs) {}
  }

  lemma ProofsSplit(m: Mint, tags: map<nat, Tag>, proofs: seq<Coin>, taken: seq<Coin>, left: seq<Coin>)
    requires ProofsOk(m, tags, proofs) && multiset(taken) + multiset(left) == multiset(proofs)
    ensures ProofsOk(m, tags, taken) && ProofsOk(m, tags, left) && Secrets(taken) !! Secrets(left)
    ensures Secrets(proofs) == Secrets(taken) + Secrets(left)
  {
    SplitProofs(proofs, taken, left);
  }

  /** Tags after the spendable coins `taken` are reserved by `owner` and the drafted secrets are
      given to the operation. */
  lemma ReserveConfined(m: Mint, tags: map<nat, Tag>, tags': map<nat, Tag>, taken: set<nat>, drafted: set<nat>, rid: nat)
    requires tags'.Keys == tags.Keys
    requires Tagged(tags, taken, Tag(Spendable, false)) && Tagged(tags, drafted, Tag(Draft(rid), false))
    requires forall s :: s in taken ==> tags'[s].retired
    requires forall s :: s in tags && s !in taken && s !in drafted ==> tags'[s] == tags[s]
    ensures Confined(m, tags, m, tags', {Spendable, Draft(rid)}) && TagsGrow(tags, tags')
  {
  }

  lemma ReviewsAfterReserve(needs: map<nat, nat>, tags: map<nat, Tag>, tags': map<nat, Tag>, reviews: map<nat, Review>, rid: nat)
    requires ReviewsOk(needs, tags, reviews) && TagsGrow(tags, tags') && rid in reviews
    requires forall s :: s in tags && tags[s].owner.Draft? && tags[s].owner != Draft(rid) ==> tags'[s] == tags[s]
    requires ReviewOk(needs, tags', rid, reviews[rid])
    ensures ReviewsOk(needs, tags', reviews)
  {
    forall r | r in reviews ensures ReviewOk(needs, tags', r, reviews[r]) {
      assert ReviewOk(needs, tags, r, reviews[r]);
    }
  }

  lemma DraftsUnsigned(m: Mint, tags: map<nat, Tag>, ss: set<nat>, rid: nat)
    requires TagsOk(m, tags) && Tagged(tags, ss, Tag(Draft(rid), false))
    ensures m.Unsigned(ss)
  {
  }

  // ---- confirming a payment ----

  function PaymentTags(tags: map<nat, Tag>, sw: Swap, id: nat): map<nat, Tag> {
    Retag(Retag(Retag(tags, Secrets(sw.inputs), Tag(Pay(id), true)), Secrets(sw.send), Tag(Sent(id), false)),
          Secrets(sw.keep), Tag(Pay(id), false))
  }

  lemma PaymentTagged(m: Mint, tags: map<nat, Tag>, proofs: seq<Coin>, sw: Swap, rid: nat, id: nat)
    requires ProofsOk(m, tags, proofs) && sw.Wellformed()
    requires Secrets(sw.inputs) <= Secrets(proofs)
    requires Tagged(tags, Secrets(sw.Outputs()), Tag(Draft(rid), false))
    ensures var tags' := PaymentTags(tags, sw, id);
      && Tagged(tags', Secrets(sw.inputs), Tag(Pay(id), true))
      && Tagged(tags', Secrets(sw.keep), Tag(Pay(id), false))
      && Tagged(tags', Secrets(sw.send), Tag(Sent(id), false))
      && tags'.Keys == tags.Keys
      && (forall s :: s in tags && s !in Secrets(sw.inputs) && s !in Secrets(sw.Outputs()) ==> tags'[s] == tags[s])
      && Tagged(tags, Secrets(sw.inputs), Tag(Spendable, false))
  {
    SecretsConcat(sw.keep, sw.send);
    DistinctParts(sw.keep, sw.send);
  }

  lemma TagsOkAfterReserve(m: Mint, tags: map<nat, Tag>, sw: Swap, rid: nat, id: nat)
    requires TagsOk(m, tags) && m.Unsigned(Secrets(sw.Outputs())) && m.ours <= m.signed.Keys
    requires Tagged(tags, Secrets(sw.inputs), Tag(Spendable, false))
    requires PaymentTags(tags, sw, id).Keys == tags.Keys
    ensures TagsOk(m, PaymentTags(tags, sw, id))
  {
    SecretsConcat(sw.keep, sw.send);
  }

  lemma LostAfterReserve(m: Mint, tags: map<nat, Tag>, snap: Snapshot, tags': map<nat, Tag>, snap': Snapshot, rid: nat)
    requires NothingLost(m, tags, snap) && TagsOk(m, tags) && Confined(m, tags, m, tags', {Spendable, Draft(rid)})
    requires forall s :: s in Secrets(snap.proofs) && s in tags ==> s in tags' && Recorded(snap', tags'[s].owner, s)
    requires forall id :: id in snap.payments ==> id in snap'.payments && snap'.payments[id] == snap.payments[id]
    requires forall id :: id in snap.cashOut ==> id in snap'.cashOut && snap'.cashOut[id] == snap.cashOut[id]
    requires snap'.orders == snap.orders && snap'.addCash == snap.addCash
    ensures NothingLost(m, tags', snap')
  {
    LostFrame(m, tags, snap, m, tags', snap', {Spendable, Draft(rid)});
  }

  lemma DraftOrRetired(w: World, rid: nat)
    requires Inv(w) && rid in w.reviews && multiset(w.snap.proofs) == multiset(w.reviews[rid].basis)
    ensures w.reviews[rid].PayReview? ==> Tagged(w.tags, Secrets(w.reviews[rid].swap.Outputs()), Tag(Draft(rid), false))
    ensures w.reviews[rid].OutReview? ==> Tagged(w.tags, Blanks(w.reviews[rid].blanks), Tag(Draft(rid), false))
  {
    var rv := w.reviews[rid];
    assert ReviewOk(Needs(w.mint), w.tags, rid, rv);
    var first := if rv.PayReview? then rv.swap.inputs[0] else rv.reserved[0];
    assert first in multiset(rv.basis) by {
      if rv.PayReview? { assert first in multiset(rv.swap.inputs); } else { assert first in multiset(rv.reserved); }
    }
    assert first in multiset(w.snap.proofs);
    assert first.secret in Secrets(w.snap.proofs);
  }

  lemma KeepsConfirmPayment(w: World, rid: nat, id: nat)
    requires Inv(w)
    ensures Inv(ConfirmPayment(w, rid, id)) && TagsGrow(w.tags, ConfirmPayment(w, rid, id).tags)
  {
    var v := ConfirmPayment(w, rid, id);
    if v != w {
      var sw := w.reviews[rid].swap;
      assert ReviewOk(Needs(w.mint), w.tags, rid, w.reviews[rid]);
      DraftOrRetired(w, rid);
      ConfirmedPayment(w.mint, w.tags, w.snap.proofs, sw, rid, id, Needs(w.mint), w.reviews);
      ConfirmedPaymentSides(w.mint, w.tags, w.snap, w.credits, w.sent, v.tags, rid, id, v.snap.payments[id], sw.unselected);
    }
  }

  lemma ConfirmedPaymentSides(m: Mint, tags: map<nat, Tag>, snap: Snapshot, credits: seq<Credit>, sent: seq<Delivery>,
                              tags': map<nat, Tag>, rid: nat, id: nat, p: Payment, left: seq<Coin>)
    requires PaymentsOk(m, tags, snap.payments) && OrdersOk(m, tags, snap.orders) && AddsOk(m, tags, snap.addCash)
      && OutsOk(m, tags, snap.cashOut)
    requires TagsOk(m, tags) && NothingLost(m, tags, snap) && CreditsOk(tags, credits) && SentOk(snap.payments, sent)
      && AllClosed(m, snap, credits)
    requires id !in snap.payments && PaymentOk(m, tags', id, p) && p.swap.Some?
    requires Secrets(snap.proofs) == Secrets(p.swap.value.inputs) + Secrets(left) && ProofsOk(m, tags', left)
    requires Confined(m, tags, m, tags', {Spendable, Draft(rid)}) && TagsGrow(tags, tags')
    ensures var snap' := snap.(proofs := left, payments := snap.payments[id := p]);
      && PaymentsOk(m, tags', snap'.payments) && OrdersOk(m, tags', snap.orders) && AddsOk(m, tags', snap.addCash)
      && OutsOk(m, tags', snap.cashOut)
      && NothingLost(m, tags', snap') && CreditsOk(tags', credits) && SentOk(snap'.payments, sent) && AllClosed(m, snap', credits)
  {
    var snap' := snap.(proofs := left, payments := snap.payments[id := p]);
    AllRecordsFrame(m, tags, m, tags', {Spendable, Draft(rid)}, snap);
    assert PaymentsOk(m, tags', snap'.payments);
    CreditsFrame(tags, tags', credits);
    LostAfterReserve(m, tags, snap, tags', snap', rid);
    SentGrows(snap.payments, snap'.payments, sent);
    ClosedGrows(m, snap, snap', credits);
  }

  /** The coin side of a confirmed payment. */
  lemma ConfirmedPayment(m: Mint, tags: map<nat, Tag>, proofs: seq<Coin>, sw: Swap, rid: nat, id: nat, needs: map<nat, nat>, reviews: map<nat, Review>)
    requires m.ours <= m.signed.Keys && TagsOk(m, tags) && ProofsOk(m, tags, proofs)
    requires ReviewsOk(needs, tags, reviews) && rid in reviews && reviews[rid].PayReview? && reviews[rid].swap == sw
    requires sw.Wellformed() && SwapValid(sw) && sw.send != []
    requires multiset(sw.inputs) + multiset(sw.unselected) == multiset(proofs)
    requires Tagged(tags, Secrets(sw.Outputs()), Tag(Draft(rid), false))
    ensures var tags' := PaymentTags(tags, sw, id);
      && TagsOk(m, tags') && ProofsOk(m, tags', sw.unselected) && PaymentSwapOk(m, tags', id, sw)
      && Confined(m, tags, m, tags', {Spendable, Draft(rid)}) && TagsGrow(tags, tags')
      && ReviewsOk(needs, tags', reviews)
      && Secrets(proofs) == Secrets(sw.inputs) + Secrets(sw.unselected)
  {
    var tags' := PaymentTags(tags, sw, id);
    ProofsSplit(m, tags, proofs, sw.inputs, sw.unselected);
    DraftsUnsigned(m, tags, Secrets(sw.Outputs()), rid);
    PaymentTagged(m, tags, proofs, sw, rid, id);
    TagsOkAfterReserve(m, tags, sw, rid, id);
    ReserveConfined(m, tags, tags', Secrets(sw.inputs), Secrets(sw.Outputs()), rid);
    assert ReviewOk(needs, tags, rid, reviews[rid]);
    assert sw.inputs[0].secret in Secrets(sw.inputs);
    ReviewsAfterReserve(needs, tags, tags', reviews, rid);
  }

  lemma SentGrows(ps: map<nat, Payment>, ps': map<nat, Payment>, sent: seq<Delivery>)
    requires SentOk(ps, sent) && forall id :: id in ps ==> id in ps' && ps'[id] == ps[id]
    ensures SentOk(ps', sent)
  {
    forall i | 0 <= i < |sent| ensures StillSent(ps', sent[i]) { assert StillSent(ps, sent[i]); }
  }

  lemma ClosedGrows(m: Mint, snap: Snapshot, snap': Snapshot, credits: seq<Credit>)
    requires AllClosed(m, snap, credits)
    requires forall id :: id in snap.payments ==> id in snap'.payments && snap'.payments[id] == snap.payments[id]
    requires forall id :: id in snap.orders ==> id in snap'.orders && snap'.orders[id] == snap.orders[id]
    requires forall id :: id in snap.addCash ==> id in snap'.addCash && snap'.addCash[id] == snap.addCash[id]
    requires forall id :: id in snap.cashOut ==> id in snap'.cashOut && snap'.cashOut[id] == snap.cashOut[id]
    ensures AllClosed(m, snap', credits)
  {
    forall i | 0 <= i < |credits| ensures Closed(m, snap', credits[i].source) { assert Closed(m, snap, credits[i].source); }
  }

  // ---- confirming a cash-out ----

  function CashOutTags(tags: map<nat, Tag>, reserved: seq<Coin>, blanks: seq<nat>, id: nat): map<nat, Tag> {
    Retag(Retag(tags, Secrets(reserved), Tag(Out(id), true)), Blanks(blanks), Tag(Out(id), false))
  }

  /** The coin side of a confirmed cash-out. */
  lemma ConfirmedCashOut(m: Mint, tags: map<nat, Tag>, proofs: seq<Coin>, rid: nat, id: nat, rv: Review, needs: map<nat, nat>, reviews: map<nat, Review>)
    requires m.ours <= m.signed.Keys && TagsOk(m, tags) && ProofsOk(m, tags, proofs)
    requires ReviewsOk(needs, tags, reviews) && rid in reviews && reviews[rid] == rv && rv.OutReview?
      && rv.reserved != [] && DistinctBlanks(rv.blanks)
    requires multiset(rv.reserved) + multiset(rv.keep) == multiset(proofs)
    requires Tagged(tags, Blanks(rv.blanks), Tag(Draft(rid), false))
    ensures var tags' := CashOutTags(tags, rv.reserved, rv.blanks, id);
      && TagsOk(m, tags') && ProofsOk(m, tags', rv.keep) && ReservedOk(m, tags', id, rv.reserved, rv.blanks)
      && ProofListValid(rv.reserved)
      && Confined(m, tags, m, tags', {Spendable, Draft(rid)}) && TagsGrow(tags, tags')
      && ReviewsOk(needs, tags', reviews)
      && Secrets(proofs) == Secrets(rv.reserved) + Secrets(rv.keep)
  {
    var tags' := CashOutTags(tags, rv.reserved, rv.blanks, id);
    ProofsSplit(m, tags, proofs, rv.reserved, rv.keep);
    DraftsUnsigned(m, tags, Blanks(rv.blanks), rid);
    ReserveConfined(m, tags, tags', Secrets(rv.reserved), Blanks(rv.blanks), rid);
    assert ReviewOk(needs, tags, rid, rv);
    assert rv.reserved[0].secret in Secrets(rv.reserved);
    ReviewsAfterReserve(needs, tags, tags', reviews, rid);
  }

  /** A reservation just made. */
  predicate ReservedOk(m: Mint, tags: map<nat, Tag>, id: nat, r: seq<Coin>, b: seq<nat>) {
    && r != [] && DistinctBlanks(b) && Unmelted(m, None, r, b)
    && Tagged(tags, Secrets(r), Tag(Out(id), true)) && Tagged(tags, Blanks(b), Tag(Out(id), false))
  }

  lemma ConfirmedCashOutSides(m: Mint, tags: map<nat, Tag>, snap: Snapshot, credits: seq<Credit>,
                              tags': map<nat, Tag>, rid: nat, id: nat, o: CashOut, left: seq<Coin>)
    requires PaymentsOk(m, tags, snap.payments) && OrdersOk(m, tags, snap.orders) && AddsOk(m, tags, snap.addCash)
      && OutsOk(m, tags, snap.cashOut)
    requires TagsOk(m, tags) && NothingLost(m, tags, snap) && CreditsOk(tags, credits) && AllClosed(m, snap, credits)
    requires id !in snap.cashOut && o.reserved.Some?
    requires Secrets(snap.proofs) == Secrets(o.reserved.value) + Secrets(left) && ProofsOk(m, tags', left)
    requires Tagged(tags', Secrets(o.reserved.value), Tag(Out(id), true))
    requires Confined(m, tags, m, tags', {Spendable, Draft(rid)}) && TagsGrow(tags, tags')
    ensures var snap' := snap.(proofs := left, cashOut := snap.cashOut[id := o]);
      && PaymentsOk(m, tags', snap.payments) && OrdersOk(m, tags', snap.orders) && AddsOk(m, tags', snap.addCash)
      && OutsOk(m, tags', snap.cashOut)
      && NothingLost(m, tags', snap') && CreditsOk(tags', credits) && AllClosed(m, snap', credits)
  {
    hide PaymentOk, OrderOk, AddOk, OutOk, Credited;
    var snap' := snap.(proofs := left, cashOut := snap.cashOut[id := o]);
    AllRecordsFrame(m, tags, m, tags', {Spendable, Draft(rid)}, snap);
    CreditsFrame(tags, tags', credits);
    LostAfterReserve(m, tags, snap, tags', snap', rid);
    ClosedGrows(m, snap, snap', credits);
  }

  /** The records and the pending melts after a confirmation: the new reservation is untouched. */
  lemma NewCashOut(m: Mint, tags: map<nat, Tag>, outs: map<nat, CashOut>, id: nat, o: CashOut)
    requires OutsOk(m, tags, outs) && MeltsKnown(m.meltQuotes, outs) && m.MeltsOk() && o.quote in m.meltQuotes && id !in outs
    requires o.reserved.Some? && o.blanks.Some? && o.recovery.None? && o.amount > 0 && ProofListValid(o.reserved.value)
    requires ReservedOk(m, tags, id, o.reserved.value, o.blanks.value)
    ensures OutsOk(m, tags, outs[id := o]) && MeltsKnown(m.meltQuotes, outs[id := o])
  {
    var r := o.reserved.value;
    assert r[0].secret in Secrets(r) && m.Spendable(r[0]);
    MeltsStayKnown(m.meltQuotes, outs, id, o);
  }

  /** The record a confirmed cash-out stores. */
  function Reserving(rv: Review): CashOut
    requires rv.OutReview?
  {
    CashOut(Dispatching, rv.amount, rv.quote, QuoteUnpaid, rv.inputFee, Some(rv.reserved), Some(rv.blanks), None)
  }

  lemma ConfirmedWorld(w: World, rid: nat, id: nat)
    requires Confirmable(w, rid, id)
    ensures var rv := w.reviews[rid];
      ConfirmCashOut(w, rid, id) == w.(
        snap := w.snap.(proofs := rv.keep, cashOut := w.snap.cashOut[id := Reserving(rv)]),
        tags := CashOutTags(w.tags, rv.reserved, rv.blanks, id),
        pledged := w.pledged[id := rv.reserved],
        task := MeltCall(id))
  {
    hide Retag, Secrets, Blanks, OutsKeep;
  }

  lemma CashOutReview(w: World, rid: nat)
    requires Inv(w) && rid in w.reviews && w.reviews[rid].OutReview? && multiset(w.snap.proofs) == multiset(w.reviews[rid].basis)
    ensures var rv := w.reviews[rid];
      && rv.reserved != [] && rv.amount > 0 && rv.quote in w.mint.meltQuotes && DistinctBlanks(rv.blanks)
      && Total(rv.reserved) >= w.mint.meltQuotes[rv.quote].amount + w.mint.meltQuotes[rv.quote].feeReserve + rv.inputFee
      && multiset(rv.reserved) + multiset(rv.keep) == multiset(w.snap.proofs)
      && Tagged(w.tags, Blanks(rv.blanks), Tag(Draft(rid), false))
  {
    hide PaymentsOk, OrdersOk, AddsOk, OutsOk, SentOk, NothingLost, CreditsOk, AllClosed, WireOk, PledgesOk, TagsOk, MeltsKnown, KeysOk;
    assert ReviewOk(Needs(w.mint), w.tags, rid, w.reviews[rid]);
    DraftOrRetired(w, rid);
  }

  lemma CashOutConfirmed(w: World, rid: nat, id: nat)
    requires Inv(w) && Confirmable(w, rid, id)
    ensures Inv(ConfirmCashOut(w, rid, id)) && TagsGrow(w.tags, ConfirmCashOut(w, rid, id).tags)
  {
    hide PaymentsOk, OrdersOk, AddsOk, OutsOk, SentOk, NothingLost, CreditsOk, ReviewsOk, AllClosed, ReservedOk, WireOk, PledgesOk,
      TagsOk, Confined, ProofsOk, MeltsKnown, KeysOk, ConfirmCashOut, CashOutTags, Unblinds, TagsGrow, DistinctBlanks, Tagged, Needs;
    CashOutReview(w, rid);
    ConfirmedWorld(w, rid, id);
    var rv := w.reviews[rid];
    var tags' := CashOutTags(w.tags, rv.reserved, rv.blanks, id);
    ConfirmedCashOut(w.mint, w.tags, w.snap.proofs, rid, id, rv, Needs(w.mint), w.reviews);
    ReservedTagged(w.mint, tags', id, rv.reserved, rv.blanks);
    ConfirmedCashOutSides(w.mint, w.tags, w.snap, w.credits, tags', rid, id, Reserving(rv), rv.keep);
    NewCashOut(w.mint, tags', w.snap.cashOut, id, Reserving(rv));
    WireGrows(w.mint, w.snap.cashOut, w.wire, id, Reserving(rv));
    PledgeGrows(w.pledged, w.snap.cashOut, id, Reserving(rv));
  }

  lemma ReservedTagged(m: Mint, tags: map<nat, Tag>, id: nat, r: seq<Coin>, b: seq<nat>)
    requires ReservedOk(m, tags, id, r, b)
    ensures Tagged(tags, Secrets(r), Tag(Out(id), true))
  {
  }

  lemma KeepsConfirmCashOut(w: World, rid: nat, id: nat)
    requires Inv(w)
    ensures Inv(ConfirmCashOut(w, rid, id)) && TagsGrow(w.tags, ConfirmCashOut(w, rid, id).tags)
  {
    hide Inv;
    if Confirmable(w, rid, id) { CashOutConfirmed(w, rid, id); }
  }

  lemma WireGrows(m: Mint, outs: map<nat, CashOut>, wire: set<MeltRequest>, id: nat, o: CashOut)
    requires WireOk(m, outs, wire) && id !in outs
    ensures WireOk(m, outs[id := o], wire)
  {
    forall r | r in wire ensures RequestOk(m, outs[id := o], r) {
      assert RequestOk(m, outs, r);
      if !Dead(m, r) {
        var k :| k in outs && Requests(outs[k], r);
        assert Requests(outs[id := o][k], r);
      }
    }
  }

  lemma PledgeGrows(pledged: map<nat, seq<Coin>>, outs: map<nat, CashOut>, id: nat, o: CashOut)
    requires PledgesOk(pledged, outs) && id !in outs && o.reserved.Some? && o.reserved.value != []
    ensures PledgesOk(pledged[id := o.reserved.value], outs[id := o])
  {
    forall k | k in outs ensures PledgeOk(pledged[id := o.reserved.value], k, outs[k]) { assert PledgeOk(pledged, k, outs[k]); }
  }

  // ---- new and prepared records ----

  lemma MentionsMore(m: Mint, tags: map<nat, Tag>, snap: Snapshot, snap': Snapshot)
    requires NothingLost(m, tags, snap) && snap'.proofs == snap.proofs
    requires forall o, s :: s in tags && tags[s].owner == o && Recorded(snap, o, s) ==> Recorded(snap', o, s)
    ensures NothingLost(m, tags, snap')
  {
  }

  lemma OrderGrows(m: Mint, tags: map<nat, Tag>, snap: Snapshot, credits: seq<Credit>, id: nat, o: Order)
    requires NothingLost(m, tags, snap) && AllClosed(m, snap, credits) && OrdersOk(m, tags, snap.orders) && KeysOk(snap.orders)
    requires id !in snap.orders && o.Valid() && o.incomingSwap.None? && o.keys.Some? && FreshKey(snap.orders, o.keys.value.privateKey)
    ensures var snap' := snap.(orders := snap.orders[id := o]);
      NothingLost(m, tags, snap') && AllClosed(m, snap', credits) && OrdersOk(m, tags, snap'.orders) && KeysOk(snap'.orders)
  {
    var snap' := snap.(orders := snap.orders[id := o]);
    MentionsMore(m, tags, snap, snap');
    ClosedGrows(m, snap, snap', credits);
  }

  lemma KeepsCreateOrder(w: World, id: nat, amount: nat, expiresAt: nat, keys: Keys, readCapability: nat)
    requires Inv(w)
    ensures Inv(CreateOrder(w, id, amount, expiresAt, keys, readCapability))
  {
    hide PaymentsOk, OrdersOk, AddsOk, OutsOk, NothingLost, AllClosed, ProofsOk, TagsOk, CreditsOk, ReviewsOk, WireOk, PledgesOk,
      SentOk, MeltsKnown, KeysOk, OrdersKeep, TokensKeep;
    var v := CreateOrder(w, id, amount, expiresAt, keys, readCapability);
    if v != w { OrderGrows(w.mint, w.tags, w.snap, w.credits, id, v.snap.orders[id]); }
  }

  lemma AddGrows(m: Mint, tags: map<nat, Tag>, snap: Snapshot, credits: seq<Credit>, id: nat, a: AddCash)
    requires NothingLost(m, tags, snap) && AllClosed(m, snap, credits) && AddsOk(m, tags, snap.addCash) && id !in snap.addCash
    requires a.amount > 0 && a.quote in m.mintQuotes && a.outputs.None?
    ensures var snap' := snap.(addCash := snap.addCash[id := a]);
      NothingLost(m, tags, snap') && AllClosed(m, snap', credits) && AddsOk(m, tags, snap'.addCash)
  {
    var snap' := snap.(addCash := snap.addCash[id := a]);
    MentionsMore(m, tags, snap, snap');
    ClosedGrows(m, snap, snap', credits);
  }

  lemma NewAddRecord(w: World, id: nat, a: AddCash)
    requires Inv(w) && id !in w.snap.addCash && a.amount > 0 && a.quote in w.mint.mintQuotes && a.outputs.None?
    ensures Inv(PutAdd(w, id, a))
  {
    hide PaymentsOk, OrdersOk, AddsOk, OutsOk, NothingLost, AllClosed, ProofsOk, TagsOk, CreditsOk, ReviewsOk, WireOk, PledgesOk,
      SentOk, MeltsKnown, KeysOk;
    AddGrows(w.mint, w.tags, w.snap, w.credits, id, a);
  }

  lemma KeepsRequestAdd(w: World, id: nat, quote: nat, amount: nat, expiry: Option<nat>, fromFaucet: bool)
    requires Inv(w)
    ensures Inv(RequestAdd(w, id, quote, amount, expiry, fromFaucet))
  {
    var v := RequestAdd(w, id, quote, amount, expiry, fromFaucet);
    if v != w {
      QuotesGrow(w, v.mint);
      hide Inv;
      NewAddRecord(w.(mint := v.mint), id, v.snap.addCash[id]);
      assert v == PutAdd(w.(mint := v.mint), id, v.snap.addCash[id]);
    }
  }

  /** Quotes may appear or become paid; coins stay as they are. */
  lemma QuotesGrow(w: World, n: Mint)
    requires Inv(w) && n == w.mint.(mintQuotes := n.mintQuotes, meltQuotes := n.meltQuotes)
    requires w.mint.mintQuotes.Keys <= n.mintQuotes.Keys && w.mint.meltQuotes.Keys <= n.meltQuotes.Keys
    requires forall q :: q in w.mint.mintQuotes ==> n.mintQuotes[q].issued == w.mint.mintQuotes[q].issued
    requires forall q :: q in w.mint.meltQuotes ==> n.meltQuotes[q] == w.mint.meltQuotes[q]
    requires forall q :: q in n.meltQuotes && q !in w.mint.meltQuotes ==> n.meltQuotes[q].state.Unpaid?
    ensures Inv(w.(mint := n))
  {
    hide PaymentsOk, OrdersOk, AddsOk, OutsOk, NothingLost, AllClosed, ProofsOk, TagsOk, CreditsOk, ReviewsOk, WireOk, PledgesOk,
      SentOk, MeltsKnown, KeysOk, TaskOk, Mint.Ok, Needs;
    QuotesKeepRecords(w.mint, n, w.tags, w.snap, w.reviews);
    QuotesKeepClosed(w.mint, n, w.snap, w.credits);
    QuotesKeepBooks(w.mint, n);
    WireFrame(w.mint, n, w.snap.cashOut, w.wire);
    QuotesKeepMelts(w.mint, n, w.snap, w.task);
  }

  lemma QuotesKeepMelts(m: Mint, n: Mint, snap: Snapshot, task: Task)
    requires MeltsKnown(m.meltQuotes, snap.cashOut) && TaskOk(m, snap, task) && n.signed == m.signed
    requires forall q :: q in m.meltQuotes ==> q in n.meltQuotes && n.meltQuotes[q] == m.meltQuotes[q]
    requires forall q :: q in n.meltQuotes && q !in m.meltQuotes ==> n.meltQuotes[q].state.Unpaid?
    ensures MeltsKnown(n.meltQuotes, snap.cashOut) && TaskOk(n, snap, task)
  {
    hide Melting;
  }

  lemma QuotesKeepRecords(m: Mint, n: Mint, tags: map<nat, Tag>, snap: Snapshot, reviews: map<nat, Review>)
    requires n == m.(mintQuotes := n.mintQuotes, meltQuotes := n.meltQuotes)
    requires QuotesStay(m, n) && m.meltQuotes.Keys <= n.meltQuotes.Keys
    requires forall q :: q in m.meltQuotes ==> n.meltQuotes[q] == m.meltQuotes[q]
    requires PaymentsOk(m, tags, snap.payments) && OrdersOk(m, tags, snap.orders) && AddsOk(m, tags, snap.addCash)
      && OutsOk(m, tags, snap.cashOut)
    requires TagsOk(m, tags) && NothingLost(m, tags, snap) && ReviewsOk(Needs(m), tags, reviews)
      && ProofsOk(m, tags, snap.proofs)
    ensures PaymentsOk(n, tags, snap.payments) && OrdersOk(n, tags, snap.orders) && AddsOk(n, tags, snap.addCash)
      && OutsOk(n, tags, snap.cashOut)
    ensures TagsOk(n, tags) && NothingLost(n, tags, snap) && ReviewsOk(Needs(n), tags, reviews)
      && ProofsOk(n, tags, snap.proofs)
  {
    AllRecordsFrame(m, tags, n, tags, {}, snap);
    ReviewsFrame(Needs(m), tags, Needs(n), tags, reviews);
  }

  lemma QuotesKeepClosed(m: Mint, n: Mint, snap: Snapshot, credits: seq<Credit>)
    requires AllClosed(m, snap, credits) && n.signed == m.signed
    requires forall q :: q in m.mintQuotes ==> q in n.mintQuotes && n.mintQuotes[q].issued == m.mintQuotes[q].issued
    ensures AllClosed(n, snap, credits)
  {
    forall i | 0 <= i < |credits| ensures Closed(n, snap, credits[i].source) { assert Closed(m, snap, credits[i].source); }
  }

  lemma QuotesKeepBooks(m: Mint, n: Mint)
    requires m.Ok() && n == m.(mintQuotes := n.mintQuotes, meltQuotes := n.meltQuotes)
    requires forall q :: q in m.meltQuotes ==> q in n.meltQuotes && n.meltQuotes[q] == m.meltQuotes[q]
    requires forall q :: q in n.meltQuotes && q !in m.meltQuotes ==> n.meltQuotes[q].state.Unpaid?
    ensures n.Ok()
  {
    assert n.LiveOurs() == m.LiveOurs();
  }

  lemma KeepsPayQuote(w: World, quote: nat)
    requires Inv(w)
    ensures Inv(PayQuote(w, quote))
  {
    if quote in w.mint.mintQuotes { QuotesGrow(w, PayQuote(w, quote).mint); }
  }

  lemma KeepsOpenMeltQuote(w: World, quote: nat, amount: nat, feeReserve: nat)
    requires Inv(w)
    ensures Inv(OpenMeltQuote(w, quote, amount, feeReserve))
  {
    if quote !in w.mint.meltQuotes { QuotesGrow(w, OpenMeltQuote(w, quote, amount, feeReserve).mint); }
  }
}
