/** Shared proof steps: what survives when a step touches only some owners' secrets, and the
    steps that only rewrite labels of one record. */
module MarketFrames {
  import opened Ecash
  import opened MintLedger
  import opened MarketRecords
  import opened MarketSteps
  import opened MarketInvariant

  // ---- one record of a world in order ----

  lemma PaymentAt(w: World, id: nat)
    requires Inv(w) && id in w.snap.payments
    ensures PaymentOk(w.mint, w.tags, id, w.snap.payments[id])
    ensures w.snap.payments[id].swap.Some? ==>
      PaymentSwapOk(w.mint, w.tags, id, w.snap.payments[id].swap.value) && !Closed(w.mint, w.snap, Pay(id))
  {
    hide OrdersOk, AddsOk, OutsOk, NothingLost, AllClosed, ProofsOk, TagsOk, CreditsOk, ReviewsOk, WireOk, PledgesOk, SentOk, MeltsKnown;
  }

  lemma OrderAt(w: World, id: nat)
    requires Inv(w) && id in w.snap.orders
    ensures OrderOk(w.mint, w.tags, id, w.snap.orders[id])
  {
    hide PaymentsOk, AddsOk, OutsOk, NothingLost, AllClosed, ProofsOk, TagsOk, CreditsOk, ReviewsOk, WireOk, PledgesOk, SentOk, MeltsKnown;
  }

  lemma AddAt(w: World, id: nat)
    requires Inv(w) && id in w.snap.addCash
    ensures AddOk(w.mint, w.tags, id, w.snap.addCash[id])
  {
    hide PaymentsOk, OrdersOk, OutsOk, NothingLost, AllClosed, ProofsOk, TagsOk, CreditsOk, ReviewsOk, WireOk, PledgesOk, SentOk, MeltsKnown;
  }

  lemma OutAt(w: World, id: nat)
    requires Inv(w) && id in w.snap.cashOut
    ensures OutOk(w.mint, w.tags, id, w.snap.cashOut[id])
  {
    hide PaymentsOk, OrdersOk, AddsOk, NothingLost, AllClosed, ProofsOk, TagsOk, CreditsOk, ReviewsOk, WireOk, PledgesOk, SentOk, MeltsKnown;
  }

  lemma PledgeAt(w: World, id: nat)
    requires Inv(w) && id in w.snap.cashOut
    ensures PledgeOk(w.pledged, id, w.snap.cashOut[id])
  {
    hide PaymentsOk, OrdersOk, AddsOk, OutsOk, NothingLost, AllClosed, ProofsOk, TagsOk, CreditsOk, ReviewsOk, WireOk, SentOk, MeltsKnown;
  }

  lemma TaskAt(w: World)
    requires Inv(w)
    ensures TaskOk(w.mint, w.snap, w.task)
  {
    hide PaymentsOk, OrdersOk, AddsOk, OutsOk, NothingLost, AllClosed, ProofsOk, TagsOk, CreditsOk, ReviewsOk, WireOk, PledgesOk, SentOk,
      MeltsKnown, TaskOk;
  }

  // ---- coins and owners ----

  /** Nothing happened to secrets owned outside `touched`; spent and signed secrets stay so. */
  predicate Confined(m: Mint, tags: map<nat, Tag>, n: Mint, tags': map<nat, Tag>, touched: set<Owner>) {
    && m.spent <= n.spent && m.signed.Keys <= n.signed.Keys
    && forall s :: s in tags && tags[s].owner !in touched ==> SameAt(m, tags, n, tags', s)
  }

  predicate SameAt(m: Mint, tags: map<nat, Tag>, n: Mint, tags': map<nat, Tag>, s: nat)
    requires s in tags
  {
    && s in tags' && tags'[s] == tags[s]
    && (s in n.signed <==> s in m.signed) && (s in m.signed ==> n.signed[s] == m.signed[s])
    && (s in n.ours <==> s in m.ours)
    && (s in n.locked <==> s in m.locked)
    && (s in m.ours ==> (s in n.spent <==> s in m.spent))
  }

  /** What no step ever takes back from a tag. */
  predicate TagsGrow(tags: map<nat, Tag>, tags': map<nat, Tag>) {
    forall s :: s in tags ==>
      && s in tags'
      && (tags[s].owner.Vendor? ==> tags'[s].owner == tags[s].owner)
      && (tags[s].retired ==> tags'[s].retired)
      && (tags[s].owner.Spendable? ==> tags'[s].owner.Spendable? || tags'[s].retired)
  }

  lemma TagsStay(tags: map<nat, Tag>)
    ensures TagsGrow(tags, tags)
  {
  }

  lemma HeldFrame(m: Mint, tags: map<nat, Tag>, n: Mint, tags': map<nat, Tag>, touched: set<Owner>, cs: seq<Coin>, t: Tag)
    requires Confined(m, tags, n, tags', touched) && t.owner !in touched && Tagged(tags, Secrets(cs), t)
    ensures Held(m, cs) ==> Held(n, cs)
    ensures m.Unsigned(Secrets(cs)) ==> n.Unsigned(Secrets(cs))
    ensures Tagged(tags', Secrets(cs), t)
  {
    forall c | c in cs ensures c.secret in tags && tags[c.secret] == t && SameAt(m, tags, n, tags', c.secret) {
      assert c.secret in Secrets(cs);
    }
  }

  // ---- records ----

  lemma PaymentsFrame(m: Mint, tags: map<nat, Tag>, n: Mint, tags': map<nat, Tag>, touched: set<Owner>, ps: map<nat, Payment>)
    requires PaymentsOk(m, tags, ps) && Confined(m, tags, n, tags', touched)
    ensures forall id :: id in ps && Pay(id) !in touched && Sent(id) !in touched ==> PaymentOk(n, tags', id, ps[id])
  {
    forall id | id in ps && Pay(id) !in touched && Sent(id) !in touched ensures PaymentOk(n, tags', id, ps[id]) {
      assert PaymentOk(m, tags, id, ps[id]);
      if ps[id].swap.Some? {
        var sw := ps[id].swap.value;
        SecretsConcat(sw.keep, sw.send);
        HeldFrame(m, tags, n, tags', touched, sw.inputs, Tag(Pay(id), true));
        HeldFrame(m, tags, n, tags', touched, sw.keep, Tag(Pay(id), false));
        HeldFrame(m, tags, n, tags', touched, sw.send, Tag(Sent(id), false));
      }
    }
  }

  lemma OrdersFrame(m: Mint, tags: map<nat, Tag>, n: Mint, tags': map<nat, Tag>, touched: set<Owner>, os: map<nat, Order>)
    requires OrdersOk(m, tags, os) && Confined(m, tags, n, tags', touched) && TagsGrow(tags, tags')
    ensures forall id :: id in os && Vend(id) !in touched ==> OrderOk(n, tags', id, os[id])
  {
    forall id | id in os && Vend(id) !in touched ensures OrderOk(n, tags', id, os[id]) {
      assert OrderOk(m, tags, id, os[id]);
      if os[id].incomingSwap.Some? {
        HeldFrame(m, tags, n, tags', touched, os[id].incomingSwap.value.keep, Tag(Vend(id), false));
      }
    }
  }

  predicate QuotesStay(m: Mint, n: Mint) {
    forall q :: q in m.mintQuotes ==> q in n.mintQuotes && (m.mintQuotes[q].issued ==> n.mintQuotes[q].issued)
  }

  lemma AddsFrame(m: Mint, tags: map<nat, Tag>, n: Mint, tags': map<nat, Tag>, touched: set<Owner>, xs: map<nat, AddCash>)
    requires AddsOk(m, tags, xs) && Confined(m, tags, n, tags', touched) && QuotesStay(m, n)
    ensures forall id :: id in xs && Add(id) !in touched ==> AddOk(n, tags', id, xs[id])
  {
    forall id | id in xs && Add(id) !in touched ensures AddOk(n, tags', id, xs[id]) {
      assert AddOk(m, tags, id, xs[id]);
      if xs[id].outputs.Some? {
        HeldFrame(m, tags, n, tags', touched, xs[id].outputs.value, Tag(Add(id), false));
      }
    }
  }

  lemma ReservationFrame(m: Mint, tags: map<nat, Tag>, n: Mint, tags': map<nat, Tag>, touched: set<Owner>,
                         id: nat, recovery: Option<Swap>, r: seq<Coin>, b: seq<nat>, st: MeltState)
    requires ReservationOk(m, tags, id, recovery, r, b, st) && Confined(m, tags, n, tags', touched) && Out(id) !in touched
    ensures ReservationOk(n, tags', id, recovery, r, b, st)
  {
    HeldFrame(m, tags, n, tags', touched, r, Tag(Out(id), true));
    assert forall s :: s in Blanks(b) ==> s in tags && tags[s] == Tag(Out(id), false) && SameAt(m, tags, n, tags', s);
    if recovery.Some? {
      HeldFrame(m, tags, n, tags', touched, recovery.value.keep, Tag(Out(id), false));
    }
    if st.Paid? && MeltOver(st, r) {
      ChangeIsBlank(b, st.change);
      HeldFrame(m, tags, n, tags', touched, st.change, Tag(Out(id), false));
    }
  }

  lemma ChangeIsBlank(b: seq<nat>, change: seq<Coin>)
    requires Unblinds(b, change)
    ensures Secrets(change) <= Blanks(b)
  {
    forall s | s in Secrets(change) ensures s in Blanks(b) {
      var c :| c in change && c.secret == s;
      var i :| 0 <= i < |change| && change[i] == c;
      assert b[i] in b;
    }
  }

  /** `quote` may change its state; every other quote keeps it. */
  predicate MeltsSame(m: Mint, n: Mint, quote: Option<nat>) {
    forall q :: q in m.meltQuotes && quote != Some(q) ==> q in n.meltQuotes && n.meltQuotes[q].state == m.meltQuotes[q].state
  }

  lemma OutsFrame(m: Mint, tags: map<nat, Tag>, n: Mint, tags': map<nat, Tag>,
                  touched: set<Owner>, os: map<nat, CashOut>, quote: Option<nat>)
    requires OutsOk(m, tags, os) && Confined(m, tags, n, tags', touched)
    requires MeltsSame(m, n, quote)
    ensures forall id :: id in os && Out(id) !in touched && quote != Some(os[id].quote) ==> OutOk(n, tags', id, os[id])
  {
    forall id | id in os && Out(id) !in touched && quote != Some(os[id].quote) ensures OutOk(n, tags', id, os[id]) {
      var o := os[id];
      assert OutOk(m, tags, id, o);
      if o.reserved.Some? {
        ReservationFrame(m, tags, n, tags', touched, id, o.recovery, o.reserved.value, o.blanks.value, m.meltQuotes[o.quote].state);
      }
    }
  }

  predicate NoRecordTouched(touched: set<Owner>) {
    forall o :: o in touched ==> o.Spendable? || o.Draft? || o.Vendor?
  }

  /** A step that touches no operation's secrets keeps every record. */
  lemma AllRecordsFrame(m: Mint, tags: map<nat, Tag>, n: Mint, tags': map<nat, Tag>, touched: set<Owner>, snap: Snapshot)
    requires Confined(m, tags, n, tags', touched) && TagsGrow(tags, tags') && NoRecordTouched(touched)
    requires MeltsSame(m, n, None) && QuotesStay(m, n)
    requires PaymentsOk(m, tags, snap.payments) && OrdersOk(m, tags, snap.orders)
    requires AddsOk(m, tags, snap.addCash) && OutsOk(m, tags, snap.cashOut)
    ensures PaymentsOk(n, tags', snap.payments) && OrdersOk(n, tags', snap.orders)
    ensures AddsOk(n, tags', snap.addCash) && OutsOk(n, tags', snap.cashOut)
  {
    assert PaymentsOk(n, tags', snap.payments) by { PaymentsFrame(m, tags, n, tags', touched, snap.payments); }
    assert OrdersOk(n, tags', snap.orders) by { OrdersFrame(m, tags, n, tags', touched, snap.orders); }
    assert AddsOk(n, tags', snap.addCash) by { AddsFrame(m, tags, n, tags', touched, snap.addCash); }
    assert OutsOk(n, tags', snap.cashOut) by { OutsFrame(m, tags, n, tags', touched, snap.cashOut, None); }
  }

  // ---- the sides ----

  lemma ReviewsFrame(needs: map<nat, nat>, tags: map<nat, Tag>, needs': map<nat, nat>, tags': map<nat, Tag>, reviews: map<nat, Review>)
    requires ReviewsOk(needs, tags, reviews) && NeedsKept(needs, needs') && TagsGrow(tags, tags')
    requires forall s :: s in tags && tags[s].owner.Draft? ==> tags'[s] == tags[s]
    ensures ReviewsOk(needs', tags', reviews)
  {
    forall rid | rid in reviews ensures ReviewOk(needs', tags', rid, reviews[rid]) {
      assert ReviewOk(needs, tags, rid, reviews[rid]);
    }
  }

  lemma CreditsFrame(tags: map<nat, Tag>, tags': map<nat, Tag>, credits: seq<Credit>)
    requires CreditsOk(tags, credits) && TagsGrow(tags, tags')
    ensures CreditsOk(tags', credits)
  {
  }

  lemma LostFrame(m: Mint, tags: map<nat, Tag>, snap: Snapshot, n: Mint, tags': map<nat, Tag>, snap': Snapshot, touched: set<Owner>)
    requires NothingLost(m, tags, snap) && Confined(m, tags, n, tags', touched)
    requires forall s :: s in tags && s in m.LiveOurs() && tags[s].owner !in touched && Recorded(snap, tags[s].owner, s) ==> Recorded(snap', tags[s].owner, s)
    requires forall s :: s in n.LiveOurs() && (s !in tags || tags[s].owner in touched) ==> s in tags' && Recorded(snap', tags'[s].owner, s)
    ensures NothingLost(n, tags', snap')
  {
    forall s | s in n.LiveOurs() ensures s in tags' && Recorded(snap', tags'[s].owner, s) {
      if s in tags && tags[s].owner !in touched {
        assert SameAt(m, tags, n, tags', s);
        assert s in m.LiveOurs();
      }
    }
  }

  /** A paid quote stays paid. */
  predicate PaidStays(m: Mint, n: Mint) { forall q :: q in m.meltQuotes && PaidAt(m, q) ==> PaidAt(n, q) }

  lemma WireFrame(m: Mint, n: Mint, outs: map<nat, CashOut>, wire: set<MeltRequest>)
    requires WireOk(m, outs, wire) && m.spent <= n.spent && PaidStays(m, n)
    ensures WireOk(n, outs, wire)
  {
    forall r | r in wire ensures RequestOk(n, outs, r) { assert RequestOk(m, outs, r); }
  }

  /** A closed operation stays closed while the mint signs for others. */
  lemma ClosedFrame(m: Mint, tags: map<nat, Tag>, n: Mint, tags': map<nat, Tag>, snap: Snapshot, credits: seq<Credit>, touched: set<Owner>)
    requires AllClosed(m, snap, credits) && AddsOk(m, tags, snap.addCash) && Confined(m, tags, n, tags', touched)
    requires QuotesStay(m, n)
    requires forall id :: id in snap.addCash && Add(id) in touched ==> !m.mintQuotes[snap.addCash[id].quote].issued
    ensures AllClosed(n, snap, credits)
  {
    forall i | 0 <= i < |credits| ensures Closed(n, snap, credits[i].source) {
      assert Closed(m, snap, credits[i].source);
      if credits[i].source.Add? {
        var a := snap.addCash[credits[i].source.id];
        if a.outputs.Some? {
          assert AddOk(m, tags, credits[i].source.id, a);
          HeldFrame(m, tags, n, tags', touched, a.outputs.value, Tag(credits[i].source, false));
        }
      }
    }
  }

  // ---- steps that rewrite labels only ----

  /** Every record of `snap` is still there and mentions the same secrets. */
  predicate SameMentions(snap: Snapshot, snap': Snapshot) {
    && snap'.proofs == snap.proofs
    && (forall id :: id in snap.payments ==> id in snap'.payments && snap'.payments[id].swap == snap.payments[id].swap)
    && (forall id :: id in snap.orders ==>
          id in snap'.orders && snap'.orders[id].incomingSwap == snap.orders[id].incomingSwap && (snap.orders[id].keys.None? ==> snap'.orders[id].keys.None?))
    && (forall id :: id in snap.addCash ==>
          id in snap'.addCash && snap'.addCash[id].outputs == snap.addCash[id].outputs && snap'.addCash[id].quote == snap.addCash[id].quote)
    && (forall id :: id in snap.cashOut ==>
          && id in snap'.cashOut && snap'.cashOut[id].reserved == snap.cashOut[id].reserved
          && snap'.cashOut[id].blanks == snap.cashOut[id].blanks && snap'.cashOut[id].recovery == snap.cashOut[id].recovery)
  }

  lemma MentionsKept(m: Mint, tags: map<nat, Tag>, snap: Snapshot, snap': Snapshot, credits: seq<Credit>)
    requires NothingLost(m, tags, snap) && AllClosed(m, snap, credits) && SameMentions(snap, snap')
    ensures NothingLost(m, tags, snap') && AllClosed(m, snap', credits)
  {
    forall s | s in m.LiveOurs() ensures s in tags && Recorded(snap', tags[s].owner, s) {
      assert Recorded(snap, tags[s].owner, s);
    }
    forall i | 0 <= i < |credits| ensures Closed(m, snap', credits[i].source) {
      assert Closed(m, snap, credits[i].source);
    }
  }

  /** One record replaced by another that is in order. */
  lemma PaymentPut(m: Mint, tags: map<nat, Tag>, snap: Snapshot, credits: seq<Credit>, sent: seq<Delivery>, id: nat, p: Payment)
    requires NothingLost(m, tags, snap) && AllClosed(m, snap, credits) && PaymentsOk(m, tags, snap.payments) && SentOk(snap.payments, sent)
    requires id in snap.payments && PaymentOk(m, tags, id, p) && p.swap == snap.payments[id].swap
    requires p.payload.Some? ==> p.payload == snap.payments[id].payload && p.deliveryUrl == snap.payments[id].deliveryUrl
    ensures var snap' := snap.(payments := snap.payments[id := p]);
      NothingLost(m, tags, snap') && AllClosed(m, snap', credits) && PaymentsOk(m, tags, snap'.payments) && SentOk(snap'.payments, sent)
  {
    hide PaymentOk, NothingLost, AllClosed;
    MentionsKept(m, tags, snap, snap.(payments := snap.payments[id := p]), credits);
    SentKept(snap.payments, id, p, sent);
  }

  lemma RelabelPayment(w: World, id: nat, p: Payment, t: Task)
    requires Inv(w) && id in w.snap.payments && PaymentOk(w.mint, w.tags, id, p)
    requires p.swap == w.snap.payments[id].swap
    requires p.payload.Some? ==> p.payload == w.snap.payments[id].payload && p.deliveryUrl == w.snap.payments[id].deliveryUrl
    requires TaskOk(w.mint, PutPayment(w, id, p).snap, t)
    ensures Inv(Go(PutPayment(w, id, p), t))
  {
    hide PaymentsOk, OrdersOk, AddsOk, OutsOk, NothingLost, AllClosed, ProofsOk, TagsOk, CreditsOk, ReviewsOk, WireOk, PledgesOk,
      SentOk, MeltsKnown, KeysOk, PaymentOk, TaskOk;
    PaymentPut(w.mint, w.tags, w.snap, w.credits, w.sent, id, p);
  }

  lemma SentKept(ps: map<nat, Payment>, id: nat, p: Payment, sent: seq<Delivery>)
    requires SentOk(ps, sent) && id in ps && (ps[id].swap.None? ==> p.swap.None?)
    requires ps[id].swap.None? && p.payload.Some? ==> p.payload == ps[id].payload && p.deliveryUrl == ps[id].deliveryUrl
    ensures SentOk(ps[id := p], sent)
  {
    forall i | 0 <= i < |sent| ensures StillSent(ps[id := p], sent[i]) { assert StillSent(ps, sent[i]); }
  }

  lemma OrderPut(m: Mint, tags: map<nat, Tag>, snap: Snapshot, credits: seq<Credit>, id: nat, o: Order)
    requires NothingLost(m, tags, snap) && AllClosed(m, snap, credits) && OrdersOk(m, tags, snap.orders) && KeysOk(snap.orders)
    requires id in snap.orders && OrderOk(m, tags, id, o) && o.incomingSwap == snap.orders[id].incomingSwap
    requires o.keys == snap.orders[id].keys || o.keys.None?
    ensures var snap' := snap.(orders := snap.orders[id := o]);
      NothingLost(m, tags, snap') && AllClosed(m, snap', credits) && OrdersOk(m, tags, snap'.orders) && KeysOk(snap'.orders)
  {
    hide OrderOk, NothingLost, AllClosed;
    MentionsKept(m, tags, snap, snap.(orders := snap.orders[id := o]), credits);
  }

  lemma RelabelOrder(w: World, id: nat, o: Order, t: Task)
    requires Inv(w) && id in w.snap.orders && OrderOk(w.mint, w.tags, id, o)
    requires o.incomingSwap == w.snap.orders[id].incomingSwap
    requires o.keys == w.snap.orders[id].keys || o.keys.None?
    requires TaskOk(w.mint, w.snap.(orders := w.snap.orders[id := o]), t)
    ensures Inv(w.(snap := w.snap.(orders := w.snap.orders[id := o]), task := t))
  {
    hide PaymentsOk, OrdersOk, AddsOk, OutsOk, NothingLost, AllClosed, ProofsOk, TagsOk, CreditsOk, ReviewsOk, WireOk, PledgesOk,
      SentOk, MeltsKnown, KeysOk, OrderOk, TaskOk;
    OrderPut(w.mint, w.tags, w.snap, w.credits, id, o);
  }

  lemma AddPut(m: Mint, tags: map<nat, Tag>, snap: Snapshot, credits: seq<Credit>, id: nat, a: AddCash)
    requires NothingLost(m, tags, snap) && AllClosed(m, snap, credits) && AddsOk(m, tags, snap.addCash) && id in snap.addCash
    requires a.outputs == snap.addCash[id].outputs && a.quote == snap.addCash[id].quote && a.amount == snap.addCash[id].amount
    ensures var snap' := snap.(addCash := snap.addCash[id := a]);
      NothingLost(m, tags, snap') && AllClosed(m, snap', credits) && AddsOk(m, tags, snap'.addCash)
  {
    hide NothingLost, AllClosed;
    MentionsKept(m, tags, snap, snap.(addCash := snap.addCash[id := a]), credits);
    assert AddOk(m, tags, id, snap.addCash[id]);
  }

  lemma RelabelAdd(w: World, id: nat, a: AddCash, t: Task)
    requires Inv(w) && id in w.snap.addCash
    requires a.outputs == w.snap.addCash[id].outputs && a.quote == w.snap.addCash[id].quote
      && a.amount == w.snap.addCash[id].amount
    requires TaskOk(w.mint, PutAdd(w, id, a).snap, t)
    ensures Inv(Go(PutAdd(w, id, a), t))
  {
    hide PaymentsOk, OrdersOk, AddsOk, OutsOk, NothingLost, AllClosed, ProofsOk, TagsOk, CreditsOk, ReviewsOk, WireOk, PledgesOk,
      SentOk, MeltsKnown, KeysOk, TaskOk;
    AddPut(w.mint, w.tags, w.snap, w.credits, id, a);
  }

  lemma RelabelOut(w: World, id: nat, o: CashOut, t: Task)
    requires Inv(w) && id in w.snap.cashOut && o.Valid()
    requires o.reserved == w.snap.cashOut[id].reserved && o.blanks == w.snap.cashOut[id].blanks
    requires o.recovery == w.snap.cashOut[id].recovery && o.quote == w.snap.cashOut[id].quote
    requires TaskOk(w.mint, PutOut(w, id, o).snap, t)
    ensures Inv(Go(PutOut(w, id, o), t))
  {
    hide PaymentsOk, OrdersOk, AddsOk, OutsOk, NothingLost, AllClosed, ProofsOk, TagsOk, CreditsOk, ReviewsOk, WireOk, PledgesOk,
      SentOk, MeltsKnown, KeysOk, TaskOk, OutsKeep;
    MentionsKept(w.mint, w.tags, w.snap, w.snap.(cashOut := w.snap.cashOut[id := o]), w.credits);
    OutRelabelled(w.mint, w.tags, w.snap.cashOut, id, o, w.wire);
    PledgeRelabelled(w.pledged, w.snap.cashOut, id, o);
  }

  /** A record that keeps its reservation, or gives it up, keeps its pledge. */
  lemma PledgeRelabelled(pledged: map<nat, seq<Coin>>, os: map<nat, CashOut>, id: nat, o: CashOut)
    requires PledgesOk(pledged, os) && id in os && (o.reserved == os[id].reserved || o.reserved.None?)
    ensures PledgesOk(pledged, os[id := o])
  {
    assert PledgeOk(pledged, id, os[id]);
  }

  lemma OutRelabelled(m: Mint, tags: map<nat, Tag>, os: map<nat, CashOut>, id: nat, o: CashOut, wire: set<MeltRequest>)
    requires OutsOk(m, tags, os) && WireOk(m, os, wire) && MeltsKnown(m.meltQuotes, os)
    requires id in os && o.Valid() && o.reserved == os[id].reserved && o.blanks == os[id].blanks
      && o.recovery == os[id].recovery && o.quote == os[id].quote
    ensures OutsOk(m, tags, os[id := o]) && WireOk(m, os[id := o], wire)
      && MeltsKnown(m.meltQuotes, os[id := o])
  {
    assert OutOk(m, tags, id, os[id]);
    RequestsKept(m, os, id, o, wire);
    MeltsStayKnown(m.meltQuotes, os, id, o);
  }

  /** A record that keeps its quote, its reservation and its outputs keeps its requests. */
  lemma RequestsKept(m: Mint, os: map<nat, CashOut>, id: nat, o: CashOut, wire: set<MeltRequest>)
    requires WireOk(m, os, wire) && id in os && o.quote == os[id].quote && o.reserved == os[id].reserved && o.blanks == os[id].blanks
    ensures WireOk(m, os[id := o], wire)
  {
    forall r | r in wire ensures RequestOk(m, os[id := o], r) {
      assert RequestOk(m, os, r);
      if !Dead(m, r) {
        var k :| k in os && Requests(os[k], r);
        assert Requests(os[id := o][k], r);
      }
    }
  }

  /** A pending melt is still asked for, unless the record that asked for it is replaced. */
  lemma MeltsStayKnown(quotes: map<nat, MeltQuote>, os: map<nat, CashOut>, id: nat, o: CashOut)
    requires MeltsKnown(quotes, os)
    requires id in os ==> forall q :: q in quotes && Melts(os[id], q, quotes[q].state) ==> Melts(o, q, quotes[q].state)
    ensures MeltsKnown(quotes, os[id := o])
  {
    forall q | q in quotes && quotes[q].state.Pending? ensures Melting(os[id := o], q, quotes[q].state) {
      assert Melting(os, q, quotes[q].state);
      var k :| k in os && Melts(os[k], q, quotes[q].state);
      assert Melts(os[id := o][k], q, quotes[q].state);
    }
  }

  /** A step that only moves the operation in flight. */
  lemma Retask(w: World, t: Task)
    requires Inv(w) && TaskOk(w.mint, w.snap, t)
    ensures Inv(Go(w, t))
  {
  }

  // ---- records under a step that touches one owner ----

  /** Everything but the records of the touched owner. */
  lemma OwnerFrame(m: Mint, tags: map<nat, Tag>, n: Mint, tags': map<nat, Tag>, snap: Snapshot, owner: Owner, quote: Option<nat>)
    requires Confined(m, tags, n, tags', {owner}) && TagsGrow(tags, tags') && QuotesStay(m, n) && MeltsSame(m, n, quote)
    requires PaymentsOk(m, tags, snap.payments) && OrdersOk(m, tags, snap.orders) && AddsOk(m, tags, snap.addCash)
      && OutsOk(m, tags, snap.cashOut)
    ensures forall id :: id in snap.payments && owner != Pay(id) && owner != Sent(id) ==> PaymentOk(n, tags', id, snap.payments[id])
    ensures forall id :: id in snap.orders && owner != Vend(id) ==> OrderOk(n, tags', id, snap.orders[id])
    ensures forall id :: id in snap.addCash && owner != Add(id) ==> AddOk(n, tags', id, snap.addCash[id])
    ensures forall id :: id in snap.cashOut && owner != Out(id) && quote != Some(snap.cashOut[id].quote) ==> OutOk(n, tags', id, snap.cashOut[id])
  {
    PaymentsFrame(m, tags, n, tags', {owner}, snap.payments);
    OrdersFrame(m, tags, n, tags', {owner}, snap.orders);
    AddsFrame(m, tags, n, tags', {owner}, snap.addCash);
    OutsFrame(m, tags, n, tags', {owner}, snap.cashOut, quote);
  }
}
