/** The commits that credit fresh coins to the spendable set. Each closes the operation it credits,
    so a coin is credited once and an operation pays in once. */
module MarketCredits {
  import opened Ecash
  import opened MintLedger
  import opened MarketRecords
  import opened MarketSteps
  import opened MarketInvariant
  import opened MarketFrames

  // ---- the coin side of a credit ----

  predicate Creditable(owner: Owner) { owner.Pay? || owner.Vend? || owner.Add? || owner.Out? }

  lemma CreditProofs(m: Mint, tags: map<nat, Tag>, proofs: seq<Coin>, coins: seq<Coin>, owner: Owner)
    requires ProofsOk(m, tags, proofs) && Held(m, coins) && Distinct(coins) && Positive(coins)
    requires Creditable(owner) && Tagged(tags, Secrets(coins), Tag(owner, false))
    ensures ProofsOk(m, Retag(tags, Secrets(coins), Tag(Spendable, false)), proofs + coins)
  {
    SecretsConcat(proofs, coins);
    assert Secrets(proofs) !! Secrets(coins);
    DistinctConcat(proofs, coins);
  }

  lemma CreditTags(m: Mint, tags: map<nat, Tag>, coins: seq<Coin>, owner: Owner)
    requires TagsOk(m, tags) && Held(m, coins) && Creditable(owner) && Tagged(tags, Secrets(coins), Tag(owner, false))
    ensures var tags' := Retag(tags, Secrets(coins), Tag(Spendable, false));
      TagsOk(m, tags') && Confined(m, tags, m, tags', {owner}) && TagsGrow(tags, tags')
  {
    forall s | s in Secrets(coins) ensures s in m.ours {
      var c :| c in coins && c.secret == s;
    }
  }

  function Logged(credits: seq<Credit>, source: Owner, coins: seq<Coin>): seq<Credit> {
    if coins == [] then credits else credits + [Credit(source, coins)]
  }

  lemma CreditLogged(tags: map<nat, Tag>, credits: seq<Credit>, source: Owner, coins: seq<Coin>, owner: Owner)
    requires CreditsOk(tags, credits) && Distinct(coins) && Creditable(owner) && Tagged(tags, Secrets(coins), Tag(owner, false))
    requires forall i :: 0 <= i < |credits| && coins != [] ==> credits[i].source != source
    ensures CreditsOk(Retag(tags, Secrets(coins), Tag(Spendable, false)), Logged(credits, source, coins))
  {
    var tags' := Retag(tags, Secrets(coins), Tag(Spendable, false));
    var log := Logged(credits, source, coins);
    forall i | 0 <= i < |log| ensures log[i].coins != [] && Distinct(log[i].coins) && Credited(tags', log[i].coins) {
      if i == |credits| {
        forall c | c in coins ensures c.secret in tags' && tags'[c.secret].owner.Spendable? { assert c.secret in Secrets(coins); }
      } else {
        assert Credited(tags, credits[i].coins);
      }
    }
    forall i, j | 0 <= i < j < |log| ensures log[i].source != log[j].source && Secrets(log[i].coins) !! Secrets(log[j].coins) {
      if j == |credits| {
        assert Credited(tags, credits[i].coins);
        forall s | s in Secrets(credits[i].coins) ensures s !in Secrets(coins) {
          var c :| c in credits[i].coins && c.secret == s;
          assert c.secret in tags && (tags[c.secret].owner.Spendable? || tags[c.secret].retired);
        }
      }
    }
  }

  /** Nothing is lost when the live coins of the credited operation are exactly the credited ones. */
  lemma CreditLost(m: Mint, tags: map<nat, Tag>, snap: Snapshot, snap': Snapshot, coins: seq<Coin>, owner: Owner)
    requires NothingLost(m, tags, snap) && Creditable(owner) && Tagged(tags, Secrets(coins), Tag(owner, false))
    requires forall s :: s in m.LiveOurs() && s in tags && tags[s].owner == owner ==> s in Secrets(coins)
    requires snap'.proofs == snap.proofs + coins
    requires forall o, s :: s in tags && tags[s].owner == o && o != owner && !o.Spendable? && Recorded(snap, o, s) ==> Recorded(snap', o, s)
    ensures NothingLost(m, Retag(tags, Secrets(coins), Tag(Spendable, false)), snap')
  {
    SecretsConcat(snap.proofs, coins);
  }

  lemma CreditClosed(m: Mint, snap: Snapshot, snap': Snapshot, credits: seq<Credit>, source: Owner, coins: seq<Coin>)
    requires AllClosed(m, snap, credits) && (coins != [] ==> Closed(m, snap', source))
    requires forall o :: Closed(m, snap, o) ==> Closed(m, snap', o)
    ensures AllClosed(m, snap', Logged(credits, source, coins))
  {
  }

  lemma NotYetCredited(m: Mint, snap: Snapshot, credits: seq<Credit>, source: Owner)
    requires AllClosed(m, snap, credits) && !Closed(m, snap, source)
    ensures forall i :: 0 <= i < |credits| ==> credits[i].source != source
  {
  }

  /** The whole coin side of crediting an operation that has not paid in before. */
  lemma CreditCoins(m: Mint, tags: map<nat, Tag>, snap: Snapshot, credits: seq<Credit>, needs: map<nat, nat>, reviews: map<nat, Review>, coins: seq<Coin>, owner: Owner)
    requires TagsOk(m, tags) && ProofsOk(m, tags, snap.proofs) && CreditsOk(tags, credits)
      && AllClosed(m, snap, credits) && ReviewsOk(needs, tags, reviews)
    requires Creditable(owner) && !Closed(m, snap, owner)
    requires Held(m, coins) && Distinct(coins) && Positive(coins) && Tagged(tags, Secrets(coins), Tag(owner, false))
    ensures var tags' := Retag(tags, Secrets(coins), Tag(Spendable, false));
      && TagsOk(m, tags') && ProofsOk(m, tags', snap.proofs + coins) && ReviewsOk(needs, tags', reviews)
      && CreditsOk(tags', Logged(credits, owner, coins)) && Confined(m, tags, m, tags', {owner}) && TagsGrow(tags, tags')
  {
    CreditProofs(m, tags, snap.proofs, coins, owner);
    CreditTags(m, tags, coins, owner);
    NotYetCredited(m, snap, credits, owner);
    CreditLogged(tags, credits, owner, coins, owner);
    ReviewsFrame(needs, tags, needs, Retag(tags, Secrets(coins), Tag(Spendable, false)), reviews);
  }

  // ---- payments ----

  lemma OutputsSigned(m: Mint, tags: map<nat, Tag>, id: nat, sw: Swap)
    requires PaymentSwapOk(m, tags, id, sw) && Secrets(sw.Outputs()) <= m.signed.Keys
    ensures Applied(m, sw)
  {
    assert sw.Outputs()[0].secret in Secrets(sw.Outputs());
  }

  lemma FinishedPaymentRecords(m: Mint, tags: map<nat, Tag>, snap: Snapshot, id: nat, p: Payment, coins: seq<Coin>, sent: seq<Delivery>)
    requires PaymentsOk(m, tags, snap.payments) && OrdersOk(m, tags, snap.orders) && AddsOk(m, tags, snap.addCash)
      && OutsOk(m, tags, snap.cashOut)
    requires TagsOk(m, tags) && Held(m, coins) && Tagged(tags, Secrets(coins), Tag(Pay(id), false)) && SentOk(snap.payments, sent)
    requires id in snap.payments && snap.payments[id].swap.Some? && PaymentOk(m, tags, id, p) && p.swap.None?
    ensures var tags' := Retag(tags, Secrets(coins), Tag(Spendable, false));
      && PaymentsOk(m, tags', snap.payments[id := p]) && OrdersOk(m, tags', snap.orders)
      && AddsOk(m, tags', snap.addCash) && OutsOk(m, tags', snap.cashOut) && SentOk(snap.payments[id := p], sent)
  {
    var tags' := Retag(tags, Secrets(coins), Tag(Spendable, false));
    CreditTags(m, tags, coins, Pay(id));
    OwnerFrame(m, tags, m, tags', snap, Pay(id), None);
    forall i | 0 <= i < |sent| ensures StillSent(snap.payments[id := p], sent[i]) { assert StillSent(snap.payments, sent[i]); }
  }

  lemma ReadyPayment(m: Mint, tags: map<nat, Tag>, id: nat, p: Payment, bytes: nat)
    requires PaymentOk(m, tags, id, p) && p.swap.Some?
    ensures PaymentOk(m, tags, id, p.(state := ReadyToDeliver, token := Some(p.swap.value.send),
                                    payload := Some(Payload(p.orderId, p.swap.value.send, bytes)), swap := None))
    ensures Distinct(p.swap.value.keep) && Positive(p.swap.value.keep)
  {
    DistinctParts(p.swap.value.keep, p.swap.value.send);
    assert forall c :: c in p.swap.value.keep || c in p.swap.value.send ==> c in p.swap.value.Outputs();
  }

  lemma KeepsFinishPayment(w: World, bytes: nat)
    requires Inv(w)
    ensures Inv(FinishPayment(w, bytes)) && TagsGrow(w.tags, FinishPayment(w, bytes).tags)
  {
    hide PaymentsOk, OrdersOk, AddsOk, OutsOk, NothingLost, AllClosed, ProofsOk, TagsOk, CreditsOk, ReviewsOk,
      WireOk, PledgesOk, SentOk, MeltsKnown, KeysOk, PaymentOk, TagsGrow, Retag, Secrets;
    TagsStay(w.tags);
    if w.task.SwapDone? && w.task.job.PayJob? && HasSwap(w.snap, w.task.job) {
      var v := FinishPayment(w, bytes);
      var id := w.task.job.id;
      var p := w.snap.payments[id];
      var sw := p.swap.value;
      PaymentAt(w, id);
      OutputsSigned(w.mint, w.tags, id, sw);
      ReadyPayment(w.mint, w.tags, id, p, bytes);
      CreditCoins(w.mint, w.tags, w.snap, w.credits, Needs(w.mint), w.reviews, sw.keep, Pay(id));
      FinishedPaymentRecords(w.mint, w.tags, w.snap, id, v.snap.payments[id], sw.keep, w.sent);
      FinishedPaymentLost(w.mint, w.tags, w.snap, w.credits, id, v.snap.payments[id]);
    }
  }

  lemma FinishedPaymentLost(m: Mint, tags: map<nat, Tag>, snap: Snapshot, credits: seq<Credit>, id: nat, p: Payment)
    requires NothingLost(m, tags, snap) && TagsOk(m, tags) && AllClosed(m, snap, credits)
    requires id in snap.payments && snap.payments[id].swap.Some? && PaymentSwapOk(m, tags, id, snap.payments[id].swap.value)
    requires Applied(m, snap.payments[id].swap.value) && p.swap.None?
    ensures var coins := snap.payments[id].swap.value.keep;
      var snap' := snap.(proofs := snap.proofs + coins, payments := snap.payments[id := p]);
      && NothingLost(m, Retag(tags, Secrets(coins), Tag(Spendable, false)), snap')
      && AllClosed(m, snap', Logged(credits, Pay(id), coins))
  {
    var sw := snap.payments[id].swap.value;
    var snap' := snap.(proofs := snap.proofs + sw.keep, payments := snap.payments[id := p]);
    SecretsConcat(sw.keep, sw.send);
    CreditLost(m, tags, snap, snap', sw.keep, Pay(id));
    CreditClosed(m, snap, snap', credits, Pay(id), sw.keep);
  }

  // ---- vendor settlements ----

  lemma KeepsFinishSettle(w: World)
    requires Inv(w)
    ensures Inv(FinishSettle(w)) && TagsGrow(w.tags, FinishSettle(w).tags)
  {
    hide PaymentsOk, OrdersOk, AddsOk, OutsOk, NothingLost, AllClosed, ProofsOk, TagsOk, CreditsOk, ReviewsOk,
      WireOk, PledgesOk, SentOk, MeltsKnown, KeysOk, TagsGrow, Retag, Secrets, OrdersKeep, TokensKeep;
    TagsStay(w.tags);
    if w.task.SwapDone? && w.task.job.VendJob? && HasSwap(w.snap, w.task.job) {
      var v := FinishSettle(w);
      var id := w.task.job.id;
      var o := w.snap.orders[id];
      var sw := o.incomingSwap.value;
      OrderAt(w, id);
      SettledApplied(w.mint, w.tags, id, o.amount, o.keys.value.privateKey, sw);
      CreditCoins(w.mint, w.tags, w.snap, w.credits, Needs(w.mint), w.reviews, sw.keep, Vend(id));
      SettledRecords(w.mint, w.tags, w.snap, id, v.snap.orders[id], v.tags);
      SettledLost(w.mint, w.tags, w.snap, w.credits, id, v.snap.orders[id], sw.keep);
    }
  }

  lemma SettledRecords(m: Mint, tags: map<nat, Tag>, snap: Snapshot, id: nat, o: Order, tags': map<nat, Tag>)
    requires PaymentsOk(m, tags, snap.payments) && OrdersOk(m, tags, snap.orders) && AddsOk(m, tags, snap.addCash)
      && OutsOk(m, tags, snap.cashOut)
    requires Confined(m, tags, m, tags', {Vend(id)}) && TagsGrow(tags, tags')
    requires id in snap.orders && o.Valid() && o.incomingSwap.None?
    ensures PaymentsOk(m, tags', snap.payments) && OrdersOk(m, tags', snap.orders[id := o]) && AddsOk(m, tags', snap.addCash)
    ensures OutsOk(m, tags', snap.cashOut) && (KeysOk(snap.orders) && o.keys.None? ==> KeysOk(snap.orders[id := o]))
  {
    OwnerFrame(m, tags, m, tags', snap, Vend(id), None);
  }

  lemma SettledLost(m: Mint, tags: map<nat, Tag>, snap: Snapshot, credits: seq<Credit>, id: nat, o: Order, coins: seq<Coin>)
    requires NothingLost(m, tags, snap) && AllClosed(m, snap, credits)
    requires id in snap.orders && snap.orders[id].incomingSwap.Some? && snap.orders[id].incomingSwap.value.keep == coins
    requires o.incomingSwap.None? && o.keys.None? && Tagged(tags, Secrets(coins), Tag(Vend(id), false))
    ensures var snap' := snap.(proofs := snap.proofs + coins, orders := snap.orders[id := o]);
      && NothingLost(m, Retag(tags, Secrets(coins), Tag(Spendable, false)), snap')
      && AllClosed(m, snap', Logged(credits, Vend(id), coins))
  {
    var snap' := snap.(proofs := snap.proofs + coins, orders := snap.orders[id := o]);
    CreditLost(m, tags, snap, snap', coins, Vend(id));
    CreditClosed(m, snap, snap', credits, Vend(id), coins);
  }

  lemma SettledApplied(m: Mint, tags: map<nat, Tag>, id: nat, amount: nat, key: nat, sw: Swap)
    requires OrderSwapOk(m, tags, id, amount, key, sw) && Secrets(sw.Outputs()) <= m.signed.Keys
    ensures Applied(m, sw) && Distinct(sw.keep) && Positive(sw.keep)
  {
    assert sw.Outputs() == sw.keep;
    assert sw.keep[0].secret in Secrets(sw.keep);
  }

  // ---- add cash ----

  lemma KeepsFinishAdd(w: World)
    requires Inv(w)
    ensures Inv(FinishAdd(w)) && TagsGrow(w.tags, FinishAdd(w).tags)
  {
    hide PaymentsOk, OrdersOk, AddsOk, OutsOk, NothingLost, AllClosed, ProofsOk, TagsOk, CreditsOk, ReviewsOk,
      WireOk, PledgesOk, SentOk, MeltsKnown, KeysOk, TagsGrow, Retag;
    TagsStay(w.tags);
    if w.task.IssueDone? && w.task.id in w.snap.addCash && w.snap.addCash[w.task.id].outputs.Some? {
      var v := FinishAdd(w);
      var id := w.task.id;
      var a := w.snap.addCash[id];
      AddAt(w, id);
      assert a.outputs.value[0].secret in Secrets(a.outputs.value);
      CreditCoins(w.mint, w.tags, w.snap, w.credits, Needs(w.mint), w.reviews, a.outputs.value, Add(id));
      AddedRecords(w.mint, w.tags, w.snap, id, v.snap.addCash[id], v.tags);
      AddedLost(w.mint, w.tags, w.snap, w.credits, id, v.snap.addCash[id], a.outputs.value);
    }
  }

  lemma AddedRecords(m: Mint, tags: map<nat, Tag>, snap: Snapshot, id: nat, a: AddCash, tags': map<nat, Tag>)
    requires PaymentsOk(m, tags, snap.payments) && OrdersOk(m, tags, snap.orders) && AddsOk(m, tags, snap.addCash)
      && OutsOk(m, tags, snap.cashOut)
    requires Confined(m, tags, m, tags', {Add(id)}) && TagsGrow(tags, tags')
    requires id in snap.addCash && a.outputs.None? && a.amount > 0 && a.quote in m.mintQuotes
    ensures PaymentsOk(m, tags', snap.payments) && OrdersOk(m, tags', snap.orders) && AddsOk(m, tags', snap.addCash[id := a])
    ensures OutsOk(m, tags', snap.cashOut)
  {
    OwnerFrame(m, tags, m, tags', snap, Add(id), None);
  }

  lemma AddedLost(m: Mint, tags: map<nat, Tag>, snap: Snapshot, credits: seq<Credit>, id: nat, a: AddCash, coins: seq<Coin>)
    requires NothingLost(m, tags, snap) && AllClosed(m, snap, credits)
    requires id in snap.addCash && snap.addCash[id].outputs == Some(coins) && coins != []
    requires a.outputs.None? && a.quote == snap.addCash[id].quote && a.quote in m.mintQuotes && m.mintQuotes[a.quote].issued
    requires Tagged(tags, Secrets(coins), Tag(Add(id), false))
    ensures var snap' := snap.(proofs := snap.proofs + coins, addCash := snap.addCash[id := a]);
      && NothingLost(m, Retag(tags, Secrets(coins), Tag(Spendable, false)), snap')
      && AllClosed(m, snap', Logged(credits, Add(id), coins))
  {
    var snap' := snap.(proofs := snap.proofs + coins, addCash := snap.addCash[id := a]);
    CreditLost(m, tags, snap, snap', coins, Add(id));
    CreditClosed(m, snap, snap', credits, Add(id), coins);
  }

  // ---- cash-outs ----

  /** A cash-out that gives up a reservation no pending melt is over: its requests are dead. */
  lemma ReleasedOut(m: Mint, tags: map<nat, Tag>, os: map<nat, CashOut>, wire: set<MeltRequest>, id: nat, o: CashOut)
    requires OutsOk(m, tags, os) && WireOk(m, os, wire) && MeltsKnown(m.meltQuotes, os)
    requires id in os && os[id].reserved.Some? && (Secrets(os[id].reserved.value) <= m.spent || PaidAt(m, os[id].quote))
      && !Melts(os[id], os[id].quote, m.meltQuotes[os[id].quote].state)
    requires o.Valid() && o.quote == os[id].quote && o.reserved.None? && o.blanks.None? && o.recovery.None?
    ensures OutOk(m, tags, id, o) && WireOk(m, os[id := o], wire) && MeltsKnown(m.meltQuotes, os[id := o])
  {
    assert OutOk(m, tags, id, os[id]);
    MeltsStayKnown(m.meltQuotes, os, id, o);
    forall r | r in wire ensures RequestOk(m, os[id := o], r) {
      assert RequestOk(m, os, r);
      if !Dead(m, r) {
        var k :| k in os && Requests(os[k], r);
        assert Requests(os[id := o][k], r);
      }
    }
  }

  lemma ReleasedRecords(m: Mint, tags: map<nat, Tag>, snap: Snapshot, id: nat, o: CashOut, tags': map<nat, Tag>)
    requires PaymentsOk(m, tags, snap.payments) && OrdersOk(m, tags, snap.orders) && AddsOk(m, tags, snap.addCash)
      && OutsOk(m, tags, snap.cashOut)
    requires Confined(m, tags, m, tags', {Out(id)}) && TagsGrow(tags, tags')
    requires id in snap.cashOut && OutOk(m, tags, id, o) && o.reserved.None?
    ensures PaymentsOk(m, tags', snap.payments) && OrdersOk(m, tags', snap.orders) && AddsOk(m, tags', snap.addCash)
    ensures OutsOk(m, tags', snap.cashOut[id := o])
  {
    OwnerFrame(m, tags, m, tags', snap, Out(id), None);
  }

  /** The live secrets of a reservation that is gone are exactly the coins to credit. */
  lemma ReleasedLost(m: Mint, tags: map<nat, Tag>, snap: Snapshot, id: nat, o: CashOut, coins: seq<Coin>)
    requires NothingLost(m, tags, snap) && id in snap.cashOut && o.reserved.None?
    requires Tagged(tags, Secrets(coins), Tag(Out(id), false))
    requires forall s :: s in m.LiveOurs() && s in OutFootprint(snap.cashOut[id]) ==> s in Secrets(coins)
    ensures NothingLost(m, Retag(tags, Secrets(coins), Tag(Spendable, false)), snap.(proofs := snap.proofs + coins, cashOut := snap.cashOut[id := o]))
  {
    CreditLost(m, tags, snap, snap.(proofs := snap.proofs + coins, cashOut := snap.cashOut[id := o]), coins, Out(id));
  }

  /** Releasing a reservation with nothing forgotten, and releasing one for nothing. */
  lemma ReleaseSplits(w: World, id: nat, o: CashOut, coins: seq<Coin>)
    requires id in w.snap.cashOut && OutKeeps(w.snap.cashOut[id], o)
    ensures Forgotten(w, id, coins) == {} ==> ReleaseOut(w, id, o, coins) == Go(CreditTo(PutOut(w, id, o), Out(id), coins), Idle)
    ensures coins == [] ==>
      ReleaseOut(w, id, o, coins) == w.(snap := w.snap.(cashOut := w.snap.cashOut[id := o]), tags := Retag(w.tags, Forgotten(w, id, []), Tag(Lost, true)), task := Idle)
  {
    hide Forgotten, OutsKeep;
    var v := Go(CreditTo(PutOut(w, id, o), Out(id), coins), Idle);
    assert Retag(v.tags, {}, Tag(Lost, true)) == v.tags;
    if coins == [] {
      assert w.snap.proofs + [] == w.snap.proofs;
      assert Retag(w.tags, Secrets([]), Tag(Spendable, false)) == w.tags;
    }
  }

  /** The common end of both ways out: change of a paid melt, or the coins of a recovery swap. */
  lemma KeepsRelease(w: World, id: nat, o: CashOut, coins: seq<Coin>)
    requires Inv(w) && id in w.snap.cashOut && w.snap.cashOut[id].reserved.Some?
    requires Secrets(w.snap.cashOut[id].reserved.value) <= w.mint.spent
      && !Melts(w.snap.cashOut[id], w.snap.cashOut[id].quote, w.mint.meltQuotes[w.snap.cashOut[id].quote].state)
    requires o.Valid() && o.quote == w.snap.cashOut[id].quote && o.reserved.None? && o.blanks.None? && o.recovery.None?
    requires Held(w.mint, coins) && Distinct(coins) && Positive(coins) && Tagged(w.tags, Secrets(coins), Tag(Out(id), false))
    requires Forgotten(w, id, coins) == {}
    ensures Inv(ReleaseOut(w, id, o, coins)) && TagsGrow(w.tags, ReleaseOut(w, id, o, coins).tags)
  {
    hide PaymentsOk, OrdersOk, AddsOk, OutsOk, NothingLost, AllClosed, ProofsOk, TagsOk, CreditsOk, ReviewsOk,
      WireOk, PledgesOk, SentOk, MeltsKnown, KeysOk, OutOk, TagsGrow, Retag, OutsKeep, ReleaseOut, Melts;
    var v := Go(CreditTo(PutOut(w, id, o), Out(id), coins), Idle);
    ReleaseSplits(w, id, o, coins);
    CreditCoins(w.mint, w.tags, w.snap, w.credits, Needs(w.mint), w.reviews, coins, Out(id));
    ReleasedOut(w.mint, w.tags, w.snap.cashOut, w.wire, id, o);
    ReleasedRecords(w.mint, w.tags, w.snap, id, o, v.tags);
    ReleasedLost(w.mint, w.tags, w.snap, id, o, coins);
    PledgeRelabelled(w.pledged, w.snap.cashOut, id, o);
    CreditClosed(w.mint, w.snap, v.snap, w.credits, Out(id), coins);
  }

  /** Coins that a record forgets are accounted as lost. */
  lemma ForgottenTags(m: Mint, tags: map<nat, Tag>, snap: Snapshot, id: nat, o: CashOut, lost: set<nat>)
    requires TagsOk(m, tags) && NothingLost(m, tags, snap) && id in snap.cashOut
    requires lost == OutFootprint(snap.cashOut[id]) * m.LiveOurs()
    requires forall s :: s in lost ==> s in tags && tags[s].owner == Out(id)
    ensures var tags' := Retag(tags, lost, Tag(Lost, true));
      && TagsOk(m, tags') && Confined(m, tags, m, tags', {Out(id)}) && TagsGrow(tags, tags')
      && NothingLost(m, tags', snap.(cashOut := snap.cashOut[id := o]))
  {
    hide OutFootprint;
  }

  /** The records when one gives up what it held and the coins are accounted as lost. */
  lemma ForgottenRecords(m: Mint, tags: map<nat, Tag>, tags': map<nat, Tag>, snap: Snapshot, wire: set<MeltRequest>, pledged: map<nat, seq<Coin>>,
                         credits: seq<Credit>, id: nat, o: CashOut)
    requires PaymentsOk(m, tags, snap.payments) && OrdersOk(m, tags, snap.orders) && AddsOk(m, tags, snap.addCash)
      && OutsOk(m, tags, snap.cashOut)
    requires WireOk(m, snap.cashOut, wire) && MeltsKnown(m.meltQuotes, snap.cashOut) && PledgesOk(pledged, snap.cashOut)
      && AllClosed(m, snap, credits)
    requires Confined(m, tags, m, tags', {Out(id)}) && TagsGrow(tags, tags')
    requires id in snap.cashOut && snap.cashOut[id].reserved.Some? && PaidAt(m, snap.cashOut[id].quote)
    requires o.Valid() && o.quote == snap.cashOut[id].quote && o.reserved.None? && o.blanks.None? && o.recovery.None?
    ensures PaymentsOk(m, tags', snap.payments) && OrdersOk(m, tags', snap.orders) && AddsOk(m, tags', snap.addCash)
      && OutsOk(m, tags', snap.cashOut[id := o])
    ensures WireOk(m, snap.cashOut[id := o], wire) && MeltsKnown(m.meltQuotes, snap.cashOut[id := o])
      && PledgesOk(pledged, snap.cashOut[id := o]) && AllClosed(m, snap.(cashOut := snap.cashOut[id := o]), credits)
  {
    hide PaymentsOk, OrdersOk, AddsOk, OutsOk, AllClosed, WireOk, PledgesOk, MeltsKnown, OutOk, TagsGrow, Confined;
    ReleasedOut(m, tags, snap.cashOut, wire, id, o);
    ReleasedRecords(m, tags, snap, id, o, tags');
    PledgeRelabelled(pledged, snap.cashOut, id, o);
    CreditClosed(m, snap, snap.(cashOut := snap.cashOut[id := o]), credits, Out(id), []);
  }

  /** A release under a melt that another cash-out paid without change: what this one holds is lost. */
  lemma KeepsForget(w: World, id: nat, o: CashOut)
    requires Inv(w) && id in w.snap.cashOut && w.snap.cashOut[id].reserved.Some? && PaidAt(w.mint, w.snap.cashOut[id].quote)
    requires o.Valid() && o.quote == w.snap.cashOut[id].quote && o.reserved.None? && o.blanks.None? && o.recovery.None?
    ensures Inv(ReleaseOut(w, id, o, [])) && TagsGrow(w.tags, ReleaseOut(w, id, o, []).tags)
  {
    OutAt(w, id);
    FootprintOwned(w.mint, w.tags, id, w.snap.cashOut[id]);
    hide PaymentsOk, OrdersOk, AddsOk, OutsOk, NothingLost, AllClosed, ProofsOk, TagsOk, CreditsOk, ReviewsOk,
      WireOk, PledgesOk, SentOk, MeltsKnown, KeysOk, OutOk, TagsGrow, Retag, OutsKeep, ReleaseOut, Confined, OutFootprint, Mint.Ok, Needs,
      Melts, PaidAt, CashOut.Valid, OutKeeps;
    ReleaseSplits(w, id, o, []);
    NothingTaken(w, id);
    hide Secrets, Mint.LiveOurs, Forgotten;
    var lost := Forgotten(w, id, []);
    var tags' := Retag(w.tags, lost, Tag(Lost, true));
    ForgottenTags(w.mint, w.tags, w.snap, id, o, lost);
    ForgottenSides(w.mint, w.tags, tags', w.snap.proofs, id, Needs(w.mint), w.reviews, w.credits);
    ForgottenRecords(w.mint, w.tags, tags', w.snap, w.wire, w.pledged, w.credits, id, o);
  }

  lemma NothingTaken(w: World, id: nat)
    requires id in w.snap.cashOut
    ensures Forgotten(w, id, []) == OutFootprint(w.snap.cashOut[id]) * w.mint.LiveOurs()
  {
    hide OutFootprint;
    assert Secrets([]) == {};
  }

  lemma ForgottenSides(m: Mint, tags: map<nat, Tag>, tags': map<nat, Tag>, proofs: seq<Coin>, id: nat, needs: map<nat, nat>,
                       reviews: map<nat, Review>, credits: seq<Credit>)
    requires ProofsOk(m, tags, proofs) && ReviewsOk(needs, tags, reviews) && CreditsOk(tags, credits)
    requires Confined(m, tags, m, tags', {Out(id)}) && TagsGrow(tags, tags')
    ensures ProofsOk(m, tags', proofs) && ReviewsOk(needs, tags', reviews) && CreditsOk(tags', credits)
  {
    hide ReviewOk, CreditsOk;
    ReviewsFrame(needs, tags, needs, tags', reviews);
    CreditsFrame(tags, tags', credits);
  }

  lemma FootprintOwned(m: Mint, tags: map<nat, Tag>, id: nat, o: CashOut)
    requires OutOk(m, tags, id, o)
    ensures forall s :: s in OutFootprint(o) ==> s in tags && tags[s].owner == Out(id)
  {
  }

  lemma RecoveredPhase(m: Mint, tags: map<nat, Tag>, id: nat, o: CashOut)
    requires OutOk(m, tags, id, o) && o.recovery.Some? && Secrets(o.recovery.value.Outputs()) <= m.signed.Keys
    ensures Secrets(o.reserved.value) <= m.spent && m.Unsigned(Blanks(o.blanks.value)) && !MeltOver(m.meltQuotes[o.quote].state, o.reserved.value)
    ensures Held(m, o.recovery.value.keep) && Distinct(o.recovery.value.keep) && Positive(o.recovery.value.keep)
    ensures Tagged(tags, Secrets(o.recovery.value.keep), Tag(Out(id), false))
  {
    var sw := o.recovery.value;
    assert sw.Outputs() == sw.keep;
    assert sw.keep[0].secret in Secrets(sw.keep);
  }

  lemma KeepsFinishRecovery(w: World)
    requires Inv(w)
    ensures Inv(FinishRecovery(w)) && TagsGrow(w.tags, FinishRecovery(w).tags)
  {
    hide PaymentsOk, OrdersOk, AddsOk, OutsOk, NothingLost, AllClosed, ProofsOk, TagsOk, CreditsOk, ReviewsOk,
      WireOk, PledgesOk, SentOk, MeltsKnown, KeysOk, TagsGrow, Retag, OutsKeep, ReleaseOut;
    TagsStay(w.tags);
    if w.task.SwapDone? && w.task.job.RecoverJob? && HasSwap(w.snap, w.task.job) {
      var id := w.task.job.id;
      var o := w.snap.cashOut[id];
      OutAt(w, id);
      RecoveredPhase(w.mint, w.tags, id, o);
      KeepsRelease(w, id, o.(state := OutFailed, quoteState := QuoteUnpaid, reserved := None, blanks := None, recovery := None), o.recovery.value.keep);
    }
  }

  /** A record whose own melt was paid holds no live coin but the change. */
  lemma PaidPhase(m: Mint, tags: map<nat, Tag>, id: nat, o: CashOut, change: seq<Coin>)
    requires OutOk(m, tags, id, o) && o.reserved.Some? && m.meltQuotes[o.quote].state.Paid?
      && m.meltQuotes[o.quote].state.change == change && m.meltQuotes[o.quote].state.inputs == o.reserved.value
    requires m.ours <= m.signed.Keys
    ensures Secrets(o.reserved.value) <= m.spent && Held(m, change) && Distinct(change) && Positive(change)
    ensures Tagged(tags, Secrets(change), Tag(Out(id), false)) && Unblinds(o.blanks.value, change)
    ensures forall s :: s in m.LiveOurs() && s in OutFootprint(o) ==> s in Secrets(change)
  {
    ChangeIsBlank(o.blanks.value, change);
  }

  lemma NoSecrets(cs: seq<Coin>)
    requires Secrets(cs) == {}
    ensures cs == []
  {
    assert cs == [] || cs[0].secret in Secrets(cs);
  }

  /** Change signed for another cash-out unblinds with these outputs only if there is none. */
  lemma OthersChange(m: Mint, tags: map<nat, Tag>, id: nat, o: CashOut, change: seq<Coin>)
    requires OutOk(m, tags, id, o) && o.reserved.Some? && m.meltQuotes[o.quote].state.Paid? && m.MeltsOk()
      && m.meltQuotes[o.quote].state.change == change && m.meltQuotes[o.quote].state.inputs != o.reserved.value
    requires Unblinds(o.blanks.value, change)
    ensures change == []
  {
    ChangeIsBlank(o.blanks.value, change);
    hide Secrets;
    NoSecrets(change);
  }

  lemma KeepsPaid(w: World, id: nat, change: seq<Coin>)
    requires Inv(w) && id in w.snap.cashOut && w.snap.cashOut[id].reserved.Some?
    requires w.mint.meltQuotes[w.snap.cashOut[id].quote].state.Paid?
      && w.mint.meltQuotes[w.snap.cashOut[id].quote].state.change == change
    requires var o := w.snap.cashOut[id];
      (o.blanks.Some? && Unblinds(o.blanks.value, change)) || o.reserved.value == w.mint.meltQuotes[o.quote].state.inputs
    ensures Inv(ReleaseOut(w, id, PaidRecord(w.snap.cashOut[id]), change))
      && TagsGrow(w.tags, ReleaseOut(w, id, PaidRecord(w.snap.cashOut[id]), change).tags)
  {
    hide PaymentsOk, OrdersOk, AddsOk, OutsOk, NothingLost, AllClosed, ProofsOk, TagsOk, CreditsOk, ReviewsOk,
      WireOk, PledgesOk, SentOk, MeltsKnown, KeysOk, TagsGrow, Retag, OutsKeep, ReleaseOut, Unblinds;
    var o := w.snap.cashOut[id];
    OutAt(w, id);
    if o.reserved.value == w.mint.meltQuotes[o.quote].state.inputs {
      PaidPhase(w.mint, w.tags, id, o, change);
      KeepsRelease(w, id, PaidRecord(o), change);
    } else {
      OthersChange(w.mint, w.tags, id, o, change);
      KeepsForget(w, id, PaidRecord(o));
    }
  }

  lemma OutLabel(w: World, id: nat, o: CashOut)
    requires Inv(w) && id in w.snap.cashOut && o == w.snap.cashOut[id].(state := o.state, quoteState := o.quoteState)
    ensures Inv(Go(PutOut(w, id, o), Idle)) && Go(PutOut(w, id, o), Idle).tags == w.tags
  {
    hide PaymentsOk, OrdersOk, AddsOk, OutsOk, NothingLost, AllClosed, ProofsOk, TagsOk, CreditsOk, ReviewsOk,
      WireOk, PledgesOk, SentOk, MeltsKnown, KeysOk, OutsKeep;
    OutAt(w, id);
    RelabelOut(w, id, o, Idle);
  }

  lemma KeepsFinishMelt(w: World)
    requires Inv(w)
    ensures Inv(FinishMelt(w)) && TagsGrow(w.tags, FinishMelt(w).tags)
  {
    hide PaymentsOk, OrdersOk, AddsOk, OutsOk, NothingLost, AllClosed, ProofsOk, TagsOk, CreditsOk, ReviewsOk,
      WireOk, PledgesOk, SentOk, MeltsKnown, KeysOk, TagsGrow, Retag, OutsKeep;
    TagsStay(w.tags);
    if w.task.MeltSeen? && w.task.id in w.snap.cashOut {
      var id := w.task.id;
      var o := w.snap.cashOut[id];
      match w.task.seen
      case Some(Paid(_, _, change)) =>
        assert PaidRecord(o).(recovery := o.recovery) == PaidRecord(o);
        KeepsPaid(w, id, change);
      case Some(Pending(_, _)) => OutLabel(w, id, o.(state := OutPending, quoteState := QuotePending));
      case Some(Unpaid) => OutLabel(w, id, o.(state := OutUnknown, quoteState := QuoteUnpaid));
      case None => OutLabel(w, id, o.(state := OutUnknown));
    }
  }

  /** A refresh of an already paid record: nothing to release and nothing to credit. */
  lemma KeepsPaidAgain(w: World, id: nat)
    requires Inv(w) && id in w.snap.cashOut && w.snap.cashOut[id].reserved.None?
    ensures Inv(ReleaseOut(w, id, PaidRecord(w.snap.cashOut[id]), []))
      && ReleaseOut(w, id, PaidRecord(w.snap.cashOut[id]), []).tags == w.tags
  {
    hide PaymentsOk, OrdersOk, AddsOk, OutsOk, NothingLost, AllClosed, ProofsOk, TagsOk, CreditsOk, ReviewsOk,
      WireOk, PledgesOk, SentOk, MeltsKnown, KeysOk, OutsKeep, ReleaseOut;
    var o := w.snap.cashOut[id];
    OutAt(w, id);
    OutLabel(w, id, PaidRecord(o));
    ReleaseSplits(w, id, PaidRecord(o), []);
    assert Secrets([]) == {} && OutFootprint(o) == {};
    assert Retag(w.tags, {}, Tag(Lost, true)) == w.tags;
  }

  lemma KeepsTakeChange(w: World, id: nat, change: seq<Coin>)
    requires Inv(w) && id in w.snap.cashOut
    requires w.snap.cashOut[id].quote in w.mint.meltQuotes && w.mint.meltQuotes[w.snap.cashOut[id].quote].state.Paid?
    requires w.mint.meltQuotes[w.snap.cashOut[id].quote].state.change == change
    ensures Inv(TakeChange(w, id, change)) && TagsGrow(w.tags, TakeChange(w, id, change).tags)
  {
    hide Inv, TagsGrow, ReleaseOut, PutOut, PaidRecord, Go, OutsKeep, Unblinds;
    OutAt(w, id);
    TagsStay(w.tags);
    OutLabel(w, id, w.snap.cashOut[id].(state := OutUnknown));
    if w.snap.cashOut[id].reserved.Some? {
      if Unblinds(w.snap.cashOut[id].blanks.value, change) { KeepsPaid(w, id, change); }
    } else if change == [] {
      KeepsPaidAgain(w, id);
    }
  }

  lemma KeepsActOnQuote(w: World)
    requires Inv(w)
    ensures Inv(ActOnQuote(w)) && TagsGrow(w.tags, ActOnQuote(w).tags)
  {
    assert w.task.OutSeen? ==> PaidSeen(w.mint, w.snap, w.task.id, w.task.found);
    hide Inv, TagsGrow, TakeChange, PutOut, Go;
    TagsStay(w.tags);
    if w.task.OutSeen? && w.task.id in w.snap.cashOut {
      var id, o := w.task.id, w.snap.cashOut[w.task.id];
      match w.task.found
      case Paid(_, _, change) => KeepsTakeChange(w, id, change);
      case Pending(_, _) => OutLabel(w, id, o.(state := OutPending, quoteState := QuotePending));
      case Unpaid =>
        OutLabel(w, id, o.(state := OutUnknown));
        KeepsOutTask(w, id);
    }
  }

  lemma KeepsOutTask(w: World, id: nat)
    requires Inv(w) && id in w.snap.cashOut
    ensures Inv(Go(w, OutProofs(id))) && Inv(Go(w, SwapCall(RecoverJob(id))))
    ensures Go(w, OutProofs(id)).tags == w.tags == Go(w, SwapCall(RecoverJob(id))).tags
  {
    Retask(w, OutProofs(id));
    Retask(w, SwapCall(RecoverJob(id)));
  }
}
