/** Moves of the mint and of other people, and the steps around them: issuance, melts, deliveries
    and reads. */
module MarketCalls {
  import opened Ecash
  import opened MintLedger
  import opened MarketRecords
  import opened MarketSteps
  import opened MarketInvariant
  import opened MarketFrames
  import opened MarketDrafts
  import opened MarketValue
  import opened MarketLabels
  import opened MarketCredits

  // ---- one lemma for every move of the mint ----

  /** The records of the touched owners, which a mint step must re-establish itself. */
  predicate TouchedOk(n: Mint, tags: map<nat, Tag>, snap: Snapshot, touched: set<Owner>, quote: Option<nat>) {
    && (forall id :: id in snap.payments ==> Pay(id) !in touched && Sent(id) !in touched)
    && (forall id :: id in snap.orders ==> Vend(id) !in touched)
    && (forall id :: id in snap.addCash && Add(id) in touched ==> AddOk(n, tags, id, snap.addCash[id]))
    && (forall id :: id in snap.cashOut && (Out(id) in touched || quote == Some(snap.cashOut[id].quote)) ==> OutOk(n, tags, id, snap.cashOut[id]))
  }

  lemma MintRecords(m: Mint, tags: map<nat, Tag>, n: Mint, tags': map<nat, Tag>, snap: Snapshot, touched: set<Owner>, quote: Option<nat>)
    requires PaymentsOk(m, tags, snap.payments) && OrdersOk(m, tags, snap.orders) && AddsOk(m, tags, snap.addCash)
      && OutsOk(m, tags, snap.cashOut)
    requires Confined(m, tags, n, tags', touched) && TagsGrow(tags, tags') && QuotesStay(m, n) && MeltsSame(m, n, quote)
    requires TouchedOk(n, tags', snap, touched, quote)
    ensures PaymentsOk(n, tags', snap.payments) && OrdersOk(n, tags', snap.orders) && AddsOk(n, tags', snap.addCash)
      && OutsOk(n, tags', snap.cashOut)
  {
    hide PaymentOk, OrderOk, AddOk, OutOk;
    PaymentsFrame(m, tags, n, tags', touched, snap.payments);
    OrdersFrame(m, tags, n, tags', touched, snap.orders);
    AddsFrame(m, tags, n, tags', touched, snap.addCash);
    OutsFrame(m, tags, n, tags', touched, snap.cashOut, quote);
  }

  /** What a move of the mint owes the rest of the world. */
  predicate MintMove(m: Mint, tags: map<nat, Tag>, n: Mint, tags': map<nat, Tag>, snap: Snapshot, task: Task,
                     touched: set<Owner>, quote: Option<nat>) {
    && TagsOk(n, tags') && NothingLost(n, tags', snap) && TaskOk(n, snap, task)
    && Confined(m, tags, n, tags', touched) && TagsGrow(tags, tags') && Spendable !in touched
    && (forall s :: s in tags && tags[s].owner.Draft? ==> tags'[s] == tags[s])
    && QuotesStay(m, n) && MeltsSame(m, n, quote) && m.meltQuotes.Keys <= n.meltQuotes.Keys
    && NeedsKept(Needs(m), Needs(n)) && m.spent <= n.spent && PaidStays(m, n)
    && MeltsKnown(n.meltQuotes, snap.cashOut) && TouchedOk(n, tags', snap, touched, quote)
    && (forall id :: id in snap.addCash && Add(id) in touched ==> snap.addCash[id].quote in m.mintQuotes && !m.mintQuotes[snap.addCash[id].quote].issued)
  }

  lemma MintStep(w: World, n: Mint, tags': map<nat, Tag>, touched: set<Owner>, quote: Option<nat>)
    requires Inv(w) && n.Ok() && MintMove(w.mint, w.tags, n, tags', w.snap, w.task, touched, quote)
    ensures Inv(w.(mint := n, tags := tags'))
  {
    hide PaymentsOk, OrdersOk, AddsOk, OutsOk, NothingLost, AllClosed, TagsOk, CreditsOk, ReviewsOk, WireOk, PledgesOk, SentOk,
      MeltsKnown, KeysOk, TaskOk, TouchedOk, TagsGrow, Confined, Recorded, Needs;
    MintRecords(w.mint, w.tags, n, tags', w.snap, touched, quote);
    HeldFrame(w.mint, w.tags, n, tags', touched, w.snap.proofs, Tag(Spendable, false));
    ReviewsFrame(Needs(w.mint), w.tags, Needs(n), tags', w.reviews);
    CreditsFrame(w.tags, tags', w.credits);
    WireFrame(w.mint, n, w.snap.cashOut, w.wire);
    ClosedFrame(w.mint, w.tags, n, tags', w.snap, w.credits, touched);
  }

  // ---- issuance ----

  lemma IssueMint(m: Mint, tags: map<nat, Tag>, id: nat, a: AddCash)
    requires AddOk(m, tags, id, a) && a.outputs.Some? && CanIssue(m, a.quote, a.outputs.value)
      && m.spent + m.locked <= m.signed.Keys
    requires TagsOk(m, tags)
    ensures var n := ApplyIssue(m, a.quote, a.outputs.value);
      && AddOk(n, tags, id, a) && Confined(m, tags, n, tags, {Add(id)}) && TagsOk(n, tags) && TagsGrow(tags, tags)
      && n.signed.Keys == m.signed.Keys + Secrets(a.outputs.value)
  {
    var os := a.outputs.value;
    SignedAfter(m.signed, os);
    var n := ApplyIssue(m, a.quote, os);
    forall c | c in os ensures n.Spendable(c) && c.secret in n.ours { assert c.secret in Secrets(os); }
    forall s | s in tags && tags[s].owner != Add(id) ensures SameAt(m, tags, n, tags, s) { assert s !in Secrets(os); }
  }

  lemma IssueLost(m: Mint, tags: map<nat, Tag>, snap: Snapshot, id: nat, os: seq<Coin>)
    requires NothingLost(m, tags, snap) && id in snap.addCash && snap.addCash[id].outputs == Some(os)
      && Tagged(tags, Secrets(os), Tag(Add(id), false))
    requires snap.addCash[id].quote in m.mintQuotes
    ensures NothingLost(ApplyIssue(m, snap.addCash[id].quote, os), tags, snap)
  {
    var n := ApplyIssue(m, snap.addCash[id].quote, os);
    forall s | s in n.LiveOurs() ensures s in tags && Recorded(snap, tags[s].owner, s) {
      if s !in Secrets(os) { assert s in m.LiveOurs(); }
    }
  }

  lemma IssueMove(m: Mint, tags: map<nat, Tag>, snap: Snapshot, id: nat, os: seq<Coin>)
    requires TagsOk(m, tags) && NothingLost(m, tags, snap) && MeltsKnown(m.meltQuotes, snap.cashOut)
      && m.spent + m.locked <= m.signed.Keys
    requires id in snap.addCash && snap.addCash[id].outputs == Some(os) && AddOk(m, tags, id, snap.addCash[id])
      && CanIssue(m, snap.addCash[id].quote, os)
    ensures MintMove(m, tags, ApplyIssue(m, snap.addCash[id].quote, os), tags, snap, IssueCall(id), {Add(id)}, None)
    ensures Secrets(os) <= ApplyIssue(m, snap.addCash[id].quote, os).signed.Keys
  {
    IssueMint(m, tags, id, snap.addCash[id]);
    IssueLost(m, tags, snap, id, os);
  }

  lemma MintIssues(w: World, id: nat, os: seq<Coin>)
    requires Inv(w) && id in w.snap.addCash && w.snap.addCash[id].outputs == Some(os) && w.task == IssueCall(id)
    requires CanIssue(w.mint, w.snap.addCash[id].quote, os)
    ensures Inv(w.(mint := ApplyIssue(w.mint, w.snap.addCash[id].quote, os)))
      && Secrets(os) <= ApplyIssue(w.mint, w.snap.addCash[id].quote, os).signed.Keys
  {
    hide MintMove;
    var n := ApplyIssue(w.mint, w.snap.addCash[id].quote, os);
    IssueKeepsBooks(w.mint, w.snap.addCash[id].quote, os);
    assert AddOk(w.mint, w.tags, id, w.snap.addCash[id]);
    IssueMove(w.mint, w.tags, w.snap, id, os);
    hide Inv;
    MintStep(w, n, w.tags, {Add(id)}, None);
    assert w.(mint := n, tags := w.tags) == w.(mint := n);
  }

  lemma KeepsCallIssue(w: World, reaches: bool, answered: bool)
    requires Inv(w)
    ensures Inv(CallIssue(w, reaches, answered))
  {
    hide Inv, ApplyIssue;
    if w.task.IssueCall? && w.task.id in w.snap.addCash && w.snap.addCash[w.task.id].outputs.Some? {
      var id, a := w.task.id, w.snap.addCash[w.task.id];
      if reaches && CanIssue(w.mint, a.quote, a.outputs.value) {
        MintIssues(w, id, a.outputs.value);
        Retask(w.(mint := ApplyIssue(w.mint, a.quote, a.outputs.value)), if answered then IssueDone(id) else IssueRestore(id));
      } else {
        Retask(w, IssueRestore(id));
      }
    }
  }

  lemma PreparedAdd(w: World, id: nat, os: seq<Coin>, a: AddCash)
    requires Inv(w) && id in w.snap.addCash && w.snap.addCash[id].outputs.None?
      && Tagged(w.tags, Secrets(os), Tag(Add(id), false))
    requires w.mint.Unsigned(Secrets(os)) && Distinct(os) && Positive(os) && os != []
    requires a.outputs == Some(os) && a.quote == w.snap.addCash[id].quote && a.amount == w.snap.addCash[id].amount
    ensures Inv(Go(PutAdd(w, id, a), IssueCall(id)))
  {
    var snap' := PutAdd(w, id, a).snap;
    assert AddOk(w.mint, w.tags, id, w.snap.addCash[id]);
    assert AddOk(w.mint, w.tags, id, a);
    PreparedAddMentions(w.mint, w.tags, w.snap, id, a, w.credits);
    hide AddOk, PaymentOk, OrderOk, OutOk, RequestOk, ReviewOk, StillSent, Credited, NothingLost, Closed;
  }

  lemma PreparedAddMentions(m: Mint, tags: map<nat, Tag>, snap: Snapshot, id: nat, a: AddCash, credits: seq<Credit>)
    requires NothingLost(m, tags, snap) && AllClosed(m, snap, credits) && id in snap.addCash && snap.addCash[id].outputs.None?
    requires a.outputs.Some? && m.Unsigned(Secrets(a.outputs.value)) && a.quote == snap.addCash[id].quote
    ensures NothingLost(m, tags, snap.(addCash := snap.addCash[id := a]))
      && AllClosed(m, snap.(addCash := snap.addCash[id := a]), credits)
  {
    var snap' := snap.(addCash := snap.addCash[id := a]);
    MentionsMore(m, tags, snap, snap');
    forall i | 0 <= i < |credits| ensures Closed(m, snap', credits[i].source) { assert Closed(m, snap, credits[i].source); }
  }

  lemma FreshUnsigned(w: World, ss: set<nat>)
    requires Inv(w) && Fresh(w, ss)
    ensures w.mint.Unsigned(ss)
  {
    assert forall s :: s in w.mint.signed ==> s in w.tags;
  }

  lemma AddIsPrepared(w: World, id: nat, os: seq<Coin>)
    requires Inv(w) && id in w.snap.addCash && w.snap.addCash[id].outputs.None? && Fresh(w, Secrets(os))
    requires Distinct(os) && Positive(os) && os != []
    ensures Inv(Go(PutAdd(w, id, w.snap.addCash[id].(state := Issuing, outputs := Some(os), hasQuoteKey := false)), IssueCall(id))
                .(tags := Retag(w.tags, Secrets(os), Tag(Add(id), false))))
    ensures TagsGrow(w.tags, Retag(w.tags, Secrets(os), Tag(Add(id), false)))
  {
    FreshUnsigned(w, Secrets(os));
    hide Inv, TagsGrow, Distinct, Positive, Secrets;
    KeepsFreshTags(w, Secrets(os), Tag(Add(id), false));
    PreparedAdd(w.(tags := Retag(w.tags, Secrets(os), Tag(Add(id), false))), id, os,
                w.snap.addCash[id].(state := Issuing, outputs := Some(os), hasQuoteKey := false));
  }

  lemma KeepsPrepareAdd(w: World, os: seq<Coin>)
    requires Inv(w)
    ensures Inv(PrepareAdd(w, os)) && TagsGrow(w.tags, PrepareAdd(w, os).tags)
  {
    hide Inv, TagsGrow, Retag, Distinct, Positive, Secrets, Total, Fresh;
    TagsStay(w.tags);
    if w.task.AddObserved? && w.task.id in w.snap.addCash {
      var id, a := w.task.id, w.snap.addCash[w.task.id];
      Retask(w, IssueCall(id));
      RelabelAdd(w, id, a.(state := AddRecoverable), Idle);
      if a.outputs.None? && Distinct(os) && Positive(os) && os != [] && Fresh(w, Secrets(os)) { AddIsPrepared(w, id, os); }
    }
  }

  // ---- deliveries ----

  lemma KeepsDeliver(w: World, answer: DeliverAnswer)
    requires Inv(w)
    ensures Inv(Deliver(w, answer))
  {
    if w.task.DeliverCall? {
      var id := w.task.id;
      var p := w.snap.payments[id];
      assert PaymentOk(w.mint, w.tags, id, p);
      forall i | 0 <= i < |w.sent| ensures StillSent(w.snap.payments, w.sent[i]) {}
    }
  }

  // ---- preparing swaps ----

  lemma RecoveryPrepared(m: Mint, tags: map<nat, Tag>, id: nat, o: CashOut, sw: Swap)
    requires OutOk(m, tags, id, o) && o.reserved.Some? && o.recovery.None?
    requires sw.inputs == o.reserved.value && sw.send == [] && sw.Wellformed() && SwapValid(sw)
    requires Tagged(tags, Secrets(sw.keep), Tag(Out(id), false)) && Secrets(sw.keep) !! Blanks(o.blanks.value)
      && m.Unsigned(Secrets(sw.keep))
    ensures OutOk(m, tags, id, o.(state := OutUnknown, recovery := Some(sw)))
  {
  }

  lemma RecoveryPut(m: Mint, tags: map<nat, Tag>, os: map<nat, CashOut>, id: nat, o: CashOut)
    requires OutsOk(m, tags, os) && MeltsKnown(m.meltQuotes, os) && id in os
    requires OutOk(m, tags, id, o) && o.quote == os[id].quote && o.reserved == os[id].reserved && o.blanks == os[id].blanks
    ensures OutsOk(m, tags, os[id := o]) && MeltsKnown(m.meltQuotes, os[id := o])
  {
    MeltsStayKnown(m.meltQuotes, os, id, o);
    hide OutOk;
  }

  lemma PreparedRecovery(w: World, id: nat, sw: Swap)
    requires Inv(w) && id in w.snap.cashOut && w.snap.cashOut[id].reserved.Some? && w.snap.cashOut[id].recovery.None?
    requires w.snap.cashOut[id].blanks.Some? && Secrets(sw.keep) !! Blanks(w.snap.cashOut[id].blanks.value)
    requires sw.inputs == w.snap.cashOut[id].reserved.value && sw.send == [] && sw.Wellformed() && SwapValid(sw)
    requires Tagged(w.tags, Secrets(sw.keep), Tag(Out(id), false)) && w.mint.Unsigned(Secrets(sw.keep))
    ensures Inv(Go(PutOut(w, id, w.snap.cashOut[id].(state := OutUnknown, recovery := Some(sw))), SwapCall(RecoverJob(id))))
  {
    hide PaymentsOk, OrdersOk, AddsOk, OutsOk, NothingLost, AllClosed, ProofsOk, TagsOk, CreditsOk, ReviewsOk, WireOk, PledgesOk,
      SentOk, MeltsKnown, KeysOk, OutsKeep, Tagged, SwapValid, Blanks, Secrets;
    var o := w.snap.cashOut[id].(state := OutUnknown, recovery := Some(sw));
    OutAt(w, id);
    RecoveryPrepared(w.mint, w.tags, id, w.snap.cashOut[id], sw);
    RecoveryPut(w.mint, w.tags, w.snap.cashOut, id, o);
    RequestsKept(w.mint, w.snap.cashOut, id, o, w.wire);
    PledgeRelabelled(w.pledged, w.snap.cashOut, id, o);
    RecoveryMentions(w.mint, w.tags, w.snap, id, sw, w.credits);
  }

  lemma RecoveryMentions(m: Mint, tags: map<nat, Tag>, snap: Snapshot, id: nat, sw: Swap, credits: seq<Credit>)
    requires NothingLost(m, tags, snap) && AllClosed(m, snap, credits) && id in snap.cashOut && snap.cashOut[id].recovery.None?
    requires snap.cashOut[id].reserved.Some?
    ensures var snap' := snap.(cashOut := snap.cashOut[id := snap.cashOut[id].(state := OutUnknown, recovery := Some(sw))]);
      NothingLost(m, tags, snap') && AllClosed(m, snap', credits)
  {
    var snap' := snap.(cashOut := snap.cashOut[id := snap.cashOut[id].(state := OutUnknown, recovery := Some(sw))]);
    MentionsMore(m, tags, snap, snap');
    forall i | 0 <= i < |credits| ensures Closed(m, snap', credits[i].source) { assert Closed(m, snap, credits[i].source); }
  }

  lemma RecoveryIsPrepared(w: World, id: nat, sw: Swap)
    requires Inv(w) && id in w.snap.cashOut && w.snap.cashOut[id].reserved.Some? && w.snap.cashOut[id].recovery.None?
    requires sw.inputs == w.snap.cashOut[id].reserved.value && ReceiveSwap(w, sw)
    ensures Inv(Go(PutOut(w, id, w.snap.cashOut[id].(state := OutUnknown, recovery := Some(sw))), SwapCall(RecoverJob(id)))
                .(tags := Retag(w.tags, Secrets(sw.keep), Tag(Out(id), false))))
    ensures TagsGrow(w.tags, Retag(w.tags, Secrets(sw.keep), Tag(Out(id), false)))
  {
    assert forall s :: s in w.mint.signed ==> s in w.tags;
    assert OutOk(w.mint, w.tags, id, w.snap.cashOut[id]);
    hide Inv;
    KeepsFreshTags(w, Secrets(sw.keep), Tag(Out(id), false));
    PreparedRecovery(w.(tags := Retag(w.tags, Secrets(sw.keep), Tag(Out(id), false))), id, sw);
  }

  lemma KeepsPrepareRecovery(w: World, answer: TokenState, sw: Swap)
    requires Inv(w)
    ensures Inv(PrepareRecovery(w, answer, sw)) && TagsGrow(w.tags, PrepareRecovery(w, answer, sw).tags)
  {
    hide Inv, ReceiveSwap, PutOut, TagsGrow;
    TagsStay(w.tags);
    if w.task.OutProofs? && w.task.id in w.snap.cashOut && w.snap.cashOut[w.task.id].reserved.Some? && w.snap.cashOut[w.task.id].recovery.None? {
      var id, o := w.task.id, w.snap.cashOut[w.task.id];
      OutLabel(w, id, o.(state := OutUnknown));
      if answer == AllUnspent && sw.inputs == o.reserved.value && ReceiveSwap(w, sw) {
        RecoveryIsPrepared(w, id, sw);
      }
    }
  }

  lemma SettleSwapOk(w: World, id: nat, o: Order, sw: Swap)
    requires o.keys.Some? && sw.send == [] && sw.Wellformed() && SwapValid(sw) && LockedTo(w, o.keys.value.privateKey, sw.inputs)
    requires sw.amount == Total(sw.keep) == o.amount
    requires Tagged(w.tags, Secrets(sw.keep), Tag(Vend(id), false)) && w.mint.Unsigned(Secrets(sw.keep))
    ensures OrderSwapOk(w.mint, w.tags, id, o.amount, o.keys.value.privateKey, sw)
  {
  }

  lemma SettlePut(m: Mint, tags: map<nat, Tag>, snap: Snapshot, id: nat, o: Order)
    requires OrdersOk(m, tags, snap.orders) && KeysOk(snap.orders) && id in snap.orders
    requires OrderOk(m, tags, id, o) && o.keys == snap.orders[id].keys
    ensures OrdersOk(m, tags, snap.orders[id := o]) && KeysOk(snap.orders[id := o])
  {
    hide OrderOk;
  }

  lemma PreparedSettle(w: World, id: nat, sw: Swap)
    requires Inv(w) && id in w.snap.orders && w.snap.orders[id].incomingSwap.None? && w.snap.orders[id].keys.Some?
    requires sw.send == [] && sw.Wellformed() && SwapValid(sw) && LockedTo(w, w.snap.orders[id].keys.value.privateKey, sw.inputs)
    requires sw.amount == Total(sw.keep) == w.snap.orders[id].amount
    requires Tagged(w.tags, Secrets(sw.keep), Tag(Vend(id), false)) && w.mint.Unsigned(Secrets(sw.keep))
    requires Some(sw.inputs) == w.snap.orders[id].incomingToken
    ensures Inv(Go(PutOrder(w, id, w.snap.orders[id].(state := Swapping, incomingSwap := Some(sw))), SwapCall(VendJob(id))))
  {
    hide PaymentsOk, OrdersOk, AddsOk, OutsOk, NothingLost, AllClosed, ProofsOk, TagsOk, CreditsOk, ReviewsOk, WireOk, PledgesOk,
      SentOk, MeltsKnown, KeysOk, LockedTo, OrderSwapOk, OrdersKeep, TokensKeep;
    var o := w.snap.orders[id].(state := Swapping, incomingSwap := Some(sw));
    OrderAt(w, id);
    SettleSwapOk(w, id, o, sw);
    SettlePut(w.mint, w.tags, w.snap, id, o);
    PreparedSettleMentions(w.mint, w.tags, w.snap, id, o, w.credits);
  }

  lemma PreparedSettleMentions(m: Mint, tags: map<nat, Tag>, snap: Snapshot, id: nat, o: Order, credits: seq<Credit>)
    requires NothingLost(m, tags, snap) && AllClosed(m, snap, credits)
    requires id in snap.orders && snap.orders[id].incomingSwap.None? && snap.orders[id].keys.Some?
    ensures NothingLost(m, tags, snap.(orders := snap.orders[id := o]))
      && AllClosed(m, snap.(orders := snap.orders[id := o]), credits)
  {
    var snap' := snap.(orders := snap.orders[id := o]);
    MentionsMore(m, tags, snap, snap');
    forall i | 0 <= i < |credits| ensures Closed(m, snap', credits[i].source) { assert Closed(m, snap, credits[i].source); }
  }

  lemma SettlePrepared(w: World, id: nat, sw: Swap)
    requires Inv(w) && id in w.snap.orders && w.snap.orders[id].incomingSwap.None? && w.snap.orders[id].keys.Some?
    requires LockedTo(w, w.snap.orders[id].keys.value.privateKey, sw.inputs) && ReceiveSwap(w, sw) && sw.amount == w.snap.orders[id].amount
    requires Some(sw.inputs) == w.snap.orders[id].incomingToken
    ensures Inv(Go(PutOrder(w, id, w.snap.orders[id].(state := Swapping, incomingSwap := Some(sw))), SwapCall(VendJob(id)))
                .(tags := Retag(w.tags, Secrets(sw.keep), Tag(Vend(id), false))))
    ensures TagsGrow(w.tags, Retag(w.tags, Secrets(sw.keep), Tag(Vend(id), false)))
  {
    assert forall s :: s in w.mint.signed ==> s in w.tags;
    hide Inv;
    KeepsFreshTags(w, Secrets(sw.keep), Tag(Vend(id), false));
    PreparedSettle(w.(tags := Retag(w.tags, Secrets(sw.keep), Tag(Vend(id), false))), id, sw);
  }

  lemma KeepsPrepareSettle(w: World, sw: Swap)
    requires Inv(w)
    ensures Inv(PrepareSettle(w, sw)) && TagsGrow(w.tags, PrepareSettle(w, sw).tags)
  {
    hide Inv, LockedTo, ReceiveSwap, PutOrder, TagsGrow, OrdersKeep, TokensKeep;
    TagsStay(w.tags);
    if w.task.SwapPrepare? && w.task.id in w.snap.orders {
      var id := w.task.id;
      OrderLabel(w, id, OrderRecoverable);
      OrderLabel(w, id, Rejected);
      if && w.snap.orders[id].incomingSwap.None? && w.snap.orders[id].keys.Some?
         && LockedTo(w, w.snap.orders[id].keys.value.privateKey, sw.inputs) && ReceiveSwap(w, sw) && sw.amount == w.snap.orders[id].amount
         && Some(sw.inputs) == w.snap.orders[id].incomingToken { SettlePrepared(w, id, sw); }
    }
  }

  // ---- reads ----

  lemma KeepsStoreToken(w: World, id: nat, token: seq<Coin>)
    requires Inv(w) && id in w.snap.orders
    ensures Inv(StoreToken(w, id, token)) && StoreToken(w, id, token).tags == w.tags
  {
    hide Inv, Order.Valid, OrdersKeep, TokensKeep;
    var taken := w.snap.orders[id].(state := PayloadReceived, incomingToken := Some(token));
    if taken.Valid() { TokenTaken(w, id, taken); } else { OrderLabel(w, id, OrderRecoverable); }
  }

  lemma KeepsAcceptRead(w: World, id: nat, payload: Payload, wellformed: bool, sameMint: bool, locks: map<nat, nat>)
    requires Inv(w) && id in w.snap.orders
    ensures var v := AcceptRead(w, id, payload, wellformed, sameMint, locks); Inv(v) && TagsGrow(w.tags, v.tags)
  {
    hide Inv, TagsGrow, OrdersKeep, TokensKeep, Secrets, StoreToken;
    TagsStay(w.tags);
    if !wellformed || payload.proofs == [] {
      OrderLabel(w, id, OrderRecoverable);
    } else if payload.orderId != id || !sameMint {
      OrderLabel(w, id, Rejected);
    } else {
      var w1 := w.(tags := Foreign(w.tags, Secrets(payload.proofs), locks));
      KeepsMoreTags(w, w1.tags);
      KeepsStoreToken(w1, id, payload.proofs);
    }
  }

  lemma TokenTaken(w: World, id: nat, o: Order)
    requires Inv(w) && id in w.snap.orders && o.Valid()
    requires o == w.snap.orders[id].(state := o.state, incomingToken := o.incomingToken)
    ensures Inv(Go(w.(snap := w.snap.(orders := w.snap.orders[id := o])), AckCall(id)))
  {
    assert OrderOk(w.mint, w.tags, id, w.snap.orders[id]);
    RelabelOrder(w, id, o, AckCall(id));
  }

  lemma KeepsFinishRead(w: World, answer: ReadAnswer, now: nat)
    requires Inv(w)
    ensures Inv(FinishRead(w, answer, now)) && TagsGrow(w.tags, FinishRead(w, answer, now).tags)
  {
    hide Inv, TagsGrow, AcceptRead;
    TagsStay(w.tags);
    if w.task.ReadCall? && w.task.id in w.snap.orders && w.snap.orders[w.task.id].readCapability.Some? {
      var id, o := w.task.id, w.snap.orders[w.task.id];
      KeepsTryOrder(w, id, Expired(o), Idle);
      KeepsIdle(w);
      match answer
      case Empty =>
      case ReadFailed(gone) => OrderLabel(w, id, OrderRecoverable);
      case Got(payload, wellformed, sameMint, locks) => KeepsAcceptRead(w, id, payload, wellformed, sameMint, locks);
    }
  }

  lemma KeepsIdle(w: World)
    requires Inv(w)
    ensures Inv(Go(w, Idle))
  {
    Retask(w, Idle);
  }

  // ---- melts ----

  lemma KeepsSendMelt(w: World)
    requires Inv(w)
    ensures Inv(SendMelt(w))
  {
    hide PaymentsOk, OrdersOk, AddsOk, OutsOk, NothingLost, AllClosed, ProofsOk, TagsOk, CreditsOk, ReviewsOk, WireOk, PledgesOk,
      SentOk, MeltsKnown, KeysOk, OutsKeep;
    var v := SendMelt(w);
    if v != w {
      OutAt(w, w.task.id);
      RequestSent(w.mint, w.snap.cashOut, w.wire, w.task.id);
    }
  }

  lemma RequestSent(m: Mint, outs: map<nat, CashOut>, wire: set<MeltRequest>, id: nat)
    requires WireOk(m, outs, wire) && id in outs && outs[id].reserved.Some? && outs[id].reserved.value != [] && outs[id].blanks.Some?
    ensures WireOk(m, outs, wire + {MeltRequest(outs[id].quote, outs[id].reserved.value, outs[id].blanks.value, outs[id].inputFee)})
  {
    assert Requests(outs[id], MeltRequest(outs[id].quote, outs[id].reserved.value, outs[id].blanks.value, outs[id].inputFee));
  }

  /** The melt over exactly these proofs is all that ever happens to the quote. */
  predicate OwnState(st: MeltState, r: seq<Coin>) { st.Unpaid? || MeltOver(st, r) }

  /** A melt quote that is not yet paid changes state, within the secrets of its cash-out. */
  predicate MeltMove(m: Mint, tags: map<nat, Tag>, n: Mint, id: nat, o: CashOut) {
    && o.quote in m.meltQuotes && !m.meltQuotes[o.quote].state.Paid? && OutOk(n, tags, id, o) && o.reserved.Some?
    && Needs(n) == Needs(m) && m.spent <= n.spent
    && Confined(m, tags, n, tags, {Out(id)}) && MeltsSame(m, n, Some(o.quote))
    && n.mintQuotes == m.mintQuotes && n.meltQuotes.Keys == m.meltQuotes.Keys && m.ours <= n.ours
    && OwnState(m.meltQuotes[o.quote].state, o.reserved.value) && OwnState(n.meltQuotes[o.quote].state, o.reserved.value)
    && (n.meltQuotes[o.quote].state.Pending? ==> Melts(o, o.quote, n.meltQuotes[o.quote].state))
    && (forall s :: s in n.ours - m.ours ==> s in tags && tags[s].owner == Out(id) && s in OutFootprint(o))
    && (forall s :: s in n.signed && s !in m.signed ==> s in n.ours)
  }

  lemma LandOwn(m: Mint, tags: map<nat, Tag>, id: nat, o: CashOut, r: MeltRequest)
    requires OutOk(m, tags, id, o) && CanLand(m, r) && r.inputs != [] && Requests(o, r)
    ensures MeltMove(m, tags, ApplyLand(m, r), id, o)
  {
    assert r.inputs[0].secret in Secrets(r.inputs) && m.Spendable(r.inputs[0]);
    var n := ApplyLand(m, r);
    forall s | s in tags && tags[s].owner != Out(id) ensures SameAt(m, tags, n, tags, s) { assert s !in Secrets(r.inputs); }
  }

  lemma LandedRequest(m: Mint, tags: map<nat, Tag>, outs: map<nat, CashOut>, r: MeltRequest) returns (id: nat)
    requires RequestOk(m, outs, r) && OutsOk(m, tags, outs) && CanLand(m, r)
    ensures id in outs && Requests(outs[id], r) && OutOk(m, tags, id, outs[id])
  {
    assert r.inputs[0] in r.inputs && r.inputs[0].secret in Secrets(r.inputs) && m.Spendable(r.inputs[0]);
    id :| id in outs && Requests(outs[id], r);
    assert OutOk(m, tags, id, outs[id]);
  }

  lemma KeepsLandMelt(w: World, r: MeltRequest)
    requires Inv(w)
    ensures Inv(LandMelt(w, r))
  {
    hide PaymentsOk, OrdersOk, AddsOk, NothingLost, AllClosed, ProofsOk, TagsOk, CreditsOk, ReviewsOk, PledgesOk, SentOk, MeltsKnown,
      KeysOk, OutsOk, MeltMove, OutOk;
    if r in w.wire && CanLand(w.mint, r) {
      var id := LandedRequest(w.mint, w.tags, w.snap.cashOut, r);
      LandOwn(w.mint, w.tags, id, w.snap.cashOut[id], r);
      LandKeepsBooks(w.mint, r);
      MeltMoves(w, ApplyLand(w.mint, r), id);
    }
  }

  /** Another cash-out under the same quote is as little melted as before. */
  lemma RivalKept(m: Mint, tags: map<nat, Tag>, n: Mint, outs: map<nat, CashOut>, id: nat, k: nat)
    requires OutsOk(m, tags, outs) && id in outs && k in outs && k != id && outs[k].quote == outs[id].quote
    requires MeltMove(m, tags, n, id, outs[id])
    ensures OutOk(n, tags, k, outs[k])
  {
    var p, o := outs[k], outs[id];
    assert OutOk(m, tags, k, p);
    if p.reserved.Some? {
      assert p.reserved.value[0].secret in Secrets(p.reserved.value);
      assert p.reserved.value != o.reserved.value;
      ReservationFrame(m, tags, n, tags, {Out(id)}, k, p.recovery, p.reserved.value, p.blanks.value, Unpaid);
    }
  }

  lemma MeltTask(m: Mint, n: Mint, snap: Snapshot, task: Task, quote: nat)
    requires TaskOk(m, snap, task) && m.signed.Keys <= n.signed.Keys && MeltsSame(m, n, Some(quote))
      && quote in m.meltQuotes && !m.meltQuotes[quote].state.Paid?
    ensures TaskOk(n, snap, task)
  {
  }

  lemma MeltIsMintMove(m: Mint, tags: map<nat, Tag>, n: Mint, snap: Snapshot, task: Task, id: nat)
    requires TagsOk(m, tags) && NothingLost(m, tags, snap) && MeltsKnown(m.meltQuotes, snap.cashOut)
      && TaskOk(m, snap, task)
    requires OutsOk(m, tags, snap.cashOut) && id in snap.cashOut && MeltMove(m, tags, n, id, snap.cashOut[id])
    ensures MintMove(m, tags, n, tags, snap, task, {Out(id)}, Some(snap.cashOut[id].quote))
  {
    hide OutOk, TaskOk, NothingLost, TagsOk, MeltsKnown, TouchedOk;
    MeltTask(m, n, snap, task, snap.cashOut[id].quote);
    MeltLost(m, tags, n, snap, id);
    MeltSides(m, tags, n, snap.cashOut, id);
    MeltTouched(m, tags, n, snap, id);
  }

  lemma MeltSides(m: Mint, tags: map<nat, Tag>, n: Mint, outs: map<nat, CashOut>, id: nat)
    requires TagsOk(m, tags) && MeltsKnown(m.meltQuotes, outs) && OutsOk(m, tags, outs)
    requires id in outs && MeltMove(m, tags, n, id, outs[id])
    ensures TagsOk(n, tags) && MeltsKnown(n.meltQuotes, outs) && PaidStays(m, n)
  {
    assert OutOk(m, tags, id, outs[id]);
    hide OutOk;
    forall q | q in n.meltQuotes && n.meltQuotes[q].state.Pending? ensures Melting(outs, q, n.meltQuotes[q].state) {
      if q != outs[id].quote { assert Melting(outs, q, m.meltQuotes[q].state); }
    }
  }

  lemma MeltTouched(m: Mint, tags: map<nat, Tag>, n: Mint, snap: Snapshot, id: nat)
    requires OutsOk(m, tags, snap.cashOut) && id in snap.cashOut && MeltMove(m, tags, n, id, snap.cashOut[id])
    ensures TouchedOk(n, tags, snap, {Out(id)}, Some(snap.cashOut[id].quote))
  {
    forall k | k in snap.cashOut && snap.cashOut[k].quote == snap.cashOut[id].quote && k != id ensures OutOk(n, tags, k, snap.cashOut[k]) {
      RivalKept(m, tags, n, snap.cashOut, id, k);
    }
    hide OutOk;
  }

  lemma MeltLost(m: Mint, tags: map<nat, Tag>, n: Mint, snap: Snapshot, id: nat)
    requires NothingLost(m, tags, snap) && id in snap.cashOut && MeltMove(m, tags, n, id, snap.cashOut[id])
    ensures NothingLost(n, tags, snap)
  {
    hide OutOk;
    forall s | s in n.LiveOurs() ensures s in tags && Recorded(snap, tags[s].owner, s) {
      if s in m.ours { assert s in tags ==> tags[s].owner == Out(id) || SameAt(m, tags, n, tags, s); assert s in m.LiveOurs() || s in m.spent; }
    }
  }

  lemma MeltMoves(w: World, n: Mint, id: nat)
    requires Inv(w) && n.Ok() && id in w.snap.cashOut && MeltMove(w.mint, w.tags, n, id, w.snap.cashOut[id])
    ensures Inv(w.(mint := n))
  {
    hide MeltMove, MintMove;
    MeltIsMintMove(w.mint, w.tags, n, w.snap, w.task, id);
    hide Inv;
    MintStep(w, n, w.tags, {Out(id)}, Some(w.snap.cashOut[id].quote));
    assert w.(mint := n, tags := w.tags) == w.(mint := n);
  }

  lemma PaidOut(m: Mint, tags: map<nat, Tag>, id: nat, o: CashOut, change: seq<Coin>)
    requires OutOk(m, tags, id, o) && o.reserved.Some? && CanPay(m, o.quote, change) && Melts(o, o.quote, m.meltQuotes[o.quote].state)
    requires m.spent + m.locked <= m.signed.Keys
    ensures OutOk(ApplyPay(m, o.quote, change), tags, id, o)
  {
    var n := ApplyPay(m, o.quote, change);
    SignedAfter(m.signed, change);
    ChangeIsBlank(o.blanks.value, change);
    forall c | c in change ensures n.Spendable(c) && c.secret in n.ours { assert c.secret in Secrets(change); }
  }

  lemma PayOwn(m: Mint, tags: map<nat, Tag>, id: nat, o: CashOut, change: seq<Coin>)
    requires OutOk(m, tags, id, o) && o.reserved.Some? && CanPay(m, o.quote, change) && Melts(o, o.quote, m.meltQuotes[o.quote].state)
    requires m.ours <= m.signed.Keys && m.spent + m.locked <= m.signed.Keys
    ensures MeltMove(m, tags, ApplyPay(m, o.quote, change), id, o)
  {
    PaidOut(m, tags, id, o, change);
    SignedAfter(m.signed, change);
    ChangeIsBlank(o.blanks.value, change);
    assert Tagged(tags, Secrets(o.reserved.value), Tag(Out(id), true)) && Tagged(tags, Blanks(o.blanks.value), Tag(Out(id), false));
    hide OutOk, Unblinds, Distinct, Positive, Total;
    forall s | s in tags && tags[s].owner != Out(id) ensures SameAt(m, tags, ApplyPay(m, o.quote, change), tags, s) {
      assert s !in Secrets(o.reserved.value) && s !in Secrets(change);
    }
  }

  lemma PendingOwner(w: World, quote: nat) returns (id: nat)
    requires Inv(w) && quote in w.mint.meltQuotes && w.mint.meltQuotes[quote].state.Pending?
    ensures id in w.snap.cashOut && Melts(w.snap.cashOut[id], quote, w.mint.meltQuotes[quote].state)
      && OutOk(w.mint, w.tags, id, w.snap.cashOut[id])
  {
    assert Melting(w.snap.cashOut, quote, w.mint.meltQuotes[quote].state);
    id :| id in w.snap.cashOut && Melts(w.snap.cashOut[id], quote, w.mint.meltQuotes[quote].state);
    OutAt(w, id);
    hide Inv, OutOk;
  }

  lemma KeepsPayMelt(w: World, quote: nat, change: seq<Coin>)
    requires Inv(w)
    ensures Inv(PayMelt(w, quote, change))
  {
    hide MeltMove;
    if CanPay(w.mint, quote, change) {
      var id := PendingOwner(w, quote);
      PayOwn(w.mint, w.tags, id, w.snap.cashOut[id], change);
      PayKeepsBooks(w.mint, quote, change);
      hide AddOk, PaymentOk, OrderOk, OutOk, RequestOk, ReviewOk, StillSent, Credited;
      MeltMoves(w, ApplyPay(w.mint, quote, change), id);
    }
  }

  lemma FailOwn(m: Mint, tags: map<nat, Tag>, id: nat, o: CashOut)
    requires OutOk(m, tags, id, o) && o.reserved.Some? && Melts(o, o.quote, m.meltQuotes[o.quote].state) && m.MeltsOk()
      && m.locked <= m.signed.Keys - m.spent
    ensures MeltMove(m, tags, ApplyFail(m, o.quote), id, o)
  {
    var n := ApplyFail(m, o.quote);
    var r := o.reserved.value;
    forall c | c in r ensures n.Spendable(c) && c.secret in n.ours { assert c.secret in Secrets(r); }
    forall s | s in tags && tags[s].owner != Out(id) ensures SameAt(m, tags, n, tags, s) { assert s !in Secrets(r); }
  }

  lemma KeepsFailMelt(w: World, quote: nat)
    requires Inv(w)
    ensures Inv(FailMelt(w, quote))
  {
    hide MeltMove;
    if quote in w.mint.meltQuotes && w.mint.meltQuotes[quote].state.Pending? {
      var id := PendingOwner(w, quote);
      FailOwn(w.mint, w.tags, id, w.snap.cashOut[id]);
      FailKeepsBooks(w.mint, quote);
      hide AddOk, PaymentOk, OrderOk, OutOk, RequestOk, ReviewOk, StillSent, Credited;
      MeltMoves(w, ApplyFail(w.mint, quote), id);
    }
  }

  // ---- other people ----

  /** The owners, among strangers, of secrets seen before. */
  function Strangers(tags: map<nat, Tag>, ss: set<nat>): set<Owner> {
    set s | s in ss && s in tags && tags[s].owner.Vendor? :: tags[s].owner
  }

  lemma ForeignSigned(m: Mint, tags: map<nat, Tag>, coins: seq<Coin>, locks: map<nat, nat>)
    requires TagsOk(m, tags) && Distinct(coins) && m.Unsigned(Secrets(coins))
    requires forall c :: c in coins ==> c.secret !in tags || tags[c.secret].owner.Vendor?
    ensures var n, tags' := SignForeign(m, coins), Foreign(tags, Secrets(coins), locks);
      && TagsOk(n, tags') && Confined(m, tags, n, tags', Strangers(tags, Secrets(coins))) && TagsGrow(tags, tags') && m.signed.Keys <= n.signed.Keys
      && forall s :: s in tags ==> tags'[s] == tags[s]
  {
    SignedAfter(m.signed, coins);
    var n, tags' := SignForeign(m, coins), Foreign(tags, Secrets(coins), locks);
    forall s | s in tags && tags[s].owner !in Strangers(tags, Secrets(coins)) ensures SameAt(m, tags, n, tags', s) { assert s !in Secrets(coins); }
    forall s | s in n.signed && s !in n.ours ensures s in tags' && (tags'[s].owner.Vendor? || tags'[s].owner.Sent?) {
      if s in Secrets(coins) && s in tags { var c :| c in coins && c.secret == s; }
    }
  }

  lemma SignMove(m: Mint, tags: map<nat, Tag>, snap: Snapshot, task: Task, coins: seq<Coin>, locks: map<nat, nat>)
    requires TagsOk(m, tags) && NothingLost(m, tags, snap) && MeltsKnown(m.meltQuotes, snap.cashOut)
      && TaskOk(m, snap, task)
    requires Distinct(coins) && m.Unsigned(Secrets(coins)) && forall c :: c in coins ==> c.secret !in tags || tags[c.secret].owner.Vendor?
    ensures MintMove(m, tags, SignForeign(m, coins), Foreign(tags, Secrets(coins), locks), snap, task, Strangers(tags, Secrets(coins)), None)
  {
    hide NothingLost, TaskOk, TagsOk, Confined, TagsGrow, TouchedOk, MeltsKnown, Foreign, Secrets, Distinct, Mint.Unsigned;
    ForeignSigned(m, tags, coins, locks);
    SignTask(m, snap, task, coins);
    SignLost(m, tags, snap, coins, locks);
    NothingTouched(SignForeign(m, coins), Foreign(tags, Secrets(coins), locks), snap, Strangers(tags, Secrets(coins)));
  }

  lemma NothingTouched(n: Mint, tags: map<nat, Tag>, snap: Snapshot, touched: set<Owner>)
    requires forall o :: o in touched ==> o.Vendor?
    ensures TouchedOk(n, tags, snap, touched, None)
  {
  }

  lemma SignLost(m: Mint, tags: map<nat, Tag>, snap: Snapshot, coins: seq<Coin>, locks: map<nat, nat>)
    requires NothingLost(m, tags, snap)
    ensures NothingLost(SignForeign(m, coins), Foreign(tags, Secrets(coins), locks), snap)
  {
    hide Recorded;
    assert SignForeign(m, coins).LiveOurs() == m.LiveOurs();
  }

  lemma SignTask(m: Mint, snap: Snapshot, task: Task, coins: seq<Coin>)
    requires TaskOk(m, snap, task)
    ensures TaskOk(SignForeign(m, coins), snap, task)
  {
  }

  lemma KeepsOthersSign(w: World, coins: seq<Coin>, locks: map<nat, nat>)
    requires Inv(w)
    ensures Inv(OthersSign(w, coins, locks)) && TagsGrow(w.tags, OthersSign(w, coins, locks).tags)
  {
    var v := OthersSign(w, coins, locks);
    hide MintMove;
    if v != w {
      ForeignSigned(w.mint, w.tags, coins, locks);
      ForeignKeepsBooks(w.mint, coins, {});
      SignMove(w.mint, w.tags, w.snap, w.task, coins, locks);
      KeepsMintStep(w, v.mint, v.tags, Strangers(w.tags, Secrets(coins)), v);
    }
  }

  lemma KeepsMintStep(w: World, n: Mint, tags': map<nat, Tag>, touched: set<Owner>, v: World)
    requires Inv(w) && n.Ok() && MintMove(w.mint, w.tags, n, tags', w.snap, w.task, touched, None)
    requires v == w.(mint := n, tags := tags')
    ensures Inv(v)
  {
    hide Inv, MintMove;
    MintStep(w, n, tags', touched, None);
  }

  lemma SpendMove(m: Mint, tags: map<nat, Tag>, snap: Snapshot, task: Task, ss: set<nat>)
    requires TagsOk(m, tags) && NothingLost(m, tags, snap) && MeltsKnown(m.meltQuotes, snap.cashOut)
      && TaskOk(m, snap, task)
    requires ss <= m.signed.Keys - m.ours - m.locked
    ensures MintMove(m, tags, SpendForeign(m, ss), tags, snap, task, {}, None)
  {
    hide NothingLost, TaskOk, TagsOk, Confined, TouchedOk, MeltsKnown;
    SpendParts(m, tags, snap, task, ss);
    SpendConfined(m, tags, ss);
    NothingTouched(SpendForeign(m, ss), tags, snap, {});
  }

  lemma SpendParts(m: Mint, tags: map<nat, Tag>, snap: Snapshot, task: Task, ss: set<nat>)
    requires TagsOk(m, tags) && NothingLost(m, tags, snap) && TaskOk(m, snap, task) && ss !! m.ours
    ensures TagsOk(SpendForeign(m, ss), tags) && NothingLost(SpendForeign(m, ss), tags, snap)
      && TaskOk(SpendForeign(m, ss), snap, task)
  {
    hide Recorded;
    assert SpendForeign(m, ss).LiveOurs() == m.LiveOurs();
  }

  lemma SpendConfined(m: Mint, tags: map<nat, Tag>, ss: set<nat>)
    requires ss !! m.ours
    ensures Confined(m, tags, SpendForeign(m, ss), tags, {})
  {
  }

  lemma KeepsOthersSpend(w: World, ss: set<nat>)
    requires Inv(w)
    ensures Inv(OthersSpend(w, ss))
  {
    var v := OthersSpend(w, ss);
    hide MintMove;
    if v != w {
      ForeignKeepsBooks(w.mint, [], ss);
      SpendMove(w.mint, w.tags, w.snap, w.task, ss);
      KeepsMintStep(w, v.mint, v.tags, {}, v);
    }
  }
}
