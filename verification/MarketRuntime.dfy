/** The market runtime as an object. Its methods run from one await to the next: they rebuild one
    record, commit it through the validator, and send or answer one remote call. Every method is
    exactly its step of the machine, so whatever holds over all runs holds of the object. Every
    method also says how many of its commits the validator refuses: none, except the check of
    `CheckRefused`, the payload of `PayloadRefused`, and the cancellation of an order without a key
    pair or with a token it has already received. */
module MarketRuntimes {
  import opened Ecash
  import opened MintLedger
  import opened MarketRecords
  import opened MarketSteps
  import opened MarketInvariant
  import opened MarketFrames
  import opened MarketRuns
  import opened MarketHistory
  import opened MarketLaws
  import opened MarketTheorems
  import opened MarketSafety
  import MarketStorage

  /** The next event of a run: what it stores loads again. */
  lemma Next(es: seq<Event>, e: Event)
    ensures Run(START, es + [e]) == Step(Run(START, es), e)
    ensures Inv(Run(START, es)) && TaskOk(Run(START, es).mint, Run(START, es).snap, Run(START, es).task)
    ensures ValidSnapshot(Run(START, es).snap) && ValidSnapshot(Step(Run(START, es), e).snap)
  {
    hide Step, ValidSnapshot, TaskOk, PaymentsOk, OrdersOk, AddsOk, OutsOk, ProofsOk, TagsOk, NothingLost, AllClosed, CreditsOk, SentOk,
      ReviewsOk, WireOk, MeltsKnown, PledgesOk, KeysOk, Mint.Ok;
    assert (es + [e])[..|es + [e]| - 1] == es;
    Reached(es);
    SnapshotsLoad(es);
    SnapshotsLoad(es + [e]);
  }

  /** Among valid snapshots a commit of one order is refused exactly when the order is malformed. */
  lemma OrderCommits(s: Snapshot, id: nat, o: Order)
    requires ValidSnapshot(s)
    ensures ValidSnapshot(s.(orders := s.orders[id := o])) <==> o.Valid()
  {
    var t := s.(orders := s.orders[id := o]);
    assert id in t.orders && t.orders[id] == o;
  }

  /** The order already holds a token or a swap, so it cannot be recorded as cancelled. */
  predicate Received(o: Order) { o.incomingToken.Some? || o.incomingSwap.Some? }

  lemma RecoverableCommits(s: Snapshot, id: nat)
    requires ValidSnapshot(s) && id in s.orders
    ensures s.orders[id].Valid() && ValidSnapshot(s.(orders := s.orders[id := s.orders[id].(state := OrderRecoverable)]))
  {
    OrderCommits(s, id, s.orders[id].(state := OrderRecoverable));
  }

  lemma IssuableQuote(m: Mint, quote: nat, outputs: seq<Coin>)
    requires CanIssue(m, quote, outputs)
    ensures quote in m.mintQuotes
  {
  }

  /** The same for one payment that keeps its swap. */
  lemma PaymentCommits(s: Snapshot, id: nat, p: Payment)
    requires ValidSnapshot(s) && id in s.payments && p.swap == s.payments[id].swap
    ensures ValidSnapshot(s.(payments := s.payments[id := p])) <==> p.Valid()
  {
    var t := s.(payments := s.payments[id := p]);
    assert id in t.payments && t.payments[id] == p;
  }

  /** The one answer to a check that cannot be recorded: the token is unspent or pending after a
      repeated delivery was refused for good. */
  predicate CheckRefused(s: Snapshot, id: nat, answer: TokenState) {
    && id in s.payments && s.payments[id].token.Some? && answer in {AllUnspent, AllPending}
    && s.payments[id].deliveryRetryable == Some(false) && s.payments[id].deliveredAt.Some?
  }

  /** What a check makes of a payment: spent tokens are dropped with everything that could deliver them
      again; an unspent or pending one is labelled so, unless the relay refused its delivery for good,
      and an unclear answer leaves it recoverable. */
  predicate Checked(p: Payment, q: Payment, answer: TokenState) {
    match answer
    case AllSpent => q == p.(state := TokenSpent, token := None, payload := None, request := None, deliveryUrl := None, deliveryRetryable := None)
    case AllUnspent => q == if p.deliveryRetryable != Some(false) then p.(state := TokenUnspent) else if p.deliveredAt.None? then p else p.(state := PaymentRecoverable)
    case AllPending => q == if p.deliveryRetryable != Some(false) then p.(state := TokenPending) else if p.deliveredAt.None? then p else p.(state := PaymentRecoverable)
    case _ => q == p.(state := PaymentRecoverable)
  }

  lemma CheckedAs(s: Snapshot, id: nat, answer: TokenState)
    requires id in s.payments && s.payments[id].token.Some?
    ensures Checked(s.payments[id], if CheckRefused(s, id, answer) then s.payments[id].(state := PaymentRecoverable) else CheckedPayment(s.payments[id], answer), answer)
  {
  }

  lemma RecoverablePayment(p: Payment)
    requires p.Valid() && p.CompleteDelivery()
    ensures p.(state := PaymentRecoverable).Valid()
  {
  }

  lemma CheckRecord(w: World, id: nat, answer: TokenState, next: Payment, failed: Payment)
    requires w.task.Idle? && id in w.snap.payments && w.snap.payments[id].token.Some?
    requires next == CheckedPayment(w.snap.payments[id], answer) && failed == w.snap.payments[id].(state := PaymentRecoverable)
    ensures var v := Step(w, OfPayment(CheckPay(id, answer)));
      && Beside(w, v) && v.task.Idle? && v.snap == w.snap.(payments := w.snap.payments[id := if next.Valid() then next else failed])
  {
    hide CheckedPayment, Payment.Valid, PaymentOnly, AddStep, OutStep, OrderStep, SettleStep, MarketRuns.MintStep, CallSwap, RestoreSwap;
  }

  lemma CheckNothing(w: World, id: nat, answer: TokenState)
    ensures !(w.task.Idle? && id in w.snap.payments && w.snap.payments[id].token.Some?) ==> Step(w, OfPayment(CheckPay(id, answer))) == w
  {
    hide PaymentOnly, AddStep, OutStep, OrderStep, SettleStep, MarketRuns.MintStep, CallSwap, RestoreSwap;
  }

  lemma PaymentAtRest(w: World, id: nat)
    requires Inv(w) && id in w.snap.payments && w.snap.payments[id].token.Some?
    ensures var p := w.snap.payments[id]; p.Valid() && p.CompleteDelivery() && p.swap.None?
  {
    PaymentAt(w, id);
    hide Inv;
  }

  /** The library drew outputs for the whole amount of a charge. */
  predicate Drawn(w: World, id: nat, outputs: seq<Coin>) {
    && id in w.snap.addCash && Distinct(outputs) && Positive(outputs) && outputs != [] && Total(outputs) == w.snap.addCash[id].amount
    && Fresh(w, Secrets(outputs))
  }

  /** A step that changes nothing but the snapshot, the tags and the operation in flight. */
  predicate Beside(w: World, v: World) { v.reviews == w.reviews && v.mint == w.mint && v.wire == w.wire }

  lemma PreparedRecord(w: World, id: nat, outputs: seq<Coin>, stored: AddCash, failed: AddCash)
    requires w.task == AddObserved(id) && id in w.snap.addCash
    requires stored == w.snap.addCash[id].(state := Issuing, outputs := Some(outputs), hasQuoteKey := false)
      && failed == w.snap.addCash[id].(state := AddRecoverable)
    ensures var a, v := w.snap.addCash[id], PrepareAdd(w, outputs);
      && Beside(w, v)
      && (a.outputs.Some? ==> v.snap == w.snap && v.task == IssueCall(id))
      && (a.outputs.None? && ((a.fromFaucet && !a.hasQuoteKey) || !Drawn(w, id, outputs)) ==>
            v.snap == w.snap.(addCash := w.snap.addCash[id := failed]) && v.task.Idle?)
      && (a.outputs.None? && !(a.fromFaucet && !a.hasQuoteKey) && Drawn(w, id, outputs) ==>
            v.snap == w.snap.(addCash := w.snap.addCash[id := stored]) && v.task == IssueCall(id))
  {
    hide AddOnly, Retag, Secrets, Distinct, Positive, Fresh, Total;
  }

  lemma OutCommits(w: World, id: nat, o: CashOut, coins: seq<Coin>)
    requires id in w.snap.cashOut && OutKeeps(w.snap.cashOut[id], o)
    ensures StoreOut(w, id, o).snap == w.snap.(cashOut := w.snap.cashOut[id := o]) && Beside(w, StoreOut(w, id, o))
    ensures ReleaseOut(w, id, o, coins).snap == w.snap.(proofs := w.snap.proofs + coins, cashOut := w.snap.cashOut[id := o])
      && Beside(w, ReleaseOut(w, id, o, coins))
  {
    hide OutOnly, OutsKeep, OutKeeps, Retag, Secrets;
  }

  lemma LabelCommits(w: World, id: nat, state: OrderState, next: Task, o: Order)
    requires id in w.snap.orders && o == w.snap.orders[id].(state := state)
    ensures LabelOrder(w, id, state, next).snap == w.snap.(orders := w.snap.orders[id := o]) && LabelOrder(w, id, state, next).task == next
    ensures Beside(w, LabelOrder(w, id, state, next))
  {
    hide OrderOnly, OrdersKeep, TokensKeep;
  }

  lemma TakenRecord(w: World, id: nat, change: seq<Coin>, stored: seq<nat>, unknown: CashOut, paid: CashOut)
    requires id in w.snap.cashOut && stored == (if w.snap.cashOut[id].blanks.Some? then w.snap.cashOut[id].blanks.value else [])
    requires unknown == w.snap.cashOut[id].(state := OutUnknown) && paid == PaidRecord(w.snap.cashOut[id])
      && OutKeeps(w.snap.cashOut[id], unknown) && OutKeeps(w.snap.cashOut[id], paid)
    ensures TakeChange(w, id, change)
         == if (change != [] && stored == []) || !Unblinds(stored, change) then StoreOut(w, id, unknown) else ReleaseOut(w, id, paid, change)
  {
    hide StoreOut, ReleaseOut, Unblinds, OutKeeps;
  }

  /** Which function of the machine four of the events are. */
  lemma EventSteps(w: World, answer: ReadAnswer, now: nat, malformed: bool, sameMint: bool, locked: bool)
    ensures Step(w, OfCashOut(EndMelt)) == MarketSteps.FinishMelt(w) && Step(w, OfCashOut(ActOut)) == ActOnQuote(w)
    ensures Step(w, OfOrder(Read(answer, now))) == FinishRead(w, answer, now)
    ensures Step(w, OfSettle(Settle(malformed, sameMint, locked))) == StartSettle(w, malformed, sameMint, locked)
  {
    hide MarketSteps.FinishMelt, ActOnQuote, FinishRead, StartSettle, PayStep, AddStep, MarketRuns.MintStep, CallSwap, RestoreSwap;
  }

  lemma PreparedStep(w: World, sw: Swap)
    ensures Step(w, OfSettle(ReadySettle(sw))) == PrepareSettle(w, sw)
  {
    hide PrepareSettle, PayStep, AddStep, MarketRuns.MintStep, CallSwap, RestoreSwap;
  }

  lemma MeltingOut(m: Mint, s: Snapshot, id: nat, seen: Option<MeltState>)
    requires TaskOk(m, s, MeltSeen(id, seen))
    ensures id in s.cashOut && s.cashOut[id].recovery.None?
  {
  }

  lemma MeltRecord(w: World, id: nat, seen: Option<MeltState>, o: CashOut, unknown: CashOut, waiting: CashOut, unpaid: CashOut, paid: CashOut)
    requires w.task == MeltSeen(id, seen) && id in w.snap.cashOut && o == w.snap.cashOut[id]
    requires unknown == o.(state := OutUnknown) && waiting == o.(state := OutPending, quoteState := QuotePending)
      && unpaid == o.(state := OutUnknown, quoteState := QuoteUnpaid)
      && paid == o.(state := OutPaid, quoteState := QuoteLabel.QuotePaid, reserved := None, blanks := None)
    ensures var v := MarketSteps.FinishMelt(w);
      && Beside(w, v) && v.task.Idle?
      && (seen.None? ==> v.snap == w.snap.(cashOut := w.snap.cashOut[id := unknown]))
      && (seen.Some? && seen.value.Pending? ==> v.snap == w.snap.(cashOut := w.snap.cashOut[id := waiting]))
      && (seen.Some? && seen.value.Unpaid? ==> v.snap == w.snap.(cashOut := w.snap.cashOut[id := unpaid]))
      && (seen.Some? && seen.value.Paid? ==>
            v.snap == w.snap.(proofs := w.snap.proofs + seen.value.change, cashOut := w.snap.cashOut[id := paid]))
  {
    OutCommits(w, id, unknown, []);
    OutCommits(w, id, waiting, []);
    OutCommits(w, id, unpaid, []);
    OutCommits(w, id, paid, if seen.Some? && seen.value.Paid? then seen.value.change else []);
    assert PaidRecord(o).(recovery := o.recovery) == paid;
    hide StoreOut, ReleaseOut;
  }

  lemma ActRecord(w: World, id: nat, found: MeltState, o: CashOut, unknown: CashOut, waiting: CashOut)
    requires w.task == OutSeen(id, found) && id in w.snap.cashOut && o == w.snap.cashOut[id]
    requires unknown == o.(state := OutUnknown) && waiting == o.(state := OutPending, quoteState := QuotePending)
    ensures var v := ActOnQuote(w);
      && (found.Paid? ==> v == TakeChange(w, id, found.change))
      && (found.Pending? ==> Beside(w, v) && v.snap == w.snap.(cashOut := w.snap.cashOut[id := waiting]))
      && (found.Unpaid? && (o.reserved.None? || o.reserved.value == []) ==> Beside(w, v) && v.snap == w.snap.(cashOut := w.snap.cashOut[id := unknown]))
      && (found.Unpaid? && !(o.reserved.None? || o.reserved.value == []) ==>
            Beside(w, v) && v.snap == w.snap && v.task == if o.recovery.None? then OutProofs(id) else SwapCall(RecoverJob(id)))
  {
    OutCommits(w, id, unknown, []);
    OutCommits(w, id, waiting, []);
    hide StoreOut, ReleaseOut, TakeChange;
  }

  /** The change of a paid melt is signed, in order, for the outputs the record stores. */
  predicate Fits(o: CashOut, change: seq<Coin>) {
    change == [] || (o.blanks.Some? && |change| <= |o.blanks.value| && forall i :: 0 <= i < |change| ==> change[i].secret == o.blanks.value[i])
  }

  /** A paid melt: change that fits comes in with the commit that drops the reservation; otherwise the
      record is kept for another look. */
  predicate Released(s: Snapshot, t: Snapshot, id: nat, change: seq<Coin>)
    requires id in s.cashOut
  {
    var o := s.cashOut[id];
    t == if Fits(o, change)
         then s.(proofs := s.proofs + change,
                 cashOut := s.cashOut[id := o.(state := OutPaid, quoteState := QuoteLabel.QuotePaid, reserved := None, blanks := None, recovery := None)])
         else s.(cashOut := s.cashOut[id := o.(state := OutUnknown)])
  }

  lemma TakenAs(w: World, id: nat, change: seq<Coin>)
    requires id in w.snap.cashOut
    ensures Released(w.snap, TakeChange(w, id, change).snap, id, change)
  {
    var o := w.snap.cashOut[id];
    var stored := if o.blanks.Some? then o.blanks.value else [];
    TakenRecord(w, id, change, stored, o.(state := OutUnknown), PaidRecord(o));
    OutCommits(w, id, o.(state := OutUnknown), []);
    OutCommits(w, id, PaidRecord(o), change);
    hide StoreOut, ReleaseOut, TakeChange;
  }

  lemma ReadingOrder(m: Mint, s: Snapshot, id: nat)
    requires TaskOk(m, s, ReadCall(id)) && id in s.orders
    ensures s.orders[id].incomingToken.None? && s.orders[id].incomingSwap.None?
  {
  }

  lemma ReadRecord(w: World, id: nat, answer: ReadAnswer, now: nat, failed: Order, expired: Order)
    requires w.task == ReadCall(id) && id in w.snap.orders && w.snap.orders[id].readCapability.Some?
    requires failed == w.snap.orders[id].(state := OrderRecoverable) && expired == Expired(w.snap.orders[id])
    requires w.snap.orders[id].incomingToken.None? && w.snap.orders[id].incomingSwap.None? && w.snap.orders[id].Valid()
    ensures var v, late := FinishRead(w, answer, now), w.snap.orders[id].expiresAt * 1000 <= now;
      && (answer.Got? ==> v == AcceptRead(w, id, answer.payload, answer.wellformed, answer.sameMint, answer.locks))
      && (!answer.Got? ==> Beside(w, v) && v.task.Idle?)
      && (answer.Empty? && !late ==> v.snap == w.snap)
      && ((answer.Empty? || (answer.ReadFailed? && answer.gone)) && late ==> v.snap == w.snap.(orders := w.snap.orders[id := expired]))
      && (answer.ReadFailed? && !(answer.gone && late) ==> v.snap == w.snap.(orders := w.snap.orders[id := failed]))
  {
    assert expired.Valid();
    hide AcceptRead, Order.Valid, OrderOnly, OrdersKeep, TokensKeep;
  }

  /** A fitting payload that cannot be kept: the order has given up its key pair, or holds a swap the
      validator refuses with it. */
  predicate PayloadRefused(s: Snapshot, id: nat, payload: Payload, wellformed: bool, sameMint: bool) {
    wellformed && payload.proofs != [] && payload.orderId == id && sameMint && id in s.orders && s.orders[id].keys.None?
  }

  lemma TakenOrder(w: World, id: nat, payload: Payload, wellformed: bool, sameMint: bool, locks: map<nat, nat>, taken: Order, failed: Order, refused: Order)
    requires id in w.snap.orders && taken == w.snap.orders[id].(state := PayloadReceived, incomingToken := Some(payload.proofs))
      && failed == w.snap.orders[id].(state := OrderRecoverable) && refused == w.snap.orders[id].(state := Rejected)
    ensures var v := AcceptRead(w, id, payload, wellformed, sameMint, locks);
      && Beside(w, v)
      && (!wellformed || payload.proofs == [] ==> v.snap == w.snap.(orders := w.snap.orders[id := failed]) && v.task.Idle?)
      && (wellformed && payload.proofs != [] && (payload.orderId != id || !sameMint) ==>
            v.snap == w.snap.(orders := w.snap.orders[id := refused]) && v.task.Idle?)
      && (wellformed && payload.proofs != [] && payload.orderId == id && sameMint ==>
            (taken.Valid() ==> v.snap == w.snap.(orders := w.snap.orders[id := taken]) && v.task == AckCall(id))
            && (!taken.Valid() ==> v.snap == w.snap.(orders := w.snap.orders[id := failed]) && v.task.Idle?))
  {
    hide Foreign, StoreToken, LabelOrder, Secrets, Order.Valid;
    var w1 := w.(tags := Foreign(w.tags, Secrets(payload.proofs), locks));
    TokenStored(w1, id, payload.proofs, taken);
    LabelCommits(w, id, OrderRecoverable, Idle, failed);
    LabelCommits(w1, id, OrderRecoverable, Idle, failed);
    LabelCommits(w, id, Rejected, Idle, refused);
  }

  /** What a payload makes of its order, and where the vendor goes from there: a fitting one is kept at
      once, unless the order has given up its keys, and the relay is told; a misfit is rejected. */
  predicate Taken(s: Snapshot, t: Snapshot, id: nat, payload: Payload, wellformed: bool, sameMint: bool, next: Task)
    requires id in s.orders
  {
    var o, sound, fits := s.orders[id], wellformed && payload.proofs != [], payload.orderId == id && sameMint;
    if sound && fits && o.keys.Some?
    then t == s.(orders := s.orders[id := o.(state := PayloadReceived, incomingToken := Some(payload.proofs))]) && next == AckCall(id)
    else t == s.(orders := s.orders[id := o.(state := if sound && !fits then Rejected else OrderRecoverable)]) && next.Idle?
  }

  /** What the end of a read makes of its order: without a payload it waits, expires once its time is over,
      or becomes recoverable when the relay could not say. */
  predicate ReadAs(s: Snapshot, t: Snapshot, id: nat, answer: ReadAnswer, now: nat, next: Task)
    requires id in s.orders
  {
    var o, late := s.orders[id], s.orders[id].expiresAt * 1000 <= now;
    match answer
    case Got(payload, wellformed, sameMint, _) => Taken(s, t, id, payload, wellformed, sameMint, next)
    case Empty => next.Idle? && t == if late then s.(orders := s.orders[id := o.(state := OrderExpired, keys := None, readCapability := None)]) else s
    case ReadFailed(gone) =>
      next.Idle? && t == s.(orders := s.orders[id :=
        if gone && late then o.(state := OrderExpired, keys := None, readCapability := None) else o.(state := OrderRecoverable)])
  }

  /** The stored token of an order, if it has one, is locked to the order's own key. */
  predicate TokenLocked(w: World, id: nat) {
    id in w.snap.orders && w.snap.orders[id].incomingToken.Some? && w.snap.orders[id].keys.Some? ==>
      LockedTo(w, w.snap.orders[id].keys.value.privateKey, w.snap.orders[id].incomingToken.value)
  }

  lemma SettleRecord(w: World, id: nat, malformed: bool, sameMint: bool, locked: bool, failed: Order, refused: Order, checked: Order)
    requires w.task == SettleStart(id) && id in w.snap.orders && (locked ==> TokenLocked(w, id))
    requires failed == w.snap.orders[id].(state := OrderRecoverable) && refused == w.snap.orders[id].(state := Rejected)
      && checked == w.snap.orders[id].(state := Validating)
    ensures var o, v := w.snap.orders[id], StartSettle(w, malformed, sameMint, locked);
      && Beside(w, v)
      && (o.incomingSwap.Some? ==> v.snap == w.snap && v.task == SwapCall(VendJob(id)))
      && (o.incomingSwap.None? && (o.incomingToken.None? || o.keys.None?) ==> v.snap == w.snap.(orders := w.snap.orders[id := failed]) && v.task.Idle?)
      && (o.incomingSwap.None? && o.incomingToken.Some? && o.keys.Some? ==>
            if malformed || !sameMint || Total(o.incomingToken.value) != o.amount || !locked
            then v.snap == w.snap.(orders := w.snap.orders[id := refused]) && v.task.Idle?
            else v.snap == w.snap.(orders := w.snap.orders[id := checked]) && v.task == TokenCheck(id))
  {
    hide LockedTo, Total, LabelOrder;
    LabelCommits(w, id, OrderRecoverable, Idle, failed);
    LabelCommits(w, id, Rejected, Idle, refused);
    LabelCommits(w, id, Validating, TokenCheck(id), checked);
  }

  /** The library drew a settlement swap over exactly the received proofs, which are locked to this order. */
  predicate SettleDrawn(w: World, id: nat, sw: Swap) {
    && id in w.snap.orders && w.snap.orders[id].incomingToken.Some? && w.snap.orders[id].keys.Some?
    && sw.inputs == w.snap.orders[id].incomingToken.value && LockedTo(w, w.snap.orders[id].keys.value.privateKey, sw.inputs) && ReceiveSwap(w, sw)
  }

  lemma SwapRecord(w: World, id: nat, sw: Swap, failed: Order, refused: Order, stored: Order)
    requires w.task == SwapPrepare(id) && id in w.snap.orders
      && w.snap.orders[id].incomingToken.Some? && w.snap.orders[id].incomingSwap.None? && w.snap.orders[id].keys.Some?
    requires failed == w.snap.orders[id].(state := OrderRecoverable) && refused == w.snap.orders[id].(state := Rejected)
      && stored == w.snap.orders[id].(state := Swapping, incomingSwap := Some(sw))
    ensures var o, v := w.snap.orders[id], PrepareSettle(w, sw);
      var prepared := SettleDrawn(w, id, sw);
      && Beside(w, v)
      && (!prepared ==> v.snap == w.snap.(orders := w.snap.orders[id := failed]) && v.task.Idle?)
      && (prepared && sw.amount != o.amount ==> v.snap == w.snap.(orders := w.snap.orders[id := refused]) && v.task.Idle?)
      && (prepared && sw.amount == o.amount ==> v.snap == w.snap.(orders := w.snap.orders[id := stored]) && v.task == SwapCall(VendJob(id)))
  {
    hide LockedTo, ReceiveSwap, LabelOrder, Retag, Secrets, OrdersKeep, TokensKeep;
    LabelCommits(w, id, OrderRecoverable, Idle, failed);
    LabelCommits(w, id, Rejected, Idle, refused);
  }

  /** Where a poll of this order goes: a settled order whose slot is not cleaned up is acknowledged again,
      a stored token or swap is settled, and otherwise the slot is read, if its capability is known. */
  predicate Polled(id: nat, o: Order, next: Task) {
    if o.state.OrderSettled? && !o.relayAcknowledged && o.readCapability.Some? then next == AckSettled(id)
    else if o.incomingToken.Some? || o.incomingSwap.Some? then next == SettleStart(id)
    else if o.readCapability.Some? then next == ReadCall(id)
    else next == Idle
  }

  class MarketRuntime {
    /** The stored snapshot, the reviews on screen, and the mint with the melt requests on their
        way to it. The log only records which steps were made. */
    var snap: Snapshot
    var reviews: map<nat, Review>
    var mint: Mint
    var wire: set<MeltRequest>
    ghost var log: seq<Event>
    /** How many commits the validator has refused. */
    ghost var refused: nat

    ghost function Now(): World
      reads this`log
    {
      Run(START, log)
    }

    ghost predicate Valid()
      reads this
    {
      snap == Now().snap && reviews == Now().reviews && mint == Now().mint && wire == Now().wire
    }

    constructor ()
      ensures Valid() && log == [] && refused == 0
    {
      snap := EMPTY_SNAPSHOT;
      reviews := map[];
      mint := EMPTY_MINT;
      wire := {};
      log := [];
      refused := 0;
    }

    // ---- commits ----

    method Save(next: Snapshot) returns (ok: bool)
      modifies this`snap, this`refused
      ensures ok == ValidSnapshot(next) && snap == (if ok then next else old(snap)) && refused == old(refused) + (if ok then 0 else 1)
    {
      ok := MarketStorage.NormalizeSnapshot(next);
      if ok { snap := next; } else { refused := refused + 1; }
    }

    method CommitPayment(id: nat, payment: Payment, proofs: Option<seq<Coin>>) returns (ok: bool)
      modifies this`snap, this`refused
      ensures var next := old(snap).(proofs := if proofs.Some? then proofs.value else old(snap).proofs, payments := old(snap).payments[id := payment]);
        ok == ValidSnapshot(next) && snap == (if ok then next else old(snap)) && refused == old(refused) + (if ok then 0 else 1)
    {
      ok := Save(snap.(proofs := if proofs.Some? then proofs.value else snap.proofs, payments := snap.payments[id := payment]));
    }

    method CommitOrder(id: nat, order: Order, proofs: Option<seq<Coin>>) returns (ok: bool)
      modifies this`snap, this`refused
      ensures var next := old(snap).(proofs := if proofs.Some? then proofs.value else old(snap).proofs, orders := old(snap).orders[id := order]);
        ok == ValidSnapshot(next) && snap == (if ok then next else old(snap)) && refused == old(refused) + (if ok then 0 else 1)
    {
      ok := Save(snap.(proofs := if proofs.Some? then proofs.value else snap.proofs, orders := snap.orders[id := order]));
    }

    method CommitAdd(id: nat, operation: AddCash, proofs: Option<seq<Coin>>) returns (ok: bool)
      modifies this`snap, this`refused
      ensures var next := old(snap).(proofs := if proofs.Some? then proofs.value else old(snap).proofs, addCash := old(snap).addCash[id := operation]);
        ok == ValidSnapshot(next) && snap == (if ok then next else old(snap)) && refused == old(refused) + (if ok then 0 else 1)
    {
      ok := Save(snap.(proofs := if proofs.Some? then proofs.value else snap.proofs, addCash := snap.addCash[id := operation]));
    }

    method CommitCashOut(id: nat, operation: CashOut, proofs: Option<seq<Coin>>) returns (ok: bool)
      modifies this`snap, this`refused
      ensures var next := old(snap).(proofs := if proofs.Some? then proofs.value else old(snap).proofs, cashOut := old(snap).cashOut[id := operation]);
        ok == ValidSnapshot(next) && snap == (if ok then next else old(snap)) && refused == old(refused) + (if ok then 0 else 1)
    {
      ok := Save(snap.(proofs := if proofs.Some? then proofs.value else snap.proofs, cashOut := snap.cashOut[id := operation]));
    }

    // ---- the rest of the world ----

    method Crash()
      requires Valid()
      modifies this`log
      ensures Valid() && log == old(log) + [Event.Crash]
      ensures Now().task.Idle?
    {
      hide Inv, Run, ValidSnapshot;
      Next(log, Event.Crash);
      log := log + [Event.Crash];
    }

    /** The mint, or somebody else at the mint, makes a step on its own. */
    method MintMoves(after: Mint, ghost e: MintEvent)
      requires Valid() && after == MarketRuns.MintStep(Now(), e).mint
      modifies this`mint, this`log
      ensures Valid() && log == old(log) + [OfMint(e)]
    {
      hide Inv, Run, ValidSnapshot, CanLand, CanPay, ApplyLand, ApplyPay, ApplyFail, SignForeign, SpendForeign, Retag;
      Next(log, OfMint(e));
      mint := after;
      log := log + [OfMint(e)];
    }

    /** The library selected proofs and drew fresh outputs for a payment or a cash-out. */
    method Reviewed(rid: nat, review: Review)
      requires Valid()
      requires reviews[rid := review]
            == (if review.PayReview? then ReviewPayment(Now(), rid, review) else ReviewCashOut(Now(), rid, review)).reviews
      modifies this`reviews, this`log
      ensures Valid() && log == old(log) + [if review.PayReview? then OfPayment(ReviewPay(rid, review)) else OfCashOut(ReviewOut(rid, review))]
    {
      hide Inv, Run, ValidSnapshot, PaymentOnly, OutOnly;
      ghost var e := if review.PayReview? then OfPayment(ReviewPay(rid, review)) else OfCashOut(ReviewOut(rid, review));
      Next(log, e);
      reviews := reviews[rid := review];
      log := log + [e];
    }

    // ---- attendee ----

    /** Refused when the order was paid before or the balance has changed since the review. */
    method ConfirmPayment(rid: nat, id: nat) returns (confirmed: bool)
      requires Valid() && Now().task.Idle? && id !in snap.payments
      modifies this`snap, this`log, this`refused
      ensures refused == old(refused) && Valid() && log == old(log) + [OfPayment(ConfirmPay(rid, id))]
      ensures confirmed <==>
        rid in reviews && reviews[rid].PayReview? && multiset(old(snap).proofs) == multiset(reviews[rid].basis)
        && forall q :: q in old(snap).payments ==> old(snap).payments[q].orderId != reviews[rid].orderId
      ensures !confirmed ==> snap == old(snap) && Now().task.Idle?
      ensures confirmed ==>
        var rv := reviews[rid];
        && Now().task == Task.SwapCall(PayJob(id, true))
        && snap == old(snap).(proofs := rv.swap.unselected, payments := old(snap).payments[id :=
             Payment(rv.orderId, Preparing, rv.amount, Some(rv.request), Some(rv.deliveryUrl), None, None, Some(rv.swap), None, None)])
    {
      hide Inv, Run, ValidSnapshot, PaymentOnly, Retag, Secrets,
        AddStep, OutStep, OrderStep, SettleStep, MarketRuns.MintStep;
      Next(log, OfPayment(ConfirmPay(rid, id)));
      confirmed := false;
      if rid in reviews && reviews[rid].PayReview? {
        var rv := reviews[rid];
        var taken := exists q :: q in snap.payments && snap.payments[q].orderId == rv.orderId;
        if !taken && multiset(snap.proofs) == multiset(rv.basis) {
          var payment := Payment(rv.orderId, Preparing, rv.amount, Some(rv.request), Some(rv.deliveryUrl), None, None, Some(rv.swap), None, None);
          var _ := CommitPayment(id, payment, Some(rv.swap.unselected));
          confirmed := true;
        }
      }
      log := log + [OfPayment(ConfirmPay(rid, id))];
    }

    /** The swap call of `completeSwap`: the mint may apply it or not, and its answer may be lost. */
    method SwapCall(ghost job: Job, sw: Swap, reaches: bool, answered: bool) returns (done: bool)
      requires Valid() && Now().task == Task.SwapCall(job) && HasSwap(snap, job) && sw == SwapOf(snap, job)
      modifies this`mint, this`log
      ensures Valid() && log == old(log) + [SwapSent(reaches, answered)]
      ensures mint == if reaches && CanSwap(old(mint), sw) then ApplySwap(old(mint), sw) else old(mint)
      ensures done <==> reaches && CanSwap(old(mint), sw) && answered
      ensures Now().task == if done then SwapDone(job) else Task.RestoreCall(job)
    {
      hide Inv, Run, ValidSnapshot, CanSwap, ApplySwap;
      Next(log, SwapSent(reaches, answered));
      done := false;
      if reaches && CanSwap(mint, sw) {
        mint := ApplySwap(mint, sw);
        done := answered;
      }
      log := log + [SwapSent(reaches, answered)];
    }

    /** The restore call of `completeSwap`: every stored output must come back signed. */
    method RestoreCall(ghost job: Job, sw: Swap, answered: bool) returns (done: bool)
      requires Valid() && Now().task == Task.RestoreCall(job) && HasSwap(snap, job) && sw == SwapOf(snap, job)
      modifies this`log
      ensures Valid() && log == old(log) + [Restoring(answered)]
      ensures done <==> answered && forall c :: c in sw.Outputs() ==> c.secret in mint.signed
      ensures Now().task == if done then SwapDone(job) else SwapFailed(job)
    {
      hide Inv, Run, ValidSnapshot;
      Next(log, Restoring(answered));
      done := answered && Secrets(sw.Outputs()) <= mint.signed.Keys;
      log := log + [Restoring(answered)];
    }

    /** The swap is done: token and payload are stored together with the change it leaves. */
    method FinishPaymentPreparation(id: nat, ghost confirming: bool, bytes: nat)
      requires Valid() && Now().task == SwapDone(PayJob(id, confirming))
      modifies this`snap, this`log, this`refused
      ensures refused == old(refused) && Valid() && log == old(log) + [OfPayment(FinishPay(bytes))]
      ensures Now().task == DeliverStart(id) && id in old(snap).payments && old(snap).payments[id].swap.Some?
      ensures var p, sw := old(snap).payments[id], old(snap).payments[id].swap.value;
        snap == old(snap).(proofs := old(snap).proofs + sw.keep,
                           payments := old(snap).payments[id := p.(state := ReadyToDeliver, token := Some(sw.send),
                                                                   payload := Some(Payload(p.orderId, sw.send, bytes)), swap := None)])
    {
      hide Inv, Run, ValidSnapshot, PaymentOnly,
        AddStep, OutStep, OrderStep, SettleStep, MarketRuns.MintStep;
      Next(log, OfPayment(FinishPay(bytes)));
      var payment := snap.payments[id];
      var sw := payment.swap.value;
      payment := payment.(state := ReadyToDeliver, token := Some(sw.send), payload := Some(Payload(payment.orderId, sw.send, bytes)), swap := None);
      var _ := CommitPayment(id, payment, Some(snap.proofs + sw.keep));
      log := log + [OfPayment(FinishPay(bytes))];
    }

    /** The preparation failed; only the first attempt rewrites the record. */
    method PreparationFailed(id: nat, confirming: bool)
      requires Valid() && Now().task == SwapFailed(PayJob(id, confirming))
      modifies this`snap, this`log, this`refused
      ensures refused == old(refused) && Valid() && log == old(log) + [OfPayment(GiveUpPay)]
      ensures Now().task.Idle? && id in old(snap).payments
      ensures snap == if confirming then old(snap).(payments := old(snap).payments[id := old(snap).payments[id].(state := PaymentRecoverable)]) else old(snap)
    {
      hide Inv, Run, ValidSnapshot, PaymentOnly;
      Next(log, OfPayment(GiveUpPay));
      if confirming {
        var _ := CommitPayment(id, snap.payments[id].(state := PaymentRecoverable), None);
      }
      log := log + [OfPayment(GiveUpPay)];
    }

    /** The retry of a stored payment: a prepared swap is completed first. */
    method ResumePayment(id: nat, stillValid: bool) returns (next: Task)
      requires Valid() && Now().task.Idle?
      modifies this`log
      ensures Valid() && log == old(log) + [OfPayment(ResumePay(id, stillValid))] && next == Now().task
      ensures id !in snap.payments ==> next.Idle?
      ensures id in snap.payments ==>
        var p := snap.payments[id];
        next == if p.swap.Some? && p.token.None?
                then (if p.request.Some? && p.deliveryUrl.Some? && stillValid then Task.SwapCall(PayJob(id, false)) else Idle)
                else if p.token.Some? && p.payload.Some? && p.deliveryUrl.Some? then DeliverStart(id) else Idle
    {
      hide Inv, Run, ValidSnapshot, PaymentOnly,
        AddStep, OutStep, OrderStep, SettleStep, MarketRuns.MintStep;
      Next(log, OfPayment(ResumePay(id, stillValid)));
      next := Idle;
      if id in snap.payments {
        var payment := snap.payments[id];
        if payment.swap.Some? && payment.token.None? {
          if payment.request.Some? && payment.deliveryUrl.Some? && stillValid { next := Task.SwapCall(PayJob(id, false)); }
        } else if payment.CompleteDelivery() {
          next := DeliverStart(id);
        }
      }
      log := log + [OfPayment(ResumePay(id, stillValid))];
    }

    /** The record says the delivery began before the payload leaves. */
    method StartDelivery(id: nat) returns (payload: Payload)
      requires Valid() && Now().task == DeliverStart(id)
      modifies this`snap, this`log, this`refused
      ensures refused == old(refused) && Valid() && log == old(log) + [OfPayment(BeginDelivery)]
      ensures Now().task == DeliverCall(id) && id in old(snap).payments
      ensures snap == old(snap).(payments := old(snap).payments[id := old(snap).payments[id].(state := Delivering, deliveryRetryable := Some(true))])
      ensures id in snap.payments && snap.payments[id].payload == Some(payload)
    {
      hide Inv, Run, ValidSnapshot, PaymentOnly;
      Next(log, OfPayment(BeginDelivery));
      var payment := snap.payments[id];
      payload := payment.payload.value;
      var _ := CommitPayment(id, payment.(state := Delivering, deliveryRetryable := Some(true)), None);
      log := log + [OfPayment(BeginDelivery)];
    }

    method DeliveryAnswered(id: nat, answer: DeliverAnswer, now: nat)
      requires Valid() && Now().task == DeliverCall(id)
      modifies this`snap, this`log, this`refused
      ensures refused == old(refused) && Valid() && log == old(log) + [OfPayment(Send(answer)), OfPayment(EndDelivery(now))]
      ensures Now().task.Idle? && id in old(snap).payments
      ensures answer.Accepted? ==> snap == old(snap).(payments := old(snap).payments[id := old(snap).payments[id].(state := Delivered, deliveryRetryable := None, deliveredAt := Some(now))])
      ensures answer.Refused? ==> snap == old(snap).(payments := old(snap).payments[id := old(snap).payments[id].(state := PaymentRecoverable, deliveryRetryable := Some(answer.retryable))])
    {
      hide Inv, Run, ValidSnapshot, PaymentOnly,
        AddStep, OutStep, OrderStep, SettleStep, MarketRuns.MintStep;
      Next(log, OfPayment(Send(answer)));
      ghost var sent := log + [OfPayment(Send(answer))];
      Next(sent, OfPayment(EndDelivery(now)));
      var payment := snap.payments[id];
      if answer.Accepted? {
        payment := payment.(state := Delivered, deliveryRetryable := None, deliveredAt := Some(now));
      } else {
        payment := payment.(state := PaymentRecoverable, deliveryRetryable := Some(answer.retryable));
      }
      var _ := CommitPayment(id, payment, None);
      log := sent + [OfPayment(EndDelivery(now))];
      assert log == old(log) + [OfPayment(Send(answer)), OfPayment(EndDelivery(now))];
    }

    /** The record the answer asks for, or a recoverable one if the validator refuses it. */
    method StoreChecked(id: nat, payment: Payment, answer: TokenState)
      requires ValidSnapshot(snap) && id in snap.payments && payment == snap.payments[id] && payment.token.Some?
      requires payment.Valid() && payment.CompleteDelivery() && payment.swap.None?
      modifies this`snap, this`refused
      ensures snap == old(snap).(payments := old(snap).payments[id :=
        if CheckRefused(old(snap), id, answer) then payment.(state := PaymentRecoverable) else CheckedPayment(payment, answer)])
      ensures refused == old(refused) + (if CheckRefused(old(snap), id, answer) then 1 else 0)
    {
      hide ValidSnapshot, Payment.Valid;
      var kept := payment.deliveryRetryable == Some(false) && payment.deliveredAt.None?;
      var next := payment;
      if answer.AllSpent? {
        next := payment.(state := TokenSpent, token := None, payload := None, request := None, deliveryUrl := None, deliveryRetryable := None);
      } else if answer.AllUnspent? {
        if !kept { next := payment.(state := TokenUnspent); }
      } else if answer.AllPending? {
        if !kept { next := payment.(state := TokenPending); }
      } else {
        next := payment.(state := PaymentRecoverable);
      }
      PaymentCommits(snap, id, next);
      PaymentCommits(snap, id, payment.(state := PaymentRecoverable));
      RefusedCheck(payment, answer);
      RecoverablePayment(payment);
      var ok := CommitPayment(id, next, None);
      if !ok { var _ := CommitPayment(id, payment.(state := PaymentRecoverable), None); }
    }

    method CheckPayment(id: nat, answer: TokenState)
      requires Valid() && Now().task.Idle?
      modifies this`snap, this`log, this`refused
      ensures Valid() && log == old(log) + [OfPayment(CheckPay(id, answer))]
      ensures Now().task.Idle? && (id in old(snap).payments && old(snap).payments[id].token.Some? ==>
        id in snap.payments && snap == old(snap).(payments := old(snap).payments[id := snap.payments[id]])
        && Checked(old(snap).payments[id], snap.payments[id], answer))
      ensures !(id in old(snap).payments && old(snap).payments[id].token.Some?) ==> snap == old(snap)
      ensures refused == old(refused) + (if CheckRefused(old(snap), id, answer) then 1 else 0)
    {
      hide Inv, Run, ValidSnapshot, Payment.Valid, CheckedPayment, Step, TaskOk;
      Next(log, OfPayment(CheckPay(id, answer)));
      CheckNothing(Now(), id, answer);
      if id in snap.payments && snap.payments[id].token.Some? {
        var payment := snap.payments[id];
        CheckRecord(Now(), id, answer, CheckedPayment(payment, answer), payment.(state := PaymentRecoverable));
        PaymentAtRest(Now(), id);
        RefusedCheck(payment, answer);
        StoreChecked(id, payment, answer);
        CheckedAs(old(snap), id, answer);
      }
      log := log + [OfPayment(CheckPay(id, answer))];
    }

    // ---- add cash ----

    method RequestAddCash(id: nat, quote: nat, amount: nat, expiry: Option<nat>, fromFaucet: bool)
      requires Valid() && Now().task.Idle? && id !in snap.addCash && quote !in mint.mintQuotes && amount > 0
      modifies this`snap, this`mint, this`log, this`refused
      ensures refused == old(refused) && Valid() && log == old(log) + [OfAdd(NewAdd(id, quote, amount, expiry, fromFaucet))]
      ensures snap == old(snap).(addCash := old(snap).addCash[id := AddCash(AwaitingFunds, amount, quote, expiry, fromFaucet, fromFaucet, None)]) && Now().task.Idle?
    {
      hide Inv, Run, ValidSnapshot;
      Next(log, OfAdd(NewAdd(id, quote, amount, expiry, fromFaucet)));
      mint := mint.(mintQuotes := mint.mintQuotes[quote := MintQuote(amount, false, false)]);
      var _ := CommitAdd(id, AddCash(AwaitingFunds, amount, quote, expiry, fromFaucet, fromFaucet, None), None);
      log := log + [OfAdd(NewAdd(id, quote, amount, expiry, fromFaucet))];
    }

    method RecordPayerFailure(id: nat)
      requires Valid() && Now().task.Idle? && id in snap.addCash && snap.addCash[id].fromFaucet
      modifies this`snap, this`log, this`refused
      ensures refused == old(refused) && Valid() && log == old(log) + [OfAdd(PayerFailed(id))]
      ensures snap == old(snap).(addCash := old(snap).addCash[id := old(snap).addCash[id].(state := AddRecoverable)]) && Now().task.Idle?
    {
      hide Inv, Run, ValidSnapshot, AddOnly;
      Next(log, OfAdd(PayerFailed(id)));
      var _ := CommitAdd(id, snap.addCash[id].(state := AddRecoverable), None);
      log := log + [OfAdd(PayerFailed(id))];
    }

    /** The state of the quote arrives, or does not. */
    method MintQuoteChecked(id: nat, answered: bool, now: nat)
      requires Valid() && Now().task.Idle?
      modifies this`snap, this`log, this`refused
      ensures refused == old(refused) && Valid() && log == old(log) + [OfAdd(PollAdd(id, answered, now))]
      ensures id !in old(snap).addCash ==> snap == old(snap) && Now().task.Idle?
      ensures id in old(snap).addCash ==>
        var a, quotes := old(snap).addCash[id], mint.mintQuotes;
        if !answered || a.quote !in quotes then snap == old(snap).(addCash := old(snap).addCash[id := a.(state := AddRecoverable)]) && Now().task.Idle?
        else if quotes[a.quote].paid then snap == old(snap).(addCash := old(snap).addCash[id := a.(state := PaymentObserved)]) && Now().task == AddObserved(id)
        else if a.expiry.Some? && a.expiry.value * 1000 <= now then snap == old(snap).(addCash := old(snap).addCash[id := a.(state := AddExpired)]) && Now().task.Idle?
        else snap == old(snap) && Now().task.Idle?
    {
      hide Inv, Run, ValidSnapshot, AddOnly,
        PayStep, OutStep, OrderStep, SettleStep, MarketRuns.MintStep;
      Next(log, OfAdd(PollAdd(id, answered, now)));
      if id in snap.addCash {
        var operation := snap.addCash[id];
        if !answered || operation.quote !in mint.mintQuotes {
          var _ := CommitAdd(id, operation.(state := AddRecoverable), None);
        } else if !mint.mintQuotes[operation.quote].paid {
          if operation.expiry.Some? && operation.expiry.value * 1000 <= now {
            var _ := CommitAdd(id, operation.(state := AddExpired), None);
          }
        } else {
          var _ := CommitAdd(id, operation.(state := PaymentObserved), None);
        }
      }
      log := log + [OfAdd(PollAdd(id, answered, now))];
    }

    /** Outputs stored earlier are reused; otherwise fresh ones are stored before the mint sees them.
        `prepared` says the library drew them. */
    method PrepareMint(id: nat, outputs: seq<Coin>, prepared: bool)
      requires Valid() && Now().task == AddObserved(id) && id in snap.addCash
      requires prepared == Drawn(Now(), id, outputs)
      modifies this`snap, this`log, this`refused
      ensures refused == old(refused) && Valid() && log == old(log) + [OfAdd(ReadyAdd(outputs))]
      ensures var a := old(snap).addCash[id];
        if a.outputs.Some? then snap == old(snap) && Now().task == Task.IssueCall(id)
        else if (a.fromFaucet && !a.hasQuoteKey) || !prepared
        then snap == old(snap).(addCash := old(snap).addCash[id := a.(state := AddRecoverable)]) && Now().task.Idle?
        else snap == old(snap).(addCash := old(snap).addCash[id := a.(state := Issuing, outputs := Some(outputs), hasQuoteKey := false)])
             && Now().task == Task.IssueCall(id)
    {
      hide Inv, Run, ValidSnapshot, Drawn, PrepareAdd;
      Next(log, OfAdd(ReadyAdd(outputs)));
      var operation := snap.addCash[id];
      PreparedRecord(Now(), id, outputs, operation.(state := Issuing, outputs := Some(outputs), hasQuoteKey := false), operation.(state := AddRecoverable));
      if operation.outputs.None? {
        if (operation.fromFaucet && !operation.hasQuoteKey) || !prepared {
          var _ := CommitAdd(id, operation.(state := AddRecoverable), None);
        } else {
          var _ := CommitAdd(id, operation.(state := Issuing, outputs := Some(outputs), hasQuoteKey := false), None);
        }
      }
      log := log + [OfAdd(ReadyAdd(outputs))];
    }

    /** The issuance call of `completeMint`. */
    method IssueCall(id: nat, reaches: bool, answered: bool) returns (done: bool)
      requires Valid() && Now().task == Task.IssueCall(id) && id in snap.addCash && snap.addCash[id].outputs.Some?
      modifies this`mint, this`log
      ensures Valid() && log == old(log) + [OfAdd(AddEvent.Mint(reaches, answered))]
      ensures var a := snap.addCash[id];
        mint == (if reaches && CanIssue(old(mint), a.quote, a.outputs.value) then ApplyIssue(old(mint), a.quote, a.outputs.value) else old(mint))
        && (done <==> reaches && CanIssue(old(mint), a.quote, a.outputs.value) && answered)
      ensures Now().task == if done then IssueDone(id) else IssueRestore(id)
    {
      hide Inv, Run, ValidSnapshot, CanIssue, ApplyIssue;
      Next(log, OfAdd(AddEvent.Mint(reaches, answered)));
      done := false;
      var operation := snap.addCash[id];
      if reaches && CanIssue(mint, operation.quote, operation.outputs.value) {
        assert operation.quote in mint.mintQuotes by { IssuableQuote(mint, operation.quote, operation.outputs.value); }
        mint := ApplyIssue(mint, operation.quote, operation.outputs.value);
        done := answered;
      }
      log := log + [OfAdd(AddEvent.Mint(reaches, answered))];
    }

    method IssueRestored(id: nat, answered: bool) returns (done: bool)
      requires Valid() && Now().task == IssueRestore(id) && id in snap.addCash && snap.addCash[id].outputs.Some?
      modifies this`log
      ensures Valid() && log == old(log) + [OfAdd(RestoreMint(answered))]
      ensures done <==> answered && forall c :: c in snap.addCash[id].outputs.value ==> c.secret in mint.signed
      ensures Now().task == if done then IssueDone(id) else IssueFailed(id)
    {
      hide Inv, Run, ValidSnapshot, AddOnly;
      Next(log, OfAdd(RestoreMint(answered)));
      done := answered && Secrets(snap.addCash[id].outputs.value) <= mint.signed.Keys;
      log := log + [OfAdd(RestoreMint(answered))];
    }

    method FinishMint(id: nat)
      requires Valid() && Now().task == IssueDone(id)
      modifies this`snap, this`log, this`refused
      ensures refused == old(refused) && Valid() && log == old(log) + [OfAdd(EndAdd)]
      ensures Now().task.Idle? && id in old(snap).addCash && old(snap).addCash[id].outputs.Some?
      ensures snap == old(snap).(addCash := old(snap).addCash[id := old(snap).addCash[id].(state := AddSettled, outputs := None)]).(proofs := old(snap).proofs + old(snap).addCash[id].outputs.value)
    {
      hide Inv, Run, ValidSnapshot, AddOnly;
      Next(log, OfAdd(EndAdd));
      var operation := snap.addCash[id];
      var _ := CommitAdd(id, operation.(state := AddSettled, outputs := None), Some(snap.proofs + operation.outputs.value));
      log := log + [OfAdd(EndAdd)];
    }

    method MintFailed(id: nat)
      requires Valid() && Now().task == IssueFailed(id) && id in snap.addCash
      modifies this`snap, this`log, this`refused
      ensures refused == old(refused) && Valid() && log == old(log) + [OfAdd(DropAdd)]
      ensures snap == old(snap).(addCash := old(snap).addCash[id := old(snap).addCash[id].(state := AddRecoverable)]) && Now().task.Idle?
    {
      hide Inv, Run, ValidSnapshot, AddOnly;
      Next(log, OfAdd(DropAdd));
      var _ := CommitAdd(id, snap.addCash[id].(state := AddRecoverable), None);
      log := log + [OfAdd(DropAdd)];
    }

    // ---- cash out ----

    /** The reservation is stored before the melt request leaves. */
    method ConfirmCashOut(rid: nat, id: nat) returns (confirmed: bool)
      requires Valid() && Now().task.Idle? && id !in snap.cashOut
      modifies this`snap, this`log, this`refused
      ensures refused == old(refused) && Valid() && log == old(log) + [OfCashOut(ConfirmOut(rid, id))]
      ensures confirmed <==> rid in reviews && reviews[rid].OutReview? && multiset(old(snap).proofs) == multiset(reviews[rid].basis)
      ensures !confirmed ==> snap == old(snap) && Now().task.Idle?
      ensures confirmed ==>
        var rv := reviews[rid];
        && Now().task == MeltCall(id)
        && snap == old(snap).(proofs := rv.keep, cashOut := old(snap).cashOut[id :=
             CashOut(Dispatching, rv.amount, rv.quote, QuoteUnpaid, rv.inputFee, Some(rv.reserved), Some(rv.blanks), None)])
    {
      hide Inv, Run, ValidSnapshot, OutOnly, OutsKeep;
      Next(log, OfCashOut(ConfirmOut(rid, id)));
      confirmed := false;
      if rid in reviews && reviews[rid].OutReview? && multiset(snap.proofs) == multiset(reviews[rid].basis) {
        var rv := reviews[rid];
        var operation := CashOut(Dispatching, rv.amount, rv.quote, QuoteUnpaid, rv.inputFee, Some(rv.reserved), Some(rv.blanks), None);
        var _ := CommitCashOut(id, operation, Some(rv.keep));
        confirmed := true;
      }
      log := log + [OfCashOut(ConfirmOut(rid, id))];
    }

    method SendMelt(id: nat)
      requires Valid() && Now().task == MeltCall(id)
      modifies this`wire, this`log
      ensures Valid() && log == old(log) + [OfCashOut(Melt)]
      ensures id in snap.cashOut && (snap.cashOut[id].reserved.Some? && snap.cashOut[id].blanks.Some? ==>
        Now().task == MeltWait(id) && wire == old(wire) + {MeltRequest(snap.cashOut[id].quote, snap.cashOut[id].reserved.value, snap.cashOut[id].blanks.value, snap.cashOut[id].inputFee)})
    {
      hide Inv, Run, ValidSnapshot, OutOnly, OutsKeep;
      Next(log, OfCashOut(Melt));
      var operation := snap.cashOut[id];
      if operation.reserved.Some? && operation.blanks.Some? {
        wire := wire + {MeltRequest(operation.quote, operation.reserved.value, operation.blanks.value, operation.inputFee)};
      }
      log := log + [OfCashOut(Melt)];
    }

    /** The melt call returns the state of its own melt, or fails. */
    method MeltAnswered(id: nat, answered: bool) returns (seen: Option<MeltState>)
      requires Valid() && Now().task == MeltWait(id)
      modifies this`log
      ensures Valid() && log == old(log) + [OfCashOut(MeltAnswer(answered))] && Now().task == MeltSeen(id, seen)
      ensures id in snap.cashOut
      ensures var o, quotes := snap.cashOut[id], mint.meltQuotes;
        seen == if answered && o.quote in quotes && (quotes[o.quote].state.Unpaid? || Some(quotes[o.quote].state.inputs) == o.reserved)
                then Some(quotes[o.quote].state) else None
    {
      hide Inv, Run, ValidSnapshot, OutOnly, OutsKeep;
      Next(log, OfCashOut(MeltAnswer(answered)));
      var operation := snap.cashOut[id];
      seen := None;
      if answered && operation.quote in mint.meltQuotes {
        var found := mint.meltQuotes[operation.quote].state;
        if found.Unpaid? || Some(found.inputs) == operation.reserved { seen := Some(found); }
      }
      log := log + [OfCashOut(MeltAnswer(answered))];
    }

    /** A paid melt pays its change in with the commit that drops the reservation. */
    method FinishMelt(id: nat, seen: Option<MeltState>)
      requires Valid() && Now().task == MeltSeen(id, seen)
      modifies this`snap, this`log, this`refused
      ensures refused == old(refused) && Valid() && log == old(log) + [OfCashOut(EndMelt)]
      ensures Now().task.Idle? && id in old(snap).cashOut && id in snap.cashOut
      ensures var o, outs := old(snap).cashOut[id], old(snap).cashOut;
        if seen.None? then snap == old(snap).(cashOut := outs[id := o.(state := OutUnknown)])
        else match seen.value
          case Paid(_, _, change) =>
            snap == old(snap).(proofs := old(snap).proofs + change,
                               cashOut := outs[id := o.(state := OutPaid, quoteState := QuoteLabel.QuotePaid, reserved := None, blanks := None)])
          case Pending(_, _) => snap == old(snap).(cashOut := outs[id := o.(state := OutPending, quoteState := QuotePending)])
          case Unpaid => snap == old(snap).(cashOut := outs[id := o.(state := OutUnknown, quoteState := QuoteUnpaid)])
    {
      hide Inv, Run, ValidSnapshot, Step, MarketSteps.FinishMelt, TaskOk, OutKeeps;
      Next(log, OfCashOut(EndMelt));
      MeltingOut(Now().mint, snap, id, seen);
      var operation := snap.cashOut[id];
      EventSteps(Now(), Empty, 0, true, true, true);
      MeltRecord(Now(), id, seen, operation, operation.(state := OutUnknown), operation.(state := OutPending, quoteState := QuotePending),
                 operation.(state := OutUnknown, quoteState := QuoteUnpaid),
                 operation.(state := OutPaid, quoteState := QuoteLabel.QuotePaid, reserved := None, blanks := None));
      if seen.None? {
        var _ := CommitCashOut(id, operation.(state := OutUnknown), None);
      } else if seen.value.Paid? {
        operation := operation.(state := OutPaid, quoteState := QuoteLabel.QuotePaid, reserved := None, blanks := None);
        var _ := CommitCashOut(id, operation, Some(snap.proofs + seen.value.change));
      } else if seen.value.Pending? {
        var _ := CommitCashOut(id, operation.(state := OutPending, quoteState := QuotePending), None);
      } else {
        var _ := CommitCashOut(id, operation.(state := OutUnknown, quoteState := QuoteUnpaid), None);
      }
      log := log + [OfCashOut(EndMelt)];
    }

    /** The state of a melt quote arrives, or does not. */
    method MeltQuoteChecked(id: nat, answered: bool) returns (found: Option<MeltState>)
      requires Valid() && Now().task.Idle? && id in snap.cashOut
      modifies this`snap, this`log, this`refused
      ensures refused == old(refused) && Valid() && log == old(log) + [OfCashOut(PollOut(id, answered))]
      ensures Now().task == if found.Some? then OutSeen(id, found.value) else Idle
      ensures var quote := old(snap).cashOut[id].quote;
        found == if answered && quote in mint.meltQuotes then Some(mint.meltQuotes[quote].state) else None
      ensures snap == if found.Some? then old(snap) else old(snap).(cashOut := old(snap).cashOut[id := old(snap).cashOut[id].(state := OutUnknown)])
    {
      hide Inv, Run, ValidSnapshot, OutOnly, OutsKeep;
      Next(log, OfCashOut(PollOut(id, answered)));
      var operation := snap.cashOut[id];
      if answered && operation.quote in mint.meltQuotes {
        found := Some(mint.meltQuotes[operation.quote].state);
      } else {
        found := None;
        var _ := CommitCashOut(id, operation.(state := OutUnknown), None);
      }
      log := log + [OfCashOut(PollOut(id, answered))];
    }

    /** Unblind the change with the stored outputs, or keep the record when they do not fit. */
    method ReleasePaid(id: nat, change: seq<Coin>)
      requires snap == Now().snap && id in snap.cashOut && ValidSnapshot(TakeChange(Now(), id, change).snap)
      modifies this`snap, this`refused
      ensures refused == old(refused) && snap == TakeChange(Now(), id, change).snap && Beside(Now(), TakeChange(Now(), id, change))
    {
      hide Run, ValidSnapshot, TakeChange, StoreOut, ReleaseOut, Unblinds;
      var operation := snap.cashOut[id];
      var stored := if operation.blanks.Some? then operation.blanks.value else [];
      TakenRecord(Now(), id, change, stored, operation.(state := OutUnknown), PaidRecord(operation));
      OutCommits(Now(), id, operation.(state := OutUnknown), []);
      OutCommits(Now(), id, PaidRecord(operation), change);
      if (change != [] && stored == []) || !Unblinds(stored, change) {
        var _ := CommitCashOut(id, operation.(state := OutUnknown), None);
      } else {
        var paid := operation.(state := OutPaid, quoteState := QuoteLabel.QuotePaid, reserved := None, blanks := None, recovery := None);
        var _ := CommitCashOut(id, paid, Some(snap.proofs + change));
      }
    }

    /** Take the change of a paid melt, keep waiting, or go on to recover the reserved proofs. */
    method ActOnMeltQuote(id: nat, found: MeltState)
      requires Valid() && Now().task == OutSeen(id, found) && id in snap.cashOut
      modifies this`snap, this`log, this`refused
      ensures refused == old(refused) && Valid() && log == old(log) + [OfCashOut(ActOut)]
      ensures found.Pending? ==> snap == old(snap).(cashOut := old(snap).cashOut[id := old(snap).cashOut[id].(state := OutPending, quoteState := QuotePending)])
      ensures found.Paid? ==> Released(old(snap), snap, id, found.change)
      ensures found.Unpaid? ==>
        var o := old(snap).cashOut[id];
        if o.reserved.None? || o.reserved.value == [] then snap == old(snap).(cashOut := old(snap).cashOut[id := o.(state := OutUnknown)])
        else snap == old(snap) && Now().task == if o.recovery.None? then OutProofs(id) else Task.SwapCall(RecoverJob(id))
    {
      hide Inv, Run, ValidSnapshot, TakeChange, Step, ActOnQuote, Released, TaskOk, OutEdits, OutOnly, OutsKeep, OutKeeps, FinishRead, StartSettle;
      Next(log, OfCashOut(ActOut));
      var operation := snap.cashOut[id];
      EventSteps(Now(), Empty, 0, true, true, true);
      ActRecord(Now(), id, found, operation, operation.(state := OutUnknown), operation.(state := OutPending, quoteState := QuotePending));
      if found.Paid? {
        TakenAs(Now(), id, found.change);
        ReleasePaid(id, found.change);
      } else {
        if found.Pending? {
          var _ := CommitCashOut(id, operation.(state := OutPending, quoteState := QuotePending), None);
        } else if operation.reserved.None? || operation.reserved.value == [] {
          var _ := CommitCashOut(id, operation.(state := OutUnknown), None);
        }
      }
      log := log + [OfCashOut(ActOut)];
    }

    /** The states of the reserved proofs arrive; `prepared` says the library drew a recovery swap. */
    method RecoveryPrepared(id: nat, answer: TokenState, swap: Swap, prepared: bool)
      requires Valid() && Now().task == OutProofs(id) && id in snap.cashOut && snap.cashOut[id].reserved.Some?
        && snap.cashOut[id].recovery.None?
      requires prepared <==> swap.inputs == snap.cashOut[id].reserved.value && ReceiveSwap(Now(), swap)
      modifies this`snap, this`log, this`refused
      ensures refused == old(refused) && Valid() && log == old(log) + [OfCashOut(ReadyRecovery(answer, swap))]
      ensures snap == old(snap).(cashOut := old(snap).cashOut[id := if answer.AllUnspent? && prepared then old(snap).cashOut[id].(state := OutUnknown, recovery := Some(swap)) else old(snap).cashOut[id].(state := OutUnknown)])
      ensures Now().task == if answer.AllUnspent? && prepared then Task.SwapCall(RecoverJob(id)) else Idle
    {
      hide Inv, Run, ValidSnapshot, OutOnly, OutsKeep, ReceiveSwap;
      Next(log, OfCashOut(ReadyRecovery(answer, swap)));
      var operation := snap.cashOut[id];
      if answer.AllUnspent? && prepared {
        var _ := CommitCashOut(id, operation.(state := OutUnknown, recovery := Some(swap)), None);
      } else {
        var _ := CommitCashOut(id, operation.(state := OutUnknown), None);
      }
      log := log + [OfCashOut(ReadyRecovery(answer, swap))];
    }

    method FinishRecovery(id: nat)
      requires Valid() && Now().task == SwapDone(RecoverJob(id))
      modifies this`snap, this`log, this`refused
      ensures refused == old(refused) && Valid() && log == old(log) + [OfCashOut(EndRecovery)]
      ensures Now().task.Idle? && id in old(snap).cashOut && old(snap).cashOut[id].recovery.Some?
      ensures var o := old(snap).cashOut[id];
        snap == old(snap).(proofs := old(snap).proofs + o.recovery.value.keep,
                           cashOut := old(snap).cashOut[id := o.(state := OutFailed, quoteState := QuoteUnpaid, reserved := None, blanks := None, recovery := None)])
    {
      hide Inv, Run, ValidSnapshot, OutOnly, OutsKeep;
      Next(log, OfCashOut(EndRecovery));
      var operation := snap.cashOut[id];
      var recovered := operation.recovery.value.keep;
      operation := operation.(state := OutFailed, quoteState := QuoteUnpaid, reserved := None, blanks := None, recovery := None);
      var _ := CommitCashOut(id, operation, Some(snap.proofs + recovered));
      log := log + [OfCashOut(EndRecovery)];
    }

    method RecoveryFailed(id: nat)
      requires Valid() && Now().task == SwapFailed(RecoverJob(id)) && id in snap.cashOut
      modifies this`snap, this`log, this`refused
      ensures refused == old(refused) && Valid() && log == old(log) + [OfCashOut(DropRecovery)]
      ensures snap == old(snap).(cashOut := old(snap).cashOut[id := old(snap).cashOut[id].(state := OutUnknown)]) && Now().task.Idle?
    {
      hide Inv, Run, ValidSnapshot, OutOnly, OutsKeep;
      Next(log, OfCashOut(DropRecovery));
      var _ := CommitCashOut(id, snap.cashOut[id].(state := OutUnknown), None);
      log := log + [OfCashOut(DropRecovery)];
    }

    // ---- vendor ----

    method CreateOrder(id: nat, amount: nat, expiresAt: nat, keys: Keys, readCapability: nat)
      requires Valid() && Now().task.Idle? && id !in snap.orders && amount > 0 && FreshKey(snap.orders, keys.privateKey)
      modifies this`snap, this`log, this`refused
      ensures refused == old(refused) && Valid() && log == old(log) + [OfOrder(NewOrder(id, amount, expiresAt, keys, readCapability))]
      ensures snap == old(snap).(orders := old(snap).orders[id := Order(Registering, amount, expiresAt, Some(keys), Some(readCapability), None, None, false, false)]) && Now().task == RegisterCall(id)
    {
      hide Inv, Run, ValidSnapshot, OrderOnly, OrdersKeep, TokensKeep;
      Next(log, OfOrder(NewOrder(id, amount, expiresAt, keys, readCapability)));
      var _ := CommitOrder(id, Order(Registering, amount, expiresAt, Some(keys), Some(readCapability), None, None, false, false), None);
      log := log + [OfOrder(NewOrder(id, amount, expiresAt, keys, readCapability))];
    }

    /** A commit inside a try block, with the catch clause that follows a refusal. */
    method TryOrder(id: nat, before: Order, after: Order) returns (ok: bool)
      requires ValidSnapshot(snap) && id in snap.orders
        && ValidSnapshot(snap.(orders := snap.orders[id := before.(state := OrderRecoverable)]))
      modifies this`snap, this`refused
      ensures ok == after.Valid()
      ensures ok ==> snap == old(snap).(orders := old(snap).orders[id := after])
      ensures !ok ==> snap == old(snap).(orders := old(snap).orders[id := before.(state := OrderRecoverable)])
      ensures refused == old(refused) + (if ok then 0 else 1)
    {
      hide ValidSnapshot;
      OrderCommits(snap, id, after);
      ok := CommitOrder(id, after, None);
      if !ok { var _ := CommitOrder(id, before.(state := OrderRecoverable), None); }
    }

    /** A stored order is registered again with the request it kept. */
    method RegisterStored(id: nat) returns (sent: bool)
      requires Valid() && Now().task.Idle? && id in snap.orders
      modifies this`snap, this`log, this`refused
      ensures refused == old(refused) && Valid() && log == old(log) + [OfOrder(Reregister(id))] && Now().task == if sent then RegisterCall(id) else Idle
      ensures var o := old(snap).orders[id];
        (sent <==> o.keys.Some? && o.readCapability.Some?)
        && snap == if sent then old(snap) else old(snap).(orders := old(snap).orders[id := o.(state := OrderRecoverable)])
    {
      hide Inv, Run, ValidSnapshot, OrderOnly, OrdersKeep, TokensKeep;
      Next(log, OfOrder(Reregister(id)));
      var order := snap.orders[id];
      sent := order.keys.Some? && order.readCapability.Some?;
      if !sent { var _ := CommitOrder(id, order.(state := OrderRecoverable), None); }
      log := log + [OfOrder(Reregister(id))];
    }

    method RegisterAnswered(id: nat, accepted: bool)
      requires Valid() && Now().task == RegisterCall(id) && id in snap.orders
      modifies this`snap, this`log, this`refused
      ensures refused == old(refused) && Valid() && log == old(log) + [OfOrder(Registered(accepted))]
      ensures Now().task.Idle?
      ensures snap == old(snap).(orders := old(snap).orders[id := if accepted then old(snap).orders[id].(state := AwaitingPayment, relayRegistered := true) else old(snap).orders[id].(state := OrderRecoverable)])
    {
      hide Inv, Run, ValidSnapshot, OrderOnly, OrdersKeep, TokensKeep;
      Next(log, OfOrder(Registered(accepted)));
      var order := snap.orders[id];
      RecoverableCommits(snap, id);
      if accepted {
        var _ := TryOrder(id, order, order.(state := AwaitingPayment, relayRegistered := true));
      } else {
        var _ := CommitOrder(id, order.(state := OrderRecoverable), None);
      }
      log := log + [OfOrder(Registered(accepted))];
    }

    /** Finish the acknowledgement of a settled order, settle what was received, or read the slot. */
    method PollOrder(id: nat) returns (next: Task)
      requires Valid() && Now().task.Idle? && id in snap.orders
      modifies this`log
      ensures Valid() && log == old(log) + [OfOrder(Poll(id))] && next == Now().task
      ensures Polled(id, snap.orders[id], next)
    {
      hide Inv, Run, ValidSnapshot, OrderOnly, OrdersKeep, TokensKeep;
      Next(log, OfOrder(Poll(id)));
      var order := snap.orders[id];
      next := Idle;
      if order.state.OrderSettled? && !order.relayAcknowledged && order.readCapability.Some? {
        next := AckSettled(id);
      } else if order.incomingToken.Some? || order.incomingSwap.Some? {
        next := SettleStart(id);
      } else if order.readCapability.Some? {
        next := ReadCall(id);
      }
      log := log + [OfOrder(Poll(id))];
    }

    /** The slot holds a payload: keep its token before anything else, or refuse it. */
    method TakePayload(id: nat, payload: Payload, wellformed: bool, sameMint: bool, ghost locks: map<nat, nat>)
      requires snap == Now().snap && id in snap.orders && ValidSnapshot(snap)
        && ValidSnapshot(AcceptRead(Now(), id, payload, wellformed, sameMint, locks).snap)
      modifies this`snap, this`refused
      ensures snap == AcceptRead(Now(), id, payload, wellformed, sameMint, locks).snap
      ensures Beside(Now(), AcceptRead(Now(), id, payload, wellformed, sameMint, locks))
      ensures refused == old(refused) + (if PayloadRefused(old(snap), id, payload, wellformed, sameMint) then 1 else 0)
      ensures Taken(old(snap), snap, id, payload, wellformed, sameMint, AcceptRead(Now(), id, payload, wellformed, sameMint, locks).task)
    {
      hide Run, ValidSnapshot, AcceptRead;
      var order := snap.orders[id];
      RecoverableCommits(snap, id);
      TakenOrder(Now(), id, payload, wellformed, sameMint, locks, order.(state := PayloadReceived, incomingToken := Some(payload.proofs)),
                 order.(state := OrderRecoverable), order.(state := Rejected));
      if !wellformed || payload.proofs == [] {
        var _ := CommitOrder(id, order.(state := OrderRecoverable), None);
      } else if payload.orderId != id || !sameMint {
        var _ := CommitOrder(id, order.(state := Rejected), None);
      } else {
        var _ := TryOrder(id, order, order.(state := PayloadReceived, incomingToken := Some(payload.proofs)));
      }
    }

    /** No payload came: the order waits, expires, or becomes recoverable. */
    method ReadNothing(id: nat, empty: bool, gone: bool, late: bool)
      requires ValidSnapshot(snap) && id in snap.orders && snap.orders[id].incomingToken.None? && snap.orders[id].incomingSwap.None?
      modifies this`snap, this`refused
      ensures refused == old(refused)
      ensures empty && !late ==> snap == old(snap)
      ensures (empty || gone) && late ==> snap == old(snap).(orders := old(snap).orders[id := Expired(old(snap).orders[id])])
      ensures !empty && !(gone && late) ==> snap == old(snap).(orders := old(snap).orders[id := old(snap).orders[id].(state := OrderRecoverable)])
    {
      hide ValidSnapshot;
      var order := snap.orders[id];
      var expired := order.(state := OrderExpired, keys := None, readCapability := None);
      RecoverableCommits(snap, id);
      OrderCommits(snap, id, expired);
      if empty {
        if late { var _ := TryOrder(id, order, expired); }
      } else if gone && late {
        var _ := CommitOrder(id, expired, None);
      } else {
        var _ := CommitOrder(id, order.(state := OrderRecoverable), None);
      }
    }

    /** The slot was read, or could not be: keep what it holds, or let the order expire. */
    method ReadAnswered(id: nat, answer: ReadAnswer, now: nat)
      requires Valid() && Now().task == ReadCall(id) && id in snap.orders && snap.orders[id].readCapability.Some?
      modifies this`snap, this`log, this`refused
      ensures Valid() && log == old(log) + [OfOrder(Read(answer, now))]
      ensures refused == old(refused) + (if answer.Got? && PayloadRefused(old(snap), id, answer.payload, answer.wellformed, answer.sameMint) then 1 else 0)
      ensures ReadAs(old(snap), snap, id, answer, now, Now().task)
    {
      hide Inv, Run, ValidSnapshot, AcceptRead, Step, FinishRead, PayloadRefused, Order.Valid, TaskOk, Taken;
      Next(log, OfOrder(Read(answer, now)));
      var order := snap.orders[id];
      RecoverableCommits(snap, id);
      ReadingOrder(Now().mint, snap, id);
      EventSteps(Now(), answer, now, true, true, true);
      ReadRecord(Now(), id, answer, now, order.(state := OrderRecoverable), Expired(order));
      if answer.Got? {
        TakePayload(id, answer.payload, answer.wellformed, answer.sameMint, answer.locks);
      } else {
        ReadNothing(id, answer.Empty?, answer.ReadFailed? && answer.gone, order.expiresAt * 1000 <= now);
      }
      log := log + [OfOrder(Read(answer, now))];
    }

    method AckAnswered(id: nat, acknowledged: bool)
      requires Valid() && Now().task == AckCall(id) && id in snap.orders
      modifies this`snap, this`log, this`refused
      ensures refused == old(refused) && Valid() && log == old(log) + [OfOrder(Acked(acknowledged))]
      ensures snap == old(snap).(orders := old(snap).orders[id := old(snap).orders[id].(relayAcknowledged := acknowledged)]) && Now().task == SettleStart(id)
    {
      hide Inv, Run, ValidSnapshot, OrderOnly, OrdersKeep, TokensKeep;
      Next(log, OfOrder(Acked(acknowledged)));
      var _ := CommitOrder(id, snap.orders[id].(relayAcknowledged := acknowledged), None);
      log := log + [OfOrder(Acked(acknowledged))];
    }

    /** The order is marked as validating before its token is looked at. */
    method InspectToken(id: nat, rejected: bool)
      requires ValidSnapshot(snap) && id in snap.orders && snap.orders[id].Valid()
        && snap.orders[id].incomingToken.Some? && snap.orders[id].keys.Some?
      modifies this`snap, this`refused
      ensures refused == old(refused) && snap == old(snap).(orders := old(snap).orders[id := old(snap).orders[id].(state := if rejected then Rejected else Validating)])
    {
      hide ValidSnapshot;
      var order := snap.orders[id];
      OrderCommits(snap, id, order.(state := Validating));
      OrderCommits(snap, id, order.(state := Rejected));
      var _ := CommitOrder(id, order.(state := Validating), None);
      if rejected {
        assert snap.orders[id := order.(state := Rejected)] == old(snap).orders[id := order.(state := Rejected)];
        var _ := CommitOrder(id, order.(state := Rejected), None);
      }
    }

    /** `settleOrder` up to the mint query. */
    method SettleOrder(id: nat, malformed: bool, sameMint: bool, locked: bool)
      requires Valid() && Now().task == SettleStart(id) && id in snap.orders
      requires locked ==> TokenLocked(Now(), id)
      modifies this`snap, this`log, this`refused
      ensures refused == old(refused) && Valid() && log == old(log) + [OfSettle(Settle(malformed, sameMint, locked))]
      ensures old(snap).orders[id].incomingSwap.Some? ==> snap == old(snap) && Now().task == Task.SwapCall(VendJob(id))
      ensures old(snap).orders[id].incomingSwap.None? ==>
        var o := old(snap).orders[id];
        if o.incomingToken.None? || o.keys.None? then snap == old(snap).(orders := old(snap).orders[id := o.(state := OrderRecoverable)]) && Now().task.Idle?
        else if malformed || !sameMint || Total(o.incomingToken.value) != o.amount || !locked
        then snap == old(snap).(orders := old(snap).orders[id := o.(state := Rejected)]) && Now().task.Idle?
        else snap == old(snap).(orders := old(snap).orders[id := o.(state := Validating)]) && Now().task == TokenCheck(id)
    {
      hide Inv, Run, ValidSnapshot, TokenLocked, Total, Step, StartSettle, TaskOk;
      Next(log, OfSettle(Settle(malformed, sameMint, locked)));
      var order := snap.orders[id];
      EventSteps(Now(), Empty, 0, malformed, sameMint, locked);
      SettleRecord(Now(), id, malformed, sameMint, locked, order.(state := OrderRecoverable), order.(state := Rejected), order.(state := Validating));
      if order.incomingSwap.None? {
        RecoverableCommits(snap, id);
        if order.incomingToken.None? || order.keys.None? {
          var _ := CommitOrder(id, order.(state := OrderRecoverable), None);
        } else {
          InspectToken(id, malformed || !sameMint || Total(order.incomingToken.value) != order.amount || !locked);
        }
      }
      log := log + [OfSettle(Settle(malformed, sameMint, locked))];
    }

    method TokenAnswered(id: nat, answer: TokenState)
      requires Valid() && Now().task == TokenCheck(id) && id in snap.orders
      modifies this`snap, this`log, this`refused
      ensures refused == old(refused) && Valid() && log == old(log) + [OfSettle(TokenChecked(answer))]
      ensures answer.AllUnspent? ==> snap == old(snap) && Now().task == SwapPrepare(id)
      ensures !answer.AllUnspent? ==> Now().task.Idle? && snap == old(snap).(orders := old(snap).orders[id := old(snap).orders[id].(state := if answer in {AllSpent, Mixed} then Rejected else OrderRecoverable)])
    {
      hide Inv, Run, ValidSnapshot, OrderOnly, OrdersKeep, TokensKeep;
      Next(log, OfSettle(TokenChecked(answer)));
      var order := snap.orders[id];
      if answer.AllSpent? || answer.Mixed? {
        var _ := CommitOrder(id, order.(state := Rejected), None);
      } else if answer.AllPending? || answer.NoAnswer? {
        var _ := CommitOrder(id, order.(state := OrderRecoverable), None);
      }
      log := log + [OfSettle(TokenChecked(answer))];
    }

    /** `prepared` says the library drew a settlement swap over exactly the received proofs. */
    method SettlementPrepared(id: nat, swap: Swap, prepared: bool)
      requires Valid() && Now().task == SwapPrepare(id) && id in snap.orders
      requires snap.orders[id].incomingToken.Some? && snap.orders[id].incomingSwap.None? && snap.orders[id].keys.Some?
      requires prepared == SettleDrawn(Now(), id, swap)
      modifies this`snap, this`log, this`refused
      ensures refused == old(refused) && Valid() && log == old(log) + [OfSettle(ReadySettle(swap))]
      ensures var o := old(snap).orders[id];
        snap == old(snap).(orders := old(snap).orders[id :=
          if !prepared then o.(state := OrderRecoverable) else if swap.amount != o.amount then o.(state := Rejected)
          else o.(state := Swapping, incomingSwap := Some(swap))])
        && Now().task == if prepared && swap.amount == o.amount then Task.SwapCall(VendJob(id)) else Idle
    {
      hide Inv, Run, ValidSnapshot, SettleDrawn, PrepareSettle, Step;
      Next(log, OfSettle(ReadySettle(swap)));
      PreparedStep(Now(), swap);
      var order := snap.orders[id];
      SwapRecord(Now(), id, swap, order.(state := OrderRecoverable), order.(state := Rejected), order.(state := Swapping, incomingSwap := Some(swap)));
      if !prepared {
        var _ := CommitOrder(id, order.(state := OrderRecoverable), None);
      } else if swap.amount != order.amount {
        var _ := CommitOrder(id, order.(state := Rejected), None);
      } else {
        var _ := CommitOrder(id, order.(state := Swapping, incomingSwap := Some(swap)), None);
      }
      log := log + [OfSettle(ReadySettle(swap))];
    }

    /** The order gives up its secrets in the commit that pays its proceeds in. */
    method FinishSettlement(id: nat)
      requires Valid() && Now().task == SwapDone(VendJob(id))
      modifies this`snap, this`log, this`refused
      ensures refused == old(refused) && Valid() && log == old(log) + [OfSettle(EndSettle)]
      ensures Now().task.Idle? && id in old(snap).orders && old(snap).orders[id].incomingSwap.Some?
      ensures var o := old(snap).orders[id];
        snap == old(snap).(proofs := old(snap).proofs + o.incomingSwap.value.keep,
                           orders := old(snap).orders[id := o.(state := OrderSettled, keys := None, incomingToken := None, incomingSwap := None,
                                                               readCapability := if o.relayAcknowledged then None else o.readCapability)])
    {
      hide Inv, Run, ValidSnapshot, OrderOnly, OrdersKeep, TokensKeep;
      Next(log, OfSettle(EndSettle));
      var order := snap.orders[id];
      var proceeds := order.incomingSwap.value.keep;
      order := order.(state := OrderSettled, keys := None, incomingToken := None, incomingSwap := None,
                      readCapability := if order.relayAcknowledged then None else order.readCapability);
      var _ := CommitOrder(id, order, Some(snap.proofs + proceeds));
      log := log + [OfSettle(EndSettle)];
    }

    method SettlementFailed(id: nat)
      requires Valid() && Now().task == SwapFailed(VendJob(id)) && id in snap.orders
      modifies this`snap, this`log, this`refused
      ensures refused == old(refused) && Valid() && log == old(log) + [OfSettle(DropSettle)]
      ensures snap == old(snap).(orders := old(snap).orders[id := old(snap).orders[id].(state := OrderRecoverable)]) && Now().task.Idle?
    {
      hide Inv, Run, ValidSnapshot, OrderOnly, OrdersKeep, TokensKeep;
      Next(log, OfSettle(DropSettle));
      var _ := CommitOrder(id, snap.orders[id].(state := OrderRecoverable), None);
      log := log + [OfSettle(DropSettle)];
    }

    method SettledAckAnswered(id: nat, acknowledged: bool)
      requires Valid() && Now().task == AckSettled(id) && id in snap.orders
      modifies this`snap, this`log, this`refused
      ensures refused == old(refused) && Valid() && log == old(log) + [OfSettle(SettledAcked(acknowledged))]
      ensures Now().task.Idle?
      ensures snap == if acknowledged then old(snap).(orders := old(snap).orders[id := old(snap).orders[id].(relayAcknowledged := true, readCapability := None)]) else old(snap)
    {
      hide Inv, Run, ValidSnapshot, OrderOnly, OrdersKeep, TokensKeep;
      Next(log, OfSettle(SettledAcked(acknowledged)));
      if acknowledged {
        RecoverableCommits(snap, id);
        var order := snap.orders[id].(relayAcknowledged := true, readCapability := None);
        OrderCommits(snap, id, order);
        var _ := CommitOrder(id, order, None);
      }
      log := log + [OfSettle(SettledAcked(acknowledged))];
    }

    /** The cancellation is stored before the slot is asked; `sent` says the record was accepted. */
    method CancelOrder(id: nat) returns (sent: bool)
      requires Valid() && Now().task.Idle? && id in snap.orders
      modifies this`snap, this`log, this`refused
      ensures refused == old(refused) + (if old(snap).orders[id].readCapability.Some? && old(snap).orders[id].keys.None? then 1 else 0)
      ensures Valid() && log == old(log) + [OfOrder(Cancel(id))] && Now().task == if sent then CancelCall(id) else Idle
      ensures var o := old(snap).orders[id];
        (sent <==> o.readCapability.Some? && o.keys.Some?)
        && snap == if sent then old(snap).(orders := old(snap).orders[id := o.(state := Cancelling)]) else old(snap)
    {
      hide Inv, Run, ValidSnapshot, OrderOnly, OrdersKeep, TokensKeep;
      Next(log, OfOrder(Cancel(id)));
      sent := false;
      if snap.orders[id].readCapability.Some? {
        RecoverableCommits(snap, id);
        var order := snap.orders[id].(state := Cancelling);
        OrderCommits(snap, id, order);
        sent := CommitOrder(id, order, None);
      }
      log := log + [OfOrder(Cancel(id))];
    }

    /** Cancelled, or a delivery won and the order is polled instead. */
    method CancelAnsweredBy(id: nat, answer: MarketSteps.CancelAnswer)
      requires Valid() && Now().task == CancelCall(id) && id in snap.orders
      modifies this`snap, this`log, this`refused
      ensures Valid() && log == old(log) + [OfOrder(CancelAnswered(answer))]
      ensures refused == old(refused) + (if answer.CancelDone? && Received(old(snap).orders[id]) then 1 else 0)
      ensures answer.DeliveryWon? ==> snap == old(snap) && Polled(id, old(snap).orders[id], Now().task)
      ensures !answer.DeliveryWon? ==>
        var o := old(snap).orders[id];
        && Now().task.Idle?
        && snap == old(snap).(orders := old(snap).orders[id :=
             if answer.CancelDone? && !Received(o) then o.(state := Cancelled, keys := None, readCapability := None) else o.(state := OrderRecoverable)])
    {
      hide Inv, Run, ValidSnapshot, OrderOnly, OrdersKeep, TokensKeep,
        PayStep, AddStep, OutStep, SettleStep, MarketRuns.MintStep;
      Next(log, OfOrder(CancelAnswered(answer)));
      var order := snap.orders[id];
      RecoverableCommits(snap, id);
      if answer.CancelDone? {
        var _ := TryOrder(id, order, order.(state := Cancelled, keys := None, readCapability := None));
      } else if answer.CancelFailed? {
        var _ := CommitOrder(id, order.(state := OrderRecoverable), None);
      }
      log := log + [OfOrder(CancelAnswered(answer))];
    }
  }

  /** At any moment between two of its steps the object's own fields balance, with no coin lost if its
      confirmations were safe. */
  lemma FieldsBalance(r: MarketRuntime)
    requires r.Valid()
    ensures ValidSnapshot(r.snap) && r.mint.ours <= r.mint.signed.Keys && r.mint.AllSpendable(r.snap.proofs)
    ensures Total(r.snap.proofs) + Live(r.mint, InPayments(r.snap.payments)) + Live(r.mint, InOrders(r.snap.orders)) + Live(r.mint, InAdds(r.snap.addCash))
            + Live(r.mint, InCashOuts(r.snap.cashOut)) + Live(r.mint, LostCoins(r.Now().tags))
            + r.mint.books.vendor + r.mint.books.melted + r.mint.books.fees == r.mint.books.issued + r.mint.books.received
    ensures SafeRun(START, r.log) ==> LostCoins(r.Now().tags) == {}
  {
    Conservation(r.log);
    SnapshotsLoad(r.log);
    SpendableIsGood(r.log);
    if SafeRun(START, r.log) { NothingIsLost(r.log); }
  }
}
