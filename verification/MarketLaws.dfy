/** What the invariant means for a reader: where the value is, and what operations never share. */
module MarketLaws {
  import opened Ecash
  import opened MintLedger
  import opened MarketRecords
  import opened MarketSteps
  import opened MarketInvariant
  import opened MarketFrames

  // ---- the places an unspent coin can be ----

  function InPayments(ps: map<nat, Payment>): set<nat> {
    set id, s | id in ps && ps[id].swap.Some? && s in ps[id].swap.value.Footprint() :: s
  }

  function InOrders(os: map<nat, Order>): set<nat> {
    set id, s | id in os && os[id].incomingSwap.Some? && s in Secrets(os[id].incomingSwap.value.keep) :: s
  }

  function InAdds(xs: map<nat, AddCash>): set<nat> {
    set id, s | id in xs && xs[id].outputs.Some? && s in Secrets(xs[id].outputs.value) :: s
  }

  function InCashOuts(os: map<nat, CashOut>): set<nat> {
    set id, s | id in os && s in OutFootprint(os[id]) :: s
  }

  /** Coins that a cash-out was released without. */
  function LostCoins(tags: map<nat, Tag>): set<nat> { set s | s in tags && tags[s].owner.Lost? }

  /** What the unspent coins of this wallet among `ss` are worth at the mint. */
  ghost function Live(m: Mint, ss: set<nat>): nat
    requires m.ours <= m.signed.Keys
  {
    Worth(ss * m.LiveOurs(), m.signed)
  }

  lemma PaymentOwner(m: Mint, tags: map<nat, Tag>, id: nat, p: Payment)
    requires PaymentOk(m, tags, id, p) && p.swap.Some?
    ensures forall s :: s in p.swap.value.Footprint() ==> s in tags && (tags[s].owner == Pay(id) || tags[s].owner == Sent(id))
  {
    SecretsConcat(p.swap.value.keep, p.swap.value.send);
  }

  lemma PaymentOwners(m: Mint, tags: map<nat, Tag>, ps: map<nat, Payment>)
    requires PaymentsOk(m, tags, ps)
    ensures forall s :: s in InPayments(ps) ==> s in tags && (tags[s].owner.Pay? || tags[s].owner.Sent?)
  {
    forall s | s in InPayments(ps) ensures s in tags && (tags[s].owner.Pay? || tags[s].owner.Sent?) {
      var id :| id in ps && ps[id].swap.Some? && s in ps[id].swap.value.Footprint();
      PaymentOwner(m, tags, id, ps[id]);
    }
  }

  lemma OrderOwners(m: Mint, tags: map<nat, Tag>, os: map<nat, Order>, xs: map<nat, AddCash>)
    requires OrdersOk(m, tags, os) && AddsOk(m, tags, xs)
    ensures forall s :: s in InOrders(os) ==> s in tags && tags[s].owner.Vend?
    ensures forall s :: s in InAdds(xs) ==> s in tags && tags[s].owner.Add?
  {
    forall s | s in InOrders(os) ensures s in tags && tags[s].owner.Vend? {
      var id :| id in os && os[id].incomingSwap.Some? && s in Secrets(os[id].incomingSwap.value.keep);
      assert OrderOk(m, tags, id, os[id]);
    }
    forall s | s in InAdds(xs) ensures s in tags && tags[s].owner.Add? {
      var id :| id in xs && xs[id].outputs.Some? && s in Secrets(xs[id].outputs.value);
      assert AddOk(m, tags, id, xs[id]);
    }
  }

  lemma OutOwners(m: Mint, tags: map<nat, Tag>, os: map<nat, CashOut>)
    requires OutsOk(m, tags, os)
    ensures forall s :: s in InCashOuts(os) ==> s in tags && tags[s].owner.Out?
  {
    forall s | s in InCashOuts(os) ensures s in tags && tags[s].owner.Out? {
      var id :| id in os && s in OutFootprint(os[id]);
      assert OutOk(m, tags, id, os[id]);
    }
  }

  lemma SomewhereRecorded(m: Mint, tags: map<nat, Tag>, snap: Snapshot)
    requires NothingLost(m, tags, snap)
    ensures m.LiveOurs() <= Secrets(snap.proofs) + InPayments(snap.payments) + InOrders(snap.orders) + InAdds(snap.addCash)
      + InCashOuts(snap.cashOut) + LostCoins(tags)
  {
    forall s | s in m.LiveOurs()
      ensures s in Secrets(snap.proofs) + InPayments(snap.payments) + InOrders(snap.orders) + InAdds(snap.addCash) + InCashOuts(snap.cashOut)
                 + LostCoins(tags)
    {
      assert Recorded(snap, tags[s].owner, s);
    }
  }

  /** What the unspent coins outside `gone` are worth. */
  ghost function Rest(m: Mint, gone: set<nat>): nat
    requires m.ours <= m.signed.Keys
  {
    Worth(m.LiveOurs() - gone, m.signed)
  }

  lemma Peel(m: Mint, gone: set<nat>, a: set<nat>)
    requires m.ours <= m.signed.Keys && gone !! a
    ensures Rest(m, gone) == Live(m, a) + Rest(m, gone + a)
  {
    var live := m.LiveOurs();
    WorthUnion(a * live, live - (gone + a), m.signed);
    assert live - gone == a * live + (live - (gone + a));
  }

  lemma AllAndNothing(m: Mint, gone: set<nat>)
    requires m.ours <= m.signed.Keys && m.LiveOurs() <= gone
    ensures Rest(m, gone) == 0 && Rest(m, {}) == Worth(m.LiveOurs(), m.signed)
  {
    assert m.LiveOurs() - gone == {} && m.LiveOurs() - {} == m.LiveOurs();
  }

  /** Coins in six places that have nothing in common are worth what the places are worth. */
  lemma SixPlaces(m: Mint, a: set<nat>, b: set<nat>, c: set<nat>, d: set<nat>, e: set<nat>, f: set<nat>)
    requires m.ours <= m.signed.Keys && m.LiveOurs() <= a + b + c + d + e + f
    requires a !! b && a + b !! c && a + b + c !! d && a + b + c + d !! e && a + b + c + d + e !! f
    ensures Worth(m.LiveOurs(), m.signed) == Live(m, a) + Live(m, b) + Live(m, c) + Live(m, d) + Live(m, e) + Live(m, f)
  {
    hide Rest, Live, Mint.LiveOurs;
    AllAndNothing(m, a + b + c + d + e + f);
    assert {} + a == a;
    Peel(m, {}, a);
    Peel(m, a, b);
    Peel(m, a + b, c);
    Peel(m, a + b + c, d);
    Peel(m, a + b + c + d, e);
    Peel(m, a + b + c + d + e, f);
  }

  lemma PlacesApart(m: Mint, tags: map<nat, Tag>, snap: Snapshot)
    requires ProofsOk(m, tags, snap.proofs)
    requires PaymentsOk(m, tags, snap.payments) && OrdersOk(m, tags, snap.orders) && AddsOk(m, tags, snap.addCash) && OutsOk(m, tags, snap.cashOut)
    ensures var a, b, c := Secrets(snap.proofs), InPayments(snap.payments), InOrders(snap.orders);
      var d, e, f := InAdds(snap.addCash), InCashOuts(snap.cashOut), LostCoins(tags);
      a !! b && a + b !! c && a + b + c !! d && a + b + c + d !! e && a + b + c + d + e !! f
  {
    hide PaymentsOk, OrdersOk, AddsOk, OutsOk;
    PaymentOwners(m, tags, snap.payments);
    OrderOwners(m, tags, snap.orders, snap.addCash);
    OutOwners(m, tags, snap.cashOut);
    hide InPayments, InOrders, InAdds, InCashOuts;
  }

  /** The books, place by place. */
  lemma EveryPlace(m: Mint, tags: map<nat, Tag>, snap: Snapshot)
    requires m.Ok() && NothingLost(m, tags, snap) && ProofsOk(m, tags, snap.proofs)
    requires PaymentsOk(m, tags, snap.payments) && OrdersOk(m, tags, snap.orders) && AddsOk(m, tags, snap.addCash)
      && OutsOk(m, tags, snap.cashOut)
    ensures Total(snap.proofs) + Live(m, InPayments(snap.payments)) + Live(m, InOrders(snap.orders)) + Live(m, InAdds(snap.addCash))
            + Live(m, InCashOuts(snap.cashOut)) + Live(m, LostCoins(tags)) + m.books.vendor + m.books.melted + m.books.fees
         == m.books.issued + m.books.received
  {
    SomewhereRecorded(m, tags, snap);
    PlacesApart(m, tags, snap);
    WorthOfCoins(snap.proofs, m.signed);
    assert Secrets(snap.proofs) * m.LiveOurs() == Secrets(snap.proofs);
    hide PaymentsOk, OrdersOk, AddsOk, OutsOk, ProofsOk, NothingLost, InPayments, InOrders, InAdds, InCashOuts, LostCoins, Secrets;
    SixPlaces(m, Secrets(snap.proofs), InPayments(snap.payments), InOrders(snap.orders), InAdds(snap.addCash),
              InCashOuts(snap.cashOut), LostCoins(tags));
  }

  // ---- what operations never share ----

  /** The inputs, reserved proofs and outputs an operation stores. */
  function Stored(snap: Snapshot, owner: Owner): set<nat> {
    match owner
    case Spendable => Secrets(snap.proofs)
    case Pay(id) => if id in snap.payments && snap.payments[id].swap.Some? then snap.payments[id].swap.value.Footprint() else {}
    case Vend(id) => if id in snap.orders && snap.orders[id].incomingSwap.Some? then snap.orders[id].incomingSwap.value.Footprint() else {}
    case Add(id) => if id in snap.addCash && snap.addCash[id].outputs.Some? then Secrets(snap.addCash[id].outputs.value) else {}
    case Out(id) => if id in snap.cashOut then OutFootprint(snap.cashOut[id]) else {}
    case _ => {}
  }

  /** The owners of what an operation stores: itself, the receiver of its payment, or, for the inputs
      of a settlement, a stranger who locked them to this order's key. */
  predicate StoredFor(snap: Snapshot, owner: Owner, found: Owner) {
    || found == owner
    || (owner.Pay? && found == Sent(owner.id))
    || (owner.Vend? && owner.id in snap.orders && snap.orders[owner.id].keys.Some? && found == Vendor(Some(snap.orders[owner.id].keys.value.privateKey)))
  }

  lemma StoredOwner(m: Mint, tags: map<nat, Tag>, snap: Snapshot, owner: Owner)
    requires ProofsOk(m, tags, snap.proofs)
    requires PaymentsOk(m, tags, snap.payments) && OrdersOk(m, tags, snap.orders) && AddsOk(m, tags, snap.addCash) && OutsOk(m, tags, snap.cashOut)
    ensures forall s :: s in Stored(snap, owner) ==> s in tags && StoredFor(snap, owner, tags[s].owner)
  {
    match owner
    case Pay(id) => if id in snap.payments && snap.payments[id].swap.Some? { PaymentOwner(m, tags, id, snap.payments[id]); }
    case Vend(id) =>
      if id in snap.orders && snap.orders[id].incomingSwap.Some? {
        assert OrderOk(m, tags, id, snap.orders[id]);
        SecretsConcat(snap.orders[id].incomingSwap.value.keep, snap.orders[id].incomingSwap.value.send);
      }
    case Add(id) => if id in snap.addCash { assert AddOk(m, tags, id, snap.addCash[id]); }
    case Out(id) => if id in snap.cashOut { assert OutOk(m, tags, id, snap.cashOut[id]); }
    case _ =>
  }

  /** No owner is one that two operations store secrets of. */
  lemma StoredApart(snap: Snapshot, o: Owner, p: Owner, found: Owner)
    requires KeysOk(snap.orders) && o != p && StoredFor(snap, o, found) && StoredFor(snap, p, found)
    ensures Stored(snap, o) == {} || Stored(snap, p) == {}
  {
  }

  /** Inputs a stored operation has given up for good. */
  function GivenUp(snap: Snapshot, owner: Owner): set<nat> {
    match owner
    case Pay(id) => if id in snap.payments then Secrets(InputsOf(snap.payments[id].swap)) else {}
    case Out(id) => if id in snap.cashOut then Secrets(ReservedOf(snap.cashOut[id])) else {}
    case _ => {}
  }

  lemma GivenUpRetired(m: Mint, tags: map<nat, Tag>, snap: Snapshot, owner: Owner)
    requires PaymentsOk(m, tags, snap.payments) && OutsOk(m, tags, snap.cashOut)
    ensures forall s :: s in GivenUp(snap, owner) ==> s in tags && tags[s].retired
  {
    match owner
    case Pay(id) => if id in snap.payments { assert PaymentOk(m, tags, id, snap.payments[id]); }
    case Out(id) => if id in snap.cashOut { assert OutOk(m, tags, id, snap.cashOut[id]); }
    case _ =>
  }

  lemma SnapshotIsValid(m: Mint, tags: map<nat, Tag>, snap: Snapshot)
    requires ProofsOk(m, tags, snap.proofs)
    requires PaymentsOk(m, tags, snap.payments) && OrdersOk(m, tags, snap.orders) && AddsOk(m, tags, snap.addCash)
      && OutsOk(m, tags, snap.cashOut)
    ensures ValidSnapshot(snap)
  {
    forall id | id in snap.payments ensures snap.payments[id].Valid() && Secrets(InputsOf(snap.payments[id].swap)) !! Secrets(snap.proofs) {
      assert PaymentOk(m, tags, id, snap.payments[id]);
    }
    forall id | id in snap.cashOut ensures snap.cashOut[id].Valid() && Secrets(ReservedOf(snap.cashOut[id])) !! Secrets(snap.proofs) {
      assert OutOk(m, tags, id, snap.cashOut[id]);
    }
    forall id | id in snap.orders ensures snap.orders[id].Valid() { assert OrderOk(m, tags, id, snap.orders[id]); }
    forall id | id in snap.addCash ensures snap.addCash[id].amount > 0 { assert AddOk(m, tags, id, snap.addCash[id]); }
  }

  // ---- the one commit the validator refuses ----

  /** `checkPayment` tries to commit a record the validator refuses exactly when a later delivery
      attempt of an already delivered payment was refused for good and the token is still
      unspent or pending. */
  lemma RefusedCheck(p: Payment, answer: TokenState)
    requires p.Valid() && p.CompleteDelivery() && p.swap.None?
    ensures !CheckedPayment(p, answer).Valid() <==> p.deliveryRetryable == Some(false) && p.deliveredAt.Some? && answer in {AllUnspent, AllPending}
  {
  }

  // ---- the two ways out of a cash-out ----

  /** The mint paid the melt with the proofs this cash-out reserved. */
  predicate Melted(w: World, id: nat) {
    && id in w.snap.cashOut && id in w.pledged && PaidAt(w.mint, w.snap.cashOut[id].quote)
    && w.mint.meltQuotes[w.snap.cashOut[id].quote].state.inputs == w.pledged[id]
  }

  /** The reserved proofs were swapped back: the mint signed the recovery outputs, or the record
      released its reservation and the proofs are spent although they were not melted. */
  predicate SwappedBack(w: World, id: nat) {
    && id in w.snap.cashOut && id in w.pledged
    && var o := w.snap.cashOut[id];
    || (o.recovery.Some? && o.reserved.Some? && Secrets(o.recovery.value.keep) <= w.mint.signed.Keys)
    || (o.reserved.None? && Secrets(w.pledged[id]) <= w.mint.spent && !Melted(w, id))
  }

  lemma NeverBoth(m: Mint, tags: map<nat, Tag>, id: nat, o: CashOut)
    requires OutOk(m, tags, id, o) && o.recovery.Some? && Secrets(o.recovery.value.keep) <= m.signed.Keys
    ensures Secrets(o.reserved.value) <= m.spent
    ensures !MeltOver(m.meltQuotes[o.quote].state, o.reserved.value)
  {
    var keep := o.recovery.value.keep;
    assert o.recovery.value.Outputs() == keep;
    assert keep[0].secret in Secrets(keep);
  }
}
