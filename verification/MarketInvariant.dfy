/** What every reachable world satisfies. Each secret has one owner, so the footprints of two
    operations can never meet, and each record is in one of a few exact phases with the mint. */
module MarketInvariant {
  import opened Ecash
  import opened MintLedger
  import opened MarketRecords
  import opened MarketSteps

  // ---- coins ----

  /** Unspent coins of this wallet that the mint would accept now. */
  predicate Held(m: Mint, cs: seq<Coin>) {
    forall c :: c in cs ==> m.Spendable(c) && c.secret in m.ours
  }

  predicate Tagged(tags: map<nat, Tag>, ss: set<nat>, t: Tag) {
    forall s :: s in ss ==> s in tags && tags[s] == t
  }

  // ---- records ----

  /** Applied: the outputs are signed, what the wallet keeps is live and the inputs are gone. */
  predicate Applied(m: Mint, sw: Swap) {
    Secrets(sw.Outputs()) <= m.signed.Keys && Held(m, sw.keep) && Secrets(sw.inputs) <= m.spent
  }

  predicate PaymentOk(m: Mint, tags: map<nat, Tag>, id: nat, p: Payment) {
    && p.Valid()
    && (p.token.Some? ==> p.CompleteDelivery()) && (p.payload.Some? ==> p.token.Some?)
    && (p.swap.Some? ==>
          && p.token.None? && p.request.Some? && p.deliveryUrl.Some? && p.deliveryRetryable.None? && p.deliveredAt.None?
          && PaymentSwapOk(m, tags, id, p.swap.value))
  }

  predicate PaymentSwapOk(m: Mint, tags: map<nat, Tag>, id: nat, sw: Swap) {
    && sw.Wellformed() && SwapValid(sw) && sw.send != []
    && Tagged(tags, Secrets(sw.inputs), Tag(Pay(id), true))
    && Tagged(tags, Secrets(sw.keep), Tag(Pay(id), false))
    && Tagged(tags, Secrets(sw.send), Tag(Sent(id), false))
    && (Applied(m, sw) || (m.Unsigned(Secrets(sw.Outputs())) && Held(m, sw.inputs)))
  }

  predicate OrderOk(m: Mint, tags: map<nat, Tag>, id: nat, o: Order) {
    && o.Valid()
    && (o.incomingSwap.Some? ==> o.keys.Some? && OrderSwapOk(m, tags, id, o.amount, o.keys.value.privateKey, o.incomingSwap.value))
  }

  predicate OrderSwapOk(m: Mint, tags: map<nat, Tag>, id: nat, amount: nat, key: nat, sw: Swap) {
    && sw.Wellformed() && SwapValid(sw) && sw.send == [] && sw.amount == amount == Total(sw.keep)
    && (forall s :: s in Secrets(sw.inputs) ==> s in tags && tags[s].owner == Vendor(Some(key)))
    && Tagged(tags, Secrets(sw.keep), Tag(Vend(id), false))
    && (Applied(m, sw) || m.Unsigned(Secrets(sw.keep)))
  }

  predicate AddOk(m: Mint, tags: map<nat, Tag>, id: nat, a: AddCash) {
    && a.amount > 0 && a.quote in m.mintQuotes
    && (a.outputs.Some? ==>
          && OutputsOk(m, tags, id, a.outputs.value)
          && (m.Unsigned(Secrets(a.outputs.value)) || m.mintQuotes[a.quote].issued))
  }

  predicate OutputsOk(m: Mint, tags: map<nat, Tag>, id: nat, os: seq<Coin>) {
    && os != [] && Distinct(os) && Positive(os)
    && Tagged(tags, Secrets(os), Tag(Add(id), false))
    && (Held(m, os) || m.Unsigned(Secrets(os)))
  }

  predicate RecoveryUnsigned(m: Mint, recovery: Option<Swap>) { recovery.Some? ==> m.Unsigned(Secrets(recovery.value.keep)) }

  /** The reserved proofs `r` are untouched, or were swapped back by the recovery. */
  predicate Unmelted(m: Mint, recovery: Option<Swap>, r: seq<Coin>, b: seq<nat>) {
    && m.Unsigned(Blanks(b))
    && ((RecoveryUnsigned(m, recovery) && Held(m, r)) || (recovery.Some? && Held(m, recovery.value.keep) && Secrets(r) <= m.spent))
  }

  /** The melt of this state is over exactly the proofs `r`. */
  predicate MeltOver(st: MeltState, r: seq<Coin>) { !st.Unpaid? && st.inputs == r }

  /** The reserved proofs `r` and blank outputs `b` of a cash-out, against its quote at the mint:
      locked under a melt, melted with change on the blanks, or not melted, whatever another cash-out
      has done with the same quote. */
  predicate OutPhase(m: Mint, recovery: Option<Swap>, r: seq<Coin>, b: seq<nat>, st: MeltState) {
    if !MeltOver(st, r) then Unmelted(m, recovery, r, b)
    else
      && st.blanks == b && RecoveryUnsigned(m, recovery)
      && if st.Pending? then m.Unsigned(Blanks(b))
         else
           && Secrets(r) <= m.spent && Unblinds(b, st.change) && Distinct(st.change) && Positive(st.change) && Held(m, st.change)
           && forall s :: s in Blanks(b) && s in m.signed ==> s in Secrets(st.change)
  }

  predicate OutOk(m: Mint, tags: map<nat, Tag>, id: nat, o: CashOut) {
    && o.Valid() && o.quote in m.meltQuotes
    && (o.reserved.None? ==> o.blanks.None? && o.recovery.None?)
    && (o.reserved.Some? ==>
          && o.blanks.Some?
          && ReservationOk(m, tags, id, o.recovery, o.reserved.value, o.blanks.value, m.meltQuotes[o.quote].state))
  }

  predicate ReservationOk(m: Mint, tags: map<nat, Tag>, id: nat, recovery: Option<Swap>, r: seq<Coin>, b: seq<nat>, st: MeltState) {
    && r != [] && DistinctBlanks(b)
    && Tagged(tags, Secrets(r), Tag(Out(id), true))
    && Tagged(tags, Blanks(b), Tag(Out(id), false))
    && (recovery.Some? ==> RecoveryOk(tags, id, recovery.value, r, b))
    && OutPhase(m, recovery, r, b, st)
  }

  predicate RecoveryOk(tags: map<nat, Tag>, id: nat, sw: Swap, r: seq<Coin>, b: seq<nat>) {
    && sw.inputs == r && sw.send == [] && sw.Wellformed() && SwapValid(sw)
    && Tagged(tags, Secrets(sw.keep), Tag(Out(id), false)) && Secrets(sw.keep) !! Blanks(b)
  }

  predicate PaymentsOk(m: Mint, tags: map<nat, Tag>, ps: map<nat, Payment>) {
    forall id :: id in ps ==> PaymentOk(m, tags, id, ps[id])
  }

  predicate OrdersOk(m: Mint, tags: map<nat, Tag>, os: map<nat, Order>) {
    forall id :: id in os ==> OrderOk(m, tags, id, os[id])
  }

  /** Two orders never hold the same key pair. */
  predicate KeysOk(os: map<nat, Order>) {
    forall i, j :: i in os && j in os && i != j && os[i].keys.Some? && os[j].keys.Some? ==>
      os[i].keys.value.privateKey != os[j].keys.value.privateKey
  }

  /** What a cash-out still reserves is what it reserved when it was confirmed. */
  predicate PledgeOk(pledged: map<nat, seq<Coin>>, id: nat, o: CashOut) {
    id in pledged && pledged[id] != [] && (o.reserved.Some? ==> o.reserved.value == pledged[id])
  }

  predicate PledgesOk(pledged: map<nat, seq<Coin>>, outs: map<nat, CashOut>) {
    forall id :: id in outs ==> PledgeOk(pledged, id, outs[id])
  }

  predicate AddsOk(m: Mint, tags: map<nat, Tag>, xs: map<nat, AddCash>) {
    forall id :: id in xs ==> AddOk(m, tags, id, xs[id])
  }

  predicate OutsOk(m: Mint, tags: map<nat, Tag>, os: map<nat, CashOut>) {
    forall id :: id in os ==> OutOk(m, tags, id, os[id])
  }

  // ---- the rest of the world ----

  predicate ProofsOk(m: Mint, tags: map<nat, Tag>, proofs: seq<Coin>) {
    ProofListValid(proofs) && Held(m, proofs) && Tagged(tags, Secrets(proofs), Tag(Spendable, false))
  }

  predicate TagsOk(m: Mint, tags: map<nat, Tag>) {
    && (forall s :: s in m.ours ==> s in tags && !tags[s].owner.Draft? && !tags[s].owner.Vendor? && !tags[s].owner.Sent?)
    && (forall s :: s in m.signed && s !in m.ours ==> s in tags && (tags[s].owner.Vendor? || tags[s].owner.Sent?))
  }

  /** Some durable record of its owner, or the spendable set, still mentions this secret, or it is
      accounted as lost. */
  predicate Recorded(snap: Snapshot, owner: Owner, s: nat) {
    match owner
    case Draft(_) => false
    case Vendor(_) => false
    case Sent(_) => false
    case Spendable => s in Secrets(snap.proofs)
    case Pay(id) => id in snap.payments && snap.payments[id].swap.Some? && s in snap.payments[id].swap.value.Footprint()
    case Vend(id) => id in snap.orders && snap.orders[id].incomingSwap.Some? && s in Secrets(snap.orders[id].incomingSwap.value.keep)
    case Add(id) => id in snap.addCash && snap.addCash[id].outputs.Some? && s in Secrets(snap.addCash[id].outputs.value)
    case Out(id) => id in snap.cashOut && s in OutFootprint(snap.cashOut[id])
    case Lost => true
  }

  /** No unspent coin of the wallet is forgotten by the durable snapshot unnoticed. */
  predicate NothingLost(m: Mint, tags: map<nat, Tag>, snap: Snapshot) {
    forall s :: s in m.LiveOurs() ==> s in tags && Recorded(snap, tags[s].owner, s)
  }

  /** What a melt under each quote takes, before input fees. */
  function Needs(m: Mint): map<nat, nat> {
    map q | q in m.meltQuotes :: m.meltQuotes[q].amount + m.meltQuotes[q].feeReserve
  }

  predicate NeedsKept(needs: map<nat, nat>, needs': map<nat, nat>) {
    forall q :: q in needs ==> q in needs' && needs'[q] == needs[q]
  }

  predicate ReviewOk(needs: map<nat, nat>, tags: map<nat, Tag>, rid: nat, rv: Review) {
    match rv
    case PayReview(basis, sw, _, amount, _, _) =>
      && sw.Wellformed() && SwapValid(sw) && sw.send != [] && amount > 0
      && multiset(sw.inputs) + multiset(sw.unselected) == multiset(basis)
      && (Tagged(tags, Secrets(sw.Outputs()), Tag(Draft(rid), false))
          || (sw.inputs[0].secret in tags && tags[sw.inputs[0].secret].retired))
    case OutReview(basis, keep, reserved, blanks, quote, amount, inputFee) =>
      && reserved != [] && amount > 0 && quote in needs && Total(reserved) >= needs[quote] + inputFee && DistinctBlanks(blanks)
      && multiset(reserved) + multiset(keep) == multiset(basis)
      && (Tagged(tags, Blanks(blanks), Tag(Draft(rid), false))
          || (reserved[0].secret in tags && tags[reserved[0].secret].retired))
  }

  predicate ReviewsOk(needs: map<nat, nat>, tags: map<nat, Tag>, reviews: map<nat, Review>) {
    forall rid :: rid in reviews ==> ReviewOk(needs, tags, rid, reviews[rid])
  }

  /** The mint can no longer act on this request: its inputs are spent or its quote is paid. */
  predicate Dead(m: Mint, r: MeltRequest) { Secrets(r.inputs) <= m.spent || PaidAt(m, r.quote) }

  /** A melt request in flight is dead, or belongs to a cash-out that still reserves its inputs. */
  predicate RequestOk(m: Mint, outs: map<nat, CashOut>, r: MeltRequest) {
    r.inputs != [] && (Dead(m, r) || exists id :: id in outs && Requests(outs[id], r))
  }

  predicate Requests(o: CashOut, r: MeltRequest) {
    o.quote == r.quote && o.reserved == Some(r.inputs) && o.blanks == Some(r.blanks)
  }

  predicate WireOk(m: Mint, outs: map<nat, CashOut>, wire: set<MeltRequest>) {
    forall r :: r in wire ==> RequestOk(m, outs, r)
  }

  /** This cash-out asked for the melt that is pending under the quote. */
  predicate Melts(o: CashOut, quote: nat, st: MeltState) {
    st.Pending? && o.quote == quote && o.reserved == Some(st.inputs) && o.blanks == Some(st.blanks)
  }

  predicate Melting(outs: map<nat, CashOut>, quote: nat, st: MeltState) { exists id :: id in outs && Melts(outs[id], quote, st) }

  predicate MeltsKnown(quotes: map<nat, MeltQuote>, outs: map<nat, CashOut>) {
    forall q :: q in quotes && quotes[q].state.Pending? ==> Melting(outs, q, quotes[q].state)
  }

  predicate PaidSeen(m: Mint, snap: Snapshot, id: nat, st: MeltState) {
    st.Paid? ==> id in snap.cashOut && snap.cashOut[id].quote in m.meltQuotes && m.meltQuotes[snap.cashOut[id].quote].state == st
  }

  predicate TaskOk(m: Mint, snap: Snapshot, task: Task) {
    match task
    case SwapDone(job) => HasSwap(snap, job) && Secrets(SwapOf(snap, job).Outputs()) <= m.signed.Keys
    case SwapFailed(job) => job.PayJob? ==> HasSwap(snap, job)
    case SwapCall(job) => job.PayJob? ==> HasSwap(snap, job)
    case RestoreCall(job) => job.PayJob? ==> HasSwap(snap, job)
    case IssueDone(id) => id in snap.addCash && snap.addCash[id].outputs.Some? && Secrets(snap.addCash[id].outputs.value) <= m.signed.Keys
    case DeliverStart(id) => id in snap.payments && snap.payments[id].CompleteDelivery()
    case DeliverCall(id) => id in snap.payments && snap.payments[id].CompleteDelivery()
    case DeliverSeen(id, _) => id in snap.payments && snap.payments[id].CompleteDelivery()
    case MeltCall(id) => id in snap.cashOut && snap.cashOut[id].recovery.None?
    case MeltWait(id) => id in snap.cashOut && snap.cashOut[id].recovery.None?
    case MeltSeen(id, seen) =>
      && id in snap.cashOut && snap.cashOut[id].recovery.None?
      && (seen.Some? ==> PaidSeen(m, snap, id, seen.value))
      && (seen.Some? && seen.value.Paid? ==> snap.cashOut[id].reserved == Some(seen.value.inputs))
    case OutSeen(id, found) => PaidSeen(m, snap, id, found)
    case RegisterCall(id) => id in snap.orders && snap.orders[id].keys.Some? && snap.orders[id].readCapability.Some?
    case ReadCall(id) => id in snap.orders && snap.orders[id].incomingToken.None? && snap.orders[id].incomingSwap.None?
    case AckSettled(id) => id in snap.orders && snap.orders[id].state.OrderSettled?
    case _ => true
  }

  predicate SentOk(payments: map<nat, Payment>, sent: seq<Delivery>) {
    && (forall i :: 0 <= i < |sent| ==> StillSent(payments, sent[i]))
    && (forall i, j :: 0 <= i < |sent| && 0 <= j < |sent| && sent[i].id == sent[j].id ==> sent[i] == sent[j])
  }

  predicate StillSent(payments: map<nat, Payment>, d: Delivery) {
    && d.id in payments && payments[d.id].swap.None?
    && (payments[d.id].payload.Some? ==> payments[d.id].payload == Some(d.payload) && payments[d.id].deliveryUrl == Some(d.url))
  }

  /** The operation that paid in this credit can never pay in another one. */
  predicate Closed(m: Mint, snap: Snapshot, source: Owner) {
    match source
    case Pay(id) => id in snap.payments && snap.payments[id].swap.None?
    case Vend(id) => id in snap.orders && snap.orders[id].incomingSwap.None? && snap.orders[id].keys.None?
    case Add(id) =>
      && id in snap.addCash && snap.addCash[id].quote in m.mintQuotes && m.mintQuotes[snap.addCash[id].quote].issued
      && (snap.addCash[id].outputs.Some? ==> m.Unsigned(Secrets(snap.addCash[id].outputs.value)))
    case Out(id) => id in snap.cashOut && snap.cashOut[id].reserved.None?
    case _ => false
  }

  predicate AllClosed(m: Mint, snap: Snapshot, credits: seq<Credit>) {
    forall i :: 0 <= i < |credits| ==> Closed(m, snap, credits[i].source)
  }

  predicate Credited(tags: map<nat, Tag>, cs: seq<Coin>) {
    forall c :: c in cs ==> c.secret in tags && (tags[c.secret].owner.Spendable? || tags[c.secret].retired)
  }

  predicate CreditsOk(tags: map<nat, Tag>, credits: seq<Credit>) {
    && (forall i :: 0 <= i < |credits| ==> credits[i].coins != [] && Distinct(credits[i].coins) && Credited(tags, credits[i].coins))
    && (forall i, j :: 0 <= i < j < |credits| ==>
          credits[i].source != credits[j].source && Secrets(credits[i].coins) !! Secrets(credits[j].coins))
  }

  ghost predicate Inv(w: World) {
    && w.mint.Ok() && TagsOk(w.mint, w.tags) && ProofsOk(w.mint, w.tags, w.snap.proofs)
    && PaymentsOk(w.mint, w.tags, w.snap.payments) && OrdersOk(w.mint, w.tags, w.snap.orders)
    && AddsOk(w.mint, w.tags, w.snap.addCash) && OutsOk(w.mint, w.tags, w.snap.cashOut)
    && NothingLost(w.mint, w.tags, w.snap)
    && KeysOk(w.snap.orders) && PledgesOk(w.pledged, w.snap.cashOut)
    && ReviewsOk(Needs(w.mint), w.tags, w.reviews)
    && WireOk(w.mint, w.snap.cashOut, w.wire) && MeltsKnown(w.mint.meltQuotes, w.snap.cashOut)
    && TaskOk(w.mint, w.snap, w.task) && SentOk(w.snap.payments, w.sent)
    && AllClosed(w.mint, w.snap, w.credits) && CreditsOk(w.tags, w.credits)
  }
}
