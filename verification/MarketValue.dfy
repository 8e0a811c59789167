/** Steps in which value changes hands: swaps, issuance, melts, and the commits that credit fresh
    coins to the spendable set. */
module MarketValue {
  import opened Ecash
  import opened MintLedger
  import opened MarketRecords
  import opened MarketSteps
  import opened MarketInvariant
  import opened MarketFrames

  // ---- the mint applies a swap ----

  /** The owners a stored swap may touch, beside the strangers whose coins it takes in. */
  function Touched(job: Job): set<Owner> {
    match job
    case PayJob(id, _) => {Pay(id), Sent(id)}
    case VendJob(id) => {Vend(id)}
    case RecoverJob(id) => {Out(id)}
  }

  lemma SwapMint(m: Mint, sw: Swap)
    requires CanSwap(m, sw)
    ensures var n := ApplySwap(m, sw);
      && n.signed.Keys == m.signed.Keys + Secrets(sw.Outputs())
      && (forall s :: s in m.signed ==> n.signed[s] == m.signed[s])
      && Secrets(sw.keep) <= Secrets(sw.Outputs()) && Secrets(sw.Outputs()) == Secrets(sw.keep) + Secrets(sw.send)
      && (forall c :: c in sw.keep ==> n.signed[c.secret] == c.amount)
  {
    SignedAfter(m.signed, sw.Outputs());
    SecretsConcat(sw.keep, sw.send);
    forall c | c in sw.keep ensures ApplySwap(m, sw).signed[c.secret] == c.amount { assert c in sw.Outputs(); }
  }

  lemma SwapApplied(m: Mint, sw: Swap)
    requires CanSwap(m, sw) && m.spent + m.locked <= m.signed.Keys
    ensures Applied(ApplySwap(m, sw), sw)
  {
    SwapMint(m, sw);
    var n := ApplySwap(m, sw);
    forall c | c in sw.keep ensures n.Spendable(c) && c.secret in n.ours {
      assert c.secret in Secrets(sw.keep);
    }
  }

  /** Every secret of the swap is tagged with an owner of its job, or is a stranger's input. */
  predicate SwapTagged(m: Mint, tags: map<nat, Tag>, job: Job, sw: Swap) {
    && (forall s :: s in Secrets(sw.Outputs()) ==> s in tags && tags[s].owner in Touched(job))
    && (forall s :: s in Secrets(sw.inputs) ==> s in tags && (tags[s].owner in Touched(job) || s !in m.ours))
  }

  lemma SwapConfined(m: Mint, tags: map<nat, Tag>, job: Job, sw: Swap)
    requires CanSwap(m, sw) && SwapTagged(m, tags, job, sw)
    ensures Confined(m, tags, ApplySwap(m, sw), tags, Touched(job))
  {
    SwapMint(m, sw);
    var n := ApplySwap(m, sw);
    forall s | s in tags && tags[s].owner !in Touched(job) ensures SameAt(m, tags, n, tags, s) {
      assert s !in Secrets(sw.Outputs()) && (s in Secrets(sw.inputs) ==> s !in m.ours);
    }
  }

  lemma PaymentTagged(m: Mint, tags: map<nat, Tag>, id: nat, p: Payment, confirming: bool)
    requires PaymentOk(m, tags, id, p) && p.swap.Some?
    ensures SwapTagged(m, tags, PayJob(id, confirming), p.swap.value)
  {
    SecretsConcat(p.swap.value.keep, p.swap.value.send);
  }

  lemma OrderTagged(m: Mint, tags: map<nat, Tag>, id: nat, o: Order)
    requires OrderOk(m, tags, id, o) && o.incomingSwap.Some? && TagsOk(m, tags)
    ensures SwapTagged(m, tags, VendJob(id), o.incomingSwap.value)
  {
    SecretsConcat(o.incomingSwap.value.keep, o.incomingSwap.value.send);
  }

  lemma RecoveryTagged(m: Mint, tags: map<nat, Tag>, id: nat, o: CashOut)
    requires OutOk(m, tags, id, o) && o.recovery.Some?
    ensures SwapTagged(m, tags, RecoverJob(id), o.recovery.value)
  {
    SecretsConcat(o.recovery.value.keep, o.recovery.value.send);
  }

  lemma JobTagged(w: World, job: Job)
    requires Inv(w) && HasSwap(w.snap, job)
    ensures SwapTagged(w.mint, w.tags, job, SwapOf(w.snap, job))
  {
    hide TagsOk, NothingLost, AllClosed, ProofsOk, CreditsOk, ReviewsOk, WireOk, PledgesOk, MeltsKnown, SentOk, KeysOk, AddsOk,
      PaymentOk, OrderOk, OutOk, SwapTagged;
    match job
    case PayJob(id, c) => PaymentTagged(w.mint, w.tags, id, w.snap.payments[id], c);
    case VendJob(id) => OrderTagged(w.mint, w.tags, id, w.snap.orders[id]);
    case RecoverJob(id) => RecoveryTagged(w.mint, w.tags, id, w.snap.cashOut[id]);
  }

  /** The swapping record is in order. */
  predicate OwnRecordOk(m: Mint, tags: map<nat, Tag>, snap: Snapshot, job: Job)
    requires HasSwap(snap, job)
  {
    match job
    case PayJob(id, _) => PaymentOk(m, tags, id, snap.payments[id])
    case VendJob(id) => OrderOk(m, tags, id, snap.orders[id])
    case RecoverJob(id) => OutOk(m, tags, id, snap.cashOut[id])
  }

  /** A mint step confined to one swap's owners keeps the records, given the swap's own. */
  lemma JobPaymentsFrame(m: Mint, n: Mint, tags: map<nat, Tag>, snap: Snapshot, job: Job)
    requires Confined(m, tags, n, tags, Touched(job)) && HasSwap(snap, job) && OwnRecordOk(n, tags, snap, job)
    requires PaymentsOk(m, tags, snap.payments)
    ensures PaymentsOk(n, tags, snap.payments)
  {
    PaymentsFrame(m, tags, n, tags, Touched(job), snap.payments);
  }

  lemma JobOrdersFrame(m: Mint, n: Mint, tags: map<nat, Tag>, snap: Snapshot, job: Job)
    requires Confined(m, tags, n, tags, Touched(job)) && HasSwap(snap, job) && OwnRecordOk(n, tags, snap, job)
    requires OrdersOk(m, tags, snap.orders)
    ensures OrdersOk(n, tags, snap.orders)
  {
    OrdersFrame(m, tags, n, tags, Touched(job), snap.orders);
  }

  lemma JobOutsFrame(m: Mint, n: Mint, tags: map<nat, Tag>, snap: Snapshot, job: Job)
    requires Confined(m, tags, n, tags, Touched(job)) && HasSwap(snap, job) && OwnRecordOk(n, tags, snap, job)
    requires n.meltQuotes == m.meltQuotes && OutsOk(m, tags, snap.cashOut)
    ensures OutsOk(n, tags, snap.cashOut)
  {
    OutsFrame(m, tags, n, tags, Touched(job), snap.cashOut, None);
  }

  lemma JobSidesFrame(m: Mint, n: Mint, tags: map<nat, Tag>, snap: Snapshot, credits: seq<Credit>, job: Job)
    requires Confined(m, tags, n, tags, Touched(job)) && n.mintQuotes == m.mintQuotes
    requires AddsOk(m, tags, snap.addCash) && ProofsOk(m, tags, snap.proofs) && AllClosed(m, snap, credits)
    ensures AddsOk(n, tags, snap.addCash) && ProofsOk(n, tags, snap.proofs) && AllClosed(n, snap, credits)
  {
    AddsFrame(m, tags, n, tags, Touched(job), snap.addCash);
    HeldFrame(m, tags, n, tags, Touched(job), snap.proofs, Tag(Spendable, false));
    ClosedFrame(m, tags, n, tags, snap, credits, Touched(job));
  }

  /** The swapping record itself moves to its applied phase. */
  lemma SwapOwnRecord(w: World, job: Job)
    requires Inv(w) && HasSwap(w.snap, job) && CanSwap(w.mint, SwapOf(w.snap, job))
    ensures OwnRecordOk(ApplySwap(w.mint, SwapOf(w.snap, job)), w.tags, w.snap, job)
  {
    hide TagsOk, NothingLost, AllClosed, ProofsOk, CreditsOk, ReviewsOk, WireOk, PledgesOk, MeltsKnown, SentOk, KeysOk, AddsOk;
    var sw := SwapOf(w.snap, job);
    SwapApplied(w.mint, sw);
    match job
    case PayJob(id, _) => assert PaymentOk(w.mint, w.tags, id, w.snap.payments[id]);
    case VendJob(id) => assert OrderOk(w.mint, w.tags, id, w.snap.orders[id]);
    case RecoverJob(id) =>
      assert OutOk(w.mint, w.tags, id, w.snap.cashOut[id]);
      RecoverySwapped(w.mint, w.tags, id, w.snap.cashOut[id]);
  }

  lemma RecoverySwapped(m: Mint, tags: map<nat, Tag>, id: nat, o: CashOut)
    requires m.MeltsOk() && OutOk(m, tags, id, o) && o.recovery.Some? && CanSwap(m, o.recovery.value)
    requires m.spent + m.locked <= m.signed.Keys
    ensures OutOk(ApplySwap(m, o.recovery.value), tags, id, o)
  {
    var sw := o.recovery.value;
    var r, b := o.reserved.value, o.blanks.value;
    var st := m.meltQuotes[o.quote].state;
    assert r[0] in r && r[0].secret in Secrets(r);
    assert m.Spendable(r[0]);
    SwapMint(m, sw);
    SwapApplied(m, sw);
    SecretsConcat(sw.keep, sw.send);
    assert ApplySwap(m, sw).Unsigned(Blanks(b));
  }

  lemma SwapTags(m: Mint, tags: map<nat, Tag>, job: Job, sw: Swap)
    requires TagsOk(m, tags) && CanSwap(m, sw)
    requires forall s :: s in Secrets(sw.keep) ==> s in tags && (tags[s].owner.Pay? || tags[s].owner.Vend? || tags[s].owner.Out?)
    requires forall s :: s in Secrets(sw.send) ==> s in tags && tags[s].owner.Sent?
    ensures TagsOk(ApplySwap(m, sw), tags)
  {
    SwapMint(m, sw);
  }

  lemma KeepRecorded(w: World, job: Job)
    requires Inv(w) && HasSwap(w.snap, job)
    ensures var sw := SwapOf(w.snap, job);
      && (forall s :: s in Secrets(sw.keep) ==> s in w.tags && Recorded(w.snap, w.tags[s].owner, s))
      && (forall s :: s in Secrets(sw.keep) ==> s in w.tags && (w.tags[s].owner.Pay? || w.tags[s].owner.Vend? || w.tags[s].owner.Out?))
      && (forall s :: s in Secrets(sw.send) ==> s in w.tags && w.tags[s].owner.Sent?)
  {
    hide TagsOk, NothingLost, AllClosed, ProofsOk, CreditsOk, ReviewsOk, WireOk, PledgesOk, MeltsKnown, SentOk, KeysOk, AddsOk;
    var sw := SwapOf(w.snap, job);
    SecretsConcat(sw.keep, sw.send);
    match job
    case PayJob(id, _) => assert PaymentOk(w.mint, w.tags, id, w.snap.payments[id]);
    case VendJob(id) => assert OrderOk(w.mint, w.tags, id, w.snap.orders[id]);
    case RecoverJob(id) => assert OutOk(w.mint, w.tags, id, w.snap.cashOut[id]);
  }

  lemma SwapLost(m: Mint, tags: map<nat, Tag>, snap: Snapshot, sw: Swap)
    requires NothingLost(m, tags, snap)
    requires forall s :: s in Secrets(sw.keep) ==> s in tags && Recorded(snap, tags[s].owner, s)
    ensures NothingLost(ApplySwap(m, sw), tags, snap)
  {
    forall s | s in ApplySwap(m, sw).LiveOurs() ensures s in tags && Recorded(snap, tags[s].owner, s) {
      if s !in Secrets(sw.keep) { assert s in m.LiveOurs(); }
    }
  }

  lemma SwapRecords(w: World, job: Job)
    requires Inv(w) && HasSwap(w.snap, job) && CanSwap(w.mint, SwapOf(w.snap, job))
    ensures var n := ApplySwap(w.mint, SwapOf(w.snap, job));
      && PaymentsOk(n, w.tags, w.snap.payments) && OrdersOk(n, w.tags, w.snap.orders) && AddsOk(n, w.tags, w.snap.addCash)
      && OutsOk(n, w.tags, w.snap.cashOut) && ProofsOk(n, w.tags, w.snap.proofs) && AllClosed(n, w.snap, w.credits)
  {
    JobTagged(w, job);
    SwapOwnRecord(w, job);
    SwapConfined(w.mint, w.tags, job, SwapOf(w.snap, job));
    var n := ApplySwap(w.mint, SwapOf(w.snap, job));
    JobPaymentsFrame(w.mint, n, w.tags, w.snap, job);
    JobOrdersFrame(w.mint, n, w.tags, w.snap, job);
    JobOutsFrame(w.mint, n, w.tags, w.snap, job);
    JobSidesFrame(w.mint, n, w.tags, w.snap, w.credits, job);
  }

  lemma SwapTask(m: Mint, snap: Snapshot, job: Job, sw: Swap)
    requires TaskOk(m, snap, SwapCall(job))
    ensures TaskOk(ApplySwap(m, sw), snap, SwapCall(job))
  {
  }

  lemma MintSwaps(w: World, job: Job)
    requires Inv(w) && w.task == SwapCall(job) && HasSwap(w.snap, job) && CanSwap(w.mint, SwapOf(w.snap, job))
    ensures Inv(w.(mint := ApplySwap(w.mint, SwapOf(w.snap, job))))
  {
    hide PaymentsOk, OrdersOk, AddsOk, OutsOk, NothingLost, AllClosed, ProofsOk, TagsOk, CreditsOk, ReviewsOk, WireOk, PledgesOk,
      SentOk, MeltsKnown, KeysOk, TaskOk, CanSwap, Recorded;
    var sw := SwapOf(w.snap, job);
    SwapKeepsBooks(w.mint, sw);
    SwapRecords(w, job);
    KeepRecorded(w, job);
    SwapTags(w.mint, w.tags, job, sw);
    SwapLost(w.mint, w.tags, w.snap, sw);
    SwapTask(w.mint, w.snap, job, sw);
    WireFrame(w.mint, ApplySwap(w.mint, sw), w.snap.cashOut, w.wire);
    assert Needs(ApplySwap(w.mint, sw)) == Needs(w.mint);
  }

  lemma KeepsCallSwap(w: World, reaches: bool, answered: bool)
    requires Inv(w)
    ensures Inv(CallSwap(w, reaches, answered))
  {
    if w.task.SwapCall? && HasSwap(w.snap, w.task.job) {
      var job := w.task.job;
      var sw := SwapOf(w.snap, job);
      if reaches && CanSwap(w.mint, sw) {
        MintSwaps(w, job);
        SwapMint(w.mint, sw);
        Retask(w.(mint := ApplySwap(w.mint, sw)), if answered then SwapDone(job) else RestoreCall(job));
      } else {
        Retask(w, RestoreCall(job));
      }
    }
  }
}
