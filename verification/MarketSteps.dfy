/** The market runtime as a machine of single steps. A step is one commit of the snapshot, one
    remote call, one move of the mint or another person, or the death of the tab. The runtime
    holds an exclusive lock, so at most one operation is in flight; whatever it remembers is
    lost in a crash, while the snapshot stays. A step whose guard fails changes nothing: the
    source throws before it commits. */
module MarketSteps {
  import opened Ecash
  import opened MintLedger
  import opened MarketRecords

  // ---- the world ----

  /** Who accounts for a secret: a draft still in review, another person, the receiver of a
      payment, the spendable set, a stored operation, or nobody any more because its record was
      released without it. A secret somebody else drew may name the key it is locked to. A secret
      retires when it is given up as an input for good. */
  datatype Owner = Draft(review: nat) | Vendor(lock: Option<nat>) | Sent(id: nat) | Spendable | Pay(id: nat) | Vend(id: nat) | Add(id: nat) | Out(id: nat) | Lost

  datatype Tag = Tag(owner: Owner, retired: bool)

  datatype Review =
    | PayReview(basis: seq<Coin>, swap: Swap, orderId: nat, amount: nat, request: nat, deliveryUrl: nat)
    | OutReview(basis: seq<Coin>, keep: seq<Coin>, reserved: seq<Coin>, blanks: seq<nat>, quote: nat, amount: nat, inputFee: nat)

  datatype Job = PayJob(id: nat, confirming: bool) | VendJob(id: nat) | RecoverJob(id: nat)

  datatype Task =
    | Idle
    | SwapCall(job: Job) | RestoreCall(job: Job) | SwapDone(job: Job) | SwapFailed(job: Job)
    | DeliverStart(id: nat) | DeliverCall(id: nat) | DeliverSeen(id: nat, answer: DeliverAnswer)
    | AddObserved(id: nat) | IssueCall(id: nat) | IssueRestore(id: nat) | IssueDone(id: nat) | IssueFailed(id: nat)
    | MeltCall(id: nat) | MeltWait(id: nat) | MeltSeen(id: nat, seen: Option<MeltState>)
    | OutSeen(id: nat, found: MeltState) | OutProofs(id: nat)
    | RegisterCall(id: nat)
    | ReadCall(id: nat) | AckCall(id: nat) | SettleStart(id: nat) | TokenCheck(id: nat) | SwapPrepare(id: nat)
    | AckSettled(id: nat) | CancelCall(id: nat)

  datatype DeliverAnswer = Accepted | Refused(retryable: bool)

  datatype TokenState = AllUnspent | AllPending | AllSpent | Mixed | NoAnswer

  datatype ReadAnswer =
    | Empty
    | Got(payload: Payload, wellformed: bool, sameMint: bool, locks: map<nat, nat>)
    | ReadFailed(gone: bool)

  datatype Delivery = Delivery(id: nat, url: nat, payload: Payload)

  datatype Credit = Credit(source: Owner, coins: seq<Coin>)

  datatype World = World(
    snap: Snapshot,
    task: Task,
    reviews: map<nat, Review>,
    mint: Mint,
    wire: set<MeltRequest>,
    tags: map<nat, Tag>,
    pledged: map<nat, seq<Coin>>,
    sent: seq<Delivery>,
    credits: seq<Credit>)

  const START := World(EMPTY_SNAPSHOT, Idle, map[], EMPTY_MINT, {}, map[], map[], [], [])

  // ---- helpers ----

  function Retag(tags: map<nat, Tag>, ss: set<nat>, t: Tag): (r: map<nat, Tag>)
    ensures r.Keys == tags.Keys + ss
    ensures forall s :: s in ss ==> r[s] == t
    ensures forall s :: s in tags && s !in ss ==> r[s] == tags[s]
  {
    map s | s in tags.Keys + ss :: if s in ss then t else tags[s]
  }

  /** Secrets seen for the first time, drawn by somebody else: each names its lock, if any. */
  function Foreign(tags: map<nat, Tag>, ss: set<nat>, locks: map<nat, nat>): (r: map<nat, Tag>)
    ensures r.Keys == tags.Keys + ss
    ensures forall s :: s in tags ==> r[s] == tags[s]
    ensures forall s :: s in ss && s !in tags ==> r[s].owner.Vendor? && !r[s].retired
  {
    map s | s in tags.Keys + ss :: if s in tags then tags[s] else Tag(Vendor(if s in locks then Some(locks[s]) else None), false)
  }

  predicate Fresh(w: World, ss: set<nat>) { ss !! w.tags.Keys }

  function Blanks(bs: seq<nat>): set<nat> { set b | b in bs }

  predicate DistinctBlanks(bs: seq<nat>) { forall i, j :: 0 <= i < j < |bs| ==> bs[i] != bs[j] }

  function PutPayment(w: World, id: nat, p: Payment): World {
    w.(snap := w.snap.(payments := w.snap.payments[id := p]))
  }

  /** A cash-out keeps its quote; its reserved proofs, its blank outputs and its recovery swap stay
      until they are given up together. */
  predicate OutKeeps(o: CashOut, p: CashOut) {
    && p.quote == o.quote && (o.reserved.None? ==> p.reserved.None?)
    && (p.reserved.Some? ==> p.reserved == o.reserved && p.blanks == o.blanks && (o.recovery.Some? ==> p.recovery == o.recovery))
  }

  predicate OutsKeep(os: map<nat, CashOut>, ps: map<nat, CashOut>) {
    forall id :: id in os ==> id in ps && OutKeeps(os[id], ps[id])
  }

  predicate OrdersKeep(os: map<nat, Order>, ps: map<nat, Order>) {
    forall id :: id in os ==> id in ps && ps[id].amount == os[id].amount
  }

  /** A token comes into an order only when it is read, and a swap only over that very token. */
  predicate TokenKeeps(o: Order, p: Order) {
    && (p.incomingToken.None? || p.incomingToken == o.incomingToken)
    && (p.incomingSwap.None? || p.incomingSwap == o.incomingSwap || Some(p.incomingSwap.value.inputs) == o.incomingToken)
  }

  predicate TokensKeep(os: map<nat, Order>, ps: map<nat, Order>) {
    forall id :: id in ps ==> if id in os then TokenKeeps(os[id], ps[id]) else ps[id].incomingToken.None? && ps[id].incomingSwap.None?
  }

  function PutOrder(w: World, id: nat, o: Order): (v: World)
    requires if id in w.snap.orders then o.amount == w.snap.orders[id].amount && TokenKeeps(w.snap.orders[id], o) else o.incomingToken.None? && o.incomingSwap.None?
    ensures OrdersKeep(w.snap.orders, v.snap.orders) && TokensKeep(w.snap.orders, v.snap.orders)
  {
    w.(snap := w.snap.(orders := w.snap.orders[id := o]))
  }

  function PutAdd(w: World, id: nat, a: AddCash): World {
    w.(snap := w.snap.(addCash := w.snap.addCash[id := a]))
  }

  function PutOut(w: World, id: nat, o: CashOut): (v: World)
    requires id in w.snap.cashOut ==> OutKeeps(w.snap.cashOut[id], o)
    ensures OutsKeep(w.snap.cashOut, v.snap.cashOut)
  {
    w.(snap := w.snap.(cashOut := w.snap.cashOut[id := o]))
  }

  /** Fresh coins join the spendable set, in the same commit as the record that gave them up. */
  function CreditTo(w: World, source: Owner, coins: seq<Coin>): World {
    w.(snap := w.snap.(proofs := w.snap.proofs + coins),
       tags := Retag(w.tags, Secrets(coins), Tag(Spendable, false)),
       credits := if coins == [] then w.credits else w.credits + [Credit(source, coins)])
  }

  function Go(w: World, t: Task): World { w.(task := t) }

  // ---- what a step leaves alone ----

  /** A credit is logged with the coins that join the spendable set in the same step. */
  predicate LogsGrow(w: World, v: World) {
    w.sent <= v.sent && (v.credits == w.credits || NewCredit(w, v))
  }

  predicate NewCredit(w: World, v: World) {
    |v.credits| == |w.credits| + 1 && w.credits <= v.credits && v.snap.proofs == w.snap.proofs + v.credits[|w.credits|].coins
  }

  /** No more secrets are lost. */
  predicate LossesStay(tags: map<nat, Tag>, tags': map<nat, Tag>) {
    forall s :: s in tags' && tags'[s].owner.Lost? ==> s in tags && tags[s].owner.Lost?
  }

  /** What a stored cash-out reserved at first is remembered for good. */
  predicate PledgesKeep(w: World, v: World) {
    forall id :: id in w.snap.cashOut && id in w.pledged ==> id in v.pledged && v.pledged[id] == w.pledged[id]
  }

  predicate PaymentOnly(w: World, v: World) {
    v.mint == w.mint && v.pledged == w.pledged && v.snap.orders == w.snap.orders && v.snap.addCash == w.snap.addCash
    && v.snap.cashOut == w.snap.cashOut && LossesStay(w.tags, v.tags) && LogsGrow(w, v)
    && (v.credits != w.credits ==> v.credits[|w.credits|].source.Pay?)
  }

  predicate AddOnly(w: World, v: World) {
    v.mint == w.mint && v.pledged == w.pledged && v.snap.payments == w.snap.payments && v.snap.orders == w.snap.orders
    && v.snap.cashOut == w.snap.cashOut && LossesStay(w.tags, v.tags) && LogsGrow(w, v)
    && (v.credits != w.credits ==> v.credits[|w.credits|].source.Add?)
  }

  predicate OutOnly(w: World, v: World) {
    v.mint == w.mint && v.snap.payments == w.snap.payments && v.snap.orders == w.snap.orders && v.snap.addCash == w.snap.addCash
    && OutsKeep(w.snap.cashOut, v.snap.cashOut) && PledgesKeep(w, v) && LogsGrow(w, v)
    && (v.credits != w.credits ==> v.credits[|w.credits|].source.Out?)
  }

  /** A step on the records of cash-outs that adds none. */
  predicate OutEdits(w: World, v: World) { OutOnly(w, v) && v.snap.cashOut.Keys == w.snap.cashOut.Keys }

  predicate OrderOnly(w: World, v: World) {
    v.mint == w.mint && v.pledged == w.pledged
    && v.snap.payments == w.snap.payments && v.snap.addCash == w.snap.addCash && v.snap.cashOut == w.snap.cashOut
    && OrdersKeep(w.snap.orders, v.snap.orders) && TokensKeep(w.snap.orders, v.snap.orders) && LossesStay(w.tags, v.tags) && LogsGrow(w, v)
    && (v.credits != w.credits ==> v.credits[|w.credits|].source.Vend?)
  }

  // ---- swaps: one shape for payments, settlements and cash-out recovery ----

  predicate HasSwap(s: Snapshot, job: Job) {
    match job
    case PayJob(id, _) => id in s.payments && s.payments[id].swap.Some?
    case VendJob(id) => id in s.orders && s.orders[id].incomingSwap.Some?
    case RecoverJob(id) => id in s.cashOut && s.cashOut[id].recovery.Some?
  }

  function SwapOf(s: Snapshot, job: Job): Swap
    requires HasSwap(s, job)
  {
    match job
    case PayJob(id, _) => s.payments[id].swap.value
    case VendJob(id) => s.orders[id].incomingSwap.value
    case RecoverJob(id) => s.cashOut[id].recovery.value
  }

  /** `completeSwap`: the mint may apply the swap and answer, apply it and lose the answer, or
      refuse it or never see it. Anything but an answer sends the wallet to the restore call. */
  function CallSwap(w: World, reaches: bool, answered: bool): World {
    if w.task.SwapCall? && HasSwap(w.snap, w.task.job) then
      var sw := SwapOf(w.snap, w.task.job);
      if reaches && CanSwap(w.mint, sw) then
        w.(mint := ApplySwap(w.mint, sw), task := if answered then SwapDone(w.task.job) else RestoreCall(w.task.job))
      else Go(w, RestoreCall(w.task.job))
    else w
  }

  /** NUT-09: the mint returns the signatures of outputs it has signed; the wallet accepts them
      only when every stored output is among them. */
  function RestoreSwap(w: World, answered: bool): World {
    if w.task.RestoreCall? && HasSwap(w.snap, w.task.job) then
      if answered && Secrets(SwapOf(w.snap, w.task.job).Outputs()) <= w.mint.signed.Keys
      then Go(w, SwapDone(w.task.job))
      else Go(w, SwapFailed(w.task.job))
    else w
  }

  /** What the library prepares to receive proofs: fresh outputs, all of them kept. */
  predicate ReceiveSwap(w: World, sw: Swap) {
    sw.send == [] && sw.unselected == [] && sw.amount == Total(sw.keep) && sw.Wellformed() && SwapValid(sw)
    && Fresh(w, Secrets(sw.keep))
  }

  // ---- attendee ----

  /** `reviewPayment`: the library selects inputs and draws fresh outputs. */
  function ReviewPayment(w: World, rid: nat, rv: Review): (v: World)
    ensures PaymentOnly(w, v)
  {
    if && rv.PayReview? && rid !in w.reviews && rv.basis == w.snap.proofs
       && rv.swap.Wellformed() && SwapValid(rv.swap) && Fresh(w, Secrets(rv.swap.Outputs()))
       && multiset(rv.swap.inputs) + multiset(rv.swap.unselected) == multiset(rv.basis)
       && rv.amount > 0 && rv.swap.send != []
    then w.(reviews := w.reviews[rid := rv], tags := Retag(w.tags, Secrets(rv.swap.Outputs()), Tag(Draft(rid), false)))
    else w
  }

  function ConfirmPayment(w: World, rid: nat, id: nat): (v: World)
    ensures PaymentOnly(w, v)
  {
    if && w.task.Idle? && rid in w.reviews && w.reviews[rid].PayReview? && id !in w.snap.payments
       && (forall q :: q in w.snap.payments ==> w.snap.payments[q].orderId != w.reviews[rid].orderId)
       && multiset(w.snap.proofs) == multiset(w.reviews[rid].basis)
    then
      var rv := w.reviews[rid];
      var p := Payment(rv.orderId, Preparing, rv.amount, Some(rv.request), Some(rv.deliveryUrl), None, None, Some(rv.swap), None, None);
      var w1 := PutPayment(w, id, p);
      w1.(snap := w1.snap.(proofs := rv.swap.unselected),
          tags := Retag(Retag(Retag(w.tags, Secrets(rv.swap.inputs), Tag(Pay(id), true)),
                              Secrets(rv.swap.send), Tag(Sent(id), false)),
                        Secrets(rv.swap.keep), Tag(Pay(id), false)),
          task := SwapCall(PayJob(id, true)))
    else w
  }

  /** `deliverStoredPayment` on a stored record; `requestStillValid` is the expiry re-check. */
  function ResumePayment(w: World, id: nat, requestStillValid: bool): (v: World)
    ensures PaymentOnly(w, v) && v.tags == w.tags && v.credits == w.credits
  {
    if w.task.Idle? && id in w.snap.payments then
      var p := w.snap.payments[id];
      if p.swap.Some? && p.token.None? then
        if p.request.Some? && p.deliveryUrl.Some? && requestStillValid then Go(w, SwapCall(PayJob(id, false))) else w
      else if p.CompleteDelivery() then Go(w, DeliverStart(id)) else w
    else w
  }

  function FinishPayment(w: World, bytes: nat): (v: World)
    ensures PaymentOnly(w, v)
  {
    if w.task.SwapDone? && w.task.job.PayJob? && HasSwap(w.snap, w.task.job) then
      var id := w.task.job.id;
      var p := w.snap.payments[id];
      var sw := p.swap.value;
      var ready := p.(state := ReadyToDeliver, token := Some(sw.send),
                      payload := Some(Payload(p.orderId, sw.send, bytes)), swap := None);
      Go(CreditTo(PutPayment(w, id, ready), Pay(id), sw.keep), DeliverStart(id))
    else w
  }

  function GiveUpPayment(w: World): (v: World)
    ensures PaymentOnly(w, v) && v.tags == w.tags && v.credits == w.credits
  {
    if w.task.SwapFailed? && w.task.job.PayJob? && w.task.job.id in w.snap.payments then
      var id := w.task.job.id;
      if w.task.job.confirming then Go(PutPayment(w, id, w.snap.payments[id].(state := PaymentRecoverable)), Idle)
      else Go(w, Idle)
    else w
  }

  function StartDelivery(w: World): (v: World)
    ensures PaymentOnly(w, v) && v.tags == w.tags && v.credits == w.credits
  {
    if w.task.DeliverStart? && w.task.id in w.snap.payments && w.snap.payments[w.task.id].CompleteDelivery() then
      Go(PutPayment(w, w.task.id, w.snap.payments[w.task.id].(state := Delivering, deliveryRetryable := Some(true))), DeliverCall(w.task.id))
    else w
  }

  function Deliver(w: World, answer: DeliverAnswer): (v: World)
    ensures PaymentOnly(w, v) && v.tags == w.tags && v.credits == w.credits
  {
    if w.task.DeliverCall? && w.task.id in w.snap.payments && w.snap.payments[w.task.id].CompleteDelivery() then
      var p := w.snap.payments[w.task.id];
      w.(sent := w.sent + [Delivery(w.task.id, p.deliveryUrl.value, p.payload.value)], task := DeliverSeen(w.task.id, answer))
    else w
  }

  function FinishDelivery(w: World, now: nat): (v: World)
    ensures PaymentOnly(w, v) && v.tags == w.tags && v.credits == w.credits
  {
    if w.task.DeliverSeen? && w.task.id in w.snap.payments then
      var p := w.snap.payments[w.task.id];
      var p' := match w.task.answer
        case Accepted => p.(state := Delivered, deliveryRetryable := None, deliveredAt := Some(now))
        case Refused(retryable) => p.(state := PaymentRecoverable, deliveryRetryable := Some(retryable));
      Go(PutPayment(w, w.task.id, p'), Idle)
    else w
  }

  /** The record `checkPayment` tries to commit for each answer of the mint. */
  function CheckedPayment(p: Payment, answer: TokenState): Payment {
    match answer
    case AllSpent => p.(state := TokenSpent, token := None, payload := None, request := None, deliveryUrl := None, deliveryRetryable := None)
    case AllUnspent => if p.deliveryRetryable == Some(false) && p.deliveredAt.None? then p else p.(state := TokenUnspent)
    case AllPending => if p.deliveryRetryable == Some(false) && p.deliveredAt.None? then p else p.(state := TokenPending)
    case Mixed => p.(state := PaymentRecoverable)
    case NoAnswer => p.(state := PaymentRecoverable)
  }

  /** A commit the validator refuses throws inside the try block, so the record becomes recoverable. */
  function CheckPayment(w: World, id: nat, answer: TokenState): (v: World)
    ensures PaymentOnly(w, v) && v.tags == w.tags && v.credits == w.credits
  {
    if w.task.Idle? && id in w.snap.payments && w.snap.payments[id].token.Some? then
      var p := w.snap.payments[id];
      var p' := CheckedPayment(p, answer);
      PutPayment(w, id, if p'.Valid() then p' else p.(state := PaymentRecoverable))
    else w
  }

  // ---- add cash ----

  function RequestAdd(w: World, id: nat, quote: nat, amount: nat, expiry: Option<nat>, fromFaucet: bool): World {
    if w.task.Idle? && id !in w.snap.addCash && quote !in w.mint.mintQuotes && amount > 0 then
      PutAdd(w, id, AddCash(AwaitingFunds, amount, quote, expiry, fromFaucet, fromFaucet, None))
        .(mint := w.mint.(mintQuotes := w.mint.mintQuotes[quote := MintQuote(amount, false, false)]))
    else w
  }

  function RecordPayerFailure(w: World, id: nat): (v: World)
    ensures AddOnly(w, v) && v.tags == w.tags && v.credits == w.credits
  {
    if w.task.Idle? && id in w.snap.addCash && w.snap.addCash[id].fromFaucet
    then PutAdd(w, id, w.snap.addCash[id].(state := AddRecoverable))
    else w
  }

  /** `refreshAddCash` up to the first commit; `answered` is false when the quote could not be
      read or came back without the browser lock. */
  function RefreshAdd(w: World, id: nat, answered: bool, now: nat): (v: World)
    ensures AddOnly(w, v) && v.tags == w.tags && v.credits == w.credits
  {
    if w.task.Idle? && id in w.snap.addCash then
      var a := w.snap.addCash[id];
      if !answered || a.quote !in w.mint.mintQuotes then PutAdd(w, id, a.(state := AddRecoverable))
      else if !w.mint.mintQuotes[a.quote].paid then
        if a.expiry.Some? && a.expiry.value * 1000 <= now then PutAdd(w, id, a.(state := AddExpired)) else w
      else Go(PutAdd(w, id, a.(state := PaymentObserved)), AddObserved(id))
    else w
  }

  function PrepareAdd(w: World, outputs: seq<Coin>): (v: World)
    ensures AddOnly(w, v)
  {
    if w.task.AddObserved? && w.task.id in w.snap.addCash then
      var a := w.snap.addCash[w.task.id];
      if a.outputs.Some? then Go(w, IssueCall(w.task.id))
      else if a.fromFaucet && !a.hasQuoteKey then Go(PutAdd(w, w.task.id, a.(state := AddRecoverable)), Idle)
      else if Distinct(outputs) && Positive(outputs) && outputs != [] && Total(outputs) == a.amount && Fresh(w, Secrets(outputs)) then
        Go(PutAdd(w, w.task.id, a.(state := Issuing, outputs := Some(outputs), hasQuoteKey := false)), IssueCall(w.task.id))
          .(tags := Retag(w.tags, Secrets(outputs), Tag(Add(w.task.id), false)))
      else Go(PutAdd(w, w.task.id, a.(state := AddRecoverable)), Idle)
    else w
  }

  function CallIssue(w: World, reaches: bool, answered: bool): World {
    if w.task.IssueCall? && w.task.id in w.snap.addCash && w.snap.addCash[w.task.id].outputs.Some? then
      var a := w.snap.addCash[w.task.id];
      if reaches && CanIssue(w.mint, a.quote, a.outputs.value) then
        w.(mint := ApplyIssue(w.mint, a.quote, a.outputs.value), task := if answered then IssueDone(w.task.id) else IssueRestore(w.task.id))
      else Go(w, IssueRestore(w.task.id))
    else w
  }

  function RestoreIssue(w: World, answered: bool): (v: World)
    ensures AddOnly(w, v) && v.tags == w.tags && v.credits == w.credits
  {
    if w.task.IssueRestore? && w.task.id in w.snap.addCash && w.snap.addCash[w.task.id].outputs.Some? then
      if answered && Secrets(w.snap.addCash[w.task.id].outputs.value) <= w.mint.signed.Keys
      then Go(w, IssueDone(w.task.id)) else Go(w, IssueFailed(w.task.id))
    else w
  }

  function FinishAdd(w: World): (v: World)
    ensures AddOnly(w, v)
  {
    if w.task.IssueDone? && w.task.id in w.snap.addCash && w.snap.addCash[w.task.id].outputs.Some? then
      var a := w.snap.addCash[w.task.id];
      Go(CreditTo(PutAdd(w, w.task.id, a.(state := AddSettled, outputs := None)), Add(w.task.id), a.outputs.value), Idle)
    else w
  }

  function GiveUpAdd(w: World): (v: World)
    ensures AddOnly(w, v) && v.tags == w.tags && v.credits == w.credits
  {
    if w.task.IssueFailed? && w.task.id in w.snap.addCash then
      Go(PutAdd(w, w.task.id, w.snap.addCash[w.task.id].(state := AddRecoverable)), Idle)
    else w
  }

  // ---- cash out ----

  function ReviewCashOut(w: World, rid: nat, rv: Review): (v: World)
    ensures OutEdits(w, v) && v.credits == w.credits
  {
    if && rv.OutReview? && rid !in w.reviews && rv.basis == w.snap.proofs
       && multiset(rv.reserved) + multiset(rv.keep) == multiset(rv.basis) && rv.reserved != []
       && rv.quote in w.mint.meltQuotes && rv.amount == w.mint.meltQuotes[rv.quote].amount && rv.amount > 0
       && Total(rv.reserved) >= w.mint.meltQuotes[rv.quote].amount + w.mint.meltQuotes[rv.quote].feeReserve + rv.inputFee
       && DistinctBlanks(rv.blanks) && Fresh(w, Blanks(rv.blanks))
    then w.(reviews := w.reviews[rid := rv], tags := Retag(w.tags, Blanks(rv.blanks), Tag(Draft(rid), false)))
    else w
  }

  /** The guard of `confirmCashOut`. */
  predicate Confirmable(w: World, rid: nat, id: nat) {
    && w.task.Idle? && rid in w.reviews && w.reviews[rid].OutReview? && id !in w.snap.cashOut
    && multiset(w.snap.proofs) == multiset(w.reviews[rid].basis)
  }

  predicate PaidAt(m: Mint, quote: nat) { quote in m.meltQuotes && m.meltQuotes[quote].state.Paid? }

  function ConfirmCashOut(w: World, rid: nat, id: nat): (v: World)
    ensures OutOnly(w, v) && v.credits == w.credits
  {
    if Confirmable(w, rid, id) then
      var rv := w.reviews[rid];
      var o := CashOut(Dispatching, rv.amount, rv.quote, QuoteUnpaid, rv.inputFee, Some(rv.reserved), Some(rv.blanks), None);
      var w1 := PutOut(w, id, o);
      w1.(snap := w1.snap.(proofs := rv.keep),
          tags := Retag(Retag(w.tags, Secrets(rv.reserved), Tag(Out(id), true)), Blanks(rv.blanks), Tag(Out(id), false)),
          pledged := w.pledged[id := rv.reserved],
          task := MeltCall(id))
    else w
  }

  /** The melt request leaves the tab; the mint may act on it now, later or never. */
  function SendMelt(w: World): (v: World)
    ensures OutEdits(w, v) && v.tags == w.tags && v.credits == w.credits
  {
    if && w.task.MeltCall? && w.task.id in w.snap.cashOut
       && w.snap.cashOut[w.task.id].reserved.Some? && w.snap.cashOut[w.task.id].blanks.Some?
    then
      var o := w.snap.cashOut[w.task.id];
      w.(wire := w.wire + {MeltRequest(o.quote, o.reserved.value, o.blanks.value, o.inputFee)}, task := MeltWait(w.task.id))
    else w
  }

  /** The melt call returns the state of its own melt, or fails. */
  function AnswerMelt(w: World, answered: bool): (v: World)
    ensures OutEdits(w, v) && v.tags == w.tags && v.credits == w.credits
  {
    if w.task.MeltWait? && w.task.id in w.snap.cashOut then
      var o := w.snap.cashOut[w.task.id];
      var mine := && answered && o.quote in w.mint.meltQuotes
                  && var st := w.mint.meltQuotes[o.quote].state; st.Unpaid? || Some(st.inputs) == o.reserved;
      Go(w, MeltSeen(w.task.id, if mine then Some(w.mint.meltQuotes[o.quote].state) else None))
    else w
  }

  function StoreOut(w: World, id: nat, o: CashOut): (v: World)
    requires id in w.snap.cashOut && OutKeeps(w.snap.cashOut[id], o)
    ensures OutEdits(w, v) && v.tags == w.tags && v.credits == w.credits
  {
    Go(PutOut(w, id, o), Idle)
  }

  /** The secrets a cash-out accounts for: its reserved proofs, its blank outputs and its recovery. */
  function OutFootprint(o: CashOut): set<nat> {
    Secrets(ReservedOf(o)) + (if o.blanks.Some? then Blanks(o.blanks.value) else {})
      + (if o.recovery.Some? then Secrets(o.recovery.value.keep) else {})
  }

  /** The unspent coins a cash-out would forget if it were released for these coins. */
  function Forgotten(w: World, id: nat, coins: seq<Coin>): set<nat>
    requires id in w.snap.cashOut
  {
    OutFootprint(w.snap.cashOut[id]) * w.mint.LiveOurs() - Secrets(coins)
  }

  /** The reservation goes in the commit that pays its proceeds in; what else it held is lost. */
  function ReleaseOut(w: World, id: nat, o: CashOut, coins: seq<Coin>): (v: World)
    requires id in w.snap.cashOut && OutKeeps(w.snap.cashOut[id], o)
    ensures OutEdits(w, v)
  {
    var v := Go(CreditTo(PutOut(w, id, o), Out(id), coins), Idle);
    v.(tags := Retag(v.tags, Forgotten(w, id, coins), Tag(Lost, true)))
  }

  /** Unblinding works only on change signed for the very blanks the record stores. */
  predicate Unblinds(blanks: seq<nat>, change: seq<Coin>) {
    |change| <= |blanks| && forall i :: 0 <= i < |change| ==> change[i].secret == blanks[i]
  }

  function PaidRecord(o: CashOut): CashOut {
    o.(state := OutPaid, quoteState := QuotePaid, reserved := None, blanks := None, recovery := None)
  }

  function FinishMelt(w: World): (v: World)
    ensures OutEdits(w, v)
  {
    if w.task.MeltSeen? && w.task.id in w.snap.cashOut then
      var id := w.task.id;
      var o := w.snap.cashOut[id];
      match w.task.seen
      case Some(Paid(_, _, change)) => ReleaseOut(w, id, PaidRecord(o).(recovery := o.recovery), change)
      case Some(Pending(_, _)) => StoreOut(w, id, o.(state := OutPending, quoteState := QuotePending))
      case Some(Unpaid) => StoreOut(w, id, o.(state := OutUnknown, quoteState := QuoteUnpaid))
      case None => StoreOut(w, id, o.(state := OutUnknown))
    else w
  }

  function RefreshCashOut(w: World, id: nat, answered: bool): (v: World)
    ensures OutEdits(w, v) && v.tags == w.tags && v.credits == w.credits
  {
    if w.task.Idle? && id in w.snap.cashOut then
      var o := w.snap.cashOut[id];
      if answered && o.quote in w.mint.meltQuotes then Go(w, OutSeen(id, w.mint.meltQuotes[o.quote].state))
      else PutOut(w, id, o.(state := OutUnknown))
    else w
  }

  /** The melt was paid: unblind its change with the stored outputs and release the reservation. */
  function TakeChange(w: World, id: nat, change: seq<Coin>): (v: World)
    requires id in w.snap.cashOut
    ensures OutEdits(w, v)
  {
    var o := w.snap.cashOut[id];
    var stored := if o.blanks.Some? then o.blanks.value else [];
    if (change != [] && stored == []) || !Unblinds(stored, change) then StoreOut(w, id, o.(state := OutUnknown))
    else ReleaseOut(w, id, PaidRecord(o), change)
  }

  function ActOnQuote(w: World): (v: World)
    ensures OutEdits(w, v)
  {
    if w.task.OutSeen? && w.task.id in w.snap.cashOut then
      var id := w.task.id;
      var o := w.snap.cashOut[id];
      match w.task.found
      case Paid(_, _, change) => TakeChange(w, id, change)
      case Pending(_, _) => StoreOut(w, id, o.(state := OutPending, quoteState := QuotePending))
      case Unpaid =>
        if o.reserved.None? || o.reserved.value == [] then StoreOut(w, id, o.(state := OutUnknown))
        else if o.recovery.None? then Go(w, OutProofs(id))
        else Go(w, SwapCall(RecoverJob(id)))
    else w
  }

  /** The reserved proofs are reported unspent: store a recovery swap over exactly them. */
  function PrepareRecovery(w: World, answer: TokenState, sw: Swap): (v: World)
    ensures OutEdits(w, v) && v.credits == w.credits
  {
    if w.task.OutProofs? && w.task.id in w.snap.cashOut && w.snap.cashOut[w.task.id].reserved.Some? && w.snap.cashOut[w.task.id].recovery.None? then
      var id := w.task.id;
      var o := w.snap.cashOut[id];
      if answer != AllUnspent then StoreOut(w, id, o.(state := OutUnknown))
      else if sw.inputs == o.reserved.value && ReceiveSwap(w, sw) then
        Go(PutOut(w, id, o.(state := OutUnknown, recovery := Some(sw))), SwapCall(RecoverJob(id)))
          .(tags := Retag(w.tags, Secrets(sw.keep), Tag(Out(id), false)))
      else StoreOut(w, id, o.(state := OutUnknown))
    else w
  }

  function FinishRecovery(w: World): (v: World)
    ensures OutEdits(w, v)
  {
    if w.task.SwapDone? && w.task.job.RecoverJob? && HasSwap(w.snap, w.task.job) then
      var id := w.task.job.id;
      var o := w.snap.cashOut[id];
      ReleaseOut(w, id, o.(state := OutFailed, quoteState := QuoteUnpaid, reserved := None, blanks := None, recovery := None),
                 o.recovery.value.keep)
    else w
  }

  function GiveUpRecovery(w: World): (v: World)
    ensures OutEdits(w, v) && v.tags == w.tags && v.credits == w.credits
  {
    if w.task.SwapFailed? && w.task.job.RecoverJob? && w.task.job.id in w.snap.cashOut then
      Go(PutOut(w, w.task.job.id, w.snap.cashOut[w.task.job.id].(state := OutUnknown)), Idle)
    else w
  }

  // ---- vendor ----

  function LabelOrder(w: World, id: nat, state: OrderState, next: Task): (v: World)
    requires id in w.snap.orders
    ensures OrderOnly(w, v) && v.tags == w.tags && v.credits == w.credits
  {
    Go(PutOrder(w, id, w.snap.orders[id].(state := state)), next)
  }

  /** A commit inside a try block: if the validator refuses the record, the catch clause stores
      the record it started from as recoverable and the operation ends. */
  function TryOrder(w: World, id: nat, before: Order, after: Order, next: Task): (v: World)
    requires id in w.snap.orders && before == w.snap.orders[id] && after.amount == before.amount && TokenKeeps(before, after)
    ensures OrderOnly(w, v) && v.tags == w.tags && v.credits == w.credits
  {
    if after.Valid() then Go(PutOrder(w, id, after), next)
    else Go(PutOrder(w, id, before.(state := OrderRecoverable)), Idle)
  }

  /** Every charge draws a key pair of its own. */
  predicate FreshKey(os: map<nat, Order>, key: nat) {
    forall id :: id in os && os[id].keys.Some? ==> os[id].keys.value.privateKey != key
  }

  function CreateOrder(w: World, id: nat, amount: nat, expiresAt: nat, keys: Keys, readCapability: nat): (v: World)
    ensures OrderOnly(w, v) && v.tags == w.tags && v.credits == w.credits
  {
    if w.task.Idle? && id !in w.snap.orders && amount > 0 && FreshKey(w.snap.orders, keys.privateKey) then
      Go(PutOrder(w, id, Order(Registering, amount, expiresAt, Some(keys), Some(readCapability), None, None, false, false)), RegisterCall(id))
    else w
  }

  function RegisterStored(w: World, id: nat): (v: World)
    ensures OrderOnly(w, v) && v.tags == w.tags && v.credits == w.credits
  {
    if w.task.Idle? && id in w.snap.orders then
      var o := w.snap.orders[id];
      if o.keys.Some? && o.readCapability.Some? then Go(w, RegisterCall(id))
      else PutOrder(w, id, o.(state := OrderRecoverable))
    else w
  }

  function FinishRegister(w: World, accepted: bool): (v: World)
    ensures OrderOnly(w, v) && v.tags == w.tags && v.credits == w.credits
  {
    if w.task.RegisterCall? && w.task.id in w.snap.orders then
      var o := w.snap.orders[w.task.id];
      if accepted then TryOrder(w, w.task.id, o, o.(state := AwaitingPayment, relayRegistered := true), Idle)
      else Go(PutOrder(w, w.task.id, o.(state := OrderRecoverable)), Idle)
    else w
  }

  function PollOrder(w: World, id: nat): (v: World)
    ensures OrderOnly(w, v) && v.tags == w.tags && v.credits == w.credits
  {
    if w.task.Idle? && id in w.snap.orders then Go(w, PollTask(id, w.snap.orders[id])) else w
  }

  /** Where `pollOrder` goes from a stored order. */
  function PollTask(id: nat, o: Order): Task {
    if o.state.OrderSettled? && !o.relayAcknowledged && o.readCapability.Some? then AckSettled(id)
    else if o.incomingToken.Some? || o.incomingSwap.Some? then SettleStart(id)
    else if o.readCapability.Some? then ReadCall(id)
    else Idle
  }

  function Expired(o: Order): Order {
    o.(state := OrderExpired, keys := None, readCapability := None)
  }

  /** A fitting token is committed before anything else is asked of it. */
  function StoreToken(w: World, id: nat, token: seq<Coin>): World
    requires id in w.snap.orders
  {
    var taken := w.snap.orders[id].(state := PayloadReceived, incomingToken := Some(token));
    if taken.Valid() then Go(w.(snap := w.snap.(orders := w.snap.orders[id := taken])), AckCall(id))
    else LabelOrder(w, id, OrderRecoverable, Idle)
  }

  /** The read returned a payload: keep its token, or refuse it. */
  function AcceptRead(w: World, id: nat, payload: Payload, wellformed: bool, sameMint: bool, locks: map<nat, nat>): World
    requires id in w.snap.orders
  {
    if !wellformed || payload.proofs == [] then LabelOrder(w, id, OrderRecoverable, Idle)
    else if payload.orderId != id || !sameMint then LabelOrder(w, id, Rejected, Idle)
    else StoreToken(w.(tags := Foreign(w.tags, Secrets(payload.proofs), locks)), id, payload.proofs)
  }

  function FinishRead(w: World, answer: ReadAnswer, now: nat): World {
    if w.task.ReadCall? && w.task.id in w.snap.orders && w.snap.orders[w.task.id].readCapability.Some? then
      var id := w.task.id;
      var o := w.snap.orders[id];
      match answer
      case Empty => if o.expiresAt * 1000 <= now then TryOrder(w, id, o, Expired(o), Idle) else Go(w, Idle)
      case ReadFailed(gone) =>
        if gone && o.expiresAt * 1000 <= now then if Expired(o).Valid() then Go(PutOrder(w, id, Expired(o)), Idle) else Go(w, Idle)
        else Go(PutOrder(w, id, o.(state := OrderRecoverable)), Idle)
      case Got(payload, wellformed, sameMint, locks) => AcceptRead(w, id, payload, wellformed, sameMint, locks)
    else w
  }

  function FinishAck(w: World, acknowledged: bool): (v: World)
    ensures OrderOnly(w, v) && v.tags == w.tags && v.credits == w.credits
  {
    if w.task.AckCall? && w.task.id in w.snap.orders then
      var o := w.snap.orders[w.task.id];
      Go(PutOrder(w, w.task.id, o.(relayAcknowledged := acknowledged)), SettleStart(w.task.id))
    else w
  }

  /** `tokenIsLockedTo`: every secret of the token was drawn by somebody else and names this key. */
  predicate LockedTo(w: World, key: nat, token: seq<Coin>) {
    forall c :: c in token ==> c.secret in w.tags && w.tags[c.secret].owner == Vendor(Some(key))
  }

  /** `settleOrder` up to the mint query: resume a stored swap, or validate the token. */
  function StartSettle(w: World, malformed: bool, sameMint: bool, locked: bool): (v: World)
    ensures OrderOnly(w, v) && v.tags == w.tags && v.credits == w.credits
  {
    if w.task.SettleStart? && w.task.id in w.snap.orders then
      var id := w.task.id;
      var o := w.snap.orders[id];
      if o.incomingSwap.Some? then Go(w, SwapCall(VendJob(id)))
      else if o.incomingToken.None? || o.keys.None? then LabelOrder(w, id, OrderRecoverable, Idle)
      else
        var token := o.incomingToken.value;
        if malformed || !sameMint || Total(token) != o.amount || !locked || !LockedTo(w, o.keys.value.privateKey, token)
        then LabelOrder(w, id, Rejected, Idle)
        else LabelOrder(w, id, Validating, TokenCheck(id))
    else w
  }

  function FinishTokenCheck(w: World, answer: TokenState): (v: World)
    ensures OrderOnly(w, v) && v.tags == w.tags && v.credits == w.credits
  {
    if w.task.TokenCheck? && w.task.id in w.snap.orders then
      var id := w.task.id;
      var o := w.snap.orders[id];
      match answer
      case AllUnspent => Go(w, SwapPrepare(id))
      case AllSpent => LabelOrder(w, id, Rejected, Idle)
      case Mixed => LabelOrder(w, id, Rejected, Idle)
      case AllPending => LabelOrder(w, id, OrderRecoverable, Idle)
      case NoAnswer => LabelOrder(w, id, OrderRecoverable, Idle)
    else w
  }

  function PrepareSettle(w: World, sw: Swap): (v: World)
    ensures OrderOnly(w, v) && v.credits == w.credits
  {
    if && w.task.SwapPrepare? && w.task.id in w.snap.orders
       && w.snap.orders[w.task.id].incomingToken.Some? && w.snap.orders[w.task.id].incomingSwap.None?
       && w.snap.orders[w.task.id].keys.Some? then
      var id := w.task.id;
      var o := w.snap.orders[id];
      if sw.inputs == o.incomingToken.value && LockedTo(w, o.keys.value.privateKey, sw.inputs) && ReceiveSwap(w, sw) then
        if sw.amount != o.amount then LabelOrder(w, id, Rejected, Idle)
        else Go(PutOrder(w, id, o.(state := Swapping, incomingSwap := Some(sw))), SwapCall(VendJob(id)))
               .(tags := Retag(w.tags, Secrets(sw.keep), Tag(Vend(id), false)))
      else LabelOrder(w, id, OrderRecoverable, Idle)
    else w
  }

  function FinishSettle(w: World): (v: World)
    ensures OrderOnly(w, v)
  {
    if w.task.SwapDone? && w.task.job.VendJob? && HasSwap(w.snap, w.task.job) then
      var id := w.task.job.id;
      var o := w.snap.orders[id];
      var settled := o.(state := OrderSettled, keys := None, incomingToken := None, incomingSwap := None,
                        readCapability := if o.relayAcknowledged then None else o.readCapability);
      Go(CreditTo(PutOrder(w, id, settled), Vend(id), o.incomingSwap.value.keep), Idle)
    else w
  }

  function GiveUpSettle(w: World): (v: World)
    ensures OrderOnly(w, v) && v.tags == w.tags && v.credits == w.credits
  {
    if w.task.SwapFailed? && w.task.job.VendJob? && w.task.job.id in w.snap.orders then
      Go(PutOrder(w, w.task.job.id, w.snap.orders[w.task.job.id].(state := OrderRecoverable)), Idle)
    else w
  }

  function FinishAckSettled(w: World, acknowledged: bool): (v: World)
    ensures OrderOnly(w, v) && v.tags == w.tags && v.credits == w.credits
  {
    if w.task.AckSettled? && w.task.id in w.snap.orders then
      var o := w.snap.orders[w.task.id].(relayAcknowledged := true, readCapability := None);
      if acknowledged && o.Valid() then Go(PutOrder(w, w.task.id, o), Idle) else Go(w, Idle)
    else w
  }

  /** The first commit of `cancelOrder` is outside its try block: a refused record stops it. */
  function CancelOrder(w: World, id: nat): (v: World)
    ensures OrderOnly(w, v) && v.tags == w.tags && v.credits == w.credits
  {
    if w.task.Idle? && id in w.snap.orders && w.snap.orders[id].readCapability.Some? then
      var o := w.snap.orders[id].(state := Cancelling);
      if o.Valid() then Go(PutOrder(w, id, o), CancelCall(id)) else w
    else w
  }

  datatype CancelAnswer = CancelDone | DeliveryWon | CancelFailed

  function FinishCancel(w: World, answer: CancelAnswer): (v: World)
    ensures OrderOnly(w, v) && v.tags == w.tags && v.credits == w.credits
  {
    if w.task.CancelCall? && w.task.id in w.snap.orders then
      var id := w.task.id;
      var o := w.snap.orders[id];
      match answer
      case CancelDone => TryOrder(w, id, o, o.(state := Cancelled, keys := None, readCapability := None), Idle)
      case DeliveryWon => Go(w, PollTask(id, o))
      case CancelFailed => Go(PutOrder(w, id, o.(state := OrderRecoverable)), Idle)
    else w
  }

  // ---- the mint and other people move on their own ----

  function PayQuote(w: World, quote: nat): World {
    if quote in w.mint.mintQuotes then
      w.(mint := w.mint.(mintQuotes := w.mint.mintQuotes[quote := w.mint.mintQuotes[quote].(paid := true)]))
    else w
  }

  function OpenMeltQuote(w: World, quote: nat, amount: nat, feeReserve: nat): World {
    if quote !in w.mint.meltQuotes then
      w.(mint := w.mint.(meltQuotes := w.mint.meltQuotes[quote := MeltQuote(amount, feeReserve, Unpaid)]))
    else w
  }

  function LandMelt(w: World, r: MeltRequest): World {
    if r in w.wire && CanLand(w.mint, r) then w.(mint := ApplyLand(w.mint, r)) else w
  }

  function PayMelt(w: World, quote: nat, change: seq<Coin>): World {
    if CanPay(w.mint, quote, change) then w.(mint := ApplyPay(w.mint, quote, change)) else w
  }

  function FailMelt(w: World, quote: nat): World {
    if quote in w.mint.meltQuotes && w.mint.meltQuotes[quote].state.Pending? then w.(mint := ApplyFail(w.mint, quote)) else w
  }

  /** Somebody else's coins come into being, or are spent. */
  function OthersSign(w: World, coins: seq<Coin>, locks: map<nat, nat>): World {
    if && Distinct(coins) && w.mint.Unsigned(Secrets(coins))
       && (forall c :: c in coins ==> c.secret !in w.tags || w.tags[c.secret].owner.Vendor?)
    then w.(mint := SignForeign(w.mint, coins), tags := Foreign(w.tags, Secrets(coins), locks))
    else w
  }

  function OthersSpend(w: World, ss: set<nat>): World {
    if ss <= w.mint.signed.Keys - w.mint.ours - w.mint.locked then w.(mint := SpendForeign(w.mint, ss)) else w
  }
}
