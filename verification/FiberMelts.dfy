/** The mint adapter over a Fiber node: deposits, melts made by `make_payment` and settled by it or by
    `check_outgoing_payment`, and the node's own moves, as single steps. A melt is split at every
    answer of the node; an answer may be lost, and a melt left without one may be called again. */
module FiberMelts {
  import opened Ecash
  import opened FiberAmounts

  // ---- the node ----

  datatype Status = Created | Inflight | Success | Failed

  /** A payment hash belongs to one invoice, which fixes the amount in base units. */
  datatype Hash = Hash(id: nat, amount: nat)

  /** The payment session of a hash: its status, the fee ceiling of its latest send, the fee it
      paid, and which melt sent it last. */
  datatype Session = Session(status: Status, maxFee: nat, fee: nat, sender: nat)

  datatype InvoiceStatus = Open | Received | Paid | Cancelled | Expired

  datatype Invoice = Invoice(amount: nat, status: InvoiceStatus, credited: bool)

  // ---- a melt in progress ----

  datatype MeltState = StatePaid(spent: nat) | StateFailed | StatePending

  /** Waiting for the lookup, for the send, for a poll, for the response to reach the mint, or
      stuck: an answer was lost or the deadline passed, and the inputs stay locked. `priced` is the
      amount, besides the fee, that the response charged. */
  datatype Phase = Looking | Sending | Polling | Returning(response: MeltState, priced: nat) | Stuck

  datatype Melt = Melt(hash: Hash, reserve: nat, inputs: nat, phase: Phase)

  /** What passed between the adapter, the node and the mint: the node told a call of melt `id` about
      the session of its hash, a send left for the node, the node moved a session, and the mint was
      given a response. */
  datatype Entry =
    | Told(id: nat, hash: Hash, found: Option<Status>)
    | Sent(id: nat, hash: Hash, accepted: bool)
    | Moved(hash: Hash, status: Status, fee: nat)
    | Answered(id: nat, hash: Hash, response: MeltState, priced: nat)

  datatype World = World(
    scale: nat, balance: nat, outstanding: nat, melts: map<nat, Melt>, sessions: map<Hash, Session>, invoices: map<nat, Invoice>, log: seq<Entry>)

  predicate Terminal(s: Status) { s.Success? || s.Failed? }

  /** `payment_response`: paid only for a successful session, failed only for a failed one. A
      charge that does not fit 64 bits is an error. */
  function PaymentResponse(s: Status, fee: nat, amount: nat, scale: nat): Option<MeltState>
    requires scale > 0
  {
    match s
    case Success => (match FromBaseCeil(amount + fee, scale) case Some(spent) => Some(StatePaid(spent)) case None => None)
    case Failed => Some(StateFailed)
    case _ => Some(StatePending)
  }

  function PutMelt(w: World, id: nat, m: Melt): World { w.(melts := w.melts[id := m]) }

  function Log(w: World, e: Entry): World { w.(log := w.log + [e]) }

  function Respond(w: World, id: nat, response: MeltState, priced: nat): World
    requires id in w.melts
  {
    Log(PutMelt(w, id, w.melts[id].(phase := Returning(response, priced))), Answered(id, w.melts[id].hash, response, priced))
  }

  /** The response for a session just reported, priced with `amount` and the fee. */
  function Answer(w: World, id: nat, s: Session, amount: nat): World
    requires id in w.melts && w.scale > 0
  {
    var response := PaymentResponse(s.status, s.fee, amount, w.scale);
    if response.Some? then Respond(w, id, response.value, amount) else PutMelt(w, id, w.melts[id].(phase := Stuck))
  }

  function Report(w: World, id: nat, found: Option<Status>): World
    requires id in w.melts
  {
    Log(w, Told(id, w.melts[id].hash, found))
  }

  /** The status the node has on record for a hash. */
  function StatusOf(w: World, h: Hash): Option<Status> { if h in w.sessions then Some(w.sessions[h].status) else None }

  // ---- deposits ----

  function OpenInvoice(w: World, i: nat, ecash: nat): World {
    if i !in w.invoices then w.(invoices := w.invoices[i := Invoice(ToBase(ecash, w.scale), Open, false)]) else w
  }

  /** The node moves an unpaid invoice; a settled one raises its balance. */
  function MoveInvoice(w: World, i: nat, to: InvoiceStatus): World {
    if i in w.invoices && w.invoices[i].status in {Open, Received} then
      var v := w.(invoices := w.invoices[i := w.invoices[i].(status := to)]);
      if to.Paid? then v.(balance := w.balance + w.invoices[i].amount) else v
    else w
  }

  /** A sweep or a check reports a paid invoice, and the mint counts each report once. */
  function Credit(w: World, i: nat): World {
    if i in w.invoices && w.invoices[i].status.Paid? && !w.invoices[i].credited && w.scale > 0 && FromBaseFloor(w.invoices[i].amount, w.scale).Some? then
      w.(outstanding := w.outstanding + FromBaseFloor(w.invoices[i].amount, w.scale).value, invoices := w.invoices[i := w.invoices[i].(credited := true)])
    else w
  }

  // ---- melts ----

  /** The mint locks inputs that cover the quote and its reserve, and calls `make_payment`. */
  function BeginMelt(w: World, id: nat, hash: Hash, reserve: nat, inputs: nat): World {
    if && id !in w.melts && w.scale > 0 && FromBaseCeil(hash.amount, w.scale).Some? && inputs <= w.outstanding
       && FromBaseCeil(hash.amount, w.scale).value + reserve <= inputs
       && (forall h :: h in w.sessions ==> w.sessions[h].sender != id) then
      w.(outstanding := w.outstanding - inputs, melts := w.melts[id := Melt(hash, reserve, inputs, Looking)])
    else w
  }

  /** The lookup before the send: an existing session that has not failed is reported as it is. */
  function Lookup(w: World, id: nat, answered: bool): World {
    if id in w.melts && w.melts[id].phase.Looking? && w.scale > 0 then
      var m := w.melts[id];
      if !answered then PutMelt(w, id, m.(phase := Stuck))
      else
        var r := Report(w, id, StatusOf(w, m.hash));
        if m.hash in w.sessions && !w.sessions[m.hash].status.Failed? then Answer(r, id, w.sessions[m.hash], m.hash.amount)
        else PutMelt(r, id, m.(phase := Sending))
    else w
  }

  /** The node opens a session for a send unless the hash has one that has not failed. */
  predicate Accepts(w: World, h: Hash) { h !in w.sessions || w.sessions[h].status.Failed? }

  /** The send: an accepted one opens a session under the ceiling of the reserve; the answer may be lost. */
  function Send(w: World, id: nat, reaches: bool, answered: bool): World {
    if id in w.melts && w.melts[id].phase.Sending? then
      var m := w.melts[id];
      if !reaches || !Accepts(w, m.hash) then Log(PutMelt(w, id, m.(phase := Stuck)), Sent(id, m.hash, false))
      else
        Log(PutMelt(w, id, m.(phase := if answered then Polling else Stuck)), Sent(id, m.hash, true))
          .(sessions := w.sessions[m.hash := Session(Created, ToBase(m.reserve, w.scale), 0, id)])
    else w
  }

  /** The node moves a running session; a success costs the amount and a fee within the ceiling. */
  function MoveSession(w: World, h: Hash, to: Status, fee: nat): World {
    if && h in w.sessions && !Terminal(w.sessions[h].status) && !to.Created?
       && (to.Success? ==> fee <= w.sessions[h].maxFee && h.amount + fee <= w.balance) then
      var paid := if to.Success? then fee else 0;
      Log(w, Moved(h, to, paid))
        .(sessions := w.sessions[h := w.sessions[h].(status := to, fee := paid)], balance := if to.Success? then w.balance - (h.amount + fee) else w.balance)
    else w
  }

  datatype Poll = Seen | Unanswered | Forgotten

  /** One turn of the polling loop: a terminal session is returned, a forgotten one ends the loop
      with what was last seen, an error is ignored. */
  function PollOnce(w: World, id: nat, poll: Poll): World {
    if id in w.melts && w.melts[id].phase.Polling? && w.scale > 0 then
      var m := w.melts[id];
      match poll
      case Unanswered => w
      case Forgotten => Respond(Report(w, id, None), id, StatePending, m.hash.amount)
      case Seen =>
        var r := Report(w, id, StatusOf(w, m.hash));
        if m.hash !in w.sessions then Respond(r, id, StatePending, m.hash.amount)
        else if Terminal(w.sessions[m.hash].status) then Answer(r, id, w.sessions[m.hash], m.hash.amount)
        else r
    else w
  }

  /** The deadline passes without a terminal status. */
  function TimeOut(w: World, id: nat): World {
    if id in w.melts && w.melts[id].phase.Polling? then Respond(w, id, StatePending, w.melts[id].hash.amount) else w
  }

  /** `check_outgoing_payment` on a melt without an answer: the amount is unknown there, so it prices
      the session with an amount of zero. A hash without a session is unknown and changes nothing. */
  function Check(w: World, id: nat, answered: bool): World {
    if id in w.melts && w.melts[id].phase.Stuck? && w.scale > 0 && answered then
      var h := w.melts[id].hash;
      var r := Report(w, id, StatusOf(w, h));
      if h in w.sessions then Answer(r, id, w.sessions[h], 0) else r
    else w
  }

  /** The mint calls `make_payment` again for a melt that is still locked. */
  function Retry(w: World, id: nat): World {
    if id in w.melts && w.melts[id].phase.Stuck? then PutMelt(w, id, w.melts[id].(phase := Looking)) else w
  }

  /** The mint receives the response: a paid melt burns what was spent and returns the rest as
      change, a failed one returns the inputs, a pending one keeps them locked. */
  function Return(w: World, id: nat): World {
    if id in w.melts && w.melts[id].phase.Returning? then
      var m := w.melts[id];
      match m.phase.response
      case StatePaid(spent) => w.(melts := w.melts - {id}, outstanding := w.outstanding + (if spent <= m.inputs then m.inputs - spent else 0))
      case StateFailed => w.(melts := w.melts - {id}, outstanding := w.outstanding + m.inputs)
      case StatePending => PutMelt(w, id, m.(phase := Stuck))
    else w
  }

  datatype Event =
    | EOpen(invoice: nat, ecash: nat) | EMove(invoice: nat, to: InvoiceStatus) | ECredit(invoice: nat)
    | EBegin(id: nat, hash: Hash, reserve: nat, inputs: nat) | ELookup(id: nat, answered: bool) | ESend(id: nat, reaches: bool, answered: bool)
    | ESession(hash: Hash, status: Status, fee: nat) | EPoll(id: nat, poll: Poll) | ETimeOut(id: nat) | EReturn(id: nat)
    | ECheck(id: nat, answered: bool) | ERetry(id: nat)

  function Step(w: World, e: Event): World {
    match e
    case EOpen(i, n) => OpenInvoice(w, i, n)
    case EMove(i, to) => MoveInvoice(w, i, to)
    case ECredit(i) => Credit(w, i)
    case EBegin(id, h, r, n) => BeginMelt(w, id, h, r, n)
    case ELookup(id, a) => Lookup(w, id, a)
    case ESend(id, r, a) => Send(w, id, r, a)
    case ESession(h, s, f) => MoveSession(w, h, s, f)
    case EPoll(id, p) => PollOnce(w, id, p)
    case ETimeOut(id) => TimeOut(w, id)
    case EReturn(id) => Return(w, id)
    case ECheck(id, a) => Check(w, id, a)
    case ERetry(id) => Retry(w, id)
  }

  lemma ScaleStays(w: World, e: Event)
    ensures Step(w, e).scale == w.scale
  {
    hide FromBaseCeil, FromBaseFloor, ToBase;
  }

  function Run(w: World, es: seq<Event>): World {
    if es == [] then w else Step(Run(w, es[..|es| - 1]), es[|es| - 1])
  }

  /** A mint with no ecash out and any balance. */
  function Fresh(scale: nat, balance: nat): World { World(scale, balance, 0, map[], map[], map[], []) }
}
