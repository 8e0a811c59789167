/** What each call of the adapter does with what the node tells it, case by case, and what follows for
    the ecash: a melt whose session has ended can always be settled, for exactly the right amount. */
module FiberAnswers {
  import opened Ecash
  import opened FiberAmounts
  import opened FiberMelts
  import opened FiberSolvency

  /** The least number of units worth at least `base`, if it fits 64 bits. */
  predicate Charges(charge: nat, base: nat, scale: nat) {
    charge < U64 && base <= ToBase(charge, scale) && (charge > 0 ==> ToBase(charge - 1, scale) < base)
  }

  /** The world in which only melt `id` has moved on and these entries were logged. */
  predicate Moves(w: World, v: World, id: nat, phase: Phase, more: seq<Entry>)
    requires id in w.melts
  {
    v == w.(melts := w.melts[id := w.melts[id].(phase := phase)], log := w.log + more)
  }

  /** The adapter reports the status `s` to the mint, pricing a success with `amount` and its fee. */
  ghost predicate Responds(w: World, v: World, id: nat, s: Session, amount: nat, told: seq<Entry>)
    requires id in w.melts
  {
    var h := w.melts[id].hash;
    match s.status
    case Failed => Moves(w, v, id, Returning(StateFailed, amount), told + [Answered(id, h, StateFailed, amount)])
    case Success =>
      && (forall charge: nat :: Charges(charge, amount + s.fee, w.scale) ==>
            Moves(w, v, id, Returning(StatePaid(charge), amount), told + [Answered(id, h, StatePaid(charge), amount)]))
      && (ToBase(U64 - 1, w.scale) < amount + s.fee ==> Moves(w, v, id, Stuck, told))
    case _ => Moves(w, v, id, Returning(StatePending, amount), told + [Answered(id, h, StatePending, amount)])
  }

  lemma ChargeExactly(base: nat, scale: nat)
    requires scale > 0
    ensures forall charge: nat :: Charges(charge, base, scale) <==> FromBaseCeil(base, scale) == Some(charge)
    ensures FromBaseCeil(base, scale).None? <==> ToBase(U64 - 1, scale) < base
  {
    forall charge: nat ensures Charges(charge, base, scale) <==> FromBaseCeil(base, scale) == Some(charge) {
      CeilLeast(base, scale, charge);
      if charge > 0 { CeilLeast(base, scale, charge - 1); }
    }
    CeilLeast(base, scale, U64 - 1);
  }

  lemma AnswerResponds(w: World, u: World, id: nat, s: Session, amount: nat, told: seq<Entry>)
    requires id in w.melts && w.scale > 0 && u == w.(log := w.log + told)
    ensures Responds(w, Answer(u, id, s, amount), id, s, amount, told)
  {
    ChargeExactly(amount + s.fee, w.scale);
    hide FromBaseCeil, Charges, ToBase;
    var h := w.melts[id].hash;
    var v := Answer(u, id, s, amount);
    if s.status.Success? {
      match FromBaseCeil(amount + s.fee, w.scale) {
        case Some(charge) =>
          assert v.log == w.log + (told + [Answered(id, h, StatePaid(charge), amount)]);
          assert Moves(w, v, id, Returning(StatePaid(charge), amount), told + [Answered(id, h, StatePaid(charge), amount)]);
        case None =>
      }
    } else if s.status.Failed? {
      assert v.log == w.log + (told + [Answered(id, h, StateFailed, amount)]);
    } else {
      assert v.log == w.log + (told + [Answered(id, h, StatePending, amount)]);
    }
  }

  /** `make_payment` before its send: without an answer of the node the melt is left locked; a session
      that has not failed is reported as it is; no session, or a failed one, leads to the send. */
  lemma LookupAnswers(w: World, id: nat, answered: bool)
    requires id in w.melts && w.melts[id].phase.Looking? && w.scale > 0
    ensures var v, h := Step(w, ELookup(id, answered)), w.melts[id].hash;
      if !answered then Moves(w, v, id, Stuck, [])
      else if h !in w.sessions then Moves(w, v, id, Phase.Sending, [Told(id, h, None)])
      else if w.sessions[h].status.Failed? then Moves(w, v, id, Phase.Sending, [Told(id, h, Some(Failed))])
      else Responds(w, v, id, w.sessions[h], h.amount, [Told(id, h, Some(w.sessions[h].status))])
  {
    var h := w.melts[id].hash;
    assert w.log + [] == w.log;
    if h in w.sessions {
      AnswerResponds(w, w.(log := w.log + [Told(id, h, Some(w.sessions[h].status))]), id, w.sessions[h], h.amount, [Told(id, h, Some(w.sessions[h].status))]);
    }
    hide Answer, Responds;
  }

  /** The send: it opens a session in the node exactly when it reaches the node and the hash has none
      that has not failed, under the fee ceiling of the reserve. */
  lemma SendAnswers(w: World, id: nat, reaches: bool, answered: bool)
    requires id in w.melts && w.melts[id].phase.Sending?
    ensures var v, m := Step(w, ESend(id, reaches, answered)), w.melts[id];
      if reaches && (m.hash !in w.sessions || w.sessions[m.hash].status.Failed?)
      then v == w.(melts := w.melts[id := m.(phase := if answered then Polling else Stuck)], log := w.log + [Entry.Sent(id, m.hash, true)],
                   sessions := w.sessions[m.hash := Session(Created, ToBase(m.reserve, w.scale), 0, id)])
      else Moves(w, v, id, Stuck, [Entry.Sent(id, m.hash, false)])
  {
    hide ToBase;
  }

  /** A poll: an error changes nothing, a forgotten session ends the call as pending, a running one is
      polled again and an ended one is reported. */
  lemma PollAnswers(w: World, id: nat, poll: Poll)
    requires id in w.melts && w.melts[id].phase.Polling? && w.scale > 0
    ensures var v, h := Step(w, EPoll(id, poll)), w.melts[id].hash;
      if poll.Unanswered? then v == w
      else if poll.Forgotten? || h !in w.sessions
      then Moves(w, v, id, Returning(StatePending, h.amount), [Told(id, h, None), Answered(id, h, StatePending, h.amount)])
      else if w.sessions[h].status in {Created, Inflight} then v == w.(log := w.log + [Told(id, h, Some(w.sessions[h].status))])
      else Responds(w, v, id, w.sessions[h], h.amount, [Told(id, h, Some(w.sessions[h].status))])
  {
    var h := w.melts[id].hash;
    if h in w.sessions {
      AnswerResponds(w, w.(log := w.log + [Told(id, h, Some(w.sessions[h].status))]), id, w.sessions[h], h.amount, [Told(id, h, Some(w.sessions[h].status))]);
    }
    hide Answer, Responds;
    assert w.log + [Told(id, h, None)] + [Answered(id, h, StatePending, h.amount)] == w.log + [Told(id, h, None), Answered(id, h, StatePending, h.amount)];
  }

  /** The deadline ends the call as pending, never as failed; a lost call can be made again. */
  lemma LateAnswers(w: World, id: nat)
    requires id in w.melts
    ensures w.melts[id].phase.Polling? ==>
      Moves(w, Step(w, ETimeOut(id)), id, Returning(StatePending, w.melts[id].hash.amount), [Answered(id, w.melts[id].hash, StatePending, w.melts[id].hash.amount)])
    ensures w.melts[id].phase.Stuck? ==> Moves(w, Step(w, ERetry(id)), id, Looking, [])
  {
    assert w.log + [] == w.log;
  }

  /** `check_outgoing_payment`: an unknown hash changes nothing; a session is reported without its amount. */
  lemma CheckAnswers(w: World, id: nat, answered: bool)
    requires id in w.melts && w.melts[id].phase.Stuck? && w.scale > 0
    ensures var v, h := Step(w, ECheck(id, answered)), w.melts[id].hash;
      if !answered then v == w
      else if h !in w.sessions then v == w.(log := w.log + [Told(id, h, None)])
      else Responds(w, v, id, w.sessions[h], 0, [Told(id, h, Some(w.sessions[h].status))])
  {
    var h := w.melts[id].hash;
    if h in w.sessions {
      AnswerResponds(w, w.(log := w.log + [Told(id, h, Some(w.sessions[h].status))]), id, w.sessions[h], 0, [Told(id, h, Some(w.sessions[h].status))]);
    }
    hide Answer, Responds;
  }

  /** The mint on an answer: paid burns the charge and gives the rest back, failed gives everything back,
      pending keeps the inputs locked. */
  lemma ReturnAnswers(w: World, id: nat)
    requires id in w.melts && w.melts[id].phase.Returning?
    ensures var v, m := Step(w, EReturn(id)), w.melts[id];
      match m.phase.response
      case StatePaid(spent) => v == w.(melts := w.melts - {id}, outstanding := w.outstanding + (if spent <= m.inputs then m.inputs - spent else 0))
      case StateFailed => v == w.(melts := w.melts - {id}, outstanding := w.outstanding + m.inputs)
      case StatePending => v == w.(melts := w.melts[id := m.(phase := Stuck)])
  {
  }

  // ---- a melt whose session has ended ----

  /** The next calls that settle a melt: a lost one is made again, a waiting one is polled. */
  function Settling(id: nat, phase: Phase): seq<Event> {
    match phase
    case Looking => [ELookup(id, true)] + [EReturn(id)]
    case Polling => [EPoll(id, Seen)] + [EReturn(id)]
    case _ => [ERetry(id)] + [ELookup(id, true)] + [EReturn(id)]
  }

  lemma {:induction false} RunFrom(w: World, es: seq<Event>, e: Event)
    ensures Run(w, es + [e]) == Step(Run(w, es), e) && Run(w, [e]) == Step(w, e)
  {
    assert (es + [e])[..|es|] == es && [e][..0] == [];
    hide Step;
  }

  /** A call of the melt is under way, or was lost. */
  predicate Waits(phase: Phase) { phase.Looking? || phase.Polling? || phase.Stuck? }

  /** Melt `id` is settled: it has paid this charge and got back the rest of its inputs. */
  predicate Settled(w: World, v: World, id: nat, charge: nat)
    requires id in w.melts
  {
    id !in v.melts && v.sessions == w.sessions && v.balance == w.balance && charge <= w.melts[id].inputs
    && v.outstanding == w.outstanding + (w.melts[id].inputs - charge)
  }

  lemma ReturnSettles(w: World, u: World, id: nat, charge: nat, priced: nat, more: seq<Entry>)
    requires id in w.melts && Moves(w, u, id, Returning(StatePaid(charge), priced), more) && charge <= w.melts[id].inputs
    ensures Settled(w, Step(u, EReturn(id)), id, charge)
  {
    ReturnAnswers(u, id);
    hide Step;
  }

  /** The call that tells the mint of a success. */
  function Telling(id: nat, phase: Phase): Event { if phase.Looking? then ELookup(id, true) else EPoll(id, Seen) }

  lemma PaidTold(w: World, id: nat, charge: nat)
    requires id in w.melts && (w.melts[id].phase.Looking? || w.melts[id].phase.Polling?) && w.scale > 0
    requires w.melts[id].hash in w.sessions && w.sessions[w.melts[id].hash].status.Success?
    requires Charges(charge, w.melts[id].hash.amount + w.sessions[w.melts[id].hash].fee, w.scale)
    ensures var h := w.melts[id].hash;
      Moves(w, Step(w, Telling(id, w.melts[id].phase)), id, Returning(StatePaid(charge), h.amount),
            [Told(id, h, Some(Success))] + [Answered(id, h, StatePaid(charge), h.amount)])
  {
    if w.melts[id].phase.Looking? { LookupAnswers(w, id, true); } else { PollAnswers(w, id, Seen); }
    hide Step, ToBase, Charges, Moves;
  }

  lemma PaidLooks(w: World, id: nat, charge: nat)
    requires id in w.melts && (w.melts[id].phase.Looking? || w.melts[id].phase.Polling?) && w.scale > 0 && charge <= w.melts[id].inputs
    requires w.melts[id].hash in w.sessions && w.sessions[w.melts[id].hash].status.Success?
    requires Charges(charge, w.melts[id].hash.amount + w.sessions[w.melts[id].hash].fee, w.scale)
    ensures Settled(w, Run(w, Settling(id, w.melts[id].phase)), id, charge)
  {
    var h := w.melts[id].hash;
    var e := Telling(id, w.melts[id].phase);
    assert Settling(id, w.melts[id].phase) == [e] + [EReturn(id)];
    hide Run, Step, ToBase, Charges, Moves, Settled, Settling, Telling;
    RunFrom(w, [], e);
    RunFrom(w, [e], EReturn(id));
    PaidTold(w, id, charge);
    ReturnSettles(w, Step(w, e), id, charge, h.amount, [Told(id, h, Some(Success))] + [Answered(id, h, StatePaid(charge), h.amount)]);
  }

  lemma PaidSettles(w: World, id: nat, charge: nat)
    requires id in w.melts && Waits(w.melts[id].phase) && w.scale > 0 && charge <= w.melts[id].inputs
    requires w.melts[id].hash in w.sessions && w.sessions[w.melts[id].hash].status.Success?
    requires Charges(charge, w.melts[id].hash.amount + w.sessions[w.melts[id].hash].fee, w.scale)
    ensures Settled(w, Run(w, Settling(id, w.melts[id].phase)), id, charge)
  {
    hide Run, ToBase, Charges;
    if w.melts[id].phase.Stuck? {
      RunFrom(w, [], ERetry(id));
      RunFrom(w, [ERetry(id)], ELookup(id, true));
      RunFrom(w, [ERetry(id)] + [ELookup(id, true)], EReturn(id));
      var u := Step(w, ERetry(id));
      assert u == w.(melts := w.melts[id := w.melts[id].(phase := Looking)]);
      RunFrom(u, [], ELookup(id, true));
      RunFrom(u, [ELookup(id, true)], EReturn(id));
      hide Step;
      PaidLooks(u, id, charge);
    } else {
      PaidLooks(w, id, charge);
    }
  }

  /** In every run, whatever answers were lost: once the node has settled a payment that melt `id` sent,
      the mint can be told, and then the melt is charged the least number of units worth its amount and
      fee, within its inputs, and gets back the rest. */
  lemma PaidMeltSettles(scale: nat, balance: nat, es: seq<Event>, id: nat, charge: nat)
    requires scale > 0 && id in Run(Fresh(scale, balance), es).melts
    requires var w := Run(Fresh(scale, balance), es); var m := w.melts[id];
      && Waits(m.phase) && m.hash in w.sessions && w.sessions[m.hash].status.Success? && w.sessions[m.hash].sender == id
      && Charges(charge, m.hash.amount + w.sessions[m.hash].fee, scale)
    ensures var w := Run(Fresh(scale, balance), es); Settled(w, Run(w, Settling(id, w.melts[id].phase)), id, charge)
  {
    RunSound(scale, balance, es);
    RunScale(scale, balance, es);
    hide Run, Settling, Charges, Sound, Settled;
    SettlesAt(Run(Fresh(scale, balance), es), id, charge);
  }

  lemma SettlesAt(w: World, id: nat, charge: nat)
    requires Sound(w) && id in w.melts && Waits(w.melts[id].phase)
    requires w.melts[id].hash in w.sessions && w.sessions[w.melts[id].hash].status.Success? && w.sessions[w.melts[id].hash].sender == id
    requires Charges(charge, w.melts[id].hash.amount + w.sessions[w.melts[id].hash].fee, w.scale)
    ensures Settled(w, Run(w, Settling(id, w.melts[id].phase)), id, charge)
  {
    hide Run, Settling, Charges, MeltOk, SendersOk, CreditsOk, ToBase, Settled;
    CostCovered(w, id);
    WithinInputs(w.melts[id].hash.amount + w.sessions[w.melts[id].hash].fee, w.scale, w.melts[id].inputs, charge);
    PaidSettles(w, id, charge);
  }

  lemma CostCovered(w: World, id: nat)
    requires id in w.melts && w.scale > 0 && MeltOk(w, id)
    requires w.melts[id].hash in w.sessions && w.sessions[w.melts[id].hash].sender == id
    ensures w.melts[id].hash.amount + w.sessions[w.melts[id].hash].fee <= ToBase(w.melts[id].inputs, w.scale)
  {
    hide ToBase, FromBaseCeil;
  }

  lemma {:induction false} RunScale(scale: nat, balance: nat, es: seq<Event>)
    ensures Run(Fresh(scale, balance), es).scale == scale
  {
    hide Step;
    if es != [] {
      RunScale(scale, balance, es[..|es| - 1]);
      ScaleStays(Run(Fresh(scale, balance), es[..|es| - 1]), es[|es| - 1]);
    }
  }

  /** A charge never exceeds inputs that are worth the cost. */
  lemma WithinInputs(base: nat, scale: nat, inputs: nat, charge: nat)
    requires scale > 0 && base <= ToBase(inputs, scale) && Charges(charge, base, scale)
    ensures charge <= inputs
  {
    if charge > inputs { MulLe(inputs, charge - 1, scale); }
  }

  /** Once the node has failed a payment, the mint can be told so, or the payment sent again; told, it
      gives all inputs back. */
  lemma FailedMeltReturns(w: World, id: nat)
    requires id in w.melts && w.melts[id].phase.Polling? && w.scale > 0
    requires w.melts[id].hash in w.sessions && w.sessions[w.melts[id].hash].status.Failed?
    ensures Run(w, Settling(id, w.melts[id].phase)).outstanding == w.outstanding + w.melts[id].inputs
    ensures id !in Run(w, Settling(id, w.melts[id].phase)).melts
  {
    hide Run, ToBase;
    RunFrom(w, [], EPoll(id, Seen));
    RunFrom(w, [EPoll(id, Seen)], EReturn(id));
    hide Step;
    PollAnswers(w, id, Seen);
    ReturnAnswers(Step(w, EPoll(id, Seen)), id);
  }

  // ---- deposits ----

  function Depositing(i: nat, ecash: nat): seq<Event> { [EOpen(i, ecash)] + [EMove(i, Paid)] + [ECredit(i)] }

  lemma InvoiceSteps(w: World, i: nat, ecash: nat, issued: Invoice, paid: Invoice)
    requires i !in w.invoices && issued == Invoice(ToBase(ecash, w.scale), Open, false) && paid == issued.(status := Paid)
    ensures var u := Step(w, EOpen(i, ecash));
      u == w.(invoices := w.invoices[i := issued])
      && Step(u, EMove(i, Paid)) == w.(balance := w.balance + ToBase(ecash, w.scale), invoices := w.invoices[i := paid])
  {
    hide ToBase;
    assert w.invoices[i := issued][i := paid] == w.invoices[i := paid];
  }

  lemma CreditSteps(w: World, i: nat, ecash: nat, credited: Invoice)
    requires w.scale > 0 && ecash < U64 && i in w.invoices && w.invoices[i] == Invoice(ToBase(ecash, w.scale), Paid, false)
    requires credited == w.invoices[i].(credited := true)
    ensures var v := Step(w, ECredit(i));
      v == w.(outstanding := w.outstanding + ecash, invoices := w.invoices[i := credited]) && Step(v, ECredit(i)) == v
  {
    RoundTrip(ecash, w.scale);
    hide ToBase, FromBaseFloor, FromBaseCeil;
  }

  /** A deposit of any number of units comes in as exactly that number, once. */
  lemma DepositCredits(w: World, i: nat, ecash: nat)
    requires w.scale > 0 && i !in w.invoices && ecash < U64
    ensures var v := Run(w, Depositing(i, ecash));
      && v == w.(balance := w.balance + ToBase(ecash, w.scale), outstanding := w.outstanding + ecash,
                 invoices := w.invoices[i := Invoice(ToBase(ecash, w.scale), Paid, true)])
      && Step(v, ECredit(i)) == v
  {
    RunFrom(w, [], EOpen(i, ecash));
    RunFrom(w, [EOpen(i, ecash)], EMove(i, Paid));
    RunFrom(w, [EOpen(i, ecash)] + [EMove(i, Paid)], ECredit(i));
    hide Run, ToBase, Step;
    var issued := Invoice(ToBase(ecash, w.scale), Open, false);
    var paid, credited := issued.(status := Paid), issued.(status := Paid, credited := true);
    InvoiceSteps(w, i, ecash, issued, paid);
    CreditSteps(w.(balance := w.balance + ToBase(ecash, w.scale), invoices := w.invoices[i := paid]), i, ecash, credited);
    assert w.invoices[i := paid][i := credited] == w.invoices[i := credited];
  }
}
