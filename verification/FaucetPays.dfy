/** No invoice is paid twice, in every run with lost answers, old sweep records and restarts. */
module FaucetPays {
  import opened Ecash
  import opened Faucet

  /** The invoice and hash of a row or record, where not erased, are one and the same, and belong to its quote. */
  predicate OwnInvoice(q: nat, r: Row) {
    && (r.invoice.Some? ==> r.invoice.value.quote == q && r.paymentHash == r.invoice)
    && (r.paymentHash.Some? ==> r.paymentHash.value.quote == q)
  }

  predicate TaskPays(w: World, q: nat, task: Task) {
    match task
    case FetchNew(_, _) => true
    case Parsing(_, _, v) => true
    case FetchStored(record, _) => record.quote == q && q in w.rows && OwnInvoice(q, record.row)
    case Looking(record, _, _) => record.quote == q && q in w.rows && OwnInvoice(q, record.row)
    case Sending(record, effect, _) =>
      && record.quote == q && q in w.rows && OwnInvoice(q, record.row) && record.row.invoice.Some?
      && (!effect ==> Accepted(w, record.row.invoice.value) == 0)
  }

  predicate PaysOk(w: World) {
    && (forall i :: i in w.accepted ==> w.accepted[i] <= 1 && i.quote in w.rows)
    && (forall q :: q in w.rows ==> OwnInvoice(q, w.rows[q]))
    && (forall q :: q in w.tasks ==> TaskPays(w, q, w.tasks[q]))
    && (w.sweep.Some? ==> forall i :: 0 <= i < |w.sweep.value.rest| ==>
          w.sweep.value.rest[i].quote in w.rows && OwnInvoice(w.sweep.value.rest[i].quote, w.sweep.value.rest[i].row))
  }

  /** The node answers lookups truthfully, and an invoice the mint shows belongs to the quote it is shown for. */
  predicate Honest(w: World, e: Event) {
    match e
    case ELooked(q, NoSession) =>
      q in w.tasks && w.tasks[q].Looking? && w.tasks[q].record.row.paymentHash.Some? ==> Accepted(w, w.tasks[q].record.row.paymentHash.value) == 0
    case EParsed(q, Some(true)) => q in w.tasks && w.tasks[q].Parsing? ==> w.tasks[q].view.invoice.quote == q
    case _ => true
  }

  lemma PaysDone(w: World, q: nat)
    requires PaysOk(w) && q in w.tasks
    ensures PaysOk(Done(w, q))
  {
    var v := Done(w, q);
    forall p | p in v.tasks ensures TaskPays(v, p, v.tasks[p]) { assert TaskPays(w, p, w.tasks[p]); }
  }

  lemma PaysRow(w: World, q: nat, r: Row)
    requires PaysOk(w) && OwnInvoice(q, r)
    ensures PaysOk(Put(w, q, r))
  {
    var v := Put(w, q, r);
    forall p | p in v.tasks ensures TaskPays(v, p, v.tasks[p]) { assert TaskPays(w, p, w.tasks[p]); }
  }

  lemma PaysMove(w: World, q: nat, state: ClaimState, failure: Option<Failure>, now: int)
    requires PaysOk(w) && q in w.tasks
    ensures PaysOk(Move(w, q, state, failure, now))
  {
    if q in w.rows {
      PaysRow(w, q, Moved(w.rows[q], state, failure, now));
      PaysDone(Put(w, q, Moved(w.rows[q], state, failure, now)), q);
    } else {
      PaysDone(w, q);
    }
    hide PaysOk;
  }

  lemma PaysTask(w: World, q: nat, task: Task)
    requires PaysOk(w) && TaskPays(w, q, task)
    ensures PaysOk(w.(tasks := w.tasks[q := task]))
  {
    var v := w.(tasks := w.tasks[q := task]);
    forall p | p in v.tasks ensures TaskPays(v, p, v.tasks[p]) { if p != q { assert TaskPays(w, p, w.tasks[p]); } }
  }

  lemma PaysDispatch(w: World, record: Record, sweeping: bool, now: int)
    requires PaysOk(w) && record.quote in w.tasks && record.quote in w.rows && OwnInvoice(record.quote, record.row)
    requires record.row.invoice.Some? ==> Accepted(w, record.row.invoice.value) == 0
    ensures PaysOk(Dispatch(w, record, sweeping, now))
  {
    var q := record.quote;
    PaysMove(w, q, Recoverable, Some(MissingData), now);
    PaysRow(w, q, Attempted(w.rows[q], now));
    if record.row.invoice.Some? { PaysTask(Put(w, q, Attempted(w.rows[q], now)), q, Sending(record, false, sweeping)); }
    hide PaysOk;
  }

  lemma PaysReconcile(w: World, record: Record, v: QuoteView, sweeping: bool, now: int)
    requires PaysOk(w) && record.quote in w.tasks && record.quote in w.rows && OwnInvoice(record.quote, record.row)
    ensures PaysOk(Reconcile(w, record, v, sweeping, now))
  {
    var q := record.quote;
    PaysDone(w, q);
    PaysMove(w, q, Recoverable, Some(QuoteChanged), now);
    PaysMove(w, q, Issued, None, now);
    PaysMove(w, q, PaidOut, None, now);
    PaysMove(w, q, Recoverable, Some(MissingHash), now);
    PaysTask(w, q, Looking(record, v, sweeping));
    hide PaysOk, Move, Done;
  }

  lemma PaysPayment(w: World, q: nat, status: PayStatus, now: int)
    requires PaysOk(w) && q in w.tasks
    ensures PaysOk(ApplyPayment(w, q, status, now))
  {
    hide PaysOk, Move;
    match status
    case Success => PaysMove(w, q, PaidOut, None, now);
    case PayFailed => PaysMove(w, q, Failed, Some(FiberFailed), now);
    case InProgress => PaysMove(w, q, Pending, None, now);
  }

  lemma PaysQuote(w: World, cfg: Config, q: nat, answer: Option<QuoteView>, now: int)
    requires PaysOk(w)
    ensures PaysOk(QuoteAnswered(w, cfg, q, answer, now))
  {
    if q in w.tasks {
      PaysDone(w, q);
      assert TaskPays(w, q, w.tasks[q]);
      if answer.Some? {
        if w.tasks[q].FetchNew? { PaysTask(w, q, Parsing(w.tasks[q].client, w.tasks[q].network, answer.value)); }
        if w.tasks[q].FetchStored? { PaysReconcile(w, w.tasks[q].record, answer.value, w.tasks[q].sweeping, now); }
      }
    }
    hide PaysOk, Reconcile, Done;
  }

  lemma PaysParsed(w: World, cfg: Config, q: nat, answer: Option<bool>, now: int)
    requires PaysOk(w) && Honest(w, EParsed(q, answer))
    ensures PaysOk(Parsed(w, cfg, q, answer, now))
  {
    hide PaysOk, Reconcile, Dispatch, Done;
    NewUnpaid(w);
    if q in w.tasks && w.tasks[q].Parsing? {
      PaysDone(w, q);
      var t := w.tasks[q];
      var v := t.view;
      var r := Reservation(q, v.invoice, v.invoice, if v.pubkey.Some? then v.pubkey.value else 0, t.client, t.network, v.amount, v.expiry);
      var (rows, reserved) := ReserveStep(w.rows, r, cfg, now);
      if answer == Some(true) && reserved.Taken? {
        if reserved.created {
          PaysRow(w, q, NewRow(r, now));
          PaysGrant(Put(w, q, NewRow(r, now)), w.grants[q := Grant(t.client, t.network, now)]);
          PaysDispatch(Put(w, q, NewRow(r, now)).(grants := w.grants[q := Grant(t.client, t.network, now)]), Record(q, reserved.row), false, now);
        } else {
          PaysReconcile(w, Record(q, reserved.row), v, false, now);
        }
      }
    }
  }

  lemma NewUnpaid(w: World)
    requires PaysOk(w)
    ensures forall i: Invoice :: i.quote !in w.rows ==> Accepted(w, i) == 0
    ensures forall q :: q in w.rows ==> OwnInvoice(q, w.rows[q])
  {
  }

  lemma PaysGrant(w: World, grants: map<nat, Grant>)
    requires PaysOk(w)
    ensures PaysOk(w.(grants := grants))
  {
    var v := w.(grants := grants);
    forall p | p in v.tasks ensures TaskPays(v, p, v.tasks[p]) { assert TaskPays(w, p, w.tasks[p]); }
  }

  lemma PaysLooked(w: World, cfg: Config, q: nat, answer: Lookup, now: int)
    requires PaysOk(w) && Honest(w, ELooked(q, answer))
    ensures PaysOk(Looked(w, cfg, q, answer, now))
  {
    if q in w.tasks && w.tasks[q].Looking? {
      var t := w.tasks[q];
      assert TaskPays(w, q, t);
      PaysMove(w, q, Recoverable, Some(CheckUnknown), now);
      PaysMove(w, q, Recoverable, Some(HashMismatch), now);
      PaysDone(w, q);
      PaysMove(w, q, Recoverable, Some(DispatchUnconfirmed), now);
      PaysMove(w, q, Failed, Some(QuoteExpired), now);
      PaysMove(w, q, Recoverable, Some(ManualReview), now);
      if answer.Session? { PaysPayment(w, q, answer.payment.status, now); }
      if answer.NoSession? && t.record.row.paymentHash.Some? { PaysDispatch(w, t.record, t.sweeping, now); }
    }
    hide PaysOk, Move, Dispatch, Done, ApplyPayment;
  }

  lemma PaysEffect(w: World, q: nat)
    requires PaysOk(w)
    ensures PaysOk(SendTakesEffect(w, q))
  {
    var v := SendTakesEffect(w, q);
    if v != w {
      assert TaskPays(w, q, w.tasks[q]);
      forall p | p in v.tasks ensures TaskPays(v, p, v.tasks[p]) { assert TaskPays(w, p, w.tasks[p]); }
    }
  }

  lemma PaysSent(w: World, q: nat, answer: Option<Payment>, now: int)
    requires PaysOk(w)
    ensures PaysOk(Sent(w, q, answer, now))
  {
    if q in w.tasks && w.tasks[q].Sending? {
      PaysMove(w, q, Recoverable, Some(DispatchUnknown), now);
      PaysMove(w, q, Recoverable, Some(HashMismatch), now);
      if answer.Some? { PaysPayment(w, q, answer.value.status, now); }
    }
    hide PaysOk, Move, ApplyPayment;
  }

  lemma PaysClaim(w: World, cfg: Config, q: nat, client: nat, network: nat)
    requires PaysOk(w)
    ensures PaysOk(Claim(w, cfg, q, client, network))
  {
    if q in w.rows {
      PaysTask(w, q, FetchStored(Record(q, w.rows[q]), false));
    } else {
      PaysTask(w, q, FetchNew(client, network));
    }
    hide PaysOk;
  }

  lemma PaysVisit(w: World)
    requires PaysOk(w)
    ensures PaysOk(VisitNext(w))
  {
    if VisitNext(w) != w {
      var record := w.sweep.value.rest[0];
      assert TaskPays(w, record.quote, FetchStored(record, true));
      PaysTask(w, record.quote, FetchStored(record, true));
      PaysRest(w, w.sweep.value.rest[1..], None);
      PaysRest(w.(tasks := w.tasks[record.quote := FetchStored(record, true)]), w.sweep.value.rest[1..], Some(record.quote));
    }
    hide PaysOk;
  }

  lemma PaysRest(w: World, rest: seq<Record>, waiting: Option<nat>)
    requires PaysOk(w) && w.sweep.Some? && w.sweep.value.rest != [] && rest == w.sweep.value.rest[1..]
    ensures PaysOk(w.(sweep := Some(Sweep(rest, waiting))))
  {
    var v := w.(sweep := Some(Sweep(rest, waiting)));
    forall p | p in v.tasks ensures TaskPays(v, p, v.tasks[p]) { assert TaskPays(w, p, w.tasks[p]); }
    assert forall i :: 0 <= i < |rest| ==> rest[i] == w.sweep.value.rest[i + 1];
  }

  lemma PaysEnd(w: World, cfg: Config, now: int)
    requires PaysOk(w)
    ensures PaysOk(EndSweep(w, cfg, now)) && PaysOk(w.(tasks := map[], sweep := None))
  {
    PaysTables(w, ScrubAll(w.rows, now - cfg.retention));
  }

  lemma PaysList(w: World, open: seq<Record>)
    requires PaysOk(w)
    ensures PaysOk(StartSweep(w, open))
  {
    var v := StartSweep(w, open);
    forall p | p in v.tasks ensures TaskPays(v, p, v.tasks[p]) { assert TaskPays(w, p, w.tasks[p]); }
  }

  lemma PaysClock(w: World, clock: int)
    requires PaysOk(w)
    ensures PaysOk(w.(clock := clock))
  {
    var v := w.(clock := clock);
    forall p | p in v.tasks ensures TaskPays(v, p, v.tasks[p]) { assert TaskPays(w, p, w.tasks[p]); }
  }

  lemma PaysTables(w: World, rows: Table)
    requires PaysOk(w) && rows.Keys == w.rows.Keys && forall q :: q in rows ==> OwnInvoice(q, rows[q])
    ensures PaysOk(w.(rows := rows, sweep := None))
  {
    var v := w.(rows := rows, sweep := None);
    forall p | p in v.tasks ensures TaskPays(v, p, v.tasks[p]) { assert TaskPays(w, p, w.tasks[p]); }
  }

  lemma PaysAct(w: World, cfg: Config, e: Event, now: int)
    requires PaysOk(w) && Honest(w, e)
    ensures PaysOk(Act(w, cfg, e, now))
  {
    hide PaysOk, Honest, Claim, QuoteAnswered, Parsed, Looked, SendTakesEffect, Sent, StartSweep, VisitNext, EndSweep;
    match e
    case EClaim(q, c, n) => PaysClaim(w, cfg, q, c, n);
    case EQuote(q, v) => PaysQuote(w, cfg, q, v, now);
    case EParsed(q, m) => PaysParsed(w, cfg, q, m, now);
    case ELooked(q, l) => PaysLooked(w, cfg, q, l, now);
    case EEffect(q) => PaysEffect(w, q);
    case ESent(q, p) => PaysSent(w, q, p, now);
    case EStartSweep(rs) => PaysList(w, rs);
    case EVisit => PaysVisit(w);
    case EEndSweep => PaysEnd(w, cfg, now);
    case ERestart => PaysEnd(w, cfg, now);
  }

  predicate HonestRun(cfg: Config, es: seq<Timed>) {
    es == [] || (HonestRun(cfg, es[..|es| - 1]) && Honest(Run(START, cfg, es[..|es| - 1]), es[|es| - 1].event))
  }

  lemma PaysStep(w: World, cfg: Config, e: Timed)
    requires PaysOk(w) && Honest(w, e.event)
    ensures PaysOk(Step(w, cfg, e))
  {
    hide PaysOk, Honest, Act;
    PaysAct(w, cfg, e.event, w.clock + e.delay);
    PaysClock(Act(w, cfg, e.event, w.clock + e.delay), w.clock + e.delay);
  }

  lemma {:induction false} RunPays(cfg: Config, es: seq<Timed>)
    requires HonestRun(cfg, es)
    ensures PaysOk(Run(START, cfg, es))
  {
    hide Honest, Step;
    if es != [] {
      RunPays(cfg, es[..|es| - 1]);
      PaysStep(Run(START, cfg, es[..|es| - 1]), cfg, es[|es| - 1]);
    }
  }

  /** With truthful lookups, distinct hashes and sends that take effect before their call ends or
      never, no invoice is ever paid twice: not by a claim, not by a pass working from an old list,
      and not after lost answers or restarts. */
  lemma PaysOnce(cfg: Config, es: seq<Timed>, i: Invoice)
    requires HonestRun(cfg, es)
    ensures Accepted(Run(START, cfg, es), i) <= 1
  {
    RunPays(cfg, es);
    hide Run;
  }
}
