/** How often a claim is dispatched, in every run of claims, passes and restarts. */
module FaucetAttempts {
  import opened Ecash
  import opened Faucet

  // ---- how often a claim is dispatched ----

  /** A remembered record is no newer than its row; if it still allows a dispatch, the row has
      room for one. A claim's own record is exact, because its quote is locked. */
  predicate RecordOk(t: Table, q: nat, record: Record, sweeping: bool) {
    && record.quote == q && q in t && record.row.attempts <= t[q].attempts
    && (record.row.attempts < 2 ==> t[q].attempts <= 2)
    && (!sweeping ==> record.row.attempts == t[q].attempts)
  }

  predicate TaskOk(t: Table, q: nat, task: Task) {
    match task
    case FetchNew(_, _) => true
    case Parsing(_, _, _) => true
    case FetchStored(record, s) => RecordOk(t, q, record, s)
    case Looking(record, _, s) => RecordOk(t, q, record, s)
    case Sending(record, _, _) => record.quote == q && q in t
  }

  predicate SweepOk(t: Table, tasks: map<nat, Task>, s: Sweep) {
    && (forall i :: 0 <= i < |s.rest| ==> RecordOk(t, s.rest[i].quote, s.rest[i], true))
    && (forall i, j :: 0 <= i < j < |s.rest| ==> s.rest[i].quote != s.rest[j].quote)
    && (forall q :: q in tasks && Sweeping(tasks[q]) ==> s.waiting == Some(q))
    && (s.waiting.Some? ==> forall i :: 0 <= i < |s.rest| ==> s.rest[i].quote != s.waiting.value)
  }

  /** `most` is 3, or 2 when no pass ever runs. */
  predicate Bounded(w: World, most: nat) {
    && (forall q :: q in w.rows ==> w.rows[q].attempts <= most)
    && (forall q :: q in w.tasks ==> TaskOk(w.rows, q, w.tasks[q]))
    && (w.sweep.Some? ==> SweepOk(w.rows, w.tasks, w.sweep.value))
    && (w.sweep.None? ==> forall q :: q in w.tasks ==> !Sweeping(w.tasks[q]))
    && (most < 3 ==> w.sweep.None?)
  }

  /** Rewriting a row without a new attempt, and releasing its lock, keeps the bound. */
  lemma BoundedDone(w: World, q: nat, most: nat)
    requires Bounded(w, most) && q in w.tasks
    ensures Bounded(Done(w, q), most)
  {
    hide RecordOk;
  }

  lemma BoundedRow(w: World, q: nat, r: Row, most: nat)
    requires Bounded(w, most) && (q in w.rows ==> r.attempts == w.rows[q].attempts) && (q !in w.rows ==> r.attempts == 0)
    ensures Bounded(Put(w, q, r), most)
  {
    var v := Put(w, q, r);
    forall p | p in v.tasks ensures TaskOk(v.rows, p, v.tasks[p]) { assert TaskOk(w.rows, p, w.tasks[p]); }
  }

  lemma BoundedMove(w: World, q: nat, state: ClaimState, failure: Option<Failure>, now: int, most: nat)
    requires Bounded(w, most) && q in w.tasks
    ensures Bounded(Move(w, q, state, failure, now), most)
  {
    hide Bounded;
    if q in w.rows {
      BoundedSame(w, q, Moved(w.rows[q], state, failure, now), most);
      BoundedDone(Put(w, q, Moved(w.rows[q], state, failure, now)), q, most);
    } else {
      BoundedDone(w, q, most);
    }
  }

  lemma BoundedSame(w: World, q: nat, r: Row, most: nat)
    requires Bounded(w, most) && q in w.rows && r.attempts == w.rows[q].attempts
    ensures Bounded(Put(w, q, r), most)
  {
    BoundedRow(w, q, r, most);
  }

  lemma BoundedTask(w: World, q: nat, task: Task, most: nat)
    requires Bounded(w, most) && TaskOk(w.rows, q, task) && (q in w.tasks || !Sweeping(task))
      && (q in w.tasks ==> (Sweeping(task) ==> Sweeping(w.tasks[q])))
    ensures Bounded(w.(tasks := w.tasks[q := task]), most)
  {
    hide RecordOk, TaskOk;
  }

  /** A dispatch by the lock holder: a claim's record is exact, a pass has no other record of it. */
  lemma BoundedDispatch(w: World, record: Record, sweeping: bool, now: int, most: nat)
    requires Bounded(w, most) && record.quote in w.tasks && RecordOk(w.rows, record.quote, record, sweeping)
      && record.row.attempts < 2
    requires Sweeping(w.tasks[record.quote]) == sweeping && most >= 2
    ensures Bounded(Dispatch(w, record, sweeping, now), most)
  {
    var q := record.quote;
    BoundedMove(w, q, Recoverable, Some(MissingData), now, most);
    if record.row.invoice.Some? && record.row.paymentHash.Some? {
      var v := Dispatch(w, record, sweeping, now);
      forall p | p in v.tasks ensures TaskOk(v.rows, p, v.tasks[p]) {
        if p != q { assert TaskOk(w.rows, p, w.tasks[p]); }
      }
      assert v.sweep.Some? ==> SweepOk(v.rows, v.tasks, v.sweep.value) by {
        if v.sweep.Some? { DispatchSweep(w, record, sweeping, now); }
      }
    }
  }

  lemma DispatchSweep(w: World, record: Record, sweeping: bool, now: int)
    requires w.sweep.Some? && SweepOk(w.rows, w.tasks, w.sweep.value) && record.quote in w.tasks
      && RecordOk(w.rows, record.quote, record, sweeping)
    requires record.row.attempts < 2 && Sweeping(w.tasks[record.quote]) == sweeping
    ensures var q := record.quote;
      SweepOk(w.rows[q := Attempted(w.rows[q], now)], w.tasks[q := Sending(record, false, sweeping)], w.sweep.value)
  {
    var q := record.quote;
    var rows := w.rows[q := Attempted(w.rows[q], now)];
    forall i | 0 <= i < |w.sweep.value.rest| ensures RecordOk(rows, w.sweep.value.rest[i].quote, w.sweep.value.rest[i], true) {
      assert RecordOk(w.rows, w.sweep.value.rest[i].quote, w.sweep.value.rest[i], true);
    }
  }

  lemma BoundedReconcile(w: World, record: Record, v: QuoteView, sweeping: bool, now: int, most: nat)
    requires Bounded(w, most) && record.quote in w.tasks && RecordOk(w.rows, record.quote, record, sweeping)
      && Sweeping(w.tasks[record.quote]) == sweeping
    ensures Bounded(Reconcile(w, record, v, sweeping, now), most)
  {
    var q := record.quote;
    BoundedDone(w, q, most);
    BoundedMove(w, q, Recoverable, Some(QuoteChanged), now, most);
    BoundedMove(w, q, Issued, None, now, most);
    BoundedMove(w, q, PaidOut, None, now, most);
    BoundedMove(w, q, Recoverable, Some(MissingHash), now, most);
    BoundedTask(w, q, Looking(record, v, sweeping), most);
    hide Bounded;
  }

  lemma BoundedPayment(w: World, q: nat, status: PayStatus, now: int, most: nat)
    requires Bounded(w, most) && q in w.tasks
    ensures Bounded(ApplyPayment(w, q, status, now), most)
  {
    hide Bounded, Move;
    match status
    case Success => BoundedMove(w, q, PaidOut, None, now, most);
    case PayFailed => BoundedMove(w, q, Failed, Some(FiberFailed), now, most);
    case InProgress => BoundedMove(w, q, Pending, None, now, most);
  }

  lemma BoundedClaim(w: World, cfg: Config, q: nat, client: nat, network: nat, most: nat)
    requires Bounded(w, most)
    ensures Bounded(Claim(w, cfg, q, client, network), most)
  {
    if q !in w.tasks && q in w.rows && most >= 2 {
      BoundedTaskNew(w, q, FetchStored(Record(q, w.rows[q]), false), most);
    }
  }

  lemma BoundedTaskNew(w: World, q: nat, task: Task, most: nat)
    requires Bounded(w, most) && TaskOk(w.rows, q, task) && q !in w.tasks && !Sweeping(task)
    ensures Bounded(w.(tasks := w.tasks[q := task]), most)
  {
    hide RecordOk, TaskOk;
  }

  lemma BoundedQuote(w: World, cfg: Config, q: nat, answer: Option<QuoteView>, now: int, most: nat)
    requires Bounded(w, most)
    ensures Bounded(QuoteAnswered(w, cfg, q, answer, now), most)
  {
    if q in w.tasks {
      BoundedDone(w, q, most);
      assert TaskOk(w.rows, q, w.tasks[q]);
      if answer.Some? {
        if w.tasks[q].FetchNew? { BoundedTask(w, q, Parsing(w.tasks[q].client, w.tasks[q].network, answer.value), most); }
        if w.tasks[q].FetchStored? { BoundedReconcile(w, w.tasks[q].record, answer.value, w.tasks[q].sweeping, now, most); }
      }
    }
    hide Bounded, Reconcile, Done;
  }

  lemma BoundedParsed(w: World, cfg: Config, q: nat, answer: Option<bool>, now: int, most: nat)
    requires Bounded(w, most) && most >= 2
    ensures Bounded(Parsed(w, cfg, q, answer, now), most)
  {
    hide Bounded, Reconcile, Dispatch, Done;
    if q in w.tasks && w.tasks[q].Parsing? {
      BoundedDone(w, q, most);
      var t := w.tasks[q];
      var v := t.view;
      var r := Reservation(q, v.invoice, v.invoice, if v.pubkey.Some? then v.pubkey.value else 0, t.client, t.network, v.amount, v.expiry);
      var (rows, reserved) := ReserveStep(w.rows, r, cfg, now);
      if reserved.Taken? {
        if reserved.created {
          BoundedRow(w, q, NewRow(r, now), most);
          BoundedGrant(Put(w, q, NewRow(r, now)), w.grants[q := Grant(t.client, t.network, now)], most);
          BoundedDispatch(Put(w, q, NewRow(r, now)).(grants := w.grants[q := Grant(t.client, t.network, now)]), Record(q, reserved.row), false, now, most);
        } else {
          BoundedReconcile(w, Record(q, reserved.row), v, false, now, most);
        }
      }
    }
  }

  lemma BoundedGrant(w: World, grants: map<nat, Grant>, most: nat)
    requires Bounded(w, most)
    ensures Bounded(w.(grants := grants), most)
  {
  }

  lemma BoundedLooked(w: World, cfg: Config, q: nat, answer: Lookup, now: int, most: nat)
    requires Bounded(w, most) && most >= 2
    ensures Bounded(Looked(w, cfg, q, answer, now), most)
  {
    if q in w.tasks && w.tasks[q].Looking? {
      var t := w.tasks[q];
      assert TaskOk(w.rows, q, t);
      match answer
      case LookupError => BoundedMove(w, q, Recoverable, Some(CheckUnknown), now, most);
      case Session(payment) =>
        BoundedMove(w, q, Recoverable, Some(HashMismatch), now, most);
        BoundedPayment(w, q, payment.status, now, most);
      case NoSession =>
        BoundedDone(w, q, most);
        BoundedMove(w, q, Recoverable, Some(DispatchUnconfirmed), now, most);
        BoundedMove(w, q, Failed, Some(QuoteExpired), now, most);
        BoundedMove(w, q, Recoverable, Some(ManualReview), now, most);
        if t.record.row.attempts < 2 { BoundedDispatch(w, t.record, t.sweeping, now, most); }
    }
    hide Bounded, Move, Dispatch, Done, ApplyPayment;
  }

  lemma BoundedSent(w: World, q: nat, answer: Option<Payment>, now: int, most: nat)
    requires Bounded(w, most)
    ensures Bounded(Sent(w, q, answer, now), most) && Bounded(SendTakesEffect(w, q), most)
  {
    if q in w.tasks && w.tasks[q].Sending? {
      BoundedMove(w, q, Recoverable, Some(DispatchUnknown), now, most);
      BoundedMove(w, q, Recoverable, Some(HashMismatch), now, most);
      if answer.Some? { BoundedPayment(w, q, answer.value.status, now, most); }
      assert TaskOk(w.rows, q, w.tasks[q]);
      BoundedTask(w, q, w.tasks[q].(effect := true), most);
      BoundedAccepted(w.(tasks := w.tasks[q := w.tasks[q].(effect := true)]), SendTakesEffect(w, q).accepted, most);
    }
    hide Bounded, Move, ApplyPayment;
  }

  lemma BoundedAccepted(w: World, accepted: map<Invoice, nat>, most: nat)
    requires Bounded(w, most)
    ensures Bounded(w.(accepted := accepted), most)
  {
  }

  lemma BoundedStart(w: World, open: seq<Record>)
    requires Bounded(w, 3)
    ensures Bounded(StartSweep(w, open), 3)
  {
  }

  lemma BoundedEnd(w: World, cfg: Config, now: int)
    requires Bounded(w, 3)
    ensures Bounded(EndSweep(w, cfg, now), 3)
  {
    var v := EndSweep(w, cfg, now);
    forall p | p in v.tasks ensures TaskOk(v.rows, p, v.tasks[p]) { assert TaskOk(w.rows, p, w.tasks[p]); }
    hide TaskOk, RecordOk;
  }

  lemma BoundedVisit(w: World)
    requires Bounded(w, 3)
    ensures Bounded(VisitNext(w), 3)
  {
    if VisitNext(w) != w {
      assert RecordOk(w.rows, w.sweep.value.rest[0].quote, w.sweep.value.rest[0], true);
      hide RecordOk;
    }
  }

  predicate NoPass(e: Event) { !e.EStartSweep? }

  lemma BoundedIdle(w: World, cfg: Config, now: int, clock: int, most: nat)
    requires Bounded(w, most)
    ensures Bounded(w.(clock := clock), most) && Bounded(w.(tasks := map[], sweep := None), most)
    ensures most < 3 ==> VisitNext(w) == w == EndSweep(w, cfg, now)
  {
  }

  lemma BoundedAct(w: World, cfg: Config, e: Event, now: int, most: nat)
    requires Bounded(w, most) && (most == 3 || (most == 2 && NoPass(e)))
    ensures Bounded(Act(w, cfg, e, now), most)
  {
    hide Bounded, Claim, QuoteAnswered, Parsed, Looked, SendTakesEffect, Sent, StartSweep, VisitNext, EndSweep;
    BoundedIdle(w, cfg, now, now, most);
    match e
    case EClaim(q, c, n) => BoundedClaim(w, cfg, q, c, n, most);
    case EQuote(q, v) => BoundedQuote(w, cfg, q, v, now, most);
    case EParsed(q, m) => BoundedParsed(w, cfg, q, m, now, most);
    case ELooked(q, l) => BoundedLooked(w, cfg, q, l, now, most);
    case EEffect(q) => BoundedSent(w, q, None, now, most);
    case ESent(q, p) => BoundedSent(w, q, p, now, most);
    case EStartSweep(rs) => BoundedStart(w, rs);
    case EVisit => if most == 3 { BoundedVisit(w); }
    case EEndSweep => if most == 3 { BoundedEnd(w, cfg, now); }
    case ERestart =>
  }

  lemma BoundedStep(w: World, cfg: Config, e: Timed, most: nat)
    requires Bounded(w, most) && (most == 3 || (most == 2 && NoPass(e.event)))
    ensures Bounded(Step(w, cfg, e), most)
  {
    hide Bounded, Act;
    BoundedAct(w, cfg, e.event, w.clock + e.delay, most);
    BoundedIdle(Act(w, cfg, e.event, w.clock + e.delay), cfg, 0, w.clock + e.delay, most);
  }

  /** In runs of claims and restarts no claim is dispatched more than twice. */
  lemma {:induction false} TwoAttempts(cfg: Config, es: seq<Timed>)
    requires forall i :: 0 <= i < |es| ==> NoPass(es[i].event)
    ensures Bounded(Run(START, cfg, es), 2)
  {
    if es != [] {
      TwoAttempts(cfg, es[..|es| - 1]);
      BoundedStep(Run(START, cfg, es[..|es| - 1]), cfg, es[|es| - 1], 2);
    }
  }

  /** With background passes over a list read once per pass, never more than three times. */
  lemma {:induction false} ThreeAttempts(cfg: Config, es: seq<Timed>)
    ensures Bounded(Run(START, cfg, es), 3)
  {
    if es != [] {
      ThreeAttempts(cfg, es[..|es| - 1]);
      BoundedStep(Run(START, cfg, es[..|es| - 1]), cfg, es[|es| - 1], 3);
    }
  }
}
