/** The guard against a foreign payment hash, over every run: while a row carries the mismatch code,
    only a pass that read its list before the code was set can dispatch it. */
module FaucetGuard {
  import opened Ecash
  import opened Faucet
  import opened FaucetAttempts

  predicate Marked(w: World, q: nat) {
    q in w.rows && w.rows[q].failure == Some(HashMismatch)
  }

  /** A step from `w` to `v` that counts another attempt of this claim. */
  predicate Dispatches(w: World, v: World, q: nat) {
    q in w.rows && q in v.rows && v.rows[q].attempts > w.rows[q].attempts
  }

  // ---- a claim's own record is exact ----

  predicate Exact(t: Table, q: nat, record: Record) {
    q in t && record.row.failure == t[q].failure
  }

  predicate TaskFresh(t: Table, q: nat, task: Task) {
    match task
    case FetchNew(_, _) => true
    case Parsing(_, _, _) => true
    case FetchStored(record, s) => record.quote == q && (!s ==> Exact(t, q, record))
    case Looking(record, _, s) => record.quote == q && (!s ==> Exact(t, q, record))
    case Sending(record, _, _) => record.quote == q
  }

  predicate AllFresh(w: World) { forall q :: q in w.tasks ==> TaskFresh(w.rows, q, w.tasks[q]) }

  /** The record a task works from. */
  function RecordOf(t: Task): Option<Record> {
    match t
    case FetchNew(_, _) => None
    case Parsing(_, _, _) => None
    case FetchStored(record, _) => Some(record)
    case Looking(record, _, _) => Some(record)
    case Sending(record, _, _) => Some(record)
  }

  /** A task of a pass that is still there, with the record it had. */
  predicate SamePass(tasks: map<nat, Task>, q: nat, task: Task) {
    Sweeping(task) ==> q in tasks && Sweeping(tasks[q]) && RecordOf(tasks[q]) == RecordOf(task)
  }

  /** A step that concerns one quote leaves the rows and tasks of the others alone, and brings no new
      record into a pass. */
  predicate Only(w: World, v: World, q: nat) {
    && (forall p :: p in w.rows && p != q ==> p in v.rows && v.rows[p] == w.rows[p])
    && (forall p :: p in v.tasks && p != q ==> p in w.tasks && v.tasks[p] == w.tasks[p])
    && (q in v.tasks ==> SamePass(w.tasks, q, v.tasks[q]))
    && (v.sweep.Some? ==> w.sweep.Some? && v.sweep.value.rest == w.sweep.value.rest)
  }

  lemma OnlyFresh(w: World, v: World, q: nat)
    requires AllFresh(w) && Only(w, v, q) && (q in v.tasks ==> TaskFresh(v.rows, q, v.tasks[q]))
    ensures AllFresh(v)
  {
    forall p | p in v.tasks ensures TaskFresh(v.rows, p, v.tasks[p]) { if p != q { assert TaskFresh(w.rows, p, w.tasks[p]); } }
  }

  /** Only this quote is concerned, its attempts stay, and what is left of its task is exact. */
  predicate Quiet(w: World, v: World, q: nat) {
    && Only(w, v, q) && (q in w.rows ==> q in v.rows && v.rows[q].attempts == w.rows[q].attempts)
    && (q in v.tasks ==> TaskFresh(v.rows, q, v.tasks[q]))
  }

  lemma MoveQuiet(w: World, q: nat, state: ClaimState, failure: Option<Failure>, now: int)
    requires q in w.tasks
    ensures Quiet(w, Move(w, q, state, failure, now), q) && Quiet(w, Done(w, q), q)
  {
  }

  lemma ReconcileQuiet(w: World, record: Record, v: QuoteView, sweeping: bool, now: int)
    requires record.quote in w.tasks && (!sweeping ==> Exact(w.rows, record.quote, record))
      && (sweeping ==> Sweeping(w.tasks[record.quote]) && RecordOf(w.tasks[record.quote]) == Some(record))
    ensures Quiet(w, Reconcile(w, record, v, sweeping, now), record.quote)
  {
    var q := record.quote;
    MoveQuiet(w, q, Recoverable, Some(QuoteChanged), now);
    MoveQuiet(w, q, Issued, None, now);
    MoveQuiet(w, q, PaidOut, None, now);
    MoveQuiet(w, q, Recoverable, Some(MissingHash), now);
    LookingQuiet(w, record, v, sweeping);
    hide Move, Done, Quiet;
  }

  lemma LookingQuiet(w: World, record: Record, v: QuoteView, sweeping: bool)
    requires record.quote in w.tasks && (!sweeping ==> Exact(w.rows, record.quote, record))
      && (sweeping ==> Sweeping(w.tasks[record.quote]) && RecordOf(w.tasks[record.quote]) == Some(record))
    ensures Quiet(w, w.(tasks := w.tasks[record.quote := Looking(record, v, sweeping)]), record.quote)
  {
  }

  lemma PaymentQuiet(w: World, q: nat, status: PayStatus, now: int)
    requires q in w.tasks
    ensures Quiet(w, ApplyPayment(w, q, status, now), q)
  {
    hide Move, Quiet;
    match status
    case Success => MoveQuiet(w, q, PaidOut, None, now);
    case PayFailed => MoveQuiet(w, q, Failed, Some(FiberFailed), now);
    case InProgress => MoveQuiet(w, q, Pending, None, now);
  }

  lemma QuoteQuiet(w: World, cfg: Config, q: nat, answer: Option<QuoteView>, now: int)
    requires AllFresh(w)
    ensures Quiet(w, QuoteAnswered(w, cfg, q, answer, now), q)
  {
    assert q in w.tasks ==> TaskFresh(w.rows, q, w.tasks[q]);
    if q in w.tasks {
      MoveQuiet(w, q, Recoverable, None, now);
      if w.tasks[q].FetchStored? && answer.Some? { ReconcileQuiet(w, w.tasks[q].record, answer.value, w.tasks[q].sweeping, now); }
    }
    hide Reconcile, Done, Move;
  }

  lemma DispatchOnly(w: World, record: Record, sweeping: bool, now: int)
    requires record.quote in w.tasks && (sweeping ==> Sweeping(w.tasks[record.quote]) && RecordOf(w.tasks[record.quote]) == Some(record))
    ensures var v := Dispatch(w, record, sweeping, now);
      Only(w, v, record.quote) && (record.quote in v.tasks ==> TaskFresh(v.rows, record.quote, v.tasks[record.quote]))
  {
    MoveQuiet(w, record.quote, Recoverable, Some(MissingData), now);
    hide Move;
  }

  lemma StillQuiet(w: World, q: nat)
    requires AllFresh(w)
    ensures Quiet(w, w, q)
  {
    assert q in w.tasks ==> TaskFresh(w.rows, q, w.tasks[q]);
  }

  /** The only step that counts an attempt of a stored row is a lookup that finds no session, by a task
      whose record does not carry the mismatch code. */
  predicate Untrusting(w: World, q: nat, e: Event) {
    e == ELooked(q, NoSession) && q in w.tasks && w.tasks[q].Looking? && w.tasks[q].record.row.failure != Some(HashMismatch)
  }

  /** What an event about one quote may do. */
  predicate Guarded(w: World, v: World, q: nat, e: Event) {
    Only(w, v, q) && (Dispatches(w, v, q) ==> Untrusting(w, q, e)) && (q in v.tasks ==> TaskFresh(v.rows, q, v.tasks[q]))
  }

  lemma QuietGuarded(w: World, v: World, q: nat, e: Event)
    requires Quiet(w, v, q)
    ensures Guarded(w, v, q, e)
  {
  }

  lemma DispatchGuarded(w: World, record: Record, sweeping: bool, now: int, e: Event)
    requires record.quote in w.tasks && (record.quote in w.rows ==> Untrusting(w, record.quote, e))
      && (sweeping ==> Sweeping(w.tasks[record.quote]) && RecordOf(w.tasks[record.quote]) == Some(record))
    ensures Guarded(w, Dispatch(w, record, sweeping, now), record.quote, e)
  {
    DispatchOnly(w, record, sweeping, now);
    hide Dispatch, Only;
  }

  /** A claim just reserved is dispatched from a row that was not there before. */
  lemma NewGuarded(w: World, cfg: Config, q: nat, grants: map<nat, Grant>, r: Reservation, now: int, e: Event)
    requires q in w.tasks && r.quote == q && q !in w.rows && ReserveStep(w.rows, r, cfg, now).1.Taken?
    ensures var (rows, reserved) := ReserveStep(w.rows, r, cfg, now);
      Guarded(w, Dispatch(w.(rows := rows, grants := grants), Record(q, reserved.row), false, now), q, e)
  {
    var (rows, reserved) := ReserveStep(w.rows, r, cfg, now);
    assert rows == w.rows[q := reserved.row];
    DispatchOnly(w.(rows := rows, grants := grants), Record(q, reserved.row), false, now);
    hide ReserveStep, Dispatch;
  }

  lemma TakenRow(t: Table, r: Reservation, cfg: Config, now: int)
    ensures var answer := ReserveStep(t, r, cfg, now).1;
      answer.Taken? ==> answer.created == (r.quote !in t) && (r.quote in t ==> answer.row == t[r.quote])
  {
  }

  /** A parsed invoice dispatches only a row it has just made. */
  lemma ParsedGuarded(w: World, cfg: Config, q: nat, answer: Option<bool>, now: int)
    requires AllFresh(w)
    ensures Guarded(w, Parsed(w, cfg, q, answer, now), q, EParsed(q, answer))
  {
    StillQuiet(w, q);
    QuietGuarded(w, w, q, EParsed(q, answer));
    hide Reconcile, Done, Move, Dispatch, ReserveStep, Quiet, Guarded, AllFresh;
    if q in w.tasks && w.tasks[q].Parsing? {
      MoveQuiet(w, q, Recoverable, None, now);
      QuietGuarded(w, Done(w, q), q, EParsed(q, answer));
      var t := w.tasks[q];
      var v := t.view;
      var r := Reservation(q, v.invoice, v.invoice, if v.pubkey.Some? then v.pubkey.value else 0, t.client, t.network, v.amount, v.expiry);
      var (rows, reserved) := ReserveStep(w.rows, r, cfg, now);
      TakenRow(w.rows, r, cfg, now);
      if reserved.Taken? {
        if reserved.created {
          NewGuarded(w, cfg, q, w.grants[q := Grant(t.client, t.network, now)], r, now, EParsed(q, answer));
        } else {
          ReconcileQuiet(w, Record(q, reserved.row), v, false, now);
          QuietGuarded(w, Reconcile(w, Record(q, reserved.row), v, false, now), q, EParsed(q, answer));
        }
      }
    }
  }

  lemma SessionQuiet(w: World, q: nat, payment: Payment, hash: Option<Invoice>, now: int)
    requires q in w.tasks
    ensures Quiet(w, if Some(payment.hash) != hash then Move(w, q, Recoverable, Some(HashMismatch), now) else ApplyPayment(w, q, payment.status, now), q)
  {
    hide Move, ApplyPayment, Quiet;
    MoveQuiet(w, q, Recoverable, Some(HashMismatch), now);
    PaymentQuiet(w, q, payment.status, now);
  }

  /** The lookup found no session. */
  lemma MissingGuarded(w: World, cfg: Config, q: nat, now: int)
    requires q in w.tasks && w.tasks[q].Looking? && w.tasks[q].record.quote == q && w.tasks[q].record.row.paymentHash.Some?
    ensures Guarded(w, Looked(w, cfg, q, NoSession, now), q, ELooked(q, NoSession))
  {
    var e, v := ELooked(q, NoSession), Looked(w, cfg, q, NoSession, now);
    MoveQuiet(w, q, Recoverable, Some(DispatchUnconfirmed), now);
    MoveQuiet(w, q, Failed, Some(QuoteExpired), now);
    MoveQuiet(w, q, Recoverable, Some(ManualReview), now);
    QuietGuardedIf(w, v, q, e);
    if w.tasks[q].record.row.failure != Some(HashMismatch) { DispatchGuarded(w, w.tasks[q].record, w.tasks[q].sweeping, now, e); }
    hide Done, Move, Dispatch, Quiet, Guarded;
  }

  lemma LookedGuarded(w: World, cfg: Config, q: nat, answer: Lookup, now: int)
    requires AllFresh(w)
    ensures Guarded(w, Looked(w, cfg, q, answer, now), q, ELooked(q, answer))
  {
    var e, v := ELooked(q, answer), Looked(w, cfg, q, answer, now);
    StillQuiet(w, q);
    QuietGuarded(w, w, q, e);
    hide Done, Move, Dispatch, ApplyPayment, Quiet, Guarded, AllFresh;
    if q in w.tasks && w.tasks[q].Looking? && w.tasks[q].record.quote == q && w.tasks[q].record.row.paymentHash.Some? {
      match answer
      case LookupError => MoveQuiet(w, q, Recoverable, Some(CheckUnknown), now); QuietGuarded(w, v, q, e);
      case Session(payment) => SessionQuiet(w, q, payment, w.tasks[q].record.row.paymentHash, now); QuietGuarded(w, v, q, e);
      case NoSession => MissingGuarded(w, cfg, q, now);
    }
  }

  lemma QuietGuardedIf(w: World, v: World, q: nat, e: Event)
    ensures Quiet(w, v, q) ==> Guarded(w, v, q, e)
  {
  }

  lemma EffectQuiet(w: World, q: nat)
    requires AllFresh(w)
    ensures Quiet(w, SendTakesEffect(w, q), q)
  {
    assert q in w.tasks ==> TaskFresh(w.rows, q, w.tasks[q]);
  }

  lemma SentQuiet(w: World, q: nat, answer: Option<Payment>, now: int)
    requires AllFresh(w)
    ensures Quiet(w, Sent(w, q, answer, now), q)
  {
    StillQuiet(w, q);
    hide Move, Done, ApplyPayment, AllFresh, Quiet;
    if q in w.tasks && w.tasks[q].Sending? {
      if answer.None? { MoveQuiet(w, q, Recoverable, Some(DispatchUnknown), now); }
      else { SessionQuiet(w, q, answer.value, w.tasks[q].record.row.paymentHash, now); }
    }
  }

  lemma ClaimQuiet(w: World, cfg: Config, q: nat, client: nat, network: nat)
    requires AllFresh(w)
    ensures Quiet(w, Claim(w, cfg, q, client, network), q)
  {
    assert q in w.tasks ==> TaskFresh(w.rows, q, w.tasks[q]);
  }

  /** Passes begin, go on and end; a restart forgets the tasks. */
  lemma RestFresh(w: World, cfg: Config, e: Event, now: int)
    requires AllFresh(w) && (e.EStartSweep? || e.EVisit? || e.EEndSweep? || e.ERestart?)
    ensures var v := Act(w, cfg, e, now);
      AllFresh(v) && forall q :: q in w.rows ==> q in v.rows && v.rows[q].attempts == w.rows[q].attempts
  {
    var v := Act(w, cfg, e, now);
    forall q | q in v.tasks ensures TaskFresh(v.rows, q, v.tasks[q]) { if q in w.tasks { assert TaskFresh(w.rows, q, w.tasks[q]); } }
  }

  // ---- every step ----

  /** The quote an event is about. */
  function QuoteOf(e: Event): Option<nat> {
    match e
    case EClaim(q, _, _) => Some(q)
    case EQuote(q, _) => Some(q)
    case EParsed(q, _) => Some(q)
    case ELooked(q, _) => Some(q)
    case EEffect(q) => Some(q)
    case ESent(q, _) => Some(q)
    case _ => None
  }

  lemma ActGuarded(w: World, cfg: Config, e: Event, now: int)
    requires AllFresh(w) && QuoteOf(e).Some?
    ensures Guarded(w, Act(w, cfg, e, now), QuoteOf(e).value, e)
  {
    hide AllFresh, Quiet, Guarded, Claim, QuoteAnswered, Parsed, Looked, SendTakesEffect, Sent;
    var q := QuoteOf(e).value;
    match e
    case EClaim(_, c, n) => ClaimQuiet(w, cfg, q, c, n); QuietGuarded(w, Act(w, cfg, e, now), q, e);
    case EQuote(_, v) => QuoteQuiet(w, cfg, q, v, now); QuietGuarded(w, Act(w, cfg, e, now), q, e);
    case EParsed(_, m) => ParsedGuarded(w, cfg, q, m, now);
    case ELooked(_, l) => LookedGuarded(w, cfg, q, l, now);
    case EEffect(_) => EffectQuiet(w, q); QuietGuarded(w, Act(w, cfg, e, now), q, e);
    case ESent(_, p) => SentQuiet(w, q, p, now); QuietGuarded(w, Act(w, cfg, e, now), q, e);
  }

  lemma GuardedFresh(w: World, v: World, q: nat, e: Event, clock: int)
    requires AllFresh(w) && Guarded(w, v, q, e)
    ensures AllFresh(v.(clock := clock)) && forall p :: Dispatches(w, v.(clock := clock), p) ==> Untrusting(w, p, e)
  {
    OnlyFresh(w, v, q);
    hide TaskFresh, SamePass, Untrusting;
  }

  lemma StepFresh(w: World, cfg: Config, e: Timed)
    requires AllFresh(w)
    ensures AllFresh(Step(w, cfg, e))
    ensures forall q :: Dispatches(w, Step(w, cfg, e), q) ==> Untrusting(w, q, e.event)
  {
    hide Act, TaskFresh, Untrusting, Guarded;
    var now := w.clock + e.delay;
    var v := Act(w, cfg, e.event, now);
    if QuoteOf(e.event).Some? {
      ActGuarded(w, cfg, e.event, now);
      GuardedFresh(w, v, QuoteOf(e.event).value, e.event, now);
    } else {
      RestFresh(w, cfg, e.event, now);
      assert AllFresh(v.(clock := now));
    }
  }

  lemma {:induction false} RunFresh(cfg: Config, es: seq<Timed>)
    ensures AllFresh(Run(START, cfg, es))
  {
    if es != [] {
      RunFresh(cfg, es[..|es| - 1]);
      StepFresh(Run(START, cfg, es[..|es| - 1]), cfg, es[|es| - 1]);
      hide AllFresh, Step;
    }
  }

  // ---- where a pass has its records from ----

  /** The record is on the list of the pass under way, or the pass is working on it. */
  predicate InPass(w: World, record: Record) {
    || (w.sweep.Some? && record in w.sweep.value.rest)
    || (record.quote in w.tasks && Sweeping(w.tasks[record.quote]) && RecordOf(w.tasks[record.quote]) == Some(record))
  }

  /** A pass reads its list when it starts. */
  predicate Listed(w: World, e: Timed, record: Record) {
    e.event.EStartSweep? && record.quote in w.rows && w.rows[record.quote] == record.row
  }

  lemma PassRest(w: World, cfg: Config, e: Event, now: int, clock: int, record: Record)
    requires QuoteOf(e).None? && InPass(Act(w, cfg, e, now).(clock := clock), record)
    ensures InPass(w, record) || (e.EStartSweep? && record.quote in w.rows && w.rows[record.quote] == record.row)
  {
    hide Claim, QuoteAnswered, Parsed, Looked, SendTakesEffect, Sent, ScrubAll;
  }

  lemma PassOnly(w: World, v: World, q: nat, clock: int, record: Record)
    requires Only(w, v, q) && InPass(v.(clock := clock), record)
    ensures InPass(w, record)
  {
  }

  lemma PassStep(w: World, cfg: Config, e: Timed, record: Record)
    requires AllFresh(w) && InPass(Step(w, cfg, e), record)
    ensures InPass(w, record) || Listed(w, e, record)
  {
    hide Act, AllFresh, InPass, TaskFresh, Only;
    var now := w.clock + e.delay;
    if QuoteOf(e.event).Some? {
      ActGuarded(w, cfg, e.event, now);
      PassOnly(w, Act(w, cfg, e.event, now), QuoteOf(e.event).value, now, record);
    } else {
      PassRest(w, cfg, e.event, now, now, record);
    }
  }

  ghost predicate WasListed(cfg: Config, es: seq<Timed>, record: Record) {
    exists k :: 0 <= k < |es| && Listed(Run(START, cfg, es[..k]), es[k], record)
  }

  /** Whatever a pass works on, the row was exactly that when the list was read. */
  lemma {:induction false} PassRecords(cfg: Config, es: seq<Timed>, record: Record)
    ensures InPass(Run(START, cfg, es), record) ==> WasListed(cfg, es, record)
  {
    hide Step, Listed, InPass, AllFresh;
    if es == [] {
      NotAtStart(record);
    } else if InPass(Run(START, cfg, es), record) {
      var last := |es| - 1;
      RunFresh(cfg, es[..last]);
      PassStep(Run(START, cfg, es[..last]), cfg, es[last], record);
      hide Run;
      if InPass(Run(START, cfg, es[..last]), record) {
        PassRecords(cfg, es[..last], record);
        var k :| 0 <= k < last && Listed(Run(START, cfg, es[..last][..k]), es[..last][k], record);
        assert es[..last][..k] == es[..k];
      }
    }
  }

  lemma NotAtStart(record: Record)
    ensures !InPass(START, record)
  {
  }

  /** While a row carries the mismatch code, no request for its quote dispatches it, in any run. Only a
      pass can, and only from a record that its list read when the row did not carry the code. */
  lemma GuardStands(cfg: Config, es: seq<Timed>, e: Timed, q: nat)
    requires var w := Run(START, cfg, es); Marked(w, q) && Dispatches(w, Step(w, cfg, e), q)
    ensures var w := Run(START, cfg, es);
      && e.event == ELooked(q, NoSession) && q in w.tasks && w.tasks[q].Looking? && w.tasks[q].sweeping
      && exists k :: 0 <= k < |es| && es[k].event.EStartSweep?
           && q in Run(START, cfg, es[..k]).rows && Run(START, cfg, es[..k]).rows[q] == w.tasks[q].record.row && !Marked(Run(START, cfg, es[..k]), q)
  {
    RunFresh(cfg, es);
    var w := Run(START, cfg, es);
    StepFresh(w, cfg, e);
    hide Run, Step;
    assert TaskFresh(w.rows, q, w.tasks[q]);
    PassRecords(cfg, es, w.tasks[q].record);
    var k :| 0 <= k < |es| && Listed(Run(START, cfg, es[..k]), es[k], w.tasks[q].record);
    assert !Marked(Run(START, cfg, es[..k]), q);
  }

  lemma {:induction false} NoPassNoSweep(cfg: Config, es: seq<Timed>)
    requires forall i :: 0 <= i < |es| ==> NoPass(es[i].event)
    ensures var w := Run(START, cfg, es); forall q :: q in w.tasks ==> !Sweeping(w.tasks[q])
  {
    TwoAttempts(cfg, es);
    hide Run;
  }

  /** Without passes a marked row is dispatched again only after a transition has replaced the code. */
  lemma GuardWithoutPasses(cfg: Config, es: seq<Timed>, e: Timed, q: nat)
    requires (forall i :: 0 <= i < |es| ==> NoPass(es[i].event)) && Dispatches(Run(START, cfg, es), Step(Run(START, cfg, es), cfg, e), q)
    ensures !Marked(Run(START, cfg, es), q)
  {
    NoPassNoSweep(cfg, es);
    if Marked(Run(START, cfg, es), q) { GuardStands(cfg, es, e, q); }
    hide Run, Step;
  }
}
