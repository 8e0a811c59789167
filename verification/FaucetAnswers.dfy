/** What the faucet does at every step, case by case, in terms of the row it finds, the record a task
    remembers and the answer it gets; and, over whole runs, why a claim is in the state it is in. */
module FaucetAnswers {
  import opened Ecash
  import opened Faucet

  // ---- the ways a task can go on ----

  /** The task of `q` is over, and a pass that waited for it goes on; tables and other tasks stay. */
  predicate Over(w: World, v: World, q: nat, rows: Table)
    requires q in w.tasks
  {
    var t := w.tasks[q];
    var passed := (t.FetchStored? || t.Looking? || t.Sending?) && t.sweeping && w.sweep.Some? && w.sweep.value.waiting == Some(q);
    v == w.(rows := rows, tasks := w.tasks - {q}, sweep := if passed then Some(Sweep(w.sweep.value.rest, None)) else w.sweep)
  }

  /** The task ends with this state and code in its row, and nothing else of the row changed. */
  predicate Settles(w: World, v: World, q: nat, state: ClaimState, failure: Option<Failure>, now: int)
    requires q in w.tasks
  {
    Over(w, v, q, if q in w.rows then w.rows[q := w.rows[q].(state := state, failure := failure, updatedAt := now)] else w.rows)
  }

  /** The task ends without a trace. */
  predicate Drops(w: World, v: World, q: nat)
    requires q in w.tasks
  {
    Over(w, v, q, w.rows)
  }

  /** The task goes on with its next await. */
  predicate Awaits(w: World, v: World, q: nat, task: Task) { v == w.(tasks := w.tasks[q := task]) }

  /** One more attempt is counted in the row, and the send begins. */
  predicate Sends(w: World, v: World, record: Record, sweeping: bool, now: int) {
    var q := record.quote;
    q in w.rows
    && var r := w.rows[q];
       v == w.(rows := w.rows[q := r.(state := Dispatching, attempts := r.attempts + 1, attemptedAt := Some(now), updatedAt := now, failure := None)],
               tasks := w.tasks[q := Sending(record, false, sweeping)])
  }

  /** A record that still has its invoice is sent; one that has lost it, or its hash, cannot be. */
  predicate Dispatched(w: World, v: World, record: Record, sweeping: bool, now: int)
    requires record.quote in w.tasks
  {
    if record.row.invoice.None? || record.row.paymentHash.None? then Settles(w, v, record.quote, Recoverable, Some(MissingData), now)
    else if record.quote !in w.rows then Drops(w, v, record.quote)
    else Sends(w, v, record, sweeping, now)
  }

  /** The quote shows what the claim was made for. */
  predicate Unchanged(r: Row, view: QuoteView) {
    (r.invoice.Some? ==> r.invoice == Some(view.invoice)) && (r.pubkey.Some? ==> view.pubkey == r.pubkey) && view.expiry == r.expiry
  }

  /** What a stored claim makes of its quote: issued and paid quotes settle it, whatever it was; a changed
      one needs attention; only an open one goes on to ask the node. */
  predicate Reconciled(w: World, v: World, record: Record, view: QuoteView, sweeping: bool, now: int)
    requires record.quote in w.tasks
  {
    var q := record.quote;
    if !view.fits then Drops(w, v, q)
    else if !Unchanged(record.row, view) then Settles(w, v, q, Recoverable, Some(QuoteChanged), now)
    else match view.phase
      case Minted => Settles(w, v, q, Issued, None, now)
      case Funded => Settles(w, v, q, PaidOut, None, now)
      case Unfunded =>
        if record.row.state.Failed? then Drops(w, v, q)
        else if record.row.paymentHash.None? then Settles(w, v, q, Recoverable, Some(MissingHash), now)
        else Awaits(w, v, q, Looking(record, view, sweeping))
  }

  /** What the status of a payment makes of its claim. */
  predicate PaidAs(w: World, v: World, q: nat, status: PayStatus, now: int)
    requires q in w.tasks
  {
    match status
    case Success => Settles(w, v, q, PaidOut, None, now)
    case PayFailed => Settles(w, v, q, Failed, Some(FiberFailed), now)
    case InProgress => Settles(w, v, q, Pending, None, now)
  }

  // ---- the steps behind them ----

  lemma DoneOver(w: World, q: nat, rows: Table)
    requires q in w.tasks
    ensures Over(w, Done(w.(rows := rows), q), q, rows)
  {
  }

  lemma MoveSettles(w: World, q: nat, state: ClaimState, failure: Option<Failure>, now: int)
    requires q in w.tasks
    ensures Settles(w, Move(w, q, state, failure, now), q, state, failure, now)
  {
    DoneOver(w, q, if q in w.rows then w.rows[q := w.rows[q].(state := state, failure := failure, updatedAt := now)] else w.rows);
    hide Done, Over;
  }

  lemma DoneDrops(w: World, q: nat)
    requires q in w.tasks
    ensures Drops(w, Done(w, q), q)
  {
    DoneOver(w, q, w.rows);
    hide Done, Over;
  }

  lemma PaymentPaidAs(w: World, q: nat, status: PayStatus, now: int)
    requires q in w.tasks
    ensures PaidAs(w, ApplyPayment(w, q, status, now), q, status, now)
  {
    MoveSettles(w, q, PaidOut, None, now);
    MoveSettles(w, q, Failed, Some(FiberFailed), now);
    MoveSettles(w, q, Pending, None, now);
    hide Move, Settles;
  }

  lemma DispatchDispatched(w: World, record: Record, sweeping: bool, now: int)
    requires record.quote in w.tasks
    ensures Dispatched(w, Dispatch(w, record, sweeping, now), record, sweeping, now)
  {
    MoveSettles(w, record.quote, Recoverable, Some(MissingData), now);
    DoneDrops(w, record.quote);
    hide Move, Settles, Done, Drops;
  }

  lemma ReconcileReconciled(w: World, record: Record, view: QuoteView, sweeping: bool, now: int)
    requires record.quote in w.tasks
    ensures Reconciled(w, Reconcile(w, record, view, sweeping, now), record, view, sweeping, now)
  {
    var q := record.quote;
    DoneDrops(w, q);
    MoveSettles(w, q, Recoverable, Some(QuoteChanged), now);
    MoveSettles(w, q, Issued, None, now);
    MoveSettles(w, q, PaidOut, None, now);
    MoveSettles(w, q, Recoverable, Some(MissingHash), now);
    hide Move, Settles, Done, Drops;
  }

  /** The world a step leaves, its clock apart. */
  function After(w: World, cfg: Config, delay: nat, e: Event): World { Step(w, cfg, Timed(delay, e)).(clock := w.clock) }

  lemma AfterIs(w: World, cfg: Config, delay: nat, e: Event, v: World)
    requires v == Act(w, cfg, e, w.clock + delay) && v.clock == w.clock
    ensures After(w, cfg, delay, e) == v
  {
    hide Act;
  }

  // ---- the table of cases ----

  /** A request: a quote at work is left to its task; a stored claim is looked at again unless it is
      somebody else's, issued or erased; a new one starts only while the faucet is enabled. */
  lemma ClaimAnswers(w: World, cfg: Config, delay: nat, q: nat, client: nat, network: nat)
    ensures var v := After(w, cfg, delay, EClaim(q, client, network));
      if q in w.tasks then v == w
      else if q in w.rows then
        var r := w.rows[q];
        if (r.client.Some? && r.client != Some(client)) || r.state.Issued? || r.quoteId.None? then v == w
        else Awaits(w, v, q, FetchStored(Record(q, r), false))
      else if cfg.enabled then Awaits(w, v, q, FetchNew(client, network)) else v == w
  {
    AfterIs(w, cfg, delay, EClaim(q, client, network), Claim(w, cfg, q, client, network));
    hide After;
  }

  /** The quote of a new claim: it goes on only if it is locked, unpaid, of the configured terms and open
      for more than fifteen seconds. */
  lemma NewQuoteAnswers(w: World, cfg: Config, delay: nat, q: nat, answer: Option<QuoteView>)
    requires q in w.tasks && w.tasks[q].FetchNew?
    ensures var v, t := After(w, cfg, delay, EQuote(q, answer)), w.tasks[q];
      if answer.Some? && answer.value.fits && answer.value.pubkey.Some? && answer.value.phase.Unfunded? && w.clock + delay + 15 < answer.value.expiry
      then Awaits(w, v, q, Parsing(t.client, t.network, answer.value))
      else Drops(w, v, q)
  {
    DoneDrops(w, q);
    hide Done, Drops, After;
    AfterIs(w, cfg, delay, EQuote(q, answer), QuoteAnswered(w, cfg, q, answer, w.clock + delay));
  }

  /** The quote of a stored claim. */
  lemma StoredQuoteAnswers(w: World, cfg: Config, delay: nat, q: nat, answer: Option<QuoteView>)
    requires q in w.tasks && w.tasks[q].FetchStored? && w.tasks[q].record.quote == q
    ensures var v, t := After(w, cfg, delay, EQuote(q, answer)), w.tasks[q];
      if answer.None? then Drops(w, v, q) else Reconciled(w, v, t.record, answer.value, t.sweeping, w.clock + delay)
  {
    var t, now := w.tasks[q], w.clock + delay;
    hide Done, Drops, After, Reconcile, Reconciled, QuoteAnswered;
    StoredQuoteIs(w, cfg, q, answer, now);
    if answer.None? {
      DoneDrops(w, q);
      MoveClock(w, q, now);
    } else {
      ReconcileReconciled(w, t.record, answer.value, t.sweeping, now);
      ReconcileClock(w, t.record, answer.value, t.sweeping, now);
    }
    AfterIs(w, cfg, delay, EQuote(q, answer), QuoteAnswered(w, cfg, q, answer, now));
  }

  lemma StoredQuoteIs(w: World, cfg: Config, q: nat, answer: Option<QuoteView>, now: int)
    requires q in w.tasks && w.tasks[q].FetchStored? && w.tasks[q].record.quote == q
    ensures QuoteAnswered(w, cfg, q, answer, now) == if answer.None? then Done(w, q) else Reconcile(w, w.tasks[q].record, answer.value, w.tasks[q].sweeping, now)
  {
    hide Done, Reconcile;
  }

  lemma ReconcileClock(w: World, record: Record, view: QuoteView, sweeping: bool, now: int)
    requires record.quote in w.tasks
    ensures Reconcile(w, record, view, sweeping, now).clock == w.clock
  {
    MoveClock(w, record.quote, now);
    hide Move, Done;
  }

  lemma DispatchClock(w: World, record: Record, sweeping: bool, now: int)
    requires record.quote in w.tasks
    ensures Dispatch(w, record, sweeping, now).clock == w.clock
  {
    hide Moved, Attempted;
  }

  /** The lookup of a payment: no answer, a foreign hash, or the status of the payment; without a session,
      the guards in order, and then the claim's last attempt. */
  lemma LookupAnswers(w: World, cfg: Config, delay: nat, q: nat, answer: Lookup)
    requires q in w.tasks && w.tasks[q].Looking? && w.tasks[q].record.quote == q && w.tasks[q].record.row.paymentHash.Some?
    ensures var v, t, r, now := After(w, cfg, delay, ELooked(q, answer)), w.tasks[q], w.tasks[q].record.row, w.clock + delay;
      match answer
      case LookupError => Settles(w, v, q, Recoverable, Some(CheckUnknown), now)
      case Session(payment) =>
        if Some(payment.hash) == r.paymentHash then PaidAs(w, v, q, payment.status, now) else Settles(w, v, q, Recoverable, Some(HashMismatch), now)
      case NoSession =>
        if r.failure == Some(HashMismatch) then Drops(w, v, q)
        else if r.attemptedAt.Some? && now < r.attemptedAt.value + cfg.recoveryDelay then Settles(w, v, q, Recoverable, Some(DispatchUnconfirmed), now)
        else if t.view.expiry <= now then Settles(w, v, q, Failed, Some(QuoteExpired), now)
        else if 2 <= r.attempts || r.invoice.None? then Settles(w, v, q, Recoverable, Some(ManualReview), now)
        else Dispatched(w, v, t.record, t.sweeping, now)
  {
    var t, now := w.tasks[q], w.clock + delay;
    DoneDrops(w, q);
    MoveSettles(w, q, Recoverable, Some(CheckUnknown), now);
    MoveSettles(w, q, Recoverable, Some(HashMismatch), now);
    MoveSettles(w, q, Recoverable, Some(DispatchUnconfirmed), now);
    MoveSettles(w, q, Failed, Some(QuoteExpired), now);
    MoveSettles(w, q, Recoverable, Some(ManualReview), now);
    if answer.Session? { PaymentPaidAs(w, q, answer.payment.status, now); }
    DispatchDispatched(w, t.record, t.sweeping, now);
    DispatchClock(w, t.record, t.sweeping, now);
    MoveClock(w, q, now);
    hide Done, Drops, After, Dispatch, Dispatched, Move, Settles, ApplyPayment, PaidAs;
    AfterIs(w, cfg, delay, ELooked(q, answer), Looked(w, cfg, q, answer, now));
  }

  lemma MoveClock(w: World, q: nat, now: int)
    requires q in w.tasks
    ensures forall state: ClaimState, failure: Option<Failure> :: Move(w, q, state, failure, now).clock == w.clock
    ensures forall status: PayStatus :: ApplyPayment(w, q, status, now).clock == w.clock
    ensures Done(w, q).clock == w.clock
  {
  }

  /** The end of a send: no answer, a foreign hash, or the status of the payment. */
  lemma SendAnswers(w: World, cfg: Config, delay: nat, q: nat, answer: Option<Payment>)
    requires q in w.tasks && w.tasks[q].Sending?
    ensures var v, r, now := After(w, cfg, delay, ESent(q, answer)), w.tasks[q].record.row, w.clock + delay;
      if answer.None? then Settles(w, v, q, Recoverable, Some(DispatchUnknown), now)
      else if Some(answer.value.hash) != r.paymentHash then Settles(w, v, q, Recoverable, Some(HashMismatch), now)
      else PaidAs(w, v, q, answer.value.status, now)
  {
    var now := w.clock + delay;
    MoveSettles(w, q, Recoverable, Some(DispatchUnknown), now);
    MoveSettles(w, q, Recoverable, Some(HashMismatch), now);
    if answer.Some? { PaymentPaidAs(w, q, answer.value.status, now); }
    MoveClock(w, q, now);
    hide After, Move, Settles, ApplyPayment, PaidAs, Done;
    AfterIs(w, cfg, delay, ESent(q, answer), Sent(w, q, answer, now));
  }

  /** The node accepts a send once, while the call is under way, and counts it for the invoice sent; a
      restart loses the tasks and the pass and keeps the table. */
  lemma EffectAnswers(w: World, cfg: Config, delay: nat, q: nat)
    ensures var v := After(w, cfg, delay, EEffect(q));
      if q in w.tasks && w.tasks[q].Sending? && !w.tasks[q].effect && w.tasks[q].record.row.invoice.Some? then
        var i := w.tasks[q].record.row.invoice.value;
        v == w.(tasks := v.tasks, accepted := v.accepted) && v.tasks == w.tasks[q := w.tasks[q].(effect := true)]
        && i in v.accepted && v.accepted[i] == 1 + (if i in w.accepted then w.accepted[i] else 0)
        && (forall j :: j != i ==> (j in v.accepted <==> j in w.accepted) && (j in w.accepted ==> v.accepted[j] == w.accepted[j]))
      else v == w
    ensures After(w, cfg, delay, ERestart) == w.(tasks := map[], sweep := None)
  {
    AfterIs(w, cfg, delay, EEffect(q), SendTakesEffect(w, q));
    AfterIs(w, cfg, delay, ERestart, w.(tasks := map[], sweep := None));
    hide After;
  }

  // ---- reservations ----

  /** The claims of a client, a network or anybody that still count at this moment. */
  function Cooling(t: Table, client: nat, cfg: Config, now: int): set<nat> {
    set p | p in t && t[p].client == Some(client) && now < t[p].createdAt + cfg.cooldown
  }

  function TodayOf(t: Table, network: nat, now: int): set<nat> {
    set p | p in t && t[p].network == Some(network) && now / DAY * DAY <= t[p].createdAt
  }

  function Today(t: Table, now: int): set<nat> { set p | p in t && now / DAY * DAY <= t[p].createdAt }

  /** The shortest whole wait, at least a second, after which none of these claims is too recent. */
  predicate LeastWait(t: Table, ps: set<nat>, cfg: Config, now: int, wait: int)
    requires ps <= t.Keys
  {
    1 <= wait && (forall p :: p in ps ==> t[p].createdAt + cfg.cooldown <= now + wait)
    && (1 < wait ==> exists p :: p in ps && t[p].createdAt + cfg.cooldown == now + wait)
  }

  /** The row a new claim starts with. */
  predicate NewClaim(r: Row, g: Reservation, now: int) {
    && r.quoteId == Some(g.quote) && r.invoice == Some(g.invoice) && r.paymentHash == Some(g.paymentHash) && r.pubkey == Some(g.pubkey)
    && r.client == Some(g.client) && r.network == Some(g.network) && r.amount == g.amount && r.expiry == g.expiry
    && r.state.Dispatching? && r.attempts == 0 && r.attemptedAt.None? && r.createdAt == now == r.updatedAt && r.failure.None?
  }

  /** A known quote gives back its claim. A new one is refused by the first limit it meets, in this order:
      the browser's cooldown, with the least wait that ends it, the network's and the day's limit, and the
      table's own conditions. Otherwise the claim is created. */
  lemma ReserveAnswers(t: Table, g: Reservation, cfg: Config, now: int)
    ensures var (v, a) := ReserveStep(t, g, cfg, now);
      if g.quote in t then v == t && a == Taken(t[g.quote], false)
      else if Cooling(t, g.client, cfg, now) != {} then v == t && a.Cooldown? && LeastWait(t, Cooling(t, g.client, cfg, now), cfg, now, a.retryAfter)
      else if cfg.networkLimit <= |TodayOf(t, g.network, now)| then v == t && a == NetworkLimit
      else if cfg.dailyLimit <= |Today(t, now)| then v == t && a == DailyLimit
      else if g.amount == 0 || exists p :: p in t && t[p].paymentHash == Some(g.paymentHash) then v == t && a == Conflict
      else a.Taken? && a.created && NewClaim(a.row, g, now) && v == t[g.quote := a.row]
  {
    assert Recent(t, g.client, now - cfg.cooldown) == Cooling(t, g.client, cfg, now);
    assert OfNetwork(t, g.network, StartOfDay(now)) == TodayOf(t, g.network, now);
    assert Since(t, StartOfDay(now)) == Today(t, now);
    hide Recent, OfNetwork, Since, Cooling, TodayOf, Today, StartOfDay;
    if Recent(t, g.client, now - cfg.cooldown) != {} { WaitIsLeast(t, g, cfg, now); }
    hide LeastWait;
  }

  lemma WaitIsLeast(t: Table, g: Reservation, cfg: Config, now: int)
    requires Recent(t, g.client, now - cfg.cooldown) != {}
    ensures var recent := Recent(t, g.client, now - cfg.cooldown);
      var wait := Newest(t, recent) + cfg.cooldown - now;
      LeastWait(t, recent, cfg, now, if wait < 1 then 1 else wait)
  {
  }

  /** What a new claim asks of the table. */
  function Asking(q: nat, t: Task): Reservation
    requires t.Parsing?
  {
    Reservation(q, t.view.invoice, t.view.invoice, if t.view.pubkey.Some? then t.view.pubkey.value else 0, t.client, t.network, t.view.amount, t.view.expiry)
  }

  lemma ParsedIs(w: World, cfg: Config, q: nat, answer: Option<bool>, now: int)
    requires q in w.tasks && w.tasks[q].Parsing?
    ensures var t := w.tasks[q];
      var (rows, a) := ReserveStep(w.rows, Asking(q, t), cfg, now);
      Parsed(w, cfg, q, answer, now) ==
        if answer != Some(true) || !a.Taken? || (a.row.client.Some? && a.row.client.value != t.client) then Done(w, q)
        else if a.created then Dispatch(w.(rows := rows, grants := w.grants[q := Grant(t.client, t.network, now)]), Record(q, a.row), false, now)
        else Reconcile(w, Record(q, a.row), t.view, false, now)
  {
    hide ReserveStep, Done, Dispatch, Reconcile;
  }

  lemma CreatedSends(w: World, cfg: Config, q: nat, now: int)
    requires q in w.tasks && w.tasks[q].Parsing?
    requires ReserveStep(w.rows, Asking(q, w.tasks[q]), cfg, now).1.Taken? && ReserveStep(w.rows, Asking(q, w.tasks[q]), cfg, now).1.created
    ensures var t := w.tasks[q];
      var (rows, a) := ReserveStep(w.rows, Asking(q, t), cfg, now);
      var u := w.(rows := rows, grants := w.grants[q := Grant(t.client, t.network, now)]);
      Sends(u, Dispatch(u, Record(q, a.row), false, now), Record(q, a.row), false, now)
  {
    var t := w.tasks[q];
    var (rows, a) := ReserveStep(w.rows, Asking(q, t), cfg, now);
    ReserveAnswers(w.rows, Asking(q, t), cfg, now);
    DispatchDispatched(w.(rows := rows, grants := w.grants[q := Grant(t.client, t.network, now)]), Record(q, a.row), false, now);
    hide ReserveStep, Dispatch, Sends, Settles, Cooling, TodayOf, Today, LeastWait;
  }

  /** What the answer to the parse makes of a new claim. */
  predicate ParsedAs(w: World, v: World, cfg: Config, q: nat, answer: Option<bool>, now: int)
    requires q in w.tasks && w.tasks[q].Parsing?
  {
    var t := w.tasks[q];
    var (rows, a) := ReserveStep(w.rows, Asking(q, t), cfg, now);
    if answer != Some(true) || !a.Taken? || (a.row.client.Some? && a.row.client != Some(t.client)) then Drops(w, v, q)
    else if a.created then Sends(w.(rows := rows, grants := w.grants[q := Grant(t.client, t.network, now)]), v, Record(q, a.row), false, now)
    else Reconciled(w, v, Record(q, a.row), t.view, false, now)
  }

  /** The invoice of a new claim: without the configured asset and amount it ends; with them the claim is
      reserved and, in the same step, sent; a claim somebody else reserved meanwhile is left alone, and
      the browser's own is reconciled with the quote at hand. */
  lemma ParsedAnswers(w: World, cfg: Config, delay: nat, q: nat, answer: Option<bool>)
    requires q in w.tasks && w.tasks[q].Parsing?
    ensures ParsedAs(w, After(w, cfg, delay, EParsed(q, answer)), cfg, q, answer, w.clock + delay)
  {
    var t, now := w.tasks[q], w.clock + delay;
    hide Done, Drops, After, Dispatch, Reconcile, Reconciled, ReserveStep, Sends, Parsed, Asking;
    var (rows, a) := ReserveStep(w.rows, Asking(q, t), cfg, now);
    var u := w.(rows := rows, grants := w.grants[q := Grant(t.client, t.network, now)]);
    ParsedIs(w, cfg, q, answer, now);
    DoneDrops(w, q);
    MoveClock(w, q, now);
    if a.Taken? {
      if a.created { CreatedSends(w, cfg, q, now); }
      DispatchClock(u, Record(q, a.row), false, now);
      ReconcileReconciled(w, Record(q, a.row), t.view, false, now);
      ReconcileClock(w, Record(q, a.row), t.view, false, now);
    }
    AfterIs(w, cfg, delay, EParsed(q, answer), Parsed(w, cfg, q, answer, now));
  }

  // ---- passes ----

  /** A claim that a pass should look at: at work or recoverable, with its quote known, and not waiting
      for a person. */
  predicate Wanted(r: Row) {
    && r.quoteId.Some? && (r.state.Dispatching? || r.state.Pending? || r.state.Recoverable?)
    && (r.failure.None? || r.failure.value in {CheckUnknown, DispatchUnconfirmed, QuoteExpired, DispatchUnknown, FiberFailed})
  }

  /** The records of a pass, as the table holds them. */
  predicate Current(t: Table, rs: seq<Record>) {
    |rs| <= 100 && forall i :: 0 <= i < |rs| ==> rs[i].quote in t && rs[i].row == t[rs[i].quote] && Wanted(rs[i].row)
  }

  /** Every wanted claim is in the list, or the list is full of claims at least as old. */
  predicate OldestFirst(t: Table, rs: seq<Record>) {
    && (forall q :: q in t && Wanted(t[q]) && |rs| < 100 ==> Record(q, t[q]) in rs)
    && (forall q, i :: q in t && Wanted(t[q]) && 0 <= i < |rs| && t[q].updatedAt < rs[i].row.updatedAt ==> Record(q, t[q]) in rs)
  }

  lemma SweepStarts(w: World, cfg: Config, delay: nat, rs: seq<Record>)
    ensures After(w, cfg, delay, EStartSweep(rs)) == if w.sweep.None? && IsOpenList(w.rows, 100, rs) then w.(sweep := Some(Sweep(rs, None))) else w
  {
    AfterIs(w, cfg, delay, EStartSweep(rs), StartSweep(w, rs));
    hide After, IsOpenList;
  }

  /** A pass starts from the oldest hundred wanted claims, as the table holds them. */
  lemma PassStarts(w: World, cfg: Config, delay: nat, rs: seq<Record>)
    ensures var v := After(w, cfg, delay, EStartSweep(rs));
      v != w ==> v == w.(sweep := Some(Sweep(rs, None))) && w.sweep.None? && Current(w.rows, rs) && OldestFirst(w.rows, rs)
  {
    SweepStarts(w, cfg, delay, rs);
    hide After, Current, OldestFirst;
    if IsOpenList(w.rows, 100, rs) { ListedAll(w.rows, rs); }
    hide IsOpenList;
  }

  /** A list of all wanted claims, oldest first, starts a pass when none is under way. */
  lemma PassCanStart(w: World, cfg: Config, delay: nat, rs: seq<Record>)
    requires w.sweep.None? && Current(w.rows, rs) && forall q :: q in w.rows && Wanted(w.rows[q]) ==> Record(q, w.rows[q]) in rs
    requires forall i, j :: 0 <= i < j < |rs| ==> rs[i].quote != rs[j].quote && rs[i].row.updatedAt <= rs[j].row.updatedAt
    ensures After(w, cfg, delay, EStartSweep(rs)).sweep == Some(Sweep(rs, None))
  {
    SweepStarts(w, cfg, delay, rs);
    hide After;
    forall r: Row ensures Wanted(r) <==> IsOpen(r) { WantedIsOpen(r); }
    hide Wanted, IsOpen;
    forall q | q in w.rows && Wanted(w.rows[q]) ensures exists i :: 0 <= i < |rs| && rs[i].quote == q {
      var i :| 0 <= i < |rs| && rs[i] == Record(q, w.rows[q]);
    }
    assert IsOpenList(w.rows, 100, rs);
  }

  lemma WantedIsOpen(r: Row)
    ensures Wanted(r) <==> IsOpen(r)
  {
    if r.failure.Some? {
      match r.failure.value
      case ManualReview =>
      case HashMismatch =>
      case MissingData =>
      case MissingHash =>
      case QuoteChanged =>
      case _ =>
    }
  }

  lemma ListedAll(t: Table, rs: seq<Record>)
    requires IsOpenList(t, 100, rs)
    ensures Current(t, rs) && OldestFirst(t, rs)
  {
    forall r: Row ensures Wanted(r) <==> IsOpen(r) { WantedIsOpen(r); }
    hide IsOpen, Wanted;
    forall q | q in t && Wanted(t[q]) && Record(q, t[q]) !in rs ensures |rs| == 100 && forall i :: 0 <= i < |rs| ==> rs[i].row.updatedAt <= t[q].updatedAt {
      forall i | 0 <= i < |rs| ensures rs[i].quote != q { assert rs[i] == Record(rs[i].quote, t[rs[i].quote]) && rs[i] in rs; }
    }
  }

  /** A pass takes its next record as it read it, and skips it if its quote is at work; it waits for
      what it starts. At the end it scrubs the table and is over. */
  lemma PassGoesOn(w: World, cfg: Config, delay: nat)
    ensures var v := After(w, cfg, delay, EVisit);
      if w.sweep.Some? && w.sweep.value.waiting.None? && w.sweep.value.rest != [] then
        var record, rest := w.sweep.value.rest[0], w.sweep.value.rest[1..];
        if record.row.quoteId.None? || record.quote in w.tasks then v == w.(sweep := Some(Sweep(rest, None)))
        else v == w.(sweep := Some(Sweep(rest, Some(record.quote))), tasks := w.tasks[record.quote := FetchStored(record, true)])
      else v == w
    ensures var v := After(w, cfg, delay, EEndSweep);
      if w.sweep == Some(Sweep([], None)) then
        && v == w.(sweep := None, rows := v.rows) && v.rows.Keys == w.rows.Keys
        && forall q :: q in w.rows ==> Scrubs(w.rows[q], v.rows[q], w.clock + delay - cfg.retention)
      else v == w
  {
    AfterIs(w, cfg, delay, EVisit, VisitNext(w));
    AfterIs(w, cfg, delay, EEndSweep, EndSweep(w, cfg, w.clock + delay));
    forall q | q in w.rows ensures Scrubs(w.rows[q], Scrubbed(w.rows[q], w.clock + delay - cfg.retention), w.clock + delay - cfg.retention) {
      ScrubbedScrubs(w.rows[q], w.clock + delay - cfg.retention);
    }
    hide After, Scrubbed, Scrubs;
  }

  /** A row updated since the cutoff stays; an older one loses everything that identifies anybody, and one
      that was still at work becomes recoverable. */
  predicate Scrubs(r: Row, s: Row, cutoff: int) {
    if cutoff < r.updatedAt then s == r
    else
      && s == r.(quoteId := None, invoice := None, paymentHash := None, pubkey := None, client := None, network := None, state := s.state)
      && (r.state.Dispatching? || r.state.Pending? ==> s.state.Recoverable? || s == r) && (!r.state.Dispatching? && !r.state.Pending? ==> s.state == r.state)
  }

  lemma ScrubbedScrubs(r: Row, cutoff: int)
    ensures Scrubs(r, Scrubbed(r, cutoff), cutoff)
  {
  }

  // ---- why a claim is in its state ----

  /** The node reported a payment under the claim's own hash, in a lookup or at the end of a send. */
  predicate Reports(w: World, e: Event, q: nat, status: PayStatus) {
    && q in w.tasks && (w.tasks[q].Looking? || w.tasks[q].Sending?) && w.tasks[q].record.row.paymentHash.Some?
    && var payment := Payment(w.tasks[q].record.row.paymentHash.value, status);
       e == if w.tasks[q].Looking? then ELooked(q, Session(payment)) else ESent(q, Some(payment))
  }

  /** The mint showed the quote of the claim in this phase. */
  predicate Shows(e: Event, q: nat, phase: Phase) { e.EQuote? && e.quote == q && e.view.Some? && e.view.value.fits && e.view.value.phase == phase }

  /** What has just been learnt when a claim enters a state. */
  predicate Because(w: World, e: Event, now: int, q: nat, state: ClaimState) {
    match state
    case Issued => Shows(e, q, Minted)
    case PaidOut => Shows(e, q, Funded) || Reports(w, e, q, Success)
    case Pending => Reports(w, e, q, InProgress)
    case Failed => Reports(w, e, q, PayFailed) || (e == ELooked(q, NoSession) && q in w.tasks && w.tasks[q].Looking? && w.tasks[q].view.expiry <= now)
    case Dispatching => e == EParsed(q, Some(true)) || e == ELooked(q, NoSession)
    case Recoverable => e.EEndSweep? || e.EQuote? || e.EParsed? || e.ELooked? || e.ESent?
  }

  predicate Enters(w: World, v: World, q: nat) { q in v.rows && (q in w.rows ==> v.rows[q].state != w.rows[q].state) }

  ghost predicate Explained(w: World, v: World, e: Event, now: int) {
    forall q :: Enters(w, v, q) ==> Because(w, e, now, q, v.rows[q].state)
  }

  /** A quote whose invoice is being parsed was unpaid. */
  predicate ParsingOpen(w: World) { forall q :: q in w.tasks && w.tasks[q].Parsing? ==> w.tasks[q].view.phase.Unfunded? }

  lemma NothingExplained(w: World, v: World, e: Event, now: int)
    requires v.rows == w.rows
    ensures Explained(w, v, e, now)
  {
    hide Because;
  }

  lemma SettleExplained(w: World, v: World, q: nat, state: ClaimState, failure: Option<Failure>, e: Event, now: int)
    requires q in w.tasks && Settles(w, v, q, state, failure, now) && ParsingOpen(w) && Because(w, e, now, q, state)
    ensures Explained(w, v, e, now) && ParsingOpen(v)
  {
    hide Because;
  }

  lemma DropExplained(w: World, v: World, q: nat, e: Event, now: int)
    requires q in w.tasks && Drops(w, v, q) && ParsingOpen(w)
    ensures Explained(w, v, e, now) && ParsingOpen(v)
  {
    hide Because;
  }

  lemma AwaitExplained(w: World, v: World, q: nat, task: Task, e: Event, now: int)
    requires Awaits(w, v, q, task) && ParsingOpen(w) && (task.Parsing? ==> task.view.phase.Unfunded?)
    ensures Explained(w, v, e, now) && ParsingOpen(v)
  {
    hide Because;
  }

  lemma SendExplained(w: World, u: World, v: World, record: Record, sweeping: bool, e: Event, now: int)
    requires u.tasks == w.tasks && (forall p :: p in u.rows && p != record.quote ==> p in w.rows && u.rows[p] == w.rows[p])
    requires Sends(u, v, record, sweeping, now) && ParsingOpen(w) && Because(w, e, now, record.quote, Dispatching)
    ensures Explained(w, v, e, now) && ParsingOpen(v)
  {
    hide Because;
  }

  lemma ReconcileExplained(w: World, v: World, record: Record, view: QuoteView, sweeping: bool, e: Event, now: int)
    requires record.quote in w.tasks && Reconciled(w, v, record, view, sweeping, now) && ParsingOpen(w)
    requires (e.EQuote? && e.quote == record.quote && e.view == Some(view)) || (e.EParsed? && view.phase.Unfunded?)
    ensures Explained(w, v, e, now) && ParsingOpen(v)
  {
    var q := record.quote;
    hide Drops, Settles, Explained, ParsingOpen;
    if !view.fits {
      DropExplained(w, v, q, e, now);
    } else if !Unchanged(record.row, view) {
      SettleExplained(w, v, q, Recoverable, Some(QuoteChanged), e, now);
    } else if view.phase.Minted? {
      SettleExplained(w, v, q, Issued, None, e, now);
    } else if view.phase.Funded? {
      SettleExplained(w, v, q, PaidOut, None, e, now);
    } else if record.row.state.Failed? {
      DropExplained(w, v, q, e, now);
    } else if record.row.paymentHash.None? {
      SettleExplained(w, v, q, Recoverable, Some(MissingHash), e, now);
    } else {
      AwaitExplained(w, v, q, Looking(record, view, sweeping), e, now);
    }
  }

  lemma PaymentExplained(w: World, v: World, q: nat, status: PayStatus, e: Event, now: int)
    requires q in w.tasks && PaidAs(w, v, q, status, now) && ParsingOpen(w) && Reports(w, e, q, status)
    ensures Explained(w, v, e, now) && ParsingOpen(v)
  {
    hide Settles, Explained, ParsingOpen, Reports;
    match status
    case Success => SettleExplained(w, v, q, PaidOut, None, e, now);
    case PayFailed => SettleExplained(w, v, q, Failed, Some(FiberFailed), e, now);
    case InProgress => SettleExplained(w, v, q, Pending, None, e, now);
  }

  lemma QuoteExplained(w: World, cfg: Config, delay: nat, q: nat, answer: Option<QuoteView>)
    requires ParsingOpen(w)
    ensures var v, e := After(w, cfg, delay, EQuote(q, answer)), EQuote(q, answer); Explained(w, v, e, w.clock + delay) && ParsingOpen(v)
  {
    var v, e, now := After(w, cfg, delay, EQuote(q, answer)), EQuote(q, answer), w.clock + delay;
    hide After, Drops, Explained, ParsingOpen, Reconciled, Awaits;
    if q in w.tasks && w.tasks[q].FetchNew? {
      var t := w.tasks[q];
      NewQuoteAnswers(w, cfg, delay, q, answer);
      if answer.Some? && Awaits(w, v, q, Parsing(t.client, t.network, answer.value)) && answer.value.phase.Unfunded? {
        AwaitExplained(w, v, q, Parsing(t.client, t.network, answer.value), e, now);
      } else {
        DropExplained(w, v, q, e, now);
      }
    } else if q in w.tasks && w.tasks[q].FetchStored? && w.tasks[q].record.quote == q {
      StoredQuoteAnswers(w, cfg, delay, q, answer);
      if answer.None? { DropExplained(w, v, q, e, now); } else { ReconcileExplained(w, v, w.tasks[q].record, answer.value, w.tasks[q].sweeping, e, now); }
    } else {
      NoQuote(w, cfg, q, answer, now);
      AfterIs(w, cfg, delay, e, w);
      NothingExplained(w, v, e, now);
    }
  }

  lemma NoQuote(w: World, cfg: Config, q: nat, answer: Option<QuoteView>, now: int)
    requires !(q in w.tasks && (w.tasks[q].FetchNew? || (w.tasks[q].FetchStored? && w.tasks[q].record.quote == q)))
    ensures Act(w, cfg, EQuote(q, answer), now) == w
  {
  }

  lemma CasesExplained(w: World, v: World, cfg: Config, q: nat, answer: Option<bool>, now: int)
    requires ParsingOpen(w) && q in w.tasks && w.tasks[q].Parsing? && w.tasks[q].view.phase.Unfunded? && ParsedAs(w, v, cfg, q, answer, now)
    ensures Explained(w, v, EParsed(q, answer), now) && ParsingOpen(v)
  {
    hide Drops, Explained, ParsingOpen, Reconciled, Sends, ReserveStep, Asking;
    var t := w.tasks[q];
    var (rows, a) := ReserveStep(w.rows, Asking(q, t), cfg, now);
    if answer != Some(true) || !a.Taken? || (a.row.client.Some? && a.row.client != Some(t.client)) {
      DropExplained(w, v, q, EParsed(q, answer), now);
    } else if a.created {
      CreatedExplained(w, v, cfg, q, rows, w.grants[q := Grant(t.client, t.network, now)], a.row, now);
    } else {
      ReconcileExplained(w, v, Record(q, a.row), t.view, false, EParsed(q, answer), now);
    }
  }

  lemma ParsedExplained(w: World, cfg: Config, delay: nat, q: nat, answer: Option<bool>)
    requires ParsingOpen(w)
    ensures var v, e := After(w, cfg, delay, EParsed(q, answer)), EParsed(q, answer); Explained(w, v, e, w.clock + delay) && ParsingOpen(v)
  {
    var v, e, now := After(w, cfg, delay, EParsed(q, answer)), EParsed(q, answer), w.clock + delay;
    hide After, Explained, ParsedAs;
    if q in w.tasks && w.tasks[q].Parsing? {
      ParsedAnswers(w, cfg, delay, q, answer);
      CasesExplained(w, v, cfg, q, answer, now);
    } else {
      NoParse(w, cfg, q, answer, now);
      AfterIs(w, cfg, delay, e, w);
      NothingExplained(w, v, e, now);
    }
  }

  lemma CreatedExplained(w: World, v: World, cfg: Config, q: nat, rows: Table, grants: map<nat, Grant>, row: Row, now: int)
    requires ParsingOpen(w) && q in w.tasks && w.tasks[q].Parsing? && rows == ReserveStep(w.rows, Asking(q, w.tasks[q]), cfg, now).0
    requires Sends(w.(rows := rows, grants := grants), v, Record(q, row), false, now)
    ensures Explained(w, v, EParsed(q, Some(true)), now) && ParsingOpen(v)
  {
    hide Sends, ParsingOpen, Explained, ReserveStep;
    ReservedOnly(w.rows, Asking(q, w.tasks[q]), cfg, now);
    SendExplained(w, w.(rows := rows, grants := grants), v, Record(q, row), false, EParsed(q, Some(true)), now);
  }

  lemma NoParse(w: World, cfg: Config, q: nat, answer: Option<bool>, now: int)
    requires !(q in w.tasks && w.tasks[q].Parsing?)
    ensures Act(w, cfg, EParsed(q, answer), now) == w
  {
  }

  lemma ReservedOnly(t: Table, g: Reservation, cfg: Config, now: int)
    ensures var v := ReserveStep(t, g, cfg, now).0; forall p :: p in v && p != g.quote ==> p in t && v[p] == t[p]
  {
    hide Recent, OfNetwork, Since, Newest, NewRow;
  }

  lemma LookedExplained(w: World, cfg: Config, delay: nat, q: nat, answer: Lookup)
    requires ParsingOpen(w)
    ensures var v, e := After(w, cfg, delay, ELooked(q, answer)), ELooked(q, answer); Explained(w, v, e, w.clock + delay) && ParsingOpen(v)
  {
    var v, e, now := After(w, cfg, delay, ELooked(q, answer)), ELooked(q, answer), w.clock + delay;
    hide After, Drops, Explained, ParsingOpen, Settles, Sends, PaidAs;
    if q in w.tasks && w.tasks[q].Looking? && w.tasks[q].record.quote == q && w.tasks[q].record.row.paymentHash.Some? {
      var t := w.tasks[q];
      var r := t.record.row;
      LookupAnswers(w, cfg, delay, q, answer);
      match answer
      case LookupError => SettleExplained(w, v, q, Recoverable, Some(CheckUnknown), e, now);
      case Session(payment) =>
        if Some(payment.hash) == r.paymentHash {
          PaymentExplained(w, v, q, payment.status, e, now);
        } else {
          SettleExplained(w, v, q, Recoverable, Some(HashMismatch), e, now);
        }
      case NoSession =>
        if r.failure == Some(HashMismatch) {
          DropExplained(w, v, q, e, now);
        } else if r.attemptedAt.Some? && now < r.attemptedAt.value + cfg.recoveryDelay {
          SettleExplained(w, v, q, Recoverable, Some(DispatchUnconfirmed), e, now);
        } else if t.view.expiry <= now {
          SettleExplained(w, v, q, Failed, Some(QuoteExpired), e, now);
        } else if 2 <= r.attempts || r.invoice.None? {
          SettleExplained(w, v, q, Recoverable, Some(ManualReview), e, now);
        } else if q !in w.rows {
          DropExplained(w, v, q, e, now);
        } else {
          SendExplained(w, w, v, t.record, t.sweeping, e, now);
        }
    } else {
      NoLookup(w, cfg, q, answer, now);
      AfterIs(w, cfg, delay, e, w);
      NothingExplained(w, v, e, now);
    }
  }

  lemma NoLookup(w: World, cfg: Config, q: nat, answer: Lookup, now: int)
    requires !(q in w.tasks && w.tasks[q].Looking? && w.tasks[q].record.quote == q && w.tasks[q].record.row.paymentHash.Some?)
    ensures Act(w, cfg, ELooked(q, answer), now) == w
  {
  }

  lemma SentExplained(w: World, cfg: Config, delay: nat, q: nat, answer: Option<Payment>)
    requires ParsingOpen(w)
    ensures var v, e := After(w, cfg, delay, ESent(q, answer)), ESent(q, answer); Explained(w, v, e, w.clock + delay) && ParsingOpen(v)
  {
    var v, e, now := After(w, cfg, delay, ESent(q, answer)), ESent(q, answer), w.clock + delay;
    hide After, Explained, ParsingOpen, Settles, PaidAs;
    if q in w.tasks && w.tasks[q].Sending? {
      SendAnswers(w, cfg, delay, q, answer);
      if answer.None? {
        SettleExplained(w, v, q, Recoverable, Some(DispatchUnknown), e, now);
      } else if Some(answer.value.hash) != w.tasks[q].record.row.paymentHash {
        SettleExplained(w, v, q, Recoverable, Some(HashMismatch), e, now);
      } else {
        PaymentExplained(w, v, q, answer.value.status, e, now);
      }
    } else {
      NoSend(w, cfg, q, answer, now);
      AfterIs(w, cfg, delay, e, w);
      NothingExplained(w, v, e, now);
    }
  }

  lemma NoSend(w: World, cfg: Config, q: nat, answer: Option<Payment>, now: int)
    requires !(q in w.tasks && w.tasks[q].Sending?)
    ensures Act(w, cfg, ESent(q, answer), now) == w
  {
  }

  lemma ClaimExplained(w: World, cfg: Config, delay: nat, q: nat, client: nat, network: nat)
    requires ParsingOpen(w)
    ensures var v, e := After(w, cfg, delay, EClaim(q, client, network)), EClaim(q, client, network); Explained(w, v, e, w.clock + delay) && ParsingOpen(v)
  {
    ClaimAnswers(w, cfg, delay, q, client, network);
    var v, e, now := After(w, cfg, delay, EClaim(q, client, network)), EClaim(q, client, network), w.clock + delay;
    hide After, Explained;
    NothingExplained(w, v, e, now);
  }

  lemma PassExplained(w: World, cfg: Config, delay: nat, e: Event)
    requires ParsingOpen(w) && (e.EStartSweep? || e.EVisit? || e.EEndSweep?)
    ensures Explained(w, After(w, cfg, delay, e), e, w.clock + delay) && ParsingOpen(After(w, cfg, delay, e))
  {
    var v := After(w, cfg, delay, e);
    hide After, IsOpenList, Scrubs;
    if e.EStartSweep? { SweepStarts(w, cfg, delay, e.open); } else { PassGoesOn(w, cfg, delay); }
    if e.EEndSweep? && w.sweep == Some(Sweep([], None)) { ScrubExplained(w, v, w.clock + delay, cfg.retention); }
  }

  lemma ScrubExplained(w: World, v: World, now: int, retention: nat)
    requires v.rows.Keys == w.rows.Keys && forall q :: q in w.rows ==> Scrubs(w.rows[q], v.rows[q], now - retention)
    ensures Explained(w, v, EEndSweep, now)
  {
  }

  lemma OthersExplained(w: World, cfg: Config, delay: nat, e: Event)
    requires ParsingOpen(w) && (e.EEffect? || e.ERestart?)
    ensures Explained(w, After(w, cfg, delay, e), e, w.clock + delay) && ParsingOpen(After(w, cfg, delay, e))
  {
    hide Explained;
    NothingExplained(w, After(w, cfg, delay, e), e, w.clock + delay);
  }

  lemma AfterExplained(w: World, cfg: Config, delay: nat, e: Event)
    requires ParsingOpen(w)
    ensures Explained(w, After(w, cfg, delay, e), e, w.clock + delay) && ParsingOpen(After(w, cfg, delay, e))
  {
    hide After, Explained, ParsingOpen;
    match e
    case EClaim(q, c, n) => ClaimExplained(w, cfg, delay, q, c, n);
    case EQuote(q, v) => QuoteExplained(w, cfg, delay, q, v);
    case EParsed(q, m) => ParsedExplained(w, cfg, delay, q, m);
    case ELooked(q, l) => LookedExplained(w, cfg, delay, q, l);
    case ESent(q, p) => SentExplained(w, cfg, delay, q, p);
    case EEffect(_) => OthersExplained(w, cfg, delay, e);
    case ERestart => OthersExplained(w, cfg, delay, e);
    case _ => PassExplained(w, cfg, delay, e);
  }

  lemma ClockAside(w: World, v: World, e: Event, now: int, clock: int)
    requires Explained(w, v, e, now) && ParsingOpen(v)
    ensures Explained(w, v.(clock := clock), e, now) && ParsingOpen(v.(clock := clock))
  {
    hide Because;
  }

  lemma StepExplained(w: World, cfg: Config, e: Timed)
    requires ParsingOpen(w)
    ensures Explained(w, Step(w, cfg, e), e.event, w.clock + e.delay) && ParsingOpen(Step(w, cfg, e))
  {
    AfterExplained(w, cfg, e.delay, e.event);
    ClockAside(w, After(w, cfg, e.delay, e.event), e.event, w.clock + e.delay, w.clock + e.delay);
    hide Act, Explained, ParsingOpen;
  }

  lemma {:induction false} RunExplained(cfg: Config, es: seq<Timed>)
    ensures ParsingOpen(Run(START, cfg, es))
  {
    hide Step, ParsingOpen, Explained;
    if es == [] {
      NoParsing();
    } else {
      RunExplained(cfg, es[..|es| - 1]);
      StepExplained(Run(START, cfg, es[..|es| - 1]), cfg, es[|es| - 1]);
    }
  }

  lemma NoParsing()
    ensures ParsingOpen(START)
  {
  }

  /** In every run a claim becomes issued only when the mint shows its quote issued, and paid only when the
      mint shows it paid or the node reports a success under the claim's own hash. It becomes failed only
      by a failed payment under that hash or once its quote has expired without one, and pending only
      by a payment under way. */
  lemma StatesExplained(cfg: Config, es: seq<Timed>, e: Timed, q: nat)
    requires Enters(Run(START, cfg, es), Step(Run(START, cfg, es), cfg, e), q)
    ensures var w := Run(START, cfg, es); Because(w, e.event, w.clock + e.delay, q, Step(w, cfg, e).rows[q].state)
  {
    hide Run, Step, ParsingOpen, Because, Enters;
    RunExplained(cfg, es);
    StepBecause(Run(START, cfg, es), cfg, e, q);
  }

  lemma StepBecause(w: World, cfg: Config, e: Timed, q: nat)
    requires ParsingOpen(w) && Enters(w, Step(w, cfg, e), q)
    ensures Because(w, e.event, w.clock + e.delay, q, Step(w, cfg, e).rows[q].state)
  {
    hide Step, ParsingOpen, Because;
    StepExplained(w, cfg, e);
  }
}
