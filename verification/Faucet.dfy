/** The faucet: a table of claims, a lock per quote, and claim and sweep tasks that stop at every
    await. A step is the code between two awaits, an effect at the node, or the death of the
    process, which loses the tasks and keeps the table. */
module Faucet {
  import opened Ecash

  const DAY := 86400

  datatype Config = Config(
    enabled: bool, amount: nat, cooldown: nat, networkLimit: nat, dailyLimit: nat, recoveryDelay: nat, retention: nat)

  datatype ClaimState = Dispatching | Pending | PaidOut | Issued | Failed | Recoverable

  datatype Failure =
    | QuoteChanged | MissingHash | CheckUnknown | HashMismatch | DispatchUnconfirmed | QuoteExpired | ManualReview
    | MissingData | DispatchUnknown | FiberFailed

  /** An invoice belongs to one quote and fixes its payment hash, so it stands for the hash too. */
  datatype Invoice = Invoice(quote: nat, text: nat)

  datatype Row = Row(
    quoteId: Option<nat>, invoice: Option<Invoice>, paymentHash: Option<Invoice>, pubkey: Option<nat>,
    client: Option<nat>, network: Option<nat>, state: ClaimState, amount: nat, expiry: int,
    attempts: nat, attemptedAt: Option<int>, createdAt: int, updatedAt: int, failure: Option<Failure>)

  type Table = map<nat, Row>

  function StartOfDay(now: int): int { now / DAY * DAY }

  // ---- the store ----

  datatype Reservation = Reservation(
    quote: nat, invoice: Invoice, paymentHash: Invoice, pubkey: nat, client: nat, network: nat, amount: nat, expiry: int)

  datatype Reserved = Taken(row: Row, created: bool) | Cooldown(retryAfter: int) | NetworkLimit | DailyLimit | Conflict

  function Recent(t: Table, client: nat, since: int): set<nat> {
    set q | q in t && t[q].client == Some(client) && t[q].createdAt > since
  }

  function OfNetwork(t: Table, network: nat, since: int): set<nat> {
    set q | q in t && t[q].network == Some(network) && t[q].createdAt >= since
  }

  function Since(t: Table, since: int): set<nat> {
    set q | q in t && t[q].createdAt >= since
  }

  function NewRow(r: Reservation, now: int): Row {
    Row(Some(r.quote), Some(r.invoice), Some(r.paymentHash), Some(r.pubkey), Some(r.client), Some(r.network), Dispatching, r.amount, r.expiry,
        0, None, now, now, None)
  }

  /** The newest creation time among some rows. */
  function Newest(t: Table, qs: set<nat>): (n: int)
    requires qs <= t.Keys && qs != {}
    ensures (forall q :: q in qs ==> t[q].createdAt <= n) && exists q :: q in qs && t[q].createdAt == n
    decreases |qs|
  {
    NewestExists(t, qs);
    var q :| q in qs && forall p :: p in qs ==> t[p].createdAt <= t[q].createdAt;
    t[q].createdAt
  }

  lemma NewestExists(t: Table, qs: set<nat>)
    requires qs <= t.Keys && qs != {}
    ensures exists q :: q in qs && forall p :: p in qs ==> t[p].createdAt <= t[q].createdAt
    decreases |qs|
  {
    var q :| q in qs;
    if qs != {q} {
      NewestExists(t, qs - {q});
      var n :| n in qs - {q} && forall p :: p in qs - {q} ==> t[p].createdAt <= t[n].createdAt;
      var newest := if t[q].createdAt <= t[n].createdAt then n else q;
      forall p | p in qs ensures t[p].createdAt <= t[newest].createdAt { if p != q { assert p in qs - {q}; } }
    }
  }

  function ReserveStep(t: Table, r: Reservation, cfg: Config, now: int): (Table, Reserved) {
    var recent := Recent(t, r.client, now - cfg.cooldown);
    if r.quote in t then (t, Taken(t[r.quote], false))
    else if recent != {} then
      var wait := Newest(t, recent) + cfg.cooldown - now;
      (t, Cooldown(if wait < 1 then 1 else wait))
    else if |OfNetwork(t, r.network, StartOfDay(now))| >= cfg.networkLimit then (t, NetworkLimit)
    else if |Since(t, StartOfDay(now))| >= cfg.dailyLimit then (t, DailyLimit)
    else if r.amount == 0 || exists p :: p in t && t[p].paymentHash == Some(r.paymentHash) then (t, Conflict)
    else (t[r.quote := NewRow(r, now)], Taken(NewRow(r, now), true))
  }

  function Attempted(r: Row, now: int): Row {
    r.(state := Dispatching, attempts := r.attempts + 1, attemptedAt := Some(now), updatedAt := now, failure := None)
  }

  function Moved(r: Row, state: ClaimState, failure: Option<Failure>, now: int): Row {
    r.(state := state, updatedAt := now, failure := failure)
  }

  function Scrubbed(r: Row, cutoff: int): Row {
    if r.updatedAt <= cutoff
       && (r.quoteId.Some? || r.invoice.Some? || r.paymentHash.Some? || r.pubkey.Some? || r.client.Some? || r.network.Some?)
    then r.(quoteId := None, invoice := None, paymentHash := None, pubkey := None, client := None, network := None,
            state := if r.state in {Dispatching, Pending} then Recoverable else r.state)
    else r
  }

  function ScrubAll(t: Table, cutoff: int): (s: Table)
    ensures s.Keys == t.Keys && forall q :: q in t ==> s[q] == Scrubbed(t[q], cutoff)
  {
    map q | q in t :: Scrubbed(t[q], cutoff)
  }

  /** A row as a task remembers it, which may be older than the table. */
  datatype Record = Record(quote: nat, row: Row)

  predicate IsOpen(r: Row) {
    && r.state in {Dispatching, Pending, Recoverable} && r.quoteId.Some?
    && !(r.failure.Some? && r.failure.value in {ManualReview, HashMismatch, MissingData, MissingHash, QuoteChanged})
  }

  /** A result of `open`: distinct open rows, oldest update first, and no open row left out that is
      older than one returned unless the list is full. */
  predicate IsOpenList(t: Table, limit: nat, rs: seq<Record>) {
    && |rs| <= limit
    && (forall i :: 0 <= i < |rs| ==> rs[i].quote in t && rs[i].row == t[rs[i].quote] && IsOpen(rs[i].row))
    && (forall i, j :: 0 <= i < j < |rs| ==> rs[i].quote != rs[j].quote && rs[i].row.updatedAt <= rs[j].row.updatedAt)
    && (forall q :: q in t && IsOpen(t[q]) && (forall i :: 0 <= i < |rs| ==> rs[i].quote != q) ==>
          |rs| == limit && forall i :: 0 <= i < |rs| ==> rs[i].row.updatedAt <= t[q].updatedAt)
  }

  /** The table, updated in place. */
  class FaucetStore {
    var rows: Table

    constructor ()
      ensures rows == map[]
    {
      rows := map[];
    }

    method Reserve(r: Reservation, cfg: Config, now: int) returns (answer: Reserved)
      modifies this
      ensures (rows, answer) == ReserveStep(old(rows), r, cfg, now)
    {
      if r.quote in rows { return Taken(rows[r.quote], false); }
      var recent := Recent(rows, r.client, now - cfg.cooldown);
      if recent != {} {
        var retryAfter := Newest(rows, recent) + cfg.cooldown - now;
        return Cooldown(if retryAfter < 1 then 1 else retryAfter);
      }
      if |OfNetwork(rows, r.network, StartOfDay(now))| >= cfg.networkLimit { return NetworkLimit; }
      if |Since(rows, StartOfDay(now))| >= cfg.dailyLimit { return DailyLimit; }
      if r.amount == 0 || exists p :: p in rows && rows[p].paymentHash == Some(r.paymentHash) { return Conflict; }
      rows := rows[r.quote := NewRow(r, now)];
      return Taken(rows[r.quote], true);
    }

    method MarkAttempt(quote: nat, now: int) returns (row: Row)
      requires quote in rows
      modifies this
      ensures row == Attempted(old(rows)[quote], now) && rows == old(rows)[quote := row]
    {
      row := rows[quote];
      row := row.(state := Dispatching, attempts := row.attempts + 1, attemptedAt := Some(now), updatedAt := now, failure := None);
      rows := rows[quote := row];
    }

    method Transition(quote: nat, state: ClaimState, failure: Option<Failure>, now: int) returns (row: Row)
      requires quote in rows
      modifies this
      ensures row == Moved(old(rows)[quote], state, failure, now) && rows == old(rows)[quote := row]
    {
      row := rows[quote].(state := state, updatedAt := now, failure := failure);
      rows := rows[quote := row];
    }

    method Scrub(retention: nat, now: int)
      modifies this
      ensures rows == ScrubAll(old(rows), now - retention)
    {
      var cutoff := now - retention;
      rows := map q | q in rows :: Scrubbed(rows[q], cutoff);
    }
  }

  // ---- the service ----

  datatype Phase = Unfunded | Funded | Minted

  /** A quote as the mint shows it; `fits` says that its amount, unit and invoice prefix are the
      configured ones. */
  datatype QuoteView = QuoteView(fits: bool, invoice: Invoice, amount: nat, pubkey: Option<nat>, expiry: int, phase: Phase)

  datatype PayStatus = InProgress | Success | PayFailed

  datatype Payment = Payment(hash: Invoice, status: PayStatus)

  datatype Lookup = LookupError | NoSession | Session(payment: Payment)

  datatype Task =
    | FetchNew(client: nat, network: nat)
    | Parsing(client: nat, network: nat, view: QuoteView)
    | FetchStored(record: Record, sweeping: bool)
    | Looking(record: Record, view: QuoteView, sweeping: bool)
    | Sending(record: Record, effect: bool, sweeping: bool)

  /** One pass: the records still to be visited, and the quote whose task it waits for. */
  datatype Sweep = Sweep(rest: seq<Record>, waiting: Option<nat>)

  /** Who got a claim and when; unlike the row, never erased. */
  datatype Grant = Grant(client: nat, network: nat, at: int)

  datatype World = World(rows: Table, tasks: map<nat, Task>, sweep: Option<Sweep>, accepted: map<Invoice, nat>, grants: map<nat, Grant>, clock: int)

  const START := World(map[], map[], None, map[], map[], 0)

  function Accepted(w: World, i: Invoice): nat { if i in w.accepted then w.accepted[i] else 0 }

  predicate Sweeping(t: Task) {
    match t
    case FetchNew(_, _) => false
    case Parsing(_, _, _) => false
    case FetchStored(_, s) => s
    case Looking(_, _, s) => s
    case Sending(_, _, s) => s
  }

  /** The task of a quote ends and its lock is released; a pass waiting for it goes on. */
  function Done(w: World, q: nat): World
    requires q in w.tasks
  {
    w.(tasks := w.tasks - {q},
       sweep := if w.sweep.Some? && Sweeping(w.tasks[q]) && w.sweep.value.waiting == Some(q) then Some(w.sweep.value.(waiting := None)) else w.sweep)
  }

  function Put(w: World, q: nat, r: Row): World { w.(rows := w.rows[q := r]) }

  function Move(w: World, q: nat, state: ClaimState, failure: Option<Failure>, now: int): World
    requires q in w.tasks
  {
    Done(if q in w.rows then Put(w, q, Moved(w.rows[q], state, failure, now)) else w, q)
  }

  function Claim(w: World, cfg: Config, q: nat, client: nat, network: nat): World {
    if q in w.tasks then w
    else if q in w.rows then
      var r := w.rows[q];
      if (r.client.Some? && r.client.value != client) || r.state.Issued? || r.quoteId.None? then w
      else w.(tasks := w.tasks[q := FetchStored(Record(q, r), false)])
    else if !cfg.enabled then w
    else w.(tasks := w.tasks[q := FetchNew(client, network)])
  }

  function ApplyPayment(w: World, q: nat, status: PayStatus, now: int): World
    requires q in w.tasks
  {
    match status
    case Success => Move(w, q, PaidOut, None, now)
    case PayFailed => Move(w, q, Failed, Some(FiberFailed), now)
    case InProgress => Move(w, q, Pending, None, now)
  }

  function Dispatch(w: World, record: Record, sweeping: bool, now: int): World
    requires record.quote in w.tasks
  {
    var q := record.quote;
    if record.row.invoice.None? || record.row.paymentHash.None? then Move(w, q, Recoverable, Some(MissingData), now)
    else if q in w.rows then Put(w, q, Attempted(w.rows[q], now)).(tasks := w.tasks[q := Sending(record, false, sweeping)])
    else Done(w, q)
  }

  /** `reconcile` up to the lookup of the payment. */
  function Reconcile(w: World, record: Record, v: QuoteView, sweeping: bool, now: int): World
    requires record.quote in w.tasks
  {
    var q, r := record.quote, record.row;
    if !v.fits then Done(w, q)
    else if (r.invoice.Some? && Some(v.invoice) != r.invoice) || (r.pubkey.Some? && v.pubkey != r.pubkey) || v.expiry != r.expiry
      then Move(w, q, Recoverable, Some(QuoteChanged), now)
    else if v.phase.Minted? then Move(w, q, Issued, None, now)
    else if v.phase.Funded? then Move(w, q, PaidOut, None, now)
    else if r.state.Failed? then Done(w, q)
    else if r.paymentHash.None? then Move(w, q, Recoverable, Some(MissingHash), now)
    else w.(tasks := w.tasks[q := Looking(record, v, sweeping)])
  }

  /** The mint answers, or does not, the quote a task asked for. */
  function QuoteAnswered(w: World, cfg: Config, q: nat, answer: Option<QuoteView>, now: int): World {
    if q in w.tasks && w.tasks[q].FetchNew? then
      if answer.None? then Done(w, q)
      else
        var v := answer.value;
        if !v.fits || v.pubkey.None? || !v.phase.Unfunded? || v.expiry <= now + 15 then Done(w, q)
        else w.(tasks := w.tasks[q := Parsing(w.tasks[q].client, w.tasks[q].network, v)])
    else if q in w.tasks && w.tasks[q].FetchStored? && w.tasks[q].record.quote == q then
      if answer.None? then Done(w, q) else Reconcile(w, w.tasks[q].record, answer.value, w.tasks[q].sweeping, now)
    else w
  }

  /** The node parses the invoice of a new claim; `fits` is the comparison with the configured
      asset and amount. An accepted claim is reserved and dispatched without a further await. */
  function Parsed(w: World, cfg: Config, q: nat, answer: Option<bool>, now: int): World {
    if q in w.tasks && w.tasks[q].Parsing? then
      if answer != Some(true) then Done(w, q)
      else
        var t := w.tasks[q];
        var v := t.view;
        var r := Reservation(q, v.invoice, v.invoice, if v.pubkey.Some? then v.pubkey.value else 0, t.client, t.network, v.amount, v.expiry);
        var (rows, reserved) := ReserveStep(w.rows, r, cfg, now);
        match reserved
        case Taken(row, created) =>
          if row.client.Some? && row.client.value != t.client then Done(w, q)
          else if created then Dispatch(w.(rows := rows, grants := w.grants[q := Grant(t.client, t.network, now)]), Record(q, row), false, now)
          else Reconcile(w, Record(q, row), v, false, now)
        case _ => Done(w, q)
    else w
  }

  /** The node answers the lookup of a payment. */
  function Looked(w: World, cfg: Config, q: nat, answer: Lookup, now: int): World {
    if q in w.tasks && w.tasks[q].Looking? && w.tasks[q].record.quote == q && w.tasks[q].record.row.paymentHash.Some? then
      var t := w.tasks[q];
      var r := t.record.row;
      match answer
      case LookupError => Move(w, q, Recoverable, Some(CheckUnknown), now)
      case Session(payment) =>
        if Some(payment.hash) != r.paymentHash then Move(w, q, Recoverable, Some(HashMismatch), now) else ApplyPayment(w, q, payment.status, now)
      case NoSession =>
        if r.failure == Some(HashMismatch) then Done(w, q)
        else if r.attemptedAt.Some? && now - r.attemptedAt.value < cfg.recoveryDelay then Move(w, q, Recoverable, Some(DispatchUnconfirmed), now)
        else if t.view.expiry <= now then Move(w, q, Failed, Some(QuoteExpired), now)
        else if r.attempts >= 2 || r.invoice.None? then Move(w, q, Recoverable, Some(ManualReview), now)
        else Dispatch(w, t.record, t.sweeping, now)
    else w
  }

  /** The node accepts a send that is under way. */
  function SendTakesEffect(w: World, q: nat): World {
    if q in w.tasks && w.tasks[q].Sending? && !w.tasks[q].effect && w.tasks[q].record.row.invoice.Some? then
      var i := w.tasks[q].record.row.invoice.value;
      w.(tasks := w.tasks[q := w.tasks[q].(effect := true)], accepted := w.accepted[i := Accepted(w, i) + 1])
    else w
  }

  /** The send call ends, with a payment or with an error. */
  function Sent(w: World, q: nat, answer: Option<Payment>, now: int): World {
    if q in w.tasks && w.tasks[q].Sending? then
      if answer.None? then Move(w, q, Recoverable, Some(DispatchUnknown), now)
      else if Some(answer.value.hash) != w.tasks[q].record.row.paymentHash then Move(w, q, Recoverable, Some(HashMismatch), now)
      else ApplyPayment(w, q, answer.value.status, now)
    else w
  }

  function StartSweep(w: World, open: seq<Record>): World {
    if w.sweep.None? && IsOpenList(w.rows, 100, open) then w.(sweep := Some(Sweep(open, None))) else w
  }

  /** The pass visits its next record, as it read it when it started. */
  function VisitNext(w: World): World {
    if w.sweep.Some? && w.sweep.value.waiting.None? && w.sweep.value.rest != [] then
      var record := w.sweep.value.rest[0];
      var rest := w.sweep.value.rest[1..];
      if record.row.quoteId.None? || record.quote in w.tasks then w.(sweep := Some(Sweep(rest, None)))
      else w.(sweep := Some(Sweep(rest, Some(record.quote))), tasks := w.tasks[record.quote := FetchStored(record, true)])
    else w
  }

  /** A finished pass is followed by a scrub. */
  function EndSweep(w: World, cfg: Config, now: int): World {
    if w.sweep.Some? && w.sweep.value.waiting.None? && w.sweep.value.rest == [] then
      w.(rows := ScrubAll(w.rows, now - cfg.retention), sweep := None)
    else w
  }

  datatype Event =
    | EClaim(quote: nat, client: nat, network: nat)
    | EQuote(quote: nat, view: Option<QuoteView>)
    | EParsed(quote: nat, matches: Option<bool>)
    | ELooked(quote: nat, lookup: Lookup)
    | EEffect(quote: nat)
    | ESent(quote: nat, payment: Option<Payment>)
    | EStartSweep(open: seq<Record>) | EVisit | EEndSweep
    | ERestart

  function Act(w: World, cfg: Config, e: Event, now: int): World {
    match e
    case EClaim(q, c, n) => Claim(w, cfg, q, c, n)
    case EQuote(q, v) => QuoteAnswered(w, cfg, q, v, now)
    case EParsed(q, m) => Parsed(w, cfg, q, m, now)
    case ELooked(q, l) => Looked(w, cfg, q, l, now)
    case EEffect(q) => SendTakesEffect(w, q)
    case ESent(q, p) => Sent(w, q, p, now)
    case EStartSweep(rs) => StartSweep(w, rs)
    case EVisit => VisitNext(w)
    case EEndSweep => EndSweep(w, cfg, now)
    case ERestart => w.(tasks := map[], sweep := None)
  }

  /** Every event happens `delay` after the one before. */
  datatype Timed = Timed(delay: nat, event: Event)

  function Step(w: World, cfg: Config, e: Timed): World {
    Act(w, cfg, e.event, w.clock + e.delay).(clock := w.clock + e.delay)
  }

  function Run(w: World, cfg: Config, es: seq<Timed>): World {
    if es == [] then w else Step(Run(w, cfg, es[..|es| - 1]), cfg, es[|es| - 1])
  }
}
