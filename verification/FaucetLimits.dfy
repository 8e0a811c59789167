/** The rate limits hold although a scrub erases the identifiers they count. */
module FaucetLimits {
  import opened Ecash
  import opened Faucet

  // ---- what rows keep ----

  /** An identifier is in the row, or was erased from a row at least the retention old. */
  predicate KeptOrOld(kept: Option<nat>, id: nat, at: int, cfg: Config, clock: int) {
    kept == Some(id) || (kept.None? && at <= clock - cfg.retention)
  }

  predicate RowKept(r: Row, g: Grant, cfg: Config, clock: int) {
    && r.createdAt == g.at && r.createdAt <= r.updatedAt && g.at <= clock
    && KeptOrOld(r.client, g.client, g.at, cfg, clock) && KeptOrOld(r.network, g.network, g.at, cfg, clock)
  }

  predicate RowsKept(t: Table, gs: map<nat, Grant>, cfg: Config, clock: int) {
    t.Keys == gs.Keys && forall q :: q in t ==> RowKept(t[q], gs[q], cfg, clock)
  }

  lemma KeptPut(w: World, q: nat, r: Row, cfg: Config, clock: int)
    requires RowsKept(w.rows, w.grants, cfg, clock) && q in w.rows
    requires r.createdAt == w.rows[q].createdAt && r.updatedAt == clock && r.client == w.rows[q].client
      && r.network == w.rows[q].network
    ensures RowsKept(Put(w, q, r).rows, w.grants, cfg, clock) && Put(w, q, r).grants == w.grants
  {
  }

  lemma KeptMove(w: World, q: nat, state: ClaimState, failure: Option<Failure>, cfg: Config, clock: int)
    requires RowsKept(w.rows, w.grants, cfg, clock) && q in w.tasks
    ensures var v := Move(w, q, state, failure, clock); RowsKept(v.rows, v.grants, cfg, clock) && v.grants == w.grants
  {
    if q in w.rows { KeptPut(w, q, Moved(w.rows[q], state, failure, clock), cfg, clock); }
    hide RowsKept;
  }

  lemma KeptDispatch(w: World, record: Record, sweeping: bool, cfg: Config, clock: int)
    requires RowsKept(w.rows, w.grants, cfg, clock) && record.quote in w.tasks
    ensures var v := Dispatch(w, record, sweeping, clock); RowsKept(v.rows, v.grants, cfg, clock) && v.grants == w.grants
  {
    var q := record.quote;
    KeptMove(w, q, Recoverable, Some(MissingData), cfg, clock);
    if q in w.rows { KeptPut(w, q, Attempted(w.rows[q], clock), cfg, clock); }
    hide RowsKept, Move;
  }

  lemma KeptReconcile(w: World, record: Record, v: QuoteView, sweeping: bool, cfg: Config, clock: int)
    requires RowsKept(w.rows, w.grants, cfg, clock) && record.quote in w.tasks
    ensures var u := Reconcile(w, record, v, sweeping, clock); RowsKept(u.rows, u.grants, cfg, clock) && u.grants == w.grants
  {
    hide RowsKept, Move;
    var q := record.quote;
    KeptMove(w, q, Recoverable, Some(QuoteChanged), cfg, clock);
    KeptMove(w, q, Issued, None, cfg, clock);
    KeptMove(w, q, PaidOut, None, cfg, clock);
    KeptMove(w, q, Recoverable, Some(MissingHash), cfg, clock);
  }

  lemma KeptPayment(w: World, q: nat, status: PayStatus, cfg: Config, clock: int)
    requires RowsKept(w.rows, w.grants, cfg, clock) && q in w.tasks
    ensures var v := ApplyPayment(w, q, status, clock); RowsKept(v.rows, v.grants, cfg, clock) && v.grants == w.grants
  {
    hide RowsKept, Move;
    KeptMove(w, q, PaidOut, None, cfg, clock);
    KeptMove(w, q, Failed, Some(FiberFailed), cfg, clock);
    KeptMove(w, q, Pending, None, cfg, clock);
  }

  lemma KeptLooked(w: World, q: nat, answer: Lookup, cfg: Config, clock: int)
    requires RowsKept(w.rows, w.grants, cfg, clock)
    ensures var v := Looked(w, cfg, q, answer, clock); RowsKept(v.rows, v.grants, cfg, clock) && v.grants == w.grants
  {
    hide RowsKept, Move, ApplyPayment, Dispatch;
    if q in w.tasks && w.tasks[q].Looking? {
      KeptMove(w, q, Recoverable, Some(CheckUnknown), cfg, clock);
      KeptMove(w, q, Recoverable, Some(HashMismatch), cfg, clock);
      KeptMove(w, q, Recoverable, Some(DispatchUnconfirmed), cfg, clock);
      KeptMove(w, q, Failed, Some(QuoteExpired), cfg, clock);
      KeptMove(w, q, Recoverable, Some(ManualReview), cfg, clock);
      if answer.Session? { KeptPayment(w, q, answer.payment.status, cfg, clock); }
      if w.tasks[q].record.quote == q { KeptDispatch(w, w.tasks[q].record, w.tasks[q].sweeping, cfg, clock); }
    }
  }

  lemma KeptSent(w: World, q: nat, answer: Option<Payment>, cfg: Config, clock: int)
    requires RowsKept(w.rows, w.grants, cfg, clock)
    ensures var v := Sent(w, q, answer, clock); RowsKept(v.rows, v.grants, cfg, clock) && v.grants == w.grants
  {
    hide RowsKept, Move, ApplyPayment;
    if q in w.tasks {
      KeptMove(w, q, Recoverable, Some(DispatchUnknown), cfg, clock);
      KeptMove(w, q, Recoverable, Some(HashMismatch), cfg, clock);
      if answer.Some? { KeptPayment(w, q, answer.value.status, cfg, clock); }
    }
  }

  lemma KeptScrub(t: Table, gs: map<nat, Grant>, cfg: Config, clock: int)
    requires RowsKept(t, gs, cfg, clock)
    ensures RowsKept(ScrubAll(t, clock - cfg.retention), gs, cfg, clock)
  {
  }

  lemma KeptQuote(w: World, q: nat, answer: Option<QuoteView>, cfg: Config, clock: int)
    requires RowsKept(w.rows, w.grants, cfg, clock)
    ensures var v := QuoteAnswered(w, cfg, q, answer, clock); RowsKept(v.rows, v.grants, cfg, clock) && v.grants == w.grants
  {
    hide RowsKept, Reconcile;
    if q in w.tasks && w.tasks[q].FetchStored? && w.tasks[q].record.quote == q && answer.Some? {
      KeptReconcile(w, w.tasks[q].record, answer.value, w.tasks[q].sweeping, cfg, clock);
    }
  }

  /** The other events keep the rows, or scrub them. */
  lemma PlainAct(w: World, cfg: Config, e: Event, now: int)
    requires !e.EParsed? && !e.EQuote? && !e.ELooked? && !e.ESent?
    ensures var v := Act(w, cfg, e, now); v.grants == w.grants && (v.rows == w.rows || v.rows == ScrubAll(w.rows, now - cfg.retention))
  {
    hide QuoteAnswered, Parsed, Looked, Sent, IsOpenList, ScrubAll;
  }

  /** Every event but an accepted claim leaves the grants alone. */
  lemma KeptAct(w: World, cfg: Config, e: Event, clock: int)
    requires RowsKept(w.rows, w.grants, cfg, clock) && !e.EParsed?
    ensures var v := Act(w, cfg, e, clock); RowsKept(v.rows, v.grants, cfg, clock) && v.grants == w.grants
  {
    hide RowsKept, Claim, QuoteAnswered, Looked, SendTakesEffect, Sent, StartSweep, VisitNext, EndSweep, ScrubAll;
    match e
    case EQuote(q, v) => KeptQuote(w, q, v, cfg, clock);
    case ELooked(q, l) => KeptLooked(w, q, l, cfg, clock);
    case ESent(q, p) => KeptSent(w, q, p, cfg, clock);
    case _ => PlainAct(w, cfg, e, clock); KeptScrub(w.rows, w.grants, cfg, clock);
  }

  lemma KeptLater(t: Table, gs: map<nat, Grant>, cfg: Config, clock: int, later: int)
    requires RowsKept(t, gs, cfg, clock) && clock <= later
    ensures RowsKept(t, gs, cfg, later)
  {
  }

  // ---- the limits ----

  /** Two grants to one browser are at least the cooldown apart. */
  predicate Apart(gs: map<nat, Grant>, cfg: Config) {
    forall p, q :: p in gs && q in gs && p != q && gs[p].client == gs[q].client ==> gs[p].at + cfg.cooldown <= gs[q].at || gs[q].at + cfg.cooldown <= gs[p].at
  }

  function OnDay(gs: map<nat, Grant>, day: int): set<nat> {
    set q | q in gs && gs[q].at / DAY == day
  }

  function OfNetworkOnDay(gs: map<nat, Grant>, network: nat, day: int): set<nat> {
    set q | q in gs && gs[q].network == network && gs[q].at / DAY == day
  }

  ghost predicate DailyKept(gs: map<nat, Grant>, cfg: Config) {
    forall day :: |OnDay(gs, day)| <= cfg.dailyLimit
  }

  ghost predicate NetworkKept(gs: map<nat, Grant>, cfg: Config) {
    forall network, day :: |OfNetworkOnDay(gs, network, day)| <= cfg.networkLimit
  }

  lemma SmallerSet(a: set<nat>, b: set<nat>)
    requires a <= b
    ensures |a| <= |b|
  {
    assert b == a + (b - a);
  }

  lemma SameDay(at: int, now: int)
    requires at <= now
    ensures at / DAY == now / DAY <==> at >= StartOfDay(now)
  {
  }

  /** The reservation step that creates a row grants within every limit. */
  lemma GrantApart(t: Table, gs: map<nat, Grant>, cfg: Config, r: Reservation, now: int)
    requires RowsKept(t, gs, cfg, now) && Apart(gs, cfg) && cfg.cooldown <= cfg.retention && r.quote !in t
    requires Recent(t, r.client, now - cfg.cooldown) == {}
    ensures Apart(gs[r.quote := Grant(r.client, r.network, now)], cfg)
  {
    forall p | p in gs && gs[p].client == r.client ensures gs[p].at + cfg.cooldown <= now {
      assert RowKept(t[p], gs[p], cfg, now);
      if t[p].client == Some(r.client) { assert p !in Recent(t, r.client, now - cfg.cooldown); }
    }
  }

  lemma GrantDaily(t: Table, gs: map<nat, Grant>, cfg: Config, r: Reservation, now: int)
    requires RowsKept(t, gs, cfg, now) && DailyKept(gs, cfg) && r.quote !in t && |Since(t, StartOfDay(now))| < cfg.dailyLimit
    ensures DailyKept(gs[r.quote := Grant(r.client, r.network, now)], cfg)
  {
    var gs' := gs[r.quote := Grant(r.client, r.network, now)];
    forall day ensures |OnDay(gs', day)| <= cfg.dailyLimit {
      if day == now / DAY {
        forall q | q in OnDay(gs, day) ensures q in Since(t, StartOfDay(now)) { assert RowKept(t[q], gs[q], cfg, now); SameDay(gs[q].at, now); }
        SmallerSet(OnDay(gs, day), Since(t, StartOfDay(now)));
        assert OnDay(gs', day) == OnDay(gs, day) + {r.quote};
      } else {
        assert OnDay(gs', day) == OnDay(gs, day);
      }
    }
  }

  /** The grants of one network and day are rows the limit counts. */
  lemma NetworkRows(t: Table, gs: map<nat, Grant>, cfg: Config, network: nat, day: int, now: int)
    requires RowsKept(t, gs, cfg, now) && DAY <= cfg.retention && day == now / DAY
    ensures |OfNetworkOnDay(gs, network, day)| <= |OfNetwork(t, network, StartOfDay(now))|
  {
    forall q | q in OfNetworkOnDay(gs, network, day) ensures q in OfNetwork(t, network, StartOfDay(now)) {
      assert RowKept(t[q], gs[q], cfg, now);
      SameDay(gs[q].at, now);
    }
    SmallerSet(OfNetworkOnDay(gs, network, day), OfNetwork(t, network, StartOfDay(now)));
  }

  lemma GrantCounted(gs: map<nat, Grant>, q: nat, g: Grant, network: nat, day: int)
    requires q !in gs
    ensures OfNetworkOnDay(gs[q := g], network, day) ==
      OfNetworkOnDay(gs, network, day) + if network == g.network && day == g.at / DAY then {q} else {}
  {
  }

  lemma GrantNetwork(t: Table, gs: map<nat, Grant>, cfg: Config, r: Reservation, now: int)
    requires RowsKept(t, gs, cfg, now) && NetworkKept(gs, cfg) && r.quote !in t && DAY <= cfg.retention
    requires |OfNetwork(t, r.network, StartOfDay(now))| < cfg.networkLimit
    ensures NetworkKept(gs[r.quote := Grant(r.client, r.network, now)], cfg)
  {
    var g := Grant(r.client, r.network, now);
    var gs' := gs[r.quote := g];
    NetworkRows(t, gs, cfg, r.network, now / DAY, now);
    forall network, day ensures |OfNetworkOnDay(gs', network, day)| <= cfg.networkLimit {
      hide RowsKept, OfNetwork, OfNetworkOnDay;
      GrantCounted(gs, r.quote, g, network, day);
    }
  }

  ghost predicate LimitsOk(w: World, cfg: Config) {
    && RowsKept(w.rows, w.grants, cfg, w.clock)
    && (cfg.cooldown <= cfg.retention ==> Apart(w.grants, cfg))
    && DailyKept(w.grants, cfg)
    && (DAY <= cfg.retention ==> NetworkKept(w.grants, cfg))
  }

  lemma GrantKept(w: World, cfg: Config, q: nat, r: Reservation, now: int)
    requires RowsKept(w.rows, w.grants, cfg, now) && r.quote == q && q !in w.rows
    ensures RowsKept(w.rows[q := NewRow(r, now)], w.grants[q := Grant(r.client, r.network, now)], cfg, now)
  {
  }

  lemma LimitsParsed(w: World, cfg: Config, q: nat, answer: Option<bool>, now: int)
    requires LimitsOk(w, cfg) && w.clock <= now
    ensures LimitsOk(Parsed(w, cfg, q, answer, now).(clock := now), cfg)
  {
    KeptLater(w.rows, w.grants, cfg, w.clock, now);
    hide RowsKept, Apart, DailyKept, NetworkKept, Reconcile, Dispatch;
    if q in w.tasks && w.tasks[q].Parsing? && answer == Some(true) {
      var t := w.tasks[q];
      var v := t.view;
      var r := Reservation(q, v.invoice, v.invoice, if v.pubkey.Some? then v.pubkey.value else 0, t.client, t.network, v.amount, v.expiry);
      var (rows, reserved) := ReserveStep(w.rows, r, cfg, now);
      if reserved.Taken? {
        if reserved.created {
          if cfg.cooldown <= cfg.retention { GrantApart(w.rows, w.grants, cfg, r, now); }
          GrantDaily(w.rows, w.grants, cfg, r, now);
          if DAY <= cfg.retention { GrantNetwork(w.rows, w.grants, cfg, r, now); }
          GrantKept(w, cfg, q, r, now);
          KeptDispatch(w.(rows := rows, grants := w.grants[q := Grant(t.client, t.network, now)]), Record(q, reserved.row), false, cfg, now);
        } else {
          KeptReconcile(w, Record(q, reserved.row), v, false, cfg, now);
        }
      }
    }
  }

  lemma LimitsStep(w: World, cfg: Config, e: Timed)
    requires LimitsOk(w, cfg)
    ensures LimitsOk(Step(w, cfg, e), cfg)
  {
    hide RowsKept, Apart, DailyKept, NetworkKept, Act;
    var now := w.clock + e.delay;
    KeptLater(w.rows, w.grants, cfg, w.clock, now);
    if e.event.EParsed? {
      LimitsParsed(w, cfg, e.event.quote, e.event.matches, now);
      ParsedAct(w, cfg, e.event, now);
    } else {
      KeptAct(w, cfg, e.event, now);
    }
  }

  lemma ParsedAct(w: World, cfg: Config, e: Event, now: int)
    requires e.EParsed?
    ensures Act(w, cfg, e, now) == Parsed(w, cfg, e.quote, e.matches, now)
  {
    hide Parsed;
  }

  lemma LimitsStart(cfg: Config)
    ensures LimitsOk(START, cfg)
  {
    forall day ensures |OnDay(map[], day)| <= cfg.dailyLimit { assert OnDay(map[], day) == {}; }
    forall network, day ensures |OfNetworkOnDay(map[], network, day)| <= cfg.networkLimit { assert OfNetworkOnDay(map[], network, day) == {}; }
  }

  lemma {:induction false} RunLimits(cfg: Config, es: seq<Timed>)
    ensures LimitsOk(Run(START, cfg, es), cfg)
  {
    hide LimitsOk, Step;
    if es == [] {
      LimitsStart(cfg);
    } else {
      RunLimits(cfg, es[..|es| - 1]);
      LimitsStep(Run(START, cfg, es[..|es| - 1]), cfg, es[|es| - 1]);
    }
  }

  /** In every run of claims, passes, scrubs and restarts: two claims of one browser are at least
      the cooldown apart, because the configuration keeps identifiers at least that long. */
  lemma CooldownSurvivesErasure(cfg: Config, es: seq<Timed>, p: nat, q: nat)
    requires cfg.cooldown <= cfg.retention
    requires p in Run(START, cfg, es).grants && q in Run(START, cfg, es).grants && p != q
    requires Run(START, cfg, es).grants[p].client == Run(START, cfg, es).grants[q].client
    ensures var gs := Run(START, cfg, es).grants; gs[p].at + cfg.cooldown <= gs[q].at || gs[q].at + cfg.cooldown <= gs[p].at
  {
    RunLimits(cfg, es);
    hide Run;
  }

  /** No day has more claims than the daily limit. */
  lemma DailyLimitHolds(cfg: Config, es: seq<Timed>, day: int)
    ensures |OnDay(Run(START, cfg, es).grants, day)| <= cfg.dailyLimit
  {
    RunLimits(cfg, es);
    hide Run;
  }

  /** If identifiers are kept for at least a day, no network has more claims in a day than its limit. */
  lemma NetworkLimitHolds(cfg: Config, es: seq<Timed>, network: nat, day: int)
    requires DAY <= cfg.retention
    ensures |OfNetworkOnDay(Run(START, cfg, es).grants, network, day)| <= cfg.networkLimit
  {
    RunLimits(cfg, es);
    hide Run;
  }
}
