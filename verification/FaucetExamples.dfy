/** Runs that reach the bounds: a third dispatch, and a network limit that an early scrub forgets. */
module FaucetExamples {
  import opened Ecash
  import opened Faucet
  import opened FaucetGuard
  import opened FaucetLimits

  lemma {:induction false} RunAppend(w: World, cfg: Config, es: seq<Timed>, fs: seq<Timed>)
    ensures Run(w, cfg, es + fs) == Run(Run(w, cfg, es), cfg, fs)
  {
    hide Step;
    if fs == [] {
      assert es + fs == es;
    } else {
      assert (es + fs)[..|es + fs| - 1] == es + fs[..|fs| - 1];
      RunAppend(w, cfg, es, fs[..|fs| - 1]);
    }
  }

  lemma RunOne(w: World, cfg: Config, e: Timed)
    ensures Run(w, cfg, [e]) == Step(w, cfg, e)
  {
    assert [e][..0] == [];
  }

  lemma RunTwo(w: World, cfg: Config, e: Timed, f: Timed)
    ensures Run(w, cfg, [e, f]) == Step(Step(w, cfg, e), cfg, f)
  {
    assert [e, f][..1] == [e];
    RunOne(w, cfg, e);
  }

  lemma RunFour(w: World, cfg: Config, e: Timed, f: Timed, g: Timed, h: Timed)
    ensures Run(w, cfg, [e, f, g, h]) == Step(Step(Step(Step(w, cfg, e), cfg, f), cfg, g), cfg, h)
  {
    assert [e, f, g, h] == [e, f] + [g, h];
    RunAppend(w, cfg, [e, f], [g, h]);
    RunTwo(w, cfg, e, f);
    RunTwo(Run(w, cfg, [e, f]), cfg, g, h);
  }

  function View(q: nat, expiry: int): QuoteView { QuoteView(true, Invoice(q, 0), 1, Some(q), expiry, Unfunded) }

  function Asked(q: nat, client: nat, network: nat, expiry: int): Reservation {
    Reservation(q, Invoice(q, 0), Invoice(q, 0), q, client, network, 1, expiry)
  }

  /** The node says the payment succeeded, under the payment hash of the invoice or under another one. */
  function Paid(q: nat): Option<Payment> { Some(Payment(Invoice(q, 0), Success)) }

  function Foreign(q: nat): Option<Payment> { Some(Payment(Invoice(q, 1), Success)) }

  /** Where an answer to its send leaves a row; no answer at all is an unknown outcome. */
  function AfterSend(r: Row, q: nat, answer: Option<Payment>, now: int): Row {
    if answer.None? then Moved(r, Recoverable, Some(DispatchUnknown), now)
    else if answer == Foreign(q) then Moved(r, Recoverable, Some(HashMismatch), now)
    else Moved(r, PaidOut, None, now)
  }

  /** A first claim from its request to the end of its send call. */
  function FirstClaim(q: nat, client: nat, network: nat, expiry: int, answer: Option<Payment>): seq<Timed> {
    [Timed(0, EClaim(q, client, network)), Timed(0, EQuote(q, Some(View(q, expiry)))), Timed(0, EParsed(q, Some(true))), Timed(0, ESent(q, answer))]
  }

  /** Where a first claim leaves its row. */
  function FirstRow(q: nat, client: nat, network: nat, expiry: int, answer: Option<Payment>, now: int): Row {
    AfterSend(Attempted(NewRow(Asked(q, client, network, expiry), now), now), q, answer, now)
  }

  lemma ClaimRuns(w: World, cfg: Config, q: nat, client: nat, network: nat)
    requires cfg.enabled && q !in w.rows && w.tasks == map[]
    ensures Step(w, cfg, Timed(0, EClaim(q, client, network))) == w.(tasks := map[q := FetchNew(client, network)])
  {
  }

  lemma QuoteRuns(w: World, cfg: Config, q: nat, client: nat, network: nat, expiry: int)
    requires w.clock + 15 < expiry && w.tasks == map[q := FetchNew(client, network)]
    ensures Step(w, cfg, Timed(0, EQuote(q, Some(View(q, expiry))))) == w.(tasks := map[q := Parsing(client, network, View(q, expiry))])
  {
  }

  lemma ParsedRuns(w: World, cfg: Config, q: nat, client: nat, network: nat, expiry: int)
    requires w.tasks == map[q := Parsing(client, network, View(q, expiry))]
    requires ReserveStep(w.rows, Asked(q, client, network, expiry), cfg, w.clock).1 == Taken(NewRow(Asked(q, client, network, expiry), w.clock), true)
    ensures var row := NewRow(Asked(q, client, network, expiry), w.clock);
      Step(w, cfg, Timed(0, EParsed(q, Some(true))))
      == w.(rows := w.rows[q := Attempted(row, w.clock)], tasks := map[q := Sending(Record(q, row), false, false)], grants := w.grants[q := Grant(client, network, w.clock)])
  {
    ReserveInserts(w.rows, Asked(q, client, network, expiry), cfg, w.clock);
    hide ReserveStep;
  }

  lemma SentRuns(w: World, cfg: Config, q: nat, record: Record, sweeping: bool, answer: Option<Payment>)
    requires w.tasks == map[q := Sending(record, false, sweeping)] && q in w.rows && (sweeping ==> w.sweep.None?)
    requires answer in {None, Paid(q), Foreign(q)} && record.row.paymentHash == Some(Invoice(q, 0))
    ensures Step(w, cfg, Timed(0, ESent(q, answer))) == w.(tasks := map[], rows := w.rows[q := AfterSend(w.rows[q], q, answer, w.clock)])
  {
    assert map[q := Sending(record, false, sweeping)] - {q} == map[];
  }

  lemma FirstClaimRuns(w: World, cfg: Config, q: nat, client: nat, network: nat, expiry: int, answer: Option<Payment>)
    requires cfg.enabled && q !in w.rows && w.tasks == map[] && w.clock + 15 < expiry
    requires ReserveStep(w.rows, Asked(q, client, network, expiry), cfg, w.clock).1 == Taken(NewRow(Asked(q, client, network, expiry), w.clock), true)
    requires answer in {None, Paid(q), Foreign(q)}
    ensures Run(w, cfg, FirstClaim(q, client, network, expiry, answer))
         == w.(rows := w.rows[q := FirstRow(q, client, network, expiry, answer, w.clock)], grants := w.grants[q := Grant(client, network, w.clock)])
  {
    hide Run, ReserveStep, Step, Attempted;
    var es := FirstClaim(q, client, network, expiry, answer);
    var row := NewRow(Asked(q, client, network, expiry), w.clock);
    RunFour(w, cfg, es[0], es[1], es[2], es[3]);
    ClaimRuns(w, cfg, q, client, network);
    var w1 := Step(w, cfg, es[0]);
    QuoteRuns(w1, cfg, q, client, network, expiry);
    var w2 := Step(w1, cfg, es[1]);
    ParsedRuns(w2, cfg, q, client, network, expiry);
    var w3 := Step(w2, cfg, es[2]);
    SentRuns(w3, cfg, q, Record(q, row), false, answer);
    assert w.rows[q := Attempted(row, w.clock)][q := FirstRow(q, client, network, expiry, answer, w.clock)] == w.rows[q := FirstRow(q, client, network, expiry, answer, w.clock)];
  }

  lemma ReserveInserts(t: Table, r: Reservation, cfg: Config, now: int)
    requires ReserveStep(t, r, cfg, now).1 == Taken(NewRow(r, now), true)
    ensures ReserveStep(t, r, cfg, now).0 == t[r.quote := NewRow(r, now)]
  {
  }

  // ---- an early scrub forgets the network ----

  /** `n` browsers of one network claim at time zero, one after another. */
  function ManyClaims(n: nat): seq<Timed> {
    if n == 0 then [] else ManyClaims(n - 1) + FirstClaim(n - 1, n - 1, 0, 100, Paid(n - 1))
  }

  function Upto(n: nat): (s: set<nat>)
    ensures forall q: nat :: q in s <==> q < n
  {
    if n == 0 then {} else Upto(n - 1) + {n - 1}
  }

  /** The world after `n` such claims. */
  predicate Claimed(w: World, n: nat) {
    && w.tasks == map[] && w.sweep.None? && w.clock == 0 && w.rows.Keys == w.grants.Keys == Upto(n)
    && forall q :: q in w.rows ==>
         && w.grants[q] == Grant(q, 0, 0) && w.rows[q].client == Some(q) && w.rows[q].network == Some(0)
         && w.rows[q].paymentHash == Some(Invoice(q, 0))
         && w.rows[q].createdAt == 0 == w.rows[q].updatedAt && !IsOpen(w.rows[q])
  }

  lemma {:induction false} UptoSize(n: nat)
    ensures |Upto(n)| == n
  {
    if n == 0 {
      assert Upto(n) == {};
    } else {
      UptoSize(n - 1);
      assert Upto(n) == Upto(n - 1) + {n - 1};
    }
  }

  lemma RoomForOne(w: World, cfg: Config, n: nat)
    requires Claimed(w, n) && n < cfg.networkLimit && n < cfg.dailyLimit
    ensures var r := Asked(n, n, 0, 100); ReserveStep(w.rows, r, cfg, 0).1 == Taken(NewRow(r, 0), true)
  {
    hide Upto;
    assert Recent(w.rows, n, 0 - cfg.cooldown) == {};
    SmallerSet(OfNetwork(w.rows, 0, StartOfDay(0)), Upto(n));
    SmallerSet(Since(w.rows, StartOfDay(0)), Upto(n));
    UptoSize(n);
  }

  lemma {:induction false} ManyClaimsRun(cfg: Config, n: nat)
    requires cfg.enabled && n <= cfg.networkLimit && n <= cfg.dailyLimit
    ensures Claimed(Run(START, cfg, ManyClaims(n)), n)
  {
    hide Claimed, Run, ReserveStep, FirstClaim, FirstRow, Paid, NewRow, Asked;
    if n == 0 {
      NoneClaimed(cfg);
    } else {
      ManyClaimsRun(cfg, n - 1);
      var w, q := Run(START, cfg, ManyClaims(n - 1)), n - 1;
      RunAppend(START, cfg, ManyClaims(q), FirstClaim(q, q, 0, 100, Paid(q)));
      RoomForOne(w, cfg, q);
      NotYet(w, q);
      FirstClaimRuns(w, cfg, q, q, 0, 100, Paid(q));
      NextClaimed(w, Run(w, cfg, FirstClaim(q, q, 0, 100, Paid(q))), q);
    }
  }

  lemma NotYet(w: World, q: nat)
    requires Claimed(w, q)
    ensures q !in w.rows && w.tasks == map[] && w.clock == 0
  {
  }

  lemma NoneClaimed(cfg: Config)
    ensures Claimed(Run(START, cfg, ManyClaims(0)), 0)
  {
    assert Upto(0) == {};
  }

  lemma NextClaimed(w: World, v: World, q: nat)
    requires Claimed(w, q)
      && v == w.(rows := w.rows[q := FirstRow(q, q, 0, 100, Paid(q), 0)], grants := w.grants[q := Grant(q, 0, 0)])
    ensures Claimed(v, q + 1)
  {
    assert Upto(q + 1) == Upto(q) + {q};
  }

  function ForgettingRun(cfg: Config): seq<Timed> {
    var n := cfg.networkLimit;
    ManyClaims(n) + [Timed(0, EStartSweep([])), Timed(cfg.retention, EEndSweep)] + FirstClaim(n, n, 0, 100 + cfg.retention, Paid(n))
  }

  /** With identifiers kept for less than a day, a network can exceed its limit within a day: the
      condition of `NetworkLimitHolds` cannot be dropped for any limit. */
  lemma NetworkLimitForgotten(cfg: Config)
    requires cfg.enabled && cfg.retention < DAY && 0 < cfg.networkLimit < cfg.dailyLimit
    ensures |OfNetworkOnDay(Run(START, cfg, ForgettingRun(cfg)).grants, 0, 0)| == cfg.networkLimit + 1
  {
    hide Run, FirstClaim, Step, ReserveStep, ScrubAll, ManyClaims, Upto, OfNetworkOnDay, FirstRow;
    var n := cfg.networkLimit;
    var last := FirstClaim(n, n, 0, 100 + cfg.retention, Paid(n));
    var pass := [Timed(0, EStartSweep([])), Timed(cfg.retention, EEndSweep)];
    RunAppend(START, cfg, ManyClaims(n), pass);
    RunAppend(START, cfg, ManyClaims(n) + pass, last);
    ManyClaimsRun(cfg, n);
    var w1 := Run(START, cfg, ManyClaims(n));
    RunTwo(w1, cfg, pass[0], pass[1]);
    PassRuns(w1, cfg);
    var w2 := Run(w1, cfg, pass);
    ScrubbedReserves(w1, w2.rows, cfg);
    FirstClaimRuns(w2, cfg, n, n, 0, 100 + cfg.retention, Paid(n));
    ManyGrants(w1.grants, cfg);
  }

  /** No network ever exceeds its daily limit, in any run. */
  ghost predicate NetworkSafe(cfg: Config) {
    forall es: seq<Timed>, network: nat, day: int :: |OfNetworkOnDay(Run(START, cfg, es).grants, network, day)| <= cfg.networkLimit
  }

  /** An enabled faucet keeps the network limit in every run exactly when identifiers are kept for at
      least a day or the daily limit is no larger than the network's. */
  lemma NetworkLimitExactly(cfg: Config)
    requires cfg.enabled && cfg.networkLimit > 0
    ensures NetworkSafe(cfg) <==> DAY <= cfg.retention || cfg.dailyLimit <= cfg.networkLimit
  {
    hide Run, ForgettingRun;
    if DAY <= cfg.retention {
      forall es: seq<Timed>, network: nat, day: int ensures |OfNetworkOnDay(Run(START, cfg, es).grants, network, day)| <= cfg.networkLimit {
        NetworkLimitHolds(cfg, es, network, day);
      }
    } else if cfg.dailyLimit <= cfg.networkLimit {
      forall es: seq<Timed>, network: nat, day: int ensures |OfNetworkOnDay(Run(START, cfg, es).grants, network, day)| <= cfg.networkLimit {
        DailyLimitHolds(cfg, es, day);
        SmallerSet(OfNetworkOnDay(Run(START, cfg, es).grants, network, day), OnDay(Run(START, cfg, es).grants, day));
      }
    } else {
      NetworkLimitForgotten(cfg);
    }
  }

  lemma ManyGrants(gs: map<nat, Grant>, cfg: Config)
    requires gs.Keys == Upto(cfg.networkLimit) && (forall q :: q in gs ==> gs[q] == Grant(q, 0, 0)) && cfg.retention < DAY
    ensures |OfNetworkOnDay(gs[cfg.networkLimit := Grant(cfg.networkLimit, 0, cfg.retention)], 0, 0)| == cfg.networkLimit + 1
  {
    hide Upto;
    var n := cfg.networkLimit;
    UptoSize(n + 1);
    var all := gs[n := Grant(n, 0, cfg.retention)];
    forall q ensures q in OfNetworkOnDay(all, 0, 0) <==> q in Upto(n + 1) {
      if q in all { assert all[q].network == 0 && all[q].at / DAY == 0; }
    }
    assert OfNetworkOnDay(all, 0, 0) == Upto(n + 1);
  }

  lemma PassRuns(w: World, cfg: Config)
    requires w.sweep.None? && w.tasks == map[] && w.clock == 0 && (forall q :: q in w.rows ==> !IsOpen(w.rows[q]))
    ensures Step(Step(w, cfg, Timed(0, EStartSweep([]))), cfg, Timed(cfg.retention, EEndSweep)) == w.(rows := ScrubAll(w.rows, 0), clock := cfg.retention)
  {
    assert IsOpenList(w.rows, 100, []);
  }

  lemma ScrubbedReserves(w: World, t: Table, cfg: Config)
    requires Claimed(w, cfg.networkLimit) && t == ScrubAll(w.rows, 0) && 0 < cfg.networkLimit < cfg.dailyLimit
    ensures var n := cfg.networkLimit; var r := Asked(n, n, 0, 100 + cfg.retention);
      ReserveStep(t, r, cfg, cfg.retention).1 == Taken(NewRow(r, cfg.retention), true)
  {
    hide Upto;
    var now, n := cfg.retention, cfg.networkLimit;
    assert Recent(t, n, now - cfg.cooldown) == {} == OfNetwork(t, 0, StartOfDay(now));
    SmallerSet(Since(t, StartOfDay(now)), Upto(n));
    UptoSize(n);
  }

  // ---- a third dispatch ----

  /** A quote that is still open after the recovery delay. */
  function Expiry(cfg: Config): nat { cfg.recoveryDelay + 16 }

  /** A later request for quote 0, looked up in vain after the recovery delay, and sent. */
  function Retry(cfg: Config, answer: Option<Payment>): seq<Timed> {
    [Timed(cfg.recoveryDelay, EClaim(0, 0, 0)), Timed(0, EQuote(0, Some(View(0, Expiry(cfg))))), Timed(0, ELooked(0, NoSession)), Timed(0, ESent(0, answer))]
  }

  /** A pass visits quote 0 with the record it read before the retry. */
  function LateVisit(cfg: Config): seq<Timed> {
    [Timed(0, EVisit), Timed(0, EQuote(0, Some(View(0, Expiry(cfg))))), Timed(0, ELooked(0, NoSession)), Timed(0, EEffect(0))]
  }

  function First(cfg: Config): Row { FirstRow(0, 0, 0, Expiry(cfg), None, 0) }

  /** A first claim is lost, a pass reads its list, and a retry ends with `answer`. */
  function StaleRun(cfg: Config, answer: Option<Payment>): seq<Timed> {
    FirstClaim(0, 0, 0, Expiry(cfg), None) + [Timed(0, EStartSweep([Record(0, First(cfg))]))] + Retry(cfg, answer)
  }

  /** The retried row, looked up. */
  predicate Retriable(w: World, cfg: Config, r: Row) {
    && w.tasks == map[] && w.rows == map[0 := r] && r.client == Some(0) && r.quoteId.Some? && r.state.Recoverable? && r.attempts < 2
    && r.invoice == Some(Invoice(0, 0)) == r.paymentHash && r.pubkey == Some(0) && r.expiry == Expiry(cfg)
    && r.attemptedAt == Some(w.clock) && r.failure == Some(DispatchUnknown) && w.clock + cfg.recoveryDelay < Expiry(cfg)
  }

  lemma RetryRuns(w: World, cfg: Config, r: Row, answer: Option<Payment>)
    requires Retriable(w, cfg, r) && answer in {None, Paid(0), Foreign(0)}
    ensures var now := w.clock + cfg.recoveryDelay;
      Run(w, cfg, Retry(cfg, answer)) == w.(clock := now, rows := map[0 := AfterSend(Attempted(r, now), 0, answer, now)])
  {
    hide Run, Step, Attempted, AfterSend;
    var es := Retry(cfg, answer);
    RunFour(w, cfg, es[0], es[1], es[2], es[3]);
    RetryClaims(w, cfg, r);
    RetrySends(Step(w, cfg, es[0]), cfg, r, answer);
  }

  lemma RetrySends(w: World, cfg: Config, r: Row, answer: Option<Payment>)
    requires w.tasks == map[0 := FetchStored(Record(0, r), false)] && answer in {None, Paid(0), Foreign(0)}
    requires Retriable(w.(tasks := map[], clock := w.clock - cfg.recoveryDelay), cfg, r)
    ensures Step(Step(Step(w, cfg, Timed(0, EQuote(0, Some(View(0, Expiry(cfg)))))), cfg, Timed(0, ELooked(0, NoSession))), cfg, Timed(0, ESent(0, answer)))
         == w.(tasks := map[], rows := map[0 := AfterSend(Attempted(r, w.clock), 0, answer, w.clock)])
  {
    hide Step, Attempted, AfterSend, Foreign, Paid;
    StoredQuoteRuns(w, cfg, Record(0, r), false);
    LookedRuns(w.(tasks := map[0 := Looking(Record(0, r), View(0, Expiry(cfg)), false)]), cfg, Record(0, r), false);
    var w3 := w.(rows := map[0 := Attempted(r, w.clock)], tasks := map[0 := Sending(Record(0, r), false, false)]);
    SentRuns(w3, cfg, 0, Record(0, r), false, answer);
    assert w3.rows[0 := AfterSend(Attempted(r, w.clock), 0, answer, w.clock)] == map[0 := AfterSend(Attempted(r, w.clock), 0, answer, w.clock)];
  }

  lemma RetryClaims(w: World, cfg: Config, r: Row)
    requires Retriable(w, cfg, r)
    ensures Step(w, cfg, Timed(cfg.recoveryDelay, EClaim(0, 0, 0)))
         == w.(clock := w.clock + cfg.recoveryDelay, tasks := map[0 := FetchStored(Record(0, r), false)])
  {
  }

  lemma StoredQuoteRuns(w: World, cfg: Config, record: Record, sweeping: bool)
    requires w.tasks == map[0 := FetchStored(record, sweeping)] && record.quote == 0
    requires var r := record.row; r.invoice == Some(Invoice(0, 0)) == r.paymentHash && r.pubkey == Some(0) && !r.state.Failed?
    ensures Step(w, cfg, Timed(0, EQuote(0, Some(View(0, record.row.expiry))))) == w.(tasks := map[0 := Looking(record, View(0, record.row.expiry), sweeping)])
  {
  }

  lemma LookedRuns(w: World, cfg: Config, record: Record, sweeping: bool)
    requires w.tasks == map[0 := Looking(record, View(0, record.row.expiry), sweeping)] && record.quote == 0 && w.rows.Keys == {0}
    requires record.row.invoice == Some(Invoice(0, 0)) == record.row.paymentHash && record.row.attempts < 2
      && record.row.failure == Some(DispatchUnknown)
    requires record.row.attemptedAt.Some? && record.row.attemptedAt.value + cfg.recoveryDelay <= w.clock < record.row.expiry
    ensures Step(w, cfg, Timed(0, ELooked(0, NoSession)))
      == w.(rows := map[0 := Attempted(w.rows[0], w.clock)], tasks := map[0 := Sending(record, false, sweeping)])
  {
    assert w.rows[0 := Attempted(w.rows[0], w.clock)] == map[0 := Attempted(w.rows[0], w.clock)];
  }

  lemma StaleRuns(cfg: Config, answer: Option<Payment>)
    requires cfg.enabled && cfg.networkLimit >= 1 && cfg.dailyLimit >= 1 && answer in {None, Paid(0), Foreign(0)}
    ensures Run(START, cfg, StaleRun(cfg, answer))
         == START.(clock := cfg.recoveryDelay, rows := map[0 := AfterSend(Attempted(First(cfg), cfg.recoveryDelay), 0, answer, cfg.recoveryDelay)],
                   grants := map[0 := Grant(0, 0, 0)], sweep := Some(Sweep([Record(0, First(cfg))], None)))
  {
    hide Run, FirstClaim, Retry, ReserveStep, Step, AfterSend, Attempted;
    var start := Timed(0, EStartSweep([Record(0, First(cfg))]));
    var c := FirstClaim(0, 0, 0, Expiry(cfg), None);
    RunAppend(START, cfg, c, [start]);
    RunAppend(START, cfg, c + [start], Retry(cfg, answer));
    FirstOnly(cfg);
    var w1 := Run(START, cfg, c);
    RunOne(w1, cfg, start);
    StartRuns(w1, cfg);
    FirstFacts(cfg);
    hide First;
    RetryRuns(Run(w1, cfg, [start]), cfg, First(cfg), answer);
  }

  /** A pass that read its list before a second dispatch dispatches a third time: the bound of
      three is reached, for every configuration in which a claim can be made at all. */
  lemma ThirdDispatch(cfg: Config)
    requires cfg.enabled && cfg.networkLimit >= 1 && cfg.dailyLimit >= 1
    ensures var w := Run(START, cfg, StaleRun(cfg, None) + LateVisit(cfg)); 0 in w.rows && w.rows[0].attempts == 3
  {
    RunAppend(START, cfg, StaleRun(cfg, None), LateVisit(cfg));
    StaleRuns(cfg, None);
    StaleAttempts(cfg, None);
    hide Run, LateVisit, StaleRun;
    VisitRuns(Run(START, cfg, StaleRun(cfg, None)), cfg);
  }

  lemma StaleAttempts(cfg: Config, answer: Option<Payment>)
    ensures var r := AfterSend(Attempted(First(cfg), cfg.recoveryDelay), 0, answer, cfg.recoveryDelay);
      r.attempts == 2 && (answer == Foreign(0) ==> r.failure == Some(HashMismatch))
  {
  }

  lemma FirstOnly(cfg: Config)
    requires cfg.enabled && cfg.networkLimit >= 1 && cfg.dailyLimit >= 1
    ensures Run(START, cfg, FirstClaim(0, 0, 0, Expiry(cfg), None)) == START.(rows := map[0 := First(cfg)], grants := map[0 := Grant(0, 0, 0)])
  {
    FirstFits(cfg);
    hide Run, FirstClaim, ReserveStep;
    FirstClaimRuns(START, cfg, 0, 0, 0, Expiry(cfg), None);
  }

  lemma FirstFits(cfg: Config)
    requires cfg.networkLimit >= 1 && cfg.dailyLimit >= 1
    ensures var r := Asked(0, 0, 0, Expiry(cfg)); ReserveStep(START.rows, r, cfg, 0).1 == Taken(NewRow(r, 0), true)
  {
    assert Recent(map[], 0, 0 - cfg.cooldown) == {} == OfNetwork(map[], 0, StartOfDay(0)) == Since(map[], StartOfDay(0));
  }

  lemma StartRuns(w: World, cfg: Config)
    requires w.sweep.None? && w.rows == map[0 := First(cfg)]
    ensures Step(w, cfg, Timed(0, EStartSweep([Record(0, First(cfg))]))) == w.(sweep := Some(Sweep([Record(0, First(cfg))], None)))
  {
    assert [Record(0, First(cfg))][0].quote == 0;
    assert IsOpenList(w.rows, 100, [Record(0, First(cfg))]);
  }

  lemma VisitRuns(w: World, cfg: Config)
    requires w.sweep == Some(Sweep([Record(0, First(cfg))], None)) && w.tasks == map[] && w.rows.Keys == {0}
      && w.rows[0].attempts == 2
    requires cfg.recoveryDelay <= w.clock < Expiry(cfg)
    ensures 0 in Run(w, cfg, LateVisit(cfg)).rows && Run(w, cfg, LateVisit(cfg)).rows[0].attempts == 3
  {
    hide Run, Step, First;
    var es := LateVisit(cfg);
    var record := Record(0, First(cfg));
    RunFour(w, cfg, es[0], es[1], es[2], es[3]);
    FirstFacts(cfg);
    VisitsFirst(w, cfg, record);
    var w1 := w.(sweep := Some(Sweep([], Some(0))), tasks := map[0 := FetchStored(record, true)]);
    StoredQuoteRuns(w1, cfg, record, true);
    LookedRuns(w1.(tasks := map[0 := Looking(record, View(0, Expiry(cfg)), true)]), cfg, record, true);
    EffectRuns(Step(Step(w1, cfg, es[1]), cfg, es[2]), cfg);
  }

  lemma FirstFacts(cfg: Config)
    ensures var r := First(cfg);
      r.invoice == Some(Invoice(0, 0)) == r.paymentHash && r.pubkey == Some(0) && r.expiry == Expiry(cfg)
      && r.state.Recoverable? && r.attempts == 1
      && r.failure == Some(DispatchUnknown) && r.attemptedAt == Some(0) && r.quoteId.Some? && r.client == Some(0)
  {
  }

  lemma VisitsFirst(w: World, cfg: Config, record: Record)
    requires w.sweep == Some(Sweep([record], None)) && w.tasks == map[] && record.row.quoteId.Some? && record.quote == 0
    ensures Step(w, cfg, Timed(0, EVisit)) == w.(sweep := Some(Sweep([], Some(0))), tasks := map[0 := FetchStored(record, true)])
  {
    assert [record][1..] == [];
  }

  lemma EffectRuns(w: World, cfg: Config)
    ensures Step(w, cfg, Timed(0, EEffect(0))).rows == w.rows
  {
  }

  // ---- the guard against a foreign hash ----

  /** A request for quote 0 whose lookup gets `answer`. */
  function Request(expiry: int, answer: Lookup): seq<Timed> {
    [Timed(0, EClaim(0, 0, 0)), Timed(0, EQuote(0, Some(View(0, expiry)))), Timed(0, ELooked(0, answer))]
  }

  /** A claim whose node once answered with a foreign payment hash, ready for another attempt. */
  predicate Mistrusted(w: World, cfg: Config, r: Row) {
    && w.tasks == map[] && w.rows == map[0 := r] && r.client == Some(0) && r.quoteId.Some? && r.state.Recoverable?
    && r.attempts < 2
    && r.invoice == Some(Invoice(0, 0)) == r.paymentHash && r.pubkey == Some(0)
    && r.attemptedAt.Some? && r.attemptedAt.value + cfg.recoveryDelay <= w.clock < r.expiry
  }

  lemma RequestRuns(w: World, cfg: Config, r: Row, answer: Lookup)
    requires Mistrusted(w, cfg, r)
    ensures Run(w, cfg, Request(r.expiry, answer)) == Step(w.(tasks := map[0 := Looking(Record(0, r), View(0, r.expiry), false)]), cfg, Timed(0, ELooked(0, answer)))
  {
    var es := Request(r.expiry, answer);
    assert es == [es[0], es[1]] + [es[2]];
    RunAppend(w, cfg, [es[0], es[1]], [es[2]]);
    RunTwo(w, cfg, es[0], es[1]);
    RunOne(Run(w, cfg, [es[0], es[1]]), cfg, es[2]);
    hide Run;
    assert Step(w, cfg, es[0]) == w.(tasks := map[0 := FetchStored(Record(0, r), false)]);
    StoredQuoteRuns(Step(w, cfg, es[0]), cfg, Record(0, r), false);
  }

  /** A request whose lookup finds no session dispatches exactly when the latest failure code is not the
      mismatch, whatever the codes before it were. */
  lemma GuardExactly(w: World, cfg: Config, r: Row)
    requires Mistrusted(w, cfg, r)
    ensures var v := Run(w, cfg, Request(r.expiry, NoSession)); Dispatches(w, v, 0) <==> r.failure != Some(HashMismatch)
    ensures r.failure == Some(HashMismatch) ==> Run(w, cfg, Request(r.expiry, NoSession)) == w
  {
    hide Run;
    RequestRuns(w, cfg, r, NoSession);
    assert map[0 := Looking(Record(0, r), View(0, r.expiry), false)] - {0} == map[];
  }

  /** One unanswered lookup replaces the code, and the request after it dispatches. */
  lemma GuardForgets(w: World, cfg: Config, r: Row)
    requires Mistrusted(w, cfg, r)
    ensures Dispatches(w, Run(w, cfg, Request(r.expiry, LookupError) + Request(r.expiry, NoSession)), 0)
  {
    hide Run;
    RequestRuns(w, cfg, r, LookupError);
    RunAppend(w, cfg, Request(r.expiry, LookupError), Request(r.expiry, NoSession));
    assert map[0 := Looking(Record(0, r), View(0, r.expiry), false)] - {0} == map[];
    var r' := Moved(r, Recoverable, Some(CheckUnknown), w.clock);
    var v := Run(w, cfg, Request(r.expiry, LookupError));
    assert v == w.(rows := map[0 := r']);
    hide Step, Request;
    GuardExactly(v, cfg, r');
  }

  /** The node answers the first send with a foreign hash, and the recovery delay passes. */
  function MismatchRun(cfg: Config): seq<Timed> {
    FirstClaim(0, 0, 0, Expiry(cfg), Foreign(0)) + [Timed(cfg.recoveryDelay, ERestart)]
  }

  lemma MismatchRuns(cfg: Config)
    requires cfg.enabled && cfg.networkLimit >= 1 && cfg.dailyLimit >= 1
    ensures var w := Run(START, cfg, MismatchRun(cfg)); 0 in w.rows && Mistrusted(w, cfg, w.rows[0]) && Marked(w, 0) && w.rows[0].expiry == Expiry(cfg)
  {
    FirstFits(cfg);
    hide Run, FirstClaim, ReserveStep;
    var c, wait := FirstClaim(0, 0, 0, Expiry(cfg), Foreign(0)), Timed(cfg.recoveryDelay, ERestart);
    FirstClaimRuns(START, cfg, 0, 0, 0, Expiry(cfg), Foreign(0));
    RunAppend(START, cfg, c, [wait]);
    RunOne(Run(START, cfg, c), cfg, wait);
    Waits(Run(START, cfg, c), cfg);
    hide Step;
  }

  lemma Waits(w: World, cfg: Config)
    requires w.tasks == map[] && w.sweep.None?
    ensures Step(w, cfg, Timed(cfg.recoveryDelay, ERestart)) == w.(clock := w.clock + cfg.recoveryDelay)
  {
  }

  /** From an empty table: a foreign hash stops the next request, and one unanswered lookup later a
      request dispatches the claim again. */
  lemma MismatchForgotten(cfg: Config)
    requires cfg.enabled && cfg.networkLimit >= 1 && cfg.dailyLimit >= 1
    ensures var w := Run(START, cfg, MismatchRun(cfg));
      && Marked(w, 0) && Run(w, cfg, Request(Expiry(cfg), NoSession)) == w
      && Dispatches(w, Run(w, cfg, Request(Expiry(cfg), LookupError) + Request(Expiry(cfg), NoSession)), 0)
  {
    MismatchRuns(cfg);
    hide Run, MismatchRun, Request, Mistrusted;
    var w := Run(START, cfg, MismatchRun(cfg));
    GuardExactly(w, cfg, w.rows[0]);
    GuardForgets(w, cfg, w.rows[0]);
  }

  /** From an empty table: a pass that read its list before a retry got a foreign hash dispatches the
      claim although its row carries the mismatch code. */
  lemma StaleListPasses(cfg: Config)
    requires cfg.enabled && cfg.networkLimit >= 1 && cfg.dailyLimit >= 1
    ensures var w := Run(START, cfg, StaleRun(cfg, Foreign(0))); Marked(w, 0) && Dispatches(w, Run(w, cfg, LateVisit(cfg)), 0)
  {
    StaleRuns(cfg, Foreign(0));
    StaleAttempts(cfg, Foreign(0));
    hide Run, LateVisit, StaleRun, AfterSend;
    VisitRuns(Run(START, cfg, StaleRun(cfg, Foreign(0))), cfg);
  }
}
