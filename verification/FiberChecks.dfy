/** Exactly which payments a check can settle without loss: a check charges the fee alone, and for
    every payment that the rounded fee does not cover there is a run that leaves the mint insolvent. */
module FiberChecks {
  import opened Ecash
  import opened FiberAmounts
  import opened FiberMelts
  import opened FiberSolvency

  /** Every check that finds a success finds a payment of this amount and fee. */
  predicate ChecksOnly(w: World, es: seq<Event>, amount: nat, fee: nat) {
    es == [] || (ChecksOnly(w, es[..|es| - 1], amount, fee) && CheckIs(Run(w, es[..|es| - 1]), es[|es| - 1], amount, fee))
  }

  predicate CheckIs(w: World, e: Event, amount: nat, fee: nat) {
    e.ECheck? && e.id in w.melts && w.melts[e.id].hash in w.sessions && w.sessions[w.melts[e.id].hash].status.Success? ==>
      w.melts[e.id].hash.amount == amount && w.sessions[w.melts[e.id].hash].fee == fee
  }

  lemma {:induction false} OnlyCovered(scale: nat, balance: nat, es: seq<Event>, amount: nat, fee: nat)
    requires scale > 0 && ChecksOnly(Fresh(scale, balance), es, amount, fee) && CoveredByFee(amount, fee, scale)
    ensures CoveredRun(Fresh(scale, balance), es) && Run(Fresh(scale, balance), es).scale == scale
  {
    hide CoveredByFee;
    if es != [] {
      OnlyCovered(scale, balance, es[..|es| - 1], amount, fee);
      ScaleStays(Run(Fresh(scale, balance), es[..|es| - 1]), es[|es| - 1]);
      hide Step;
    }
  }

  // ---- the losing run ----

  lemma RunMore(w: World, es: seq<Event>, e: Event, amount: nat, fee: nat)
    ensures Run(w, es + [e]) == Step(Run(w, es), e)
    ensures ChecksOnly(w, es, amount, fee) && CheckIs(Run(w, es), e, amount, fee) ==> ChecksOnly(w, es + [e], amount, fee)
  {
    assert (es + [e])[..|es|] == es;
    hide Step;
  }

  function Units(amount: nat, fee: nat, scale: nat): nat
    requires scale > 0
  {
    CeilDiv(amount, scale) + CeilDiv(fee, scale)
  }

  function Funding(n: nat): seq<Event> { [EOpen(0, n)] + [EMove(0, Paid)] + [ECredit(0)] }

  function Dispatched(amount: nat, fee: nat, scale: nat): seq<Event>
    requires scale > 0
  {
    var n := Units(amount, fee, scale);
    Funding(n) + [EBegin(0, Hash(0, amount), CeilDiv(fee, scale), n)] + [ELookup(0, true)] + [ESend(0, true, false)]
  }

  /** A deposit covers a melt of `amount` with a reserve for `fee`; its send is answered by nothing, the
      node pays, and a check settles the melt. */
  function LosingRun(amount: nat, fee: nat, scale: nat): seq<Event>
    requires scale > 0
  {
    var h := Hash(0, amount);
    Dispatched(amount, fee, scale) + [ESession(h, Success, fee)] + [ECheck(0, true)] + [EReturn(0)]
  }

  function Deposited(n: nat, scale: nat): World {
    World(scale, ToBase(n, scale), n, map[], map[], map[0 := Invoice(ToBase(n, scale), Paid, true)], [])
  }

  lemma Deposits(w: World, n: nat)
    requires w == Fresh(w.scale, 0) && w.scale > 0 && n < U64
    ensures Credit(MoveInvoice(OpenInvoice(w, 0, n), 0, Paid), 0) == Deposited(n, w.scale) && Deposited(n, w.scale).scale == w.scale
  {
    RoundTrip(n, w.scale);
    hide ToBase, FromBaseFloor;
    var v := OpenInvoice(w, 0, n);
    assert v.invoices == map[0 := Invoice(ToBase(n, w.scale), Open, false)];
    var u := MoveInvoice(v, 0, Paid);
    assert u.invoices == map[0 := Invoice(ToBase(n, w.scale), Paid, false)];
  }

  /** The melt waits without an answer for a send that opened a session. */
  predicate Waiting(w: World, amount: nat, fee: nat) {
    && w.scale > 0 && w.balance == ToBase(Units(amount, fee, w.scale), w.scale) && w.outstanding == 0
    && w.melts == map[0 := Melt(Hash(0, amount), CeilDiv(fee, w.scale), Units(amount, fee, w.scale), Stuck)]
    && w.sessions == map[Hash(0, amount) := Session(Created, ToBase(CeilDiv(fee, w.scale), w.scale), 0, 0)]
  }

  lemma Dispatches(w: World, amount: nat, fee: nat)
    requires w.scale > 0 && Units(amount, fee, w.scale) < U64 && w == Deposited(Units(amount, fee, w.scale), w.scale)
    ensures var n := Units(amount, fee, w.scale);
      Waiting(Send(Lookup(BeginMelt(w, 0, Hash(0, amount), CeilDiv(fee, w.scale), n), 0, true), 0, true, false), amount, fee)
  {
    hide ToBase, CeilDiv;
    var n, h := Units(amount, fee, w.scale), Hash(0, amount);
    var v := BeginMelt(w, 0, h, CeilDiv(fee, w.scale), n);
    assert v.melts == map[0 := Melt(h, CeilDiv(fee, w.scale), n, Looking)];
    var u := Lookup(v, 0, true);
    assert u.melts == map[0 := Melt(h, CeilDiv(fee, w.scale), n, Sending)];
  }

  lemma Pays(w: World, amount: nat, fee: nat)
    requires Waiting(w, amount, fee)
    ensures var v := MoveSession(w, Hash(0, amount), Success, fee);
      && v.scale == w.scale && v.melts == w.melts && v.outstanding == 0
      && v.balance + amount + fee == ToBase(Units(amount, fee, w.scale), w.scale)
      && Hash(0, amount) in v.sessions && v.sessions[Hash(0, amount)].status.Success? && v.sessions[Hash(0, amount)].fee == fee
  {
    var a, f := CeilDiv(amount, w.scale), CeilDiv(fee, w.scale);
    CeilLeast(amount, w.scale, a);
    CeilLeast(fee, w.scale, f);
    Adds(a, f, w.scale);
    hide CeilDiv;
  }

  lemma Settles(w: World, amount: nat, fee: nat)
    requires w.scale > 0 && Units(amount, fee, w.scale) < U64 && w.outstanding == 0
      && w.melts == map[0 := Melt(Hash(0, amount), CeilDiv(fee, w.scale), Units(amount, fee, w.scale), Stuck)]
    requires Hash(0, amount) in w.sessions && w.sessions[Hash(0, amount)].status.Success? && w.sessions[Hash(0, amount)].fee == fee
    ensures var v := Return(Check(w, 0, true), 0);
      v.scale == w.scale && v.balance == w.balance && v.outstanding == CeilDiv(amount, w.scale)
  {
    hide CeilDiv;
    var u := Check(w, 0, true);
    assert u.melts[0].phase == Returning(StatePaid(CeilDiv(fee, w.scale)), 0);
  }

  lemma NoCheck(w: World, e: Event, amount: nat, fee: nat)
    requires !e.ECheck?
    ensures CheckIs(w, e, amount, fee)
  {
  }

  lemma FundingSteps(n: nat, scale: nat, amount: nat, fee: nat)
    requires scale > 0 && n < U64
    ensures ChecksOnly(Fresh(scale, 0), Funding(n), amount, fee) && Run(Fresh(scale, 0), Funding(n)) == Deposited(n, scale)
  {
    var w := Fresh(scale, 0);
    assert Run(w, []) == w && ChecksOnly(w, [], amount, fee);
    Deposits(w, n);
    hide Run, ChecksOnly, CheckIs, OpenInvoice, MoveInvoice, Credit, Deposited, BeginMelt, Lookup, Send, MoveSession, PollOnce, TimeOut, Return, Check, Retry;
    var e0, e1, e2 := EOpen(0, n), EMove(0, Paid), ECredit(0);
    assert [] + [e0] == [e0];
    NoCheck(w, e0, amount, fee);
    NoCheck(Step(w, e0), e1, amount, fee);
    NoCheck(Step(Step(w, e0), e1), e2, amount, fee);
    RunMore(w, [], e0, amount, fee);
    RunMore(w, [e0], e1, amount, fee);
    RunMore(w, [e0] + [e1], e2, amount, fee);
  }

  lemma DispatchedSteps(amount: nat, fee: nat, scale: nat)
    requires scale > 0 && Units(amount, fee, scale) < U64
    ensures var w, es := Fresh(scale, 0), Dispatched(amount, fee, scale);
      ChecksOnly(w, es, amount, fee) && Run(w, es).scale == scale && Waiting(Run(w, es), amount, fee)
  {
    var w, n := Fresh(scale, 0), Units(amount, fee, scale);
    FundingSteps(n, scale, amount, fee);
    var d := Deposited(n, scale);
    Dispatches(d, amount, fee);
    hide Run, ChecksOnly, CheckIs, CeilDiv, Units, Funding, Deposited, OpenInvoice, MoveInvoice, Credit, BeginMelt, Lookup, Send, MoveSession, PollOnce,
      TimeOut, Return, Check, Retry, Waiting;
    var e3, e4, e5 := EBegin(0, Hash(0, amount), CeilDiv(fee, scale), n), ELookup(0, true), ESend(0, true, false);
    NoCheck(d, e3, amount, fee);
    NoCheck(Step(d, e3), e4, amount, fee);
    NoCheck(Step(Step(d, e3), e4), e5, amount, fee);
    RunMore(w, Funding(n), e3, amount, fee);
    RunMore(w, Funding(n) + [e3], e4, amount, fee);
    RunMore(w, Funding(n) + [e3] + [e4], e5, amount, fee);
    ScaleStays(d, e3);
    ScaleStays(Step(d, e3), e4);
    ScaleStays(Step(Step(d, e3), e4), e5);
  }

  lemma LosingSteps(amount: nat, fee: nat, scale: nat)
    requires scale > 0 && Units(amount, fee, scale) < U64
    ensures var w, es := Fresh(scale, 0), LosingRun(amount, fee, scale);
      && ChecksOnly(w, es, amount, fee) && Run(w, es).scale == scale && Run(w, es).outstanding == CeilDiv(amount, scale)
      && Run(w, es).balance + amount + fee == ToBase(Units(amount, fee, scale), scale)
  {
    hide Run, ChecksOnly, CeilDiv, ToBase, Units, Dispatched, MoveSession, Check, Return;
    var w, h, es := Fresh(scale, 0), Hash(0, amount), Dispatched(amount, fee, scale);
    var e6, e7, e8 := ESession(h, Success, fee), ECheck(0, true), EReturn(0);
    DispatchedSteps(amount, fee, scale);
    var p := Run(w, es);
    Pays(p, amount, fee);
    Settles(MoveSession(p, h, Success, fee), amount, fee);
    RunMore(w, es, e6, amount, fee);
    RunMore(w, es + [e6], e7, amount, fee);
    RunMore(w, es + [e6] + [e7], e8, amount, fee);
  }

  /** Checks that settle payments of one amount and fee are harmless in every run exactly when the
      rounded fee covers the amount. */
  lemma CheckIsSafe(amount: nat, fee: nat, scale: nat)
    requires scale > 0 && Units(amount, fee, scale) < U64
    ensures (forall balance: nat, es :: ChecksOnly(Fresh(scale, balance), es, amount, fee) ==> SolventNow(Run(Fresh(scale, balance), es)))
        <==> CoveredByFee(amount, fee, scale)
  {
    if CoveredByFee(amount, fee, scale) {
      forall balance: nat, es | ChecksOnly(Fresh(scale, balance), es, amount, fee) ensures SolventNow(Run(Fresh(scale, balance), es)) {
        OnlyCovered(scale, balance, es, amount, fee);
        MintIsSolvent(scale, balance, es);
      }
    } else {
      LosingSteps(amount, fee, scale);
      CheckUndercharges(amount, fee, scale);
      Adds(CeilDiv(amount, scale), CeilDiv(fee, scale), scale);
      hide Run, ChecksOnly, LosingRun, CeilDiv, CoveredByFee, ToBase;
      assert !SolventNow(Run(Fresh(scale, 0), LosingRun(amount, fee, scale)));
    }
  }
}
