/** One joint run of attendee, relay and vendor from the very start: a payment is posted, its answer is
    lost, it is posted again and answered as a duplicate, and the vendor reads and settles it. The end
    of the file says what each side of any joint run hears of a post and of a read. */
module SettlementExamples {
  import opened Ecash
  import opened MintLedger
  import opened MarketRecords
  import opened MarketSteps
  import opened MarketRuns
  import opened MarketTheorems
  import opened MarketQuotes
  import opened MarketExamples
  import opened Settlements
  import J = CanonicalJson
  import R = Relay
  import P = RelayProofs

  // The order is any text the relay accepts as an identifier, and the two capabilities any two texts.

  const PROOF := R.Proof(1, J.Obj([J.Field(SECRET, J.Str([2]))]))

  /** One proof, of one unit, whose secret is the number 3. */
  function Body(order: J.Text): R.Payload { R.Payload(order, None, [], [], [PROOF]) }

  function Stored(order: J.Text): Payload { Payload(Number(order), [SENT], Number(J.Print(R.AsJson(Body(order))))) }

  predicate Identifies(order: J.Text) { 16 <= |order| <= 128 }

  lemma BodySeen(order: J.Text)
    requires Identifies(order)
    ensures Seen(Body(order)) == Stored(order) && JsonRead(Body(order)) && R.Parsed(Body(order)) && R.Sum(Body(order).proofs) == 1
  {
    var json := PROOF.json;
    assert J.DistinctKeys(json.fields) && J.Wellformed(json);
    assert json.fields[0].key == SECRET && J.Meaning(json.fields[0].value) == J.VStr([2]);
    assert [2][1..] == [] && Number([2]) == 3;
    assert SecretOf(json) == 3;
    assert [PROOF][..0] == [] && CoinsOf([]) == [] && [] + [SENT] == [SENT];
    assert R.Sum([]) == 0;
    hide R.AsJson, J.Print, SecretOf;
  }

  // ---- the relay ----

  function Register(order: J.Text, write: J.Text, read: J.Text): R.Op {
    R.Register(R.Registration(order, 1, [], [], [], 100, write, read), 1000, 0, 0)
  }

  function Deliver(order: J.Text, write: J.Text): R.Op { R.Deliver(write, Body(order), 0, 0) }

  function Look(read: J.Text): R.Op { R.Op.Read(read, 0, 0) }

  /** The slot of the order, before and after the delivery. */
  function Opened(write: J.Text, read: J.Text): R.Row { R.Row(R.Sha256(write), R.Sha256(read), 1, [], [], [], 100, R.Open, None, None, None) }

  function Filled(order: J.Text, write: J.Text, read: J.Text): R.Row {
    Opened(write, read).(state := R.SlotState.Delivered, payload := Some(Body(order)), digest := Some(R.DigestOf(Body(order))), deliveredAt := Some(0))
  }

  lemma RelayMore(ops: seq<R.Op>, op: R.Op)
    ensures R.Run(ops + [op]) == R.Step(R.Run(ops), op).0
  {
    assert (ops + [op])[..|ops|] == ops;
    hide R.Step;
  }

  lemma Registers(order: J.Text, write: J.Text, read: J.Text)
    requires write != read
    ensures R.Run([Register(order, write, read)]) == map[R.Sha256(order) := Opened(write, read)]
  {
    RelayMore([], Register(order, write, read));
    assert [] + [Register(order, write, read)] == [Register(order, write, read)];
  }

  lemma SlotFound(t: R.Table, order: J.Text, write: J.Text, read: J.Text, r: R.Row)
    requires R.TableOk(t) && t == map[R.Sha256(order) := r] && r.writeHash == R.Sha256(write) && r.readHash == R.Sha256(read)
    ensures R.ByWrite(t, R.Sha256(write)) == Some(R.Sha256(order)) && R.ByRead(t, R.Sha256(read)) == Some(R.Sha256(order))
  {
    hide R.TableOk;
    assert R.Sha256(order) in t;
  }

  lemma Stores(t: R.Table, order: J.Text, write: J.Text, read: J.Text)
    requires Identifies(order) && R.TableOk(t) && t == map[R.Sha256(order) := Opened(write, read)]
    ensures R.Step(t, Deliver(order, write)) == (map[R.Sha256(order) := Filled(order, write, read)], R.Stored)
    ensures P.Written(t, Deliver(order, write)) == Some(R.Sha256(order))
  {
    BodySeen(order);
    SlotFound(t, order, write, read, Opened(write, read));
    hide R.TableOk, R.DigestOf, R.Parsed, R.Sum, R.ByWrite, Seen, JsonRead, Stored;
    assert t[R.Sha256(order) := Filled(order, write, read)] == map[R.Sha256(order) := Filled(order, write, read)];
  }

  lemma Repeats(t: R.Table, order: J.Text, write: J.Text, read: J.Text)
    requires Identifies(order) && R.TableOk(t) && t == map[R.Sha256(order) := Filled(order, write, read)]
    ensures R.Step(t, Deliver(order, write)) == (t, R.Duplicate) && R.Step(t, Look(read)) == (t, R.Contents(Body(order)))
  {
    BodySeen(order);
    SlotFound(t, order, write, read, Filled(order, write, read));
    hide R.TableOk, R.DigestOf, R.Parsed, R.Sum, R.ByWrite, R.ByRead, Seen, JsonRead, Stored, Body;
    assert t[R.Sha256(order) := t[R.Sha256(order)]] == t;
  }

  function Ops(order: J.Text, write: J.Text, read: J.Text): seq<R.Op> {
    [Register(order, write, read)] + [Deliver(order, write)] + [Deliver(order, write)]
  }

  lemma RelayRuns(order: J.Text, write: J.Text, read: J.Text)
    requires Identifies(order) && write != read
    ensures var reg, del := Register(order, write, read), Deliver(order, write);
      && R.Step(R.Run([reg]), del).1 == R.Stored && P.Written(R.Run([reg]), del) == Some(R.Sha256(order))
      && R.Step(R.Run([reg] + [del]), del).1 == R.Duplicate && R.Step(R.Run(Ops(order, write, read)), Look(read)).1 == R.Contents(Body(order))
  {
    Registers(order, write, read);
    hide R.Run, R.Step, P.Written, Register, Deliver, Look, Opened, Filled;
    var reg, del := Register(order, write, read), Deliver(order, write);
    Stores(R.Run([reg]), order, write, read);
    RelayMore([reg], del);
    Repeats(R.Run([reg] + [del]), order, write, read);
    RelayMore([reg] + [del], del);
  }

  // ---- the attendee ----

  /** The answer was lost: the delivery ends without one and is resumed. */
  const AGAIN: seq<Event> := [OfPayment(EndDelivery(0))] + [OfPayment(ResumePay(0, true))] + [OfPayment(BeginDelivery)]

  const UNHEARD := OfPayment(Send(Refused(true)))

  lemma SendsAgain(w: World, p: Payload, url: nat)
    requires Sending(w, p, url)
    ensures Sending(StartDelivery(ResumePayment(FinishDelivery(MarketSteps.Deliver(w, Refused(true)), 0), 0, true)), p, url)
  {
    hide PaymentOnly;
  }

  lemma AgainSteps(w: World)
    ensures Run(w, AGAIN) == StartDelivery(ResumePayment(FinishDelivery(w, 0), 0, true))
  {
    hide Run, SafeRun, SafeEvent, FinishDelivery, ResumePayment, StartDelivery, AddStep, OutStep, OrderStep, SettleStep, MarketRuns.MintStep,
      CallSwap, RestoreSwap;
    RunOne(w, OfPayment(EndDelivery(0)));
    RunMore(w, [OfPayment(EndDelivery(0))], OfPayment(ResumePay(0, true)));
    RunMore(w, [OfPayment(EndDelivery(0))] + [OfPayment(ResumePay(0, true))], OfPayment(BeginDelivery));
  }

  lemma Unheard(w: World)
    ensures Step(w, UNHEARD) == MarketSteps.Deliver(w, Refused(true))
  {
    hide MarketSteps.Deliver;
  }

  /** What the attendee has done when it posts for the first and for the second time. */
  lemma PayerRuns(p: Payload, url: nat)
    requires p.proofs == [SENT]
    ensures var es := FUNDING + PayingRun(p.orderId, url, p.bytes);
      Sending(Run(START, es), p, url) && Sending(Run(START, es + [UNHEARD] + AGAIN), p, url)
  {
    hide Run, SafeRun, Sending, MarketSteps.Deliver, FinishDelivery, ResumePayment, StartDelivery, Step, PayingRun;
    var es := FUNDING + PayingRun(p.orderId, url, p.bytes);
    PreparedRun(p.orderId, url, p.bytes);
    RunMore(START, es, UNHEARD);
    Unheard(Run(START, es));
    RunAppend(START, es + [UNHEARD], AGAIN);
    AgainSteps(Run(START, es + [UNHEARD]));
    SendsAgain(Run(START, es), p, url);
  }

  // ---- the vendor ----

  const KEY: nat := 7

  const SETTLING := Swap(1, 0, [SENT], [Coin(9, 1)], [], [])

  function Charging(id: nat): seq<Event> {
    [OfMint(ForeignSign([SENT], map[3 := KEY]))] + [OfOrder(NewOrder(id, 1, 0, Keys(0, KEY), 0))] + [OfOrder(Registered(true))] + [OfOrder(Poll(id))]
  }

  function Taken(p: Payload): Event { OfOrder(MarketRuns.OrderEvent.Read(Got(p, true, true, map[]), 0)) }

  const RECEIVING: seq<Event> :=
    [OfOrder(Acked(true))] + [OfSettle(Settle(false, true, true))] + [OfSettle(TokenChecked(AllUnspent))] + [OfSettle(ReadySettle(SETTLING))]
      + [SwapSent(true, true)] + [OfSettle(EndSettle)]

  /** The order waits for its payment. */
  const CHARGED := Order(AwaitingPayment, 1, 0, Some(Keys(0, KEY)), Some(0), None, None, true, false)

  const HELD := CHARGED.(state := PayloadReceived, incomingToken := Some([SENT]))

  const CHECKED := HELD.(state := Validating, relayAcknowledged := true)

  /** The vendor's wallet, with the paid coin signed and locked to this order. */
  predicate Vends(w: World, id: nat, task: Task, o: Order) {
    && w.task == task && id in w.snap.orders && w.snap.orders[id] == o && w.credits == []
    && w.mint.signed == map[3 := 1] && w.mint.spent == {} == w.mint.locked
    && w.tags.Keys == {3} && w.tags[3].owner == Vendor(Some(KEY))
  }

  lemma OneCoin()
    ensures Secrets([SENT]) == {3} && Distinct([SENT]) && Amounts([SENT]) == map[3 := 1] && Total([SENT]) == 1 && Positive([SENT])
  {
    assert Secrets([SENT]) == {3} by { assert SENT in [SENT]; }
    assert [SENT][1..] == [];
    assert Amounts([]) == map[];
  }

  lemma Signs(w: World)
    requires w == START
    ensures var v := OthersSign(w, [SENT], map[3 := KEY]);
      v.mint.signed == map[3 := 1] && v.mint.spent == {} == v.mint.locked && v.tags.Keys == {3} && v.tags[3].owner == Vendor(Some(KEY))
      && v.snap == w.snap && v.task.Idle? && v.credits == []
  {
    OneCoin();
    hide Secrets, Distinct, Amounts;
  }

  lemma Charges(w: World, id: nat)
    requires w.mint.signed == map[3 := 1] && w.mint.spent == {} == w.mint.locked && w.tags.Keys == {3} && w.tags[3].owner == Vendor(Some(KEY))
      && w.snap.orders == map[] && w.task.Idle? && w.credits == []
    ensures Vends(PollOrder(FinishRegister(CreateOrder(w, id, 1, 0, Keys(0, KEY), 0), true), id), id, ReadCall(id), CHARGED)
  {
    hide OrderOnly, OrdersKeep, TokensKeep;
    var c := CreateOrder(w, id, 1, 0, Keys(0, KEY), 0);
    assert Vends(c, id, RegisterCall(id), Order(Registering, 1, 0, Some(Keys(0, KEY)), Some(0), None, None, false, false));
  }

  lemma TakesToken(w: World, id: nat, p: Payload)
    requires Vends(w, id, ReadCall(id), CHARGED) && p.orderId == id && p.proofs == [SENT]
    ensures Vends(FinishRead(w, Got(p, true, true, map[]), 0), id, AckCall(id), HELD)
  {
    OneCoin();
    hide Secrets, OrdersKeep, TokensKeep;
    assert HELD.Valid() && Foreign(w.tags, {3}, map[]) == w.tags;
  }

  lemma Acknowledges(w: World, id: nat)
    requires Vends(w, id, AckCall(id), HELD)
    ensures Vends(FinishAck(w, true), id, SettleStart(id), HELD.(relayAcknowledged := true))
  {
    hide OrderOnly, OrdersKeep, TokensKeep;
  }

  lemma Validates(w: World, id: nat)
    requires Vends(w, id, SettleStart(id), HELD.(relayAcknowledged := true))
    ensures Vends(FinishTokenCheck(StartSettle(w, false, true, true), AllUnspent), id, SwapPrepare(id), CHECKED)
  {
    OneCoin();
    hide Total, OrderOnly, OrdersKeep, TokensKeep;
  }

  lemma SwapFits()
    ensures SETTLING.Wellformed() && SwapValid(SETTLING) && Total(SETTLING.keep) == 1 && Secrets(SETTLING.keep) == {9} && SETTLING.Outputs() == SETTLING.keep
  {
    OneCoin();
    assert SETTLING.keep[1..] == [] && [Coin(9, 1)] + [] == [Coin(9, 1)];
    assert Secrets(SETTLING.keep) == {9} by { assert Coin(9, 1) in SETTLING.keep; }
  }

  lemma PreparesSwap(w: World, id: nat)
    requires Vends(w, id, SwapPrepare(id), CHECKED)
    ensures var v := PrepareSettle(w, SETTLING);
      v.task == SwapCall(VendJob(id)) && id in v.snap.orders && v.snap.orders[id].incomingSwap == Some(SETTLING) && v.mint == w.mint && v.credits == []
  {
    SwapFits();
    hide Total, Secrets, Swap.Wellformed, SwapValid, OrderOnly, OrdersKeep, TokensKeep, Retag, Distinct, Positive;
    assert LockedTo(w, KEY, [SENT]) && ReceiveSwap(w, SETTLING);
  }

  lemma Settles(v: World, id: nat)
    requires v.task == SwapCall(VendJob(id)) && id in v.snap.orders && v.snap.orders[id].incomingSwap == Some(SETTLING) && v.credits == []
    requires v.mint.signed == map[3 := 1] && v.mint.spent == {} == v.mint.locked
    ensures FinishSettle(CallSwap(v, true, true)).credits == [Credit(Vend(id), SETTLING.keep)]
  {
    SwapFits();
    hide Total, Secrets, Swap.Wellformed, SwapValid, OrderOnly, OrdersKeep, TokensKeep, ApplySwap, Retag, Distinct, Positive;
    assert CanSwap(v.mint, SETTLING);
  }

  lemma ChargingSteps(id: nat)
    ensures Run(START, Charging(id))
         == PollOrder(FinishRegister(CreateOrder(OthersSign(START, [SENT], map[3 := KEY]), id, 1, 0, Keys(0, KEY), 0), true), id)
  {
    hide Run, SafeRun, SafeEvent, OthersSign, CreateOrder, FinishRegister, PollOrder, PayStep, AddStep, OutStep, SettleStep, CallSwap, RestoreSwap;
    var e0, e1, e2, e3 := OfMint(ForeignSign([SENT], map[3 := KEY])), OfOrder(NewOrder(id, 1, 0, Keys(0, KEY), 0)), OfOrder(Registered(true)), OfOrder(Poll(id));
    RunOne(START, e0);
    RunMore(START, [e0], e1);
    RunMore(START, [e0] + [e1], e2);
    RunMore(START, [e0] + [e1] + [e2], e3);
  }

  lemma ReceivingSteps(w: World)
    ensures Run(w, RECEIVING)
         == FinishSettle(CallSwap(PrepareSettle(FinishTokenCheck(StartSettle(FinishAck(w, true), false, true, true), AllUnspent), SETTLING), true, true))
  {
    hide Run, SafeRun, SafeEvent, FinishAck, StartSettle, FinishTokenCheck, PrepareSettle, FinishSettle, CallSwap, PayStep, AddStep, OutStep,
      MarketRuns.MintStep, RestoreSwap;
    var e0, e1, e2 := OfOrder(Acked(true)), OfSettle(Settle(false, true, true)), OfSettle(TokenChecked(AllUnspent));
    var e3, e4, e5 := OfSettle(ReadySettle(SETTLING)), SwapSent(true, true), OfSettle(EndSettle);
    RunOne(w, e0);
    RunMore(w, [e0], e1);
    RunMore(w, [e0] + [e1], e2);
    RunMore(w, [e0] + [e1] + [e2], e3);
    RunMore(w, [e0] + [e1] + [e2] + [e3], e4);
    RunMore(w, [e0] + [e1] + [e2] + [e3] + [e4], e5);
  }

  lemma TakenStep(w: World, p: Payload)
    ensures Step(w, Taken(p)) == FinishRead(w, Got(p, true, true, map[]), 0)
  {
    hide FinishRead, PayStep, AddStep, OutStep, SettleStep, MarketRuns.MintStep, CallSwap, RestoreSwap;
  }

  lemma Receives(w: World, id: nat)
    requires Vends(w, id, AckCall(id), HELD)
    ensures Run(w, RECEIVING).credits == [Credit(Vend(id), SETTLING.keep)]
  {
    ReceivingSteps(w);
    Acknowledges(w, id);
    var c := FinishTokenCheck(StartSettle(FinishAck(w, true), false, true, true), AllUnspent);
    hide Run, FinishAck, StartSettle, FinishTokenCheck, PrepareSettle, FinishSettle, CallSwap;
    Validates(FinishAck(w, true), id);
    PreparesSwap(c, id);
    Settles(PrepareSettle(c, SETTLING), id);
  }

  lemma VendorRuns(id: nat, p: Payload)
    requires p.orderId == id && p.proofs == [SENT]
    ensures Run(START, Charging(id) + [Taken(p)] + RECEIVING).credits == [Credit(Vend(id), SETTLING.keep)]
  {
    ChargingSteps(id);
    Signs(START);
    hide Run, SafeRun, SafeEvent, Step, Vends, OthersSign, CreateOrder, FinishRegister, PollOrder, FinishRead, Taken, Charging;
    Charges(OthersSign(START, [SENT], map[3 := KEY]), id);
    RunMore(START, Charging(id), Taken(p));
    TakenStep(Run(START, Charging(id)), p);
    TakesToken(Run(START, Charging(id)), id, p);
    RunAppend(START, Charging(id) + [Taken(p)], RECEIVING);
    Receives(Run(START, Charging(id) + [Taken(p)]), id);
  }

  // ---- all three together ----

  function Payers(es: seq<Event>): seq<JointEvent> { seq(|es|, i requires 0 <= i < |es| => OnPayer(es[i])) }

  function Vendors(es: seq<Event>): seq<JointEvent> { seq(|es|, i requires 0 <= i < |es| => OnMarket(es[i])) }

  lemma JointMore(es: seq<JointEvent>, e: JointEvent)
    ensures JointRun(es + [e]) == JointStep(JointRun(es), e)
  {
    assert (es + [e])[..|es|] == es;
    hide JointStep;
  }

  lemma {:induction false} PayersRun(es: seq<JointEvent>, fs: seq<Event>)
    requires NoSend(fs)
    ensures JointRun(es + Payers(fs)) == JointRun(es).(payer := JointRun(es).payer + fs)
  {
    hide JointRun, NewlySettled, R.Run, R.Step;
    if fs == [] {
      assert es + Payers(fs) == es;
    } else {
      var last := |fs| - 1;
      PayersRun(es, fs[..last]);
      assert es + Payers(fs) == (es + Payers(fs[..last])) + [OnPayer(fs[last])];
      JointMore(es + Payers(fs[..last]), OnPayer(fs[last]));
      assert JointRun(es).payer + fs[..last] + [fs[last]] == JointRun(es).payer + fs;
    }
  }

  /** The vendor's steps leave the relay, the attendee and the posts alone. */
  predicate SameBut(j: Joint, k: Joint, events: seq<Event>) {
    k.ops == j.ops && k.payer == j.payer && k.posts == j.posts && k.events == j.events + events
  }

  lemma VendorMore(es: seq<JointEvent>, e: Event)
    requires NoRead([e])
    ensures SameBut(JointRun(es), JointRun(es + [OnMarket(e)]), [e])
  {
    hide JointRun, NewlySettled, R.Run, R.Step;
    JointMore(es, OnMarket(e));
    assert [e][0] == e;
  }

  lemma {:induction false} VendorsRun(es: seq<JointEvent>, fs: seq<Event>)
    requires NoRead(fs)
    ensures SameBut(JointRun(es), JointRun(es + Vendors(fs)), fs)
  {
    hide JointRun;
    if fs == [] {
      assert es + Vendors(fs) == es;
    } else {
      var last := |fs| - 1;
      VendorsRun(es, fs[..last]);
      assert es + Vendors(fs) == (es + Vendors(fs[..last])) + [OnMarket(fs[last])];
      VendorMore(es + Vendors(fs[..last]), fs[last]);
      assert JointRun(es).events + fs[..last] + [fs[last]] == JointRun(es).events + fs;
    }
  }

  /** The events of the attendee up to the first post. */
  function Paying(order: J.Text, write: J.Text): seq<Event> { FUNDING + PayingRun(Number(order), Number(write), Stored(order).bytes) }

  function Posting(order: J.Text, write: J.Text, read: J.Text): seq<JointEvent> {
    [OnRelay(Register(order, write, read))] + Payers(Paying(order, write)) + [Posted(write, Body(order), 0, 0, false)]
  }

  function Reposting(order: J.Text, write: J.Text, read: J.Text): seq<JointEvent> {
    Posting(order, write, read) + Payers(AGAIN) + [Posted(write, Body(order), 0, 0, true)]
  }

  function Fetches(read: J.Text): JointEvent { Fetch(read, 0, 0, 0, true, true, false, map[]) }

  function Together(order: J.Text, write: J.Text, read: J.Text): seq<JointEvent> {
    Reposting(order, write, read) + Vendors(Charging(Number(order))) + [Fetches(read)] + Vendors(RECEIVING)
  }

  predicate NoSend(es: seq<Event>) { forall i :: 0 <= i < |es| ==> !(es[i].OfPayment? && es[i].pay.Send?) }

  predicate NoRead(es: seq<Event>) { forall i :: 0 <= i < |es| ==> !(es[i].OfOrder? && es[i].order.Read?) }

  lemma NoSends(id: nat, url: nat, bytes: nat)
    ensures NoSend(FUNDING + PayingRun(id, url, bytes)) && NoSend(AGAIN)
  {
    assert NoSend(FUNDING) && NoSend(PayingRun(id, url, bytes));
    hide PayingRun;
  }

  lemma NoReads(id: nat)
    ensures NoRead(Charging(id)) && NoRead(RECEIVING)
  {
  }

  lemma PostsNow(w: World, order: J.Text, write: J.Text)
    requires Identifies(order) && Sending(w, Stored(order), Number(write))
    ensures Posts(w, write, Body(order)) && w.task.DeliverCall? && w.task.id == 0
  {
    BodySeen(order);
    hide Seen, JsonRead, Stored, Body, Number;
  }

  /** A post while the delivery is under way reaches the relay. */
  lemma PostMore(es: seq<JointEvent>, order: J.Text, write: J.Text, heard: bool)
    requires Posts(Payer(JointRun(es)), write, Body(order))
    ensures var j, k := JointRun(es), JointRun(es + [Posted(write, Body(order), 0, 0, heard)]);
      && k.ops == j.ops + [Deliver(order, write)] && k.events == j.events && k.posts == j.posts + [Post(|j.ops|, Payer(j).task.id)]
      && k.payer == j.payer + [OfPayment(Send(Heard(R.Step(R.Run(j.ops), Deliver(order, write)).1, heard)))]
  {
    hide JointRun, Posts, Payer, R.Run, R.Step, NewlySettled, Body, Heard;
    JointMore(es, Posted(write, Body(order), 0, 0, heard));
  }

  /** The attendee reaches the first post with the order registered and nothing else at the relay. */
  lemma BeforePost(order: J.Text, write: J.Text, read: J.Text)
    ensures JointRun([OnRelay(Register(order, write, read))] + Payers(Paying(order, write)))
         == Joint([Register(order, write, read)], [], [], Paying(order, write), [])
  {
    Begins(Register(order, write, read));
    NoSends(Number(order), Number(write), Stored(order).bytes);
    hide JointRun, Number, Stored, Register, NoSend, Payers, PayingRun;
    PayersRun([OnRelay(Register(order, write, read))], Paying(order, write));
    assert [] + Paying(order, write) == Paying(order, write);
  }

  lemma FirstPost(order: J.Text, write: J.Text, read: J.Text)
    requires Identifies(order) && write != read
    ensures var j := JointRun(Posting(order, write, read));
      && j.ops == [Register(order, write, read)] + [Deliver(order, write)] && j.events == []
      && j.payer == Paying(order, write) + [UNHEARD] && j.posts == [Post(1, 0)]
  {
    BeforePost(order, write, read);
    PayerRuns(Stored(order), Number(write));
    PostsNow(Run(START, Paying(order, write)), order, write);
    hide JointRun, Run, Posts, R.Run, R.Step, PayingRun, Stored, Number, Body, Register, Deliver, Payers, Paying, Sending;
    PostMore([OnRelay(Register(order, write, read))] + Payers(Paying(order, write)), order, write, false);
  }

  lemma Begins(op: R.Op)
    ensures JointRun([OnRelay(op)]) == Joint([op], [], [], [], [])
  {
    JointMore([], OnRelay(op));
    assert [] + [OnRelay(op)] == [OnRelay(op)];
  }

  lemma SecondPost(order: J.Text, write: J.Text, read: J.Text)
    requires Identifies(order) && write != read
    ensures var j := JointRun(Reposting(order, write, read)); j.ops == Ops(order, write, read) && j.events == [] && j.posts == [Post(1, 0), Post(2, 0)]
  {
    FirstPost(order, write, read);
    NoSends(Number(order), Number(write), Stored(order).bytes);
    PayersRun(Posting(order, write, read), AGAIN);
    PayerRuns(Stored(order), Number(write));
    PostsNow(Run(START, Paying(order, write) + [UNHEARD] + AGAIN), order, write);
    hide JointRun, Run, Posts, R.Run, R.Step, PayingRun, Stored, Number, Body, Register, Deliver, Payers, Paying, Posting, Sending;
    PostMore(Posting(order, write, read) + Payers(AGAIN), order, write, true);
  }

  /** A read brings the stored payload to the vendor. */
  lemma FetchMore(es: seq<JointEvent>, order: J.Text, read: J.Text)
    requires Identifies(order) && R.Step(R.Run(JointRun(es).ops), Look(read)).1 == R.Contents(Body(order))
    ensures var j, k := JointRun(es), JointRun(es + [Fetches(read)]);
      k.ops == j.ops + [Look(read)] && k.events == j.events + [Taken(Stored(order))] && k.posts == j.posts
  {
    BodySeen(order);
    hide JointRun, R.Run, R.Step, NewlySettled, Seen, Stored, Body;
    JointMore(es, Fetches(read));
  }

  lemma VendorPart(order: J.Text, write: J.Text, read: J.Text)
    requires Identifies(order) && write != read
    ensures var j := JointRun(Together(order, write, read));
      && j.ops == Ops(order, write, read) + [Look(read)] && j.posts == [Post(1, 0), Post(2, 0)]
      && j.events == Charging(Number(order)) + [Taken(Stored(order))] + RECEIVING
  {
    SecondPost(order, write, read);
    RelayRuns(order, write, read);
    NoReads(Number(order));
    hide JointRun, R.Run, R.Step, Reposting, Charging, Taken, Stored, Number, Body, Ops, Look, Fetches, Vendors;
    VendorsRun(Reposting(order, write, read), Charging(Number(order)));
    assert [] + Charging(Number(order)) == Charging(Number(order));
    var es := Reposting(order, write, read) + Vendors(Charging(Number(order)));
    FetchMore(es, order, read);
    VendorsRun(es + [Fetches(read)], RECEIVING);
  }

  lemma AllAtOnce(order: J.Text, write: J.Text, read: J.Text)
    ensures R.Timely(Ops(order, write, read) + [Look(read)])
    ensures var ops := Ops(order, write, read) + [Look(read)]; var reg, del := Register(order, write, read), Deliver(order, write);
      ops[..1] == [reg] && ops[..2] == [reg] + [del] && ops[1] == del == ops[2]
  {
    hide Body;
  }

  /** Settlements and duplicate deliveries happen: in this run the second post of one payment is answered
      as a duplicate, and the vendor settles the order with the coins of the first. */
  lemma DeliveredTwiceSettledOnce(order: J.Text, write: J.Text, read: J.Text)
    requires Identifies(order) && write != read
    ensures var j := JointRun(Together(order, write, read));
      && R.Timely(j.ops) && j.posts == [Post(1, 0), Post(2, 0)] && |j.ops| == 4
      && P.StoredAt(j.ops, 1, R.Sha256(order)) && R.AnswerAt(j.ops, 2) == R.Duplicate
      && |j.settled| == 1 && j.settled[0].order == Number(order)
  {
    VendorPart(order, write, read);
    RelayRuns(order, write, read);
    AllAtOnce(order, write, read);
    VendorRuns(Number(order), Stored(order));
    JointRunOk(Together(order, write, read));
    hide JointRun, R.Run, R.Step, Run, FromDelivery, TokensDelivered, Together, Charging, Taken, Stored, Number, Body, Register, Deliver, P.Written;
    var j := JointRun(Together(order, write, read));
    var cs := Market(j).credits;
    assert cs == [Credit(Vend(Number(order)), SETTLING.keep)] && cs[..0] == [];
    assert Settlements.Credits(cs) == [Number(order)] by { assert Settlements.Credits([]) == []; }
    assert Orders(j.settled) == [Number(order)] && Orders(j.settled)[0] == j.settled[0].order;
  }

  // ---- what each side learns ----

  /** A post that reaches the relay is answered to the attendee as accepted exactly when the relay stored it,
      or had stored it before, and the answer is heard; an answer that is lost invites another try, and
      any other one forbids it. */
  lemma PostHeard(j: Joint, write: J.Text, body: R.Payload, begun: int, done: int, heard: bool)
    requires Posts(Payer(j), write, body)
    ensures var k := JointStep(j, Posted(write, body, begun, done, heard));
      var answer := R.Step(R.Run(j.ops), R.Deliver(write, body, begun, done)).1;
      && k.ops == j.ops + [R.Deliver(write, body, begun, done)] && k.events == j.events
      && Payer(k).task == DeliverSeen(Payer(j).task.id, if !heard then Refused(true) else if answer.Stored? || answer.Duplicate? then Accepted else Refused(false))
  {
    var answer := R.Step(R.Run(j.ops), R.Deliver(write, body, begun, done)).1;
    var e := OfPayment(Send(Heard(answer, heard)));
    RunMore(START, j.payer, e);
    hide Run, Step, R.Run, R.Step, Seen, JsonRead, NewlySettled;
    SendSeen(Payer(j), e.pay.delivered);
    assert JointStep(j, Posted(write, body, begun, done, heard)).payer == j.payer + [e];
  }

  lemma SendSeen(w: World, answer: DeliverAnswer)
    requires w.task.DeliverCall? && w.task.id in w.snap.payments && w.snap.payments[w.task.id].CompleteDelivery()
    ensures Step(w, OfPayment(Send(answer))).task == DeliverSeen(w.task.id, answer)
  {
    hide PaymentOnly, AddStep, OutStep, OrderStep, SettleStep, MarketRuns.MintStep, CallSwap, RestoreSwap;
  }

  /** A read brings the vendor the relay's payload, the word that there is none yet, or a failure. */
  lemma FetchBrings(j: Joint, read: J.Text, start: int, end: int, now: nat, wellformed: bool, sameMint: bool, gone: bool, locks: map<nat, nat>)
    ensures var k := JointStep(j, Fetch(read, start, end, now, wellformed, sameMint, gone, locks));
      var answer := R.Step(R.Run(j.ops), R.Op.Read(read, start, end)).1;
      k.ops == j.ops + [R.Op.Read(read, start, end)] && k.payer == j.payer
      && k.events == j.events + [OfOrder(Read(match answer
           case Contents(payload) => Got(Seen(payload), wellformed, sameMint, locks)
           case Waiting => Empty
           case _ => ReadFailed(gone), now))]
  {
    hide R.Run, R.Step, Seen, NewlySettled;
  }
}
