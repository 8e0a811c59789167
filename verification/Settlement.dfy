/** An attendee, the relay and a vendor side by side: what the attendee sends reaches the relay as the
    text its wallet stored, and what the vendor reads is what the relay answers. Every settlement
    spends a payload that one delivery stored for that very order, and a repeated delivery of one
    payment never conflicts with itself. */
module Settlements {
  import opened Ecash
  import opened MintLedger
  import opened MarketRecords
  import opened MarketSteps
  import opened MarketInvariant
  import opened MarketRuns
  import opened MarketHistory
  import opened MarketTheorems
  import opened MarketOutcomes
  import J = CanonicalJson
  import R = Relay
  import P = RelayProofs

  // ---- one payload, seen from both sides ----

  /** Texts as numbers, injectively: the market's identifiers, secrets and bytes. */
  function Number(t: J.Text): nat {
    if t == [] then 0 else t[0] + 1 + 65537 * Number(t[1..])
  }

  lemma {:induction false} NumberInjective(s: J.Text, t: J.Text)
    requires Number(s) == Number(t)
    ensures s == t
  {
    if s != [] && t != [] {
      var a: nat, b: nat := s[0], t[0];
      Digits(a + 1, Number(s[1..]), b + 1, Number(t[1..]));
      NumberInjective(s[1..], t[1..]);
      assert s == [s[0]] + s[1..] && t == [t[0]] + t[1..];
    }
  }

  lemma Digits(a: nat, m: nat, b: nat, n: nat)
    requires a < 65537 && b < 65537 && a + 65537 * m == b + 65537 * n
    ensures a == b && m == n
  {
  }

  const SECRET: J.Text := [115, 101, 99, 114, 101, 116]

  /** The secret of a proof object. */
  function SecretOf(j: J.Json): nat {
    var v := J.Meaning(j);
    if v.VObj? && SECRET in v.fields && v.fields[SECRET].VStr? then Number(v.fields[SECRET].text) else 0
  }

  function CoinsOf(ps: seq<R.Proof>): seq<Coin> {
    if ps == [] then [] else CoinsOf(ps[..|ps| - 1]) + [Coin(SecretOf(ps[|ps| - 1].json), ps[|ps| - 1].amount)]
  }

  /** What the market makes of a payload the relay hands out. */
  function Seen(p: R.Payload): Payload { Payload(Number(p.id), CoinsOf(p.proofs), Number(J.Print(R.AsJson(p)))) }

  lemma {:induction false} CoinsTotal(ps: seq<R.Proof>)
    ensures Total(CoinsOf(ps)) == R.Sum(ps)
  {
    if ps != [] {
      CoinsTotal(ps[..|ps| - 1]);
      TotalConcat(CoinsOf(ps[..|ps| - 1]), [Coin(SecretOf(ps[|ps| - 1].json), ps[|ps| - 1].amount)]);
    }
  }

  // ---- joint runs ----

  /** A step of the relay; a step of the vendor's market other than the end of a read; the end of a
      read with the answer the relay gives at that moment; a step of the attendee's market other than
      a send the relay accepts; a send that reaches the relay, whose answer may be lost. */
  datatype JointEvent =
    | OnRelay(op: R.Op)
    | OnMarket(event: Event)
    | Fetch(read: J.Text, start: int, end: int, now: nat, wellformed: bool, sameMint: bool, gone: bool, locks: map<nat, nat>)
    | OnPayer(payerEvent: Event)
    | Posted(write: J.Text, body: R.Payload, begun: int, done: int, heard: bool)

  datatype Settled = Settled(order: nat, inputs: seq<Coin>)

  /** Relay operation `op` was a delivery of the attendee's payment `id`. */
  datatype Post = Post(op: nat, id: nat)

  datatype Joint = Joint(ops: seq<R.Op>, events: seq<Event>, settled: seq<Settled>, payer: seq<Event>, posts: seq<Post>)

  function Market(j: Joint): World { Run(START, j.events) }

  function Payer(j: Joint): World { Run(START, j.payer) }

  function Translate(a: R.Answer, wellformed: bool, sameMint: bool, gone: bool, locks: map<nat, nat>): ReadAnswer {
    if a.Contents? then Got(Seen(a.payload), wellformed, sameMint, locks) else if a.Waiting? then Empty else ReadFailed(gone)
  }

  /** The market event a joint event amounts to. */
  function MarketPart(j: Joint, e: JointEvent): Option<Event> {
    match e
    case OnMarket(event) => if event.OfOrder? && event.order.Read? && event.order.read.Got? then None else Some(event)
    case Fetch(c, s, t, now, ok, same, gone, locks) =>
      Some(OfOrder(Read(Translate(R.Step(R.Run(j.ops), R.Op.Read(c, s, t)).1, ok, same, gone, locks), now)))
    case _ => None
  }

  /** The relay parsed `p` out of the JSON text it received. */
  predicate JsonRead(p: R.Payload) {
    forall i :: 0 <= i < |p.proofs| ==> p.proofs[i].json.Obj? && J.Wellformed(p.proofs[i].json)
  }

  /** The request in flight: the stored text, at the address that names the write capability. */
  predicate Posts(w: World, write: J.Text, p: R.Payload) {
    && w.task.DeliverCall? && w.task.id in w.snap.payments && w.snap.payments[w.task.id].CompleteDelivery()
    && w.snap.payments[w.task.id].payload == Some(Seen(p)) && w.snap.payments[w.task.id].deliveryUrl == Some(Number(write))
    && JsonRead(p)
  }

  /** Status 202 for a stored or repeated payload, an error that forbids a retry otherwise. */
  function Heard(a: R.Answer, heard: bool): DeliverAnswer {
    if !heard then Refused(true) else if a in {R.Stored, R.Duplicate} then Accepted else Refused(false)
  }

  function PayerPart(j: Joint, e: JointEvent): Option<Event> {
    match e
    case OnPayer(event) => if event.OfPayment? && event.pay.Send? && event.pay.delivered.Accepted? then None else Some(event)
    case Posted(c, p, s, t, heard) =>
      if Posts(Payer(j), c, p) then Some(OfPayment(Send(Heard(R.Step(R.Run(j.ops), R.Deliver(c, p, s, t)).1, heard)))) else None
    case _ => None
  }

  function RelayPart(j: Joint, e: JointEvent): seq<R.Op> {
    match e
    case OnRelay(op) => [op]
    case OnMarket(_) => []
    case Fetch(c, s, t, _, _, _, _, _) => [R.Op.Read(c, s, t)]
    case OnPayer(_) => []
    case Posted(c, p, s, t, _) => if Posts(Payer(j), c, p) then [R.Deliver(c, p, s, t)] else []
  }

  function PostPart(j: Joint, e: JointEvent): seq<Post> {
    if e.Posted? && Posts(Payer(j), e.write, e.body) then [Post(|j.ops|, Payer(j).task.id)] else []
  }

  /** A settlement is logged with the inputs its order had stored. */
  function NewlySettled(w: World, e: Event): seq<Settled> {
    var v := Step(w, e);
    if |v.credits| > |w.credits| && v.credits[|w.credits|].source.Vend? then
      var id := v.credits[|w.credits|].source.id;
      [Settled(id, if id in w.snap.orders then InputsOf(w.snap.orders[id].incomingSwap) else [])]
    else []
  }

  function More(events: seq<Event>, part: Option<Event>): seq<Event> { if part.Some? then events + [part.value] else events }

  function JointStep(j: Joint, e: JointEvent): Joint {
    var part := MarketPart(j, e);
    Joint(j.ops + RelayPart(j, e), More(j.events, part),
          if part.Some? then j.settled + NewlySettled(Market(j), part.value) else j.settled,
          More(j.payer, PayerPart(j, e)), j.posts + PostPart(j, e))
  }

  function JointRun(es: seq<JointEvent>): Joint {
    if es == [] then Joint([], [], [], [], []) else JointStep(JointRun(es[..|es| - 1]), es[|es| - 1])
  }

  // ---- where a token comes from ----

  /** One delivery, stored by the relay for this order, carries exactly these coins, and they sum to
      the amount the order was registered with. */
  predicate FromDelivery(ops: seq<R.Op>, id: nat, coins: seq<Coin>) {
    exists i :: 0 <= i < |ops| && DeliveredBy(ops, i, id, coins)
  }

  predicate DeliveredBy(ops: seq<R.Op>, i: nat, id: nat, coins: seq<Coin>) {
    && i < |ops| && ops[i].Deliver? && var o := R.Sha256(ops[i].payload.id);
    && P.StoredAt(ops, i, o) && o in R.Run(ops[..i]) && R.Run(ops[..i])[o].amount == Total(coins)
    && Number(ops[i].payload.id) == id && CoinsOf(ops[i].payload.proofs) == coins
  }

  lemma DeliveryStays(ops: seq<R.Op>, more: seq<R.Op>, id: nat, coins: seq<Coin>)
    requires FromDelivery(ops, id, coins)
    ensures FromDelivery(ops + more, id, coins)
  {
    hide R.Run, R.Step;
    var i :| 0 <= i < |ops| && DeliveredBy(ops, i, id, coins);
    assert (ops + more)[..i] == ops[..i];
    assert DeliveredBy(ops + more, i, id, coins);
  }

  /** Every token and every stored swap of an order came out of such a delivery. */
  predicate TokensDelivered(ops: seq<R.Op>, orders: map<nat, Order>) {
    forall id :: id in orders ==>
      && (orders[id].incomingToken.Some? ==> FromDelivery(ops, id, orders[id].incomingToken.value))
      && (orders[id].incomingSwap.Some? ==> FromDelivery(ops, id, orders[id].incomingSwap.value.inputs))
  }

  lemma TokensStay(ops: seq<R.Op>, more: seq<R.Op>, orders: map<nat, Order>)
    requires TokensDelivered(ops, orders)
    ensures TokensDelivered(ops + more, orders)
  {
    hide FromDelivery;
    forall id | id in orders
      ensures orders[id].incomingToken.Some? ==> FromDelivery(ops + more, id, orders[id].incomingToken.value)
      ensures orders[id].incomingSwap.Some? ==> FromDelivery(ops + more, id, orders[id].incomingSwap.value.inputs)
    {
      if orders[id].incomingToken.Some? { DeliveryStays(ops, more, id, orders[id].incomingToken.value); }
      if orders[id].incomingSwap.Some? { DeliveryStays(ops, more, id, orders[id].incomingSwap.value.inputs); }
    }
  }

  /** Steps other than a read only pass a token on to its swap. */
  lemma TokensPass(ops: seq<R.Op>, os: map<nat, Order>, ps: map<nat, Order>)
    requires TokensDelivered(ops, os) && TokensKeep(os, ps)
    ensures TokensDelivered(ops, ps)
  {
    hide FromDelivery;
  }

  /** The read of a payload brings its coins into the order it names, and into no other. */
  predicate ReadKeeps(os: map<nat, Order>, ps: map<nat, Order>, answer: ReadAnswer) {
    forall id :: id in ps ==>
      && id in os
      && (TokenKeeps(os[id], ps[id])
          || (answer.Got? && answer.payload.orderId == id && ps[id] == os[id].(state := ps[id].state, incomingToken := Some(answer.payload.proofs))))
  }

  predicate ReadKept(w: World, v: World, answer: ReadAnswer) { ReadKeeps(w.snap.orders, v.snap.orders, answer) }

  lemma ReadPut(w: World, id: nat, o: Order, next: Task, answer: ReadAnswer)
    requires id in w.snap.orders && o.amount == w.snap.orders[id].amount && TokenKeeps(w.snap.orders[id], o)
    ensures ReadKept(w, Go(PutOrder(w, id, o), next), answer) && ReadKept(w, Go(w, next), answer)
  {
    hide OrdersKeep, TokensKeep;
  }

  lemma ReadLabel(w: World, id: nat, state: OrderState, answer: ReadAnswer)
    requires id in w.snap.orders
    ensures ReadKept(w, LabelOrder(w, id, state, Idle), answer)
  {
    hide OrdersKeep, TokensKeep, OrderOnly;
  }

  lemma StoreKeeps(w: World, id: nat, token: seq<Coin>, answer: ReadAnswer)
    requires id in w.snap.orders && answer.Got? && answer.payload.orderId == id && answer.payload.proofs == token
    ensures ReadKept(w, StoreToken(w, id, token), answer)
  {
    var taken := w.snap.orders[id].(state := PayloadReceived, incomingToken := Some(token));
    hide StoreToken, LabelOrder, Order.Valid;
    TokenStored(w, id, token, taken);
    ReadLabel(w, id, OrderRecoverable, answer);
  }

  lemma AcceptKeeps(w: World, id: nat, payload: Payload, wellformed: bool, sameMint: bool, locks: map<nat, nat>)
    requires id in w.snap.orders
    ensures ReadKept(w, AcceptRead(w, id, payload, wellformed, sameMint, locks), Got(payload, wellformed, sameMint, locks))
  {
    var tags, answer := Foreign(w.tags, Secrets(payload.proofs), locks), Got(payload, wellformed, sameMint, locks);
    assert ReadKept(w, StoreToken(w.(tags := tags), id, payload.proofs), answer)
       == ReadKept(w.(tags := tags), StoreToken(w.(tags := tags), id, payload.proofs), answer) by { hide Foreign, StoreToken; }
    hide Foreign, StoreToken, LabelOrder, Secrets, ReadKept;
    ReadLabel(w, id, OrderRecoverable, answer);
    ReadLabel(w, id, Rejected, answer);
    if payload.orderId == id { StoreKeeps(w.(tags := tags), id, payload.proofs, answer); }
  }

  lemma ReadTokens(w: World, answer: ReadAnswer, now: nat)
    ensures ReadKept(w, FinishRead(w, answer, now), answer)
  {
    assert ReadKept(w, w, answer);
    hide AcceptRead, Order.Valid, ReadKept, Go, PutOrder;
    if w.task.ReadCall? && w.task.id in w.snap.orders && w.snap.orders[w.task.id].readCapability.Some? {
      var id, o := w.task.id, w.snap.orders[w.task.id];
      ReadPut(w, id, o.(state := OrderRecoverable), Idle, answer);
      ReadPut(w, id, Expired(o), Idle, answer);
      match answer
      case Got(payload, wellformed, sameMint, locks) => AcceptKeeps(w, id, payload, wellformed, sameMint, locks);
      case _ =>
    }
  }

  lemma TokensRead(ops: seq<R.Op>, os: map<nat, Order>, ps: map<nat, Order>, answer: ReadAnswer)
    requires TokensDelivered(ops, os) && ReadKeeps(os, ps, answer)
    requires answer.Got? ==> FromDelivery(ops, answer.payload.orderId, answer.payload.proofs)
    ensures TokensDelivered(ops, ps)
  {
    hide FromDelivery;
  }

  /** What the relay hands out was delivered for the order it names. */
  lemma AnswerDelivered(ops: seq<R.Op>, c: J.Text, start: int, end: int)
    requires R.Step(R.Run(ops), R.Op.Read(c, start, end)).1.Contents?
    ensures var p := R.Step(R.Run(ops), R.Op.Read(c, start, end)).1.payload; FromDelivery(ops, Number(p.id), CoinsOf(p.proofs))
  {
    var all := ops + [R.Op.Read(c, start, end)];
    assert all[..|ops|] == ops;
    var found := P.Reached(R.Run(ops), all[|ops|]);
    var o := found.value;
    P.ReadsTheStored(all, |ops|, o);
    var p := R.Step(R.Run(ops), R.Op.Read(c, start, end)).1.payload;
    hide R.Run, R.Step, R.DigestOf, R.Parsed;
    var i :| 0 <= i < |ops| && P.StoredAt(ops, i, o) && o in R.Run(ops[..i]) && R.Run(ops)[o].payload == Some(ops[i].payload);
    P.StoredRow(ops, i, o);
    CoinsTotal(p.proofs);
    assert DeliveredBy(ops, i, Number(p.id), CoinsOf(p.proofs));
  }

  // ---- the joint invariant ----

  /** The orders that were paid in, in the order of the credits. */
  function Credits(cs: seq<Credit>): seq<nat> {
    if cs == [] then []
    else Credits(cs[..|cs| - 1]) + (if cs[|cs| - 1].source.Vend? then [cs[|cs| - 1].source.id] else [])
  }

  function Orders(ss: seq<Settled>): seq<nat> { seq(|ss|, i requires 0 <= i < |ss| => ss[i].order) }

  predicate JointOk(j: Joint) {
    && TokensDelivered(j.ops, Market(j).snap.orders)
    && (forall k :: 0 <= k < |j.settled| ==> FromDelivery(j.ops, j.settled[k].order, j.settled[k].inputs))
    && Credits(Market(j).credits) == Orders(j.settled)
  }

  lemma NextMarket(events: seq<Event>, e: Event)
    ensures Run(START, events + [e]) == Step(Run(START, events), e)
  {
    assert (events + [e])[..|events + [e]| - 1] == events;
  }

  lemma CreditsGrow(w: World, v: World)
    requires v.credits == w.credits || NewCredit(w, v)
    ensures Credits(v.credits)
         == Credits(w.credits) + (if v.credits != w.credits && v.credits[|w.credits|].source.Vend? then [v.credits[|w.credits|].source.id] else [])
  {
    if v.credits != w.credits { assert v.credits[..|v.credits| - 1] == w.credits; }
  }

  lemma StepCredits(w: World, e: Event)
    ensures Step(w, e).credits == w.credits || NewCredit(w, Step(w, e))
  {
    StepHistory(w, e);
    hide Step, MintKeeps, MeltsFrom, OutsKeep, OrdersKeep, TokensKeep, PledgesKeep, LossesStay, NewCredit, Secrets, Total;
  }

  /** The settlement a market step adds to the log spends what its order had stored. */
  lemma SettledStored(w: World, e: Event)
    requires Inv(w)
    ensures Credits(Step(w, e).credits) == Credits(w.credits) + Orders(NewlySettled(w, e))
    ensures forall k :: 0 <= k < |NewlySettled(w, e)| ==>
      var s := NewlySettled(w, e)[k]; s.order in w.snap.orders && w.snap.orders[s.order].incomingSwap.Some? && s.inputs == w.snap.orders[s.order].incomingSwap.value.inputs
  {
    StepCredits(w, e);
    NewSettledOf(w, e);
    hide Inv, Step, MintKeeps, MeltsFrom, OutsKeep, OrdersKeep, TokensKeep, PledgesKeep, Secrets, Total, Credits;
    CreditsGrow(w, Step(w, e));
  }

  lemma MarketTokens(ops: seq<R.Op>, w: World, e: Event)
    requires TokensDelivered(ops, w.snap.orders)
    requires e.OfOrder? && e.order.Read? && e.order.read.Got? ==> FromDelivery(ops, e.order.read.payload.orderId, e.order.read.payload.proofs)
    ensures TokensDelivered(ops, Step(w, e).snap.orders)
  {
    hide TokensDelivered, FromDelivery, ReadKeeps;
    if e.OfOrder? && e.order.Read? {
      ReadTokens(w, e.order.read, e.order.now);
      TokensRead(ops, w.snap.orders, FinishRead(w, e.order.read, e.order.now).snap.orders, e.order.read);
      hide FinishRead;
    } else {
      StepHistory(w, e);
      hide Step, MintKeeps, MeltsFrom, OutsKeep, OrdersKeep, TokensKeep, LogsGrow;
      TokensPass(ops, w.snap.orders, Step(w, e).snap.orders);
    }
  }

  /** The payload a joint step brings to the market was delivered. */
  lemma PartDelivered(j: Joint, e: JointEvent)
    requires MarketPart(j, e).Some?
    ensures var event := MarketPart(j, e).value;
      event.OfOrder? && event.order.Read? && event.order.read.Got? ==> FromDelivery(j.ops, event.order.read.payload.orderId, event.order.read.payload.proofs)
  {
    hide FromDelivery, R.Run, R.Step;
    if e.Fetch? && R.Step(R.Run(j.ops), R.Op.Read(e.read, e.start, e.end)).1.Contents? { AnswerDelivered(j.ops, e.read, e.start, e.end); }
  }

  lemma SettledStay(ops: seq<R.Op>, more: seq<R.Op>, settled: seq<Settled>)
    requires forall k :: 0 <= k < |settled| ==> FromDelivery(ops, settled[k].order, settled[k].inputs)
    ensures forall k :: 0 <= k < |settled| ==> FromDelivery(ops + more, settled[k].order, settled[k].inputs)
  {
    hide FromDelivery;
    forall k | 0 <= k < |settled| ensures FromDelivery(ops + more, settled[k].order, settled[k].inputs) {
      DeliveryStays(ops, more, settled[k].order, settled[k].inputs);
    }
  }

  lemma NewDelivered(ops: seq<R.Op>, w: World, e: Event)
    requires Inv(w) && TokensDelivered(ops, w.snap.orders)
    ensures forall k :: 0 <= k < |NewlySettled(w, e)| ==> FromDelivery(ops, NewlySettled(w, e)[k].order, NewlySettled(w, e)[k].inputs)
  {
    SettledStored(w, e);
    hide Inv, FromDelivery, NewlySettled, Credits, Orders;
  }

  lemma JointMarket(j: Joint, e: Event)
    requires JointOk(j) && Inv(Market(j))
    requires e.OfOrder? && e.order.Read? && e.order.read.Got? ==> FromDelivery(j.ops, e.order.read.payload.orderId, e.order.read.payload.proofs)
    ensures JointOk(j.(events := j.events + [e], settled := j.settled + NewlySettled(Market(j), e)))
  {
    hide Inv, FromDelivery, NewlySettled, Step, TokensDelivered, Credits;
    var w := Market(j);
    NextMarket(j.events, e);
    MarketTokens(j.ops, w, e);
    SettledStored(w, e);
    NewDelivered(j.ops, w, e);
    assert Orders(j.settled + NewlySettled(w, e)) == Orders(j.settled) + Orders(NewlySettled(w, e));
    hide Run;
  }

  lemma JointRelay(j: Joint, more: seq<R.Op>)
    requires JointOk(j)
    ensures JointOk(j.(ops := j.ops + more))
  {
    hide FromDelivery, TokensDelivered, Credits;
    TokensStay(j.ops, more, Market(j).snap.orders);
    SettledStay(j.ops, more, j.settled);
  }

  lemma OtherParts(j: Joint, payer: seq<Event>, posts: seq<Post>)
    requires JointOk(j)
    ensures JointOk(j.(payer := payer, posts := posts))
  {
    hide FromDelivery, TokensDelivered, Credits, Run;
  }

  lemma JointStepOk(j: Joint, e: JointEvent)
    requires JointOk(j) && Inv(Market(j))
    ensures JointOk(JointStep(j, e))
  {
    hide JointOk, Inv, NewlySettled, FromDelivery, PayerPart, PostPart, Run;
    var part := MarketPart(j, e);
    if part.Some? { PartDelivered(j, e); }
    hide MarketPart;
    var k := if part.Some? then j.(events := j.events + [part.value], settled := j.settled + NewlySettled(Market(j), part.value)) else j;
    if part.Some? { JointMarket(j, part.value); }
    JointRelay(k, RelayPart(j, e));
    OtherParts(k.(ops := k.ops + RelayPart(j, e)), More(j.payer, PayerPart(j, e)), j.posts + PostPart(j, e));
  }

  lemma {:induction false} JointRunOk(es: seq<JointEvent>)
    ensures JointOk(JointRun(es))
  {
    if es == [] {
      assert Run(START, []) == START;
    } else {
      var j := JointRun(es[..|es| - 1]);
      var part := MarketPart(j, es[|es| - 1]);
      hide JointOk, Inv, MarketPart, NewlySettled, Run, RelayPart, PayerPart, PostPart;
      JointRunOk(es[..|es| - 1]);
      Reached(j.events);
      JointStepOk(j, es[|es| - 1]);
    }
  }

  // ---- end to end ----

  lemma {:induction false} CreditsSources(cs: seq<Credit>, k: nat)
    requires k < |Credits(cs)|
    ensures exists i :: 0 <= i < |cs| && cs[i].source == Vend(Credits(cs)[k])
  {
    if k < |Credits(cs[..|cs| - 1])| {
      CreditsSources(cs[..|cs| - 1], k);
      var i :| 0 <= i < |cs| - 1 && cs[..|cs| - 1][i].source == Vend(Credits(cs)[k]);
      assert cs[i].source == Vend(Credits(cs)[k]);
    } else {
      assert cs[|cs| - 1].source == Vend(Credits(cs)[k]);
    }
  }

  lemma {:induction false} CreditsDistinct(cs: seq<Credit>, k: nat, l: nat)
    requires k < l < |Credits(cs)| && forall i, j :: 0 <= i < j < |cs| ==> cs[i].source != cs[j].source
    ensures Credits(cs)[k] != Credits(cs)[l]
  {
    var last := |cs| - 1;
    var before := Credits(cs[..last]);
    if l < |before| {
      CreditsDistinct(cs[..last], k, l);
    } else {
      CreditsSources(cs[..last], k);
      var i :| 0 <= i < last && cs[..last][i].source == Vend(before[k]);
      assert cs[i].source != cs[last].source;
    }
  }

  /** In every interleaving of attendees, relay, vendor and mint: an order settles at most once, and
      what its settlement spends are exactly the coins of one delivery that the relay stored for
      this order, which sum to the amount the order was registered with. */
  lemma SettledOnceFromOneDelivery(es: seq<JointEvent>, k: nat)
    requires k < |JointRun(es).settled|
    ensures var j := JointRun(es);
      && FromDelivery(j.ops, j.settled[k].order, j.settled[k].inputs)
      && forall l :: 0 <= l < |j.settled| && l != k ==> j.settled[l].order != j.settled[k].order
  {
    JointRunOk(es);
    var j := JointRun(es);
    Reached(j.events);
    var cs := Market(j).credits;
    assert forall a, b :: 0 <= a < b < |cs| ==> cs[a].source != cs[b].source;
    hide Inv, JointRun, Run, FromDelivery, TokensDelivered, Credits;
    forall l | 0 <= l < |j.settled| && l != k ensures j.settled[l].order != j.settled[k].order {
      assert Orders(j.settled)[l] == j.settled[l].order && Orders(j.settled)[k] == j.settled[k].order;
      if l < k { CreditsDistinct(cs, l, k); } else { CreditsDistinct(cs, k, l); }
    }
  }

  // ---- repeated delivery ----

  /** The posted operation delivered what the attendee's log says was sent. */
  predicate PostOk(ops: seq<R.Op>, sent: seq<Delivery>, p: Post) {
    && p.op < |ops| && ops[p.op].Deliver? && JsonRead(ops[p.op].payload)
    && Delivery(p.id, Number(ops[p.op].write), Seen(ops[p.op].payload)) in sent
  }

  predicate PostsOk(j: Joint) {
    && (forall k :: 0 <= k < |j.posts| ==> PostOk(j.ops, Payer(j).sent, j.posts[k]))
    && (forall k, l :: 0 <= k < l < |j.posts| ==> j.posts[k].op < j.posts[l].op)
  }

  lemma PostStays(ops: seq<R.Op>, ops': seq<R.Op>, sent: seq<Delivery>, sent': seq<Delivery>, p: Post)
    requires PostOk(ops, sent, p) && ops <= ops' && sent <= sent'
    ensures PostOk(ops', sent', p)
  {
    hide JsonRead, Seen;
  }

  lemma PayerGrows(j: Joint, e: JointEvent)
    ensures Payer(j).sent <= Payer(JointStep(j, e)).sent
    ensures e.Posted? && Posts(Payer(j), e.write, e.body) ==>
      Delivery(Payer(j).task.id, Number(e.write), Seen(e.body)) in Payer(JointStep(j, e)).sent
  {
    hide Posts, R.Run, R.Step, MarketPart, RelayPart, PostPart, NewlySettled;
    var part := PayerPart(j, e);
    if part.Some? {
      NextMarket(j.payer, part.value);
      StepHistory(Payer(j), part.value);
      if e.Posted? { PostSends(Payer(j), e.write, e.body, part.value.pay.delivered); }
    }
    hide Run, Step, MintKeeps, MeltsFrom, OutsKeep, OrdersKeep, TokensKeep, PledgesKeep;
  }

  lemma PostSends(w: World, write: J.Text, p: R.Payload, answer: DeliverAnswer)
    requires Posts(w, write, p)
    ensures Delivery(w.task.id, Number(write), Seen(p)) in Step(w, OfPayment(Send(answer))).sent
  {
    hide Seen, JsonRead, PaymentOnly;
  }

  lemma PostsStepOk(j: Joint, e: JointEvent)
    requires PostsOk(j)
    ensures PostsOk(JointStep(j, e))
  {
    PayerGrows(j, e);
    hide MarketPart, PayerPart, NewlySettled, Run, Seen, JsonRead;
    var k := JointStep(j, e);
    assert j.ops <= k.ops;
    forall l | 0 <= l < |k.posts| ensures PostOk(k.ops, Payer(k).sent, k.posts[l]) {
      if l < |j.posts| {
        PostStays(j.ops, k.ops, Payer(j).sent, Payer(k).sent, j.posts[l]);
      } else {
        assert k.ops[|j.ops|] == R.Deliver(e.write, e.body, e.begun, e.done);
        assert JsonRead(e.body) by { assert Posts(Payer(j), e.write, e.body); }
      }
    }
  }

  lemma {:induction false} PostsRunOk(es: seq<JointEvent>)
    ensures PostsOk(JointRun(es))
  {
    hide JointStep, Run;
    if es != [] {
      PostsRunOk(es[..|es| - 1]);
      hide PostsOk;
      PostsStepOk(JointRun(es[..|es| - 1]), es[|es| - 1]);
    }
  }

  lemma {:induction false} CoinsAt(ps: seq<R.Proof>, i: nat)
    requires i < |ps|
    ensures |CoinsOf(ps)| == |ps| && CoinsOf(ps)[i].amount == ps[i].amount
  {
    CoinsLength(ps);
    CoinsLength(ps[..|ps| - 1]);
    if i < |ps| - 1 { CoinsAt(ps[..|ps| - 1], i); }
  }

  lemma {:induction false} CoinsLength(ps: seq<R.Proof>)
    ensures |CoinsOf(ps)| == |ps|
  {
    if ps != [] { CoinsLength(ps[..|ps| - 1]); }
  }

  /** Two requests carrying one stored text are the same payload to the relay. */
  lemma SameText(p: R.Payload, q: R.Payload)
    requires Seen(p) == Seen(q) && JsonRead(p) && JsonRead(q) && R.Parsed(p)
    ensures R.Parsed(q) && R.DigestOf(p) == R.DigestOf(q)
  {
    NumberInjective(p.id, q.id);
    NumberInjective(J.Print(R.AsJson(p)), J.Print(R.AsJson(q)));
    hide J.Print, R.AsJson, Number, CoinsOf, J.Wellformed;
    CoinsLength(p.proofs);
    CoinsLength(q.proofs);
    forall i | 0 <= i < |q.proofs| ensures 0 < q.proofs[i].amount <= R.MAX_SAFE {
      CoinsAt(p.proofs, i);
      CoinsAt(q.proofs, i);
    }
  }

  /** A slot that lives on keeps its capabilities. */
  lemma SameSlot(ops: seq<R.Op>, i: nat, j: nat, o: R.Hash)
    requires R.Timely(ops) && i < j < |ops| && P.StoredAt(ops, i, o) && ops[j].Deliver? && ops[j].write == ops[i].write
    ensures o in R.Run(ops[..i])
    ensures o in R.Run(ops[..j]) && R.Run(ops[..j])[o].expiresAt == R.Run(ops[..i])[o].expiresAt ==> P.Written(R.Run(ops[..j]), ops[j]) == Some(o)
  {
    P.StoredRow(ops, i, o);
    P.SlotBetween(ops, i + 1, j, o);
    var t := R.Run(ops[..j]);
    assert R.UniqueCapabilities(t) && R.UniqueCapabilities(R.Run(ops[..i]));
    hide R.Run, R.Step, R.DigestOf, R.Parsed, R.TableOk;
  }

  /** Delivering is idempotent end to end, in every run of attendee, relay and vendor with lost
      answers and crashes: once the relay has stored one attempt of a payment, every later attempt of
      the same payment that reaches it while the slot lives is answered as a duplicate, or as closed
      once the slot has expired. */
  lemma RetriesAreDuplicates(es: seq<JointEvent>, a: nat, b: nat, o: R.Hash)
    requires var j := JointRun(es);
      && R.Timely(j.ops)
      && a < b < |j.posts| && j.posts[a].id == j.posts[b].id && P.StoredAt(j.ops, j.posts[a].op, o)
    ensures var j := JointRun(es); var x, y := j.posts[a].op, j.posts[b].op;
      && x < y < |j.ops| && o in R.Run(j.ops[..x])
      && (o in R.Run(j.ops[..y]) && R.Run(j.ops[..y])[o].expiresAt == R.Run(j.ops[..x])[o].expiresAt ==>
            R.AnswerAt(j.ops, y) == if R.Run(j.ops[..y])[o].state.Expired? then R.SlotClosed else R.Duplicate)
  {
    PostsRunOk(es);
    var j := JointRun(es);
    var x, y := j.posts[a].op, j.posts[b].op;
    assert PostOk(j.ops, Payer(j).sent, j.posts[a]) && PostOk(j.ops, Payer(j).sent, j.posts[b]);
    hide JointRun, R.Run, R.Step, Seen, JsonRead, PostsOk;
    SentAlike(j.payer, Delivery(j.posts[a].id, Number(j.ops[x].write), Seen(j.ops[x].payload)),
              Delivery(j.posts[b].id, Number(j.ops[y].write), Seen(j.ops[y].payload)));
    RetryAnswered(j.ops, x, y, o);
  }

  lemma SentAlike(payer: seq<Event>, d: Delivery, e: Delivery)
    requires d in Run(START, payer).sent && e in Run(START, payer).sent && d.id == e.id
    ensures d.url == e.url && d.payload == e.payload
  {
    hide Run;
    var sent := Run(START, payer).sent;
    var i :| 0 <= i < |sent| && sent[i] == d;
    var k :| 0 <= k < |sent| && sent[k] == e;
    SameBytes(payer, i, k);
  }

  lemma RetryAnswered(ops: seq<R.Op>, x: nat, y: nat, o: R.Hash)
    requires R.Timely(ops) && x < y < |ops| && P.StoredAt(ops, x, o) && ops[y].Deliver?
    requires Number(ops[x].write) == Number(ops[y].write) && Seen(ops[x].payload) == Seen(ops[y].payload)
      && JsonRead(ops[x].payload) && JsonRead(ops[y].payload)
    ensures o in R.Run(ops[..x])
    ensures o in R.Run(ops[..y]) && R.Run(ops[..y])[o].expiresAt == R.Run(ops[..x])[o].expiresAt ==>
      R.AnswerAt(ops, y) == if R.Run(ops[..y])[o].state.Expired? then R.SlotClosed else R.Duplicate
  {
    P.StoredRow(ops, x, o);
    NumberInjective(ops[x].write, ops[y].write);
    SameText(ops[x].payload, ops[y].payload);
    SameSlot(ops, x, y, o);
    hide R.Run, R.Step, R.DigestOf, R.Parsed, Seen, JsonRead, Number, P.StoredAt, R.AsJson, J.Meaning;
    if o in R.Run(ops[..y]) && R.Run(ops[..y])[o].expiresAt == R.Run(ops[..x])[o].expiresAt {
      P.OnePayload(ops, x, y, o);
      P.SameDigest(ops[x].payload, ops[y].payload);
    }
  }
}
