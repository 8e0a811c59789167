/** The validator that runs over every load and every save, as the loops and early exits it is
    made of: it accepts exactly the valid snapshots. */
module MarketStorage {
  import opened Ecash
  import opened MarketRecords

  /** `proofs`: one pass, remembering the secrets seen so far. */
  method Proofs(cs: seq<Coin>) returns (ok: bool)
    ensures ok <==> ProofListValid(cs)
    ensures ok <==> (forall i :: 0 <= i < |cs| ==> cs[i].amount > 0) && forall i, j :: 0 <= i < j < |cs| ==> cs[i].secret != cs[j].secret
  {
    ProofRules(cs);
    var seen: set<nat> := {};
    for i := 0 to |cs|
      invariant seen == Secrets(cs[..i])
      invariant ProofListValid(cs[..i])
    {
      assert cs[..i + 1] == cs[..i] + [cs[i]];
      if cs[i].amount == 0 {
        assert cs[i] in cs;
        return false;
      }
      if cs[i].secret in seen {
        var c :| c in cs[..i] && c.secret == cs[i].secret;
        var j :| 0 <= j < i && cs[j] == c;
        assert !Distinct(cs);
        return false;
      }
      SecretsConcat(cs[..i], [cs[i]]);
      assert Secrets([cs[i]]) == {cs[i].secret};
      seen := seen + {cs[i].secret};
    }
    assert cs[..|cs|] == cs;
    return true;
  }

  lemma ProofRules(cs: seq<Coin>)
    ensures ProofListValid(cs) <==> (forall i :: 0 <= i < |cs| ==> cs[i].amount > 0) && forall i, j :: 0 <= i < j < |cs| ==> cs[i].secret != cs[j].secret
  {
    if forall i :: 0 <= i < |cs| ==> cs[i].amount > 0 {
      forall c | c in cs ensures c.amount > 0 { var i :| 0 <= i < |cs| && cs[i] == c; }
    } else {
      var i :| 0 <= i < |cs| && cs[i].amount == 0;
      assert cs[i] in cs;
    }
  }

  // ---- what each state asks of its record ----

  /** The token, the text and the address of a delivery. */
  predicate Deliverable(p: Payment) { p.token.Some? && p.payload.Some? && p.deliveryUrl.Some? }

  lemma PaymentRules(p: Payment)
    ensures p.Valid() <==>
      && p.amount >= 1 && (p.swap.Some? ==> SwapValid(p.swap.value))
      && (p.payload.Some? ==> p.payload.value.orderId == p.orderId && p.payload.value.proofs != [] && ProofListValid(p.payload.value.proofs))
      && match p.state
         case Preparing => p.swap.Some? && p.request.Some? && p.deliveryUrl.Some? && p.deliveryRetryable != Some(false) && (p.deliveredAt.Some? ==> Deliverable(p))
         case TokenSpent => p.token.None? && p.payload.None? && p.swap.None? && p.request.None? && p.deliveryUrl.None? && p.deliveryRetryable != Some(false)
         case PaymentRecoverable => Deliverable(p) || (p.swap.Some? && p.deliveredAt.None?)
         case _ => Deliverable(p) && p.deliveryRetryable != Some(false)
  {
    hide SwapValid, ProofListValid;
  }

  lemma OrderRules(o: Order)
    ensures o.Valid() <==>
      && o.amount >= 1 && (o.incomingSwap.Some? ==> SwapValid(o.incomingSwap.value))
      && match o.state
         case Registering => o.keys.Some? && o.readCapability.Some?
         case AwaitingPayment => o.keys.Some? && o.readCapability.Some?
         case Cancelling => o.keys.Some? && o.readCapability.Some?
         case PayloadReceived => o.incomingToken.Some? && o.keys.Some?
         case Validating => o.incomingToken.Some? && o.keys.Some?
         case Swapping => o.incomingSwap.Some? && o.keys.Some?
         case Rejected => true
         case OrderRecoverable => true
         case _ => o.keys.None? && o.incomingToken.None? && o.incomingSwap.None?
  {
    hide SwapValid;
  }

  method SwapRecord(sw: Swap) returns (ok: bool)
    ensures ok <==> SwapValid(sw)
    ensures ok <==> sw.amount >= 1 && sw.inputs != [] && ProofListValid(sw.inputs) && ProofListValid(sw.unselected)
  {
    if sw.amount < 1 { return false; }
    ok := Proofs(sw.inputs);
    if !ok { return false; }
    ok := Proofs(sw.unselected);
    return ok && sw.inputs != [];
  }

  method OptionalSwap(sw: Option<Swap>) returns (ok: bool)
    ensures ok <==> (sw.Some? ==> SwapValid(sw.value))
  {
    if sw.None? { return true; }
    ok := SwapRecord(sw.value);
  }

  method NormalizePayment(p: Payment) returns (ok: bool)
    ensures ok <==> p.Valid()
  {
    if p.amount < 1 { return false; }
    ok := OptionalSwap(p.swap);
    if !ok { return false; }
    if p.payload.Some? {
      if p.payload.value.orderId != p.orderId { return false; }
      ok := Proofs(p.payload.value.proofs);
      if !ok || p.payload.value.proofs == [] { return false; }
    }
    var complete := p.token.Some? && p.payload.Some? && p.deliveryUrl.Some?;
    if p.state.Preparing? && !(p.swap.Some? && p.request.Some? && p.deliveryUrl.Some?) { return false; }
    if p.state in {ReadyToDeliver, Delivering, Delivered, TokenUnspent, TokenPending} && !complete { return false; }
    if p.state.PaymentRecoverable? && p.swap.None? && !complete { return false; }
    if p.state.TokenSpent? && (p.token.Some? || p.payload.Some? || p.swap.Some? || p.request.Some? || p.deliveryUrl.Some?) { return false; }
    if p.deliveryRetryable == Some(false) && !p.state.PaymentRecoverable? { return false; }
    if p.deliveredAt.Some? && !complete && !p.state.TokenSpent? { return false; }
    return true;
  }

  method NormalizeOrder(o: Order) returns (ok: bool)
    ensures ok <==> o.Valid()
  {
    if o.amount < 1 { return false; }
    ok := OptionalSwap(o.incomingSwap);
    if !ok { return false; }
    var registration := o.keys.Some? && o.readCapability.Some?;
    if o.state in {Registering, AwaitingPayment, Cancelling} && !registration { return false; }
    if o.state in {PayloadReceived, Validating} && !(o.incomingToken.Some? && o.keys.Some?) { return false; }
    if o.state.Swapping? && !(o.incomingSwap.Some? && o.keys.Some?) { return false; }
    if o.state in {OrderSettled, Cancelled, OrderExpired} && (o.keys.Some? || o.incomingToken.Some? || o.incomingSwap.Some?) { return false; }
    return true;
  }

  method NormalizeCashOut(o: CashOut) returns (ok: bool)
    ensures ok <==> o.Valid()
    ensures ok <==> o.amount >= 1 && (o.reserved.Some? ==> ProofListValid(o.reserved.value)) && (o.recovery.Some? ==> SwapValid(o.recovery.value))
  {
    if o.amount < 1 { return false; }
    if o.reserved.Some? {
      ok := Proofs(o.reserved.value);
      if !ok { return false; }
    }
    ok := OptionalSwap(o.recovery);
  }

  /** One pass over each list of records, up to the first malformed one. */
  method Payments(ps: map<nat, Payment>) returns (ok: bool)
    ensures ok <==> forall id :: id in ps ==> ps[id].Valid()
  {
    var left := ps.Keys;
    while left != {}
      invariant left <= ps.Keys
      invariant forall id :: id in ps && id !in left ==> ps[id].Valid()
      decreases |left|
    {
      var id :| id in left;
      ok := NormalizePayment(ps[id]);
      if !ok { return false; }
      left := left - {id};
    }
    return true;
  }

  method Orders(os: map<nat, Order>) returns (ok: bool)
    ensures ok <==> forall id :: id in os ==> os[id].Valid()
  {
    var left := os.Keys;
    while left != {}
      invariant left <= os.Keys
      invariant forall id :: id in os && id !in left ==> os[id].Valid()
      decreases |left|
    {
      var id :| id in left;
      ok := NormalizeOrder(os[id]);
      if !ok { return false; }
      left := left - {id};
    }
    return true;
  }

  method CashOuts(os: map<nat, CashOut>) returns (ok: bool)
    ensures ok <==> forall id :: id in os ==> os[id].Valid()
  {
    var left := os.Keys;
    while left != {}
      invariant left <= os.Keys
      invariant forall id :: id in os && id !in left ==> os[id].Valid()
      decreases |left|
    {
      var id :| id in left;
      ok := NormalizeCashOut(os[id]);
      if !ok { return false; }
      left := left - {id};
    }
    return true;
  }

  /** What payments and cash-outs have set aside, in one list. */
  method Reserved(s: Snapshot) returns (reserved: seq<Coin>)
    ensures forall c :: c in reserved <==>
      || (exists id :: id in s.payments && c in InputsOf(s.payments[id].swap))
      || (exists id :: id in s.cashOut && c in ReservedOf(s.cashOut[id]))
  {
    reserved := [];
    var left := s.payments.Keys;
    while left != {}
      invariant left <= s.payments.Keys
      invariant forall c :: c in reserved <==> exists id :: id in s.payments && id !in left && c in InputsOf(s.payments[id].swap)
      decreases |left|
    {
      var id :| id in left;
      reserved := reserved + InputsOf(s.payments[id].swap);
      left := left - {id};
    }
    ghost var inputs := reserved;
    var outs := s.cashOut.Keys;
    while outs != {}
      invariant outs <= s.cashOut.Keys
      invariant forall c :: c in reserved <==> c in inputs || exists id :: id in s.cashOut && id !in outs && c in ReservedOf(s.cashOut[id])
      decreases |outs|
    {
      var id :| id in outs;
      reserved := reserved + ReservedOf(s.cashOut[id]);
      outs := outs - {id};
    }
  }

  predicate NoneSpendable(s: Snapshot) {
    && (forall id :: id in s.payments ==> Secrets(InputsOf(s.payments[id].swap)) !! Secrets(s.proofs))
    && (forall id :: id in s.cashOut ==> Secrets(ReservedOf(s.cashOut[id])) !! Secrets(s.proofs))
  }

  /** `assertSpendableProofsAreNotReserved`. */
  method NotReserved(s: Snapshot) returns (ok: bool)
    ensures ok <==> NoneSpendable(s)
  {
    var spendable := Secrets(s.proofs);
    var reserved := Reserved(s);
    for i := 0 to |reserved|
      invariant forall j :: 0 <= j < i ==> reserved[j].secret !in spendable
    {
      if reserved[i].secret in spendable {
        assert reserved[i] in reserved;
        return false;
      }
    }
    forall c | c in reserved ensures c.secret !in spendable {
      var i :| 0 <= i < |reserved| && reserved[i] == c;
    }
    forall id | id in s.payments ensures Secrets(InputsOf(s.payments[id].swap)) !! spendable {
      forall c | c in InputsOf(s.payments[id].swap) ensures c.secret !in spendable { assert c in reserved; }
    }
    forall id | id in s.cashOut ensures Secrets(ReservedOf(s.cashOut[id])) !! spendable {
      forall c | c in ReservedOf(s.cashOut[id]) ensures c.secret !in spendable { assert c in reserved; }
    }
    return true;
  }

  method NormalizeSnapshot(s: Snapshot) returns (ok: bool)
    ensures ok <==> ValidSnapshot(s)
  {
    ok := Proofs(s.proofs);
    if !ok { return false; }
    if exists id :: id in s.addCash && s.addCash[id].amount < 1 { return false; }
    ok := Payments(s.payments);
    if !ok { return false; }
    ok := Orders(s.orders);
    if !ok { return false; }
    ok := CashOuts(s.cashOut);
    if !ok { return false; }
    ok := NotReserved(s);
  }
}
