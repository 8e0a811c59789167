/** The relay's table of delivery slots. Every store method runs to its end without yielding, so
    each is one step on the table; the class below performs these steps in place. */
module Relay {
  import opened Ecash
  import opened CanonicalJson

  const MAX_SAFE := 9007199254740991

  /** A hash is taken to be injective. */
  datatype Hash = Sha256(text: Text)

  /** A proof as the parser leaves it: its amount, read, and the JSON object it came as. */
  datatype Proof = Proof(amount: nat, json: Json)

  datatype Payload = Payload(id: Text, memo: Option<Text>, unit: Text, mint: Text, proofs: seq<Proof>)

  /** The object that is hashed; an absent memo is a key without a value. */
  function AsJson(p: Payload): Json {
    Obj([Field([105, 100], Str(p.id)),
         Field([109, 101, 109, 111], if p.memo.Some? then Str(p.memo.value) else Undefined),
         Field([117, 110, 105, 116], Str(p.unit)),
         Field([109, 105, 110, 116], Str(p.mint)),
         Field([112, 114, 111, 111, 102, 115], Arr(seq(|p.proofs|, i requires 0 <= i < |p.proofs| => p.proofs[i].json)))])
  }

  function DigestOf(p: Payload): Hash { Sha256(Print(AsJson(p))) }

  /** What `parsePaymentPayload` lets through. */
  predicate Parsed(p: Payload) {
    && 0 < |p.proofs| <= 256 && 16 <= |p.id| <= 128
    && forall i :: 0 <= i < |p.proofs| ==> 0 < p.proofs[i].amount <= MAX_SAFE && p.proofs[i].json.Obj? && Wellformed(p.proofs[i].json)
  }

  function Sum(ps: seq<Proof>): nat {
    if ps == [] then 0 else Sum(ps[..|ps| - 1]) + ps[|ps| - 1].amount
  }

  lemma {:induction false} SumPrefix(ps: seq<Proof>, n: nat)
    requires n <= |ps|
    ensures Sum(ps[..n]) <= Sum(ps)
  {
    if n == |ps| {
      assert ps[..n] == ps;
    } else {
      SumPrefix(ps[..|ps| - 1], n);
      assert ps[..|ps| - 1][..n] == ps[..n];
    }
  }

  /** `payloadAmount`: the loop stops at the first unsafe total, which is the case exactly when
      the whole sum is unsafe. */
  method PayloadAmount(ps: seq<Proof>) returns (total: Option<nat>)
    requires forall i :: 0 <= i < |ps| ==> 0 < ps[i].amount <= MAX_SAFE
    ensures total == if Sum(ps) <= MAX_SAFE then Some(Sum(ps)) else None
  {
    var sum := 0;
    var i := 0;
    while i < |ps|
      invariant 0 <= i <= |ps| && sum == Sum(ps[..i]) && sum <= MAX_SAFE
    {
      assert ps[..i + 1][..i] == ps[..i];
      sum := sum + ps[i].amount;
      if sum > MAX_SAFE {
        SumPrefix(ps, i + 1);
        return None;
      }
      i := i + 1;
    }
    assert ps[..i] == ps;
    return Some(sum);
  }

  // ---- the table ----

  datatype SlotState = Open | Delivered | Acknowledged | Cancelled | Expired

  datatype Row = Row(
    writeHash: Hash, readHash: Hash, amount: nat, unit: Text, mint: Text, requestDigest: Text, expiresAt: int,
    state: SlotState, payload: Option<Payload>, digest: Option<Hash>, deliveredAt: Option<int>)

  type Table = map<Hash, Row>

  datatype Registration = Registration(orderId: Text, amount: nat, unit: Text, mint: Text, requestDigest: Text, expiresAt: int, write: Text, read: Text)

  /** The expiry window, the amount and the two capabilities, as `parseRegistration` checks them. */
  predicate Acceptable(r: Registration, now: int, maxTtl: nat) {
    0 < r.amount <= MAX_SAFE && now < r.expiresAt <= now + maxTtl && r.write != r.read
  }

  datatype Answer =
    | BadRequest | Created | Existing | OrderConflict | CapabilityConflict
    | NotFound | SlotClosed | Stored | Duplicate | PayloadConflict | PayloadMismatch
    | Waiting | Contents(payload: Payload)
    | Acked | AckedBefore | NotDelivered
    | CancelStored | CancelledBefore | DeliveryWon
    | Cleaned(count: nat)

  /** What a slot's columns promise each other. */
  predicate RowOk(o: Hash, r: Row) {
    && r.amount > 0
    && (r.payload.Some? <==> r.state.Delivered?) && (r.deliveredAt.Some? <==> r.digest.Some?)
    && (r.state.Open? || r.state.Cancelled? ==> r.digest.None?)
    && (r.state.Delivered? || r.state.Acknowledged? ==> r.digest.Some?)
    && (r.payload.Some? ==>
          && r.digest == Some(DigestOf(r.payload.value)) && Sha256(r.payload.value.id) == o && Parsed(r.payload.value)
          && r.payload.value.unit == r.unit && r.payload.value.mint == r.mint && Sum(r.payload.value.proofs) == r.amount)
  }

  predicate UniqueCapabilities(t: Table) {
    forall o, p :: o in t && p in t && o != p ==> t[o].writeHash != t[p].writeHash && t[o].readHash != t[p].readHash
  }

  predicate TableOk(t: Table) {
    UniqueCapabilities(t) && forall o :: o in t ==> RowOk(o, t[o])
  }

  function ByWrite(t: Table, h: Hash): (o: Option<Hash>)
    requires UniqueCapabilities(t)
    ensures o.Some? ==> o.value in t && t[o.value].writeHash == h
    ensures o.None? ==> forall p :: p in t ==> t[p].writeHash != h
  {
    if exists p :: p in t && t[p].writeHash == h then
      var p :| p in t && t[p].writeHash == h;
      Some(p)
    else None
  }

  function ByRead(t: Table, h: Hash): (o: Option<Hash>)
    requires UniqueCapabilities(t)
    ensures o.Some? ==> o.value in t && t[o.value].readHash == h
    ensures o.None? ==> forall p :: p in t ==> t[p].readHash != h
  {
    if exists p :: p in t && t[p].readHash == h then
      var p :| p in t && t[p].readHash == h;
      Some(p)
    else None
  }

  // ---- the steps ----

  /** `expireRow`: an open row whose request expired is closed. */
  function Expire(r: Row, now: int): Row {
    if r.expiresAt <= now && r.state.Open? then r.(state := Expired, payload := None) else r
  }

  function RegisterStep(t: Table, r: Registration, now: int, maxTtl: nat): (Table, Answer) {
    var o := Sha256(r.orderId);
    if !Acceptable(r, now, maxTtl) then (t, BadRequest)
    else if o in t then
      var e := t[o];
      if && e.writeHash == Sha256(r.write) && e.readHash == Sha256(r.read) && e.amount == r.amount && e.unit == r.unit && e.mint == r.mint
         && e.requestDigest == r.requestDigest && e.expiresAt == r.expiresAt
      then (t, Existing) else (t, OrderConflict)
    else if exists p :: p in t && (t[p].writeHash == Sha256(r.write) || t[p].readHash == Sha256(r.read)) then (t, CapabilityConflict)
    else (t[o := Row(Sha256(r.write), Sha256(r.read), r.amount, r.unit, r.mint, r.requestDigest, r.expiresAt, Open, None, None, None)], Created)
  }

  /** An error rolls the transaction back, so a slot found expired here stays stored as open. The
      clock is read once for the expiry and once, later, for the time of delivery. */
  function DeliverStep(t: Table, write: Text, p: Payload, now: int, later: int): (Table, Answer)
    requires TableOk(t)
  {
    if !Parsed(p) then (t, BadRequest)
    else if ByWrite(t, Sha256(write)).None? then (t, NotFound)
    else
      var o := ByWrite(t, Sha256(write)).value;
      var r := Expire(t[o], now);
      if r.state.Expired? || r.state.Cancelled? then (t, SlotClosed)
      else if r.digest.Some? then (if r.digest.value == DigestOf(p) then (t, Duplicate) else (t, PayloadConflict))
      else if Sha256(p.id) != o || p.unit != r.unit || p.mint != r.mint then (t, PayloadMismatch)
      else if Sum(p.proofs) > MAX_SAFE then (t, BadRequest)
      else if Sum(p.proofs) != r.amount then (t, PayloadMismatch)
      else (t[o := r.(state := Delivered, payload := Some(p), digest := Some(DigestOf(p)), deliveredAt := Some(later))], Stored)
  }

  function ReadStep(t: Table, read: Text, now: int): (Table, Answer)
    requires TableOk(t)
  {
    if ByRead(t, Sha256(read)).None? then (t, NotFound)
    else
      var o := ByRead(t, Sha256(read)).value;
      var r := Expire(t[o], now);
      (t[o := r], if r.state.Open? then Waiting else if r.payload.Some? then Contents(r.payload.value) else SlotClosed)
  }

  function AckStep(t: Table, read: Text, now: int): (Table, Answer)
    requires TableOk(t)
  {
    if ByRead(t, Sha256(read)).None? then (t, NotFound)
    else
      var o := ByRead(t, Sha256(read)).value;
      var r := Expire(t[o], now);
      if r.state.Acknowledged? then (t[o := r], AckedBefore)
      else if !r.state.Delivered? then (t[o := r], NotDelivered)
      else (t[o := r.(state := Acknowledged, payload := None)], Acked)
  }

  function CancelStep(t: Table, read: Text, now: int): (Table, Answer)
    requires TableOk(t)
  {
    if ByRead(t, Sha256(read)).None? then (t, NotFound)
    else
      var o := ByRead(t, Sha256(read)).value;
      var r := Expire(t[o], now);
      if r.state.Cancelled? then (t[o := r], CancelledBefore)
      else if !r.state.Open? then (t[o := r], DeliveryWon)
      else (t[o := r.(state := Cancelled)], CancelStored)
  }

  /** A row after both updates of `cleanup`. */
  function Aged(r: Row, cutoff: int, later: int): Row {
    var e := Expire(r, later);
    if e.state.Delivered? && e.deliveredAt.Some? && e.deliveredAt.value <= cutoff then e.(state := Expired, payload := None) else e
  }

  predicate Deletable(r: Row, cutoff: int) {
    r.expiresAt <= cutoff && r.state in {Expired, Acknowledged, Cancelled}
  }

  function AgeAll(t: Table, cutoff: int, later: int): Table {
    map o | o in t :: Aged(t[o], cutoff, later)
  }

  function Prune(t: Table, cutoff: int): Table {
    map o | o in t && !Deletable(t[o], cutoff) :: t[o]
  }

  function CleanupStep(t: Table, retention: nat, now: int, later: int): (Table, Answer) {
    var aged := AgeAll(t, now - retention, later);
    var kept := Prune(aged, now - retention);
    (kept, Cleaned(Removed(aged, kept)))
  }

  function Removed(before: Table, after: Table): nat { |before.Keys - after.Keys| }

  // ---- runs ----

  datatype Op =
    | Register(registration: Registration, maxTtl: nat, start: int, end: int)
    | Deliver(write: Text, payload: Payload, start: int, end: int)
    | Read(read: Text, start: int, end: int)
    | Ack(read: Text, start: int, end: int)
    | Cancel(read: Text, start: int, end: int)
    | Cleanup(retention: nat, start: int, end: int)

  function Step(t: Table, op: Op): (Table, Answer)
    requires TableOk(t)
  {
    match op
    case Register(r, ttl, now, _) => RegisterStep(t, r, now, ttl)
    case Deliver(w, p, now, later) => DeliverStep(t, w, p, now, later)
    case Read(c, now, _) => ReadStep(t, c, now)
    case Ack(c, now, _) => AckStep(t, c, now)
    case Cancel(c, now, _) => CancelStep(t, c, now)
    case Cleanup(retention, now, later) => CleanupStep(t, retention, now, later)
  }

  lemma ExpireOk(o: Hash, r: Row, now: int)
    requires RowOk(o, r)
    ensures RowOk(o, Expire(r, now))
  {
  }

  lemma PutOk(t: Table, o: Hash, r: Row)
    requires TableOk(t) && o in t && RowOk(o, r) && r.writeHash == t[o].writeHash && r.readHash == t[o].readHash
    ensures TableOk(t[o := r])
  {
    hide RowOk;
  }

  lemma DeliverOk(t: Table, write: Text, p: Payload, now: int, later: int)
    requires TableOk(t)
    ensures TableOk(DeliverStep(t, write, p, now, later).0)
  {
    assert UniqueCapabilities(t);
    hide DigestOf, Parsed, Sum, TableOk;
    var t' := DeliverStep(t, write, p, now, later).0;
    if t' != t {
      var o := ByWrite(t, Sha256(write)).value;
      RowOf(t, o);
      PutOk(t, o, t'[o]);
    }
  }

  lemma RowOf(t: Table, o: Hash)
    requires TableOk(t) && o in t
    ensures RowOk(o, t[o])
  {
  }

  lemma ReadOk(t: Table, read: Text, now: int)
    requires TableOk(t)
    ensures TableOk(ReadStep(t, read, now).0) && TableOk(AckStep(t, read, now).0) && TableOk(CancelStep(t, read, now).0)
  {
    assert UniqueCapabilities(t);
    hide DigestOf, Parsed, Sum, TableOk;
    var found := ByRead(t, Sha256(read));
    if found.Some? {
      var o := found.value;
      RowOf(t, o);
      ExpireOk(o, t[o], now);
      PutOk(t, o, ReadStep(t, read, now).0[o]);
      PutOk(t, o, AckStep(t, read, now).0[o]);
      PutOk(t, o, CancelStep(t, read, now).0[o]);
    }
  }

  lemma AgedOk(o: Hash, r: Row, cutoff: int, later: int)
    requires RowOk(o, r)
    ensures RowOk(o, Aged(r, cutoff, later)) && Aged(r, cutoff, later).writeHash == r.writeHash
      && Aged(r, cutoff, later).readHash == r.readHash
  {
  }

  lemma CleanupOk(t: Table, retention: nat, now: int, later: int)
    requires TableOk(t)
    ensures TableOk(CleanupStep(t, retention, now, later).0)
  {
    hide TableOk, AgeAll, Prune, Removed;
    AgeAllOk(t, now - retention, later);
    PruneOk(AgeAll(t, now - retention, later), now - retention);
  }

  lemma AgeAllOk(t: Table, cutoff: int, later: int)
    requires TableOk(t)
    ensures TableOk(AgeAll(t, cutoff, later))
  {
    hide RowOk, Aged;
    var aged := AgeAll(t, cutoff, later);
    forall o | o in aged ensures RowOk(o, aged[o]) && aged[o].writeHash == t[o].writeHash && aged[o].readHash == t[o].readHash {
      AgedOk(o, t[o], cutoff, later);
    }
  }

  lemma PruneOk(t: Table, cutoff: int)
    requires TableOk(t)
    ensures TableOk(Prune(t, cutoff))
  {
    hide RowOk, Deletable;
  }

  lemma RegisterOk(t: Table, r: Registration, now: int, maxTtl: nat)
    requires TableOk(t)
    ensures TableOk(RegisterStep(t, r, now, maxTtl).0)
  {
  }

  lemma StepOk(t: Table, op: Op)
    requires TableOk(t)
    ensures TableOk(Step(t, op).0)
  {
    hide TableOk, RegisterStep, DeliverStep, ReadStep, AckStep, CancelStep, CleanupStep;
    match op
    case Register(r, ttl, now, _) => RegisterOk(t, r, now, ttl);
    case Deliver(w, p, now, later) => DeliverOk(t, w, p, now, later);
    case Read(c, now, _) => ReadOk(t, c, now);
    case Ack(c, now, _) => ReadOk(t, c, now);
    case Cancel(c, now, _) => ReadOk(t, c, now);
    case Cleanup(retention, now, later) => CleanupOk(t, retention, now, later);
  }

  function Run(ops: seq<Op>): (t: Table)
    ensures TableOk(t)
  {
    if ops == [] then map[] else
      var before := Run(ops[..|ops| - 1]);
      StepOk(before, ops[|ops| - 1]);
      Step(before, ops[|ops| - 1]).0
  }

  function AnswerAt(ops: seq<Op>, i: nat): Answer
    requires i < |ops|
  {
    Step(Run(ops[..i]), ops[i]).1
  }

  /** The clock never runs backwards. */
  predicate Timely(ops: seq<Op>) {
    && (forall i :: 0 <= i < |ops| ==> ops[i].start <= ops[i].end)
    && (forall i, j :: 0 <= i < j < |ops| ==> ops[i].end <= ops[j].start)
  }

  // ---- the store, in place ----

  class RelayStore {
    var rows: Table

    ghost predicate Valid()
      reads this
    {
      TableOk(rows)
    }

    constructor ()
      ensures Valid() && rows == Run([])
    {
      rows := map[];
    }

    method Register(input: Registration, maxTtl: nat, now: int) returns (answer: Answer)
      requires Valid()
      modifies this
      ensures Valid() && (rows, answer) == RegisterStep(old(rows), input, now, maxTtl)
    {
      RegisterOk(rows, input, now, maxTtl);
      if !Acceptable(input, now, maxTtl) { return BadRequest; }
      var order, write, read := Sha256(input.orderId), Sha256(input.write), Sha256(input.read);
      if order in rows {
        var existing := rows[order];
        var matches := && existing.writeHash == write && existing.readHash == read && existing.amount == input.amount && existing.unit == input.unit
                       && existing.mint == input.mint && existing.requestDigest == input.requestDigest
                       && existing.expiresAt == input.expiresAt;
        return if matches then Existing else OrderConflict;
      }
      if exists p :: p in rows && (rows[p].writeHash == write || rows[p].readHash == read) { return CapabilityConflict; }
      rows := rows[order := Row(write, read, input.amount, input.unit, input.mint, input.requestDigest, input.expiresAt, Open, None, None, None)];
      return Created;
    }

    /** Writes the expiry back to the table and returns the row as it now is. */
    method ExpireRow(order: Hash, now: int) returns (row: Row)
      requires Valid() && order in rows
      modifies this
      ensures Valid() && row == Expire(old(rows)[order], now) && rows == old(rows)[order := row]
    {
      row := rows[order];
      ExpireOk(order, row, now);
      if row.expiresAt > now || !row.state.Open? {
        assert rows == rows[order := row];
        return;
      }
      row := row.(state := Expired, payload := None);
      rows := rows[order := row];
    }

    method Deliver(write: Text, payload: Payload, now: int, later: int) returns (answer: Answer)
      requires Valid()
      modifies this
      ensures Valid() && (rows, answer) == DeliverStep(old(rows), write, payload, now, later)
    {
      DeliverOk(rows, write, payload, now, later);
      if !Parsed(payload) { return BadRequest; }
      var begun := rows;
      var found := ByWrite(rows, Sha256(write));
      if found.None? { return NotFound; }
      var row := ExpireRow(found.value, now);
      if row.state.Expired? || row.state.Cancelled? {
        rows := begun;
        return SlotClosed;
      }
      assert rows == begun;
      if row.digest.Some? { return if row.digest.value == DigestOf(payload) then Duplicate else PayloadConflict; }
      if Sha256(payload.id) != found.value || payload.unit != row.unit || payload.mint != row.mint { return PayloadMismatch; }
      var amount := PayloadAmount(payload.proofs);
      if amount.None? { return BadRequest; }
      if amount.value != row.amount { return PayloadMismatch; }
      rows := rows[found.value := row.(state := Delivered, payload := Some(payload), digest := Some(DigestOf(payload)), deliveredAt := Some(later))];
      return Stored;
    }

    method Read(read: Text, now: int) returns (answer: Answer)
      requires Valid()
      modifies this
      ensures Valid() && (rows, answer) == ReadStep(old(rows), read, now)
    {
      var found := ByRead(rows, Sha256(read));
      if found.None? { return NotFound; }
      var row := ExpireRow(found.value, now);
      if row.state.Open? { return Waiting; }
      if row.payload.None? { return SlotClosed; }
      return Contents(row.payload.value);
    }

    method Acknowledge(read: Text, now: int) returns (answer: Answer)
      requires Valid()
      modifies this
      ensures Valid() && (rows, answer) == AckStep(old(rows), read, now)
    {
      ReadOk(rows, read, now);
      ghost var before := rows;
      var found := ByRead(rows, Sha256(read));
      if found.None? { return NotFound; }
      var row := ExpireRow(found.value, now);
      if row.state.Acknowledged? { return AckedBefore; }
      if !row.state.Delivered? { return NotDelivered; }
      rows := rows[found.value := row.(state := Acknowledged, payload := None)];
      assert rows == before[found.value := rows[found.value]];
      return Acked;
    }

    method Cancel(read: Text, now: int) returns (answer: Answer)
      requires Valid()
      modifies this
      ensures Valid() && (rows, answer) == CancelStep(old(rows), read, now)
    {
      ReadOk(rows, read, now);
      ghost var before := rows;
      var found := ByRead(rows, Sha256(read));
      if found.None? { return NotFound; }
      var row := ExpireRow(found.value, now);
      if row.state.Cancelled? { return CancelledBefore; }
      if !row.state.Open? { return DeliveryWon; }
      rows := rows[found.value := row.(state := Cancelled)];
      assert rows == before[found.value := rows[found.value]];
      return CancelStored;
    }

    /** The two updates of the whole table that close expired and over-retained slots. */
    method AgeRows(cutoff: int, later: int)
      modifies this
      ensures rows == AgeAll(old(rows), cutoff, later)
    {
      rows := map o | o in rows :: Expire(rows[o], later);
      rows := map o | o in rows ::
        if rows[o].state.Delivered? && rows[o].deliveredAt.Some? && rows[o].deliveredAt.value <= cutoff
        then rows[o].(state := Expired, payload := None) else rows[o];
    }

    method Cleanup(retention: nat, now: int, later: int) returns (answer: Answer)
      requires Valid()
      modifies this
      ensures Valid()
      ensures rows == CleanupStep(old(rows), retention, now, later).0 && answer == CleanupStep(old(rows), retention, now, later).1
    {
      hide TableOk, AgeAll, Prune, Removed;
      ghost var before := rows;
      var cutoff := now - retention;
      AgeRows(cutoff, later);
      var all := rows;
      rows := Prune(all, cutoff);
      answer := Cleaned(Removed(all, rows));
      assert rows == CleanupStep(before, retention, now, later).0;
      CleanupOk(before, retention, now, later);
    }
  }
}
