/** What the relay answers to every operation at every moment of a run, and what it does to the row of
    the slot: the whole table of cases, in terms of the stored row, the clock and the request. */
module RelayAnswers {
  import opened Ecash
  import opened CanonicalJson
  import opened Relay
  import opened RelayProofs

  /** The row is open and its request has not expired. */
  predicate OpenAt(r: Row, now: int) { r.state.Open? && now < r.expiresAt }

  /** An open row whose request has expired. */
  predicate OverAt(r: Row, now: int) { r.state.Open? && r.expiresAt <= now }

  /** Step `j` of the run changes the row of `o` to `r` and answers `a`; all other rows stay. */
  predicate Turns(ops: seq<Op>, j: nat, o: Hash, r: Row, a: Answer)
    requires j < |ops|
  {
    Run(ops[..j + 1]) == Run(ops[..j])[o := r] && AnswerAt(ops, j) == a
  }

  /** Step `j` of the run changes nothing and answers `a`. */
  predicate Leaves(ops: seq<Op>, j: nat, a: Answer)
    requires j < |ops|
  {
    Run(ops[..j + 1]) == Run(ops[..j]) && AnswerAt(ops, j) == a
  }

  lemma StepAt(ops: seq<Op>, j: nat)
    requires j < |ops|
    ensures (Run(ops[..j + 1]), AnswerAt(ops, j)) == Step(Run(ops[..j]), ops[j])
  {
    NextRun(ops, j);
    hide Run, Step;
  }

  lemma ByReadIs(t: Table, h: Hash, o: Hash)
    requires TableOk(t) && o in t && t[o].readHash == h
    ensures ByRead(t, h) == Some(o)
  {
    hide RowOk;
  }

  lemma ByWriteIs(t: Table, h: Hash, o: Hash)
    requires TableOk(t) && o in t && t[o].writeHash == h
    ensures ByWrite(t, h) == Some(o)
  {
    hide RowOk;
  }

  /** Writing a row back unchanged changes nothing, and an open row has no payload to lose. */
  lemma WrittenBack(t: Table, o: Hash, now: int)
    requires TableOk(t) && o in t
    ensures t[o := t[o]] == t
    ensures Expire(t[o], now) == if OverAt(t[o], now) then t[o].(state := Expired) else t[o]
  {
    RowOf(t, o);
    hide TableOk, DigestOf, Parsed, Sum;
  }

  // ---- cancel ----

  lemma CancelSteps(t: Table, op: Op, o: Hash)
    requires TableOk(t) && op.Cancel? && o in t && t[o].readHash == Sha256(op.read)
    ensures var r := t[o];
      Step(t, op) ==
        if OpenAt(r, op.start) then (t[o := r.(state := Cancelled)], CancelStored)
        else if OverAt(r, op.start) then (t[o := r.(state := Expired)], DeliveryWon)
        else (t, if r.state.Cancelled? then CancelledBefore else DeliveryWon)
  {
    ByReadIs(t, Sha256(op.read), o);
    WrittenBack(t, o, op.start);
    hide TableOk, Expire, RegisterStep, DeliverStep, ReadStep, AckStep, CleanupStep;
  }

  /** In every run a cancel stores the cancellation exactly when the slot is open and its request has not
      expired. A cancelled slot says so again, and any other one answers that a delivery won. */
  lemma CancelAnswers(ops: seq<Op>, j: nat, o: Hash)
    requires j < |ops| && ops[j].Cancel? && o in Run(ops[..j]) && Run(ops[..j])[o].readHash == Sha256(ops[j].read)
    ensures var r, now := Run(ops[..j])[o], ops[j].start;
      if OpenAt(r, now) then Turns(ops, j, o, r.(state := Cancelled), CancelStored)
      else if OverAt(r, now) then Turns(ops, j, o, r.(state := Expired), DeliveryWon)
      else Leaves(ops, j, if r.state.Cancelled? then CancelledBefore else DeliveryWon)
  {
    StepAt(ops, j);
    CancelSteps(Run(ops[..j]), ops[j], o);
    hide Run, Step;
  }

  // ---- read ----

  lemma ReadSteps(t: Table, op: Op, o: Hash)
    requires TableOk(t) && op.Read? && o in t && t[o].readHash == Sha256(op.read)
    ensures var r := t[o];
      Step(t, op) ==
        if OverAt(r, op.start) then (t[o := r.(state := Expired)], SlotClosed)
        else (t, if r.state.Open? then Waiting else if r.state.Delivered? && r.payload.Some? then Contents(r.payload.value) else SlotClosed)
  {
    ByReadIs(t, Sha256(op.read), o);
    WrittenBack(t, o, op.start);
    RowOf(t, o);
    hide TableOk, Expire, RegisterStep, DeliverStep, AckStep, CancelStep, CleanupStep, DigestOf, Parsed, Sum;
  }

  /** In every run a read of an open slot says to wait, a read of a delivered one hands out its payload,
      and every other slot is closed; a slot found expired is closed in the table too. */
  lemma ReadAnswers(ops: seq<Op>, j: nat, o: Hash)
    requires j < |ops| && ops[j].Read? && o in Run(ops[..j]) && Run(ops[..j])[o].readHash == Sha256(ops[j].read)
    ensures var r, now := Run(ops[..j])[o], ops[j].start;
      if OverAt(r, now) then Turns(ops, j, o, r.(state := Expired), SlotClosed)
      else if r.state.Open? then Leaves(ops, j, Waiting)
      else if r.state.Delivered? then r.payload.Some? && Leaves(ops, j, Contents(r.payload.value))
      else Leaves(ops, j, SlotClosed)
  {
    StepAt(ops, j);
    ReadSteps(Run(ops[..j]), ops[j], o);
    RowOf(Run(ops[..j]), o);
    hide Run, Step, TableOk, DigestOf, Parsed, Sum;
  }

  // ---- acknowledge ----

  lemma AckSteps(t: Table, op: Op, o: Hash)
    requires TableOk(t) && op.Ack? && o in t && t[o].readHash == Sha256(op.read)
    ensures var r := t[o];
      Step(t, op) ==
        if r.state.Delivered? then (t[o := r.(state := Acknowledged, payload := None)], Acked)
        else if OverAt(r, op.start) then (t[o := r.(state := Expired)], NotDelivered)
        else (t, if r.state.Acknowledged? then AckedBefore else NotDelivered)
  {
    ByReadIs(t, Sha256(op.read), o);
    WrittenBack(t, o, op.start);
    hide TableOk, Expire, RegisterStep, DeliverStep, ReadStep, CancelStep, CleanupStep;
  }

  /** In every run an acknowledgement drops the payload of a delivered slot and closes it for good; a
      repeated one says so, and a slot without a delivery refuses it. */
  lemma AckAnswers(ops: seq<Op>, j: nat, o: Hash)
    requires j < |ops| && ops[j].Ack? && o in Run(ops[..j]) && Run(ops[..j])[o].readHash == Sha256(ops[j].read)
    ensures var r, now := Run(ops[..j])[o], ops[j].start;
      if r.state.Delivered? then Turns(ops, j, o, r.(state := Acknowledged, payload := None), Acked)
      else if OverAt(r, now) then Turns(ops, j, o, r.(state := Expired), NotDelivered)
      else Leaves(ops, j, if r.state.Acknowledged? then AckedBefore else NotDelivered)
  {
    StepAt(ops, j);
    AckSteps(Run(ops[..j]), ops[j], o);
    hide Run, Step;
  }

  // ---- deliver ----

  lemma DeliverSteps(t: Table, op: Op, o: Hash)
    requires TableOk(t) && op.Deliver? && Parsed(op.payload) && o in t && t[o].writeHash == Sha256(op.write)
    ensures var r, p := t[o], op.payload;
      Step(t, op) ==
        if OverAt(r, op.start) || r.state.Expired? || r.state.Cancelled? then (t, SlotClosed)
        else if !r.state.Open? then (t, if r.digest == Some(DigestOf(p)) then Duplicate else PayloadConflict)
        else if Sha256(p.id) != o || p.unit != r.unit || p.mint != r.mint then (t, PayloadMismatch)
        else if Sum(p.proofs) > MAX_SAFE then (t, BadRequest)
        else if Sum(p.proofs) != r.amount then (t, PayloadMismatch)
        else (t[o := r.(state := Delivered, payload := Some(p), digest := Some(DigestOf(p)), deliveredAt := Some(op.end))], Stored)
  {
    ByWriteIs(t, Sha256(op.write), o);
    WrittenBack(t, o, op.start);
    RowOf(t, o);
    hide TableOk, Expire, RegisterStep, ReadStep, AckStep, CancelStep, CleanupStep, DigestOf, Parsed, Sum;
  }

  /** What the relay refuses to read: no proof or more than 256, an order id of a length outside 16 to 128,
      or a proof that is no JSON object or whose amount is not a positive safe integer. */
  predicate Malformed(p: Payload) {
    || p.proofs == [] || |p.proofs| > 256 || |p.id| < 16 || |p.id| > 128
    || exists i :: 0 <= i < |p.proofs|
                   && (p.proofs[i].amount == 0 || p.proofs[i].amount > MAX_SAFE || !p.proofs[i].json.Obj? || !Wellformed(p.proofs[i].json))
  }

  lemma MalformedExactly(p: Payload)
    ensures Malformed(p) <==> !Parsed(p)
  {
    hide Wellformed;
    if forall i :: 0 <= i < |p.proofs| ==> 0 < p.proofs[i].amount <= MAX_SAFE && p.proofs[i].json.Obj? && Wellformed(p.proofs[i].json) {
    } else {
      var i :| 0 <= i < |p.proofs| && !(0 < p.proofs[i].amount <= MAX_SAFE && p.proofs[i].json.Obj? && Wellformed(p.proofs[i].json));
      assert Malformed(p);
    }
  }

  /** In every run a payload is stored exactly when its slot is open and unexpired, and it names the
      order, its unit and mint and sums to its amount. Any other delivery changes nothing; to a slot that
      has stored one, it is a duplicate or a conflict by its digest. */
  lemma DeliverAnswers(ops: seq<Op>, j: nat, o: Hash)
    requires j < |ops| && ops[j].Deliver? && o in Run(ops[..j]) && Run(ops[..j])[o].writeHash == Sha256(ops[j].write)
    ensures var r, p := Run(ops[..j])[o], ops[j].payload;
      if Malformed(p) then Leaves(ops, j, BadRequest)
      else if OverAt(r, ops[j].start) || r.state in {Expired, Cancelled} then Leaves(ops, j, SlotClosed)
      else if r.state in {Delivered, Acknowledged} then Leaves(ops, j, if r.digest == Some(DigestOf(p)) then Duplicate else PayloadConflict)
      else if Sha256(p.id) != o || p.unit != r.unit || p.mint != r.mint then Leaves(ops, j, PayloadMismatch)
      else if Sum(p.proofs) == r.amount && r.amount <= MAX_SAFE
      then Turns(ops, j, o, r.(state := Delivered, payload := Some(p), digest := Some(DigestOf(p)), deliveredAt := Some(ops[j].end)), Stored)
      else Leaves(ops, j, if Sum(p.proofs) > MAX_SAFE then BadRequest else PayloadMismatch)
  {
    StepAt(ops, j);
    MalformedExactly(ops[j].payload);
    if Parsed(ops[j].payload) {
      DeliverSteps(Run(ops[..j]), ops[j], o);
      hide Run, Step, DigestOf, Parsed, Malformed, Sum, TableOk;
    } else {
      Unparsed(Run(ops[..j]), ops[j]);
      hide Run, Step, DigestOf, Parsed, Malformed, Sum, TableOk;
    }
  }

  lemma Unparsed(t: Table, op: Op)
    requires TableOk(t) && op.Deliver? && !Parsed(op.payload)
    ensures Step(t, op) == (t, BadRequest)
  {
    hide TableOk, Parsed, Sum, DigestOf;
  }

  // ---- an unknown capability ----

  lemma UnknownSteps(t: Table, op: Op)
    requires TableOk(t)
    requires (op.Read? || op.Ack? || op.Cancel?) && forall o :: o in t ==> t[o].readHash != Sha256(op.read)
    ensures Step(t, op) == (t, NotFound)
  {
    assert UniqueCapabilities(t);
    hide TableOk, UniqueCapabilities, RowOk, RegisterStep, DeliverStep, CleanupStep, Expire;
  }

  lemma UnknownWrite(t: Table, op: Op)
    requires TableOk(t) && op.Deliver? && Parsed(op.payload) && forall o :: o in t ==> t[o].writeHash != Sha256(op.write)
    ensures Step(t, op) == (t, NotFound)
  {
    assert UniqueCapabilities(t);
    hide TableOk, UniqueCapabilities, RowOk, RegisterStep, ReadStep, AckStep, CancelStep, CleanupStep, Expire, Parsed, Sum, DigestOf;
  }

  /** A capability no slot has finds nothing and changes nothing. */
  lemma UnknownAnswers(ops: seq<Op>, j: nat)
    requires j < |ops|
    ensures (ops[j].Read? || ops[j].Ack? || ops[j].Cancel?) && (forall o :: o in Run(ops[..j]) ==> Run(ops[..j])[o].readHash != Sha256(ops[j].read)) ==>
      Leaves(ops, j, NotFound)
    ensures ops[j].Deliver? && Parsed(ops[j].payload) && (forall o :: o in Run(ops[..j]) ==> Run(ops[..j])[o].writeHash != Sha256(ops[j].write)) ==>
      Leaves(ops, j, NotFound)
  {
    StepAt(ops, j);
    var t, op := Run(ops[..j]), ops[j];
    hide Run, Step, Parsed, TableOk;
    if (op.Read? || op.Ack? || op.Cancel?) && forall o :: o in t ==> t[o].readHash != Sha256(op.read) { UnknownSteps(t, op); }
    if op.Deliver? && Parsed(op.payload) && forall o :: o in t ==> t[o].writeHash != Sha256(op.write) { UnknownWrite(t, op); }
  }

  // ---- register ----

  /** The stored row is the one this registration would create, as far as its terms go. */
  predicate SameTerms(r: Row, g: Registration) {
    && r.writeHash == Sha256(g.write) && r.readHash == Sha256(g.read) && r.amount == g.amount && r.unit == g.unit && r.mint == g.mint
    && r.requestDigest == g.requestDigest && r.expiresAt == g.expiresAt
  }

  lemma RegisterSteps(t: Table, op: Op)
    requires TableOk(t) && op.Register?
    ensures var g := op.registration; var o := Sha256(g.orderId);
      Step(t, op) ==
        if !(0 < g.amount <= MAX_SAFE && op.start < g.expiresAt <= op.start + op.maxTtl && g.write != g.read) then (t, BadRequest)
        else if o in t then (t, if SameTerms(t[o], g) then Existing else OrderConflict)
        else if exists p :: p in t && (t[p].writeHash == Sha256(g.write) || t[p].readHash == Sha256(g.read)) then (t, CapabilityConflict)
        else (t[o := Row(Sha256(g.write), Sha256(g.read), g.amount, g.unit, g.mint, g.requestDigest, g.expiresAt, Open, None, None, None)], Created)
  {
    hide TableOk, DeliverStep, ReadStep, AckStep, CancelStep, CleanupStep;
  }

  /** In every run a registration opens a slot exactly when its terms are acceptable, its order has none
      and both capabilities are new; the same registration again is recognised, whatever the slot has
      been through, and any other one for the order is a conflict. */
  lemma RegisterAnswers(ops: seq<Op>, j: nat)
    requires j < |ops| && ops[j].Register?
    ensures var t, g, now := Run(ops[..j]), ops[j].registration, ops[j].start; var o := Sha256(g.orderId);
      if !(0 < g.amount <= MAX_SAFE && now < g.expiresAt <= now + ops[j].maxTtl && g.write != g.read) then Leaves(ops, j, BadRequest)
      else if o in t then Leaves(ops, j, if SameTerms(t[o], g) then Existing else OrderConflict)
      else if exists p :: p in t && (t[p].writeHash == Sha256(g.write) || t[p].readHash == Sha256(g.read)) then Leaves(ops, j, CapabilityConflict)
      else Turns(ops, j, o, Row(Sha256(g.write), Sha256(g.read), g.amount, g.unit, g.mint, g.requestDigest, g.expiresAt, Open, None, None, None), Created)
  {
    StepAt(ops, j);
    RegisterSteps(Run(ops[..j]), ops[j]);
    hide Run, Step, TableOk, SameTerms;
  }

  // ---- cleanup ----

  /** A delivered slot that is too old, or an open one past its expiry, when a cleanup comes. */
  predicate Ends(r: Row, cutoff: int, later: int) {
    OverAt(r, later) || (r.state.Delivered? && r.deliveredAt.Some? && r.deliveredAt.value <= cutoff)
  }

  /** What a cleanup leaves of a row. */
  predicate Cleans(t: Table, v: Table, o: Hash, cutoff: int, later: int)
    requires o in t
  {
    var r := t[o];
    var over := Ends(r, cutoff, later);
    if (over || r.state in {Expired, Acknowledged, Cancelled}) && r.expiresAt <= cutoff then o !in v
    else o in v && v[o] == if over then r.(state := Expired, payload := None) else r
  }

  lemma AgedRow(r: Row, cutoff: int, later: int)
    ensures Aged(r, cutoff, later) == if Ends(r, cutoff, later) then r.(state := Expired, payload := None) else r
    ensures Deletable(Aged(r, cutoff, later), cutoff) <==>
      (Ends(r, cutoff, later) || r.state in {Expired, Acknowledged, Cancelled}) && r.expiresAt <= cutoff
  {
  }

  lemma PrunedRow(t: Table, v: Table, o: Hash, cutoff: int, later: int)
    requires o in t && v == Prune(AgeAll(t, cutoff, later), cutoff)
    ensures Cleans(t, v, o, cutoff, later)
  {
    AgedRow(t[o], cutoff, later);
    hide Aged, Deletable, Ends;
  }

  lemma CleanupIs(t: Table, op: Op)
    requires TableOk(t) && op.Cleanup?
    ensures var aged := AgeAll(t, op.start - op.retention, op.end); var v := Prune(aged, op.start - op.retention);
      Step(t, op) == (v, Cleaned(Removed(aged, v)))
  {
    hide TableOk, AgeAll, Prune, Removed;
  }

  lemma PrunedKeys(t: Table, cutoff: int, later: int)
    ensures AgeAll(t, cutoff, later).Keys == t.Keys && Prune(AgeAll(t, cutoff, later), cutoff).Keys <= t.Keys
  {
    hide Aged, Deletable;
  }

  /** What a cleanup of the table leaves and answers. */
  predicate Cleaning(t: Table, v: Table, a: Answer, cutoff: int, later: int) {
    v.Keys <= t.Keys && a == Cleaned(|t.Keys - v.Keys|) && forall o :: o in t ==> Cleans(t, v, o, cutoff, later)
  }

  lemma PruningCleans(t: Table, v: Table, cutoff: int, later: int)
    requires v == Prune(AgeAll(t, cutoff, later), cutoff)
    ensures Cleaning(t, v, Cleaned(Removed(AgeAll(t, cutoff, later), v)), cutoff, later)
  {
    PrunedKeys(t, cutoff, later);
    hide AgeAll, Prune, Cleans;
    forall o | o in t ensures Cleans(t, v, o, cutoff, later) { PrunedRow(t, v, o, cutoff, later); }
  }

  lemma CleanupSteps(t: Table, op: Op)
    requires TableOk(t) && op.Cleanup?
    ensures Cleaning(t, Step(t, op).0, Step(t, op).1, op.start - op.retention, op.end)
  {
    hide TableOk, Step, AgeAll, Prune, Cleaning, Removed;
    CleanupIs(t, op);
    PruningCleans(t, Prune(AgeAll(t, op.start - op.retention, op.end), op.start - op.retention), op.start - op.retention, op.end);
  }

  lemma CleanupTurn(ops: seq<Op>, j: nat)
    requires j < |ops| && ops[j].Cleanup?
    ensures var t := Run(ops[..j]);
      Cleaning(t, Step(t, ops[j]).0, Step(t, ops[j]).1, ops[j].start - ops[j].retention, ops[j].end)
  {
    hide Run, Step, TableOk, Cleaning;
    CleanupSteps(Run(ops[..j]), ops[j]);
  }

  /** In every run a cleanup deletes the closed slots whose request expired before the retention, closes
      the open ones past their expiry and the delivered ones past the retention, and leaves all others;
      its count is the number of slots deleted. */
  lemma CleanupAnswers(ops: seq<Op>, j: nat)
    requires j < |ops| && ops[j].Cleanup?
    ensures Cleaning(Run(ops[..j]), Run(ops[..j + 1]), AnswerAt(ops, j), ops[j].start - ops[j].retention, ops[j].end)
  {
    CleanupTurn(ops, j);
    StepAt(ops, j);
    hide Run, Step, TableOk, Cleaning;
  }
}
