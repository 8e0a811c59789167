/** What a delivery slot promises over its whole life, for every run of the relay with a clock that
    never runs backwards. A slot is one registration: an order together with its expiry. */
module RelayProofs {
  import opened Ecash
  import opened CanonicalJson
  import opened CanonicalJsonProofs
  import opened Relay

  // ---- one slot, one step ----

  predicate Later(s: SlotState, t: SlotState) {
    s == t || s.Open? || (s.Delivered? && (t.Acknowledged? || t.Expired?))
  }

  /** How a row may change while its slot lives. */
  predicate Life(r: Row, q: Row) {
    && q.(state := r.state, payload := r.payload, digest := r.digest, deliveredAt := r.deliveredAt) == r
    && Later(r.state, q.state)
    && (r.digest.Some? ==> q.digest == r.digest && q.deliveredAt == r.deliveredAt)
    && (!r.state.Open? && r.digest.None? ==> q.digest.None?)
    && (r.payload.Some? && q.payload.Some? ==> q.payload == r.payload)
  }

  lemma LifeStays(o: Hash, r: Row, p: Row, q: Row)
    requires RowOk(o, r) && RowOk(o, p) && RowOk(o, q) && Life(r, p) && Life(p, q)
    ensures Life(r, q)
  {
  }

  lemma LifeSame(r: Row)
    ensures Life(r, r)
  {
  }

  /** What one step does to one key: the slot lives on, is deleted after its expiry, or is new. */
  predicate SlotStep(t: Table, op: Op, o: Hash, t': Table) {
    && (o in t && o in t' ==> Life(t[o], t'[o]))
    && (o in t && o !in t' ==> op.Cleanup? && t[o].expiresAt <= op.start)
    && (o !in t && o in t' ==> op.Register? && t'[o].expiresAt > op.start && t'[o].state.Open?)
  }

  lemma AgedLife(o: Hash, r: Row, cutoff: int, later: int)
    requires RowOk(o, r)
    ensures Life(r, Aged(r, cutoff, later)) && Aged(r, cutoff, later).expiresAt == r.expiresAt
  {
  }

  lemma CleanupRow(t: Table, cutoff: int, later: int, o: Hash)
    ensures var t' := Prune(AgeAll(t, cutoff, later), cutoff);
      && (o in t' ==> o in t && t'[o] == Aged(t[o], cutoff, later))
      && (o in t && o !in t' ==> Aged(t[o], cutoff, later).expiresAt <= cutoff)
  {
    hide Aged;
  }

  lemma CleanupSlot(t: Table, op: Op, o: Hash)
    requires op.Cleanup? && TableOk(t)
    ensures SlotStep(t, op, o, Step(t, op).0)
  {
    var cutoff := op.start - op.retention;
    if o in t {
      RowOf(t, o);
      AgedLife(o, t[o], cutoff, op.end);
    }
    CleanupRow(t, cutoff, op.end, o);
    hide RowOk, TableOk, Aged, AgeAll, Prune, Removed, Life;
  }

  /** A read, an acknowledgement or a cancellation moves one row along its life. */
  lemma ReachedRow(t: Table, op: Op)
    requires TableOk(t) && (op.Read? || op.Ack? || op.Cancel?)
    ensures Step(t, op).0 == t
      || exists o :: o in t && o in Step(t, op).0 && Life(t[o], Step(t, op).0[o]) && Step(t, op).0 == t[o := Step(t, op).0[o]]
  {
    assert UniqueCapabilities(t);
    hide TableOk, UniqueCapabilities, RegisterStep, DeliverStep, CleanupStep, DigestOf, Parsed, Sum;
    var found := ByRead(t, Sha256(op.read));
    if found.Some? {
      RowOf(t, found.value);
      assert Life(t[found.value], Step(t, op).0[found.value]) && Step(t, op).0 == t[found.value := Step(t, op).0[found.value]];
    }
  }

  lemma CapabilitySlot(t: Table, op: Op, o: Hash)
    requires TableOk(t) && (op.Read? || op.Ack? || op.Cancel?)
    ensures SlotStep(t, op, o, Step(t, op).0)
  {
    hide TableOk, Step, Life;
    ReachedRow(t, op);
    if o in t { LifeSame(t[o]); }
  }

  lemma DeliverSlot(t: Table, op: Op, o: Hash)
    requires TableOk(t) && op.Deliver?
    ensures SlotStep(t, op, o, Step(t, op).0)
  {
    assert UniqueCapabilities(t);
    if o in t { RowOf(t, o); }
    hide TableOk, UniqueCapabilities, DigestOf, Parsed, Sum, RegisterStep, ReadStep, AckStep, CancelStep, CleanupStep;
    if o in t { LifeSame(t[o]); }
  }

  lemma RegisterSlot(t: Table, op: Op, o: Hash)
    requires TableOk(t) && op.Register?
    ensures SlotStep(t, op, o, Step(t, op).0)
  {
    hide TableOk, RowOk;
    if o in t { LifeSame(t[o]); }
  }

  lemma StepSlot(t: Table, op: Op, o: Hash)
    requires TableOk(t)
    ensures SlotStep(t, op, o, Step(t, op).0)
  {
    hide TableOk, Step, SlotStep;
    match op
    case Register(_, _, _, _) => RegisterSlot(t, op, o);
    case Deliver(_, _, _, _) => DeliverSlot(t, op, o);
    case Cleanup(_, _, _) => CleanupSlot(t, op, o);
    case _ => CapabilitySlot(t, op, o);
  }

  // ---- one slot, a whole run ----

  function Clock(ops: seq<Op>): int { if ops == [] then 0 else ops[|ops| - 1].end }

  /** The slot of row `r` under key `o`: still living, or gone for good because every later
      registration under this key expires later. */
  predicate Lived(o: Hash, r: Row, t: Table, clock: int) {
    || (o in t && t[o].expiresAt == r.expiresAt && Life(r, t[o]))
    || (r.expiresAt <= clock && (o in t ==> t[o].expiresAt > r.expiresAt))
  }

  lemma TimelyPrefix(ops: seq<Op>, n: nat)
    requires Timely(ops) && n <= |ops|
    ensures Timely(ops[..n]) && (n < |ops| ==> n == 0 || Clock(ops[..n]) <= ops[n].start)
  {
  }

  lemma RunStep(ops: seq<Op>)
    requires ops != []
    ensures Run(ops) == Step(Run(ops[..|ops| - 1]), ops[|ops| - 1]).0
  {
  }

  lemma LivedStep(o: Hash, r: Row, t: Table, clock: int, op: Op)
    requires TableOk(t) && RowOk(o, r) && Lived(o, r, t, clock) && clock <= op.start <= op.end
    ensures Lived(o, r, Step(t, op).0, op.end)
  {
    StepSlot(t, op, o);
    StepOk(t, op);
    var t' := Step(t, op).0;
    if o in t { RowOf(t, o); }
    if o in t' { RowOf(t', o); }
    hide Step, RowOk, TableOk;
    if o in t && o in t' && Life(r, t[o]) { LifeStays(o, r, t[o], t'[o]); }
  }

  lemma LivedSelf(o: Hash, t: Table, clock: int)
    requires o in t
    ensures Lived(o, t[o], t, clock)
  {
    LifeSame(t[o]);
  }

  lemma {:induction false} SlotLife(ops: seq<Op>, i: nat, o: Hash)
    requires Timely(ops) && 0 < i <= |ops| && o in Run(ops[..i])
    ensures Lived(o, Run(ops[..i])[o], Run(ops), Clock(ops))
    decreases |ops|
  {
    hide RowOk, TableOk, Life, Step, Lived;
    if i == |ops| {
      assert ops[..i] == ops;
      LivedSelf(o, Run(ops), Clock(ops));
    } else {
      var last := |ops| - 1;
      TimelyPrefix(ops, last);
      assert ops[..last][..i] == ops[..i];
      SlotLife(ops[..last], i, o);
      RowOf(Run(ops[..i]), o);
      RunStep(ops);
      LivedStep(o, Run(ops[..i])[o], Run(ops[..last]), Clock(ops[..last]), ops[last]);
    }
  }

  /** The same, between two moments of a run. */
  lemma SlotBetween(ops: seq<Op>, i: nat, j: nat, o: Hash)
    requires Timely(ops) && 0 < i <= j < |ops| && o in Run(ops[..i])
    ensures Lived(o, Run(ops[..i])[o], Run(ops[..j]), ops[j].start)
  {
    TimelyPrefix(ops, j);
    assert ops[..j][..i] == ops[..i];
    SlotLife(ops[..j], i, o);
    hide Run;
  }

  lemma NextRun(ops: seq<Op>, i: nat)
    requires i < |ops|
    ensures Run(ops[..i + 1]) == Step(Run(ops[..i]), ops[i]).0
  {
    assert ops[..i + 1][..i] == ops[..i];
    RunStep(ops[..i + 1]);
  }

  // ---- which slot an operation reaches ----

  function Written(t: Table, op: Op): Option<Hash>
    requires TableOk(t) && op.Deliver?
  {
    ByWrite(t, Sha256(op.write))
  }

  function Reached(t: Table, op: Op): Option<Hash>
    requires TableOk(t) && (op.Read? || op.Ack? || op.Cancel?)
  {
    ByRead(t, Sha256(op.read))
  }

  /** Operation `i` stored its payload in the slot of order `o`. */
  predicate StoredAt(ops: seq<Op>, i: nat, o: Hash) {
    i < |ops| && ops[i].Deliver? && AnswerAt(ops, i).Stored? && Written(Run(ops[..i]), ops[i]) == Some(o)
  }

  lemma StoredRow(ops: seq<Op>, i: nat, o: Hash)
    requires StoredAt(ops, i, o)
    ensures o in Run(ops[..i]) && o in Run(ops[..i + 1])
    ensures var p, r, q := ops[i].payload, Run(ops[..i])[o], Run(ops[..i + 1])[o];
      && r.state.Open? && q == r.(state := Delivered, payload := Some(p), digest := Some(DigestOf(p)), deliveredAt := Some(ops[i].end))
      && Parsed(p) && Sum(p.proofs) == r.amount && Sha256(p.id) == o && ops[i].start < r.expiresAt
  {
    NextRun(ops, i);
    RowOf(Run(ops[..i]), o);
    hide Run, DigestOf, Parsed, Sum, RegisterStep, ReadStep, AckStep, CancelStep, CleanupStep;
  }

  lemma CancelledRow(ops: seq<Op>, i: nat, o: Hash)
    requires i < |ops| && ops[i].Cancel? && AnswerAt(ops, i) in {CancelStored, CancelledBefore}
      && Reached(Run(ops[..i]), ops[i]) == Some(o)
    ensures o in Run(ops[..i]) && o in Run(ops[..i + 1])
    ensures Run(ops[..i + 1])[o].state.Cancelled? && Run(ops[..i + 1])[o].expiresAt == Run(ops[..i])[o].expiresAt
  {
    NextRun(ops, i);
    RowOf(Run(ops[..i]), o);
    hide Run, DigestOf, Parsed, Sum;
  }

  // ---- cancel and deliver have one winner ----

  /** After a successful cancel no payload is ever stored in that slot: a later delivery is stored
      only in another order's slot or in a later registration of the same order. */
  lemma CancelWins(ops: seq<Op>, i: nat, j: nat, o: Hash, q: Hash)
    requires Timely(ops) && i < j && StoredAt(ops, j, q)
    requires ops[i].Cancel? && AnswerAt(ops, i) in {CancelStored, CancelledBefore} && Reached(Run(ops[..i]), ops[i]) == Some(o)
    ensures o in Run(ops[..i]) && q in Run(ops[..j])
    ensures q != o || Run(ops[..j])[q].expiresAt > Run(ops[..i])[o].expiresAt
  {
    CancelledRow(ops, i, o);
    StoredRow(ops, j, q);
    SlotBetween(ops, i + 1, j, o);
    hide Run;
  }

  /** A cancel of a slot that is neither open nor cancelled is refused. */
  lemma CancelRefused(t: Table, op: Op, o: Hash)
    requires TableOk(t) && op.Cancel? && Reached(t, op) == Some(o) && o in t && !t[o].state.Open? && !t[o].state.Cancelled?
    ensures Step(t, op).1 == DeliveryWon
  {
    hide TableOk, DigestOf, Parsed, Sum, RegisterStep, DeliverStep, ReadStep, AckStep, CleanupStep;
  }

  /** After a stored delivery every cancel of that slot is refused. */
  lemma DeliveryWins(ops: seq<Op>, i: nat, j: nat, o: Hash)
    requires Timely(ops) && i < j < |ops| && StoredAt(ops, i, o)
    requires ops[j].Cancel? && Reached(Run(ops[..j]), ops[j]) == Some(o)
    ensures o in Run(ops[..i]) && o in Run(ops[..j])
    ensures Run(ops[..j])[o].expiresAt == Run(ops[..i])[o].expiresAt ==> AnswerAt(ops, j) == DeliveryWon
  {
    StoredRow(ops, i, o);
    SlotBetween(ops, i + 1, j, o);
    hide Run, DigestOf, Parsed, Sum, TableOk, Step;
    if Run(ops[..j])[o].expiresAt == Run(ops[..i])[o].expiresAt { CancelRefused(Run(ops[..j]), ops[j], o); }
  }

  // ---- one payload per slot ----

  /** Two payloads say the same: the same order, memo, unit and mint, and proof by proof the same JSON value. */
  ghost predicate SamePayload(p: Payload, q: Payload) {
    && p.id == q.id && p.memo == q.memo && p.unit == q.unit && p.mint == q.mint && |p.proofs| == |q.proofs|
    && forall i :: 0 <= i < |p.proofs| ==> Meaning(p.proofs[i].json) == Meaning(q.proofs[i].json)
  }

  function ProofJsons(p: Payload): (xs: seq<Json>)
    ensures |xs| == |p.proofs| && forall i :: 0 <= i < |xs| ==> xs[i] == p.proofs[i].json
  {
    seq(|p.proofs|, i requires 0 <= i < |p.proofs| => p.proofs[i].json)
  }

  /** The values of the object that is hashed. */
  lemma PayloadValues(p: Payload)
    ensures AsJson(p).Obj?
    ensures var fs := AsJson(p).fields;
      && |fs| == 5 && Meaning(fs[0].value) == VStr(p.id) && Meaning(fs[1].value) == (if p.memo.Some? then VStr(p.memo.value) else VUndefined)
      && Meaning(fs[2].value) == VStr(p.unit) && Meaning(fs[3].value) == VStr(p.mint) && Meaning(fs[4].value) == VArr(Meanings(ProofJsons(p)))
  {
    assert AsJson(p).fields[4].value == Arr(ProofJsons(p));
    hide Meanings, FieldMap;
  }

  /** Its keys. */
  lemma PayloadKeys(p: Payload)
    ensures AsJson(p).Obj?
    ensures var fs := AsJson(p).fields;
      |fs| == 5 && fs[0].key == Units("id") && fs[1].key == Units("memo") && fs[2].key == Units("unit") && fs[3].key == Units("mint")
      && fs[4].key == Units("proofs") && DistinctKeys(fs)
  {
    KeyUnits();
    KeysDiffer();
    hide Units;
  }

  lemma KeyUnits()
    ensures Units("id") == [105, 100] && Units("memo") == [109, 101, 109, 111] && Units("unit") == [117, 110, 105, 116]
    ensures Units("mint") == [109, 105, 110, 116] && Units("proofs") == [112, 114, 111, 111, 102, 115]
  {
  }

  /** Objects with the same keys mean the same exactly when their values do, key by key. */
  lemma FieldsMean(fs: seq<Field>, gs: seq<Field>)
    requires |fs| == |gs| && DistinctKeys(fs) && DistinctKeys(gs) && forall i :: 0 <= i < |fs| ==> fs[i].key == gs[i].key
    ensures FieldMap(fs) == FieldMap(gs) <==> forall i :: 0 <= i < |fs| ==> Meaning(fs[i].value) == Meaning(gs[i].value)
  {
    hide Meaning, FieldMap;
    var m, n := FieldMap(fs), FieldMap(gs);
    if forall i :: 0 <= i < |fs| ==> Meaning(fs[i].value) == Meaning(gs[i].value) {
      forall k ensures k in m <==> k in n {
        if k in m { var i :| 0 <= i < |fs| && fs[i].key == k; assert gs[i].key == k; }
        if k in n { var i :| 0 <= i < |gs| && gs[i].key == k; assert fs[i].key == k; }
      }
      forall k | k in m ensures m[k] == n[k] { var i :| 0 <= i < |fs| && fs[i].key == k; assert gs[i].key == k; }
      assert m == n;
    } else {
      var i :| 0 <= i < |fs| && Meaning(fs[i].value) != Meaning(gs[i].value);
      assert m[fs[i].key] != n[gs[i].key];
    }
  }

  lemma HashedFields(p: Payload, q: Payload)
    ensures AsJson(p).Obj? && AsJson(q).Obj?
    ensures var fs, gs := AsJson(p).fields, AsJson(q).fields;
      && Meaning(AsJson(p)) == VObj(FieldMap(fs)) && |fs| == 5 == |gs| && DistinctKeys(fs) && DistinctKeys(gs)
      && forall i :: 0 <= i < 5 ==> fs[i].key == gs[i].key
  {
    PayloadKeys(p);
    PayloadKeys(q);
    assert Meaning(AsJson(p)) == VObj(FieldMap(AsJson(p).fields)) by { hide FieldMap, Units; }
    hide Units, FieldMap, Meaning, AsJson, DistinctKeys;
  }

  /** Two objects of five equal keys mean the same exactly when their five values do. */
  lemma SameFive(a: Json, b: Json)
    requires a.Obj? && b.Obj? && |a.fields| == |b.fields| == 5 && DistinctKeys(a.fields) && DistinctKeys(b.fields)
    requires Meaning(a) == VObj(FieldMap(a.fields)) && Meaning(b) == VObj(FieldMap(b.fields))
    requires forall i :: 0 <= i < 5 ==> a.fields[i].key == b.fields[i].key
    ensures var fs, gs := a.fields, b.fields;
      Meaning(a) == Meaning(b) <==>
      Meaning(fs[0].value) == Meaning(gs[0].value) && Meaning(fs[1].value) == Meaning(gs[1].value) && Meaning(fs[2].value) == Meaning(gs[2].value)
      && Meaning(fs[3].value) == Meaning(gs[3].value) && Meaning(fs[4].value) == Meaning(gs[4].value)
  {
    hide Meaning, FieldMap, DistinctKeys;
    FieldsMean(a.fields, b.fields);
    FiveSame(a.fields, b.fields);
  }

  /** The hashed objects mean the same exactly when the payloads say the same. */
  lemma SameMeans(p: Payload, q: Payload)
    ensures Meaning(AsJson(p)) == Meaning(AsJson(q)) <==> SamePayload(p, q)
  {
    hide AsJson, Meaning, FieldMap, Units, SamePayload, Meanings, ProofJsons, DistinctKeys;
    HashedFields(p, q);
    HashedFields(q, p);
    SameFive(AsJson(p), AsJson(q));
    PayloadValues(p);
    PayloadValues(q);
    PayloadParts(p, q);
  }

  lemma FiveSame(fs: seq<Field>, gs: seq<Field>)
    requires |fs| == |gs| == 5
    ensures (forall i :: 0 <= i < |fs| ==> Meaning(fs[i].value) == Meaning(gs[i].value)) <==>
      Meaning(fs[0].value) == Meaning(gs[0].value) && Meaning(fs[1].value) == Meaning(gs[1].value) && Meaning(fs[2].value) == Meaning(gs[2].value)
      && Meaning(fs[3].value) == Meaning(gs[3].value) && Meaning(fs[4].value) == Meaning(gs[4].value)
  {
    hide Meaning;
  }

  lemma SameJsons(p: Payload, q: Payload)
    ensures Meanings(ProofJsons(p)) == Meanings(ProofJsons(q)) <==>
      |p.proofs| == |q.proofs| && forall i :: 0 <= i < |p.proofs| ==> Meaning(p.proofs[i].json) == Meaning(q.proofs[i].json)
  {
    hide Meaning, ProofJsons;
    var ps, qs := Meanings(ProofJsons(p)), Meanings(ProofJsons(q));
    if ps == qs {
      forall i | 0 <= i < |p.proofs| ensures Meaning(p.proofs[i].json) == Meaning(q.proofs[i].json) { assert ps[i] == qs[i]; }
    }
  }

  lemma PayloadParts(p: Payload, q: Payload)
    ensures SamePayload(p, q) <==>
      && p.id == q.id && p.memo == q.memo && p.unit == q.unit && p.mint == q.mint && Meanings(ProofJsons(p)) == Meanings(ProofJsons(q))
  {
    SameJsons(p, q);
    hide Meaning, Meanings, ProofJsons;
  }

  lemma KeysDiffer()
    ensures Units("id") != Units("memo") && Units("id") != Units("unit") && Units("id") != Units("mint") && Units("id") != Units("proofs")
    ensures Units("memo") != Units("unit") && Units("memo") != Units("mint") && Units("memo") != Units("proofs")
    ensures Units("unit") != Units("mint") && Units("unit") != Units("proofs") && Units("mint") != Units("proofs")
  {
    assert |Units("id")| == 2 && |Units("memo")| == |Units("unit")| == |Units("mint")| == 4 && |Units("proofs")| == 6;
    assert Units("memo")[1] == 101 && Units("unit")[1] == 110 && Units("mint")[1] == 105;
  }

  /** Two payloads have one digest exactly when they say the same. */
  lemma SameDigest(p: Payload, q: Payload)
    requires Parsed(p) && Parsed(q)
    ensures DigestOf(p) == DigestOf(q) <==> SamePayload(p, q)
  {
    JsonWellformed(p);
    JsonWellformed(q);
    SameMeans(p, q);
    TextIsMeaning(AsJson(p), AsJson(q));
    hide AsJson, Meaning, SamePayload, Wellformed, Print;
  }

  lemma JsonWellformed(p: Payload)
    requires Parsed(p)
    ensures Wellformed(AsJson(p))
  {
    var fs := AsJson(p).fields;
    assert fs[0].key[0] == 105 && fs[1].key[1] == 101 && fs[2].key[0] == 117 && fs[3].key[1] == 105 && fs[4].key[0] == 112;
    assert fs[1].key[0] == 109 == fs[3].key[0];
    assert |fs[0].key| == 2 && |fs[1].key| == |fs[2].key| == |fs[3].key| == 4 && |fs[4].key| == 6;
  }

  /** Once a slot has stored a payload, another delivery to it is never stored: the same payload,
      compared as JSON, is a duplicate, a different one a conflict, unless the slot has closed.
      So no delivery conflicts with a repetition of itself. */
  lemma OnePayload(ops: seq<Op>, i: nat, j: nat, o: Hash)
    requires Timely(ops) && i < j < |ops| && StoredAt(ops, i, o)
    requires ops[j].Deliver? && Parsed(ops[j].payload) && Written(Run(ops[..j]), ops[j]) == Some(o)
    ensures o in Run(ops[..i]) && o in Run(ops[..j])
    ensures Run(ops[..j])[o].expiresAt == Run(ops[..i])[o].expiresAt ==>
      AnswerAt(ops, j) == if Run(ops[..j])[o].state.Expired? then SlotClosed
                          else if SamePayload(ops[i].payload, ops[j].payload) then Duplicate else PayloadConflict
  {
    StoredRow(ops, i, o);
    SlotBetween(ops, i + 1, j, o);
    SameDigest(ops[i].payload, ops[j].payload);
    hide Run, DigestOf, Parsed, Sum, SamePayload;
  }

  /** The digest of a slot never changes. */
  lemma DigestForever(ops: seq<Op>, i: nat, o: Hash)
    requires Timely(ops) && StoredAt(ops, i, o) && o in Run(ops)
    ensures o in Run(ops[..i])
    ensures Run(ops)[o].expiresAt == Run(ops[..i])[o].expiresAt ==> Run(ops)[o].digest == Some(DigestOf(ops[i].payload))
  {
    StoredRow(ops, i, o);
    SlotLife(ops, i + 1, o);
    hide Run, DigestOf;
  }

  // ---- how long a payload can be read ----

  /** Nothing but its acknowledgement, or a cleanup whose cutoff has reached its delivery time,
      takes a delivered payload away. */
  predicate Harmless(op: Op, r: Row, deliveredAt: int) {
    !(op.Ack? && Sha256(op.read) == r.readHash) && !(op.Cleanup? && deliveredAt <= op.start - op.retention)
  }

  lemma DeliveredCleanup(t: Table, op: Op, o: Hash)
    requires op.Cleanup? && o in t && RowOk(o, t[o]) && t[o].state.Delivered? && Harmless(op, t[o], t[o].deliveredAt.value)
    ensures var t' := Prune(AgeAll(t, op.start - op.retention, op.end), op.start - op.retention); o in t' && t'[o] == t[o]
  {
    hide DigestOf, Parsed, Sum;
  }

  /** Reading, acknowledging or cancelling touches the row of its capability only. */
  lemma ReachedOnly(t: Table, op: Op, o: Hash)
    requires TableOk(t) && o in t && (op.Read? || op.Ack? || op.Cancel?) && Reached(t, op) != Some(o)
    ensures o in Step(t, op).0 && Step(t, op).0[o] == t[o]
  {
    hide TableOk, RegisterStep, DeliverStep, CleanupStep, Expire;
  }

  lemma DeliveredReached(t: Table, op: Op, o: Hash)
    requires TableOk(t) && o in t && t[o].state.Delivered? && (op.Read? || op.Ack? || op.Cancel?)
      && !(op.Ack? && Sha256(op.read) == t[o].readHash)
    ensures o in Step(t, op).0 && Step(t, op).0[o] == t[o]
  {
    hide TableOk, RegisterStep, DeliverStep, CleanupStep, DigestOf;
    if Reached(t, op) != Some(o) {
      hide Step;
      ReachedOnly(t, op, o);
    } else {
      assert Expire(t[o], op.start) == t[o];
    }
  }

  lemma DeliveredWritten(t: Table, op: Op, o: Hash)
    requires TableOk(t) && o in t && t[o].state.Delivered? && (op.Deliver? || op.Register?)
    ensures o in Step(t, op).0 && Step(t, op).0[o] == t[o]
  {
    assert UniqueCapabilities(t);
    RowOf(t, o);
    hide TableOk, UniqueCapabilities, DigestOf, Parsed, Sum, Acceptable, ReadStep, AckStep, CancelStep, CleanupStep;
  }

  lemma DeliveredStays(t: Table, op: Op, o: Hash)
    requires TableOk(t) && o in t && t[o].state.Delivered? && t[o].deliveredAt.Some? && Harmless(op, t[o], t[o].deliveredAt.value)
    ensures o in Step(t, op).0 && Step(t, op).0[o] == t[o]
  {
    hide TableOk, RegisterStep, DeliverStep, ReadStep, AckStep, CancelStep, AgeAll, Prune, Removed;
    match op
    case Register(_, _, _, _) => DeliveredWritten(t, op, o);
    case Deliver(_, _, _, _) => DeliveredWritten(t, op, o);
    case Cleanup(_, _, _) => RowOf(t, o); DeliveredCleanup(t, op, o);
    case _ => DeliveredReached(t, op, o);
  }

  /** A stored payload stays in its row, byte for byte, until it is acknowledged or a cleanup finds
      it older than its retention; the expiry of the request does not matter. */
  lemma {:induction false} PayloadKept(ops: seq<Op>, i: nat, j: nat, o: Hash)
    requires Timely(ops) && i < j <= |ops| && StoredAt(ops, i, o) && o in Run(ops[..i])
    requires forall k :: i < k < j ==> Harmless(ops[k], Run(ops[..i])[o], ops[i].end)
    ensures o in Run(ops[..i + 1]) && o in Run(ops[..j])
    ensures Run(ops[..j])[o] == Run(ops[..i + 1])[o]
    decreases j
  {
    hide Run, Step, DigestOf, Parsed, Sum, TableOk, Harmless;
    StoredRow(ops, i, o);
    if j > i + 1 {
      PayloadKept(ops, i, j - 1, o);
      NextRun(ops, j - 1);
      SameHarm(ops[j - 1], Run(ops[..i])[o], Run(ops[..j - 1])[o], ops[i].end);
      DeliveredStays(Run(ops[..j - 1]), ops[j - 1], o);
    }
  }

  lemma SameHarm(op: Op, r: Row, q: Row, deliveredAt: int)
    requires Harmless(op, r, deliveredAt) && q.readHash == r.readHash
    ensures Harmless(op, q, deliveredAt)
  {
  }

  /** So a read in that time returns exactly the stored payload. */
  lemma Readable(ops: seq<Op>, i: nat, j: nat, o: Hash)
    requires Timely(ops) && i < j < |ops| && StoredAt(ops, i, o) && o in Run(ops[..i])
    requires forall k :: i < k < j ==> Harmless(ops[k], Run(ops[..i])[o], ops[i].end)
    requires ops[j].Read? && Sha256(ops[j].read) == Run(ops[..i])[o].readHash
    ensures AnswerAt(ops, j) == Contents(ops[i].payload)
  {
    hide Run, Step, DigestOf, Parsed, Sum, TableOk, Harmless;
    PayloadKept(ops, i, j, o);
    StoredRow(ops, i, o);
    ReadsBack(Run(ops[..j]), ops[j], o);
  }

  lemma ReadsBack(t: Table, op: Op, o: Hash)
    requires TableOk(t) && o in t && t[o].payload.Some? && op.Read? && Sha256(op.read) == t[o].readHash
    ensures Step(t, op).1 == Contents(t[o].payload.value)
  {
    RowOf(t, o);
    assert UniqueCapabilities(t);
    hide DigestOf, Parsed, Sum, TableOk;
  }

  // ---- no replay ----

  /** A registration never creates the same slot twice: with the old expiry it is refused, even
      after the slot was deleted. */
  lemma NoReplay(ops: seq<Op>, i: nat, j: nat, o: Hash)
    requires Timely(ops) && 0 < i <= j < |ops| && o in Run(ops[..i])
    requires ops[j].Register? && Sha256(ops[j].registration.orderId) == o
      && ops[j].registration.expiresAt == Run(ops[..i])[o].expiresAt
    ensures AnswerAt(ops, j) != Created
    ensures o !in Run(ops[..j]) ==> AnswerAt(ops, j) == BadRequest
  {
    SlotBetween(ops, i, j, o);
    hide Run;
  }

  // ---- what a read returns ----

  /** The payload in a delivered row was stored there by an earlier delivery to the same slot. */
  predicate Delivering(ops: seq<Op>, o: Hash, r: Row) {
    exists i :: 0 <= i < |ops| && StoredAt(ops, i, o) && o in Run(ops[..i]) && Run(ops[..i])[o].expiresAt == r.expiresAt && r.payload == Some(ops[i].payload)
  }

  lemma DeliveringNow(ops: seq<Op>, o: Hash)
    requires ops != [] && StoredAt(ops, |ops| - 1, o) && o in Run(ops)
    ensures Delivering(ops, o, Run(ops)[o])
  {
    var last := |ops| - 1;
    assert ops[..last + 1] == ops;
    StoredRow(ops, last, o);
    assert Run(ops)[o].payload == Some(ops[last].payload);
    hide Run, Step, StoredAt, DigestOf, Parsed, Sum;
  }

  lemma DeliveringStill(ops: seq<Op>, n: nat, o: Hash, r: Row, q: Row)
    requires n <= |ops| && Delivering(ops[..n], o, r) && q.expiresAt == r.expiresAt && q.payload == r.payload
    ensures Delivering(ops, o, q)
  {
    hide Run, Step;
    var before := ops[..n];
    var i :| 0 <= i < |before| && StoredAt(before, i, o) && o in Run(before[..i]) && Run(before[..i])[o].expiresAt == r.expiresAt && r.payload == Some(before[i].payload);
    assert before[..i] == ops[..i];
    assert StoredAt(ops, i, o);
  }

  lemma {:induction false} Provenance(ops: seq<Op>, o: Hash)
    requires o in Run(ops) && Run(ops)[o].payload.Some?
    ensures Delivering(ops, o, Run(ops)[o])
  {
    hide Step, TableOk, Delivering;
    assert ops != [];
    var last := |ops| - 1;
    RunStep(ops);
    hide Run;
    if StoredAt(ops, last, o) {
      DeliveringNow(ops, o);
    } else {
      OldPayload(Run(ops[..last]), ops[last], o);
      Provenance(ops[..last], o);
      DeliveringStill(ops, last, o, Run(ops[..last])[o], Run(ops)[o]);
    }
  }

  /** The row `q` holds a payload, and `t` held it already under the same expiry. */
  predicate Old(t: Table, o: Hash, q: Row) {
    q.payload.Some? ==> o in t && t[o].payload == q.payload && t[o].expiresAt == q.expiresAt
  }

  lemma OldCleanup(t: Table, op: Op, o: Hash)
    requires TableOk(t) && op.Cleanup? && o in Step(t, op).0
    ensures Old(t, o, Step(t, op).0[o])
  {
    hide TableOk, Removed;
  }

  lemma OldCapability(t: Table, op: Op, o: Hash)
    requires TableOk(t) && (op.Read? || op.Ack? || op.Cancel?) && o in Step(t, op).0
    ensures Old(t, o, Step(t, op).0[o])
  {
    assert UniqueCapabilities(t);
    hide TableOk, UniqueCapabilities, CleanupStep, DeliverStep, RegisterStep;
    var found := ByRead(t, Sha256(op.read));
    if found.Some? && found.value == o {
      assert Old(t, o, Expire(t[o], op.start));
    }
  }

  lemma OldRegistration(t: Table, op: Op, o: Hash)
    requires TableOk(t) && op.Register? && o in Step(t, op).0
    ensures Old(t, o, Step(t, op).0[o])
  {
    hide TableOk, Acceptable, DeliverStep, CleanupStep, ReadStep, AckStep, CancelStep;
  }

  lemma OldDelivery(t: Table, op: Op, o: Hash)
    requires TableOk(t) && op.Deliver? && o in Step(t, op).0
    requires !(Step(t, op).1.Stored? && Written(t, op) == Some(o))
    ensures Old(t, o, Step(t, op).0[o])
  {
    assert UniqueCapabilities(t);
    hide DigestOf, Parsed, Sum, TableOk, RegisterStep, CleanupStep, ReadStep, AckStep, CancelStep;
  }

  /** A row that holds a payload after a step held it before, unless the step stored it. */
  lemma OldPayload(t: Table, op: Op, o: Hash)
    requires TableOk(t) && o in Step(t, op).0 && Step(t, op).0[o].payload.Some?
    requires !(op.Deliver? && Step(t, op).1.Stored? && Written(t, op) == Some(o))
    ensures o in t && t[o].payload == Step(t, op).0[o].payload && t[o].expiresAt == Step(t, op).0[o].expiresAt
  {
    hide Step, TableOk, Written;
    match op
    case Cleanup(_, _, _) => OldCleanup(t, op, o);
    case Deliver(_, _, _, _) => OldDelivery(t, op, o);
    case Register(_, _, _, _) => OldRegistration(t, op, o);
    case _ => OldCapability(t, op, o);
  }

  /** Whatever a read returns was stored by one earlier delivery to that very slot; it names the
      order and its proofs sum exactly to the order's amount. */
  lemma ReadsTheStored(ops: seq<Op>, j: nat, o: Hash)
    requires j < |ops| && ops[j].Read? && AnswerAt(ops, j).Contents? && Reached(Run(ops[..j]), ops[j]) == Some(o)
    ensures o in Run(ops[..j])
    ensures var r, p := Run(ops[..j])[o], AnswerAt(ops, j).payload;
      && Delivering(ops[..j], o, r) && r.payload == Some(p) && Sum(p.proofs) == r.amount && Sha256(p.id) == o
  {
    var t := Run(ops[..j]);
    RowOf(t, o);
    Provenance(ops[..j], o);
    hide Run, DigestOf, Parsed;
  }
}
