/** When the mint stays solvent: the node's balance covers the ecash that wallets can spend and every
    locked input, at the configured scale, in every run whose checks only settle payments that the
    rounded fee still covers, and for no other payment. */
module FiberSolvency {
  import opened Ecash
  import opened FiberAmounts
  import opened FiberMelts

  /** The melt's session succeeded and the melt has not been settled: its cost already left the node. */
  predicate PaidOut(w: World, id: nat)
    requires id in w.melts
  {
    w.melts[id].hash in w.sessions && w.sessions[w.melts[id].hash].status.Success? && w.sessions[w.melts[id].hash].sender == id
  }

  function Cost(w: World, id: nat): nat
    requires id in w.melts
  {
    if PaidOut(w, id) then w.melts[id].hash.amount + w.sessions[w.melts[id].hash].fee else 0
  }

  /** What a locked melt still needs the balance for. */
  function Due(w: World, id: nat): int
    requires id in w.melts
  {
    ToBase(w.melts[id].inputs, w.scale) - Cost(w, id)
  }

  predicate MeltOk(w: World, id: nat)
    requires id in w.melts && w.scale > 0
  {
    var m := w.melts[id];
    && m.hash.amount + ToBase(m.reserve, w.scale) <= ToBase(m.inputs, w.scale)
    && (m.hash in w.sessions && w.sessions[m.hash].sender == id ==>
          w.sessions[m.hash].maxFee == ToBase(m.reserve, w.scale) && w.sessions[m.hash].fee <= w.sessions[m.hash].maxFee
          && (m.phase.Sending? ==> w.sessions[m.hash].status.Failed?))
    && (m.phase.Returning? && m.phase.response.StateFailed? && m.hash in w.sessions && w.sessions[m.hash].sender == id ==>
          w.sessions[m.hash].status.Failed?)
    && (m.phase.Returning? && m.phase.response.StatePaid? ==>
          && m.hash in w.sessions && w.sessions[m.hash].status.Success? && m.phase.priced in {m.hash.amount, 0}
          && FromBaseCeil(m.phase.priced + w.sessions[m.hash].fee, w.scale) == Some(m.phase.response.spent))
  }

  /** The charge of a paid answer covers what the node spent. */
  predicate FairAt(w: World, id: nat)
    requires id in w.melts
  {
    var m := w.melts[id];
    m.phase.Returning? && m.phase.response.StatePaid? && m.hash in w.sessions ==>
      m.hash.amount + w.sessions[m.hash].fee <= ToBase(m.phase.response.spent, w.scale)
  }

  predicate Fair(w: World) { forall id :: id in w.melts ==> FairAt(w, id) }

  function Dues(w: World): map<nat, nat>
    requires w.scale > 0 && forall id :: id in w.melts ==> MeltOk(w, id)
  {
    map id | id in w.melts :: DueNat(w, id)
  }

  function DueNat(w: World, id: nat): (d: nat)
    requires id in w.melts && w.scale > 0 && MeltOk(w, id)
    ensures d == Due(w, id)
  {
    Due(w, id)
  }

  /** The sender of a running session is a melt that still waits; a sender is a melt of that hash. */
  predicate SendersOk(w: World) {
    && (forall h :: h in w.sessions && w.sessions[h].sender in w.melts ==> w.melts[w.sessions[h].sender].hash == h)
    && (forall h :: h in w.sessions && !Terminal(w.sessions[h].status) ==> w.sessions[h].sender in w.melts)
  }

  /** A reported invoice is a paid one. */
  predicate CreditsOk(w: World) {
    forall i :: i in w.invoices && w.invoices[i].credited ==> w.invoices[i].status.Paid?
  }

  /** What paid invoices still owe their wallets. */
  function Uncredited(w: World): map<nat, nat> {
    map i | i in w.invoices && w.invoices[i].status.Paid? && !w.invoices[i].credited :: w.invoices[i].amount
  }

  predicate Sound(w: World) {
    w.scale > 0 && (forall id :: id in w.melts ==> MeltOk(w, id)) && SendersOk(w) && CreditsOk(w)
  }

  ghost predicate Backed(w: World)
    requires Sound(w)
  {
    w.balance >= ToBase(w.outstanding, w.scale) + Worth(w.melts.Keys, Dues(w)) + Worth(Uncredited(w).Keys, Uncredited(w))
  }

  ghost predicate Keeps(w: World, v: World)
    requires Sound(w)
  {
    Sound(v) && (Backed(w) ==> Backed(v))
  }

  // ---- sums over maps ----

  lemma WorthUpdate(m: map<nat, nat>, n: map<nat, nat>, k: nat)
    requires m.Keys == n.Keys && k in m && forall i :: i in m && i != k ==> n[i] == m[i]
    ensures Worth(m.Keys, m) + n[k] == Worth(n.Keys, n) + m[k]
  {
    WorthRemove(m.Keys, m, k);
    WorthRemove(n.Keys, n, k);
    WorthAgrees(m.Keys - {k}, m, n);
  }

  lemma WorthAdd(m: map<nat, nat>, n: map<nat, nat>, k: nat)
    requires k !in m && n.Keys == m.Keys + {k} && forall i :: i in m ==> n[i] == m[i]
    ensures Worth(n.Keys, n) == Worth(m.Keys, m) + n[k]
  {
    WorthRemove(n.Keys, n, k);
    WorthAgrees(m.Keys, m, n);
    assert n.Keys - {k} == m.Keys;
  }

  lemma WorthSame(m: map<nat, nat>, n: map<nat, nat>)
    requires m.Keys == n.Keys && forall i :: i in m ==> n[i] == m[i]
    ensures Worth(n.Keys, n) == Worth(m.Keys, m)
  {
    WorthAgrees(m.Keys, m, n);
  }

  lemma Adds(a: nat, b: nat, scale: nat)
    ensures ToBase(a + b, scale) == ToBase(a, scale) + ToBase(b, scale)
  {
  }

  // ---- deposits ----

  lemma SameMelts(w: World, v: World)
    requires w.scale > 0 && (forall id :: id in w.melts ==> MeltOk(w, id)) && v.melts == w.melts && v.sessions == w.sessions
      && v.scale == w.scale
    ensures (forall id :: id in v.melts ==> MeltOk(v, id)) && Worth(v.melts.Keys, Dues(v)) == Worth(w.melts.Keys, Dues(w))
  {
    assert forall id :: id in v.melts ==> MeltOk(v, id) by {
      forall id | id in v.melts ensures MeltOk(v, id) { assert MeltOk(w, id); }
    }
    hide MeltOk;
    WorthSame(Dues(w), Dues(v));
    assert Dues(w).Keys == w.melts.Keys && Dues(v).Keys == v.melts.Keys;
  }

  lemma OpenKeeps(w: World, i: nat, ecash: nat)
    requires Sound(w)
    ensures Keeps(w, OpenInvoice(w, i, ecash))
  {
    hide MeltOk, ToBase;
    var v := OpenInvoice(w, i, ecash);
    SameMelts(w, v);
    assert Uncredited(v) == Uncredited(w);
    hide Uncredited, SendersOk;
  }

  lemma MoveInvoiceKeeps(w: World, i: nat, to: InvoiceStatus)
    requires Sound(w)
    ensures Keeps(w, MoveInvoice(w, i, to))
  {
    hide MeltOk, ToBase;
    var v := MoveInvoice(w, i, to);
    SameMelts(w, v);
    assert v != w ==> !w.invoices[i].credited;
    MovedInvoice(w, v, i, to);
    hide Uncredited;
  }

  lemma MovedInvoice(w: World, v: World, i: nat, to: InvoiceStatus)
    requires v == MoveInvoice(w, i, to) && (v != w ==> !w.invoices[i].credited)
    ensures Worth(Uncredited(v).Keys, Uncredited(v)) - Worth(Uncredited(w).Keys, Uncredited(w)) == v.balance - w.balance
  {
    if v != w && to.Paid? {
      WorthAdd(Uncredited(w), Uncredited(v), i);
    } else {
      assert Uncredited(v) == Uncredited(w);
    }
  }

  lemma CreditKeeps(w: World, i: nat)
    requires Sound(w)
    ensures Keeps(w, Credit(w, i))
  {
    hide MeltOk, ToBase;
    var v := Credit(w, i);
    SameMelts(w, v);
    if v != w {
      var floor := FromBaseFloor(w.invoices[i].amount, w.scale).value;
      FloorIsGreatest(w.invoices[i].amount, w.scale, floor);
      Adds(w.outstanding, floor, w.scale);
      CreditedOnce(w, v, i);
    }
  }

  lemma CreditedOnce(w: World, v: World, i: nat)
    requires i in w.invoices && w.invoices[i].status.Paid? && !w.invoices[i].credited
      && v.invoices == w.invoices[i := w.invoices[i].(credited := true)]
    ensures Worth(Uncredited(w).Keys, Uncredited(w)) == Worth(Uncredited(v).Keys, Uncredited(v)) + w.invoices[i].amount
  {
    WorthAdd(Uncredited(v), Uncredited(w), i);
  }

  // ---- melts ----

  lemma BeginKeeps(w: World, id: nat, hash: Hash, reserve: nat, inputs: nat)
    requires Sound(w)
    ensures Keeps(w, BeginMelt(w, id, hash, reserve, inputs))
  {
    hide MeltOk, Cost, ToBase, FromBaseCeil;
    var v := BeginMelt(w, id, hash, reserve, inputs);
    if v != w {
      BeginMelts(w, v, id);
      assert Uncredited(v) == Uncredited(w);
      Adds(v.outstanding, inputs, w.scale);
    }
    hide Uncredited;
  }

  lemma BeginMelts(w: World, v: World, id: nat)
    requires w.scale > 0 && v.scale == w.scale && (forall k :: k in w.melts ==> MeltOk(w, k)) && id in v.melts
      && v == BeginMelt(w, id, v.melts[id].hash, v.melts[id].reserve, v.melts[id].inputs) && v != w
    ensures forall k :: k in v.melts ==> MeltOk(v, k)
    ensures Worth(v.melts.Keys, Dues(v)) == Worth(w.melts.Keys, Dues(w)) + ToBase(v.melts[id].inputs, v.scale)
  {
    var m := v.melts[id];
    var amount := FromBaseCeil(m.hash.amount, w.scale).value;
    CeilIsLeast(m.hash.amount, w.scale, amount);
    assert ToBase(amount + m.reserve, w.scale) == ToBase(amount, w.scale) + ToBase(m.reserve, w.scale);
    MulLe(amount + m.reserve, m.inputs, w.scale);
    forall k | k in v.melts ensures MeltOk(v, k) { if k != id { assert MeltOk(w, k); } }
    hide MeltOk;
    assert forall k :: k in w.melts ==> Due(v, k) == Due(w, k);
    WorthAdd(Dues(w), Dues(v), id);
    assert Dues(w).Keys == w.melts.Keys && Dues(v).Keys == v.melts.Keys;
  }

  /** Steps that change one melt's phase and the log. */
  predicate Rephased(w: World, v: World, id: nat)
    requires id in w.melts
  {
    v == w.(melts := v.melts, log := v.log) && id in v.melts && v.melts == w.melts[id := w.melts[id].(phase := v.melts[id].phase)]
  }

  lemma RephasedMelts(w: World, v: World, id: nat)
    requires w.scale > 0 && (forall k :: k in w.melts ==> MeltOk(w, k)) && id in w.melts && Rephased(w, v, id) && MeltOk(v, id)
    ensures forall k :: k in v.melts ==> MeltOk(v, k) && Due(v, k) == Due(w, k)
  {
    hide ToBase, FromBaseCeil;
    forall k | k in v.melts ensures MeltOk(v, k) && Due(v, k) == Due(w, k) { if k != id { assert MeltOk(w, k); } }
  }

  lemma RephasedSenders(w: World, v: World, id: nat)
    requires SendersOk(w) && id in w.melts && Rephased(w, v, id)
    ensures SendersOk(v)
  {
  }

  /** A melt that only changes its phase. */
  lemma RephasedKeeps(w: World, v: World, id: nat)
    requires Sound(w) && id in w.melts && Rephased(w, v, id) && MeltOk(v, id)
    ensures Keeps(w, v)
  {
    hide ToBase, MeltOk, Due, SendersOk;
    RephasedMelts(w, v, id);
    RephasedSenders(w, v, id);
    SameDues(w, v);
    assert Uncredited(v) == Uncredited(w);
  }

  /** A response priced with the amount of the invoice, or with none. */
  lemma AnswerOk(w: World, r: World, id: nat, amount: nat)
    requires Sound(w) && id in w.melts && w.melts[id].hash in w.sessions && r == w.(log := r.log) && amount in {w.melts[id].hash.amount, 0}
    requires !w.melts[id].phase.Sending?
    ensures var v := Answer(r, id, w.sessions[w.melts[id].hash], amount); Rephased(w, v, id) && MeltOk(v, id)
  {
    assert MeltOk(w, id);
    hide Sound, ToBase, FromBaseCeil;
  }

  lemma PlainOk(w: World, v: World, id: nat)
    requires Sound(w) && id in w.melts && Rephased(w, v, id)
    requires var phase := v.melts[id].phase;
      phase.Stuck? || phase.Looking? || phase == w.melts[id].phase || (phase.Returning? && phase.response.StatePending?)
        || (phase.Sending? && Accepts(w, w.melts[id].hash))
    ensures MeltOk(v, id)
  {
    assert MeltOk(w, id);
    hide Sound, ToBase, FromBaseCeil;
  }

  lemma LookupKeeps(w: World, id: nat, answered: bool)
    requires Sound(w)
    ensures Keeps(w, Lookup(w, id, answered))
  {
    var v := Lookup(w, id, answered);
    assert Keeps(w, w);
    hide Sound, Keeps, MeltOk, Answer;
    if id in w.melts && w.melts[id].phase.Looking? && w.scale > 0 {
      if answered && !Accepts(w, w.melts[id].hash) {
        AnswerOk(w, Report(w, id, StatusOf(w, w.melts[id].hash)), id, w.melts[id].hash.amount);
      } else {
        PlainOk(w, v, id);
      }
      RephasedKeeps(w, v, id);
    }
  }

  lemma SendKeeps(w: World, id: nat, reaches: bool, answered: bool)
    requires Sound(w)
    ensures Keeps(w, Send(w, id, reaches, answered))
  {
    var v := Send(w, id, reaches, answered);
    assert Keeps(w, w);
    hide Sound, Keeps, MeltOk, ToBase;
    if id in w.melts && w.melts[id].phase.Sending? {
      if reaches && Accepts(w, w.melts[id].hash) {
        SendOpens(w, v, id);
      } else {
        PlainOk(w, v, id);
        RephasedKeeps(w, v, id);
      }
    }
  }

  /** A session opened for melt `id`, whose last session, if any, has failed. */
  predicate Opened(w: World, v: World, id: nat)
    requires id in w.melts
  {
    && Accepts(w, w.melts[id].hash) && v == w.(melts := v.melts, log := v.log, sessions := v.sessions) && id in v.melts
    && v.melts == w.melts[id := w.melts[id].(phase := v.melts[id].phase)] && v.melts[id].phase in {Polling, Stuck}
    && v.sessions == w.sessions[w.melts[id].hash := Session(Created, ToBase(w.melts[id].reserve, w.scale), 0, id)]
  }

  lemma SendOpens(w: World, v: World, id: nat)
    requires Sound(w) && id in w.melts && Opened(w, v, id)
    ensures Keeps(w, v)
  {
    hide ToBase, MeltOk, Due, SendersOk;
    SentMelts(w, v, id);
    OpenedSenders(w, v, id);
    SameDues(w, v);
    assert Uncredited(v) == Uncredited(w);
  }

  lemma OpenedSenders(w: World, v: World, id: nat)
    requires SendersOk(w) && id in w.melts && Opened(w, v, id)
    ensures SendersOk(v)
  {
    hide ToBase;
  }

  lemma SentMelts(w: World, v: World, id: nat)
    requires w.scale > 0 && (forall k :: k in w.melts ==> MeltOk(w, k)) && id in w.melts && Opened(w, v, id)
    ensures forall k :: k in v.melts ==> MeltOk(v, k) && Due(v, k) == Due(w, k)
  {
    hide ToBase, FromBaseCeil;
    forall k | k in v.melts ensures MeltOk(v, k) && Due(v, k) == Due(w, k) { assert MeltOk(w, k); }
  }

  lemma SameDues(w: World, v: World)
    requires w.scale > 0 && v.scale == w.scale && (forall k :: k in w.melts ==> MeltOk(w, k)) && (forall k :: k in v.melts ==> MeltOk(v, k))
    requires v.melts.Keys == w.melts.Keys && forall k :: k in w.melts ==> Due(v, k) == Due(w, k)
    ensures Worth(v.melts.Keys, Dues(v)) == Worth(w.melts.Keys, Dues(w))
  {
    hide MeltOk, Due;
    WorthSame(Dues(w), Dues(v));
    assert Dues(w).Keys == w.melts.Keys && Dues(v).Keys == v.melts.Keys;
  }

  lemma SessionKeeps(w: World, h: Hash, to: Status, fee: nat)
    requires Sound(w)
    ensures Keeps(w, MoveSession(w, h, to, fee))
  {
    hide ToBase;
    var v := MoveSession(w, h, to, fee);
    if v != w {
      var id := w.sessions[h].sender;
      MovedMelts(w, v, h, to, fee);
      hide MeltOk, Due;
      OneDue(w, v, id);
      assert Uncredited(v) == Uncredited(w);
    }
  }

  lemma MovedMelts(w: World, v: World, h: Hash, to: Status, fee: nat)
    requires w.scale > 0 && (forall k :: k in w.melts ==> MeltOk(w, k)) && SendersOk(w) && v == MoveSession(w, h, to, fee) && v != w
    ensures w.sessions[h].sender in w.melts && v.scale == w.scale
      && v.balance - w.balance == Due(v, w.sessions[h].sender) - Due(w, w.sessions[h].sender)
    ensures forall k :: k in v.melts ==> MeltOk(v, k) && (k != w.sessions[h].sender ==> Due(v, k) == Due(w, k))
  {
    hide ToBase, FromBaseCeil;
    var id := w.sessions[h].sender;
    forall k | k in v.melts ensures MeltOk(v, k) && (k != id ==> Due(v, k) == Due(w, k)) { assert MeltOk(w, k); }
  }

  lemma OneDue(w: World, v: World, id: nat)
    requires w.scale > 0 && v.scale == w.scale
    requires (forall k :: k in w.melts ==> MeltOk(w, k)) && (forall k :: k in v.melts ==> MeltOk(v, k)) && id in w.melts
    requires v.melts.Keys == w.melts.Keys && forall k :: k in w.melts && k != id ==> Due(v, k) == Due(w, k)
    ensures Worth(v.melts.Keys, Dues(v)) - Due(v, id) == Worth(w.melts.Keys, Dues(w)) - Due(w, id)
  {
    hide MeltOk, Due;
    WorthUpdate(Dues(w), Dues(v), id);
    assert Dues(w).Keys == w.melts.Keys && Dues(v).Keys == v.melts.Keys;
  }

  lemma PollKeeps(w: World, id: nat, poll: Poll)
    requires Sound(w)
    ensures Keeps(w, PollOnce(w, id, poll)) && Keeps(w, TimeOut(w, id))
  {
    var v, t := PollOnce(w, id, poll), TimeOut(w, id);
    assert Keeps(w, w);
    hide Sound, Keeps, MeltOk, Answer;
    if id in w.melts && w.melts[id].phase.Polling? && w.scale > 0 {
      PlainOk(w, t, id);
      RephasedKeeps(w, t, id);
      if poll.Seen? && w.melts[id].hash in w.sessions && Terminal(w.sessions[w.melts[id].hash].status) {
        AnswerOk(w, Report(w, id, StatusOf(w, w.melts[id].hash)), id, w.melts[id].hash.amount);
      } else {
        assert Rephased(w, v, id);
        PlainOk(w, v, id);
      }
      RephasedKeeps(w, v, id);
    }
  }

  lemma CheckKeeps(w: World, id: nat, answered: bool)
    requires Sound(w)
    ensures Keeps(w, Check(w, id, answered)) && Keeps(w, Retry(w, id))
  {
    var v, t := Check(w, id, answered), Retry(w, id);
    assert Keeps(w, w);
    hide Sound, Keeps, MeltOk, Answer;
    if id in w.melts && w.melts[id].phase.Stuck? && w.scale > 0 {
      PlainOk(w, t, id);
      RephasedKeeps(w, t, id);
      if answered && w.melts[id].hash in w.sessions {
        AnswerOk(w, Report(w, id, StatusOf(w, w.melts[id].hash)), id, 0);
      } else {
        assert Rephased(w, v, id);
        PlainOk(w, v, id);
      }
      RephasedKeeps(w, v, id);
    }
  }

  /** What the mint gives back is at most what the melt was due, if the answer was fair. */
  lemma ReturnedIsDue(w: World, id: nat, given: nat)
    requires id in w.melts && w.scale > 0 && MeltOk(w, id) && FairAt(w, id) && w.melts[id].phase.Returning? && !w.melts[id].phase.response.StatePending?
    requires given == Given(w.melts[id])
    ensures ToBase(given, w.scale) <= Due(w, id)
  {
    var m := w.melts[id];
    if m.phase.response.StatePaid? && m.phase.response.spent <= m.inputs { Adds(given, m.phase.response.spent, w.scale); }
    assert ToBase(0, w.scale) == 0;
    hide ToBase;
  }

  /** What a returned melt gives back. */
  function Given(m: Melt): nat
    requires m.phase.Returning? && !m.phase.response.StatePending?
  {
    if m.phase.response.StateFailed? then m.inputs else if m.phase.response.spent <= m.inputs then m.inputs - m.phase.response.spent else 0
  }

  lemma ReturnPends(w: World, id: nat)
    requires Sound(w) && id in w.melts && w.melts[id].phase.Returning? && w.melts[id].phase.response.StatePending?
    ensures Keeps(w, Return(w, id))
  {
    hide Sound, Keeps, MeltOk;
    PlainOk(w, Return(w, id), id);
    RephasedKeeps(w, Return(w, id), id);
  }

  lemma ReturnIs(w: World, id: nat)
    requires id in w.melts && w.melts[id].phase.Returning? && !w.melts[id].phase.response.StatePending?
    ensures Return(w, id) == w.(melts := w.melts - {id}, outstanding := w.outstanding + Given(w.melts[id]))
  {
  }

  lemma ReturnRemoves(w: World, id: nat)
    requires Sound(w) && id in w.melts && w.melts[id].phase.Returning? && !w.melts[id].phase.response.StatePending?
    ensures Sound(Return(w, id)) && (FairAt(w, id) ==> Keeps(w, Return(w, id)))
  {
    assert w.scale > 0 && MeltOk(w, id);
    hide ToBase, FairAt, MeltOk, Due, Sound, Backed, ReturnEnds, Given, Return;
    ReturnTerminal(w, id);
    ReturnIs(w, id);
    if FairAt(w, id) { ReturnedIsDue(w, id, Given(w.melts[id])); }
    RemoveKeeps(w, id, Given(w.melts[id]));
  }

  lemma ReturnKeeps(w: World, id: nat)
    requires Sound(w)
    ensures Sound(Return(w, id)) && (id in w.melts && FairAt(w, id) ==> Keeps(w, Return(w, id)))
    ensures id !in w.melts ==> Return(w, id) == w
  {
    hide Sound, FairAt, Backed;
    if id in w.melts && w.melts[id].phase.Returning? {
      if w.melts[id].phase.response.StatePending? { ReturnPends(w, id); } else { ReturnRemoves(w, id); }
    }
  }

  /** The session of a melt that is returned no longer runs. */
  predicate ReturnEnds(w: World, id: nat)
    requires id in w.melts
  {
    w.melts[id].hash in w.sessions && w.sessions[w.melts[id].hash].sender == id ==> Terminal(w.sessions[w.melts[id].hash].status)
  }

  lemma ReturnTerminal(w: World, id: nat)
    requires w.scale > 0 && id in w.melts && MeltOk(w, id) && w.melts[id].phase.Returning? && !w.melts[id].phase.response.StatePending?
    ensures ReturnEnds(w, id)
  {
  }

  lemma RemoveKeeps(w: World, id: nat, given: nat)
    requires Sound(w) && id in w.melts && ReturnEnds(w, id)
    ensures var v := w.(melts := w.melts - {id}, outstanding := w.outstanding + given);
      Sound(v) && (ToBase(given, w.scale) <= Due(w, id) ==> Keeps(w, v))
  {
    hide ToBase;
    var v := w.(melts := w.melts - {id}, outstanding := w.outstanding + given);
    Removed(w, v, id);
    Adds(w.outstanding, given, w.scale);
    hide MeltOk, Due;
    assert Uncredited(v) == Uncredited(w);
  }

  lemma Removed(w: World, v: World, id: nat)
    requires w.scale > 0 && (forall k :: k in w.melts ==> MeltOk(w, k)) && id in w.melts && v.melts == w.melts - {id}
      && v.sessions == w.sessions && v.scale == w.scale
    ensures forall k :: k in v.melts ==> MeltOk(v, k)
    ensures Worth(w.melts.Keys, Dues(w)) == Worth(v.melts.Keys, Dues(v)) + Due(w, id)
  {
    hide ToBase;
    forall k | k in v.melts ensures MeltOk(v, k) && Due(v, k) == Due(w, k) { assert MeltOk(w, k); }
    hide MeltOk, Due;
    WorthAdd(Dues(v), Dues(w), id);
    assert Dues(w).Keys == w.melts.Keys && Dues(v).Keys == v.melts.Keys;
  }

  // ---- the law ----

  lemma StepKeeps(w: World, e: Event)
    requires Sound(w)
    ensures Sound(Step(w, e)) && ((e.EReturn? && e.id in w.melts ==> FairAt(w, e.id)) ==> Keeps(w, Step(w, e)))
  {
    assert Keeps(w, w);
    hide Sound, OpenInvoice, MoveInvoice, Credit, BeginMelt, Lookup, Send, MoveSession, PollOnce, TimeOut, Check, Retry, Return, FairAt;
    match e
    case EOpen(i, n) => OpenKeeps(w, i, n);
    case EMove(i, to) => MoveInvoiceKeeps(w, i, to);
    case ECredit(i) => CreditKeeps(w, i);
    case EBegin(id, h, r, n) => BeginKeeps(w, id, h, r, n);
    case ELookup(id, a) => LookupKeeps(w, id, a);
    case ESend(id, r, a) => SendKeeps(w, id, r, a);
    case ESession(h, s, f) => SessionKeeps(w, h, s, f);
    case EPoll(id, p) => PollKeeps(w, id, p);
    case ETimeOut(id) => PollKeeps(w, id, Seen);
    case EReturn(id) => ReturnKeeps(w, id);
    case ECheck(id, a) => CheckKeeps(w, id, a);
    case ERetry(id) => CheckKeeps(w, id, true);
  }

  lemma FreshSound(scale: nat, balance: nat)
    requires scale > 0
    ensures Sound(Fresh(scale, balance)) && Backed(Fresh(scale, balance)) && Fair(Fresh(scale, balance))
  {
    var w := Fresh(scale, balance);
    assert Dues(w) == map[] && Uncredited(w) == map[];
    assert w.melts.Keys == {};
  }

  lemma {:induction false} RunSound(scale: nat, balance: nat, es: seq<Event>)
    requires scale > 0
    ensures Sound(Run(Fresh(scale, balance), es))
  {
    if es == [] {
      FreshSound(scale, balance);
    } else {
      RunSound(scale, balance, es[..|es| - 1]);
      StepKeeps(Run(Fresh(scale, balance), es[..|es| - 1]), es[|es| - 1]);
      hide Sound, Step;
    }
  }

  // ---- fair charges ----

  /** A check that finds a success settles an amount that the rounded fee covers. */
  predicate Covered(w: World, e: Event) {
    e.ECheck? && e.answered && e.id in w.melts && w.melts[e.id].phase.Stuck? && w.scale > 0 && w.melts[e.id].hash in w.sessions
      && w.sessions[w.melts[e.id].hash].status.Success? ==>
        CoveredByFee(w.melts[e.id].hash.amount, w.sessions[w.melts[e.id].hash].fee, w.scale)
  }

  predicate CoveredRun(w: World, es: seq<Event>) {
    es == [] || (CoveredRun(w, es[..|es| - 1]) && Covered(Run(w, es[..|es| - 1]), es[|es| - 1]))
  }

  lemma RephasedFair(w: World, v: World, id: nat)
    requires Fair(w) && id in w.melts && Rephased(w, v, id) && FairAt(v, id)
    ensures Fair(v)
  {
    hide ToBase;
    forall k | k in v.melts ensures FairAt(v, k) { if k != id { assert FairAt(w, k); } }
  }

  lemma AnswerFair(w: World, r: World, id: nat, amount: nat)
    requires w.scale > 0 && id in w.melts && w.melts[id].hash in w.sessions && r == w.(log := r.log)
    requires var m := w.melts[id]; var s := w.sessions[m.hash];
      amount == m.hash.amount || (amount == 0 && (s.status.Success? ==> CoveredByFee(m.hash.amount, s.fee, w.scale)))
    ensures var v := Answer(r, id, w.sessions[w.melts[id].hash], amount); Rephased(w, v, id) && FairAt(v, id)
  {
    var m, s := w.melts[id], w.sessions[w.melts[id].hash];
    CheckUndercharges(m.hash.amount, s.fee, w.scale);
    CeilLeast(amount + s.fee, w.scale, CeilDiv(amount + s.fee, w.scale));
    hide CeilDiv, CoveredByFee;
  }

  lemma LookupFair(w: World, id: nat, answered: bool)
    requires Fair(w)
    ensures Fair(Lookup(w, id, answered))
  {
    hide Fair, Answer;
    if id in w.melts && w.melts[id].phase.Looking? && w.scale > 0 {
      if w.melts[id].hash in w.sessions { AnswerFair(w, Report(w, id, StatusOf(w, w.melts[id].hash)), id, w.melts[id].hash.amount); }
      RephasedFair(w, Lookup(w, id, answered), id);
    }
  }

  lemma PollFair(w: World, id: nat, poll: Poll)
    requires Fair(w)
    ensures Fair(PollOnce(w, id, poll)) && Fair(TimeOut(w, id)) && Fair(Retry(w, id))
  {
    hide Fair, Answer;
    if id in w.melts && w.melts[id].phase.Polling? && w.scale > 0 {
      if w.melts[id].hash in w.sessions { AnswerFair(w, Report(w, id, StatusOf(w, w.melts[id].hash)), id, w.melts[id].hash.amount); }
      assert Rephased(w, PollOnce(w, id, poll), id);
      RephasedFair(w, PollOnce(w, id, poll), id);
    }
    if id in w.melts {
      if w.melts[id].phase.Polling? { RephasedFair(w, TimeOut(w, id), id); }
      if w.melts[id].phase.Stuck? { RephasedFair(w, Retry(w, id), id); }
    }
  }

  lemma CheckFair(w: World, id: nat, answered: bool)
    requires Fair(w) && Covered(w, ECheck(id, answered))
    ensures Fair(Check(w, id, answered))
  {
    hide Fair, Answer, CoveredByFee;
    if id in w.melts && w.melts[id].phase.Stuck? && w.scale > 0 && answered {
      if w.melts[id].hash in w.sessions { AnswerFair(w, Report(w, id, StatusOf(w, w.melts[id].hash)), id, 0); }
      assert Rephased(w, Check(w, id, answered), id);
      RephasedFair(w, Check(w, id, answered), id);
    }
  }

  /** A paid answer rests on a success, which no send and no move touches. */
  lemma NodeFair(w: World, id: nat, reaches: bool, answered: bool, h: Hash, to: Status, fee: nat)
    requires Sound(w) && Fair(w)
    ensures Fair(Send(w, id, reaches, answered)) && Fair(MoveSession(w, h, to, fee))
  {
    hide ToBase, FromBaseCeil;
    var v, t := Send(w, id, reaches, answered), MoveSession(w, h, to, fee);
    forall k | k in v.melts ensures FairAt(v, k) { assert MeltOk(w, k) && FairAt(w, k); }
    forall k | k in t.melts ensures FairAt(t, k) { assert MeltOk(w, k) && FairAt(w, k); }
  }

  lemma RestFair(w: World, e: Event)
    requires Fair(w) && (e.EOpen? || e.EMove? || e.ECredit? || e.EBegin? || e.EReturn?)
    ensures Fair(Step(w, e))
  {
    hide ToBase, FromBaseCeil, FromBaseFloor, Lookup, Send, MoveSession, PollOnce, TimeOut, Check, Retry;
    forall k | k in Step(w, e).melts ensures FairAt(Step(w, e), k) { assert k in w.melts ==> FairAt(w, k); }
  }

  lemma StepFair(w: World, e: Event)
    requires Sound(w) && Fair(w) && Covered(w, e)
    ensures Fair(Step(w, e))
  {
    hide Sound, Fair, Covered, OpenInvoice, MoveInvoice, Credit, BeginMelt, Lookup, Send, MoveSession, PollOnce, TimeOut, Check, Retry, Return;
    match e
    case ELookup(id, a) => LookupFair(w, id, a);
    case ESend(id, r, a) => NodeFair(w, id, r, a, Hash(0, 0), Created, 0);
    case ESession(h, s, f) => NodeFair(w, 0, false, false, h, s, f);
    case EPoll(id, p) => PollFair(w, id, p);
    case ETimeOut(id) => PollFair(w, id, Seen);
    case ECheck(id, a) => CheckFair(w, id, a);
    case ERetry(id) => PollFair(w, id, Seen);
    case _ => RestFair(w, e);
  }

  lemma {:induction false} RunBacked(scale: nat, balance: nat, es: seq<Event>)
    requires scale > 0 && CoveredRun(Fresh(scale, balance), es)
    ensures var w := Run(Fresh(scale, balance), es); Sound(w) && Fair(w) && Backed(w)
  {
    if es == [] {
      FreshSound(scale, balance);
    } else {
      var w, e := Run(Fresh(scale, balance), es[..|es| - 1]), es[|es| - 1];
      RunBacked(scale, balance, es[..|es| - 1]);
      StepKeeps(w, e);
      StepFair(w, e);
      hide Sound, Step, Covered;
    }
  }

  /** The balance covers the ecash out, and only paid invoices were credited. */
  predicate SolventNow(w: World) {
    w.balance >= ToBase(w.outstanding, w.scale) && forall i :: i in w.invoices && w.invoices[i].credited ==> w.invoices[i].status.Paid?
  }

  /** In every interleaving of deposits, each credited once and only when paid, and of melts made by
      `make_payment`, with lost answers, repeated calls, retries of failed sessions and several melts
      of one invoice, the node's balance is never below the outstanding ecash in base units, as long
      as checks settle only payments that the rounded fee covers. */
  lemma MintIsSolvent(scale: nat, balance: nat, es: seq<Event>)
    requires scale > 0 && CoveredRun(Fresh(scale, balance), es)
    ensures SolventNow(Run(Fresh(scale, balance), es))
  {
    RunBacked(scale, balance, es);
    hide Run, MeltOk, CoveredRun, Fair, SendersOk;
  }

  /** An answer still stands when the mint acts on it, whatever happened since: a melt answered failed
      has no send of its own running or succeeded, and one answered paid rests on a success and
      charges its fee and, unless a check answered, its amount. */
  lemma AnswersStand(scale: nat, balance: nat, es: seq<Event>, id: nat)
    requires scale > 0 && id in Run(Fresh(scale, balance), es).melts
    ensures var w := Run(Fresh(scale, balance), es); var m := w.melts[id];
      && w.scale > 0
      && (m.phase.Returning? && m.phase.response.StateFailed? && m.hash in w.sessions && w.sessions[m.hash].sender == id ==>
            w.sessions[m.hash].status.Failed?)
      && (m.phase.Returning? && m.phase.response.StatePaid? ==>
            && m.hash in w.sessions && w.sessions[m.hash].status.Success? && m.phase.priced in {m.hash.amount, 0}
            && FromBaseCeil(m.phase.priced + w.sessions[m.hash].fee, w.scale) == Some(m.phase.response.spent))
  {
    RunSound(scale, balance, es);
    hide Run, FromBaseCeil;
    assert MeltOk(Run(Fresh(scale, balance), es), id);
  }
}
