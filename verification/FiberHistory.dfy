/** What every answer and every send of the adapter rests on, over whole runs: the log of what the node
    reported and did, of what was sent, and of what the mint was told. */
module FiberHistory {
  import opened Ecash
  import opened FiberAmounts
  import opened FiberMelts

  // ---- what the log says ----

  /** The node opened or moved the session of this hash. */
  predicate About(e: Entry, h: Hash) {
    (e.Sent? && e.accepted && e.hash == h) || (e.Moved? && e.hash == h)
  }

  predicate NoneAbout(log: seq<Entry>, h: Hash) { forall k :: 0 <= k < |log| ==> !About(log[k], h) }

  /** Entry `j` is the node's last move of this session before entry `end`. */
  predicate LastMove(log: seq<Entry>, j: nat, end: nat, h: Hash, status: Status, fee: nat) {
    j < end <= |log| && log[j] == Moved(h, status, fee) && forall k :: j < k < end ==> !About(log[k], h)
  }

  predicate LastMoved(log: seq<Entry>, end: nat, h: Hash, status: Status, fee: nat) {
    end <= |log| && exists j :: 0 <= j < end && LastMove(log, j, end, h, status, fee)
  }

  /** Entry `j` told melt `id` that the node knows no session of its hash, or a failed one. */
  predicate Clear(e: Entry, id: nat, h: Hash) {
    e.Told? && e.id == id && e.hash == h && (e.found.None? || e.found == Some(Failed))
  }

  /** A call of melt `id` was told something, sent something or was answered. */
  predicate By(e: Entry, id: nat) { !e.Moved? && e.id == id }

  /** The clear report `j` is the last entry of melt `id` before entry `end`. */
  predicate ClearAt(log: seq<Entry>, j: nat, end: nat, id: nat, h: Hash) {
    j < end <= |log| && Clear(log[j], id, h) && forall k :: j < k < end ==> !By(log[k], id)
  }

  predicate ClearedFor(log: seq<Entry>, end: nat, id: nat, h: Hash) {
    end <= |log| && exists j :: 0 <= j < end && ClearAt(log, j, end, id, h)
  }

  /** The entry just before told melt `id` of this status. */
  predicate ToldLast(log: seq<Entry>, i: nat, id: nat, h: Hash, status: Status) {
    0 < i <= |log| && log[i - 1] == Told(id, h, Some(status))
  }

  /** The last entry of a melt before it sends is its own clear report; a failed answer follows the node's failing of the
      session, with no send accepted for the hash since; a paid answer follows its success, with the
      fee it charged. */
  ghost predicate Justified(log: seq<Entry>, i: nat, scale: nat)
    requires i < |log| && scale > 0
  {
    match log[i]
    case Sent(id, h, _) => ClearedFor(log, i, id, h)
    case Answered(id, h, StateFailed, _) => ToldLast(log, i, id, h, Failed) && LastMoved(log, i, h, Failed, 0)
    case Answered(id, h, StatePaid(spent), priced) =>
      && ToldLast(log, i, id, h, Success) && priced in {h.amount, 0}
      && exists fee :: LastMoved(log, i, h, Success, fee) && FromBaseCeil(priced + fee, scale) == Some(spent)
    case _ => true
  }

  // ---- the invariant ----

  predicate SessionLogged(w: World, h: Hash)
    requires h in w.sessions
  {
    var s := w.sessions[h];
    (s.status.Failed? ==> s.fee == 0) && (Terminal(s.status) ==> LastMoved(w.log, |w.log|, h, s.status, s.fee))
  }

  predicate SendLogged(w: World, id: nat)
    requires id in w.melts
  {
    w.melts[id].phase.Sending? ==> ClearedFor(w.log, |w.log|, id, w.melts[id].hash)
  }

  ghost predicate AllJustified(log: seq<Entry>, scale: nat) {
    scale > 0 && forall i :: 0 <= i < |log| ==> Justified(log, i, scale)
  }

  ghost predicate Logged(w: World) {
    && AllJustified(w.log, w.scale) && (forall h :: h in w.sessions ==> SessionLogged(w, h))
    && (forall id :: id in w.melts ==> SendLogged(w, id))
  }

  // ---- a growing log ----

  lemma LastMovedStays(log: seq<Entry>, more: seq<Entry>, end: nat, h: Hash, status: Status, fee: nat)
    requires LastMoved(log, end, h, status, fee)
    ensures LastMoved(log + more, end, h, status, fee)
    ensures end == |log| && NoneAbout(more, h) ==> LastMoved(log + more, |log + more|, h, status, fee)
  {
    var j :| 0 <= j < end && LastMove(log, j, end, h, status, fee);
    assert LastMove(log + more, j, end, h, status, fee);
    if end == |log| && NoneAbout(more, h) {
      forall k | j < k < |log + more| ensures !About((log + more)[k], h) { if k >= |log| { assert (log + more)[k] == more[k - |log|]; } }
      assert LastMove(log + more, j, |log + more|, h, status, fee);
    }
  }

  predicate NoneBy(log: seq<Entry>, id: nat) { forall k :: 0 <= k < |log| ==> !By(log[k], id) }

  lemma ClearedStays(log: seq<Entry>, more: seq<Entry>, end: nat, id: nat, h: Hash)
    requires ClearedFor(log, end, id, h)
    ensures ClearedFor(log + more, end, id, h)
    ensures end == |log| && NoneBy(more, id) ==> ClearedFor(log + more, |log + more|, id, h)
  {
    var j :| 0 <= j < end && ClearAt(log, j, end, id, h);
    assert ClearAt(log + more, j, end, id, h);
    if end == |log| && NoneBy(more, id) {
      forall k | j < k < |log + more| ensures !By((log + more)[k], id) {
        if k >= |log| { assert (log + more)[k] == more[k - |log|]; }
      }
      assert ClearAt(log + more, j, |log + more|, id, h);
    }
  }

  lemma JustifiedStays(log: seq<Entry>, more: seq<Entry>, i: nat, scale: nat)
    requires i < |log| && scale > 0 && Justified(log, i, scale)
    ensures Justified(log + more, i, scale)
  {
    hide LastMoved, ClearedFor, FromBaseCeil;
    match log[i]
    case Sent(id, h, _) => ClearedStays(log, more, i, id, h);
    case Answered(id, h, StateFailed, _) => LastMovedStays(log, more, i, h, Failed, 0);
    case Answered(id, h, StatePaid(spent), priced) =>
      var fee :| LastMoved(log, i, h, Success, fee) && FromBaseCeil(priced + fee, scale) == Some(spent);
      LastMovedStays(log, more, i, h, Success, fee);
    case _ =>
  }

  /** Entries that need no justification of their own, or have one. */
  lemma JustifiedMore(log: seq<Entry>, more: seq<Entry>, scale: nat)
    requires AllJustified(log, scale) && forall i :: |log| <= i < |log + more| ==> Justified(log + more, i, scale)
    ensures AllJustified(log + more, scale)
  {
    hide Justified;
    forall i | 0 <= i < |log + more| ensures Justified(log + more, i, scale) {
      if i < |log| { JustifiedStays(log, more, i, scale); }
    }
  }

  /** The node and the senders are left alone; the melts that are ready to send were so before. */
  ghost predicate Bystander(w: World, v: World, more: seq<Entry>) {
    && v.log == w.log + more && v.scale == w.scale && v.sessions == w.sessions
    && (forall h :: NoneAbout(more, h)) && (forall k :: 0 <= k < |more| ==> !more[k].Sent?)
  }

  /** These entries are all of one melt. */
  predicate AllBy(log: seq<Entry>, id: nat) { forall k :: 0 <= k < |log| ==> By(log[k], id) }

  lemma SessionsStay(w: World, v: World, more: seq<Entry>)
    requires (forall h :: h in w.sessions ==> SessionLogged(w, h)) && Bystander(w, v, more)
    ensures forall h :: h in v.sessions ==> SessionLogged(v, h)
  {
    hide LastMoved;
    forall h | h in v.sessions ensures SessionLogged(v, h) {
      assert SessionLogged(w, h) && NoneAbout(more, h);
      if Terminal(w.sessions[h].status) { LastMovedStays(w.log, more, |w.log|, h, w.sessions[h].status, w.sessions[h].fee); }
    }
  }

  predicate SameSender(w: World, v: World, id: nat) {
    && id in v.melts && id in w.melts && v.melts[id].hash == w.melts[id].hash
    && (v.melts[id].phase.Sending? ==> w.melts[id].phase.Sending?)
  }

  lemma SendersStay(w: World, v: World, more: seq<Entry>, ids: set<nat>)
    requires (forall id :: id in w.melts ==> SendLogged(w, id)) && v.log == w.log + more
    requires forall id :: id in ids ==> SameSender(w, v, id) && NoneBy(more, id)
    ensures forall id :: id in ids ==> id in v.melts && SendLogged(v, id)
  {
    hide ClearedFor;
    forall id | id in ids ensures SendLogged(v, id) {
      assert SendLogged(w, id);
      if w.melts[id].phase.Sending? { ClearedStays(w.log, more, |w.log|, id, w.melts[id].hash); }
    }
  }

  // ---- the steps ----

  /** Steps that neither log anything nor make a melt ready to send. */
  lemma Unlogged(w: World, v: World)
    requires Logged(w) && v.log == w.log && v.scale == w.scale && v.sessions == w.sessions
    requires forall id :: id in v.melts && v.melts[id].phase.Sending? ==> SameSender(w, v, id)
    ensures Logged(v)
  {
    hide LastMoved, ClearedFor, AllJustified;
    forall h | h in v.sessions ensures SessionLogged(v, h) { assert SessionLogged(w, h); }
    forall id | id in v.melts ensures SendLogged(v, id) { if v.melts[id].phase.Sending? { assert SendLogged(w, id); } }
  }

  /** One melt moves on, with entries about it that are justified. */
  lemma OneMelt(w: World, v: World, id: nat, more: seq<Entry>)
    requires Logged(w) && id in w.melts && id in v.melts && Bystander(w, v, more) && AllBy(more, id)
    requires v.melts == w.melts[id := w.melts[id].(phase := v.melts[id].phase)]
    requires v.melts[id].phase.Sending? ==> ClearedFor(v.log, |v.log|, id, v.melts[id].hash)
    requires forall i :: |w.log| <= i < |v.log| ==> Justified(v.log, i, v.scale)
    ensures Logged(v)
  {
    hide Justified, SessionLogged, ClearedFor;
    JustifiedMore(w.log, more, w.scale);
    SessionsStay(w, v, more);
    SendersStay(w, v, more, w.melts.Keys - {id});
    hide AllJustified, Bystander;
  }

  lemma PlainBystander(w: World, v: World, more: seq<Entry>)
    requires v.log == w.log + more && v.scale == w.scale && v.sessions == w.sessions && |more| <= 2
    requires forall k :: 0 <= k < |more| ==> more[k].Told? || more[k].Answered?
    ensures Bystander(w, v, more)
  {
    forall h ensures NoneAbout(more, h) {}
  }

  /** The response to a session just reported is justified. */
  lemma EntryJustified(w: World, id: nat, h: Hash, response: MeltState, amount: nat)
    requires w.scale > 0 && h in w.sessions && SessionLogged(w, h) && amount in {h.amount, 0}
    requires PaymentResponse(w.sessions[h].status, w.sessions[h].fee, amount, w.scale) == Some(response)
    ensures Justified(w.log + [Told(id, h, Some(w.sessions[h].status)), Answered(id, h, response, amount)], |w.log| + 1, w.scale)
  {
    var s := w.sessions[h];
    var more := [Told(id, h, Some(s.status)), Answered(id, h, response, amount)];
    var log := w.log + more;
    assert log[|w.log|] == more[0] && log[|w.log| + 1] == more[1];
    if Terminal(s.status) {
      var j :| 0 <= j < |w.log| && LastMove(w.log, j, |w.log|, h, s.status, s.fee);
      assert LastMove(log, j, |w.log| + 1, h, s.status, s.fee);
      assert LastMoved(log, |w.log| + 1, h, s.status, s.fee);
    }
    hide LastMoved, LastMove, FromBaseCeil;
  }

  lemma AnswerLogged(w: World, id: nat, amount: nat)
    requires Logged(w) && id in w.melts && w.melts[id].hash in w.sessions && amount in {w.melts[id].hash.amount, 0} && !w.melts[id].phase.Sending?
    ensures Logged(Answer(Report(w, id, StatusOf(w, w.melts[id].hash)), id, w.sessions[w.melts[id].hash], amount))
  {
    var h := w.melts[id].hash;
    var s := w.sessions[h];
    var v := Answer(Report(w, id, StatusOf(w, h)), id, s, amount);
    var response := PaymentResponse(s.status, s.fee, amount, w.scale);
    var told := Told(id, h, Some(s.status));
    var more := if response.Some? then [told, Answered(id, h, response.value, amount)] else [told];
    assert v.log == w.log + more;
    PlainBystander(w, v, more);
    if response.Some? { EntryJustified(w, id, h, response.value, amount); }
    assert v.log[|w.log|] == told;
    hide Logged, FromBaseCeil, LastMoved, ClearedFor;
    OneMelt(w, v, id, more);
  }

  lemma ReportLogged(w: World, v: World, id: nat, found: Option<Status>)
    requires Logged(w) && id in w.melts && v == Report(w, id, found).(melts := v.melts) && id in v.melts
      && v.melts == w.melts[id := w.melts[id].(phase := v.melts[id].phase)]
    requires v.melts[id].phase.Sending? ==> found.None? || found == Some(Failed)
    ensures Logged(v)
  {
    var told := Told(id, w.melts[id].hash, found);
    assert v.log == w.log + [told];
    PlainBystander(w, v, [told]);
    assert v.melts[id].phase.Sending? ==> ClearAt(v.log, |w.log|, |v.log|, id, v.melts[id].hash);
    assert v.log[|w.log|] == told && Justified(v.log, |w.log|, v.scale);
    hide Logged, ClearAt, Justified;
    OneMelt(w, v, id, [told]);
  }

  lemma PendingLogged(w: World, id: nat, priced: nat)
    requires Logged(w) && id in w.melts
    ensures Logged(Respond(w, id, StatePending, priced))
  {
    var v := Respond(w, id, StatePending, priced);
    var more := [Answered(id, w.melts[id].hash, StatePending, priced)];
    assert v.log == w.log + more && v.log[|w.log|] == more[0];
    PlainBystander(w, v, more);
    hide Logged;
    OneMelt(w, v, id, more);
  }

  lemma LookupLogged(w: World, id: nat, answered: bool)
    requires Logged(w)
    ensures Logged(Lookup(w, id, answered))
  {
    hide Logged, Answer;
    if id in w.melts && w.melts[id].phase.Looking? && w.scale > 0 {
      var h := w.melts[id].hash;
      if !answered { Unlogged(w, Lookup(w, id, answered)); }
      else if h in w.sessions && !w.sessions[h].status.Failed? { AnswerLogged(w, id, h.amount); }
      else { ReportLogged(w, Lookup(w, id, answered), id, StatusOf(w, h)); }
    }
  }

  lemma PollLogged(w: World, id: nat, poll: Poll)
    requires Logged(w)
    ensures Logged(PollOnce(w, id, poll)) && Logged(TimeOut(w, id))
  {
    hide Logged, Answer, Respond;
    if id in w.melts && w.melts[id].phase.Polling? {
      var h := w.melts[id].hash;
      PendingLogged(w, id, h.amount);
      ReportLogged(w, Report(w, id, None), id, None);
      PendingLogged(Report(w, id, None), id, h.amount);
      ReportLogged(w, Report(w, id, StatusOf(w, h)), id, StatusOf(w, h));
      if h in w.sessions { AnswerLogged(w, id, h.amount); }
    }
  }

  lemma CheckLogged(w: World, id: nat, answered: bool)
    requires Logged(w)
    ensures Logged(Check(w, id, answered)) && Logged(Retry(w, id))
  {
    hide Logged, Answer;
    if id in w.melts && w.melts[id].phase.Stuck? { Unlogged(w, Retry(w, id)); }
    if id in w.melts && w.melts[id].phase.Stuck? && w.scale > 0 {
      var h := w.melts[id].hash;
      ReportLogged(w, Report(w, id, StatusOf(w, h)), id, StatusOf(w, h));
      if h in w.sessions { AnswerLogged(w, id, 0); }
    }
  }

  /** A send leaves a melt that was ready for it; an accepted one opens a running session. */
  lemma SendLogs(w: World, id: nat, reaches: bool, answered: bool)
    requires Logged(w)
    ensures Logged(Send(w, id, reaches, answered))
  {
    var v := Send(w, id, reaches, answered);
    if id in w.melts && w.melts[id].phase.Sending? {
      var h := w.melts[id].hash;
      var accepted := reaches && Accepts(w, h);
      var more := [FiberMelts.Sent(id, h, accepted)];
      assert v.log == w.log + more && v.log[|w.log|] == more[0];
      assert SendLogged(w, id);
      ClearedStays(w.log, more, |w.log|, id, h);
      JustifiedMore(w.log, more, w.scale);
      OthersLogged(w, v, h, more);
      SendersStay(w, v, more, w.melts.Keys - {id});
      hide AllJustified, SessionLogged, ClearedFor;
    }
  }

  /** Sessions of other hashes stay as they were logged. */
  lemma OthersLogged(w: World, v: World, h: Hash, more: seq<Entry>)
    requires (forall g :: g in w.sessions ==> SessionLogged(w, g)) && v.log == w.log + more
    requires forall g :: g in v.sessions && g != h ==> g in w.sessions && v.sessions[g] == w.sessions[g] && NoneAbout(more, g)
    ensures forall g :: g in v.sessions && g != h ==> SessionLogged(v, g)
    ensures h in v.sessions && h in w.sessions && v.sessions[h] == w.sessions[h] && NoneAbout(more, h) ==> SessionLogged(v, h)
  {
    hide LastMoved, NoneAbout;
    forall g | g in v.sessions && g in w.sessions && v.sessions[g] == w.sessions[g] && NoneAbout(more, g) ensures SessionLogged(v, g) {
      assert SessionLogged(w, g);
      if Terminal(w.sessions[g].status) { LastMovedStays(w.log, more, |w.log|, g, w.sessions[g].status, w.sessions[g].fee); }
    }
  }

  lemma MoveLogs(w: World, h: Hash, to: Status, fee: nat)
    requires Logged(w)
    ensures Logged(MoveSession(w, h, to, fee))
  {
    var v := MoveSession(w, h, to, fee);
    if v != w {
      var paid := if to.Success? then fee else 0;
      var more := [Moved(h, to, paid)];
      assert v.log == w.log + more && v.log[|w.log|] == more[0];
      JustifiedMore(w.log, more, w.scale);
      OthersLogged(w, v, h, more);
      SendersStay(w, v, more, w.melts.Keys);
      assert LastMove(v.log, |w.log|, |v.log|, h, to, paid);
      hide AllJustified, ClearedFor;
    }
  }

  // ---- the law ----

  lemma StepLogged(w: World, e: Event)
    requires Logged(w)
    ensures Logged(Step(w, e))
  {
    hide Logged, Credit, Lookup, Send, MoveSession, PollOnce, TimeOut, Check, Retry;
    match e
    case ELookup(id, a) => LookupLogged(w, id, a);
    case ESend(id, r, a) => SendLogs(w, id, r, a);
    case ESession(h, s, f) => MoveLogs(w, h, s, f);
    case EPoll(id, p) => PollLogged(w, id, p);
    case ETimeOut(id) => PollLogged(w, id, Seen);
    case ECheck(id, a) => CheckLogged(w, id, a);
    case ERetry(id) => CheckLogged(w, id, true);
    case ECredit(i) => CreditOnly(w, i); Unlogged(w, Step(w, e));
    case _ => hide FromBaseCeil, ToBase; Unlogged(w, Step(w, e));
  }

  lemma CreditOnly(w: World, i: nat)
    ensures Credit(w, i) == w.(outstanding := Credit(w, i).outstanding, invoices := Credit(w, i).invoices)
  {
  }

  lemma {:induction false} RunLogged(scale: nat, balance: nat, es: seq<Event>)
    requires scale > 0
    ensures Logged(Run(Fresh(scale, balance), es)) && Run(Fresh(scale, balance), es).scale == scale
  {
    if es != [] {
      RunLogged(scale, balance, es[..|es| - 1]);
      StepLogged(Run(Fresh(scale, balance), es[..|es| - 1]), es[|es| - 1]);
      ScaleStays(Run(Fresh(scale, balance), es[..|es| - 1]), es[|es| - 1]);
      hide Logged, Step;
    }
  }

  /** In every run, with any node answers, lost answers, forgotten sessions, retried and checked melts:
      the last thing a melt was told, sent or answered before it sends is a report of no session or of a
      failed one; each failed answer follows the node's own failing of that session, with no send accepted
      for the hash in between; each paid answer follows its success and charges the fee it paid, with
      the amount of the invoice or, from a check, without it. */
  lemma HistoryJustified(scale: nat, balance: nat, es: seq<Event>, i: nat)
    requires scale > 0 && i < |Run(Fresh(scale, balance), es).log|
    ensures Justified(Run(Fresh(scale, balance), es).log, i, scale)
  {
    RunLogged(scale, balance, es);
    hide Run, Justified, SessionLogged, SendLogged;
  }
}
