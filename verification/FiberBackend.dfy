/** The adapter itself: the polling loop of a dispatched payment and the sweep over watched
    invoices. What the node answers is given from outside, one answer per call. */
module FiberBackends {
  import opened Ecash
  import opened FiberAmounts
  import opened FiberMelts

  datatype Result = Result(status: Status, fee: nat)

  /** A poll of the node: a session, no session, or an error. */
  datatype Reply = Known(result: Result) | Unknown | Error

  datatype WatchState = Watched(status: InvoiceStatus, amount: Option<nat>) | Unreadable

  datatype Event = PaymentReceived(hash: nat, ecash: nat)

  /** The event a settled invoice is reported with, if its amount can be. */
  function ReceivedEvent(hash: nat, amount: Option<nat>, scale: nat): Option<Event>
    requires scale > 0
  {
    if amount.None? then None
    else match FromBaseFloor(amount.value, scale) case Some(e) => Some(PaymentReceived(hash, e)) case None => None
  }

  class FiberBackend {
    const scale: nat
    const pollInterval: nat
    var watching: set<nat>

    constructor (scale: nat, pollInterval: nat)
      requires scale > 0 && pollInterval > 0
      ensures this.scale == scale && this.pollInterval == pollInterval && watching == {}
    {
      this.scale := scale;
      this.pollInterval := pollInterval;
      watching := {};
    }

    /** Polls until the payment is settled, forgotten, or the deadline has passed; the k-th poll ends
        `delays(k)` after its sleep. The number of polls is bounded by the timeout counted in poll
        intervals. The result is the last session the node reported, so it is settled only if the
        node said so, and unless the loop stopped early the deadline has passed. */
    method AwaitSettlement(initial: Result, timeout: nat, replies: nat -> Reply, delays: nat -> nat) returns (latest: Result, polls: nat)
      requires pollInterval > 0
      ensures initial.status in {Success, Failed} ==> polls == 0
      ensures polls <= CeilDiv(timeout, pollInterval) && forall k :: 0 <= k < polls ==> Elapsed(delays, k) < timeout
      ensures forall k :: 0 <= k < polls - 1 ==> replies(k).Error? || (replies(k).Known? && replies(k).result.status in {Created, Inflight})
      ensures (forall k :: 0 <= k < polls ==> !replies(k).Known?) ==> latest == initial
      ensures forall k :: 0 <= k < polls && replies(k).Known? && (forall l :: k < l < polls ==> !replies(l).Known?) ==> latest == replies(k).result
      ensures latest.status in {Created, Inflight} && !(polls > 0 && replies(polls - 1).Unknown?) ==> Elapsed(delays, polls) >= timeout
      ensures latest.status in {Success, Failed} ==> latest == initial || (polls > 0 && replies(polls - 1) == Known(latest))
    {
      hide CeilDiv, Spent;
      NoPolls(pollInterval, timeout);
      latest := initial;
      polls := 0;
      if Terminal(initial.status) { return; }
      var now := 0;
      while now < timeout
        invariant !Terminal(latest.status)
        invariant (forall k :: 0 <= k < polls ==> !replies(k).Known?) ==> latest == initial
        invariant forall k :: 0 <= k < polls && replies(k).Known? && (forall l :: k < l < polls ==> !replies(l).Known?) ==> latest == replies(k).result
        invariant forall k :: 0 <= k < polls ==> Elapsed(delays, k) < timeout
        invariant now == Elapsed(delays, polls) && Spent(polls, pollInterval) <= now
        invariant polls <= CeilDiv(timeout, pollInterval)
        invariant forall k :: 0 <= k < polls ==> replies(k).Error? || (replies(k).Known? && replies(k).result.status in {Created, Inflight})
        decreases timeout - now
      {
        PollsFit(polls, pollInterval, now, timeout);
        now := now + pollInterval + delays(polls);
        polls := polls + 1;
        var reply := replies(polls - 1);
        if reply.Known? {
          latest := reply.result;
          if Terminal(latest.status) { return; }
        } else if reply.Unknown? {
          return;
        }
      }
    }

    /** The time that has passed after `n` polls. */
    ghost function Elapsed(delays: nat -> nat, n: nat): nat {
      if n == 0 then 0 else Elapsed(delays, n - 1) + pollInterval + delays(n - 1)
    }

    method Unwatch(hash: nat)
      modifies this
      ensures watching == old(watching) - {hash}
    {
      watching := watching - {hash};
    }

    method Watch(hash: nat)
      modifies this
      ensures watching == old(watching) + {hash}
    {
      watching := watching + {hash};
    }

    /** One pass over the watched invoices, in the order the pass took its copy. The event channel takes
        at most `room` events before it closes, and then the pass stops at the invoice it could not
        report, which stays watched. Of the invoices visited, each paid one whose amount can be credited
        has exactly one event, for the floor of its amount, in the order of the copy; no other has one.
        Visited invoices that are paid, cancelled or expired leave the watch and all others stay. */
    method SweepInvoices(pending: seq<nat>, view: map<nat, WatchState>, room: nat) returns (events: seq<Event>, visited: nat)
      requires scale > 0 && (forall h :: h in pending <==> h in watching) && (forall h :: h in pending ==> h in view)
      requires forall i, j :: 0 <= i < j < |pending| ==> pending[i] != pending[j]
      modifies this
      ensures visited <= |pending| && |events| <= room
      ensures visited < |pending| ==> |events| == room && Payable(view[pending[visited]], scale)
      ensures forall i :: 0 <= i < visited && Payable(view[pending[i]], scale) ==>
        PaymentReceived(pending[i], FromBaseFloor(view[pending[i]].amount.value, scale).value) in events
      ensures forall k :: 0 <= k < |events| ==>
        events[k].hash in pending[..visited] && Payable(view[events[k].hash], scale)
        && Some(events[k].ecash) == FromBaseFloor(view[events[k].hash].amount.value, scale)
      ensures forall k, l :: 0 <= k < l < |events| ==> Ahead(pending, events[k].hash, events[l].hash)
      ensures watching <= old(watching) && forall i :: 0 <= i < |pending| ==>
        (pending[i] in watching <==> i >= visited || view[pending[i]].Unreadable? || view[pending[i]].status in {InvoiceStatus.Open, InvoiceStatus.Received})
      ensures events == Reported(pending[..visited], view, scale)
    {
      hide ReceivedEvent, FromBaseFloor, Listed, Reported, Payable;
      events := [];
      visited := 0;
      ghost var at: seq<nat> := [];
      NoneListed(pending, view, scale);
      while visited < |pending|
        invariant 0 <= visited <= |pending| && |events| <= room
        invariant Listed(pending, view, scale, visited, events, at)
        invariant watching <= old(watching) && forall i :: 0 <= i < |pending| ==>
          (pending[i] in watching <==> i >= visited || view[pending[i]].Unreadable? || view[pending[i]].status in {InvoiceStatus.Open, InvoiceStatus.Received})
      {
        var hash := pending[visited];
        ListedNext(pending, view, scale, visited, events, at);
        if view[hash].Watched? {
          match view[hash].status {
            case Paid =>
              var event := ReceivedEvent(hash, view[hash].amount, scale);
              if event.Some? {
                if |events| == room { break; }
                events := events + [event.value];
                at := at + [visited];
              }
              Unwatch(hash);
            case Cancelled => Unwatch(hash);
            case Expired => Unwatch(hash);
            case Open =>
            case Received =>
          }
        }
        visited := visited + 1;
      }
      ListedMeans(pending, view, scale, visited, events, at);
    }
  }

  /** The events of the first `n` invoices, and the places in the list they come from. */
  predicate Listed(pending: seq<nat>, view: map<nat, WatchState>, scale: nat, n: nat, events: seq<Event>, at: seq<nat>)
    requires scale > 0 && n <= |pending| && forall h :: h in pending ==> h in view
  {
    && |events| == |at| && events == Reported(pending[..n], view, scale)
    && (forall k :: 0 <= k < |at| ==> at[k] < n && Payable(view[pending[at[k]]], scale)
                                      && events[k] == PaymentReceived(pending[at[k]], FromBaseFloor(view[pending[at[k]]].amount.value, scale).value))
    && (forall k, l :: 0 <= k < l < |at| ==> at[k] < at[l])
    && (forall i :: 0 <= i < n && Payable(view[pending[i]], scale) ==> i in at)
  }

  lemma NoneListed(pending: seq<nat>, view: map<nat, WatchState>, scale: nat)
    requires scale > 0 && forall h :: h in pending ==> h in view
    ensures Listed(pending, view, scale, 0, [], [])
  {
  }

  lemma ListedNext(pending: seq<nat>, view: map<nat, WatchState>, scale: nat, n: nat, events: seq<Event>, at: seq<nat>)
    requires scale > 0 && n < |pending| && (forall h :: h in pending ==> h in view) && Listed(pending, view, scale, n, events, at)
    ensures var v := view[pending[n]];
      var event := if v.Watched? && v.status.Paid? then ReceivedEvent(pending[n], v.amount, scale) else None;
      && (event.Some? <==> Payable(v, scale))
      && if event.Some? then Listed(pending, view, scale, n + 1, events + [event.value], at + [n]) else Listed(pending, view, scale, n + 1, events, at)
  {
    assert pending[..n + 1][..n] == pending[..n];
    EventExactly(pending[n], view[pending[n]], scale);
    hide ReceivedEvent, FromBaseFloor;
  }

  lemma ListedMeans(pending: seq<nat>, view: map<nat, WatchState>, scale: nat, n: nat, events: seq<Event>, at: seq<nat>)
    requires scale > 0 && n <= |pending| && (forall h :: h in pending ==> h in view) && Listed(pending, view, scale, n, events, at)
    ensures forall i :: 0 <= i < n && Payable(view[pending[i]], scale) ==>
      PaymentReceived(pending[i], FromBaseFloor(view[pending[i]].amount.value, scale).value) in events
    ensures forall k :: 0 <= k < |events| ==>
      events[k].hash in pending[..n] && Payable(view[events[k].hash], scale)
      && Some(events[k].ecash) == FromBaseFloor(view[events[k].hash].amount.value, scale)
    ensures forall k, l :: 0 <= k < l < |events| ==> Ahead(pending, events[k].hash, events[l].hash)
    ensures events == Reported(pending[..n], view, scale)
  {
    hide FromBaseFloor, Reported;
    forall k, l | 0 <= k < l < |events| ensures Ahead(pending, events[k].hash, events[l].hash) {
      assert pending[at[k]] == events[k].hash && pending[at[l]] == events[l].hash;
    }
    forall k | 0 <= k < |events| ensures events[k].hash in pending[..n] {
      assert pending[..n][at[k]] == events[k].hash;
    }
    forall i | 0 <= i < n && Payable(view[pending[i]], scale)
      ensures PaymentReceived(pending[i], FromBaseFloor(view[pending[i]].amount.value, scale).value) in events
    {
      var k :| 0 <= k < |at| && at[k] == i;
      assert events[k] in events;
    }
  }

  /** A paid invoice whose amount can be credited. */
  predicate Payable(v: WatchState, scale: nat)
    requires scale > 0
  {
    v.Watched? && v.status.Paid? && v.amount.Some? && FromBaseFloor(v.amount.value, scale).Some?
  }

  lemma EventExactly(hash: nat, v: WatchState, scale: nat)
    requires scale > 0
    ensures v.Watched? && v.status.Paid? ==>
      ReceivedEvent(hash, v.amount, scale)
      == if Payable(v, scale) then Some(PaymentReceived(hash, FromBaseFloor(v.amount.value, scale).value)) else None
  {
    hide FromBaseFloor;
  }

  /** `g` comes before `h` in the list. */
  predicate Ahead(hs: seq<nat>, g: nat, h: nat) { exists i, j :: 0 <= i < j < |hs| && hs[i] == g && hs[j] == h }

  function Spent(polls: nat, interval: nat): nat { polls * interval }

  lemma NoPolls(interval: nat, timeout: nat)
    requires interval > 0
    ensures Spent(0, interval) == 0 <= CeilDiv(timeout, interval)
  {
  }

  lemma PollsFit(polls: nat, interval: nat, now: nat, timeout: nat)
    requires interval > 0 && Spent(polls, interval) <= now < timeout
    ensures polls + 1 <= CeilDiv(timeout, interval) && Spent(polls + 1, interval) == Spent(polls, interval) + interval
  {
    CeilLeast(timeout, interval, polls);
  }

  /** The events of a pass whose channel stays open. */
  function Reported(pending: seq<nat>, view: map<nat, WatchState>, scale: nat): seq<Event>
    requires scale > 0 && forall h :: h in pending ==> h in view
  {
    if pending == [] then []
    else
      var last := pending[|pending| - 1];
      var before := Reported(pending[..|pending| - 1], view, scale);
      if view[last].Watched? && view[last].status.Paid? && ReceivedEvent(last, view[last].amount, scale).Some?
      then before + [ReceivedEvent(last, view[last].amount, scale).value] else before
  }

  /** Only paid invoices are reported, each at most once per pass, and never for more than they paid. */
  lemma {:induction false} OnlyPaidReported(pending: seq<nat>, view: map<nat, WatchState>, scale: nat, k: nat)
    requires scale > 0 && (forall h :: h in pending ==> h in view) && k < |Reported(pending, view, scale)|
    ensures var e := Reported(pending, view, scale)[k];
      && e.hash in pending && view[e.hash].Watched? && view[e.hash].status.Paid? && view[e.hash].amount.Some?
      && ToBase(e.ecash, scale) <= view[e.hash].amount.value < ToBase(e.ecash + 1, scale)
  {
    var last := |pending| - 1;
    var before := Reported(pending[..last], view, scale);
    if k < |before| {
      OnlyPaidReported(pending[..last], view, scale, k);
    } else {
      var amount := view[pending[last]].amount.value;
      FloorIsGreatest(amount, scale, amount / scale);
      FloorIsGreatest(amount, scale, amount / scale + 1);
    }
  }

  /** A pass whose channel stays open reports every paid invoice with an amount that can be credited, for
      the floor of that amount, and nothing else. */
  lemma {:induction false} ReportedExactly(pending: seq<nat>, view: map<nat, WatchState>, scale: nat, hash: nat, ecash: nat)
    requires scale > 0 && forall h :: h in pending ==> h in view
    ensures PaymentReceived(hash, ecash) in Reported(pending, view, scale) <==>
      && hash in pending && view[hash].Watched? && view[hash].status.Paid? && view[hash].amount.Some?
      && ecash < U64 && ToBase(ecash, scale) <= view[hash].amount.value < ToBase(ecash + 1, scale)
  {
    hide ReceivedEvent, ToBase;
    if pending != [] {
      var last := |pending| - 1;
      ReportedExactly(pending[..last], view, scale, hash, ecash);
      assert pending == pending[..last] + [pending[last]];
      EventIs(pending[last], view[pending[last]], scale, ecash);
    }
  }

  lemma EventIs(hash: nat, v: WatchState, scale: nat, ecash: nat)
    requires scale > 0
    ensures v.Watched? && v.status.Paid? ==>
      (ReceivedEvent(hash, v.amount, scale).Some? ==> ReceivedEvent(hash, v.amount, scale).value.hash == hash)
      && (ReceivedEvent(hash, v.amount, scale) == Some(PaymentReceived(hash, ecash)) <==>
            v.amount.Some? && ecash < U64 && ToBase(ecash, scale) <= v.amount.value < ToBase(ecash + 1, scale))
  {
    if v.Watched? && v.amount.Some? { DivMul(v.amount.value, scale, ecash); }
  }
}
