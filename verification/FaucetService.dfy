/** The faucet service as an object: its methods run from one await to the next, on the store and
    the map of claims in flight, and each does exactly its step of the machine. */
module FaucetServices {
  import opened Ecash
  import opened Faucet

  class FaucetService {
    const config: Config
    const store: FaucetStore
    var inFlight: map<nat, Task>
    var sweep: Option<Sweep>
    ghost var accepted: map<Invoice, nat>
    ghost var grants: map<nat, Grant>
    ghost var clock: int

    ghost function State(): World
      reads this, store
    {
      World(store.rows, inFlight, sweep, accepted, grants, clock)
    }

    constructor (config: Config, store: FaucetStore)
      requires store.rows == map[]
      ensures this.config == config && this.store == store && State() == START
    {
      this.config := config;
      this.store := store;
      inFlight := map[];
      sweep := None;
      accepted := map[];
      grants := map[];
      clock := 0;
    }

    /** Ends the work on a quote: its lock is released, and a pass waiting for it continues. */
    method Release(quote: nat)
      requires quote in inFlight
      modifies this`inFlight, this`sweep
      ensures State() == Done(old(State()), quote)
    {
      if sweep.Some? && Sweeping(inFlight[quote]) && sweep.value.waiting == Some(quote) {
        sweep := Some(sweep.value.(waiting := None));
      }
      inFlight := inFlight - {quote};
    }

    method Settle(quote: nat, state: ClaimState, failure: Option<Failure>, now: int)
      requires quote in inFlight
      modifies this`inFlight, this`sweep, store
      ensures State() == Move(old(State()), quote, state, failure, now)
    {
      if quote in store.rows {
        var _ := store.Transition(quote, state, failure, now);
      }
      Release(quote);
    }

    method Claim(quote: nat, client: nat, network: nat)
      modifies this`inFlight
      ensures State() == Faucet.Claim(old(State()), config, quote, client, network)
    {
      if quote in inFlight { return; }
      if quote in store.rows {
        var existing := store.rows[quote];
        if existing.client.Some? && existing.client.value != client { return; }
        if existing.state.Issued? || existing.quoteId.None? { return; }
        inFlight := inFlight[quote := FetchStored(Record(quote, existing), false)];
        return;
      }
      if !config.enabled { return; }
      inFlight := inFlight[quote := FetchNew(client, network)];
    }

    method ApplyPayment(quote: nat, status: PayStatus, now: int)
      requires quote in inFlight
      modifies this`inFlight, this`sweep, store
      ensures State() == Faucet.ApplyPayment(old(State()), quote, status, now)
    {
      var state := if status.Success? then PaidOut else if status.PayFailed? then Failed else Pending;
      Settle(quote, state, if state.Failed? then Some(FiberFailed) else None, now);
    }

    method Dispatch(record: Record, sweeping: bool, now: int)
      requires record.quote in inFlight
      modifies this`inFlight, this`sweep, store
      ensures State() == Faucet.Dispatch(old(State()), record, sweeping, now)
    {
      var quote := record.quote;
      if record.row.invoice.None? || record.row.paymentHash.None? {
        Settle(quote, Recoverable, Some(MissingData), now);
        return;
      }
      if quote !in store.rows {
        Release(quote);
        return;
      }
      var _ := store.MarkAttempt(quote, now);
      inFlight := inFlight[quote := Sending(record, false, sweeping)];
    }

    method Reconcile(record: Record, quote: QuoteView, sweeping: bool, now: int)
      requires record.quote in inFlight
      modifies this`inFlight, this`sweep, store
      ensures State() == Faucet.Reconcile(old(State()), record, quote, sweeping, now)
    {
      var id, row := record.quote, record.row;
      if !quote.fits {
        Release(id);
      } else if (row.invoice.Some? && Some(quote.invoice) != row.invoice) || (row.pubkey.Some? && quote.pubkey != row.pubkey) || quote.expiry != row.expiry {
        Settle(id, Recoverable, Some(QuoteChanged), now);
      } else if quote.phase.Minted? {
        Settle(id, Issued, None, now);
      } else if quote.phase.Funded? {
        Settle(id, PaidOut, None, now);
      } else if row.state.Failed? {
        Release(id);
      } else if row.paymentHash.None? {
        Settle(id, Recoverable, Some(MissingHash), now);
      } else {
        inFlight := inFlight[id := Looking(record, quote, sweeping)];
      }
    }

    method QuoteAnswered(quote: nat, answer: Option<QuoteView>, now: int)
      modifies this`inFlight, this`sweep, store
      ensures State() == Faucet.QuoteAnswered(old(State()), config, quote, answer, now)
    {
      if quote !in inFlight { return; }
      var task := inFlight[quote];
      if task.FetchNew? {
        if answer.None? || !answer.value.fits || answer.value.pubkey.None? || !answer.value.phase.Unfunded? || answer.value.expiry <= now + 15 {
          Release(quote);
        } else {
          inFlight := inFlight[quote := Parsing(task.client, task.network, answer.value)];
        }
      } else if task.FetchStored? && task.record.quote == quote {
        if answer.None? { Release(quote); } else { Reconcile(task.record, answer.value, task.sweeping, now); }
      }
    }

    /** The reservation and the mark of the first attempt follow the parse without a further await. */
    method InvoiceParsed(quote: nat, answer: Option<bool>, now: int)
      modifies this, store
      ensures State() == Parsed(old(State()), config, quote, answer, now)
    {
      if quote !in inFlight || !inFlight[quote].Parsing? { return; }
      if answer != Some(true) {
        Release(quote);
        return;
      }
      var task := inFlight[quote];
      var view := task.view;
      var input := Reservation(quote, view.invoice, view.invoice, if view.pubkey.Some? then view.pubkey.value else 0,
                               task.client, task.network, view.amount, view.expiry);
      var reserved := store.Reserve(input, config, now);
      if !reserved.Taken? {
        Release(quote);
        return;
      }
      if reserved.row.client.Some? && reserved.row.client.value != task.client {
        Release(quote);
      } else if reserved.created {
        grants := grants[quote := Grant(task.client, task.network, now)];
        Dispatch(Record(quote, reserved.row), false, now);
      } else {
        Reconcile(Record(quote, reserved.row), view, false, now);
      }
    }

    method PaymentLooked(quote: nat, answer: Lookup, now: int)
      modifies this`inFlight, this`sweep, store
      ensures State() == Looked(old(State()), config, quote, answer, now)
    {
      if quote !in inFlight { return; }
      var task := inFlight[quote];
      if !task.Looking? || task.record.quote != quote || task.record.row.paymentHash.None? { return; }
      var row := task.record.row;
      if answer.LookupError? {
        Settle(quote, Recoverable, Some(CheckUnknown), now);
      } else if answer.Session? {
        if Some(answer.payment.hash) != row.paymentHash {
          Settle(quote, Recoverable, Some(HashMismatch), now);
        } else {
          ApplyPayment(quote, answer.payment.status, now);
        }
      } else if row.failure == Some(HashMismatch) {
        Release(quote);
      } else if row.attemptedAt.Some? && now - row.attemptedAt.value < config.recoveryDelay {
        Settle(quote, Recoverable, Some(DispatchUnconfirmed), now);
      } else if task.view.expiry <= now {
        Settle(quote, Failed, Some(QuoteExpired), now);
      } else if row.attempts >= 2 || row.invoice.None? {
        Settle(quote, Recoverable, Some(ManualReview), now);
      } else {
        Dispatch(task.record, task.sweeping, now);
      }
    }

    method PaymentSent(quote: nat, answer: Option<Payment>, now: int)
      modifies this`inFlight, this`sweep, store
      ensures State() == Sent(old(State()), quote, answer, now)
    {
      if quote !in inFlight || !inFlight[quote].Sending? { return; }
      if answer.None? {
        Settle(quote, Recoverable, Some(DispatchUnknown), now);
      } else if Some(answer.value.hash) != inFlight[quote].record.row.paymentHash {
        Settle(quote, Recoverable, Some(HashMismatch), now);
      } else {
        ApplyPayment(quote, answer.value.status, now);
      }
    }

    /** One turn of the loop over the list a pass read when it started. */
    method VisitNext()
      modifies this`inFlight, this`sweep
      ensures State() == Faucet.VisitNext(old(State()))
    {
      if sweep.None? || sweep.value.waiting.Some? || sweep.value.rest == [] { return; }
      var record := sweep.value.rest[0];
      if record.row.quoteId.None? || record.quote in inFlight {
        sweep := Some(Sweep(sweep.value.rest[1..], None));
        return;
      }
      inFlight := inFlight[record.quote := FetchStored(record, true)];
      sweep := Some(Sweep(sweep.value.rest[1..], Some(record.quote)));
    }

    method EndPass(now: int)
      modifies this`sweep, store
      ensures State() == EndSweep(old(State()), config, now)
    {
      if sweep.None? || sweep.value.waiting.Some? || sweep.value.rest != [] { return; }
      store.Scrub(config.retention, now);
      sweep := None;
    }
  }
}
