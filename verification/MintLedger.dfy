/** The mint as seen through one wallet: which outputs it has signed, which secrets it has burned
    or locked under a running melt, and what each quote has been used for. Every operation is one
    atomic step. `ours` and `books` only keep account of whose value moved where. */
module MintLedger {
  import opened Ecash

  datatype Books = Books(issued: nat, received: nat, vendor: nat, melted: nat, fees: nat)

  datatype MintQuote = MintQuote(amount: nat, paid: bool, issued: bool)

  datatype MeltState =
    | Unpaid
    | Pending(inputs: seq<Coin>, blanks: seq<nat>)
    | Paid(inputs: seq<Coin>, blanks: seq<nat>, change: seq<Coin>)

  datatype MeltQuote = MeltQuote(amount: nat, feeReserve: nat, state: MeltState)

  datatype MeltRequest = MeltRequest(quote: nat, inputs: seq<Coin>, blanks: seq<nat>, inputFee: nat)

  datatype Mint = Mint(
    signed: map<nat, nat>,
    spent: set<nat>,
    locked: set<nat>,
    ours: set<nat>,
    mintQuotes: map<nat, MintQuote>,
    meltQuotes: map<nat, MeltQuote>,
    books: Books)
  {
    /** A coin the mint would accept right now. */
    predicate Spendable(c: Coin) {
      c.secret in signed && signed[c.secret] == c.amount && c.secret !in spent && c.secret !in locked
    }

    predicate AllSpendable(cs: seq<Coin>) { forall c :: c in cs ==> Spendable(c) }

    predicate Unsigned(ss: set<nat>) { ss !! signed.Keys }

    function LiveOurs(): set<nat> { ours - spent }

    /** What the wallet's unspent coins are worth is exactly what came in less what went out. */
    ghost predicate Balanced()
      requires ours <= signed.Keys
    {
      Worth(LiveOurs(), signed) + books.vendor + books.melted + books.fees == books.issued + books.received
    }

    predicate MeltsOk() {
      && (forall q :: q in meltQuotes && meltQuotes[q].state.Pending? ==>
            && Distinct(meltQuotes[q].state.inputs)
            && Secrets(meltQuotes[q].state.inputs) <= locked * ours
            && (forall c :: c in meltQuotes[q].state.inputs ==> c.secret in signed && signed[c.secret] == c.amount)
            && Total(meltQuotes[q].state.inputs) >= meltQuotes[q].amount)
      && (forall q :: q in meltQuotes && meltQuotes[q].state.Paid? ==>
            Secrets(meltQuotes[q].state.inputs) <= spent && Secrets(meltQuotes[q].state.change) <= signed.Keys)
      && (forall q, r :: q in meltQuotes && r in meltQuotes && q != r && meltQuotes[q].state.Pending? && meltQuotes[r].state.Pending? ==>
            Secrets(meltQuotes[q].state.inputs) !! Secrets(meltQuotes[r].state.inputs))
    }

    ghost predicate Ok() {
      && spent <= signed.Keys && locked <= signed.Keys - spent && ours <= signed.Keys
      && MeltsOk()
      && Balanced()
    }
  }

  const EMPTY_MINT := Mint(map[], {}, {}, {}, map[], map[], Books(0, 0, 0, 0, 0))

  /** The part of a list of inputs that did not belong to the wallet. */
  function ForeignTotal(cs: seq<Coin>, ours: set<nat>): (t: nat)
    ensures t <= Total(cs)
  {
    if cs == [] then 0
    else (if cs[0].secret in ours then 0 else cs[0].amount) + ForeignTotal(cs[1..], ours)
  }

  // ---- swaps ----

  predicate CanSwap(m: Mint, sw: Swap) {
    sw.Wellformed() && m.AllSpendable(sw.inputs) && m.Unsigned(Secrets(sw.Outputs()))
  }

  function ApplySwap(m: Mint, sw: Swap): Mint {
    m.(signed := m.signed + Amounts(sw.Outputs()),
       spent := m.spent + Secrets(sw.inputs),
       ours := m.ours + Secrets(sw.keep),
       books := m.books.(
         received := m.books.received + ForeignTotal(sw.inputs, m.ours),
         vendor := m.books.vendor + Total(sw.send),
         fees := m.books.fees + sw.fees))
  }

  // ---- issuance ----

  predicate CanIssue(m: Mint, quote: nat, outputs: seq<Coin>) {
    && quote in m.mintQuotes && m.mintQuotes[quote].paid && !m.mintQuotes[quote].issued
    && outputs != [] && Distinct(outputs) && Positive(outputs) && m.Unsigned(Secrets(outputs))
    && Total(outputs) == m.mintQuotes[quote].amount
  }

  function ApplyIssue(m: Mint, quote: nat, outputs: seq<Coin>): Mint
    requires quote in m.mintQuotes
  {
    m.(signed := m.signed + Amounts(outputs),
       ours := m.ours + Secrets(outputs),
       mintQuotes := m.mintQuotes[quote := m.mintQuotes[quote].(issued := true)],
       books := m.books.(issued := m.books.issued + Total(outputs)))
  }

  // ---- melts ----

  predicate CanLand(m: Mint, r: MeltRequest) {
    && r.quote in m.meltQuotes && m.meltQuotes[r.quote].state.Unpaid?
    && Distinct(r.inputs) && m.AllSpendable(r.inputs) && Secrets(r.inputs) <= m.ours
    && Total(r.inputs) >= m.meltQuotes[r.quote].amount + m.meltQuotes[r.quote].feeReserve + r.inputFee
    && m.Unsigned(set b | b in r.blanks)
  }

  function ApplyLand(m: Mint, r: MeltRequest): Mint
    requires r.quote in m.meltQuotes
  {
    m.(locked := m.locked + Secrets(r.inputs),
       meltQuotes := m.meltQuotes[r.quote := m.meltQuotes[r.quote].(state := Pending(r.inputs, r.blanks))])
  }

  /** The outgoing payment settled; the mint signs change on a prefix of the blank outputs. */
  predicate CanPay(m: Mint, quote: nat, change: seq<Coin>) {
    && quote in m.meltQuotes && m.meltQuotes[quote].state.Pending?
    && var st := m.meltQuotes[quote].state;
    && |change| <= |st.blanks| && (forall i :: 0 <= i < |change| ==> change[i].secret == st.blanks[i])
    && Distinct(change) && Positive(change) && m.Unsigned(Secrets(change))
    && Total(change) + m.meltQuotes[quote].amount <= Total(st.inputs)
  }

  function ApplyPay(m: Mint, quote: nat, change: seq<Coin>): Mint
    requires CanPay(m, quote, change)
  {
    var st := m.meltQuotes[quote].state;
    m.(signed := m.signed + Amounts(change),
       spent := m.spent + Secrets(st.inputs),
       locked := m.locked - Secrets(st.inputs),
       ours := m.ours + Secrets(change),
       meltQuotes := m.meltQuotes[quote := m.meltQuotes[quote].(state := Paid(st.inputs, st.blanks, change))],
       books := m.books.(
         melted := m.books.melted + m.meltQuotes[quote].amount,
         fees := m.books.fees + (Total(st.inputs) - Total(change) - m.meltQuotes[quote].amount)))
  }

  /** The outgoing payment failed for good; its inputs are released. */
  function ApplyFail(m: Mint, quote: nat): Mint
    requires quote in m.meltQuotes && m.meltQuotes[quote].state.Pending?
  {
    m.(locked := m.locked - Secrets(m.meltQuotes[quote].state.inputs),
       meltQuotes := m.meltQuotes[quote := m.meltQuotes[quote].(state := Unpaid)])
  }

  // ---- other people ----

  function SignForeign(m: Mint, coins: seq<Coin>): Mint {
    m.(signed := m.signed + Amounts(coins))
  }

  function SpendForeign(m: Mint, ss: set<nat>): Mint {
    m.(spent := m.spent + ss)
  }

  // ---- every operation keeps the books ----

  lemma OursAndForeign(cs: seq<Coin>, ours: set<nat>, amounts: map<nat, nat>)
    requires Distinct(cs)
    requires forall c :: c in cs ==> c.secret in amounts && amounts[c.secret] == c.amount
    ensures Secrets(cs) * ours <= amounts.Keys
    ensures Worth(Secrets(cs) * ours, amounts) + ForeignTotal(cs, ours) == Total(cs)
  {
    if cs == [] {
      assert Secrets(cs) * ours == {};
    } else {
      assert cs == [cs[0]] + cs[1..];
      SecretsConcat([cs[0]], cs[1..]);
      assert Secrets([cs[0]]) == {cs[0].secret};
      OursAndForeign(cs[1..], ours, amounts);
      if cs[0].secret in ours {
        WorthRemove(Secrets(cs) * ours, amounts, cs[0].secret);
        assert Secrets(cs) * ours - {cs[0].secret} == Secrets(cs[1..]) * ours;
      } else {
        assert Secrets(cs) * ours == Secrets(cs[1..]) * ours;
      }
    }
  }

  /** The general book entry: the `burned` secrets become spent and the `minted` coins are signed. */
  lemma MoveLive(ours: set<nat>, spent: set<nat>, amounts: map<nat, nat>, burned: set<nat>, minted: seq<Coin>, amounts': map<nat, nat>)
    requires ours + spent + burned <= amounts.Keys && burned !! spent
    requires Distinct(minted) && Secrets(minted) !! amounts.Keys
    requires amounts.Keys + Secrets(minted) <= amounts'.Keys
    requires forall s :: s in amounts ==> amounts'[s] == amounts[s]
    requires forall c :: c in minted ==> amounts'[c.secret] == c.amount
    ensures Worth(ours + Secrets(minted) - (spent + burned), amounts') + Worth(burned * ours, amounts)
         == Worth(ours - spent, amounts) + Total(minted)
  {
    var rest := ours - spent - burned;
    assert ours + Secrets(minted) - (spent + burned) == rest + Secrets(minted);
    WorthUnion(rest, Secrets(minted), amounts');
    WorthOfCoins(minted, amounts');
    WorthAgrees(rest, amounts, amounts');
    WorthUnion(rest, burned * ours, amounts);
    assert rest + burned * ours == ours - spent;
  }

  lemma SignedAfter(m: map<nat, nat>, cs: seq<Coin>)
    requires Distinct(cs) && Secrets(cs) !! m.Keys
    ensures (m + Amounts(cs)).Keys == m.Keys + Secrets(cs)
    ensures forall s :: s in m ==> (m + Amounts(cs))[s] == m[s]
    ensures forall c :: c in cs ==> c.secret in Secrets(cs) && (m + Amounts(cs))[c.secret] == c.amount
  {
    forall c | c in cs ensures c.secret in Secrets(cs) && Amounts(cs)[c.secret] == c.amount { AmountsAt(cs, c); }
  }

  lemma SwapBalances(m: Mint, sw: Swap)
    requires m.Ok() && CanSwap(m, sw)
    ensures ApplySwap(m, sw).ours <= ApplySwap(m, sw).signed.Keys && ApplySwap(m, sw).Balanced()
  {
    var m' := ApplySwap(m, sw);
    SecretsConcat(sw.keep, sw.send);
    TotalConcat(sw.keep, sw.send);
    SignedAfter(m.signed, sw.Outputs());
    OursAndForeign(sw.inputs, m.ours, m.signed);
    assert Distinct(sw.keep) by { assert forall i :: 0 <= i < |sw.keep| ==> sw.keep[i] == sw.Outputs()[i]; }
    forall c | c in sw.keep ensures m'.signed[c.secret] == c.amount { assert c in sw.Outputs(); }
    MoveLive(m.ours, m.spent, m.signed, Secrets(sw.inputs), sw.keep, m'.signed);
  }

  lemma SwapKeepsBooks(m: Mint, sw: Swap)
    requires m.Ok() && CanSwap(m, sw)
    ensures ApplySwap(m, sw).Ok()
  {
    SwapBalances(m, sw);
    SignedAfter(m.signed, sw.Outputs());
    var m' := ApplySwap(m, sw);
    assert Secrets(sw.inputs) !! m.locked;
    assert m'.MeltsOk() by { SwapKeepsMelts(m, sw); }
  }

  lemma SwapKeepsMelts(m: Mint, sw: Swap)
    requires m.MeltsOk() && CanSwap(m, sw)
    ensures ApplySwap(m, sw).MeltsOk()
  {
    SignedAfter(m.signed, sw.Outputs());
  }

  lemma IssueKeepsBooks(m: Mint, quote: nat, outputs: seq<Coin>)
    requires m.Ok() && CanIssue(m, quote, outputs)
    ensures ApplyIssue(m, quote, outputs).Ok()
  {
    var m' := ApplyIssue(m, quote, outputs);
    SignedAfter(m.signed, outputs);
    MoveLive(m.ours, m.spent, m.signed, {}, outputs, m'.signed);
    assert {} * m.ours == {} && m.spent + {} == m.spent;
  }

  lemma LandKeepsBooks(m: Mint, r: MeltRequest)
    requires m.Ok() && CanLand(m, r)
    ensures ApplyLand(m, r).Ok()
  {
  }

  lemma PayKeepsBooks(m: Mint, quote: nat, change: seq<Coin>)
    requires m.Ok() && CanPay(m, quote, change)
    ensures ApplyPay(m, quote, change).Ok()
  {
    var m' := ApplyPay(m, quote, change);
    var st := m.meltQuotes[quote].state;
    SignedAfter(m.signed, change);
    WorthOfCoins(st.inputs, m.signed);
    MoveLive(m.ours, m.spent, m.signed, Secrets(st.inputs), change, m'.signed);
    assert Secrets(st.inputs) * m.ours == Secrets(st.inputs);
  }

  lemma FailKeepsBooks(m: Mint, quote: nat)
    requires m.Ok() && quote in m.meltQuotes && m.meltQuotes[quote].state.Pending?
    ensures ApplyFail(m, quote).Ok()
  {
  }

  lemma ForeignKeepsBooks(m: Mint, coins: seq<Coin>, ss: set<nat>)
    requires m.Ok() && Distinct(coins) && m.Unsigned(Secrets(coins))
    requires ss <= m.signed.Keys - m.ours - m.locked
    ensures SignForeign(m, coins).Ok() && SpendForeign(m, ss).Ok()
  {
    SignedAfter(m.signed, coins);
    WorthAgrees(m.LiveOurs(), m.signed, SignForeign(m, coins).signed);
    assert SpendForeign(m, ss).LiveOurs() == m.LiveOurs();
  }
}
