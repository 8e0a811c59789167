/** Coins, lists of coins and the value they carry. A proof and the blinded output that will
    become it share one secret, so both are a `Coin`. */
module Ecash {

  datatype Option<+T> = None | Some(value: T)

  datatype Coin = Coin(secret: nat, amount: nat)

  /** A prepared swap as the wallet stores it: the proofs it will spend, the outputs that stay with
      the wallet, the outputs meant for somebody else, and the proofs the selection left alone. */
  datatype Swap = Swap(amount: nat, fees: nat, inputs: seq<Coin>, keep: seq<Coin>, send: seq<Coin>, unselected: seq<Coin>) {
    function Outputs(): seq<Coin> { keep + send }

    function Footprint(): set<nat> { Secrets(inputs) + Secrets(Outputs()) }

    predicate Wellformed() {
      && inputs != [] && Outputs() != []
      && Positive(inputs) && Positive(Outputs())
      && Distinct(inputs) && Distinct(Outputs()) && Secrets(inputs) !! Secrets(Outputs())
      && Total(inputs) == Total(Outputs()) + fees
    }
  }

  function Secrets(cs: seq<Coin>): set<nat> {
    set c | c in cs :: c.secret
  }

  function Total(cs: seq<Coin>): nat {
    if cs == [] then 0 else cs[0].amount + Total(cs[1..])
  }

  predicate Distinct(cs: seq<Coin>) {
    forall i, j :: 0 <= i < j < |cs| ==> cs[i].secret != cs[j].secret
  }

  predicate Positive(cs: seq<Coin>) {
    forall c :: c in cs ==> c.amount > 0
  }

  /** A member in two places is counted twice. */
  lemma CountTwo<T>(xs: seq<T>, i: nat, j: nat)
    requires i < j < |xs| && xs[i] == xs[j]
    ensures multiset(xs)[xs[i]] >= 2
  {
    assert xs == xs[..j] + xs[j..];
    assert xs[i] in xs[..j] && xs[j] in xs[j..];
  }

  /** The amount a list of coins gives to each of its secrets. */
  function Amounts(cs: seq<Coin>): (m: map<nat, nat>)
    ensures m.Keys == Secrets(cs)
  {
    if cs == [] then map[]
    else
      assert cs == [cs[0]] + cs[1..];
      assert Secrets(cs) == {cs[0].secret} + Secrets(cs[1..]);
      Amounts(cs[1..])[cs[0].secret := cs[0].amount]
  }

  lemma AmountsAt(cs: seq<Coin>, c: Coin)
    requires Distinct(cs) && c in cs
    ensures Amounts(cs)[c.secret] == c.amount
  {
    if cs[0] != c {
      AmountsAt(cs[1..], c);
    }
  }

  lemma SecretsConcat(a: seq<Coin>, b: seq<Coin>)
    ensures Secrets(a + b) == Secrets(a) + Secrets(b)
  {
    forall s | s in Secrets(a) + Secrets(b) ensures s in Secrets(a + b) {
      if s in Secrets(a) {
        var c :| c in a && c.secret == s;
        assert c in a + b;
      } else {
        var c :| c in b && c.secret == s;
        assert c in a + b;
      }
    }
  }

  lemma TotalConcat(a: seq<Coin>, b: seq<Coin>)
    ensures Total(a + b) == Total(a) + Total(b)
  {
    if a == [] {
      assert a + b == b;
    } else {
      assert (a + b)[1..] == a[1..] + b;
      TotalConcat(a[1..], b);
    }
  }

  lemma DistinctParts(a: seq<Coin>, b: seq<Coin>)
    requires Distinct(a + b)
    ensures Distinct(a) && Distinct(b) && Secrets(a) !! Secrets(b)
  {
    assert forall i :: 0 <= i < |a| ==> (a + b)[i] == a[i];
    assert forall i :: 0 <= i < |b| ==> (a + b)[|a| + i] == b[i];
    forall s | s in Secrets(a) ensures s !in Secrets(b) {
      var i :| 0 <= i < |a| && a[i].secret == s;
      forall j | 0 <= j < |b| ensures b[j].secret != s { assert (a + b)[i].secret != (a + b)[|a| + j].secret; }
    }
  }

  lemma DistinctConcat(a: seq<Coin>, b: seq<Coin>)
    requires Distinct(a) && Distinct(b) && Secrets(a) !! Secrets(b)
    ensures Distinct(a + b)
  {
    forall i, j | 0 <= i < j < |a + b| ensures (a + b)[i].secret != (a + b)[j].secret {
      if i < |a| <= j {
        assert a[i].secret in Secrets(a) && b[j - |a|].secret in Secrets(b);
      }
    }
  }

  /** The value of a set of secrets under an amount map. */
  ghost function Worth(ss: set<nat>, amounts: map<nat, nat>): nat
    requires ss <= amounts.Keys
  {
    if ss == {} then 0 else var s :| s in ss; amounts[s] + Worth(ss - {s}, amounts)
  }

  lemma {:induction false} WorthRemove(ss: set<nat>, amounts: map<nat, nat>, x: nat)
    requires ss <= amounts.Keys && x in ss
    ensures Worth(ss, amounts) == amounts[x] + Worth(ss - {x}, amounts)
    decreases |ss|
  {
    var s :| s in ss && Worth(ss, amounts) == amounts[s] + Worth(ss - {s}, amounts);
    if s != x {
      WorthRemove(ss - {s}, amounts, x);
      WorthRemove(ss - {x}, amounts, s);
      assert ss - {s} - {x} == ss - {x} - {s};
    }
  }

  lemma {:induction false} WorthUnion(a: set<nat>, b: set<nat>, amounts: map<nat, nat>)
    requires a <= amounts.Keys && b <= amounts.Keys && a !! b
    ensures Worth(a + b, amounts) == Worth(a, amounts) + Worth(b, amounts)
    decreases |a|
  {
    if a == {} {
      assert a + b == b;
    } else {
      var x :| x in a;
      WorthRemove(a + b, amounts, x);
      WorthRemove(a, amounts, x);
      assert a + b - {x} == (a - {x}) + b;
      WorthUnion(a - {x}, b, amounts);
    }
  }

  /** Only the amounts of the counted secrets matter. */
  lemma {:induction false} WorthAgrees(ss: set<nat>, m: map<nat, nat>, n: map<nat, nat>)
    requires ss <= m.Keys && ss <= n.Keys && forall s :: s in ss ==> m[s] == n[s]
    ensures Worth(ss, m) == Worth(ss, n)
    decreases |ss|
  {
    if ss != {} {
      var x :| x in ss;
      WorthRemove(ss, m, x);
      WorthRemove(ss, n, x);
      WorthAgrees(ss - {x}, m, n);
    }
  }

  /** A list without repeated secrets is worth the sum of its amounts. */
  lemma {:induction false} WorthOfCoins(cs: seq<Coin>, amounts: map<nat, nat>)
    requires Distinct(cs)
    requires forall c :: c in cs ==> c.secret in amounts && amounts[c.secret] == c.amount
    ensures Secrets(cs) <= amounts.Keys && Worth(Secrets(cs), amounts) == Total(cs)
  {
    if cs == [] {
      assert Secrets(cs) == {};
    } else {
      assert cs == [cs[0]] + cs[1..];
      WorthOfCoins(cs[1..], amounts);
      WorthRemove(Secrets(cs), amounts, cs[0].secret);
      assert Secrets(cs) - {cs[0].secret} == Secrets(cs[1..]);
    }
  }
}
