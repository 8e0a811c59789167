/** Conversion between ecash units and the base units of the node. Unsigned 64- and 128-bit bounds
    are explicit: a conversion that does not fit is refused, never wrapped. A scale of zero would
    divide by zero, so every scale is positive. */
module FiberAmounts {
  import opened Ecash

  const U64: nat := 0x1_0000_0000_0000_0000
  const U128: nat := 0x1_0000_0000_0000_0000_0000_0000_0000_0000

  function CeilDiv(a: nat, b: nat): nat
    requires b > 0
  {
    if a % b == 0 then a / b else a / b + 1
  }

  function ToBase(ecash: nat, scale: nat): nat { ecash * scale }

  function FromBaseFloor(base: nat, scale: nat): Option<nat>
    requires scale > 0
  {
    if base / scale < U64 then Some(base / scale) else None
  }

  function FromBaseCeil(base: nat, scale: nat): Option<nat>
    requires scale > 0
  {
    if CeilDiv(base, scale) < U64 then Some(CeilDiv(base, scale)) else None
  }

  function FeeReserve(routedFee: nat, scale: nat, percent: nat, floor: nat): Option<nat>
    requires scale > 0
  {
    var routed := FromBaseCeil(routedFee, scale);
    if routed.None? then None
    else
      var cushioned := CeilDiv(routed.value * (100 + percent), 100);
      if cushioned >= U64 then None else Some(if cushioned < floor then floor else cushioned)
  }

  const DEFAULT_RATE: nat := 5

  function MaxFeeRateFor(amount: nat, maxFee: nat): Option<nat> {
    if amount == 0 || maxFee * 1000 >= U128 then None
    else
      var needed := CeilDiv(maxFee * 1000, amount);
      if needed <= DEFAULT_RATE || needed >= U64 then None else Some(needed)
  }

  /** The fee ceiling the node honours for a requested ceiling and an optional rate in thousandths. */
  function Clamp(amount: nat, maxFee: nat, rate: Option<nat>): nat {
    var admitted := amount * (if rate.Some? then rate.value else DEFAULT_RATE) / 1000;
    if admitted < maxFee then admitted else maxFee
  }

  // ---- rounding ----

  lemma {:induction false} DivMul(a: nat, b: nat, q: nat)
    requires b > 0
    ensures a / b == q <==> q * b <= a < (q + 1) * b
  {
    var d := a / b;
    assert a == d * b + a % b;
    if d < q {
      assert (d + 1) * b <= q * b by { MulLe(d + 1, q, b); }
    } else if d > q {
      assert (q + 1) * b <= d * b by { MulLe(q + 1, d, b); }
    }
  }

  lemma MulLe(a: nat, b: nat, c: nat)
    requires a <= b
    ensures a * c <= b * c
  {
    assert b * c == a * c + (b - a) * c;
  }

  /** Ceiling division gives the least multiple at or above. */
  lemma CeilLeast(a: nat, b: nat, n: nat)
    requires b > 0
    ensures n * b >= a <==> n >= CeilDiv(a, b)
  {
    var c := CeilDiv(a, b);
    assert a == a / b * b + a % b;
    assert c * b >= a;
    assert c > 0 ==> (c - 1) * b < a;
    if n >= c { MulLe(c, n, b); } else { MulLe(n, c - 1, b); }
  }

  /** Amounts a mint receives: the credit is the greatest number of units the funds cover, and it
      is refused exactly when it does not fit 64 bits. */
  lemma FloorIsGreatest(base: nat, scale: nat, n: nat)
    requires scale > 0
    ensures FromBaseFloor(base, scale).Some? ==> (ToBase(n, scale) <= base <==> n <= FromBaseFloor(base, scale).value)
    ensures FromBaseFloor(base, scale).None? <==> ToBase(U64, scale) <= base
  {
    DivMul(base, scale, base / scale);
    var d := base / scale;
    if n <= d { MulLe(n, d, scale); } else { MulLe(d + 1, n, scale); }
    if U64 <= d { MulLe(U64, d, scale); } else { MulLe(d + 1, U64, scale); }
  }

  /** Amounts a mint charges: the charge is the least number of units that covers the cost, and it
      is refused exactly when it does not fit 64 bits. */
  lemma CeilIsLeast(base: nat, scale: nat, n: nat)
    requires scale > 0
    ensures FromBaseCeil(base, scale).Some? ==> (ToBase(n, scale) >= base <==> n >= FromBaseCeil(base, scale).value)
    ensures FromBaseCeil(base, scale).None? <==> ToBase(U64 - 1, scale) < base
  {
    CeilLeast(base, scale, n);
    CeilLeast(base, scale, U64 - 1);
  }

  lemma RoundTrip(ecash: nat, scale: nat)
    requires scale > 0 && ecash < U64
    ensures FromBaseFloor(ToBase(ecash, scale), scale) == Some(ecash) == FromBaseCeil(ToBase(ecash, scale), scale)
  {
    DivMul(ecash * scale, scale, ecash);
    CeilLeast(ecash * scale, scale, ecash);
    if ecash > 0 { CeilLeast(ecash * scale, scale, ecash - 1); }
    assert (ecash + 1) * scale > ecash * scale;
    if ecash > 0 { assert (ecash - 1) * scale == ecash * scale - scale; }
  }

  /** The reserve is the least number of units at or above the floor that covers the routed fee,
      in whole units, with its cushion. */
  lemma ReserveIsLeast(routedFee: nat, scale: nat, percent: nat, floor: nat, n: nat)
    requires scale > 0 && FeeReserve(routedFee, scale, percent, floor).Some?
    ensures n >= FeeReserve(routedFee, scale, percent, floor).value
            <==> n >= floor && n * 100 >= CeilDiv(routedFee, scale) * (100 + percent)
  {
    CeilLeast(CeilDiv(routedFee, scale) * (100 + percent), 100, n);
  }

  /** A reserve always covers the fee the node routed the quote with. */
  lemma ReserveCoversRoute(routedFee: nat, scale: nat, percent: nat, floor: nat)
    requires scale > 0 && FeeReserve(routedFee, scale, percent, floor).Some?
    ensures ToBase(FeeReserve(routedFee, scale, percent, floor).value, scale) >= routedFee
  {
    var reserve, routed := FeeReserve(routedFee, scale, percent, floor).value, CeilDiv(routedFee, scale);
    ReserveIsLeast(routedFee, scale, percent, floor, reserve);
    assert routed * (100 + percent) >= routed * 100;
    assert reserve >= routed;
    CeilLeast(routedFee, scale, reserve);
  }

  /** Rounding up over-collects less than one unit. */
  lemma CeilTight(base: nat, scale: nat)
    requires scale > 0
    ensures base <= ToBase(CeilDiv(base, scale), scale) < base + scale
  {
    var c := CeilDiv(base, scale);
    CeilLeast(base, scale, c);
    if c > 0 {
      CeilLeast(base, scale, c - 1);
      assert (c - 1) * scale == c * scale - scale;
    }
  }

  /** A quote of `amount` units and a reserve covers whatever make_payment charges for a payment
      whose fee stays within the reserve, and the charge over-collects less than one unit. */
  lemma QuoteCoversCharge(amountBase: nat, fee: nat, scale: nat, amount: nat, reserve: nat)
    requires scale > 0 && FromBaseCeil(amountBase, scale) == Some(amount) && fee <= ToBase(reserve, scale)
    ensures CeilDiv(amountBase + fee, scale) <= amount + reserve
    ensures amountBase + fee <= ToBase(CeilDiv(amountBase + fee, scale), scale) < amountBase + fee + scale
  {
    CeilLeast(amountBase, scale, amount);
    assert (amount + reserve) * scale == amount * scale + reserve * scale;
    CeilLeast(amountBase + fee, scale, amount + reserve);
    CeilTight(amountBase + fee, scale);
  }

  /** The rate sent to the node is the least one, above the default, under which it honours the
      whole ceiling; no rate is sent when the default already does. The exceptions are an amount
      of zero, for which no rate helps, and a needed rate or product that does not fit. */
  lemma RateAdmitsCeiling(amount: nat, maxFee: nat, k: nat)
    requires amount > 0 && maxFee * 1000 < U128 && CeilDiv(maxFee * 1000, amount) < U64
    ensures Clamp(amount, maxFee, MaxFeeRateFor(amount, maxFee)) == maxFee
    ensures MaxFeeRateFor(amount, maxFee).None? <==> Clamp(amount, maxFee, None) == maxFee
    ensures MaxFeeRateFor(amount, maxFee).Some? ==> (Clamp(amount, maxFee, Some(k)) == maxFee <==> k >= MaxFeeRateFor(amount, maxFee).value)
  {
    Admits(amount, maxFee, DEFAULT_RATE);
    Admits(amount, maxFee, CeilDiv(maxFee * 1000, amount));
    Admits(amount, maxFee, k);
  }

  /** A rate admits the ceiling exactly when it is at least the needed one. */
  lemma Admits(amount: nat, maxFee: nat, rate: nat)
    requires amount > 0
    ensures amount * rate / 1000 >= maxFee <==> rate >= CeilDiv(maxFee * 1000, amount)
  {
    CeilLeast(maxFee * 1000, amount, rate);
    assert rate * amount == amount * rate;
    DivMul(amount * rate, 1000, amount * rate / 1000);
  }

  /** In the exceptional cases no rate is sent, and the default honours the ceiling only if it is
      nothing, or small enough for the default. */
  lemma RateMissing(amount: nat, maxFee: nat)
    requires amount == 0 || maxFee * 1000 >= U128 || CeilDiv(maxFee * 1000, amount) >= U64
    ensures MaxFeeRateFor(amount, maxFee).None?
    ensures Clamp(amount, maxFee, None) == maxFee <==> maxFee == 0 || (amount > 0 && CeilDiv(maxFee * 1000, amount) <= DEFAULT_RATE)
  {
    if amount > 0 { Admits(amount, maxFee, DEFAULT_RATE); }
  }

  /** The amounts that a charge of the fee alone still covers: what rounding the fee up leaves over. */
  predicate CoveredByFee(amountBase: nat, fee: nat, scale: nat)
    requires scale > 0
  {
    amountBase <= (scale - fee % scale) % scale
  }

  /** A check of a stored payment prices it with an amount of zero: it charges the fee alone, which
      covers what was spent exactly when the amount fits in what rounding the fee up leaves over. */
  lemma CheckUndercharges(amountBase: nat, fee: nat, scale: nat)
    requires scale > 0
    ensures ToBase(CeilDiv(fee, scale), scale) >= amountBase + fee <==> CoveredByFee(amountBase, fee, scale)
  {
    var d, r := fee / scale, fee % scale;
    assert fee == d * scale + r;
    assert (d + 1) * scale == d * scale + scale;
    if r == 0 { assert (scale - r) % scale == 0; } else { SmallMod(scale - r, scale); }
  }

  lemma SmallMod(a: nat, b: nat)
    requires a < b
    ensures a % b == a
  {
  }
}
