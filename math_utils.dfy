/** Checked u128 arithmetic and the pricing and fee formulas built on it. */
module MathUtils {
  import opened Common

  // ---- facts about multiplication the solver does not find alone ----

  lemma MulLeft(a: int, b: int, c: int)
    requires a <= b && 0 <= c
    ensures a * c <= b * c
  {
    assert b * c - a * c == (b - a) * c;
  }

  lemma MulBoth(a: int, b: int, c: int, d: int)
    requires 0 <= a <= b && 0 <= c <= d
    ensures a * c <= b * d
  {
    MulLeft(a, b, c);
    MulLeft(c, d, b);
  }

  /** The floor q of x / p fits below `bound` exactly when x does below bound * p. */
  lemma FloorFits(x: int, p: int, q: int, bound: int)
    requires 0 < p && 0 <= q && 0 < bound
    requires q * p <= x < q * p + p
    ensures q < bound <==> x < bound * p
  {
    if q < bound {
      MulLeft(q + 1, bound, p);
    } else {
      MulLeft(bound, q, p);
    }
  }

  /** Floor division brackets its dividend. */
  lemma DivisionBounds(x: nat, p: nat)
    requires 0 < p
    ensures (x / p) * p <= x < (x / p) * p + p
  {
  }

  // ---- checked u128 operations ----

  /** checked_mul: the exact product, or Overflow when it does not fit in 128 bits. */
  function SafeMul(a: U128, b: U128): (r: Result<U128>)
    ensures r.Failure? <==> a * b >= TWO128
    ensures r.Failure? ==> r.error == Math(MathError.Overflow)
    ensures r.Success? ==> r.value == a * b
  {
    if a * b < TWO128 then Success(a * b) else Failure(Math(MathError.Overflow))
  }

  /** Division by zero is refused; otherwise the result is the floor of a / b. */
  function SafeDiv(a: U128, b: U128): (r: Result<U128>)
    ensures r.Failure? <==> b == 0
    ensures r.Failure? ==> r.error == Math(MathError.DivisionByZero)
    ensures r.Success? ==> r.value * b <= a < r.value * b + b
  {
    if b == 0 then Failure(Math(MathError.DivisionByZero)) else Success(a / b)
  }

  /** checked_add: the exact sum, or Overflow when it does not fit in 128 bits. */
  function SafeAdd(a: U128, b: U128): (r: Result<U128>)
    ensures r.Failure? <==> a + b >= TWO128
    ensures r.Failure? ==> r.error == Math(MathError.Overflow)
    ensures r.Success? ==> r.value - b == a
  {
    if a + b < TWO128 then Success(a + b) else Failure(Math(MathError.Overflow))
  }

  /** checked_sub: Underflow exactly when b exceeds a; otherwise adding b back gives a. */
  function SafeSub(a: U128, b: U128): (r: Result<U128>)
    ensures r.Failure? <==> b > a
    ensures r.Failure? ==> r.error == Math(MathError.Underflow)
    ensures r.Success? ==> r.value + b == a
  {
    if b <= a then Success(a - b) else Failure(Math(MathError.Underflow))
  }

  /** The u128 to u64 conversion; a value that does not fit is reported as Overflow. */
  function NarrowToU64(x: U128): (r: Result<U64>)
    ensures r.Success? <==> x < TWO64
    ensures r.Success? ==> r.value == x
    ensures r.Failure? ==> r.error == Math(MathError.Overflow)
  {
    if x < TWO64 then Success(x) else Failure(Math(MathError.Overflow))
  }

  // ---- formulas ----

  /** amount * bps / 10000, rounded down. It fails only when that quotient does not fit in u64. */
  function CommissionAmount(amount: U64, bps: U16): (r: Result<U64>)
    ensures r.Success? <==> amount * bps < TWO64 * BPS_PRECISION
    ensures r.Failure? ==> r.error == Math(MathError.Overflow)
    ensures r.Success? ==> r.value * BPS_PRECISION <= amount * bps < r.value * BPS_PRECISION + BPS_PRECISION
  {
    MulBoth(amount, TWO64, bps, TWO16);
    // A u64 times a u16 always fits in 128 bits and the divisor is not zero.
    match SafeMul(amount, bps)
    case Failure(e) => Failure(e)
    case Success(product) =>
      match SafeDiv(product, BPS_PRECISION)
      case Failure(e) => Failure(e)
      case Success(quotient) => NarrowToU64(quotient)
  }

  /** A commission of at most 100% never exceeds the amount and never fails;
      0 bps gives nothing and 10000 bps gives the whole amount. */
  lemma CommissionWithinAmount(amount: U64, bps: U16)
    requires bps <= BPS_PRECISION
    ensures CommissionAmount(amount, bps).Success?
    ensures CommissionAmount(amount, bps).value <= amount
    ensures bps == 0 ==> CommissionAmount(amount, bps).value == 0
    ensures bps == BPS_PRECISION ==> CommissionAmount(amount, bps).value == amount
  {
    MulLeft(bps, BPS_PRECISION, amount);
    assert amount * bps <= amount * BPS_PRECISION;
  }

  /** Raising the rate never lowers the commission. */
  lemma CommissionMonotoneInRate(amount: U64, bps1: U16, bps2: U16)
    requires bps1 <= bps2
    requires CommissionAmount(amount, bps2).Success?
    ensures CommissionAmount(amount, bps1).Success?
    ensures CommissionAmount(amount, bps1).value <= CommissionAmount(amount, bps2).value
  {
    MulLeft(bps1, bps2, amount);
    var c1 := CommissionAmount(amount, bps1).value;
    var c2 := CommissionAmount(amount, bps2).value;
    assert c1 * BPS_PRECISION < c2 * BPS_PRECISION + BPS_PRECISION;
  }

  /** Two commissions on one amount whose rates add up to at most 100% together
      take no more than the amount. */
  lemma CommissionsFitInAmount(amount: U64, bps1: U16, bps2: U16)
    requires bps1 + bps2 <= BPS_PRECISION
    ensures CommissionAmount(amount, bps1).Success? && CommissionAmount(amount, bps2).Success?
    ensures CommissionAmount(amount, bps1).value + CommissionAmount(amount, bps2).value <= amount
  {
    CommissionWithinAmount(amount, bps1);
    CommissionWithinAmount(amount, bps2);
    var c1 := CommissionAmount(amount, bps1).value;
    var c2 := CommissionAmount(amount, bps2).value;
    MulLeft(bps1 + bps2, BPS_PRECISION, amount);
    assert (c1 + c2) * BPS_PRECISION <= amount * bps1 + amount * bps2 <= amount * BPS_PRECISION;
  }

  /** The linear bonding curve: initial_price + slope * tokens_sold, exactly, or
      Overflow when that does not fit in u64. */
  function BondingCurvePrice(initialPrice: U64, slope: U64, tokensSold: U64): (r: Result<U64>)
    ensures r.Success? <==> initialPrice + slope * tokensSold < TWO64
    ensures r.Failure? ==> r.error == Math(MathError.Overflow)
    ensures r.Success? ==> r.value == initialPrice + slope * tokensSold
  {
    MulBoth(slope, TWO64, tokensSold, TWO64);
    // Neither step can overflow 128 bits for u64 inputs; only the narrowing can fail.
    match SafeMul(slope, tokensSold)
    case Failure(e) => Failure(e)
    case Success(increase) =>
      match SafeAdd(initialPrice, increase)
      case Failure(e) => Failure(e)
      case Success(price) => NarrowToU64(price)
  }

  /** Before any sale the curve quotes the initial price. */
  lemma BondingCurveAtLaunch(initialPrice: U64, slope: U64)
    ensures BondingCurvePrice(initialPrice, slope, 0) == Success(initialPrice)
  {
  }

  /** The price never falls as more tokens are sold. */
  lemma BondingCurveMonotone(initialPrice: U64, slope: U64, sold1: U64, sold2: U64)
    requires sold1 <= sold2
    requires BondingCurvePrice(initialPrice, slope, sold2).Success?
    ensures BondingCurvePrice(initialPrice, slope, sold1).Success?
    ensures BondingCurvePrice(initialPrice, slope, sold1).value <= BondingCurvePrice(initialPrice, slope, sold2).value
  {
    MulLeft(sold1, sold2, slope);
    assert slope * sold1 <= slope * sold2;
  }

  /** sol_amount * 10^9 / price, rounded down: DivisionByZero for a zero price,
      Overflow when the quotient does not fit in u64. */
  function TokensToMint(solAmount: U64, currentPrice: U64): (r: Result<U64>)
    ensures currentPrice == 0 ==> r == Failure(Math(MathError.DivisionByZero))
    ensures currentPrice > 0 ==> (r.Success? <==> solAmount * TOKEN_UNIT < TWO64 * currentPrice)
    ensures currentPrice > 0 && r.Failure? ==> r.error == Math(MathError.Overflow)
    ensures r.Success? ==> r.value * currentPrice <= solAmount * TOKEN_UNIT < r.value * currentPrice + currentPrice
  {
    match SafeMul(solAmount, TOKEN_UNIT)
    case Failure(e) => Failure(e)
    case Success(scaled) =>
    var quotient :- SafeDiv(scaled, currentPrice);
    FloorFits(scaled, currentPrice, quotient, TWO64);
    NarrowToU64(quotient)
  }

  /** For a fixed payment a higher price never buys more tokens. */
  lemma TokensToMintAntitone(solAmount: U64, price1: U64, price2: U64)
    requires 0 < price1 <= price2
    requires TokensToMint(solAmount, price1).Success?
    ensures TokensToMint(solAmount, price2).Success?
    ensures TokensToMint(solAmount, price2).value <= TokensToMint(solAmount, price1).value
  {
    var t1 := TokensToMint(solAmount, price1).value;
    MulLeft(price1, price2, TWO64);
    var t2 := TokensToMint(solAmount, price2).value;
    if t2 > t1 {
      MulBoth(t1 + 1, t2, price1, price2);
      assert false;
    }
  }

  /** One SOL at 0.1 SOL per token buys ten whole tokens. */
  lemma TokensToMintScenario()
    ensures TokensToMint(1_000_000_000, 100_000_000) == Success(10_000_000_000)
  {
  }

  /** Ten whole tokens at the default 1000 bps earn one whole token. */
  lemma CommissionScenario()
    ensures CommissionAmount(10_000_000_000, 1000) == Success(1_000_000_000)
  {
  }
}
