/** The oracle-priced exchange pool: prices pushed by an oracle authority, swaps
    at that price less a fee, and liquidity counters moved by swaps. Every
    instruction is all-or-nothing: when it fails, no account changes. */
module BarterDex {
  import opened Common
  import opened MathUtils
  import opened TimeUtils

  /** Slots in the circular price history. */
  const HISTORY_SLOTS: int := 24

  /** Which oracle family a pool was configured for. The variants are not part
      of this model; the tag is only stored. */
  type OracleProvider = nat

  datatype CreatePoolArgs = CreatePoolArgs(
    oracleAuthority: Key,
    oracleProvider: OracleProvider,
    pythPriceFeedA: Option<Key>,
    pythPriceFeedB: Option<Key>,
    switchboardFeed: Option<Key>,
    aiOracleProgram: Option<Key>,
    feeBps: U16,
    dynamicFeeEnabled: bool,
    volatilityThreshold: U64)

  datatype UpdatePriceArgs = UpdatePriceArgs(
    pythPrice: Option<U64>,
    switchboardPrice: Option<U64>,
    aiPrice: Option<U64>,
    priceConfidence: Option<U64>)

  /** The latest price reported by each source, if any. */
  datatype PriceSources = PriceSources(pyth: Option<U64>, switchboard: Option<U64>, ai: Option<U64>)

  /** Everything the pool stores about its price when it weighs the sources:
      the per-source readings, the confidence and the last stored price. */
  datatype PriceReadings = PriceReadings(sources: PriceSources, confidence: U64, lastPrice: U64)

  /** The pool's weighted-price rule, applied to its stored readings. */
  type PriceWeighing = PriceReadings -> Result<U64>

  /** A supplied reading replaces the stored one; an absent one keeps it. */
  function Merge(stored: Option<U64>, supplied: Option<U64>): (r: Option<U64>)
    ensures supplied.Some? ==> r == supplied
    ensures supplied.None? ==> r == stored
  {
    if supplied.Some? then supplied else stored
  }

  /** The amounts of one swap. */
  datatype SwapAmounts = SwapAmounts(beforeFee: U64, fee: U64, amountOut: U64)

  /** The exact-rational output before the fee: selling token A multiplies by the
      price, selling token B divides by it, both at 10^9 precision. */
  function GrossOutput(amountIn: U64, price: U64, sellingA: bool): nat
    requires price > 0
  {
    if sellingA then (amountIn * price) / ORACLE_PRICE_PRECISION
    else (amountIn * ORACLE_PRICE_PRECISION) / price
  }

  /** The swap arithmetic. The u128 products cannot overflow and the divisors are
      positive; the two casts back to u64 keep only the low 64 bits; a fee larger
      than the gross output is refused (Underflow). */
  function SwapOutput(amountIn: U64, price: U64, feeBps: U16, sellingA: bool): (r: Result<SwapAmounts>)
    requires price > 0
    ensures r.Failure? ==> r.error == Barter(BarterError.Underflow)
    ensures r.Success? ==> r.value.amountOut + r.value.fee == r.value.beforeFee
    ensures r.Failure? <==> SwapFee(GrossOutput(amountIn, price, sellingA) % TWO64, feeBps) > GrossOutput(amountIn, price, sellingA) % TWO64
    ensures r.Success? ==> (r.value.beforeFee == GrossOutput(amountIn, price, sellingA) % TWO64
      && r.value.fee == SwapFee(r.value.beforeFee, feeBps))
    ensures GrossOutput(amountIn, price, sellingA) < TWO64 ==> (r.Success? ==> r.value.beforeFee == GrossOutput(amountIn, price, sellingA))
    ensures feeBps <= BPS_PRECISION ==> r.Success?
  {
    var beforeFee := GrossOutput(amountIn, price, sellingA) % TWO64;
    var fee := SwapFee(beforeFee, feeBps);
    if fee > beforeFee then Failure(Barter(BarterError.Underflow))
    else Success(SwapAmounts(beforeFee, fee, beforeFee - fee))
  }

  /** The fee on a gross output, cast back to u64. */
  function SwapFee(beforeFee: U64, feeBps: U16): (fee: U64)
    ensures feeBps <= BPS_PRECISION ==> fee <= beforeFee
    ensures feeBps <= BPS_PRECISION ==> fee * BPS_PRECISION <= beforeFee * feeBps < fee * BPS_PRECISION + BPS_PRECISION
  {
    var q := (beforeFee * feeBps) / BPS_PRECISION;
    FeeWithinOutput(beforeFee, feeBps);
    q % TWO64
  }

  /** At a fee rate of at most 100% the fee quotient fits and never exceeds the output. */
  lemma FeeWithinOutput(beforeFee: U64, feeBps: U16)
    ensures var q := (beforeFee * feeBps) / BPS_PRECISION;
      q * BPS_PRECISION <= beforeFee * feeBps < q * BPS_PRECISION + BPS_PRECISION
    ensures feeBps <= BPS_PRECISION ==> (beforeFee * feeBps) / BPS_PRECISION <= beforeFee
  {
    var x := beforeFee * feeBps;
    DivisionBounds(x, BPS_PRECISION);
    if feeBps <= BPS_PRECISION {
      MulLeft(feeBps, BPS_PRECISION, beforeFee);
      FloorFits(x, BPS_PRECISION, x / BPS_PRECISION, beforeFee + 1);
    }
  }

  /** Floor division by a positive constant is monotone. */
  lemma FloorMonotone(x1: int, x2: int, p: int)
    requires 0 <= x1 <= x2 && 0 < p
    ensures x1 / p <= x2 / p
  {
    var q1 := x1 / p;
    var q2 := x2 / p;
    if q2 < q1 {
      MulLeft(q2 + 1, q1, p);
      assert false;
    }
  }

  /** Taking off a fee of at most 100% never turns a larger gross output into a smaller net one. */
  lemma NetAfterFeeMonotone(b1: U64, b2: U64, feeBps: U16)
    requires b1 <= b2 && feeBps <= BPS_PRECISION
    ensures b1 - (b1 * feeBps) / BPS_PRECISION <= b2 - (b2 * feeBps) / BPS_PRECISION
  {
    var q1 := (b1 * feeBps) / BPS_PRECISION;
    var q2 := (b2 * feeBps) / BPS_PRECISION;
    var d := b2 - b1;
    FeeWithinOutput(b1, feeBps);
    FeeWithinOutput(b2, feeBps);
    assert b2 * feeBps == b1 * feeBps + d * feeBps;
    MulLeft(feeBps, BPS_PRECISION, d);
    if q2 - q1 > d {
      MulLeft(d + 1, q2 - q1, BPS_PRECISION);
      assert false;
    }
  }

  /** For a fixed price and a fee rate of at most 100%, paying in more never
      yields less, as long as the gross output fits in u64. */
  lemma {:induction false} SwapOutputMonotone(in1: U64, in2: U64, price: U64, feeBps: U16, sellingA: bool)
    requires price > 0 && in1 <= in2 && feeBps <= BPS_PRECISION
    requires GrossOutput(in2, price, sellingA) < TWO64
    ensures SwapOutput(in1, price, feeBps, sellingA).Success? && SwapOutput(in2, price, feeBps, sellingA).Success?
    ensures SwapOutput(in1, price, feeBps, sellingA).value.amountOut <= SwapOutput(in2, price, feeBps, sellingA).value.amountOut
  {
    if sellingA {
      MulLeft(in1, in2, price);
      FloorMonotone(in1 * price, in2 * price, ORACLE_PRICE_PRECISION);
    } else {
      MulLeft(in1, in2, ORACLE_PRICE_PRECISION);
      FloorMonotone(in1 * ORACLE_PRICE_PRECISION, in2 * ORACLE_PRICE_PRECISION, price);
    }
    var b1 := GrossOutput(in1, price, sellingA);
    var b2 := GrossOutput(in2, price, sellingA);
    assert b1 % TWO64 == b1 && b2 % TWO64 == b2;
    FeeWithinOutput(b1, feeBps);
    FeeWithinOutput(b2, feeBps);
    assert SwapFee(b1, feeBps) == (b1 * feeBps) / BPS_PRECISION;
    assert SwapFee(b2, feeBps) == (b2 * feeBps) / BPS_PRECISION;
    NetAfterFeeMonotone(b1, b2, feeBps);
  }

  /** Selling 10^9 units of A at the 1:1 initial price with a 30 bps fee returns
      10^9 less the 3 * 10^6 fee. */
  lemma SwapScenario()
    ensures SwapOutput(1_000_000_000, ORACLE_PRICE_PRECISION, 30, true)
      == Success(SwapAmounts(1_000_000_000, 3_000_000, 997_000_000))
  {
  }

  /** The pool's liquidity counters. */
  datatype Liquidity = Liquidity(a: U64, b: U64)

  /** The liquidity counters after a swap: the side paid in grows by the input
      (Overflow) and the side paid out shrinks by the output (Underflow). */
  function SettleLiquidity(before: Liquidity, sellingA: bool, amountIn: U64, amountOut: U64): (r: Result<Liquidity>)
    ensures r.Success? ==> r.value.a + r.value.b + amountOut == before.a + before.b + amountIn
    ensures r.Success? && sellingA ==> r.value.a == before.a + amountIn && r.value.b + amountOut == before.b
    ensures r.Success? && !sellingA ==> r.value.b == before.b + amountIn && r.value.a + amountOut == before.a
    ensures r.Failure? ==> r.error in {Barter(BarterError.Overflow), Barter(BarterError.Underflow)}
    ensures (if sellingA then before.b else before.a) < amountOut && (if sellingA then before.a else before.b) + amountIn < TWO64
      ==> r == Failure(Barter(BarterError.Underflow))
  {
    if sellingA then
      if before.a + amountIn >= TWO64 then Failure(Barter(BarterError.Overflow))
      else if amountOut > before.b then Failure(Barter(BarterError.Underflow))
      else Success(Liquidity(before.a + amountIn, before.b - amountOut))
    else
      if before.b + amountIn >= TWO64 then Failure(Barter(BarterError.Overflow))
      else if amountOut > before.a then Failure(Barter(BarterError.Underflow))
      else Success(Liquidity(before.a - amountOut, before.b + amountIn))
  }

  /** Deposits do not move the counters, so a pool funded only by deposits keeps
      zero counters and refuses every swap that pays anything out. */
  lemma DepositOnlyPoolRefusesSwaps(sellingA: bool, amountIn: U64, amountOut: U64)
    requires amountOut > 0
    ensures SettleLiquidity(Liquidity(0, 0), sellingA, amountIn, amountOut) == Failure(Barter(BarterError.Underflow))
  {
  }

  /** An oracle-priced pool for one pair of mints. */
  class LiquidityPool {
    const mintA: Key
    const mintB: Key
    const oracleAuthority: Key
    var oraclePrice: U64
    var lastOracleUpdate: I64
    const oracleProvider: OracleProvider
    const pythPriceFeedA: Option<Key>
    const pythPriceFeedB: Option<Key>
    const switchboardFeed: Option<Key>
    const aiOracleProgram: Option<Key>
    var pythPrice: Option<U64>
    var switchboardPrice: Option<U64>
    var aiPrice: Option<U64>
    var priceConfidence: U64
    const priceHistory: array<U64>
    var historyIndex: U8
    var totalLiquidityA: U64
    var totalLiquidityB: U64
    var feeBps: U16
    var dynamicFeeEnabled: bool
    var volatilityThreshold: U64
    var lastVolatilityUpdate: I64

    ghost predicate Valid()
      reads this
    {
      priceHistory.Length == HISTORY_SLOTS && historyIndex < HISTORY_SLOTS
    }

    /** A new pool: a 1:1 price stamped now, a history of 1:1 prices, no source
        readings, zero confidence and zero liquidity counters. */
    constructor Create(mintA: Key, mintB: Key, args: CreatePoolArgs, now: I64)
      ensures Valid() && fresh(priceHistory)
      ensures this.mintA == mintA && this.mintB == mintB && oracleAuthority == args.oracleAuthority
      ensures oraclePrice == ORACLE_PRICE_PRECISION && lastOracleUpdate == now
      ensures oracleProvider == args.oracleProvider && pythPriceFeedA == args.pythPriceFeedA
      ensures pythPriceFeedB == args.pythPriceFeedB && switchboardFeed == args.switchboardFeed
      ensures aiOracleProgram == args.aiOracleProgram
      ensures pythPrice == None && switchboardPrice == None && aiPrice == None && priceConfidence == 0
      ensures priceHistory[..] == seq(HISTORY_SLOTS, _ => ORACLE_PRICE_PRECISION) && historyIndex == 0
      ensures totalLiquidityA == 0 && totalLiquidityB == 0
      ensures feeBps == args.feeBps && dynamicFeeEnabled == args.dynamicFeeEnabled
      ensures volatilityThreshold == args.volatilityThreshold && lastVolatilityUpdate == now
    {
      this.mintA := mintA;
      this.mintB := mintB;
      oracleAuthority := args.oracleAuthority;
      oraclePrice := ORACLE_PRICE_PRECISION;
      lastOracleUpdate := now;
      oracleProvider := args.oracleProvider;
      pythPriceFeedA := args.pythPriceFeedA;
      pythPriceFeedB := args.pythPriceFeedB;
      switchboardFeed := args.switchboardFeed;
      aiOracleProgram := args.aiOracleProgram;
      pythPrice := None;
      switchboardPrice := None;
      aiPrice := None;
      priceConfidence := 0;
      priceHistory := new U64[HISTORY_SLOTS](_ => ORACLE_PRICE_PRECISION);
      historyIndex := 0;
      totalLiquidityA := 0;
      totalLiquidityB := 0;
      feeBps := args.feeBps;
      dynamicFeeEnabled := args.dynamicFeeEnabled;
      volatilityThreshold := args.volatilityThreshold;
      lastVolatilityUpdate := now;
    }

    function Sources(): PriceSources
      reads this
    {
      PriceSources(pythPrice, switchboardPrice, aiPrice)
    }

    function Readings(): PriceReadings
      reads this
    {
      PriceReadings(Sources(), priceConfidence, oraclePrice)
    }

    /** Writes a price into the current history slot and moves to the next,
        wrapping after 24. */
    method UpdatePriceHistory(price: U64)
      requires Valid()
      modifies priceHistory, this`historyIndex
      ensures Valid()
      ensures priceHistory[..] == old(priceHistory[..])[old(historyIndex) := price]
      ensures historyIndex == (old(historyIndex) + 1) % HISTORY_SLOTS
    {
      priceHistory[historyIndex] := price;
      historyIndex := (historyIndex + 1) % HISTORY_SLOTS;
    }

    /** The single-price update: the oracle authority stores any price, zero
        included, stamped now. */
    method UpdateOraclePriceLegacy(signer: Key, newPrice: U64, now: I64) returns (r: Outcome)
      modifies this`oraclePrice, this`lastOracleUpdate
      ensures r.Pass? <==> signer == oracleAuthority
      ensures r.Fail? ==> r.error == Barter(InvalidOracleAuthority) && unchanged(this)
      ensures r.Pass? ==> oraclePrice == newPrice && lastOracleUpdate == now
    {
      if signer != oracleAuthority {
        return Fail(Barter(InvalidOracleAuthority));
      }
      oraclePrice := newPrice;
      lastOracleUpdate := now;
      r := Pass;
    }

    /** The multi-source update: the oracle authority supplies any of the three
        source readings and a confidence; supplied readings replace the stored
        ones, the others stay; the stored price becomes the weighted price of the
        merged readings, stamped now, and is written to the history. */
    method UpdateOraclePriceMultiSource(signer: Key, args: UpdatePriceArgs, weigh: PriceWeighing, now: I64)
      returns (r: Outcome)
      requires Valid()
      modifies this`pythPrice, this`switchboardPrice, this`aiPrice, this`priceConfidence,
        this`oraclePrice, this`lastOracleUpdate, priceHistory, this`historyIndex
      ensures Valid()
      ensures signer != oracleAuthority ==> r == Fail(Barter(InvalidOracleAuthority))
      ensures var merged := PriceSources(Merge(old(pythPrice), args.pythPrice),
                                         Merge(old(switchboardPrice), args.switchboardPrice),
                                         Merge(old(aiPrice), args.aiPrice));
        var confidence := if args.priceConfidence.Some? then args.priceConfidence.value else old(priceConfidence);
        r.Pass? <==> signer == oracleAuthority && weigh(PriceReadings(merged, confidence, old(oraclePrice))).Success?
      ensures r.Fail? ==> unchanged(this) && priceHistory[..] == old(priceHistory[..])
      ensures r.Pass? ==>
        Sources() == PriceSources(Merge(old(pythPrice), args.pythPrice),
                                  Merge(old(switchboardPrice), args.switchboardPrice),
                                  Merge(old(aiPrice), args.aiPrice))
        && priceConfidence == (if args.priceConfidence.Some? then args.priceConfidence.value else old(priceConfidence))
        && Success(oraclePrice) == weigh(PriceReadings(Sources(), priceConfidence, old(oraclePrice)))
        && lastOracleUpdate == now
        && priceHistory[..] == old(priceHistory[..])[old(historyIndex) := oraclePrice]
        && historyIndex == (old(historyIndex) + 1) % HISTORY_SLOTS
    {
      if signer != oracleAuthority {
        return Fail(Barter(InvalidOracleAuthority));
      }
      var merged := PriceSources(Merge(pythPrice, args.pythPrice), Merge(switchboardPrice, args.switchboardPrice),
        Merge(aiPrice, args.aiPrice));
      var confidence := if args.priceConfidence.Some? then args.priceConfidence.value else priceConfidence;
      var weighted := weigh(PriceReadings(merged, confidence, oraclePrice));
      if weighted.Failure? {
        return Fail(weighted.error);
      }
      pythPrice := merged.pyth;
      switchboardPrice := merged.switchboard;
      aiPrice := merged.ai;
      priceConfidence := confidence;
      oraclePrice := weighted.value;
      lastOracleUpdate := now;
      UpdatePriceHistory(weighted.value);
      r := Pass;
    }

    /** Deposits into the pool's vaults. The pool record, liquidity counters
        included, does not change; the vault balances grow by the deposits. */
    method AddLiquidity(vaultA: U64, vaultB: U64, amountA: U64, amountB: U64) returns (newVaultA: nat, newVaultB: nat)
      ensures newVaultA == vaultA + amountA && newVaultB == vaultB + amountB
    {
      newVaultA := vaultA + amountA;
      newVaultB := vaultB + amountB;
    }

    /** The priced part of a swap, in the order the handler checks it: a stale
        oracle (OraclePriceStale), the weighted price of the stored readings,
        which must be positive (NoValidPriceSources), the dynamic fee, then the
        swap arithmetic at that price and fee. */
    function PricedSwap(amountIn: U64, sellingA: bool, weigh: PriceWeighing, dynamicFee: Result<U16>, now: I64)
      : (r: Result<SwapAmounts>)
      reads this
      ensures IsOracleStale(now, lastOracleUpdate, MAX_ORACLE_AGE_SECONDS) == Success(true)
        ==> r == Failure(Barter(OraclePriceStale))
      ensures IsOracleStale(now, lastOracleUpdate, MAX_ORACLE_AGE_SECONDS) == Success(false)
        && weigh(Readings()) == Success(0)
        ==> r == Failure(Barter(NoValidPriceSources))
      ensures r.Success? <==>
        (IsOracleStale(now, lastOracleUpdate, MAX_ORACLE_AGE_SECONDS) == Success(false)
        && weigh(Readings()).Success? && weigh(Readings()).value > 0
        && dynamicFee.Success?
        && SwapOutput(amountIn, weigh(Readings()).value, dynamicFee.value, sellingA).Success?)
      ensures r.Success? ==> r == SwapOutput(amountIn, weigh(Readings()).value, dynamicFee.value, sellingA)
    {
      var stale := IsOracleStale(now, lastOracleUpdate, MAX_ORACLE_AGE_SECONDS);
      if stale.Failure? then Failure(stale.error)
      else if stale.value then Failure(Barter(OraclePriceStale))
      else
        var price := weigh(Readings());
        if price.Failure? then Failure(price.error)
        else if price.value == 0 then Failure(Barter(NoValidPriceSources))
        else if dynamicFee.Failure? then Failure(dynamicFee.error)
        else SwapOutput(amountIn, price.value, dynamicFee.value, sellingA)
    }

    /** Swaps `amountIn` of the source mint for the other side at the priced
        amounts; the output must meet `minAmountOut` (SlippageExceeded) and the
        destination vault must hold it (InsufficientLiquidity); the counters
        then move and the price goes into the history. */
    method Swap(sourceMint: Key, amountIn: U64, minAmountOut: U64, destVaultBalance: U64,
                weigh: PriceWeighing, dynamicFee: Result<U16>, now: I64)
      returns (r: Result<SwapAmounts>)
      requires Valid()
      modifies this`totalLiquidityA, this`totalLiquidityB, priceHistory, this`historyIndex, this`lastVolatilityUpdate
      ensures Valid()
      ensures IsOracleStale(now, old(lastOracleUpdate), MAX_ORACLE_AGE_SECONDS) == Success(true)
        ==> r == Failure(Barter(OraclePriceStale))
      ensures IsOracleStale(now, old(lastOracleUpdate), MAX_ORACLE_AGE_SECONDS) == Success(false)
        && weigh(old(Readings())) == Success(0)
        ==> r == Failure(Barter(NoValidPriceSources))
      ensures var priced := old(PricedSwap(amountIn, sourceMint == mintA, weigh, dynamicFee, now));
        r.Success? <==> (priced.Success? && minAmountOut <= priced.value.amountOut <= destVaultBalance
          && SettleLiquidity(Liquidity(old(totalLiquidityA), old(totalLiquidityB)), sourceMint == mintA, amountIn,
               priced.value.amountOut).Success?)
      ensures var priced := old(PricedSwap(amountIn, sourceMint == mintA, weigh, dynamicFee, now));
        priced.Failure? ==> r == priced
      ensures var priced := old(PricedSwap(amountIn, sourceMint == mintA, weigh, dynamicFee, now));
        priced.Success? && priced.value.amountOut < minAmountOut ==> r == Failure(Barter(SlippageExceeded))
      ensures var priced := old(PricedSwap(amountIn, sourceMint == mintA, weigh, dynamicFee, now));
        priced.Success? && minAmountOut <= priced.value.amountOut && destVaultBalance < priced.value.amountOut
        ==> r == Failure(Barter(InsufficientLiquidity))
      ensures r.Failure? ==> unchanged(this) && priceHistory[..] == old(priceHistory[..])
      ensures r.Success? ==>
        r == old(PricedSwap(amountIn, sourceMint == mintA, weigh, dynamicFee, now))
        && weigh(old(Readings())).Success?
        && SettleLiquidity(Liquidity(old(totalLiquidityA), old(totalLiquidityB)), sourceMint == mintA, amountIn,
             r.value.amountOut) == Success(Liquidity(totalLiquidityA, totalLiquidityB))
        && priceHistory[..] == old(priceHistory[..])[old(historyIndex) := weigh(old(Readings())).value]
        && historyIndex == (old(historyIndex) + 1) % HISTORY_SLOTS
        && lastVolatilityUpdate == now
    {
      var sellingA := sourceMint == mintA;
      var priced := PricedSwap(amountIn, sellingA, weigh, dynamicFee, now);
      if priced.Failure? {
        return priced;
      }
      var price := weigh(Readings()).value;
      if priced.value.amountOut < minAmountOut {
        return Failure(Barter(SlippageExceeded));
      }
      if destVaultBalance < priced.value.amountOut {
        return Failure(Barter(InsufficientLiquidity));
      }
      var settled := SettleLiquidity(Liquidity(totalLiquidityA, totalLiquidityB), sellingA, amountIn,
        priced.value.amountOut);
      if settled.Failure? {
        return Failure(settled.error);
      }
      totalLiquidityA := settled.value.a;
      totalLiquidityB := settled.value.b;
      UpdatePriceHistory(price);
      lastVolatilityUpdate := now;
      r := priced;
    }

    /** The oracle authority rewrites the fee configuration, unchecked, and stamps now. */
    method UpdatePoolConfig(signer: Key, newFeeBps: U16, newDynamicFeeEnabled: bool, newVolatilityThreshold: U64, now: I64)
      returns (r: Outcome)
      modifies this`feeBps, this`dynamicFeeEnabled, this`volatilityThreshold, this`lastVolatilityUpdate
      ensures r.Pass? <==> signer == oracleAuthority
      ensures r.Fail? ==> r.error == Barter(InvalidOracleAuthority) && unchanged(this)
      ensures r.Pass? ==> (feeBps == newFeeBps && dynamicFeeEnabled == newDynamicFeeEnabled
        && volatilityThreshold == newVolatilityThreshold && lastVolatilityUpdate == now)
    {
      if signer != oracleAuthority {
        return Fail(Barter(InvalidOracleAuthority));
      }
      feeBps := newFeeBps;
      dynamicFeeEnabled := newDynamicFeeEnabled;
      volatilityThreshold := newVolatilityThreshold;
      lastVolatilityUpdate := now;
      r := Pass;
    }

    /** The pause switch: the oracle authority may call it, and it changes nothing. */
    method EmergencyPause(signer: Key, paused: bool) returns (r: Outcome)
      ensures r.Pass? <==> signer == oracleAuthority
      ensures r.Fail? ==> r.error == Barter(InvalidOracleAuthority)
    {
      if signer != oracleAuthority {
        return Fail(Barter(InvalidOracleAuthority));
      }
      r := Pass;
    }
  }
}
