/** The launch ledger: a token sale priced on a bonding curve, with platform and
    affiliate fees, optional vesting and a commission paid to a referring
    affiliate. Every instruction is all-or-nothing: when it fails, no account changes. */
module Factory {
  import opened Common
  import opened MathUtils
  import opened AffiliateState
  import opened AffiliateProgram

  datatype PricingModel = Linear | Exponential | Fixed | DutchAuction

  /** The anti-bot strength configured for a launch; `Unprotected` is the level
      that disables the checks. */
  datatype AntiBotLevel = Unprotected | Basic | Advanced | Maximum

  datatype CreateLaunchArgs = CreateLaunchArgs(
    initialPrice: U64,
    slope: U64,
    pricingModel: PricingModel,
    maxTokens: U64,
    launchStartTime: I64,
    launchEndTime: I64,
    vestingEnabled: bool,
    vestingDurationSeconds: I64,
    vestingCliffSeconds: I64,
    antiBotLevel: AntiBotLevel,
    minPurchaseAmount: U64,
    maxPurchaseAmount: U64,
    purchaseCooldownSeconds: I64,
    affiliateFeeBps: U16,
    platformFeeBps: U16,
    platformFeeRecipient: Key)

  datatype UpdateLaunchArgs = UpdateLaunchArgs(
    newEndTime: Option<I64>,
    newMaxTokens: Option<U64>,
    newMinPurchaseAmount: Option<U64>,
    newMaxPurchaseAmount: Option<U64>)

  /** What the launch's own helper checks answer for this purchase at this
      moment: whether the launch is active, whether its supply is exhausted,
      whether the anti-bot rules accept the amount, and the price under a
      pricing model other than the linear curve. */
  datatype LaunchProbe = LaunchProbe(
    launchActive: Result<bool>,
    maxSupplyReached: bool,
    purchaseAmountCheck: Outcome,
    otherModelPrice: Result<U64>)

  /** The amounts of one purchase: tokens minted and how the paid lamports split. */
  datatype Purchase = Purchase(tokens: U64, platformFee: U64, affiliateFee: U64, netSol: U64)

  /** The vesting parameters a launch may use: a duration of one day to one year
      and a cliff no longer than the duration. */
  predicate VestingParamsOk(durationSeconds: I64, cliffSeconds: I64)
  {
    MIN_VESTING_DURATION_SECONDS <= durationSeconds <= MAX_VESTING_DURATION_SECONDS
    && cliffSeconds <= durationSeconds
  }

  /** Launch creation's argument checks, in order: the start may not be in the
      past and must precede the end (InvalidLaunchTime); both fee rates are at
      most MAX_RATE_BPS (InvalidFeeConfig); vesting parameters, when vesting is
      enabled, are in range (InvalidVestingParams). */
  function CreateLaunchCheck(args: CreateLaunchArgs, now: I64): (r: Outcome)
    ensures r.Pass? <==>
      now <= args.launchStartTime < args.launchEndTime
      && args.affiliateFeeBps <= MAX_RATE_BPS && args.platformFeeBps <= MAX_RATE_BPS
      && (args.vestingEnabled ==> VestingParamsOk(args.vestingDurationSeconds, args.vestingCliffSeconds))
    ensures !(now <= args.launchStartTime < args.launchEndTime) ==> r == Fail(Factory(InvalidLaunchTime))
    ensures now <= args.launchStartTime < args.launchEndTime
      && (args.affiliateFeeBps > MAX_RATE_BPS || args.platformFeeBps > MAX_RATE_BPS)
      ==> r == Fail(Factory(InvalidFeeConfig))
    ensures !args.vestingEnabled ==> r != Fail(Factory(InvalidVestingParams))
    ensures now <= args.launchStartTime < args.launchEndTime
      && args.affiliateFeeBps <= MAX_RATE_BPS && args.platformFeeBps <= MAX_RATE_BPS
      && args.vestingEnabled && !VestingParamsOk(args.vestingDurationSeconds, args.vestingCliffSeconds)
      ==> r == Fail(Factory(InvalidVestingParams))
  {
    if args.launchStartTime < now then Fail(Factory(InvalidLaunchTime))
    else if args.launchEndTime <= args.launchStartTime then Fail(Factory(InvalidLaunchTime))
    else if args.affiliateFeeBps > MAX_RATE_BPS then Fail(Factory(InvalidFeeConfig))
    else if args.platformFeeBps > MAX_RATE_BPS then Fail(Factory(InvalidFeeConfig))
    else if args.vestingEnabled && args.vestingDurationSeconds < MIN_VESTING_DURATION_SECONDS then
      Fail(Factory(InvalidVestingParams))
    else if args.vestingEnabled && args.vestingDurationSeconds > MAX_VESTING_DURATION_SECONDS then
      Fail(Factory(InvalidVestingParams))
    else if args.vestingEnabled && args.vestingCliffSeconds > args.vestingDurationSeconds then
      Fail(Factory(InvalidVestingParams))
    else Pass
  }

  /** How a payment splits into a platform fee, an affiliate fee and the net
      amount. */
  datatype FeeSplit = FeeSplit(platformFee: U64, affiliateFee: U64, netSol: U64)

  /** The fees of a payment: the platform fee is charged only at a positive rate
      and the affiliate fee only for a referred purchase; the rest is the net
      amount, and fees larger than the payment are refused (FeeCalculationOverflow). */
  function SplitPayment(solAmount: U64, platformFeeBps: U16, affiliateFeeBps: U16, referred: bool): (r: Result<FeeSplit>)
    ensures r.Success? ==>
      r.value.platformFee + r.value.affiliateFee + r.value.netSol == solAmount
      && (if platformFeeBps > 0 then CommissionAmount(solAmount, platformFeeBps) == Success(r.value.platformFee)
          else r.value.platformFee == 0)
      && (if referred then CommissionAmount(solAmount, affiliateFeeBps) == Success(r.value.affiliateFee)
          else r.value.affiliateFee == 0)
  {
    var platform := if platformFeeBps > 0 then CommissionAmount(solAmount, platformFeeBps) else Success(0);
    var affiliate := if referred then CommissionAmount(solAmount, affiliateFeeBps) else Success(0);
    if platform.Failure? then Failure(platform.error)
    else if affiliate.Failure? then Failure(affiliate.error)
    else if platform.value > solAmount || affiliate.value > solAmount - platform.value then
      Failure(Factory(FeeCalculationOverflow))
    else
      Success(FeeSplit(platform.value, affiliate.value, solAmount - platform.value - affiliate.value))
  }

  /** Rates that add up to at most 100% never make the fees fail or exceed the payment. */
  lemma SplitPaymentSucceeds(solAmount: U64, platformFeeBps: U16, affiliateFeeBps: U16, referred: bool)
    requires platformFeeBps + (if referred then affiliateFeeBps else 0) <= BPS_PRECISION
    ensures SplitPayment(solAmount, platformFeeBps, affiliateFeeBps, referred).Success?
  {
    CommissionWithinAmount(solAmount, platformFeeBps);
    if referred {
      CommissionsFitInAmount(solAmount, platformFeeBps, affiliateFeeBps);
    }
  }

  /** The price and fee arithmetic of one purchase once the launch's own checks
      have passed: a zero price is refused (InvalidAmount); the tokens are
      sol * 10^9 / price and must be positive (InsufficientFunds) and fit under
      the supply cap (Overflow, MaxSupplyReached); then the payment is split into
      fees and the net amount. */
  function QuotePurchase(solAmount: U64, price: U64, tokensSold: U64, maxTokens: U64,
                         platformFeeBps: U16, affiliateFeeBps: U16, referred: bool): (r: Result<Purchase>)
    ensures price == 0 ==> r == Failure(Factory(InvalidAmount))
    ensures price > 0 && TokensToMint(solAmount, price) == Success(0) ==> r == Failure(Factory(InsufficientFunds))
    ensures price > 0 && TokensToMint(solAmount, price).Success? && TokensToMint(solAmount, price).value > 0
      && tokensSold + TokensToMint(solAmount, price).value > maxTokens
      ==> r.Failure? && r.error in {Factory(FactoryError.Overflow), Factory(MaxSupplyReached)}
    ensures r.Success? ==>
      TokensToMint(solAmount, price) == Success(r.value.tokens)
      && 0 < r.value.tokens && tokensSold + r.value.tokens <= maxTokens
      && SplitPayment(solAmount, platformFeeBps, affiliateFeeBps, referred)
         == Success(FeeSplit(r.value.platformFee, r.value.affiliateFee, r.value.netSol))
  {
    if price == 0 then Failure(Factory(InvalidAmount))
    else
      var minted := TokensToMint(solAmount, price);
      if minted.Failure? then Failure(minted.error)
      else if minted.value == 0 then Failure(Factory(InsufficientFunds))
      else if tokensSold + minted.value >= TWO64 then Failure(Factory(FactoryError.Overflow))
      else if tokensSold + minted.value > maxTokens then Failure(Factory(MaxSupplyReached))
      else
        var split :- SplitPayment(solAmount, platformFeeBps, affiliateFeeBps, referred);
        Success(Purchase(minted.value, split.platformFee, split.affiliateFee, split.netSol))
  }

  /** With both fee rates within MAX_RATE_BPS, as every launch has them, the fee
      arithmetic never fails: a purchase is refused only for its price, its token
      count or the supply cap. */
  lemma QuoteFailsOnlyOnSupply(solAmount: U64, price: U64, tokensSold: U64, maxTokens: U64,
                               platformFeeBps: U16, affiliateFeeBps: U16, referred: bool)
    requires platformFeeBps <= MAX_RATE_BPS && affiliateFeeBps <= MAX_RATE_BPS
    ensures QuotePurchase(solAmount, price, tokensSold, maxTokens, platformFeeBps, affiliateFeeBps, referred).Success?
      <==> price > 0 && TokensToMint(solAmount, price).Success? && TokensToMint(solAmount, price).value > 0
           && tokensSold + TokensToMint(solAmount, price).value <= maxTokens
  {
    SplitPaymentSucceeds(solAmount, platformFeeBps, affiliateFeeBps, referred);
  }

  /** The net amount the buyer pays is the payment less both fees, but only the
      platform fee and the net amount leave the buyer: a referred buyer pays the
      affiliate fee's worth less than the purchase amount. */
  lemma ReferredBuyerPaysLess(solAmount: U64, price: U64, tokensSold: U64, maxTokens: U64,
                              platformFeeBps: U16, affiliateFeeBps: U16)
    requires platformFeeBps <= MAX_RATE_BPS && affiliateFeeBps <= MAX_RATE_BPS
    requires QuotePurchase(solAmount, price, tokensSold, maxTokens, platformFeeBps, affiliateFeeBps, true).Success?
    ensures var q := QuotePurchase(solAmount, price, tokensSold, maxTokens, platformFeeBps, affiliateFeeBps, true).value;
      q.platformFee + q.netSol == solAmount - q.affiliateFee
    ensures var q := QuotePurchase(solAmount, price, tokensSold, maxTokens, platformFeeBps, affiliateFeeBps, true).value;
      QuotePurchase(solAmount, price, tokensSold, maxTokens, platformFeeBps, affiliateFeeBps, false)
        == Success(Purchase(q.tokens, q.platformFee, 0, q.netSol + q.affiliateFee))
  {
    SplitPaymentSucceeds(solAmount, platformFeeBps, affiliateFeeBps, true);
    SplitPaymentSucceeds(solAmount, platformFeeBps, affiliateFeeBps, false);
  }

  /** One SOL at 0.1 SOL per token, unreferred and without fees, buys ten whole tokens and all of it reaches the vault. */
  lemma FeeFreePurchaseScenario()
    ensures QuotePurchase(1_000_000_000, 100_000_000, 0, 1_000_000_000_000_000, 0, 0, false)
      == Success(Purchase(10_000_000_000, 0, 0, 1_000_000_000))
  {
    TokensToMintScenario();
  }

  /** A token sale. Configuration fixed at creation is constant; the sale
      counters and the owner-editable limits are variables. */
  class LaunchState {
    /** The address of this launch record. */
    const address: Key
    const authority: Key
    const tokenMint: Key
    const pricingModel: PricingModel
    const initialPrice: U64
    const slope: U64
    var tokensSold: U64
    const vestingEnabled: bool
    const vestingDurationSeconds: I64
    const vestingCliffSeconds: I64
    const antiBotLevel: AntiBotLevel
    var minPurchaseAmount: U64
    var maxPurchaseAmount: U64
    const purchaseCooldownSeconds: I64
    var lastPurchaseTimestamp: I64
    var maxTokens: U64
    const launchStartTime: I64
    var launchEndTime: I64
    const affiliateFeeBps: U16
    const platformFeeBps: U16
    const platformFeeRecipient: Key
    var totalSolCollected: U64
    var totalFeesCollected: U64
    var purchaseCount: U64

    /** Never more tokens sold than the cap; fee rates and vesting parameters as creation accepted them. */
    ghost predicate Valid()
      reads this
    {
      tokensSold <= maxTokens
      && affiliateFeeBps <= MAX_RATE_BPS && platformFeeBps <= MAX_RATE_BPS
      && (vestingEnabled ==> VestingParamsOk(vestingDurationSeconds, vestingCliffSeconds))
    }

    /** A freshly created launch: its keys, the whole configuration copied from
        the arguments, zero sale counters and the creation time as the last
        purchase time. */
    ghost predicate Configured(address: Key, authority: Key, tokenMint: Key, args: CreateLaunchArgs, now: I64)
      reads this
    {
      this.address == address && this.authority == authority && this.tokenMint == tokenMint
      && tokensSold == 0 && totalSolCollected == 0 && totalFeesCollected == 0 && purchaseCount == 0
      && lastPurchaseTimestamp == now
      && pricingModel == args.pricingModel && initialPrice == args.initialPrice && slope == args.slope
      && maxTokens == args.maxTokens && launchStartTime == args.launchStartTime && launchEndTime == args.launchEndTime
      && vestingEnabled == args.vestingEnabled && vestingDurationSeconds == args.vestingDurationSeconds
      && vestingCliffSeconds == args.vestingCliffSeconds
      && antiBotLevel == args.antiBotLevel && minPurchaseAmount == args.minPurchaseAmount
      && maxPurchaseAmount == args.maxPurchaseAmount && purchaseCooldownSeconds == args.purchaseCooldownSeconds
      && affiliateFeeBps == args.affiliateFeeBps && platformFeeBps == args.platformFeeBps
      && platformFeeRecipient == args.platformFeeRecipient
    }

    /** The record written by launch creation once its arguments are accepted. */
    constructor Create(address: Key, authority: Key, tokenMint: Key, args: CreateLaunchArgs, now: I64)
      requires CreateLaunchCheck(args, now).Pass?
      ensures Valid() && Configured(address, authority, tokenMint, args, now)
    {
      this.address := address;
      this.authority := authority;
      this.tokenMint := tokenMint;
      pricingModel := args.pricingModel;
      initialPrice := args.initialPrice;
      slope := args.slope;
      tokensSold := 0;
      vestingEnabled := args.vestingEnabled;
      vestingDurationSeconds := args.vestingDurationSeconds;
      vestingCliffSeconds := args.vestingCliffSeconds;
      antiBotLevel := args.antiBotLevel;
      minPurchaseAmount := args.minPurchaseAmount;
      maxPurchaseAmount := args.maxPurchaseAmount;
      purchaseCooldownSeconds := args.purchaseCooldownSeconds;
      lastPurchaseTimestamp := now;
      maxTokens := args.maxTokens;
      launchStartTime := args.launchStartTime;
      launchEndTime := args.launchEndTime;
      affiliateFeeBps := args.affiliateFeeBps;
      platformFeeBps := args.platformFeeBps;
      platformFeeRecipient := args.platformFeeRecipient;
      totalSolCollected := 0;
      totalFeesCollected := 0;
      purchaseCount := 0;
    }

    /** The current price: the linear bonding curve at the tokens sold so far for
        a Linear launch, otherwise what the other pricing model quotes. */
    function CurrentPrice(otherModelPrice: Result<U64>): Result<U64>
      reads this
    {
      if pricingModel == Linear then BondingCurvePrice(initialPrice, slope, tokensSold) else otherModelPrice
    }

    /** A purchase's checks and amounts, in the order the sale applies them: a
        zero payment (InvalidAmount), an inactive launch (LaunchNotActive), an
        exhausted supply (MaxSupplyReached), the anti-bot verdict, the current
        price, then the quote at that price. */
    function QuoteFor(solAmount: U64, referred: bool, probe: LaunchProbe): (r: Result<Purchase>)
      reads this
      ensures solAmount == 0 ==> r == Failure(Factory(InvalidAmount))
      ensures solAmount > 0 && probe.launchActive == Success(false) ==> r == Failure(Factory(LaunchNotActive))
      ensures solAmount > 0 && probe.launchActive == Success(true) && probe.maxSupplyReached
        ==> r == Failure(Factory(MaxSupplyReached))
      ensures r.Success? ==>
        solAmount > 0 && probe.launchActive == Success(true) && !probe.maxSupplyReached
        && probe.purchaseAmountCheck == Pass
        && CurrentPrice(probe.otherModelPrice).Success?
        && QuotePurchase(solAmount, CurrentPrice(probe.otherModelPrice).value, tokensSold, maxTokens,
             platformFeeBps, affiliateFeeBps, referred) == r
    {
      if solAmount == 0 then Failure(Factory(InvalidAmount))
      else if probe.launchActive.Failure? then Failure(probe.launchActive.error)
      else if !probe.launchActive.value then Failure(Factory(LaunchNotActive))
      else if probe.maxSupplyReached then Failure(Factory(MaxSupplyReached))
      else if probe.purchaseAmountCheck.Fail? then Failure(probe.purchaseAmountCheck.error)
      else
        var price :- CurrentPrice(probe.otherModelPrice);
        QuotePurchase(solAmount, price, tokensSold, maxTokens, platformFeeBps, affiliateFeeBps, referred)
    }

    /** Whether the sale counters can absorb a purchase without overflowing u64. */
    predicate CountersFit(q: Purchase)
      reads this
    {
      tokensSold + q.tokens < TWO64 && totalSolCollected + q.netSol < TWO64
      && totalFeesCollected + q.platformFee < TWO64 && purchaseCount + 1 < TWO64
    }

    /** Adds a purchase to the sale counters and stamps its time. */
    method RecordPurchase(q: Purchase, now: I64)
      requires Valid() && CountersFit(q) && tokensSold + q.tokens <= maxTokens
      modifies this`tokensSold, this`totalSolCollected, this`totalFeesCollected,
        this`purchaseCount, this`lastPurchaseTimestamp
      ensures Valid()
      ensures tokensSold == old(tokensSold) + q.tokens && totalSolCollected == old(totalSolCollected) + q.netSol
      ensures totalFeesCollected == old(totalFeesCollected) + q.platformFee
      ensures purchaseCount == old(purchaseCount) + 1 && lastPurchaseTimestamp == now
    {
      tokensSold := tokensSold + q.tokens;
      totalSolCollected := totalSolCollected + q.netSol;
      totalFeesCollected := totalFeesCollected + q.platformFee;
      purchaseCount := purchaseCount + 1;
      lastPurchaseTimestamp := now;
    }
  }

  /** A buyer's vesting record for one launch. A vested purchase overwrites it. */
  class VestingSchedule {
    var launchState: Key
    var beneficiary: Key
    var totalAmount: U64
    var claimedAmount: U64
    var startTime: I64
    var durationSeconds: I64
    var cliffSeconds: I64
    var lastClaimTime: I64

    /** A record created on first use: every field zero. */
    constructor Zeroed()
      ensures launchState == 0 && beneficiary == 0 && totalAmount == 0 && claimedAmount == 0
      ensures startTime == 0 && durationSeconds == 0 && cliffSeconds == 0 && lastClaimTime == 0
    {
      launchState := 0;
      beneficiary := 0;
      totalAmount := 0;
      claimedAmount := 0;
      startTime := 0;
      durationSeconds := 0;
      cliffSeconds := 0;
      lastClaimTime := 0;
    }

    /** Replaces the whole schedule with one for a single purchase starting now,
        whatever it held before. */
    method Overwrite(launch: Key, buyer: Key, amount: U64, duration: I64, cliff: I64, now: I64)
      modifies this
      ensures launchState == launch && beneficiary == buyer && totalAmount == amount && claimedAmount == 0
      ensures startTime == now && lastClaimTime == now && durationSeconds == duration && cliffSeconds == cliff
    {
      launchState := launch;
      beneficiary := buyer;
      totalAmount := amount;
      claimedAmount := 0;
      startTime := now;
      durationSeconds := duration;
      cliffSeconds := cliff;
      lastClaimTime := now;
    }
  }

  /** Creates a launch record when the arguments pass the creation checks. */
  method CreateLaunch(address: Key, authority: Key, tokenMint: Key, args: CreateLaunchArgs, now: I64)
    returns (r: Result<LaunchState>)
    ensures r.Failure? <==> CreateLaunchCheck(args, now).Fail?
    ensures r.Failure? ==> r.error == CreateLaunchCheck(args, now).error
    ensures r.Success? ==>
      fresh(r.value) && r.value.Valid() && r.value.Configured(address, authority, tokenMint, args, now)
  {
    var check := CreateLaunchCheck(args, now);
    if check.Fail? {
      return Failure(check.error);
    }
    var launch := new LaunchState.Create(address, authority, tokenMint, args, now);
    r := Success(launch);
  }

  /** Sells tokens for `solAmount` lamports. After the launch's own checks and the
      quote, a referred purchase must name the affiliate whose record is passed,
      and that affiliate is credited with the tokens sold. A vested purchase
      overwrites the buyer's vesting record with this purchase alone. The sale
      counters then grow by the tokens, the net amount, the platform fee and one
      purchase. */
  method BuyTokens(launch: LaunchState, buyer: Key, solAmount: U64, affiliateKey: Option<Key>, enableVesting: bool,
                   vesting: VestingSchedule, info: AffiliateInfo, probe: LaunchProbe, now: I64)
    returns (r: Result<Purchase>)
    requires launch.Valid() && info.Valid()
    modifies launch`tokensSold, launch`totalSolCollected, launch`totalFeesCollected,
      launch`purchaseCount, launch`lastPurchaseTimestamp
    modifies vesting
    modifies info`totalReferredVolume, info`monthlyReferredVolume, info`successfulReferrals,
      info`lastActivityTime, info`performanceTier, info`performanceScore
    ensures launch.Valid() && info.Valid()
    ensures solAmount == 0 ==> r == Failure(Factory(InvalidAmount))
    ensures solAmount > 0 && probe.launchActive == Success(false) ==> r == Failure(Factory(LaunchNotActive))
    ensures r.Failure? ==> unchanged(launch) && unchanged(vesting) && unchanged(info)
    ensures r.Success? ==> r == old(launch.QuoteFor(solAmount, affiliateKey.Some?, probe))
    ensures old(launch.QuoteFor(solAmount, affiliateKey.Some?, probe)).Failure? ==>
      r == old(launch.QuoteFor(solAmount, affiliateKey.Some?, probe))
    ensures r.Success? ==>
      launch.tokensSold == old(launch.tokensSold) + r.value.tokens
      && launch.totalSolCollected == old(launch.totalSolCollected) + r.value.netSol
      && launch.totalFeesCollected == old(launch.totalFeesCollected) + r.value.platformFee
      && launch.purchaseCount == old(launch.purchaseCount) + 1
      && launch.lastPurchaseTimestamp == now
    ensures r.Success? && enableVesting ==>
      vesting.launchState == launch.address && vesting.beneficiary == buyer
      && vesting.totalAmount == r.value.tokens && vesting.claimedAmount == 0
      && vesting.startTime == now && vesting.lastClaimTime == now
      && vesting.durationSeconds == launch.vestingDurationSeconds && vesting.cliffSeconds == launch.vestingCliffSeconds
    ensures !enableVesting ==> unchanged(vesting)
    ensures var quote := old(launch.QuoteFor(solAmount, affiliateKey.Some?, probe));
      r.Success? <==> (quote.Success?
        && (affiliateKey.Some? ==>
              affiliateKey.value == info.affiliateKey && old(ProcessCommissionCheck(info, quote.value.tokens)).Pass?)
        && old(launch.CountersFit(quote.value)))
    ensures var quote := old(launch.QuoteFor(solAmount, affiliateKey.Some?, probe));
      quote.Success? && affiliateKey.Some? && affiliateKey.value != info.affiliateKey
      ==> r == Failure(Factory(AffiliateMismatch))
    ensures var quote := old(launch.QuoteFor(solAmount, affiliateKey.Some?, probe));
      quote.Success? && affiliateKey.Some? && affiliateKey.value == info.affiliateKey
      && old(ProcessCommissionCheck(info, quote.value.tokens)).Fail?
      ==> r == Failure(old(ProcessCommissionCheck(info, quote.value.tokens)).error)
    ensures var quote := old(launch.QuoteFor(solAmount, affiliateKey.Some?, probe));
      quote.Success? && (affiliateKey.Some? ==>
        affiliateKey.value == info.affiliateKey && old(ProcessCommissionCheck(info, quote.value.tokens)).Pass?)
      && !old(launch.CountersFit(quote.value))
      ==> r == Failure(Factory(FactoryError.Overflow))
    ensures r.Success? && affiliateKey.Some? ==>
      affiliateKey.value == info.affiliateKey
      && info.totalReferredVolume == old(info.totalReferredVolume) + r.value.tokens
      && info.monthlyReferredVolume == old(info.monthlyReferredVolume) + r.value.tokens
      && info.successfulReferrals == old(info.successfulReferrals) + 1
      && info.lastActivityTime == now
      && info.performanceTier == TierFor(info.totalReferredVolume, info.conversionRateBps)
      && PerformanceScore(info.totalReferredVolume, info.conversionRateBps, info.successfulReferrals,
           info.performanceTier) == Success(info.performanceScore)
    ensures affiliateKey.None? ==> unchanged(info)
  {
    var quote := launch.QuoteFor(solAmount, affiliateKey.Some?, probe);
    if quote.Failure? {
      return quote;
    }
    var q := quote.value;
    if affiliateKey.Some? {
      if affiliateKey.value != info.affiliateKey {
        return Failure(Factory(AffiliateMismatch));
      }
      var check := ProcessCommissionCheck(info, q.tokens);
      if check.Fail? {
        return Failure(check.error);
      }
    }
    if !launch.CountersFit(q) {
      return Failure(Factory(FactoryError.Overflow));
    }
    if enableVesting {
      vesting.Overwrite(launch.address, buyer, q.tokens, launch.vestingDurationSeconds, launch.vestingCliffSeconds, now);
    }
    if affiliateKey.Some? {
      var commission := ProcessCommission(info, q.tokens, now);
    }
    launch.RecordPurchase(q, now);
    r := Success(q);
  }

  /** The launch authority withdraws the whole vault balance; an empty vault is
      refused. The launch record does not change. */
  method WithdrawSol(launch: LaunchState, signer: Key, vaultLamports: U64) returns (r: Result<U64>)
    ensures signer != launch.authority ==> r == Failure(Factory(FactoryError.AuthorityMismatch))
    ensures signer == launch.authority && vaultLamports == 0 ==> r == Failure(Factory(InvalidAmount))
    ensures r.Success? <==> signer == launch.authority && vaultLamports > 0
    ensures r.Success? ==> r.value == vaultLamports
  {
    if signer != launch.authority {
      return Failure(Factory(FactoryError.AuthorityMismatch));
    }
    if vaultLamports == 0 {
      return Failure(Factory(InvalidAmount));
    }
    r := Success(vaultLamports);
  }

  /** The beneficiary claims what the schedule's release rule makes claimable at
      `now` (given as `claimable`): the record must belong to this launch and to
      the signer, a zero amount is refused, and the claimed total grows by exactly
      the amount released. */
  method ClaimVestedTokens(launch: LaunchState, vesting: VestingSchedule, signer: Key, claimable: Result<U64>, now: I64)
    returns (r: Result<U64>)
    modifies vesting`claimedAmount, vesting`lastClaimTime
    ensures vesting.launchState != launch.address ==> r == Failure(Factory(VestingScheduleNotFound))
    ensures vesting.launchState == launch.address && vesting.beneficiary != signer
      ==> r == Failure(Factory(FactoryError.AuthorityMismatch))
    ensures claimable == Success(0) && vesting.launchState == launch.address && vesting.beneficiary == signer
      ==> r == Failure(Factory(NoTokensToClaim))
    ensures r.Success? <==>
      vesting.launchState == launch.address && vesting.beneficiary == signer
      && claimable.Success? && claimable.value > 0 && old(vesting.claimedAmount) + claimable.value < TWO64
    ensures r.Failure? ==> unchanged(vesting)
    ensures r.Success? ==>
      r == claimable && vesting.claimedAmount == old(vesting.claimedAmount) + r.value && vesting.lastClaimTime == now
  {
    if vesting.launchState != launch.address {
      return Failure(Factory(VestingScheduleNotFound));
    }
    if vesting.beneficiary != signer {
      return Failure(Factory(FactoryError.AuthorityMismatch));
    }
    if claimable.Failure? {
      return Failure(claimable.error);
    }
    if claimable.value == 0 {
      return Failure(Factory(NoTokensToClaim));
    }
    if vesting.claimedAmount + claimable.value >= TWO64 {
      return Failure(Factory(FactoryError.Overflow));
    }
    vesting.claimedAmount := vesting.claimedAmount + claimable.value;
    vesting.lastClaimTime := now;
    r := claimable;
  }

  /** The launch authority edits the end time (which must lie in the future), the
      supply cap (which may not fall below the tokens already sold) and the
      purchase limits (unchecked). Absent fields keep their values. */
  method UpdateLaunch(launch: LaunchState, signer: Key, args: UpdateLaunchArgs, now: I64) returns (r: Outcome)
    requires launch.Valid()
    modifies launch`launchEndTime, launch`maxTokens, launch`minPurchaseAmount, launch`maxPurchaseAmount
    ensures launch.Valid()
    ensures r.Pass? <==>
      signer == launch.authority
      && (args.newEndTime.Some? ==> args.newEndTime.value > now)
      && (args.newMaxTokens.Some? ==> args.newMaxTokens.value >= launch.tokensSold)
    ensures signer != launch.authority ==> r == Fail(Factory(FactoryError.AuthorityMismatch))
    ensures signer == launch.authority && args.newEndTime.Some? && args.newEndTime.value <= now
      ==> r == Fail(Factory(InvalidLaunchTime))
    ensures signer == launch.authority && (args.newEndTime.Some? ==> args.newEndTime.value > now)
      && args.newMaxTokens.Some? && args.newMaxTokens.value < launch.tokensSold
      ==> r == Fail(Factory(InvalidAmount))
    ensures r.Fail? ==> unchanged(launch)
    ensures r.Pass? ==>
      launch.launchEndTime == (if args.newEndTime.Some? then args.newEndTime.value else old(launch.launchEndTime))
      && launch.maxTokens == (if args.newMaxTokens.Some? then args.newMaxTokens.value else old(launch.maxTokens))
      && launch.minPurchaseAmount ==
           (if args.newMinPurchaseAmount.Some? then args.newMinPurchaseAmount.value else old(launch.minPurchaseAmount))
      && launch.maxPurchaseAmount ==
           (if args.newMaxPurchaseAmount.Some? then args.newMaxPurchaseAmount.value else old(launch.maxPurchaseAmount))
  {
    if signer != launch.authority {
      return Fail(Factory(FactoryError.AuthorityMismatch));
    }
    if args.newEndTime.Some? && args.newEndTime.value <= now {
      return Fail(Factory(InvalidLaunchTime));
    }
    if args.newMaxTokens.Some? && args.newMaxTokens.value < launch.tokensSold {
      return Fail(Factory(InvalidAmount));
    }
    if args.newEndTime.Some? {
      launch.launchEndTime := args.newEndTime.value;
    }
    if args.newMaxTokens.Some? {
      launch.maxTokens := args.newMaxTokens.value;
    }
    if args.newMinPurchaseAmount.Some? {
      launch.minPurchaseAmount := args.newMinPurchaseAmount.value;
    }
    if args.newMaxPurchaseAmount.Some? {
      launch.maxPurchaseAmount := args.newMaxPurchaseAmount.value;
    }
    r := Pass;
  }
}
