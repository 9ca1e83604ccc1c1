/** The commission ledger's instructions. Each instruction is all-or-nothing:
    when it fails, no account changes. */
module AffiliateProgram {
  import opened Common
  import opened MathUtils
  import opened AffiliateState

  datatype RegisterAffiliateArgs = RegisterAffiliateArgs(
    parentAffiliate: Option<Key>,
    referralLevel: U8,
    rateCapsEnabled: bool,
    maxCommissionRateBps: U16,
    minCommissionRateBps: U16)

  datatype UpdateCommissionRateArgs = UpdateCommissionRateArgs(newRateBps: U16, aiSuggested: bool)

  datatype UpdateAnalyticsArgs = UpdateAnalyticsArgs(volume: U64, clicks: U32)

  /** The event announcing a suggested rate to off-chain optimisers. */
  datatype SuggestedRateEvent = SuggestedRateEvent(
    affiliateKey: Key,
    currentRateBps: U16,
    suggestedRateBps: U16,
    performanceTier: PerformanceTier,
    timestamp: I64)

  /** Registration's argument checks: the referral level must be 1..5 and an
      affiliate may not name itself as its parent. */
  function RegistrationCheck(affiliate: Key, args: RegisterAffiliateArgs): (r: Outcome)
    ensures r.Pass? <==> 1 <= args.referralLevel <= 5 && args.parentAffiliate != Some(affiliate)
    ensures !(1 <= args.referralLevel <= 5) ==> r == Fail(Affiliate(InvalidReferralLevel))
    ensures r.Fail? && 1 <= args.referralLevel <= 5 ==> r == Fail(Affiliate(CircularReferral))
  {
    if !(0 < args.referralLevel <= 5) then Fail(Affiliate(InvalidReferralLevel))
    else if args.parentAffiliate.Some? && args.parentAffiliate.value == affiliate then Fail(Affiliate(CircularReferral))
    else Pass
  }

  /** Creates the signer's affiliate record at the default 10% rate, Bronze tier,
      with every counter zero and every timestamp at `now`. */
  method RegisterAffiliate(affiliate: Key, args: RegisterAffiliateArgs, now: I64) returns (r: Result<AffiliateInfo>)
    ensures r.Failure? <==> RegistrationCheck(affiliate, args).Fail?
    ensures r.Failure? ==> r.error == RegistrationCheck(affiliate, args).error
    ensures r.Success? ==> fresh(r.value) && r.value.Valid()
    ensures r.Success? ==> r.value.Registered(affiliate, args.parentAffiliate, args.referralLevel,
      args.rateCapsEnabled, args.maxCommissionRateBps, args.minCommissionRateBps, now)
  {
    var check := RegistrationCheck(affiliate, args);
    if check.Fail? {
      return Failure(check.error);
    }
    var info := new AffiliateInfo.Init(affiliate, args.parentAffiliate, args.referralLevel,
      args.rateCapsEnabled, args.maxCommissionRateBps, args.minCommissionRateBps, now);
    r := Success(info);
  }

  /** The record's owner sets any rate up to 100%, ignoring caps and timing. */
  method SetCommissionRate(info: AffiliateInfo, signer: Key, newRateBps: U16) returns (r: Outcome)
    requires info.Valid()
    modifies info`commissionRateBps
    ensures info.Valid()
    ensures r.Pass? <==> signer == info.affiliateKey && newRateBps <= BPS_PRECISION
    ensures signer != info.affiliateKey ==> r == Fail(Affiliate(AffiliateError.AuthorityMismatch))
    ensures signer == info.affiliateKey && newRateBps > BPS_PRECISION ==> r == Fail(Affiliate(InvalidRate))
    ensures info.commissionRateBps == if r.Pass? then newRateBps else old(info.commissionRateBps)
  {
    if signer != info.affiliateKey {
      return Fail(Affiliate(AffiliateError.AuthorityMismatch));
    }
    if newRateBps > BPS_PRECISION {
      return Fail(Affiliate(InvalidRate));
    }
    info.commissionRateBps := newRateBps;
    r := Pass;
  }

  /** The commission minted for a referred purchase: purchased * rate / 10000 in
      u128, which cannot overflow, then cast to u64, which keeps the low 64 bits. */
  function MintedCommission(purchasedTokens: U64, rateBps: U16): (r: U64)
    ensures CommissionAmount(purchasedTokens, rateBps).Success? ==> r == CommissionAmount(purchasedTokens, rateBps).value
    ensures rateBps <= BPS_PRECISION ==> r <= purchasedTokens
  {
    QuotientIsCommission(purchasedTokens, rateBps);
    ((purchasedTokens * rateBps) / BPS_PRECISION) % TWO64
  }

  /** The plain quotient is what the checked commission formula returns whenever that succeeds. */
  lemma QuotientIsCommission(purchasedTokens: U64, rateBps: U16)
    ensures CommissionAmount(purchasedTokens, rateBps).Success? ==>
      CommissionAmount(purchasedTokens, rateBps).value == (purchasedTokens * rateBps) / BPS_PRECISION
    ensures rateBps <= BPS_PRECISION ==> (purchasedTokens * rateBps) / BPS_PRECISION <= purchasedTokens
  {
    var c := CommissionAmount(purchasedTokens, rateBps);
    if c.Success? {
      FloorUnique(purchasedTokens * rateBps, BPS_PRECISION, c.value, (purchasedTokens * rateBps) / BPS_PRECISION);
    }
    if rateBps <= BPS_PRECISION {
      CommissionWithinAmount(purchasedTokens, rateBps);
    }
  }

  /** Two numbers that both satisfy the floor-division bounds of x / p are equal. */
  lemma FloorUnique(x: int, p: int, q1: int, q2: int)
    requires 0 < p
    requires q1 * p <= x < q1 * p + p
    requires q2 * p <= x < q2 * p + p
    ensures q1 == q2
  {
    if q1 < q2 {
      MulLeft(q1 + 1, q2, p);
    } else if q2 < q1 {
      MulLeft(q2 + 1, q1, p);
    }
  }

  /** The checks a referred purchase must pass before it is credited: the
      lifetime volume, the monthly volume and the referral count must not
      overflow (Overflow), and the score recomputed from the credited record
      must fit in u32 (an abort). */
  function ProcessCommissionCheck(info: AffiliateInfo, purchasedTokens: U64): (r: Outcome)
    reads info
    ensures r.Pass? <==>
      info.totalReferredVolume + purchasedTokens < TWO64
      && info.monthlyReferredVolume + purchasedTokens < TWO64
      && info.successfulReferrals + 1 < TWO32
      && PerformanceScore(info.totalReferredVolume + purchasedTokens, info.conversionRateBps,
           info.successfulReferrals + 1,
           TierFor(info.totalReferredVolume + purchasedTokens, info.conversionRateBps)).Success?
    ensures r.Fail? ==> r.error in {Affiliate(AffiliateError.Overflow), ArithmeticPanic}
    ensures info.totalReferredVolume + purchasedTokens >= TWO64 ==> r == Fail(Affiliate(AffiliateError.Overflow))
    ensures info.successfulReferrals + 1 >= TWO32 ==> r == Fail(Affiliate(AffiliateError.Overflow))
  {
    if info.totalReferredVolume + purchasedTokens >= TWO64
      || info.monthlyReferredVolume + purchasedTokens >= TWO64
      || info.successfulReferrals + 1 >= TWO32
    then
      Fail(Affiliate(AffiliateError.Overflow))
    else
      var total := info.totalReferredVolume + purchasedTokens;
      var tier := TierFor(total, info.conversionRateBps);
      if PerformanceScore(total, info.conversionRateBps, info.successfulReferrals + 1, tier).Failure? then
        Fail(ArithmeticPanic)
      else
        Pass
  }

  /** Below 4 * 10^14 referred units in total, with room for one more referral,
      a referred purchase is always credited. */
  lemma CommissionAcceptedForModestVolume(info: AffiliateInfo, purchasedTokens: U64)
    requires info.totalReferredVolume + purchasedTokens < 400_000_000_000_000
    requires info.monthlyReferredVolume + purchasedTokens < TWO64
    requires info.successfulReferrals + 1 < TWO32
    ensures ProcessCommissionCheck(info, purchasedTokens) == Pass
  {
    var total := info.totalReferredVolume + purchasedTokens;
    ScoreExactForModestVolume(total, info.conversionRateBps, info.successfulReferrals + 1,
      TierFor(total, info.conversionRateBps));
  }

  /** Pays an affiliate for a referred purchase: returns the commission minted at
      the current rate, adds the purchase to the lifetime and monthly volume,
      counts one more successful referral, records the activity time and
      recomputes tier and score. Quarterly and yearly volume are left alone. */
  method ProcessCommission(info: AffiliateInfo, purchasedTokens: U64, now: I64) returns (r: Result<U64>)
    requires info.Valid()
    modifies info`totalReferredVolume, info`monthlyReferredVolume, info`successfulReferrals,
      info`lastActivityTime, info`performanceTier, info`performanceScore
    ensures info.Valid()
    ensures r.Failure? <==> old(ProcessCommissionCheck(info, purchasedTokens)).Fail?
    ensures r.Failure? ==> r.error == old(ProcessCommissionCheck(info, purchasedTokens)).error && unchanged(info)
    ensures r.Success? ==>
      r.value == MintedCommission(purchasedTokens, old(info.commissionRateBps))
      && r.value <= purchasedTokens
      && info.totalReferredVolume == old(info.totalReferredVolume) + purchasedTokens
      && info.monthlyReferredVolume == old(info.monthlyReferredVolume) + purchasedTokens
      && info.successfulReferrals == old(info.successfulReferrals) + 1
      && info.lastActivityTime == now
      && info.performanceTier == TierFor(info.totalReferredVolume, info.conversionRateBps)
      && PerformanceScore(info.totalReferredVolume, info.conversionRateBps, info.successfulReferrals,
           info.performanceTier) == Success(info.performanceScore)
  {
    var commission := MintedCommission(purchasedTokens, info.commissionRateBps);
    var check := ProcessCommissionCheck(info, purchasedTokens);
    if check.Fail? {
      return Failure(check.error);
    }
    var total := info.totalReferredVolume + purchasedTokens;
    info.totalReferredVolume := total;
    info.monthlyReferredVolume := info.monthlyReferredVolume + purchasedTokens;
    info.successfulReferrals := info.successfulReferrals + 1;
    info.lastActivityTime := now;
    info.CalculatePerformanceTier();
    var scored := info.UpdatePerformanceScore();
    r := Success(commission);
  }

  /** Whether a rate lies within the record's own caps, when those are enabled. */
  predicate WithinCaps(capsEnabled: bool, minCap: U16, maxCap: U16, rate: U16)
  {
    !capsEnabled || (minCap <= rate <= maxCap)
  }

  /** The gated rate update used by the optimiser: the owner may move the rate to
      a value in [50, 2000] bps within its caps, at most once per 86400 s. */
  method UpdateCommissionRateAi(info: AffiliateInfo, signer: Key, args: UpdateCommissionRateArgs, now: I64)
    returns (r: Outcome)
    requires info.Valid()
    modifies info`commissionRateBps, info`lastRateUpdateTime
    ensures info.Valid()
    ensures r.Pass? <==>
      signer == info.affiliateKey
      && MIN_RATE_BPS <= args.newRateBps <= MAX_RATE_BPS
      && WithinCaps(info.rateCapsEnabled, info.minCommissionRateBps, info.maxCommissionRateBps, args.newRateBps)
      && InI64(now - old(info.lastRateUpdateTime))
      && now - old(info.lastRateUpdateTime) >= RATE_UPDATE_INTERVAL_SECONDS
    ensures signer != info.affiliateKey ==> r == Fail(Affiliate(AffiliateError.AuthorityMismatch))
    ensures signer == info.affiliateKey && !(MIN_RATE_BPS <= args.newRateBps <= MAX_RATE_BPS)
      ==> r == Fail(Affiliate(InvalidRate))
    ensures signer == info.affiliateKey && MIN_RATE_BPS <= args.newRateBps <= MAX_RATE_BPS
      && info.rateCapsEnabled && args.newRateBps < info.minCommissionRateBps
      ==> r == Fail(Affiliate(RateBelowMinCap))
    ensures signer == info.affiliateKey && MIN_RATE_BPS <= args.newRateBps <= MAX_RATE_BPS
      && info.rateCapsEnabled && info.minCommissionRateBps <= args.newRateBps
      && args.newRateBps > info.maxCommissionRateBps
      ==> r == Fail(Affiliate(RateExceedsMaxCap))
    ensures signer == info.affiliateKey && MIN_RATE_BPS <= args.newRateBps <= MAX_RATE_BPS
      && WithinCaps(info.rateCapsEnabled, info.minCommissionRateBps, info.maxCommissionRateBps, args.newRateBps)
      && InI64(now - old(info.lastRateUpdateTime)) && now - old(info.lastRateUpdateTime) < RATE_UPDATE_INTERVAL_SECONDS
      ==> r == Fail(Affiliate(RateUpdateNotAllowed))
    ensures signer == info.affiliateKey && MIN_RATE_BPS <= args.newRateBps <= MAX_RATE_BPS
      && WithinCaps(info.rateCapsEnabled, info.minCommissionRateBps, info.maxCommissionRateBps, args.newRateBps)
      && !InI64(now - old(info.lastRateUpdateTime))
      ==> r == Fail(ArithmeticPanic)
    ensures r.Fail? && r.error.Affiliate? ==> unchanged(info)
    ensures r.Fail? && !r.error.Affiliate? ==> r.error == ArithmeticPanic && unchanged(info)
    ensures r.Pass? ==> info.commissionRateBps == args.newRateBps && info.lastRateUpdateTime == now
  {
    if signer != info.affiliateKey {
      return Fail(Affiliate(AffiliateError.AuthorityMismatch));
    }
    if !(MIN_RATE_BPS <= args.newRateBps <= MAX_RATE_BPS) {
      return Fail(Affiliate(InvalidRate));
    }
    if info.rateCapsEnabled {
      if args.newRateBps < info.minCommissionRateBps {
        return Fail(Affiliate(RateBelowMinCap));
      }
      if args.newRateBps > info.maxCommissionRateBps {
        return Fail(Affiliate(RateExceedsMaxCap));
      }
    }
    var allowed := info.CanUpdateRate(args.newRateBps, now);
    if allowed.Failure? {
      return Fail(allowed.error);
    }
    if !allowed.value {
      return Fail(Affiliate(RateUpdateNotAllowed));
    }
    info.commissionRateBps := args.newRateBps;
    info.lastRateUpdateTime := now;
    r := Pass;
  }

  /** The conversion rate in bps: successful referrals * 10000 / clicks in u64,
      which cannot overflow, then cast to u16, which keeps the low 16 bits. */
  function ConversionRate(referrals: U32, clicks: U32): (r: U16)
    requires clicks > 0
    ensures referrals <= clicks ==> r <= BPS_PRECISION && r * clicks <= referrals * BPS_PRECISION < r * clicks + clicks
  {
    var q := (referrals * BPS_PRECISION) / clicks;
    ConversionQuotientBound(referrals, clicks, q);
    q % TWO16
  }

  /** The floor quotient of referrals * 10000 by clicks is at most 10000 when referrals do not outnumber clicks. */
  lemma ConversionQuotientBound(referrals: U32, clicks: U32, q: int)
    requires clicks > 0 && q == (referrals * BPS_PRECISION) / clicks
    ensures q * clicks <= referrals * BPS_PRECISION < q * clicks + clicks
    ensures referrals <= clicks ==> 0 <= q <= BPS_PRECISION
  {
    DivisionBounds(referrals * BPS_PRECISION, clicks);
    if referrals <= clicks {
      MulLeft(referrals, clicks, BPS_PRECISION);
      FloorFits(referrals * BPS_PRECISION, clicks, q, BPS_PRECISION + 1);
    }
  }

  /** Referrals are counted by commissions and clicks only by analytics, so
      referrals can outnumber clicks; then the u16 cast wraps the rate around:
      seven referrals over one click read as 4464 bps, not 70000. */
  lemma ConversionRateWraps()
    ensures ConversionRate(7, 1) == 4464
  {
  }

  /** The conversion rate after `clicks` total clicks: recomputed when there are
      any, otherwise the stored rate is kept. */
  function ConversionAfter(referrals: U32, clicks: U32, stored: U16): (r: U16)
    ensures clicks > 0 ==> r == ConversionRate(referrals, clicks)
    ensures clicks == 0 ==> r == stored
  {
    if clicks > 0 then ConversionRate(referrals, clicks) else stored
  }

  /** The analytics update's checks, in order: both lifetime totals must still
      fit (Overflow), and the score for the new totals must not overflow u32
      (ArithmeticPanic). */
  function AnalyticsCheck(info: AffiliateInfo, args: UpdateAnalyticsArgs): (r: Outcome)
    reads info
    ensures r.Pass? <==>
      info.totalReferredVolume + args.volume < TWO64 && info.totalClicks + args.clicks < TWO32
      && (var conversion := ConversionAfter(info.successfulReferrals, info.totalClicks + args.clicks, info.conversionRateBps);
          PerformanceScore(info.totalReferredVolume + args.volume, conversion, info.successfulReferrals,
            TierFor(info.totalReferredVolume + args.volume, conversion)).Success?)
    ensures info.totalReferredVolume + args.volume >= TWO64 || info.totalClicks + args.clicks >= TWO32
      ==> r == Fail(Affiliate(AffiliateError.Overflow))
    ensures r.Fail? && info.totalReferredVolume + args.volume < TWO64 && info.totalClicks + args.clicks < TWO32
      ==> r == Fail(ArithmeticPanic)
  {
    if info.totalReferredVolume + args.volume >= TWO64 || info.totalClicks + args.clicks >= TWO32 then
      Fail(Affiliate(AffiliateError.Overflow))
    else
      var total := info.totalReferredVolume + args.volume;
      var conversion := ConversionAfter(info.successfulReferrals, info.totalClicks + args.clicks, info.conversionRateBps);
      if PerformanceScore(total, conversion, info.successfulReferrals, TierFor(total, conversion)).Failure? then
        Fail(ArithmeticPanic)
      else Pass
  }

  /** Below 4 * 10^14 lifetime volume, and with the click total in range, an
      analytics update is always accepted. */
  lemma AnalyticsAcceptedForModestVolume(info: AffiliateInfo, args: UpdateAnalyticsArgs)
    requires info.totalReferredVolume + args.volume < 400_000_000_000_000
    requires info.totalClicks + args.clicks < TWO32
    ensures AnalyticsCheck(info, args) == Pass
  {
    var total := info.totalReferredVolume + args.volume;
    var conversion := ConversionAfter(info.successfulReferrals, info.totalClicks + args.clicks, info.conversionRateBps);
    ScoreExactForModestVolume(total, conversion, info.successfulReferrals, TierFor(total, conversion));
  }

  /** Records one day's volume and clicks: the day goes into the 30-day ring and
      its timestamp is `now`; volume and clicks are added to the affiliate's
      lifetime totals; the conversion rate is recomputed when there are clicks;
      tier and score are recomputed. */
  method UpdateAnalytics(info: AffiliateInfo, analytics: AffiliateAnalytics, args: UpdateAnalyticsArgs, now: I64)
    returns (r: Outcome)
    requires info.Valid() && analytics.Valid()
    modifies analytics.dailyVolume, analytics.dailyClicks, analytics`currentDayIndex, analytics`lastUpdate
    modifies info`totalReferredVolume, info`totalClicks, info`conversionRateBps,
      info`performanceTier, info`performanceScore
    ensures info.Valid() && analytics.Valid()
    ensures r == old(AnalyticsCheck(info, args))
    ensures r.Fail? ==> (unchanged(info) && unchanged(analytics)
      && analytics.dailyVolume[..] == old(analytics.dailyVolume[..])
      && analytics.dailyClicks[..] == old(analytics.dailyClicks[..]))
    ensures r.Pass? ==>
      analytics.dailyVolume[..] == old(analytics.dailyVolume[..])[old(analytics.currentDayIndex) := args.volume]
      && analytics.dailyClicks[..] == old(analytics.dailyClicks[..])[old(analytics.currentDayIndex) := args.clicks]
      && analytics.currentDayIndex == (old(analytics.currentDayIndex) + 1) % ANALYTICS_DAYS
      && analytics.lastUpdate == now
      && info.totalReferredVolume == old(info.totalReferredVolume) + args.volume
      && info.totalClicks == old(info.totalClicks) + args.clicks
      && info.conversionRateBps == ConversionAfter(info.successfulReferrals, info.totalClicks, old(info.conversionRateBps))
      && info.performanceTier == TierFor(info.totalReferredVolume, info.conversionRateBps)
      && PerformanceScore(info.totalReferredVolume, info.conversionRateBps, info.successfulReferrals,
           info.performanceTier) == Success(info.performanceScore)
  {
    var check := AnalyticsCheck(info, args);
    if check.Fail? {
      return check;
    }
    var total := info.totalReferredVolume + args.volume;
    var clicks := info.totalClicks + args.clicks;
    var conversion := ConversionAfter(info.successfulReferrals, clicks, info.conversionRateBps);
    analytics.AddDailyStats(args.volume, args.clicks);
    analytics.lastUpdate := now;
    info.totalReferredVolume := total;
    info.totalClicks := clicks;
    info.conversionRateBps := conversion;
    info.CalculatePerformanceTier();
    var scored := info.UpdatePerformanceScore();
    r := Pass;
  }

  /** Announces the rate suggested for the affiliate's tier and conversion rate,
      next to the rate it has now; nothing is written. */
  method GetAiSuggestedRate(info: AffiliateInfo, now: I64) returns (e: SuggestedRateEvent)
    ensures e.affiliateKey == info.affiliateKey && e.currentRateBps == info.commissionRateBps
    ensures e.performanceTier == info.performanceTier && e.timestamp == now
    ensures MIN_RATE_BPS <= e.suggestedRateBps <= MAX_RATE_BPS
    ensures e.suggestedRateBps == BaseRate(info.performanceTier) + ConversionAdjustment(info.conversionRateBps)
  {
    e := SuggestedRateEvent(info.affiliateKey, info.commissionRateBps, info.GetSuggestedRate(),
      info.performanceTier, now);
  }
}
