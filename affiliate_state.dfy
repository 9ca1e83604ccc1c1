/** The affiliate record, its performance tier and score, the suggested rate, and
    the 30-day analytics ring. */
module AffiliateState {
  import opened Common
  import opened MathUtils

  datatype PerformanceTier = Bronze | Silver | Gold | Platinum

  /** Position of a tier in the order Bronze < Silver < Gold < Platinum. */
  function Rank(t: PerformanceTier): nat
  {
    match t
    case Bronze => 0
    case Silver => 1
    case Gold => 2
    case Platinum => 3
  }

  const PLATINUM_VOLUME: int := 1_000_000_000
  const GOLD_VOLUME: int := 100_000_000
  const SILVER_VOLUME: int := 10_000_000
  const GOLD_CONVERSION_BPS: int := 500
  const SILVER_CONVERSION_BPS: int := 200

  /** The tier earned by a referred volume and a conversion rate; the first rule that matches wins. */
  function TierFor(volume: U64, conversionRateBps: U16): PerformanceTier
  {
    if volume >= PLATINUM_VOLUME then Platinum
    else if volume >= GOLD_VOLUME && conversionRateBps >= GOLD_CONVERSION_BPS then Gold
    else if volume >= SILVER_VOLUME && conversionRateBps >= SILVER_CONVERSION_BPS then Silver
    else Bronze
  }

  /** Each tier is characterised by its thresholds, whatever rule order produced it. */
  lemma TierThresholds(volume: U64, conversionRateBps: U16)
    ensures TierFor(volume, conversionRateBps) == Platinum <==> volume >= PLATINUM_VOLUME
    ensures Rank(TierFor(volume, conversionRateBps)) >= Rank(Gold) <==>
      volume >= PLATINUM_VOLUME || (volume >= GOLD_VOLUME && conversionRateBps >= GOLD_CONVERSION_BPS)
    ensures Rank(TierFor(volume, conversionRateBps)) >= Rank(Silver) <==>
      volume >= PLATINUM_VOLUME || (volume >= SILVER_VOLUME && conversionRateBps >= SILVER_CONVERSION_BPS)
  {
  }

  /** More volume or a better conversion rate never lowers the tier. */
  lemma TierMonotone(volume1: U64, conversion1: U16, volume2: U64, conversion2: U16)
    requires volume1 <= volume2 && conversion1 <= conversion2
    ensures Rank(TierFor(volume1, conversion1)) <= Rank(TierFor(volume2, conversion2))
  {
  }

  function TierMultiplier(t: PerformanceTier): nat
  {
    match t
    case Bronze => 1
    case Silver => 2
    case Gold => 3
    case Platinum => 5
  }

  /** The score's points before the tier multiplier: volume per million units,
      conversion per 10 bps and referrals per 10. The volume part goes through
      an `as u32` cast, which keeps only its low 32 bits. */
  function ScorePoints(volume: U64, conversionRateBps: U16, referrals: U32): nat
  {
    (volume / 1_000_000) % TWO32 + conversionRateBps / 10 + referrals / 10
  }

  /** The performance score, evaluated in u32 as the source does. The additions and
      the multiplication are unchecked u32 operations: an overflow aborts. */
  function PerformanceScore(volume: U64, conversionRateBps: U16, referrals: U32, tier: PerformanceTier): (r: Result<U32>)
    ensures r.Success? <==> ScorePoints(volume, conversionRateBps, referrals) * TierMultiplier(tier) < TWO32
    ensures r.Failure? ==> r.error == ArithmeticPanic
    ensures r.Success? ==> r.value == ScorePoints(volume, conversionRateBps, referrals) * TierMultiplier(tier)
  {
    var volumeScore := (volume / 1_000_000) % TWO32;
    var conversionScore := conversionRateBps / 10;
    var referralScore := referrals / 10;
    if volumeScore + conversionScore >= TWO32 then Failure(ArithmeticPanic)
    else if volumeScore + conversionScore + referralScore >= TWO32 then Failure(ArithmeticPanic)
    else
      var points := volumeScore + conversionScore + referralScore;
      if points * TierMultiplier(tier) >= TWO32 then Failure(ArithmeticPanic)
      else Success(points * TierMultiplier(tier))
  }

  /** Below 4 * 10^14 referred units the score neither truncates nor overflows,
      whatever the tier, conversion rate and referral count. */
  lemma ScoreExactForModestVolume(volume: U64, conversionRateBps: U16, referrals: U32, tier: PerformanceTier)
    requires volume < 400_000_000_000_000
    ensures PerformanceScore(volume, conversionRateBps, referrals, tier).Success?
    ensures PerformanceScore(volume, conversionRateBps, referrals, tier).value ==
      (volume / 1_000_000 + conversionRateBps / 10 + referrals / 10) * TierMultiplier(tier)
  {
    var volumeScore := volume / 1_000_000;
    assert volumeScore < 400_000_000;
    assert volumeScore % TWO32 == volumeScore;
    var points := volumeScore + conversionRateBps / 10 + referrals / 10;
    assert ScorePoints(volume, conversionRateBps, referrals) == points;
    assert points < 858_993_459;
    MulLeft(TierMultiplier(tier), 5, points);
  }

  /** A Platinum affiliate with 10^15 referred units (one million whole tokens)
      already overflows the u32 score. */
  lemma ScoreOverflowsAtHighVolume()
    ensures PerformanceScore(1_000_000_000_000_000, 0, 0, Platinum) == Failure(ArithmeticPanic)
  {
    assert ScorePoints(1_000_000_000_000_000, 0, 0) == 1_000_000_000;
  }

  function BaseRate(t: PerformanceTier): int
  {
    match t
    case Bronze => 500
    case Silver => 750
    case Gold => 1000
    case Platinum => 1250
  }

  function ConversionAdjustment(conversionRateBps: U16): int
  {
    if conversionRateBps >= 500 then 100
    else if conversionRateBps <= 100 then -50
    else 0
  }

  /** The suggested commission rate: the tier's base rate plus the conversion
      adjustment, clamped to [50, 2000] bps. */
  function SuggestedRate(tier: PerformanceTier, conversionRateBps: U16): (r: U16)
    ensures 50 <= r <= 2000
  {
    var raw := BaseRate(tier) + ConversionAdjustment(conversionRateBps);
    var lowered := if raw < 50 then 50 else raw;
    if lowered > 2000 then 2000 else lowered
  }

  /** The clamp never binds: every base rate plus adjustment already lies in [450, 1350]. */
  lemma SuggestedRateUnclamped(tier: PerformanceTier, conversionRateBps: U16)
    ensures SuggestedRate(tier, conversionRateBps) == BaseRate(tier) + ConversionAdjustment(conversionRateBps)
    ensures 450 <= SuggestedRate(tier, conversionRateBps) <= 1350
  {
  }

  /** An affiliate's record. Fields the source never reassigns after registration are constants. */
  class AffiliateInfo {
    const affiliateKey: Key
    var totalReferredVolume: U64
    var commissionRateBps: U16
    var performanceTier: PerformanceTier
    var monthlyReferredVolume: U64
    var quarterlyReferredVolume: U64
    var yearlyReferredVolume: U64
    var successfulReferrals: U32
    var totalClicks: U32
    var conversionRateBps: U16
    const rateCapsEnabled: bool
    const maxCommissionRateBps: U16
    const minCommissionRateBps: U16
    const aiOptimizationEnabled: bool
    const referralLevel: U8
    const parentAffiliate: Option<Key>
    var totalDescendants: U32
    var activeDescendants: U32
    const registrationTime: I64
    var lastActivityTime: I64
    var lastRateUpdateTime: I64
    var tierUpgradeTime: I64
    var monthlyVolumeHistory: seq<U64>
    var performanceScore: U32

    /** Every path that sets the rate keeps it at or below 100%; the referral level stays in 1..5. */
    ghost predicate Valid()
      reads this
    {
      commissionRateBps <= BPS_PRECISION && 1 <= referralLevel <= 5 && |monthlyVolumeHistory| == 12
    }

    /** The record as registration writes it: the given identity and level, a 10%
        rate, Bronze, every counter zero, caps from the arguments only when
        enabled (otherwise the global bounds), AI optimisation on, every
        timestamp `now` and twelve empty history months. */
    ghost predicate Registered(affiliate: Key, parent: Option<Key>, level: U8, capsEnabled: bool,
                               maxCap: U16, minCap: U16, now: I64)
      reads this
    {
      affiliateKey == affiliate && parentAffiliate == parent && referralLevel == level
      && totalReferredVolume == 0 && monthlyReferredVolume == 0
      && quarterlyReferredVolume == 0 && yearlyReferredVolume == 0
      && commissionRateBps == 1000 && performanceTier == Bronze
      && successfulReferrals == 0 && totalClicks == 0 && conversionRateBps == 0 && performanceScore == 0
      && rateCapsEnabled == capsEnabled && aiOptimizationEnabled
      && maxCommissionRateBps == (if capsEnabled then maxCap else MAX_RATE_BPS)
      && minCommissionRateBps == (if capsEnabled then minCap else MIN_RATE_BPS)
      && totalDescendants == 0 && activeDescendants == 0
      && registrationTime == now && lastActivityTime == now
      && lastRateUpdateTime == now && tierUpgradeTime == now
      && monthlyVolumeHistory == seq(12, _ => 0)
    }

    /** The record written by registration once its arguments are accepted. */
    constructor Init(affiliate: Key, parent: Option<Key>, level: U8, capsEnabled: bool,
                     maxCap: U16, minCap: U16, now: I64)
      requires 1 <= level <= 5
      ensures Valid() && Registered(affiliate, parent, level, capsEnabled, maxCap, minCap, now)
    {
      affiliateKey := affiliate;
      totalReferredVolume := 0;
      commissionRateBps := 1000;
      performanceTier := Bronze;
      monthlyReferredVolume := 0;
      quarterlyReferredVolume := 0;
      yearlyReferredVolume := 0;
      successfulReferrals := 0;
      totalClicks := 0;
      conversionRateBps := 0;
      performanceScore := 0;
      rateCapsEnabled := capsEnabled;
      maxCommissionRateBps := if capsEnabled then maxCap else MAX_RATE_BPS;
      minCommissionRateBps := if capsEnabled then minCap else MIN_RATE_BPS;
      aiOptimizationEnabled := true;
      referralLevel := level;
      parentAffiliate := parent;
      totalDescendants := 0;
      activeDescendants := 0;
      registrationTime := now;
      lastActivityTime := now;
      lastRateUpdateTime := now;
      tierUpgradeTime := now;
      monthlyVolumeHistory := seq(12, _ => 0);
    }

    /** Recomputes the tier from the current volume and conversion rate. */
    method CalculatePerformanceTier()
      modifies this`performanceTier
      ensures performanceTier == TierFor(totalReferredVolume, conversionRateBps)
    {
      var volume := totalReferredVolume;
      var conversion := conversionRateBps;
      if volume >= PLATINUM_VOLUME {
        performanceTier := Platinum;
      } else if volume >= GOLD_VOLUME && conversion >= GOLD_CONVERSION_BPS {
        performanceTier := Gold;
      } else if volume >= SILVER_VOLUME && conversion >= SILVER_CONVERSION_BPS {
        performanceTier := Silver;
      } else {
        performanceTier := Bronze;
      }
    }

    /** Recomputes the score from the current metrics and tier; an overflow aborts
        and leaves the score as it was. */
    method UpdatePerformanceScore() returns (r: Outcome)
      modifies this`performanceScore
      ensures var s := PerformanceScore(totalReferredVolume, conversionRateBps, successfulReferrals, performanceTier);
        (r.Pass? <==> s.Success?) && (r.Pass? ==> performanceScore == s.value)
      ensures r.Fail? ==> r.error == ArithmeticPanic && performanceScore == old(performanceScore)
    {
      var volumeScore := (totalReferredVolume / 1_000_000) % TWO32;
      var conversionScore := conversionRateBps / 10;
      var referralScore := successfulReferrals / 10;
      var multiplier := TierMultiplier(performanceTier);
      if volumeScore + conversionScore >= TWO32
        || volumeScore + conversionScore + referralScore >= TWO32
        || (volumeScore + conversionScore + referralScore) * multiplier >= TWO32
      {
        return Fail(ArithmeticPanic);
      }
      performanceScore := (volumeScore + conversionScore + referralScore) * multiplier;
      r := Pass;
    }

    /** Whether a gated rate update to `newRate` is allowed now: never outside the
        caps when they are enabled, otherwise only 86400 s or more after the last
        update. The i64 subtraction is unchecked: an overflow aborts. */
    function CanUpdateRate(newRate: U16, now: I64): (r: Result<bool>)
      reads this
      ensures rateCapsEnabled && (newRate < minCommissionRateBps || newRate > maxCommissionRateBps)
        ==> r == Success(false)
      ensures r.Success? && r.value ==> now - lastRateUpdateTime >= RATE_UPDATE_INTERVAL_SECONDS
      ensures r.Failure? <==> (!InI64(now - lastRateUpdateTime)
        && !(rateCapsEnabled && (newRate < minCommissionRateBps || newRate > maxCommissionRateBps)))
      ensures r.Failure? ==> r.error == ArithmeticPanic
      ensures (!rateCapsEnabled || minCommissionRateBps <= newRate <= maxCommissionRateBps)
        && now - lastRateUpdateTime >= RATE_UPDATE_INTERVAL_SECONDS && InI64(now - lastRateUpdateTime)
        ==> r == Success(true)
      ensures InI64(now - lastRateUpdateTime) && now - lastRateUpdateTime < RATE_UPDATE_INTERVAL_SECONDS
        ==> r == Success(false)
    {
      if rateCapsEnabled && (newRate < minCommissionRateBps || newRate > maxCommissionRateBps) then
        Success(false)
      else if !InI64(now - lastRateUpdateTime) then
        Failure(ArithmeticPanic)
      else
        Success(now - lastRateUpdateTime >= RATE_UPDATE_INTERVAL_SECONDS)
    }

    /** The rate suggested for this affiliate's tier and conversion rate. */
    function GetSuggestedRate(): (r: U16)
      reads this
      ensures 50 <= r <= 2000
      ensures r == BaseRate(performanceTier) + ConversionAdjustment(conversionRateBps)
    {
      SuggestedRateUnclamped(performanceTier, conversionRateBps);
      SuggestedRate(performanceTier, conversionRateBps)
    }
  }

  const ANALYTICS_DAYS: int := 30

  /** Sum of a sequence of u64 values, as an unbounded integer. */
  function Sum(s: seq<U64>): nat
  {
    if |s| == 0 then 0 else Sum(s[..|s| - 1]) + s[|s| - 1]
  }

  /** A prefix never sums to more than the whole. */
  lemma {:induction false} SumPrefixBelow(s: seq<U64>, i: nat)
    requires i <= |s|
    ensures Sum(s[..i]) <= Sum(s)
    decreases |s| - i
  {
    if i < |s| {
      SumPrefixBelow(s, i + 1);
      assert s[..i + 1][..i] == s[..i];
    } else {
      assert s[..i] == s;
    }
  }

  /** Daily referral volume and clicks for the last 30 days, in a ring whose next
      slot to write is currentDayIndex. */
  class AffiliateAnalytics {
    var affiliateKey: Key
    const dailyVolume: array<U64>
    const dailyClicks: array<U32>
    var lastUpdate: I64
    var currentDayIndex: U8

    ghost predicate Valid()
      reads this
    {
      dailyVolume.Length == ANALYTICS_DAYS && dailyClicks.Length == ANALYTICS_DAYS
      && currentDayIndex < ANALYTICS_DAYS
    }

    /** A freshly created analytics record: every field zero, including the key,
        which no handler sets. */
    constructor Create()
      ensures Valid() && fresh(dailyVolume) && fresh(dailyClicks)
      ensures affiliateKey == 0 && lastUpdate == 0 && currentDayIndex == 0
      ensures dailyVolume[..] == seq(ANALYTICS_DAYS, _ => 0)
      ensures dailyClicks[..] == seq(ANALYTICS_DAYS, _ => 0)
    {
      affiliateKey := 0;
      dailyVolume := new U64[ANALYTICS_DAYS](_ => 0);
      dailyClicks := new U32[ANALYTICS_DAYS](_ => 0);
      lastUpdate := 0;
      currentDayIndex := 0;
    }

    /** Overwrites today's slot with the given volume and clicks and moves to the
        next slot, wrapping after 30. */
    method AddDailyStats(volume: U64, clicks: U32)
      requires Valid()
      modifies dailyVolume, dailyClicks, this`currentDayIndex
      ensures Valid()
      ensures dailyVolume[..] == old(dailyVolume[..])[old(currentDayIndex) := volume]
      ensures dailyClicks[..] == old(dailyClicks[..])[old(currentDayIndex) := clicks]
      ensures currentDayIndex == (old(currentDayIndex) + 1) % ANALYTICS_DAYS
    {
      dailyVolume[currentDayIndex] := volume;
      dailyClicks[currentDayIndex] := clicks;
      currentDayIndex := (currentDayIndex + 1) % ANALYTICS_DAYS;
    }

    /** The 30-day average volume: the sum of all 30 slots divided by 30, rounded
        down. The u64 running sum is unchecked: it aborts once the total reaches 2^64. */
    method Get30DayAvgVolume() returns (r: Result<U64>)
      requires Valid()
      ensures r.Success? <==> Sum(dailyVolume[..]) < TWO64
      ensures r.Failure? ==> r.error == ArithmeticPanic
      ensures r.Success? ==> r.value * ANALYTICS_DAYS <= Sum(dailyVolume[..]) < r.value * ANALYTICS_DAYS + ANALYTICS_DAYS
    {
      var total: U64 := 0;
      for i := 0 to dailyVolume.Length
        invariant total == Sum(dailyVolume[..i])
      {
        assert dailyVolume[..i + 1][..i] == dailyVolume[..i];
        if total + dailyVolume[i] >= TWO64 {
          SumPrefixBelow(dailyVolume[..], i + 1);
          return Failure(ArithmeticPanic);
        }
        total := total + dailyVolume[i];
      }
      assert dailyVolume[..dailyVolume.Length] == dailyVolume[..];
      r := Success(total / ANALYTICS_DAYS);
    }
  }
}
