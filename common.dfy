/** Machine integer ranges, account keys, constants, results and the error codes
    shared by the launch, affiliate and exchange ledgers. */
module Common {

  const TWO16: int := 0x1_0000
  const TWO32: int := 0x1_0000_0000
  const TWO64: int := 0x1_0000_0000_0000_0000
  const TWO128: int := 0x1_0000_0000_0000_0000_0000_0000_0000_0000
  const I64_MIN: int := -0x8000_0000_0000_0000
  const I64_MAX: int := 0x7FFF_FFFF_FFFF_FFFF

  type U8 = x: int | 0 <= x < 0x100
  type U16 = x: int | 0 <= x < 0x1_0000
  type U32 = x: int | 0 <= x < 0x1_0000_0000
  type U64 = x: int | 0 <= x < 0x1_0000_0000_0000_0000
  type U128 = x: int | 0 <= x < 0x1_0000_0000_0000_0000_0000_0000_0000_0000
  type I64 = x: int | -0x8000_0000_0000_0000 <= x <= 0x7FFF_FFFF_FFFF_FFFF

  /** A public key. Keys are only ever compared for equality. */
  type Key = nat

  predicate InI64(x: int) { I64_MIN <= x <= I64_MAX }

  /** Basis points in one whole: 10,000 bps = 100%. */
  const BPS_PRECISION: int := 10000
  /** Global bounds on an affiliate commission rate and on launch fee rates. */
  const MIN_RATE_BPS: U16 := 50
  const MAX_RATE_BPS: U16 := 2000
  /** Bounds on a launch's vesting duration: one day to one Julian year. */
  const MIN_VESTING_DURATION_SECONDS: I64 := 86400
  const MAX_VESTING_DURATION_SECONDS: I64 := 31557600
  /** Base units in one whole token (9 decimals). */
  const TOKEN_UNIT: int := 1_000_000_000
  /** Fixed-point scale of an exchange price: 10^9 means 1 token A = 1 token B. */
  const ORACLE_PRICE_PRECISION: U64 := 1_000_000_000
  /** Oldest oracle price, in seconds, that a swap accepts. */
  const MAX_ORACLE_AGE_SECONDS: I64 := 300
  /** Minimum spacing, in seconds, of two gated commission-rate updates. */
  const RATE_UPDATE_INTERVAL_SECONDS: int := 86400

  datatype Option<T> = None | Some(value: T)

  datatype Result<T> = Success(value: T) | Failure(error: Error) {
    predicate IsFailure() { Failure? }
    function PropagateFailure<U>(): Result<U>
      requires Failure?
    {
      Failure(error)
    }
    function Extract(): T
      requires Success?
    {
      value
    }
  }

  /** The result of an operation that returns nothing but may fail. */
  datatype Outcome = Pass | Fail(error: Error)

  /** The shared math library's error codes. */
  datatype MathError = Overflow | Underflow | DivisionByZero | InvalidTimestamp

  /** The launch ledger's error codes: the five declared ones, then the ones its
      handlers raise without the enum declaring them. */
  datatype FactoryError =
    | InvalidAmount | Overflow | InsufficientFunds | AuthorityMismatch | AffiliateMismatch
    | InvalidLaunchTime | InvalidFeeConfig | InvalidVestingParams | LaunchNotActive
    | MaxSupplyReached | FeeCalculationOverflow | NoTokensToClaim | VestingScheduleNotFound

  /** The commission ledger's error codes. */
  datatype AffiliateError =
    | InvalidRate | Overflow | Underflow | AuthorityMismatch
    | RateExceedsMaxCap | RateBelowMinCap | RateUpdateNotAllowed
    | AnalyticsNotFound | TierUpgradeNotAllowed | InvalidPerformanceMetrics
    | InvalidReferralLevel | ParentAffiliateNotFound | CircularReferral
    | InvalidTimestamp | OutsideTimeWindow | AccountNotInitialized | AccountAlreadyExists

  /** The exchange pool's error codes. */
  datatype BarterError =
    | SlippageExceeded | InsufficientLiquidity | Overflow | Underflow | InvalidMint
    | InvalidOracleAuthority | OraclePriceStale
    | PythPriceFeedNotFound | SwitchboardFeedNotFound | AIOracleProgramNotFound
    | OraclePriceFetchFailed | OraclePriceConfidenceTooHigh | NoValidPriceSources
    | DynamicFeeCalculationFailed | FeeExceedsMaximum | InvalidVolatilityCalculation
    | PoolPaused | InsufficientTokenLiquidity | InvalidPoolConfiguration | PriceHistoryNotAvailable

  /** Any failure of an operation. ArithmeticPanic is an unchecked machine-integer
      operation that overflowed: the transaction aborts without an error code. */
  datatype Error =
    | Math(math: MathError)
    | Factory(factory: FactoryError)
    | Affiliate(affiliate: AffiliateError)
    | Barter(barter: BarterError)
    | ArithmeticPanic
}
