# Launchpad ecosystem core, modelled in Dafny

This project models the on-chain core of a Solana token-launch ecosystem:

- **Shared arithmetic and clock helpers** (`math_utils.dfy`, `time_utils.dfy`). These cover checked u128 arithmetic, the commission in basis points, the linear bonding-curve price, the number of tokens a payment buys, oracle staleness and vesting completion.
- **The launch factory** (`factory.dfy`). It creates a launch and its validation, sells tokens on a purchase (price, fees, supply cap, vesting schedule, affiliate commission), withdraws the collected SOL, claims vested tokens and updates the launch parameters.
- **The affiliate ledger** (`affiliate_state.dfy`, `affiliate_program.dfy`). It covers performance tiers and scores, the suggested commission rate, rate-change rules, the 30-day analytics ring and the affiliate instructions (register, set rate, process a commission, AI rate update, analytics update, suggested-rate event).
- **The oracle-priced exchange pool** (`barter_dex.dfy`). It covers pool creation, the legacy and multi-source oracle price updates, the 24-slot price history, swaps (price, fee, slippage, liquidity counters), deposits, configuration updates and the pause switch.

Shared constants, the result types and the program error enums live in `common.dfy`.

Modelling conventions:

- **Integers.** Unsigned and signed machine integers are subset types of `int` (`U8` … `U128`, `I64`). A Rust `as` cast to a narrower type is written as a reduction modulo 2^n.
- **Unchecked `+`/`-`/`*`.** The programs are assumed to be built with overflow checks. Overflow in unchecked arithmetic therefore becomes the `ArithmeticPanic` error.
- **Atomic instructions.** A Solana instruction is all-or-nothing, so every handler either fails and leaves every account unchanged, or succeeds and writes its new state.
- **Inputs that are not code.** The clock is a `now` parameter. Signers are keys compared with the stored authority. Vault and lamport balances are parameters.
- **Helpers whose bodies are not part of this model** are given by the caller:
  - `is_launch_active`, `is_max_supply_reached`, `validate_purchase_amount` and the non-linear pricing models, as a `LaunchProbe`;
  - the claimable-amount computation, as a `Result<U64>`;
  - `calculate_weighted_price`, as a `PriceWeighing` function of the pool's stored readings (source prices, confidence and last price);
  - `calculate_dynamic_fee`, as a `Result<U16>`.

## Model

| member | source | states |
|---|---|---|
| MathUtils.SafeMul | crates/genesis-common/src/utils.rs:77-80 | fails with Overflow exactly when the product reaches 2^128, otherwise returns the product |
| MathUtils.SafeDiv | crates/genesis-common/src/utils.rs:82-88 | fails with DivisionByZero exactly when the divisor is 0, otherwise returns the floor quotient |
| MathUtils.SafeAdd | crates/genesis-common/src/utils.rs:90-93 | fails with Overflow exactly when the sum reaches 2^128, otherwise returns the sum |
| MathUtils.SafeSub | crates/genesis-common/src/utils.rs:95-98 | fails with Underflow exactly when b > a, otherwise returns the difference |
| MathUtils.CommissionAmount | crates/genesis-common/src/utils.rs:100-112 | succeeds iff ⌊amount·bps/10000⌋ fits in u64, and then is that floor quotient |
| MathUtils.CommissionWithinAmount | crates/genesis-common/src/utils.rs:100-112 | a rate of at most 10000 bps always succeeds and never exceeds the amount; 0 bps gives 0 and 10000 bps gives the whole amount |
| MathUtils.CommissionMonotoneInRate | crates/genesis-common/src/utils.rs:100-112 | a lower rate never yields a larger commission |
| MathUtils.CommissionsFitInAmount | crates/genesis-common/src/utils.rs:100-112 | two commissions whose rates sum to at most 10000 bps together never exceed the amount |
| MathUtils.CommissionScenario | crates/genesis-common/src/utils.rs:100-112 | 10% of 10^10 is 10^9 |
| MathUtils.BondingCurvePrice | crates/genesis-common/src/utils.rs:115-128 | succeeds iff initial + slope·sold fits in u64, and then equals it; otherwise Overflow |
| MathUtils.BondingCurveAtLaunch | crates/genesis-common/src/utils.rs:115-128 | with nothing sold the price is the initial price |
| MathUtils.BondingCurveMonotone | crates/genesis-common/src/utils.rs:115-128 | the price never falls as more tokens are sold |
| MathUtils.TokensToMint | crates/genesis-common/src/utils.rs:131-143 | a zero price gives DivisionByZero; otherwise it succeeds iff ⌊sol·10^9/price⌋ fits in u64, and then is that floor quotient |
| MathUtils.TokensToMintAntitone | crates/genesis-common/src/utils.rs:131-143 | a higher price never buys more tokens |
| MathUtils.TokensToMintScenario | crates/genesis-common/src/utils.rs:131-143 | 1 SOL at a price of 10^8 buys 10^10 base units |
| TimeUtils.IsOracleStale | crates/genesis-common/src/utils.rs:151-159 | stale iff now − last_update > max_age; an age outside i64 is InvalidTimestamp |
| TimeUtils.StalenessBoundary | crates/genesis-common/src/utils.rs:151-159 | an age of exactly max_age is fresh and one second more is stale |
| TimeUtils.StalenessPersists | crates/genesis-common/src/utils.rs:151-159 | once stale, a price stays stale as time advances |
| TimeUtils.IsVestingComplete | crates/genesis-common/src/utils.rs:162-170 | complete iff now ≥ start + duration; an end outside i64 is InvalidTimestamp |
| TimeUtils.VestingCompletionPersists | crates/genesis-common/src/utils.rs:162-170 | once complete, vesting stays complete |
| AffiliateState.TierThresholds | programs/affiliate-program/src/state.rs:96-108 | Platinum iff volume ≥ 10^9; at least Gold iff Platinum volume or (volume ≥ 10^8 and conversion ≥ 500 bps); at least Silver iff Platinum volume or (volume ≥ 10^7 and conversion ≥ 200 bps) |
| AffiliateState.TierMonotone | programs/affiliate-program/src/state.rs:96-108 | raising volume or conversion never lowers the tier |
| AffiliateState.AffiliateInfo.CalculatePerformanceTier | programs/affiliate-program/src/state.rs:96-108 | the stored tier becomes the tier of the current volume and conversion rate |
| AffiliateState.PerformanceScore | programs/affiliate-program/src/state.rs:111-124 | the score is (volume/10^6 as u32 + conversion/10 + referrals/10) × tier multiplier, and it panics exactly when that reaches 2^32 |
| AffiliateState.ScoreExactForModestVolume | programs/affiliate-program/src/state.rs:111-124 | below 4·10^14 volume the score never panics and equals the unwrapped formula |
| AffiliateState.ScoreOverflowsAtHighVolume | programs/affiliate-program/src/state.rs:111-124 | a Platinum affiliate with 10^15 volume makes the score computation panic |
| AffiliateState.AffiliateInfo.UpdatePerformanceScore | programs/affiliate-program/src/state.rs:111-124 | stores the score when it succeeds; otherwise panics and leaves it unchanged |
| AffiliateState.AffiliateInfo.CanUpdateRate | programs/affiliate-program/src/state.rs:127-137 | false when caps are on and the rate is outside [min_cap, max_cap]; otherwise true iff at least 86400 s passed since the last update, with a panic when that difference leaves i64 |
| AffiliateState.SuggestedRate | programs/affiliate-program/src/state.rs:140-158 | the clamped rate is always within [50, 2000] |
| AffiliateState.SuggestedRateUnclamped | programs/affiliate-program/src/state.rs:140-158 | base + adjustment already lies in [450, 1350], so the clamp never bites |
| AffiliateState.AffiliateInfo.GetSuggestedRate | programs/affiliate-program/src/state.rs:140-158 | the suggested rate is the tier base plus the conversion adjustment and lies in [50, 2000] |
| AffiliateState.SumPrefixBelow | programs/affiliate-program/src/state.rs:188-191 | a prefix of the daily volumes never sums to more than the whole |
| AffiliateState.AffiliateAnalytics.Create | programs/affiliate-program/src/lib.rs:360-366 | analytics created on first use are all zero: 30 zero slots of volume and of clicks, index 0, and a zero affiliate key that no handler fills in |
| AffiliateState.AffiliateAnalytics.AddDailyStats | programs/affiliate-program/src/state.rs:181-185 | writes both values at the current slot, leaves the other 29 slots alone and advances the index modulo 30 |
| AffiliateState.AffiliateAnalytics.Get30DayAvgVolume | programs/affiliate-program/src/state.rs:188-191 | panics iff the 30 slots sum to 2^64 or more; otherwise returns ⌊sum/30⌋ |
| AffiliateState.AffiliateInfo.Init | programs/affiliate-program/src/lib.rs:78-130 | a new record: 10% rate, Bronze, zero counters, caps from the arguments or the 50..2000 defaults, every timestamp now, 12 zero history months |
| AffiliateProgram.RegistrationCheck | programs/affiliate-program/src/lib.rs:82-89 | passes iff the level is in 1..5 and the parent is not the affiliate itself; the level error comes first |
| AffiliateProgram.RegisterAffiliate | programs/affiliate-program/src/lib.rs:78-130 | fails exactly as the registration check does; otherwise returns a fresh valid record in the registered state: the given identity and level, 10% rate, Bronze, every volume, count, rate and score zero, caps from the arguments or the 50..2000 defaults, AI optimisation on, every timestamp now, 12 zero history months |
| AffiliateProgram.SetCommissionRate | programs/affiliate-program/src/lib.rs:136-141 | only the affiliate may set a rate, at most 10000 bps; nothing else changes |
| AffiliateProgram.MintedCommission | programs/affiliate-program/src/lib.rs:150-156 | the minted commission equals the shared commission amount whenever that succeeds, and never exceeds the purchase at a rate of at most 10000 bps |
| AffiliateProgram.ProcessCommissionCheck | programs/affiliate-program/src/lib.rs:148-194 | the commission is accepted iff the volume sums fit in u64, the referral count fits in u32 and the new score does not panic |
| AffiliateProgram.CommissionAcceptedForModestVolume | programs/affiliate-program/src/lib.rs:148-194 | below 4·10^14 total volume (with the other counters in range) a commission is always accepted |
| AffiliateProgram.ProcessCommission | programs/affiliate-program/src/lib.rs:148-194 | fails exactly when the check fails, changing nothing; otherwise mints the commission (≤ the purchase), adds the purchase to the total and monthly volume, counts the referral, stamps now and keeps tier and score consistent with the new totals |
| AffiliateProgram.UpdateCommissionRateAi | programs/affiliate-program/src/lib.rs:197-219 | succeeds iff the signer is the affiliate, the rate is in 50..2000, within the caps and at least 86400 s after the last change; each failure has its own error in the source's order (AuthorityMismatch, InvalidRate, RateBelowMinCap, RateExceedsMaxCap, an i64 subtraction panic, RateUpdateNotAllowed inside the cooldown) and changes nothing; success sets the rate and the timestamp |
| AffiliateProgram.ConversionRate | programs/affiliate-program/src/lib.rs:240-242 | with referrals ≤ clicks the rate is ⌊referrals·10000/clicks⌋ and at most 10000 |
| AffiliateProgram.ConversionRateWraps | programs/affiliate-program/src/lib.rs:240-242 | with more referrals than clicks the u16 cast wraps: 7 referrals on 1 click store 4464 |
| AffiliateProgram.ConversionAfter | programs/affiliate-program/src/lib.rs:239-242 | with clicks the rate is the recomputed conversion rate; with none the stored rate is kept |
| AffiliateProgram.AnalyticsCheck | programs/affiliate-program/src/lib.rs:222-246 | an analytics update is accepted iff the volume total fits in u64, the click total fits in u32 and the score for the new totals and tier does not panic; overflow gives Overflow, a score overflow ArithmeticPanic |
| AffiliateProgram.AnalyticsAcceptedForModestVolume | programs/affiliate-program/src/lib.rs:222-246 | below 4·10^14 lifetime volume, with the click total in range, an analytics update is always accepted |
| AffiliateProgram.UpdateAnalytics | programs/affiliate-program/src/lib.rs:222-250 | the outcome is exactly the analytics check's, and a refusal changes nothing; otherwise the day slot is written, totals grow, the conversion rate is recomputed when there are clicks and tier and score follow |
| AffiliateProgram.GetAiSuggestedRate | programs/affiliate-program/src/lib.rs:253-270 | the event carries the affiliate, its current rate and tier, now, and a suggested rate within [50, 2000] |
| Factory.CreateLaunchCheck | programs/factory-program/src/lib.rs:117-128 | passes iff now ≤ start < end, both fee rates ≤ 2000 bps and, with vesting, the duration and cliff are in range; time errors come first, then fee errors, then InvalidVestingParams for out-of-range vesting parameters |
| Factory.LaunchState.Create | programs/factory-program/src/lib.rs:130-168 | a validated launch starts with zero sold, zero collected, zero purchases and the configuration copied from the arguments (LaunchState.Configured) |
| Factory.CreateLaunch | programs/factory-program/src/lib.rs:117-173 | fails exactly as the creation check does; otherwise returns a fresh valid launch with zero counters, the given keys and every configuration field (pricing, supply, times, vesting, anti-bot limits, fee rates and recipient) copied from the arguments |
| Factory.SplitPayment | programs/factory-program/src/lib.rs:214-229 | platform fee, affiliate fee and net SOL add up to the payment; each fee is the commission at its rate, or 0 when that fee does not apply |
| Factory.SplitPaymentSucceeds | programs/factory-program/src/lib.rs:214-229 | when the applicable fee rates sum to at most 10000 bps the split never fails |
| Factory.QuotePurchase | programs/factory-program/src/lib.rs:203-229 | zero price gives InvalidAmount, zero tokens InsufficientFunds, exceeding the cap Overflow or MaxSupplyReached; a quote's tokens are the tokens-to-mint and its fees the payment split |
| Factory.QuoteFailsOnlyOnSupply | programs/factory-program/src/lib.rs:203-229 | with fee rates within 2000 bps a quote succeeds iff the price is positive and buys between 1 token and the remaining supply |
| Factory.ReferredBuyerPaysLess | programs/factory-program/src/lib.rs:214-229 | a referred purchase mints the same tokens and keeps the affiliate fee out of the platform fee and net SOL; the same purchase unreferred sends that fee into net SOL |
| Factory.FeeFreePurchaseScenario | programs/factory-program/src/lib.rs:203-229 | 1 SOL at price 10^8 with no fees mints 10^10 units and sends all of it to the vault |
| Factory.LaunchState.QuoteFor | programs/factory-program/src/lib.rs:191-229 | zero SOL, an inactive launch and a reached supply fail first with their errors; a quote is the purchase quote at the current price |
| Factory.LaunchState.RecordPurchase | programs/factory-program/src/lib.rs:318-326 | sold grows by the tokens, the collected totals by net SOL and platform fee, the count by one, and the timestamp becomes now, keeping sold ≤ max |
| Factory.VestingSchedule.Overwrite | programs/factory-program/src/lib.rs:290-300 | the schedule is rewritten for this launch and buyer with the minted amount, nothing claimed, starting now |
| Factory.BuyTokens | programs/factory-program/src/lib.rs:185-330 | succeeds iff the quote succeeds, a referral names the passed affiliate whose commission check passes, and the sale counters can absorb the purchase; each failure has its error (the quote's, AffiliateMismatch, the commission error, Overflow) and changes nothing; on success the launch records the quote, the vesting schedule is written when asked, and a referral updates the affiliate exactly as processing a commission does |
| Factory.WithdrawSol | programs/factory-program/src/lib.rs:333-357 | only the authority may withdraw, and only a non-empty vault; the whole balance is withdrawn |
| Factory.ClaimVestedTokens | programs/factory-program/src/lib.rs:360-402 | the schedule must belong to the launch and the signer; a zero claim is refused; a claim adds the claimable amount to claimed_amount and stamps now, and anything refused changes nothing |
| Factory.UpdateLaunch | programs/factory-program/src/lib.rs:405-428 | only the authority may update; a new end must be in the future (InvalidLaunchTime) and a new cap at least the tokens sold (InvalidAmount); each supplied field replaces the stored one |
| BarterDex.SwapOutput | programs/barter-dex-program/src/lib.rs:165-187 | the gross output is the price conversion truncated to u64, the fee is the swap fee on it and out + fee equals the gross output; it fails (Underflow) exactly when the fee exceeds the gross output, which a fee rate of at most 10000 bps never does |
| BarterDex.SwapFee | programs/barter-dex-program/src/lib.rs:180-183 | at a fee rate of at most 10000 bps the fee is ⌊gross·bps/10000⌋ and at most the gross output |
| BarterDex.SwapOutputMonotone | programs/barter-dex-program/src/lib.rs:165-187 | at a fixed price, a fee rate of at most 10000 bps and no truncation, paying in more never yields less |
| BarterDex.SwapScenario | programs/barter-dex-program/src/lib.rs:165-187 | 10^9 of token A at price 1 with a 30 bps fee yields 997·10^6 |
| BarterDex.SettleLiquidity | programs/barter-dex-program/src/lib.rs:221-227 | the paid-in counter grows by the input and the paid-out counter shrinks by the output, so the total moves by in − out; a too-small paid-out counter is Underflow |
| BarterDex.DepositOnlyPoolRefusesSwaps | programs/barter-dex-program/src/lib.rs:143-147 | zero counters make every swap with output Underflow; a pool starts with zero counters (LiquidityPool.Create) and deposits cannot change them (LiquidityPool.AddLiquidity modifies nothing), so a pool funded only by deposits refuses every such swap |
| BarterDex.Merge | programs/barter-dex-program/src/lib.rs:243-251 | a supplied source reading replaces the stored one and an absent one keeps it |
| BarterDex.LiquidityPool.Create | programs/barter-dex-program/src/lib.rs:86-131 | a new pool has price 10^9 stamped now, 24 history slots of 10^9, no source readings, zero confidence and zero counters, and the configuration from the arguments |
| BarterDex.LiquidityPool.UpdatePriceHistory | programs/barter-dex-program/src/lib.rs:230 | writes the price at the current slot, leaves the others alone and advances the index modulo 24 |
| BarterDex.LiquidityPool.UpdateOraclePriceLegacy | programs/barter-dex-program/src/lib.rs:134-140 | only the oracle authority may update; any price, zero included, is stored and stamped now |
| BarterDex.LiquidityPool.UpdateOraclePriceMultiSource | programs/barter-dex-program/src/lib.rs:238-267 | only the oracle authority may update; supplied readings and confidence replace stored ones, the stored price becomes the weighted price of the merged readings stamped now and goes into the history; a failed weighing changes nothing |
| BarterDex.LiquidityPool.AddLiquidity | programs/barter-dex-program/src/lib.rs:143-147 | deposits grow the vault balances and do not touch the pool's counters |
| BarterDex.LiquidityPool.PricedSwap | programs/barter-dex-program/src/lib.rs:150-187 | a stale oracle gives OraclePriceStale and a zero weighted price NoValidPriceSources, before any arithmetic; it succeeds iff the oracle is fresh, the weighted price is positive, the dynamic fee is available and the swap arithmetic succeeds, and then is the swap output at that price and fee |
| BarterDex.LiquidityPool.Swap | programs/barter-dex-program/src/lib.rs:150-235 | succeeds iff the priced swap succeeds, its output is at least the minimum and at most the destination balance, and the counters settle; a short output is SlippageExceeded and a short vault InsufficientLiquidity; a refusal changes nothing; a swap settles the counters and enters the price into the history |
| BarterDex.LiquidityPool.UpdatePoolConfig | programs/barter-dex-program/src/lib.rs:270-281 | only the oracle authority may update; fee, dynamic flag and threshold are stored unchecked and stamped now |
| BarterDex.LiquidityPool.EmergencyPause | programs/barter-dex-program/src/lib.rs:284-290 | only the oracle authority may call it, and it changes no pool field |

## Left out

- Token and SOL transfers, `mint_to`, and failures of the token or system program are not modelled. Vault balances are parameters.
- Program-derived addresses, seeds, bumps and Anchor account constraints are not modelled. The `has_one`/signer checks become a comparison of a signer key with the stored authority. `init` account creation is a fresh object.
- The bodies of `is_launch_active`, `is_max_supply_reached`, `validate_purchase_amount`, the non-linear pricing models, the vesting claimable computation, `calculate_weighted_price` and `calculate_dynamic_fee` are not shown in the source. Their results are inputs to the model.
- BarterDex.LiquidityPool.UpdatePriceHistory: its body is not shown. It is modelled as the ring write that mirrors the 24-slot `price_history` and `history_index` fields.
- The oracle provider is an opaque stored tag, because the enum's variants are not shown.
- Event emission and `msg!` logging are left out. AffiliateProgram.GetAiSuggestedRate returns the event as a value.
- Both `update_oracle_price` definitions in the barter program are modelled, as UpdateOraclePriceLegacy and UpdateOraclePriceMultiSource, since the source declares the handler twice.
- Unchecked integer arithmetic is modelled with overflow checks on: an overflow aborts the instruction (`ArithmeticPanic`) rather than wrapping. Explicit `as` casts do wrap.
- The factory's `total_sol_collected`, `total_fees_collected` and `purchase_count` fields are taken to be u64.
- The Overflow branches after the u128 multiplications in the swap and fee arithmetic cannot be reached, because the products fit in u128. They are not modelled.
- BarterDex.LiquidityPool.Swap: the `Swap` accounts struct does not mark the pool `mut`, so the runtime would not persist the counter and history writes. The model keeps the writes the handler performs.
- Factory.BuyTokens: the `affiliate_info` account is not marked `mut` in the `BuyTokens` struct, and the affiliate fee is withheld from the buyer's payment without being transferred to anyone. The model follows the handler's writes and the fee arithmetic.
- Factory.BuyTokens: `mint_to` targets the vesting schedule account when vesting is enabled. Token movements are outside the model.
- AffiliateProgram.SetCommissionRate accepts any rate up to 10000 bps, as the code does, rather than the 50..2000 range the rate-update instruction enforces.
- AffiliateProgram.UpdateAnalytics: takes no signer. The account seeds that tie `affiliate_info` to the signing affiliate are an account constraint and are not modelled, so the model lets any caller update any record.
- Factory.UpdateLaunch does not compare a new end time with the start time, and creation accepts a negative vesting cliff when it is at most the duration; both as in the code.
