# Bonding yield farm: a Dafny model of the staking-pool program

The program keeps the accounts of a staking pool on Solana (an Anchor
program). One `Pool` account holds the pool's totals, caps, reward
coefficient, leaderboard and pause flag. One `StakedPosition` account per
staker holds that staker's balance and lockup. Four instructions change them:

- `initialize_pool` fills in a freshly allocated pool. The fee is 2 percent, the counters start at zero and the pool is not paused. `admin` is never written, so it keeps the all-zero default key.
- `stake` admits funds under three checks in a fixed order: not paused, the pool cap, then the per-user cap. It credits the position and the pool and sets an optional lockup. It then computes a boosted reward, and either compounds it into the position or mints it to the user. Last, it counts the reward and updates the top-staker leaderboard.
- `withdraw` checks three things in order: not paused, no longer locked, enough funds. It splits the amount into a rounded-down 2 percent fee and the net payout, debits position and pool, and issues two token transfers.
- `toggle_pause` flips the pause flag, but only for the stored admin key.

The model has these modules:

- `Integers` (integers.dfy): u64 and i64 as subset types of `int`, the checked arithmetic the program uses, and the wrapping cast `u64 as i64`.
- `Reward` (reward.dfy): `calculate_boosted_reward` as a function. The u64 computation is tied to the formula on unbounded integers, and lemmas describe that formula.
- `Accounts` (accounts.dfy): the two account records as datatypes, the `ErrorCode` enum, the token-program calls and the events.
- `Transitions` (transitions.dfy): each instruction as a pure transition. It either commits new account contents or aborts with a failure. Their contracts state the rejection order and the effect on every field.
- `Program` (program.dfy): classes `Pool` and `StakedPosition` with the account fields. Their methods update the fields statement by statement as the source does, and each method is proved to agree with its transition.
- `Runs` (runs.dfy): sequences of instructions against one pool and the positions staked in it, and what holds across any such sequence. It assumes that each position account is used with that one pool only (see "Left out").
- `Scenarios` (scenarios.dfy): the worked examples, the capacity and lockup scenarios, and the flow of the repository's integration test (`IntegrationTestFlow`, a client of the classes). It also shows what compounding does to withdrawals: a sole staker cannot withdraw a compounded balance in full, and with two stakers the compounding one is paid out of the other's deposit.

Modelling choices:

- **Overflow.** Arithmetic is checked, as Anchor builds it. Any overflow or underflow is a panic, which aborts the transaction; the model calls this failure `Overflow`. Checked steps:
  - the two sums compared at lib.rs:54 and :60;
  - the i64 addition at :70;
  - the subtraction at :191 and the three multiplications at :195, left to right;
  - the additions at :85 and :97;
  - the fee product at :129 and the subtractions at :130 and :134.
- **Atomicity.** The host discards every write of a failed transaction. The pure transitions express this by returning no records on `Abort`. The methods express it by restoring the snapshots taken on entry (`Rollback`, `Restore`). So a failed instruction leaves both accounts as they were.
- **External calls.** The token program is a parameter, `TokenProgram = TokenCall -> bool`, which says whether it carries out a given call. Each transition returns the calls it issued. The mint authority that `find_program_address` derives is also a parameter, so the `InvalidAuthority` check (lib.rs:210) is an equality against it.
- **Time.** The clock is a parameter, `now`.

Behaviours of the code that the model reproduces and proves:

- `toggle_pause` checks the caller against `pool.admin` (lib.rs:177), but `initialize_pool` never assigns `admin` (lib.rs:18-29). The freshly allocated account is zeroed, so after initialization only the all-zero default key passes that check (`InitializedPoolTogglableOnlyByDefaultKey`, `Runs.FromInitialization`).
- Compounding credits the position but not `total_liquidity` (lib.rs:85 against :74). So the total of a pool's positions exceeds its liquidity by exactly the compounded rewards (`Runs.RunAccounting`).
- Compounding also adds the reward to the position without checking `max_deposit_per_user` again (lib.rs:60 against :85). A position can therefore grow above the per-user cap: in `Scenarios.CompoundedBalanceCannotBeWithdrawn` it reaches 102000 against a cap of 1000. This is why `Runs.RunKeepsDepositCap` holds only for runs without compounding.
- When the pool's liquidity is below a compounded balance (for example, for a sole staker), the full withdrawal of that balance underflows at lib.rs:134 (`Scenarios.CompoundedBalanceCannotBeWithdrawn`). Otherwise it commits and is paid out of other stakers' deposits; the last of them then cannot withdraw in full (`Scenarios.CompoundedRewardPaidFromOtherDeposits`).
- The integration test (tests/anchor.test.ts:80-102) withdraws inside the seven-day lockup that it set at :53. The code refuses that withdrawal with `StillLocked` (lib.rs:123), so the model refuses it too.

## Model

| member | source | states |
|---|---|---|
| `Integers.AsI64` | bonding_yield_farm/src/lib.rs:70 | `duration as i64` keeps the value modulo 2^64: unchanged up to I64_MAX, negative above it |
| `Reward.CalculateBoostedReward` | bonding_yield_farm/src/lib.rs:185-196 | the checked i64/u64 computation succeeds exactly when the time difference fits in i64 and every partial product of the chain fits in u64; it then equals the unbounded formula `amount * (100 + max(0, stake_time - last_update) / 86400) * (100 + amount / 1000) * coefficient / 10000` |
| `Reward.NoTimeBonusBeforeBaseline` | bonding_yield_farm/src/lib.rs:191-192 | a stake at or before the pool's baseline gets a time multiplier of exactly 100 |
| `Reward.RewardCoversPrincipal` | bonding_yield_farm/src/lib.rs:191-195 | both multipliers are at least 100, so the reward is at least amount times coefficient |
| `Reward.RewardMonotoneInAmount` | bonding_yield_farm/src/lib.rs:193-195 | a larger amount never earns a smaller reward |
| `Reward.RewardMonotoneInStakeTime` | bonding_yield_farm/src/lib.rs:191-195 | against the same baseline, a later stake never earns a smaller reward |
| `Reward.OverflowExactlyWhenProductTooLarge` | bonding_yield_farm/src/lib.rs:195 | with a positive coefficient the multiplication chain panics exactly when the full four-factor product exceeds u64 |
| `Reward.RewardAtBaselineExample` | bonding_yield_farm/src/lib.rs:191-195 | reward(1000, t, t, 100) has multipliers 100 and 101 and equals 101000 |
| `Transitions.InitializePool` | bonding_yield_farm/src/lib.rs:18-29 | the new pool has the given mint, coefficient and caps, `last_update = now`, fee rate 2, not paused, zero liquidity, zero counters, and a default leaderboard; `admin` is the default key because the zeroed account's admin is never written |
| `Transitions.MintTokens` | bonding_yield_farm/src/lib.rs:198-225 | the mint succeeds exactly when the supplied authority is the derived one and the token program accepts `MintTo(mint, to, authority, amount)`; otherwise it fails with `InvalidAuthority` (authority mismatch) or a token-call failure |
| `Transitions.Stake` | bonding_yield_farm/src/lib.rs:41-112 | rejects with `PoolPaused`, then `PoolLiquidityExceeded`, then `UserDepositLimitExceeded` (an overflow of the compared sum first), and a rejected stake returns no new records. It commits exactly when admitted, nothing later overflows and the mint (if any) goes through. After admission, a non-compounding stake whose lockup and reward fit fails with exactly `InvalidAuthority` on an authority mismatch and `TokenCallFailed` when the token program refuses the mint; every other post-admission failure is `Overflow`. On commit: liquidity grows by `amount` and stays within the pool cap; the reward is the formula on the credited amount against the fixed baseline; `total_rewards_distributed` grows by that reward; the position grows by `amount` plus the reward only when compounding, and without compounding stays within the per-user cap; `stake_time = now`; `unlock_time = now + duration as i64` when a lockup is given, otherwise unchanged; a mint call is issued only when not compounding; the leaderboard moves to the user exactly when the new balance beats the old top, so the top amount never decreases and is at least the new balance; no other Pool field changes |
| `Transitions.SplitFee` | bonding_yield_farm/src/lib.rs:128-130 | the split exists exactly when `amount * fee_rate` fits in u64 and the fee does not exceed the amount; then `fee = amount * fee_rate / 100` (rounded down) and `fee + net = amount` |
| `Transitions.FeeAtMostAmount` | bonding_yield_farm/src/lib.rs:129-130 | for the rates up to 100 percent the fee never exceeds the amount and the split always exists when the product fits |
| `Transitions.DefaultFeeSplit` | bonding_yield_farm/src/lib.rs:129-130 | at the rate of 2 installed at lib.rs:22, the fee is `amount / 50` and the net is the rest |
| `Transitions.Withdraw` | bonding_yield_farm/src/lib.rs:115-170 | rejects with `PoolPaused`, then `StillLocked` when `now < unlock_time`, then `InsufficientFunds` when the balance is below the amount, and a rejected withdrawal returns no new records and issues no transfer. It commits exactly when admitted, the fee split exists, the pool holds at least the amount (otherwise the debit underflows) and the token program accepts both transfers. On commit the position and the pool's liquidity each drop by exactly `amount`, no other field changes, the fee and net transfers are issued in that order from the pool's liquidity account, and `fee + net = amount` |
| `Transitions.TogglePause` | bonding_yield_farm/src/lib.rs:173-181 | succeeds exactly when the caller is the stored admin and then negates `is_paused` and changes nothing else; otherwise fails with `Unauthorized` |
| `Transitions.TogglePauseTwiceRestores` | bonding_yield_farm/src/lib.rs:177-179 | two toggles by the admin restore the original pool |
| `Transitions.InitializedPoolTogglableOnlyByDefaultKey` | bonding_yield_farm/src/lib.rs:18-29 | on a freshly initialized pool, `toggle_pause` succeeds for a caller exactly when the caller is the default key |
| `Program.StakedPosition.Allocate` | bonding_yield_farm/src/lib.rs:268-273 | a freshly allocated position account holds zeros |
| `Program.Pool.Initialize` | bonding_yield_farm/src/lib.rs:11-38 | the constructor's fields are exactly `Transitions.InitializePool` of its arguments |
| `Program.Pool.Stake` | bonding_yield_farm/src/lib.rs:41-62 | the method's result and the two accounts' new contents are those of `Transitions.Stake`, with both accounts unchanged on failure |
| `Program.Pool.Credit` | bonding_yield_farm/src/lib.rs:64-82 | after admission, the updates of position, lockup and pool and the reward computation agree with `Transitions.CreditStake`, and every failure restores both accounts |
| `Program.Pool.Settle` | bonding_yield_farm/src/lib.rs:84-103 | compounding or minting, the reward counter and the leaderboard agree with `Transitions.SettleReward`, and every failure restores the snapshots |
| `Program.Pool.Withdraw` | bonding_yield_farm/src/lib.rs:115-170 | the method's result and the two accounts' new contents are those of `Transitions.Withdraw`, with both accounts unchanged on failure |
| `Program.Pool.TogglePause` | bonding_yield_farm/src/lib.rs:173-181 | the method's result and the pool's new contents are those of `Transitions.TogglePause` |
| `Runs.RunEvolves` | bonding_yield_farm/src/lib.rs:97-103 | across any sequence of instructions the admin, mint, coefficient, fee rate, baseline and caps never change, and `total_rewards_distributed` and `top_staker_amount` never decrease |
| `Runs.RunPreservesInvariant` | bonding_yield_farm/src/lib.rs:53-56 | across any sequence the liquidity stays within the pool cap, the fee rate stays 2, and `top_staker_amount` is at least every position's balance |
| `Runs.RunAccounting` | bonding_yield_farm/src/lib.rs:65-85 | across any sequence of instructions on one pool and positions used only with it, the gap between the positions' total and the pool's liquidity grows by exactly the rewards compounded; stakes and withdrawals move both sides equally |
| `Runs.RunKeepsDepositCap` | bonding_yield_farm/src/lib.rs:59-62 | if no instruction compounds, no position ever exceeds `max_deposit_per_user` |
| `Runs.PauseFlagOnlyMovedByAdmin` | bonding_yield_farm/src/lib.rs:177-179 | the pause flag only changes through `toggle_pause` called with the admin key |
| `Runs.FromInitialization` | bonding_yield_farm/src/lib.rs:18-29 | from a freshly initialized pool, after any sequence on it and positions used only with it: the invariant holds; the admin is still the default key; the positions' total is the liquidity plus all compounded rewards, so exactly the liquidity without compounding; the pool is paused only if someone called `toggle_pause` with the default key; without compounding every position is within the per-user cap |
| `Scenarios.FeeExample` | bonding_yield_farm/src/lib.rs:129-130 | withdrawing 1000 at 2 percent gives fee 20 and net 980 |
| `Scenarios.LiquidityCapScenario` | bonding_yield_farm/src/lib.rs:53-56 | a pool capped at 500 takes a stake of 500 and then refuses a stake of 1 with `PoolLiquidityExceeded` |
| `Scenarios.LockupScenario` | bonding_yield_farm/src/lib.rs:69-71 | a 3600-second lockup refuses a withdrawal at +1000 with `StillLocked` and allows it at +3600 (check at lib.rs:123) |
| `Scenarios.CompoundedBalanceCannotBeWithdrawn` | bonding_yield_farm/src/lib.rs:84-85 | staking 1000 with compounding yields a balance of 102000 against a liquidity of 1000; withdrawing 102000 then underflows at lib.rs:134 and aborts, while 1000 can be withdrawn |
| `Scenarios.CompoundedRewardPaidFromOtherDeposits` | bonding_yield_farm/src/lib.rs:84-85 | with A staking 1000 without compounding and B staking 1 with compounding, B holds 101 against a liquidity of 1001; B's full withdrawal commits and leaves 900, after which A's full withdrawal of 1000 underflows at lib.rs:134 and aborts |
| `Scenarios.NonAdminCannotToggle` | bonding_yield_farm/src/lib.rs:177 | a caller other than the admin gets `Unauthorized` |

## Left out

- Token-program internals: the model does not include what `token::transfer` and `token::mint_to` do (lib.rs:137-160, 212-223). Only "the call is carried out or the transaction aborts" is kept, and the model returns the calls it issued.
- `find_program_address` (lib.rs:205-206) is a hash-based derivation. Its result is a parameter.
- Failure of `Clock::get()` is not modelled; the clock value is the parameter `now`.
- `PoolInitializedEvent` (lib.rs:31-35) is logging only and is not modelled. The stake and withdraw events are returned as values.
- Anchor's account constraints are not modelled: allocation, payer, `space` sizing and signer checks (lib.rs:276-323). Nor is the host's refusal of an account that does not exist; in `Runs`, such an instruction changes nothing.
- `StakedPosition.multiplier` is a record field that no instruction reads or writes. The model carries it unchanged.
- The program does not bind a position to its user: the caller supplies the position account. The model adds no ownership check.
- The program does not bind a position to a pool either: the `Stake` and `Withdraw` account contexts (lib.rs:286-290, 303-307) accept any `StakedPosition` together with any `Pool`. `Runs` models one pool with its own positions, so it assumes that each position account is used with that pool only. `Runs.RunAccounting` and the accounting part of `Runs.FromInitialization` hold only in that closed world: a position credited in one pool can withdraw its balance from another, breaking the relation between positions and liquidity there.
- The integration test's airdrops and RPC plumbing are not modelled. `Scenarios.IntegrationTestFlow` follows its stake-then-withdraw amounts and times, but not its accounts. The test passes a fresh keypair's key as the mint authority (tests/anchor.test.ts:20, :63). Such a key is never the program-derived address, so that non-compounding stake would be refused with `InvalidAuthority` (lib.rs:210). The flow passes the derived authority instead, so that the stake goes through.
