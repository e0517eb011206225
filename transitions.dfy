/**
 * The four instructions of the program as pure transitions on the Pool and
 * StakedPosition records. A transition either commits new records (with the
 * token-program calls it issued and the event it emitted) or aborts with a
 * failure; the host discards every write of an aborted transaction, so an
 * abort carries no records at all.
 */
module Transitions {
  import opened Wrappers
  import opened Integers
  import opened Accounts
  import opened Reward

  /** The withdrawal fee in percent that initialization installs. */
  const DEFAULT_FEE_RATE: u64 := 2

  datatype Tx<T> = Commit(pool: PoolState, position: PositionState, value: T) | Abort(failure: Failure)

  /** Every Pool field that neither Stake nor Withdraw writes is the same in p and q. */
  predicate SameConfiguration(p: PoolState, q: PoolState) {
    && p.admin == q.admin
    && p.tokenMint == q.tokenMint
    && p.rewardCoefficient == q.rewardCoefficient
    && p.feeRate == q.feeRate
    && p.lastUpdate == q.lastUpdate
    && p.maxDepositPerUser == q.maxDepositPerUser
    && p.totalMaxLiquidity == q.totalMaxLiquidity
    && p.isPaused == q.isPaused
  }

  /** The leaderboard moves to `user` exactly when `amount` beats the previous top. */
  predicate LeaderboardUpdated(before: PoolState, after: PoolState, user: Pubkey, amount: int) {
    if amount > before.topStakerAmount then
      after.topStaker == user && after.topStakerAmount == amount
    else
      after.topStaker == before.topStaker && after.topStakerAmount == before.topStakerAmount
  }

  // ---------------------------------------------------------------------------
  // initialize_pool

  /**
   * The new pool: the account arrives zeroed and every field except `admin`
   * is written, so `admin` keeps the default key.
   */
  function InitializePool(tokenMint: Pubkey, rewardCoefficient: u64, maxDepositPerUser: u64,
                          totalMaxLiquidity: u64, now: i64): (p: PoolState)
    ensures p.admin == DefaultPubkey
    ensures p.tokenMint == tokenMint && p.rewardCoefficient == rewardCoefficient
    ensures p.maxDepositPerUser == maxDepositPerUser && p.totalMaxLiquidity == totalMaxLiquidity
    ensures p.lastUpdate == now && p.feeRate == DEFAULT_FEE_RATE && !p.isPaused
    ensures p.totalLiquidity == 0 && p.totalRewardsDistributed == 0
    ensures p.topStaker == DefaultPubkey && p.topStakerAmount == 0
  {
    ZeroedPool.(
      tokenMint := tokenMint,
      totalLiquidity := 0,
      rewardCoefficient := rewardCoefficient,
      feeRate := DEFAULT_FEE_RATE,
      lastUpdate := now,
      topStaker := DefaultPubkey,
      topStakerAmount := 0,
      totalRewardsDistributed := 0,
      maxDepositPerUser := maxDepositPerUser,
      totalMaxLiquidity := totalMaxLiquidity,
      isPaused := false)
  }

  // ---------------------------------------------------------------------------
  // stake

  /** The accounts of a Stake instruction that the transition reads keys from. */
  datatype StakeAccounts = StakeAccounts(user: Pubkey, farmMint: Pubkey, userFarmToken: Pubkey, farmMintAuthority: Pubkey)

  /** What a committed stake reports: the reward, the token calls issued, the event. */
  datatype Staked = Staked(reward: u64, calls: seq<TokenCall>, event: StakeEvent)

  /**
   * `mint_tokens`: the supplied authority must be the mint authority the
   * host derives for the "farm-mint" seed, and then the token program must
   * accept the mint.
   */
  function MintTokens(token: TokenProgram, farmMint: Pubkey, to: Pubkey, authority: Pubkey,
                      derivedAuthority: Pubkey, amount: u64): (r: Result<TokenCall, Failure>)
    ensures r.Ok? <==> authority == derivedAuthority && token(MintTo(farmMint, to, authority, amount))
    ensures r.Ok? ==> r.value == MintTo(farmMint, to, authority, amount)
    ensures r.Err? ==> r.error == if authority != derivedAuthority then Rejected(InvalidAuthority) else TokenCallFailed
  {
    if authority != derivedAuthority then Err(Rejected(InvalidAuthority))
    else
      var call := MintTo(farmMint, to, authority, amount);
      if token(call) then Ok(call) else Err(TokenCallFailed)
  }

  /**
   * The reward leaves the program only when it is not compounded: then it is
   * minted to the user's reward account.
   */
  function PayOut(token: TokenProgram, accounts: StakeAccounts, derivedMintAuthority: Pubkey,
                  autoCompound: bool, reward: u64): (r: Result<seq<TokenCall>, Failure>)
    ensures autoCompound ==> r == Ok([])
    ensures !autoCompound ==>
              (r.Ok? <==> accounts.farmMintAuthority == derivedMintAuthority
                          && token(MintTo(accounts.farmMint, accounts.userFarmToken, accounts.farmMintAuthority, reward)))
    ensures !autoCompound && r.Ok? ==>
              r.value == [MintTo(accounts.farmMint, accounts.userFarmToken, accounts.farmMintAuthority, reward)]
    ensures r.Err? ==> !autoCompound && r.error == if accounts.farmMintAuthority != derivedMintAuthority
                                                   then Rejected(InvalidAuthority) else TokenCallFailed
  {
    if autoCompound then Ok([])
    else
      match MintTokens(token, accounts.farmMint, accounts.userFarmToken, accounts.farmMintAuthority, derivedMintAuthority, reward)
      case Ok(call) => Ok([call])
      case Err(e) => Err(e)
  }

  /** The three `require!` checks of Stake, read as mathematical inequalities. */
  predicate StakeAdmitted(pool: PoolState, position: PositionState, amount: u64) {
    && !pool.isPaused
    && pool.totalLiquidity + amount <= pool.totalMaxLiquidity
    && position.amount + amount <= pool.maxDepositPerUser
  }

  /** Unlock time after a stake: `now + duration as i64` when a lockup is given. */
  function NewUnlockTime(position: PositionState, lockupPeriod: Option<u64>, now: i64): int {
    if lockupPeriod.Some? then now + AsI64(lockupPeriod.value) else position.unlockTime
  }

  /** No arithmetic after the admission checks of an admitted stake overflows. */
  predicate StakeFits(pool: PoolState, position: PositionState, amount: u64, autoCompound: bool,
                      lockupPeriod: Option<u64>, now: i64)
    requires StakeAdmitted(pool, position, amount)
  {
    && IsI64(NewUnlockTime(position, lockupPeriod, now))
    && var reward := CalculateBoostedReward(position.amount + amount, now, pool.lastUpdate, pool.rewardCoefficient);
       && reward.Some?
       && (autoCompound ==> position.amount + amount + reward.value <= U64_MAX)
       && pool.totalRewardsDistributed + reward.value <= U64_MAX
  }

  /**
   * `stake`: admission checks in source order (paused, pool cap, user cap,
   * each sum checked for overflow first), then the position is credited, the
   * optional lockup set, the pool credited, the reward computed from the
   * updated position against the pool's fixed baseline, and either
   * compounded into the position or minted to the user; finally the reward
   * counter and the leaderboard are updated.
   */
  function Stake(pool: PoolState, position: PositionState, accounts: StakeAccounts,
                 derivedMintAuthority: Pubkey, token: TokenProgram,
                 amount: u64, autoCompound: bool, lockupPeriod: Option<u64>, now: i64): (r: Tx<Staked>)
    // rejections, in order
    ensures pool.isPaused ==> r == Abort(Rejected(PoolPaused))
    ensures !pool.isPaused && pool.totalLiquidity + amount > pool.totalMaxLiquidity ==>
              r == Abort(if pool.totalLiquidity + amount > U64_MAX then Overflow else Rejected(PoolLiquidityExceeded))
    ensures !pool.isPaused && pool.totalLiquidity + amount <= pool.totalMaxLiquidity
            && position.amount + amount > pool.maxDepositPerUser ==>
              r == Abort(if position.amount + amount > U64_MAX then Overflow else Rejected(UserDepositLimitExceeded))
    // an admitted stake commits exactly when nothing overflows and the mint goes through
    ensures r.Commit? <==>
              && StakeAdmitted(pool, position, amount)
              && StakeFits(pool, position, amount, autoCompound, lockupPeriod, now)
              && (!autoCompound ==>
                    MintTokens(token, accounts.farmMint, accounts.userFarmToken, accounts.farmMintAuthority, derivedMintAuthority,
                               CalculateBoostedReward(position.amount + amount, now, pool.lastUpdate, pool.rewardCoefficient).value).Ok?)
    // failures after admission: the mint is issued before the reward counter is added to
    ensures StakeAdmitted(pool, position, amount) && !autoCompound && IsI64(NewUnlockTime(position, lockupPeriod, now)) ==>
              var reward := CalculateBoostedReward(position.amount + amount, now, pool.lastUpdate, pool.rewardCoefficient);
              reward.Some? ==>
                && (accounts.farmMintAuthority != derivedMintAuthority ==> r == Abort(Rejected(InvalidAuthority)))
                && (accounts.farmMintAuthority == derivedMintAuthority
                    && !token(MintTo(accounts.farmMint, accounts.userFarmToken, accounts.farmMintAuthority, reward.value)) ==>
                      r == Abort(TokenCallFailed))
    ensures r.Abort? && StakeAdmitted(pool, position, amount) && r.failure != Overflow ==>
              && !autoCompound
              && r.failure == (if accounts.farmMintAuthority != derivedMintAuthority then Rejected(InvalidAuthority)
                               else TokenCallFailed)
    // effects of a committed stake
    ensures r.Commit? ==> r.value.reward == IdealReward(position.amount + amount, now, pool.lastUpdate, pool.rewardCoefficient)
    ensures r.Commit? ==> r.pool.totalLiquidity == pool.totalLiquidity + amount <= pool.totalMaxLiquidity
    ensures r.Commit? ==> r.pool.totalRewardsDistributed == pool.totalRewardsDistributed + r.value.reward
    ensures r.Commit? ==> SameConfiguration(pool, r.pool) && LeaderboardUpdated(pool, r.pool, accounts.user, r.position.amount)
    ensures r.Commit? ==> r.pool.topStakerAmount >= r.position.amount && r.pool.topStakerAmount >= pool.topStakerAmount
    ensures r.Commit? ==> r.position.amount == position.amount + amount + (if autoCompound then r.value.reward else 0)
    ensures r.Commit? && !autoCompound ==> r.position.amount <= pool.maxDepositPerUser
    ensures r.Commit? ==> r.position.stakeTime == now && r.position.multiplier == position.multiplier
    ensures r.Commit? ==> r.position.unlockTime == NewUnlockTime(position, lockupPeriod, now)
    ensures r.Commit? ==>
              r.value.calls == (if autoCompound then []
                                else [MintTo(accounts.farmMint, accounts.userFarmToken, accounts.farmMintAuthority, r.value.reward)])
    ensures r.Commit? ==> r.value.event == StakeEvent(accounts.user, amount, r.value.reward)
  {
    if pool.isPaused then Abort(Rejected(PoolPaused))
    else if pool.totalLiquidity + amount > U64_MAX then Abort(Overflow)
    else if pool.totalLiquidity + amount > pool.totalMaxLiquidity then Abort(Rejected(PoolLiquidityExceeded))
    else if position.amount + amount > U64_MAX then Abort(Overflow)
    else if position.amount + amount > pool.maxDepositPerUser then Abort(Rejected(UserDepositLimitExceeded))
    else CreditStake(pool, position, accounts, derivedMintAuthority, token, amount, autoCompound, lockupPeriod, now)
  }

  /**
   * The part of Stake after admission: credit the position, set the lockup,
   * credit the pool and compute the reward from the credited position.
   */
  function CreditStake(pool: PoolState, position: PositionState, accounts: StakeAccounts,
                       derivedMintAuthority: Pubkey, token: TokenProgram,
                       amount: u64, autoCompound: bool, lockupPeriod: Option<u64>, now: i64): Tx<Staked>
    requires StakeAdmitted(pool, position, amount)
  {
    var unlockTime := NewUnlockTime(position, lockupPeriod, now);
    if !IsI64(unlockTime) then Abort(Overflow)
    else
      var credited := position.(amount := position.amount + amount, stakeTime := now, unlockTime := unlockTime);
      match CalculateBoostedReward(credited.amount, credited.stakeTime, pool.lastUpdate, pool.rewardCoefficient)
      case None => Abort(Overflow)
      case Some(reward) =>
        SettleReward(pool.(totalLiquidity := pool.totalLiquidity + amount), credited, accounts,
                     derivedMintAuthority, token, amount, autoCompound, reward)
  }

  /**
   * The last part of Stake: compound or mint the reward, add it to the
   * reward counter and update the leaderboard.
   */
  function SettleReward(pool: PoolState, position: PositionState, accounts: StakeAccounts,
                        derivedMintAuthority: Pubkey, token: TokenProgram,
                        amount: u64, autoCompound: bool, reward: u64): Tx<Staked>
  {
    if autoCompound && position.amount + reward > U64_MAX then Abort(Overflow)
    else
      var finalAmount: u64 := if autoCompound then position.amount + reward else position.amount;
      var minted := PayOut(token, accounts, derivedMintAuthority, autoCompound, reward);
      if minted.Err? then Abort(minted.error)
      else if pool.totalRewardsDistributed + reward > U64_MAX then Abort(Overflow)
      else
        var newTop := finalAmount > pool.topStakerAmount;
        Commit(
          pool.(totalRewardsDistributed := pool.totalRewardsDistributed + reward,
                topStaker := if newTop then accounts.user else pool.topStaker,
                topStakerAmount := if newTop then finalAmount else pool.topStakerAmount),
          position.(amount := finalAmount),
          Staked(reward, minted.value, StakeEvent(accounts.user, amount, reward)))
  }

  // ---------------------------------------------------------------------------
  // withdraw

  /** The accounts of a Withdraw instruction that the transition reads keys from. */
  datatype WithdrawAccounts = WithdrawAccounts(pool: Pubkey, user: Pubkey, poolLiquidity: Pubkey,
                                               treasury: Pubkey, userLiquidity: Pubkey)

  /** What a committed withdrawal reports: fee, net payout, token calls, event. */
  datatype Withdrawn = Withdrawn(fee: u64, net: u64, calls: seq<TokenCall>, event: WithdrawEvent)

  datatype FeeSplit = FeeSplit(fee: u64, net: u64)

  /**
   * `amount * fee_rate / 100` and `amount - fee`, both checked: the split
   * exists when neither overflows, and then fee and net add up to the amount.
   */
  function SplitFee(amount: u64, feeRate: u64): (r: Option<FeeSplit>)
    ensures r.Some? <==> amount * feeRate <= U64_MAX && amount * feeRate / 100 <= amount
    ensures r.Some? ==> r.value.fee == amount * feeRate / 100 && r.value.fee + r.value.net == amount
  {
    var product :- CheckedMul(amount, feeRate);
    var fee: u64 := product / 100;
    var net :- CheckedSub(amount, fee);
    Some(FeeSplit(fee, net))
  }

  /** With a rate of at most 100 percent the fee never exceeds the amount. */
  lemma FeeAtMostAmount(amount: u64, feeRate: u64)
    requires feeRate <= 100 && amount * feeRate <= U64_MAX
    ensures SplitFee(amount, feeRate).Some? && SplitFee(amount, feeRate).value.fee <= amount
  {
    MulMonotone(feeRate, 100, amount);
    assert amount * feeRate <= amount * 100;
    DivMonotone(amount * feeRate, amount * 100, 100);
  }

  /** At the installed 2 percent rate the fee is the amount divided by 50, rounded down. */
  lemma DefaultFeeSplit(amount: u64)
    requires amount * 2 <= U64_MAX
    ensures SplitFee(amount, DEFAULT_FEE_RATE) == Some(FeeSplit(amount / 50, amount - amount / 50))
  {
    FeeAtMostAmount(amount, DEFAULT_FEE_RATE);
    assert amount * 2 / 100 == amount / 50;
  }

  /** The two transfers of a withdrawal: fee to the treasury, net to the user. */
  function WithdrawCalls(accounts: WithdrawAccounts, split: FeeSplit): seq<TokenCall> {
    [Transfer(accounts.poolLiquidity, accounts.treasury, accounts.pool, split.fee),
     Transfer(accounts.poolLiquidity, accounts.userLiquidity, accounts.pool, split.net)]
  }

  /** The three `require!` checks of Withdraw. */
  predicate WithdrawAdmitted(pool: PoolState, position: PositionState, amount: u64, now: i64) {
    !pool.isPaused && now >= position.unlockTime && position.amount >= amount
  }

  /**
   * `withdraw`: admission checks in source order (paused, still locked,
   * insufficient funds), then the fee split, the debit of position and pool
   * (the pool debit can underflow), and the two transfers.
   */
  function Withdraw(pool: PoolState, position: PositionState, accounts: WithdrawAccounts,
                    token: TokenProgram, amount: u64, now: i64): (r: Tx<Withdrawn>)
    // rejections, in order
    ensures pool.isPaused ==> r == Abort(Rejected(PoolPaused))
    ensures !pool.isPaused && now < position.unlockTime ==> r == Abort(Rejected(StillLocked))
    ensures !pool.isPaused && now >= position.unlockTime && position.amount < amount ==>
              r == Abort(Rejected(InsufficientFunds))
    // an admitted withdrawal commits exactly when nothing overflows and both transfers go through
    ensures r.Commit? <==>
              && WithdrawAdmitted(pool, position, amount, now)
              && SplitFee(amount, pool.feeRate).Some?
              && pool.totalLiquidity >= amount
              && token(WithdrawCalls(accounts, SplitFee(amount, pool.feeRate).value)[0])
              && token(WithdrawCalls(accounts, SplitFee(amount, pool.feeRate).value)[1])
    ensures r.Abort? && WithdrawAdmitted(pool, position, amount, now) ==>
              (r.failure == Overflow <==> SplitFee(amount, pool.feeRate).None? || pool.totalLiquidity < amount)
              && (r.failure == Overflow || r.failure == TokenCallFailed)
    // effects of a committed withdrawal
    ensures r.Commit? ==> r.value.fee == amount * pool.feeRate / 100 && r.value.fee + r.value.net == amount
    ensures r.Commit? ==> r.position.amount == position.amount - amount && r.position.(amount := position.amount) == position
    ensures r.Commit? ==> r.pool.totalLiquidity == pool.totalLiquidity - amount && r.pool.(totalLiquidity := pool.totalLiquidity) == pool
    ensures r.Commit? ==> r.value.calls == WithdrawCalls(accounts, FeeSplit(r.value.fee, r.value.net))
    ensures r.Commit? ==> r.value.event == WithdrawEvent(accounts.user, amount, r.value.fee, now)
  {
    if pool.isPaused then Abort(Rejected(PoolPaused))
    else if now < position.unlockTime then Abort(Rejected(StillLocked))
    else if position.amount < amount then Abort(Rejected(InsufficientFunds))
    else
      match SplitFee(amount, pool.feeRate)
      case None => Abort(Overflow)
      case Some(split) =>
        if pool.totalLiquidity < amount then Abort(Overflow)
        else
          var calls := WithdrawCalls(accounts, split);
          if !token(calls[0]) || !token(calls[1]) then Abort(TokenCallFailed)
          else
            Commit(
              pool.(totalLiquidity := pool.totalLiquidity - amount),
              position.(amount := position.amount - amount),
              Withdrawn(split.fee, split.net, calls, WithdrawEvent(accounts.user, amount, split.fee, now)))
  }

  // ---------------------------------------------------------------------------
  // toggle_pause

  /** `toggle_pause`: only the stored admin key may flip the pause flag. */
  function TogglePause(pool: PoolState, caller: Pubkey): (r: Result<PoolState, Failure>)
    ensures r.Ok? <==> caller == pool.admin
    ensures r.Ok? ==> r.value.isPaused == !pool.isPaused && r.value.(isPaused := pool.isPaused) == pool
    ensures r.Err? ==> r.error == Rejected(Unauthorized)
  {
    if caller != pool.admin then Err(Rejected(Unauthorized))
    else Ok(pool.(isPaused := !pool.isPaused))
  }

  /** Toggling twice with the admin key restores the pool. */
  lemma TogglePauseTwiceRestores(pool: PoolState)
    ensures TogglePause(pool, pool.admin).Ok?
    ensures TogglePause(TogglePause(pool, pool.admin).value, pool.admin) == Ok(pool)
  {
  }

  /**
   * Since initialization never writes `admin`, a freshly initialized pool can
   * be paused only by a caller presenting the default key.
   */
  lemma InitializedPoolTogglableOnlyByDefaultKey(tokenMint: Pubkey, rewardCoefficient: u64, maxDepositPerUser: u64,
                                                  totalMaxLiquidity: u64, now: i64, caller: Pubkey)
    ensures var pool := InitializePool(tokenMint, rewardCoefficient, maxDepositPerUser, totalMaxLiquidity, now);
            TogglePause(pool, caller).Ok? <==> caller == DefaultPubkey
  {
  }
}
