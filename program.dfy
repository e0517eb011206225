/**
 * The program's instructions as the source writes them: methods that update
 * the fields of the `Pool` and `StakedPosition` accounts in place, one
 * statement at a time. The host runs each instruction as a transaction: if a
 * later step fails, every earlier write is discarded. The methods model that
 * discard explicitly by restoring the snapshot taken on entry. Each method is
 * proved to agree with the pure transition of the same name.
 */
module Program {
  import opened Wrappers
  import opened Integers
  import opened Accounts
  import opened Reward
  import Transitions

  /**
   * How the method's outcome and the accounts' new contents relate to the
   * pure transition `t`: on commit the result and the new records are those of
   * `t`; on abort the failure is that of `t` and both records are as before.
   */
  predicate Reflects<T(==)>(t: Transitions.Tx<T>, r: Result<T, Failure>,
                        pool: PoolState, position: PositionState,
                        oldPool: PoolState, oldPosition: PositionState)
  {
    match t
    case Commit(p, q, v) => r == Ok(v) && pool == p && position == q
    case Abort(f) => r == Err(f) && pool == oldPool && position == oldPosition
  }

  class StakedPosition {
    var amount: u64
    var stakeTime: i64
    var unlockTime: i64
    var multiplier: u64

    function State(): PositionState
      reads this
    {
      PositionState(amount, stakeTime, unlockTime, multiplier)
    }

    /** A newly allocated position account: all fields zero. */
    constructor Allocate()
      ensures State() == ZeroedPosition
    {
      amount, stakeTime, unlockTime, multiplier := 0, 0, 0, 0;
    }

    /** The host's rollback of this account to the contents `s`. */
    method Restore(s: PositionState)
      modifies this
      ensures State() == s
    {
      amount, stakeTime, unlockTime, multiplier := s.amount, s.stakeTime, s.unlockTime, s.multiplier;
    }
  }

  class Pool {
    var admin: Pubkey
    var tokenMint: Pubkey
    var totalLiquidity: u64
    var rewardCoefficient: u64
    var feeRate: u64
    var lastUpdate: i64
    var topStaker: Pubkey
    var topStakerAmount: u64
    var totalRewardsDistributed: u64
    var maxDepositPerUser: u64
    var totalMaxLiquidity: u64
    var isPaused: bool

    function State(): PoolState
      reads this
    {
      PoolState(admin, tokenMint, totalLiquidity, rewardCoefficient, feeRate, lastUpdate,
                topStaker, topStakerAmount, totalRewardsDistributed, maxDepositPerUser,
                totalMaxLiquidity, isPaused)
    }

    /** The host's rollback of this account to the contents `s`. */
    method Restore(s: PoolState)
      modifies this
      ensures State() == s
    {
      admin, tokenMint, totalLiquidity, rewardCoefficient := s.admin, s.tokenMint, s.totalLiquidity, s.rewardCoefficient;
      feeRate, lastUpdate, topStaker, topStakerAmount := s.feeRate, s.lastUpdate, s.topStaker, s.topStakerAmount;
      totalRewardsDistributed, maxDepositPerUser := s.totalRewardsDistributed, s.maxDepositPerUser;
      totalMaxLiquidity, isPaused := s.totalMaxLiquidity, s.isPaused;
    }

    /** Aborts the running instruction: both accounts go back to their snapshots. */
    method Rollback(position: StakedPosition, snapshot: PoolState, positionSnapshot: PositionState)
      modifies this, position
      ensures State() == snapshot && position.State() == positionSnapshot
    {
      Restore(snapshot);
      position.Restore(positionSnapshot);
    }

    /**
     * `initialize_pool`: the account is allocated zeroed, then every field but
     * `admin` is written.
     */
    constructor Initialize(tokenMint: Pubkey, rewardCoefficient: u64, maxDepositPerUser: u64,
                           totalMaxLiquidity: u64, now: i64)
      ensures State() == Transitions.InitializePool(tokenMint, rewardCoefficient, maxDepositPerUser, totalMaxLiquidity, now)
    {
      var zeroed := ZeroedPool;
      admin, this.tokenMint, totalLiquidity, this.rewardCoefficient := zeroed.admin, zeroed.tokenMint, zeroed.totalLiquidity, zeroed.rewardCoefficient;
      feeRate, lastUpdate, topStaker, topStakerAmount := zeroed.feeRate, zeroed.lastUpdate, zeroed.topStaker, zeroed.topStakerAmount;
      totalRewardsDistributed, this.maxDepositPerUser := zeroed.totalRewardsDistributed, zeroed.maxDepositPerUser;
      this.totalMaxLiquidity, isPaused := zeroed.totalMaxLiquidity, zeroed.isPaused;
      new;
      this.tokenMint := tokenMint;
      totalLiquidity := 0;
      this.rewardCoefficient := rewardCoefficient;
      feeRate := Transitions.DEFAULT_FEE_RATE;
      lastUpdate := now;
      topStaker := DefaultPubkey;
      topStakerAmount := 0;
      totalRewardsDistributed := 0;
      this.maxDepositPerUser := maxDepositPerUser;
      this.totalMaxLiquidity := totalMaxLiquidity;
      isPaused := false;
    }

    /** `stake`, statement by statement: the admission checks, then the credit. */
    method Stake(position: StakedPosition, accounts: Transitions.StakeAccounts,
                 derivedMintAuthority: Pubkey, token: TokenProgram,
                 amount: u64, autoCompound: bool, lockupPeriod: Option<u64>, now: i64)
      returns (r: Result<Transitions.Staked, Failure>)
      modifies this, position
      ensures Reflects(Transitions.Stake(old(State()), old(position.State()), accounts, derivedMintAuthority, token,
                                         amount, autoCompound, lockupPeriod, now),
                       r, State(), position.State(), old(State()), old(position.State()))
    {
      if isPaused { return Err(Rejected(PoolPaused)); }
      if totalLiquidity + amount > U64_MAX { return Err(Overflow); }
      if totalLiquidity + amount > totalMaxLiquidity { return Err(Rejected(PoolLiquidityExceeded)); }
      if position.amount + amount > U64_MAX { return Err(Overflow); }
      if position.amount + amount > maxDepositPerUser { return Err(Rejected(UserDepositLimitExceeded)); }
      r := Credit(position, accounts, derivedMintAuthority, token, amount, autoCompound, lockupPeriod, now);
    }

    /**
     * The statements of `stake` after its checks; any failure from here on
     * rolls both accounts back to their contents on entry.
     */
    method Credit(position: StakedPosition, accounts: Transitions.StakeAccounts,
                  derivedMintAuthority: Pubkey, token: TokenProgram,
                  amount: u64, autoCompound: bool, lockupPeriod: Option<u64>, now: i64)
      returns (r: Result<Transitions.Staked, Failure>)
      requires Transitions.StakeAdmitted(State(), position.State(), amount)
      modifies this, position
      ensures Reflects(Transitions.CreditStake(old(State()), old(position.State()), accounts, derivedMintAuthority, token,
                                               amount, autoCompound, lockupPeriod, now),
                       r, State(), position.State(), old(State()), old(position.State()))
    {
      var snapshot, positionSnapshot := State(), position.State();

      position.amount := position.amount + amount;
      position.stakeTime := now;

      if lockupPeriod.Some? {
        var unlockTime := now + AsI64(lockupPeriod.value);
        if !IsI64(unlockTime) {
          Rollback(position, snapshot, positionSnapshot);
          return Err(Overflow);
        }
        position.unlockTime := unlockTime;
      }

      totalLiquidity := totalLiquidity + amount;

      var computed := CalculateBoostedReward(position.amount, position.stakeTime, lastUpdate, rewardCoefficient);
      if computed.None? {
        Rollback(position, snapshot, positionSnapshot);
        return Err(Overflow);
      }
      r := Settle(position, accounts, derivedMintAuthority, token, amount, autoCompound, computed.value,
                  snapshot, positionSnapshot);
    }

    /**
     * The statements of `stake` from the reward on: compound or mint it, count
     * it, update the leaderboard. A failure restores the snapshots taken on
     * entry to the instruction.
     */
    method Settle(position: StakedPosition, accounts: Transitions.StakeAccounts,
                  derivedMintAuthority: Pubkey, token: TokenProgram,
                  amount: u64, autoCompound: bool, reward: u64,
                  snapshot: PoolState, positionSnapshot: PositionState)
      returns (r: Result<Transitions.Staked, Failure>)
      modifies this, position
      ensures Reflects(Transitions.SettleReward(old(State()), old(position.State()), accounts, derivedMintAuthority, token,
                                                amount, autoCompound, reward),
                       r, State(), position.State(), snapshot, positionSnapshot)
    {
      var calls: seq<TokenCall> := [];
      if autoCompound {
        if position.amount + reward > U64_MAX {
          Rollback(position, snapshot, positionSnapshot);
          return Err(Overflow);
        }
        position.amount := position.amount + reward;
      } else {
        var minted := Transitions.MintTokens(token, accounts.farmMint, accounts.userFarmToken,
                                             accounts.farmMintAuthority, derivedMintAuthority, reward);
        if minted.Err? {
          Rollback(position, snapshot, positionSnapshot);
          return Err(minted.error);
        }
        calls := [minted.value];
      }

      if totalRewardsDistributed + reward > U64_MAX {
        Rollback(position, snapshot, positionSnapshot);
        return Err(Overflow);
      }
      totalRewardsDistributed := totalRewardsDistributed + reward;

      if position.amount > topStakerAmount {
        topStaker := accounts.user;
        topStakerAmount := position.amount;
      }

      r := Ok(Transitions.Staked(reward, calls, StakeEvent(accounts.user, amount, reward)));
    }

    /** `withdraw`, statement by statement. */
    method Withdraw(position: StakedPosition, accounts: Transitions.WithdrawAccounts,
                    token: TokenProgram, amount: u64, now: i64)
      returns (r: Result<Transitions.Withdrawn, Failure>)
      modifies this, position
      ensures Reflects(Transitions.Withdraw(old(State()), old(position.State()), accounts, token, amount, now),
                       r, State(), position.State(), old(State()), old(position.State()))
    {
      var snapshot, positionSnapshot := State(), position.State();

      if isPaused { return Err(Rejected(PoolPaused)); }
      if now < position.unlockTime { return Err(Rejected(StillLocked)); }
      if position.amount < amount { return Err(Rejected(InsufficientFunds)); }

      if amount * feeRate > U64_MAX { return Err(Overflow); }
      var fee: u64 := amount * feeRate / 100;
      if amount - fee < 0 { return Err(Overflow); }
      var netAmount: u64 := amount - fee;

      position.amount := position.amount - amount;
      if totalLiquidity - amount < 0 {
        Rollback(position, snapshot, positionSnapshot);
        return Err(Overflow);
      }
      totalLiquidity := totalLiquidity - amount;

      var feeCall := Transfer(accounts.poolLiquidity, accounts.treasury, accounts.pool, fee);
      if !token(feeCall) {
        Rollback(position, snapshot, positionSnapshot);
        return Err(TokenCallFailed);
      }
      var netCall := Transfer(accounts.poolLiquidity, accounts.userLiquidity, accounts.pool, netAmount);
      if !token(netCall) {
        Rollback(position, snapshot, positionSnapshot);
        return Err(TokenCallFailed);
      }

      r := Ok(Transitions.Withdrawn(fee, netAmount, [feeCall, netCall], WithdrawEvent(accounts.user, amount, fee, now)));
    }

    /** `toggle_pause`. */
    method TogglePause(caller: Pubkey) returns (r: Result<(), Failure>)
      modifies this
      ensures match Transitions.TogglePause(old(State()), caller)
              case Ok(p) => r == Ok(()) && State() == p
              case Err(f) => r == Err(f) && State() == old(State())
    {
      if caller != admin { return Err(Rejected(Unauthorized)); }
      isPaused := !isPaused;
      r := Ok(());
    }
  }
}
