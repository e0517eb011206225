/**
 * Concrete runs of the instructions: the worked examples, the capacity and
 * lockup scenarios, the flow of the repository's integration test, and the
 * consequence of compounding rewards without crediting the pool.
 */
module Scenarios {
  import opened Wrappers
  import opened Integers
  import opened Accounts
  import opened Reward
  import opened Transitions
  import Program

  const T0: i64 := 1_700_000_000
  const SEVEN_DAYS: u64 := 60 * 60 * 24 * 7

  /**
   * A token program that carries out every call. In the scenarios the mint
   * authority passed in is also the derived one, so mints are not refused.
   */
  function AcceptAll(): TokenProgram {
    (c: TokenCall) => true
  }

  /** Withdrawing 1000 at the 2 percent rate: fee 20, net 980. */
  lemma FeeExample()
    ensures SplitFee(1000, DEFAULT_FEE_RATE) == Some(FeeSplit(20, 980))
  {
    DefaultFeeSplit(1000);
  }

  /** A pool capped at 500 accepts a stake of 500 and then refuses one more unit. */
  lemma LiquidityCapScenario(user: Pubkey, mint: Pubkey, to: Pubkey, authority: Pubkey)
    ensures var pool := InitializePool(mint, 100, 1000, 500, T0);
            var first := Stake(pool, ZeroedPosition, StakeAccounts(user, mint, to, authority), authority, AcceptAll(),
                               500, false, None, T0);
            && first.Commit? && first.pool.totalLiquidity == 500
            && Stake(first.pool, first.position, StakeAccounts(user, mint, to, authority), authority, AcceptAll(),
                     1, false, None, T0) == Abort(Rejected(PoolLiquidityExceeded))
  {
    assert CalculateBoostedReward(500, T0, T0, 100) == Some(50000);
  }

  /** A one-hour lockup refuses a withdrawal after 1000 seconds and allows it after 3600. */
  lemma LockupScenario(accounts: WithdrawAccounts, user: Pubkey, mint: Pubkey, to: Pubkey, authority: Pubkey)
    ensures var pool := InitializePool(mint, 100, 1000, 10000, T0);
            var staked := Stake(pool, ZeroedPosition, StakeAccounts(user, mint, to, authority), authority, AcceptAll(),
                                500, false, Some(3600), T0);
            && staked.Commit? && staked.position.unlockTime == T0 + 3600
            && Withdraw(staked.pool, staked.position, accounts, AcceptAll(), 500, T0 + 1000) == Abort(Rejected(StillLocked))
            && Withdraw(staked.pool, staked.position, accounts, AcceptAll(), 500, T0 + 3600).Commit?
  {
    assert CalculateBoostedReward(500, T0, T0, 100) == Some(50000);
    DefaultFeeSplit(500);
  }

  /**
   * Compounding credits the position but not the pool. For a sole staker the
   * compounded balance is then above the pool's liquidity, so withdrawing it
   * in full would take the liquidity below zero, which panics; the deposit
   * itself can still be withdrawn.
   */
  lemma CompoundedBalanceCannotBeWithdrawn(accounts: WithdrawAccounts, user: Pubkey, mint: Pubkey, to: Pubkey, authority: Pubkey)
    ensures var pool := InitializePool(mint, 100, 1000, 10000, T0);
            var staked := Stake(pool, ZeroedPosition, StakeAccounts(user, mint, to, authority), authority, AcceptAll(),
                                1000, true, None, T0);
            && staked.Commit?
            && staked.value.reward == 101000
            && staked.position.amount == 102000
            && staked.pool.totalLiquidity == 1000
            && Withdraw(staked.pool, staked.position, accounts, AcceptAll(), 102000, T0) == Abort(Overflow)
            && Withdraw(staked.pool, staked.position, accounts, AcceptAll(), 1000, T0).Commit?
  {
    RewardAtBaselineExample(T0);
    DefaultFeeSplit(102000);
    DefaultFeeSplit(1000);
  }

  /**
   * With two stakers the compounded reward is paid out of the other staker's
   * deposit. A stakes 1000 and has the reward minted elsewhere; B stakes 1 and
   * compounds, holding 101 against a liquidity of 1001. B's full withdrawal
   * commits and leaves 900, so A's full withdrawal of 1000 then underflows.
   */
  lemma CompoundedRewardPaidFromOtherDeposits(accounts: WithdrawAccounts, a: Pubkey, b: Pubkey, mint: Pubkey,
                                              to: Pubkey, authority: Pubkey)
    ensures var pool := InitializePool(mint, 100, 1000, 10000, T0);
            var first := Stake(pool, ZeroedPosition, StakeAccounts(a, mint, to, authority), authority, AcceptAll(),
                               1000, false, None, T0);
            && first.Commit?
            && var second := Stake(first.pool, ZeroedPosition, StakeAccounts(b, mint, to, authority), authority,
                                   AcceptAll(), 1, true, None, T0);
               && second.Commit?
               && second.position.amount == 101 && second.pool.totalLiquidity == 1001
               && var out := Withdraw(second.pool, second.position, accounts, AcceptAll(), 101, T0);
                  && out.Commit? && out.pool.totalLiquidity == 900
                  && Withdraw(out.pool, first.position, accounts, AcceptAll(), 1000, T0) == Abort(Overflow)
  {
    RewardAtBaselineExample(T0);
    assert CalculateBoostedReward(1, T0, T0, 100) == Some(100);
    DefaultFeeSplit(101);
    DefaultFeeSplit(1000);
  }

  /** A caller other than the stored admin cannot pause, and the pool is left as it was. */
  lemma NonAdminCannotToggle(pool: PoolState, caller: Pubkey)
    requires caller != pool.admin
    ensures TogglePause(pool, caller) == Err(Rejected(Unauthorized))
  {
  }

  /**
   * The flow of the integration test, on the accounts themselves: stake 500
   * with a seven-day lockup (the position then holds 500), then withdraw
   * 200. Inside the lockup the withdrawal is refused; once it has passed the
   * position holds 300. Only the amounts and times are the test's: the test
   * passes a fresh keypair's key as the mint authority, which is never the
   * program-derived address, so its stake would be refused with
   * `InvalidAuthority`. Here the supplied authority is the derived one.
   */
  method IntegrationTestFlow(user: Pubkey, mint: Pubkey, userToken: Pubkey, authority: Pubkey,
                             accounts: WithdrawAccounts)
  {
    var pool := new Program.Pool.Initialize(mint, 100, 1000, 10000, T0);
    assert pool.rewardCoefficient == 100;
    var position := new Program.StakedPosition.Allocate();

    assert CalculateBoostedReward(500, T0, T0, 100) == Some(50000);
    var staked := pool.Stake(position, StakeAccounts(user, mint, userToken, authority), authority, AcceptAll(),
                             500, false, Some(SEVEN_DAYS), T0);
    assert staked.Ok? && staked.value.reward == 50000;
    assert position.amount == 500;

    var early := pool.Withdraw(position, accounts, AcceptAll(), 200, T0);
    assert early == Err(Rejected(StillLocked)) && position.amount == 500;

    DefaultFeeSplit(200);
    var late := pool.Withdraw(position, accounts, AcceptAll(), 200, T0 + SEVEN_DAYS as int);
    assert late.Ok? && late.value.fee == 4 && late.value.net == 196;
    assert position.amount == 300 && pool.totalLiquidity == 300;
  }
}
