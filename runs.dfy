/**
 * Sequences of instructions against one pool and the positions staked in it.
 * Positions are numbered; an instruction naming a position account that does
 * not exist is refused by the host before the program runs, so it changes
 * nothing. The lemmas state what holds across any such sequence.
 *
 * The program does not tie a position account to a pool: any position can be
 * passed with any pool. This module assumes each position is used with this
 * one pool only, so its accounting holds in that closed world.
 */
module Runs {
  import opened Wrappers
  import opened Integers
  import opened Accounts
  import opened Transitions

  /** What the outside world decides: the token program and the derived mint authority. */
  datatype Host = Host(token: TokenProgram, derivedMintAuthority: Pubkey)

  datatype Farm = Farm(pool: PoolState, positions: seq<PositionState>)

  datatype Op =
    | StakeOp(index: nat, stakeAccounts: StakeAccounts, amount: u64, autoCompound: bool,
              lockupPeriod: Option<u64>, now: i64)
    | WithdrawOp(index: nat, withdrawAccounts: WithdrawAccounts, amount: u64, now: i64)
    | TogglePauseOp(caller: Pubkey)

  /** One instruction: committed records replace the old ones; an abort changes nothing. */
  function Step(host: Host, farm: Farm, op: Op): Farm {
    match op
    case StakeOp(i, accounts, amount, autoCompound, lockupPeriod, now) =>
      if i >= |farm.positions| then farm
      else
        (match Stake(farm.pool, farm.positions[i], accounts, host.derivedMintAuthority, host.token,
                     amount, autoCompound, lockupPeriod, now)
         case Commit(p, q, _) => Farm(p, farm.positions[i := q])
         case Abort(_) => farm)
    case WithdrawOp(i, accounts, amount, now) =>
      if i >= |farm.positions| then farm
      else
        (match Withdraw(farm.pool, farm.positions[i], accounts, host.token, amount, now)
         case Commit(p, q, _) => Farm(p, farm.positions[i := q])
         case Abort(_) => farm)
    case TogglePauseOp(caller) =>
      match TogglePause(farm.pool, caller)
      case Ok(p) => farm.(pool := p)
      case Err(_) => farm
  }

  function Run(host: Host, farm: Farm, ops: seq<Op>): Farm
    decreases |ops|
  {
    if ops == [] then farm else Run(host, Step(host, farm, ops[0]), ops[1..])
  }

  /** The reward a step compounds into a position (zero unless it is a committed compounding stake). */
  function Compounded(host: Host, farm: Farm, op: Op): nat {
    match op
    case StakeOp(i, accounts, amount, autoCompound, lockupPeriod, now) =>
      if i >= |farm.positions| || !autoCompound then 0
      else
        (match Stake(farm.pool, farm.positions[i], accounts, host.derivedMintAuthority, host.token,
                     amount, autoCompound, lockupPeriod, now)
         case Commit(_, _, staked) => staked.reward
         case Abort(_) => 0)
    case _ => 0
  }

  function CompoundedRun(host: Host, farm: Farm, ops: seq<Op>): nat
    decreases |ops|
  {
    if ops == [] then 0 else Compounded(host, farm, ops[0]) + CompoundedRun(host, Step(host, farm, ops[0]), ops[1..])
  }

  /** The sum of the positions' balances. */
  function Total(positions: seq<PositionState>): nat {
    if positions == [] then 0 else positions[0].amount + Total(positions[1..])
  }

  /** `n` freshly allocated positions. */
  function Fresh(n: nat): (s: seq<PositionState>)
    ensures |s| == n
  {
    if n == 0 then [] else [ZeroedPosition] + Fresh(n - 1)
  }

  lemma {:induction false} TotalUpdate(s: seq<PositionState>, i: nat, v: PositionState)
    requires i < |s|
    ensures Total(s[i := v]) == Total(s) - s[i].amount + v.amount
  {
    if i == 0 {
      assert s[i := v][1..] == s[1..];
    } else {
      assert s[i := v][1..] == s[1..][i - 1 := v];
      TotalUpdate(s[1..], i - 1, v);
    }
  }

  lemma {:induction false} FreshTotal(n: nat)
    ensures Total(Fresh(n)) == 0
    ensures forall i :: 0 <= i < n ==> Fresh(n)[i] == ZeroedPosition
  {
    if n > 0 {
      FreshTotal(n - 1);
      assert Fresh(n)[1..] == Fresh(n - 1);
    }
  }

  // ---------------------------------------------------------------------------
  // What never changes and what never decreases

  /** `after` keeps the pool's configuration and the number of positions, and no counter went down. */
  predicate Evolved(before: Farm, after: Farm) {
    && before.pool.admin == after.pool.admin
    && before.pool.tokenMint == after.pool.tokenMint
    && before.pool.rewardCoefficient == after.pool.rewardCoefficient
    && before.pool.feeRate == after.pool.feeRate
    && before.pool.lastUpdate == after.pool.lastUpdate
    && before.pool.maxDepositPerUser == after.pool.maxDepositPerUser
    && before.pool.totalMaxLiquidity == after.pool.totalMaxLiquidity
    && before.pool.totalRewardsDistributed <= after.pool.totalRewardsDistributed
    && before.pool.topStakerAmount <= after.pool.topStakerAmount
    && |before.positions| == |after.positions|
  }

  lemma StepEvolves(host: Host, farm: Farm, op: Op)
    ensures Evolved(farm, Step(host, farm, op))
  {
  }

  /**
   * Across any sequence of instructions the configuration stays fixed and
   * neither the reward counter nor the top staker amount ever decreases.
   */
  lemma {:induction false} RunEvolves(host: Host, farm: Farm, ops: seq<Op>)
    ensures Evolved(farm, Run(host, farm, ops))
    decreases |ops|
  {
    if ops != [] {
      StepEvolves(host, farm, ops[0]);
      RunEvolves(host, Step(host, farm, ops[0]), ops[1..]);
    }
  }

  // ---------------------------------------------------------------------------
  // Invariants of every reachable farm

  /**
   * The pool stays within its liquidity cap, keeps the 2 percent fee, and the
   * leaderboard's amount is at least every position's balance.
   */
  predicate Invariant(farm: Farm) {
    && farm.pool.totalLiquidity <= farm.pool.totalMaxLiquidity
    && farm.pool.feeRate == DEFAULT_FEE_RATE
    && forall i :: 0 <= i < |farm.positions| ==> farm.positions[i].amount <= farm.pool.topStakerAmount
  }

  lemma StepPreservesInvariant(host: Host, farm: Farm, op: Op)
    requires Invariant(farm)
    ensures Invariant(Step(host, farm, op))
  {
    var after := Step(host, farm, op);
    forall j | 0 <= j < |after.positions|
      ensures after.positions[j].amount <= after.pool.topStakerAmount
    {
      assert farm.positions[j].amount <= farm.pool.topStakerAmount;
    }
  }

  lemma {:induction false} RunPreservesInvariant(host: Host, farm: Farm, ops: seq<Op>)
    requires Invariant(farm)
    ensures Invariant(Run(host, farm, ops))
    decreases |ops|
  {
    if ops != [] {
      StepPreservesInvariant(host, farm, ops[0]);
      RunPreservesInvariant(host, Step(host, farm, ops[0]), ops[1..]);
    }
  }

  // ---------------------------------------------------------------------------
  // Liquidity accounting

  /**
   * One step moves the gap between the positions' total and the pool's
   * liquidity by exactly the reward it compounds: stakes and withdrawals move
   * both sides by the same amount, compounding moves only the positions.
   */
  lemma StepAccounting(host: Host, farm: Farm, op: Op)
    ensures Total(Step(host, farm, op).positions) - Step(host, farm, op).pool.totalLiquidity
            == Total(farm.positions) - farm.pool.totalLiquidity + Compounded(host, farm, op)
  {
    match op
    case StakeOp(i, accounts, amount, autoCompound, lockupPeriod, now) =>
      if i < |farm.positions| {
        var t := Stake(farm.pool, farm.positions[i], accounts, host.derivedMintAuthority, host.token,
                       amount, autoCompound, lockupPeriod, now);
        if t.Commit? { TotalUpdate(farm.positions, i, t.position); }
      }
    case WithdrawOp(i, accounts, amount, now) =>
      if i < |farm.positions| {
        var t := Withdraw(farm.pool, farm.positions[i], accounts, host.token, amount, now);
        if t.Commit? { TotalUpdate(farm.positions, i, t.position); }
      }
    case TogglePauseOp(_) =>
  }

  /** Over a sequence the gap grows by exactly the total compounded reward. */
  lemma {:induction false} RunAccounting(host: Host, farm: Farm, ops: seq<Op>)
    ensures Total(Run(host, farm, ops).positions) - Run(host, farm, ops).pool.totalLiquidity
            == Total(farm.positions) - farm.pool.totalLiquidity + CompoundedRun(host, farm, ops)
    decreases |ops|
  {
    if ops != [] {
      StepAccounting(host, farm, ops[0]);
      RunAccounting(host, Step(host, farm, ops[0]), ops[1..]);
    }
  }

  // ---------------------------------------------------------------------------
  // The deposit cap without compounding

  predicate WithinDepositCap(farm: Farm) {
    forall i :: 0 <= i < |farm.positions| ==> farm.positions[i].amount <= farm.pool.maxDepositPerUser
  }

  predicate NoCompounding(ops: seq<Op>) {
    forall k :: 0 <= k < |ops| ==> !(ops[k].StakeOp? && ops[k].autoCompound)
  }

  lemma StepKeepsDepositCap(host: Host, farm: Farm, op: Op)
    requires WithinDepositCap(farm) && !(op.StakeOp? && op.autoCompound)
    ensures WithinDepositCap(Step(host, farm, op))
  {
    var after := Step(host, farm, op);
    forall j | 0 <= j < |after.positions|
      ensures after.positions[j].amount <= after.pool.maxDepositPerUser
    {
      assert farm.positions[j].amount <= farm.pool.maxDepositPerUser;
    }
  }

  /** Without compounding, no position ever holds more than the per-user cap. */
  lemma {:induction false} RunKeepsDepositCap(host: Host, farm: Farm, ops: seq<Op>)
    requires WithinDepositCap(farm) && NoCompounding(ops)
    ensures WithinDepositCap(Run(host, farm, ops))
    decreases |ops|
  {
    if ops != [] {
      StepKeepsDepositCap(host, farm, ops[0]);
      assert NoCompounding(ops[1..]) by {
        forall k | 0 <= k < |ops[1..]| ensures !(ops[1..][k].StakeOp? && ops[1..][k].autoCompound) {
          assert ops[1..][k] == ops[k + 1];
        }
      }
      RunKeepsDepositCap(host, Step(host, farm, ops[0]), ops[1..]);
    }
  }

  // ---------------------------------------------------------------------------
  // Pausing

  predicate NoToggleBy(ops: seq<Op>, key: Pubkey) {
    forall k :: 0 <= k < |ops| ==> !(ops[k].TogglePauseOp? && ops[k].caller == key)
  }

  /** The pause flag changes only through `toggle_pause` called with the admin key. */
  lemma {:induction false} PauseFlagOnlyMovedByAdmin(host: Host, farm: Farm, ops: seq<Op>)
    requires NoToggleBy(ops, farm.pool.admin)
    ensures Run(host, farm, ops).pool.isPaused == farm.pool.isPaused
    decreases |ops|
  {
    if ops != [] {
      var next := Step(host, farm, ops[0]);
      assert next.pool.isPaused == farm.pool.isPaused && next.pool.admin == farm.pool.admin;
      assert NoToggleBy(ops[1..], next.pool.admin) by {
        forall k | 0 <= k < |ops[1..]| ensures !(ops[1..][k].TogglePauseOp? && ops[1..][k].caller == next.pool.admin) {
          assert ops[1..][k] == ops[k + 1];
        }
      }
      PauseFlagOnlyMovedByAdmin(host, next, ops[1..]);
    }
  }

  // ---------------------------------------------------------------------------
  // Farms that start from initialize_pool

  function InitialFarm(tokenMint: Pubkey, rewardCoefficient: u64, maxDepositPerUser: u64,
                       totalMaxLiquidity: u64, now: i64, positions: nat): Farm
  {
    Farm(InitializePool(tokenMint, rewardCoefficient, maxDepositPerUser, totalMaxLiquidity, now), Fresh(positions))
  }

  /**
   * Everything reachable from initialization: the invariant holds, the admin
   * is still the default key, the positions' total is the pool's liquidity
   * plus every compounded reward (so exactly the liquidity when nothing was
   * compounded), and the pool is paused only if some instruction called
   * `toggle_pause` with the default key.
   */
  lemma FromInitialization(host: Host, tokenMint: Pubkey, rewardCoefficient: u64, maxDepositPerUser: u64,
                           totalMaxLiquidity: u64, now: i64, positions: nat, ops: seq<Op>)
    ensures var farm := Run(host, InitialFarm(tokenMint, rewardCoefficient, maxDepositPerUser, totalMaxLiquidity, now, positions), ops);
            && Invariant(farm)
            && farm.pool.admin == DefaultPubkey
            && |farm.positions| == positions
            && Total(farm.positions) == farm.pool.totalLiquidity
               + CompoundedRun(host, InitialFarm(tokenMint, rewardCoefficient, maxDepositPerUser, totalMaxLiquidity, now, positions), ops)
            && (NoToggleBy(ops, DefaultPubkey) ==> !farm.pool.isPaused)
            && (NoCompounding(ops) ==> WithinDepositCap(farm))
  {
    var start := InitialFarm(tokenMint, rewardCoefficient, maxDepositPerUser, totalMaxLiquidity, now, positions);
    FreshTotal(positions);
    RunEvolves(host, start, ops);
    RunPreservesInvariant(host, start, ops);
    RunAccounting(host, start, ops);
    if NoToggleBy(ops, DefaultPubkey) { PauseFlagOnlyMovedByAdmin(host, start, ops); }
    if NoCompounding(ops) { RunKeepsDepositCap(host, start, ops); }
  }
}
