/**
 * The program's persistent records (the `Pool` and `StakedPosition`
 * accounts), its error enum, the token-program calls it issues and the
 * events it emits, as values.
 */
module Accounts {
  import opened Integers

  /** A public key, as its bytes. Solana keys have 32; no operation of the model depends on the length. */
  datatype Pubkey = Pubkey(bytes: seq<bv8>)

  /** `Pubkey::default()`: all zero bytes, which is also what a freshly allocated account holds. */
  const DefaultPubkey: Pubkey := Pubkey([0, 0, 0, 0, 0, 0, 0, 0, 0, 0, 0, 0, 0, 0, 0, 0,
                                          0, 0, 0, 0, 0, 0, 0, 0, 0, 0, 0, 0, 0, 0, 0, 0])

  /** The `ErrorCode` enum, in source order. */
  datatype ErrorCode =
    | InsufficientFunds
    | InvalidAuthority
    | StillLocked
    | PoolLiquidityExceeded
    | UserDepositLimitExceeded
    | PoolPaused
    | Unauthorized

  /**
   * Why a transaction aborted: a `require!` that failed with its code, an
   * arithmetic overflow (a panic under checked arithmetic), or a token-program
   * call that the token program refused.
   */
  datatype Failure = Rejected(code: ErrorCode) | Overflow | TokenCallFailed

  datatype PoolState = PoolState(
    admin: Pubkey,
    tokenMint: Pubkey,
    totalLiquidity: u64,
    rewardCoefficient: u64,
    feeRate: u64,
    lastUpdate: i64,
    topStaker: Pubkey,
    topStakerAmount: u64,
    totalRewardsDistributed: u64,
    maxDepositPerUser: u64,
    totalMaxLiquidity: u64,
    isPaused: bool)

  datatype PositionState = PositionState(
    amount: u64,
    stakeTime: i64,
    unlockTime: i64,
    multiplier: u64)

  /** The contents of a newly allocated Pool account, before any field is written. */
  const ZeroedPool: PoolState :=
    PoolState(DefaultPubkey, DefaultPubkey, 0, 0, 0, 0, DefaultPubkey, 0, 0, 0, 0, false)

  /** The contents of a newly allocated StakedPosition account. */
  const ZeroedPosition: PositionState := PositionState(0, 0, 0, 0)

  /** A cross-program call into the token program. */
  datatype TokenCall =
    | Transfer(from: Pubkey, to: Pubkey, authority: Pubkey, amount: u64)
    | MintTo(mint: Pubkey, to: Pubkey, authority: Pubkey, amount: u64)

  /** The token program, seen from outside: whether it carries out a given call. */
  type TokenProgram = TokenCall -> bool

  datatype StakeEvent = StakeEvent(user: Pubkey, amount: u64, rewards: u64)

  datatype WithdrawEvent = WithdrawEvent(user: Pubkey, amount: u64, feeAmount: u64, timestamp: i64)
}
