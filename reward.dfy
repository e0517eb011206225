/**
 * The boosted-reward formula of `calculate_boosted_reward`: a time multiplier
 * (+1 per full day since the pool's baseline), a size multiplier (+1 per 1000
 * units staked), the pool's coefficient, and one division by 100 * 100.
 */
module Reward {
  import opened Wrappers
  import opened Integers

  const SECONDS_PER_DAY: nat := 86400
  const AMOUNT_PER_BONUS_POINT: nat := 1000
  const MULTIPLIER_SCALE: nat := 10000

  /** Seconds between the baseline and the stake, never negative. */
  function ElapsedTime(stakeTime: int, lastUpdate: int): nat {
    if stakeTime - lastUpdate > 0 then stakeTime - lastUpdate else 0
  }

  /** Percentage multiplier: 100 plus one per full day elapsed. */
  function TimeMultiplier(stakeTime: int, lastUpdate: int): nat {
    100 + ElapsedTime(stakeTime, lastUpdate) / SECONDS_PER_DAY
  }

  /** Percentage multiplier: 100 plus one per full 1000 units staked. */
  function AmountMultiplier(amount: nat): nat {
    100 + amount / AMOUNT_PER_BONUS_POINT
  }

  /** The four-factor product before the final division. */
  function RewardProduct(amount: nat, stakeTime: int, lastUpdate: int, coefficient: nat): nat {
    amount * TimeMultiplier(stakeTime, lastUpdate) * AmountMultiplier(amount) * coefficient
  }

  /** The reward on unbounded integers: the reference the u64 code is held to. */
  function IdealReward(amount: nat, stakeTime: int, lastUpdate: int, coefficient: nat): nat {
    RewardProduct(amount, stakeTime, lastUpdate, coefficient) / MULTIPLIER_SCALE
  }

  /**
   * The program's computation on i64/u64: the subtraction and the three
   * multiplications are checked (left to right), and any overflow panics.
   * It succeeds exactly when every intermediate value fits, and then agrees
   * with the unbounded formula.
   */
  function CalculateBoostedReward(amount: u64, stakeTime: i64, lastUpdate: i64, rewardCoefficient: u64): (r: Option<u64>)
    ensures r.Some? <==>
              && IsI64(stakeTime - lastUpdate)
              && amount * TimeMultiplier(stakeTime, lastUpdate) <= U64_MAX
              && amount * TimeMultiplier(stakeTime, lastUpdate) * AmountMultiplier(amount) <= U64_MAX
              && RewardProduct(amount, stakeTime, lastUpdate, rewardCoefficient) <= U64_MAX
    ensures r.Some? ==> r.value == IdealReward(amount, stakeTime, lastUpdate, rewardCoefficient)
  {
    var difference :- CheckedSubI64(stakeTime, lastUpdate);
    var elapsedTime: u64 := if difference > 0 then difference else 0;
    var timeMultiplier: u64 := 100 + elapsedTime / 86400;
    var amountMultiplier: u64 := 100 + amount / 1000;
    var p :- CheckedMul(amount, timeMultiplier);
    var p :- CheckedMul(p, amountMultiplier);
    var p :- CheckedMul(p, rewardCoefficient);
    Some(p / 10000)
  }

  lemma MulMonotone(a: int, b: int, c: int)
    requires 0 <= c && a <= b
    ensures a * c <= b * c
  {
  }

  lemma DivMonotone(x: int, y: int, d: int)
    requires 0 < d && x <= y
    ensures x / d <= y / d
  {
    if x / d > y / d {
      MulMonotone(y / d + 1, x / d, d);
      assert false;
    }
  }

  /** Staking at or before the baseline earns exactly the base time multiplier. */
  lemma NoTimeBonusBeforeBaseline(stakeTime: int, lastUpdate: int)
    requires stakeTime <= lastUpdate
    ensures TimeMultiplier(stakeTime, lastUpdate) == 100
  {
  }

  /** Both multipliers are at least 100, so the reward is at least amount * coefficient. */
  lemma RewardCoversPrincipal(amount: nat, stakeTime: int, lastUpdate: int, coefficient: nat)
    ensures IdealReward(amount, stakeTime, lastUpdate, coefficient) >= amount * coefficient
  {
    var tm, am := TimeMultiplier(stakeTime, lastUpdate), AmountMultiplier(amount);
    MulMonotone(100, tm, amount);
    assert amount * 100 <= amount * tm;
    MulMonotone(amount * 100, amount * tm, am);
    MulMonotone(100, am, amount * 100);
    assert amount * 100 * 100 <= amount * tm * am;
    MulMonotone(amount * 100 * 100, amount * tm * am, coefficient);
    assert amount * 100 * 100 * coefficient == amount * coefficient * MULTIPLIER_SCALE;
    assert RewardProduct(amount, stakeTime, lastUpdate, coefficient) >= amount * coefficient * MULTIPLIER_SCALE;
  }

  /** A larger stake never earns a smaller reward. */
  lemma RewardMonotoneInAmount(a1: nat, a2: nat, stakeTime: int, lastUpdate: int, coefficient: nat)
    requires a1 <= a2
    ensures IdealReward(a1, stakeTime, lastUpdate, coefficient) <= IdealReward(a2, stakeTime, lastUpdate, coefficient)
  {
    var tm := TimeMultiplier(stakeTime, lastUpdate);
    var am1, am2 := AmountMultiplier(a1), AmountMultiplier(a2);
    DivMonotone(a1, a2, AMOUNT_PER_BONUS_POINT);
    MulMonotone(a1, a2, tm);
    MulMonotone(am1, am2, a2 * tm);
    MulMonotone(a1 * tm, a2 * tm, am1);
    assert a1 * tm * am1 <= a2 * tm * am2;
    MulMonotone(a1 * tm * am1, a2 * tm * am2, coefficient);
    DivMonotone(RewardProduct(a1, stakeTime, lastUpdate, coefficient), RewardProduct(a2, stakeTime, lastUpdate, coefficient), MULTIPLIER_SCALE);
  }

  /** Since the baseline never moves, a later stake never earns a smaller reward. */
  lemma RewardMonotoneInStakeTime(amount: nat, t1: int, t2: int, lastUpdate: int, coefficient: nat)
    requires t1 <= t2
    ensures IdealReward(amount, t1, lastUpdate, coefficient) <= IdealReward(amount, t2, lastUpdate, coefficient)
  {
    var tm1, tm2 := TimeMultiplier(t1, lastUpdate), TimeMultiplier(t2, lastUpdate);
    var am := AmountMultiplier(amount);
    DivMonotone(ElapsedTime(t1, lastUpdate), ElapsedTime(t2, lastUpdate), SECONDS_PER_DAY);
    MulMonotone(tm1, tm2, amount);
    assert amount * tm1 <= amount * tm2;
    MulMonotone(amount * tm1, amount * tm2, am);
    MulMonotone(amount * tm1 * am, amount * tm2 * am, coefficient);
    DivMonotone(RewardProduct(amount, t1, lastUpdate, coefficient), RewardProduct(amount, t2, lastUpdate, coefficient), MULTIPLIER_SCALE);
  }

  /**
   * With a positive coefficient the checked chain overflows exactly when the
   * full product does not fit in a u64 (or the time difference leaves i64).
   */
  lemma OverflowExactlyWhenProductTooLarge(amount: u64, stakeTime: i64, lastUpdate: i64, rewardCoefficient: u64)
    requires rewardCoefficient > 0
    ensures CalculateBoostedReward(amount, stakeTime, lastUpdate, rewardCoefficient).Some? <==>
              IsI64(stakeTime - lastUpdate) && RewardProduct(amount, stakeTime, lastUpdate, rewardCoefficient) <= U64_MAX
  {
    var tm, am := TimeMultiplier(stakeTime, lastUpdate), AmountMultiplier(amount);
    MulMonotone(1, am, amount * tm);
    assert amount * tm <= amount * tm * am;
    MulMonotone(1, rewardCoefficient, amount * tm * am);
    assert amount * tm * am <= RewardProduct(amount, stakeTime, lastUpdate, rewardCoefficient);
  }

  /** The worked example: 1000 units staked at the baseline with coefficient 100. */
  lemma RewardAtBaselineExample(t: i64)
    ensures TimeMultiplier(t, t) == 100 && AmountMultiplier(1000) == 101
    ensures CalculateBoostedReward(1000, t, t, 100) == Some(101000)
  {
  }
}
