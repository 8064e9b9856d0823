/** The staking dashboard: rewards are spread over all stakers through one scaled accumulator, and
    each staker's share is settled lazily, whenever that staker's record is next written. */
module StakingDashboard {
  import opened Machine

  const REWARD_PRECISION: u128 := 1_000_000_000_000_000_000
  const LOCK_PERIOD_BLOCKS: u32 := 10

  datatype StakingError = InsufficientStake | ZeroAmount | Overflow | StillLocked | NoRewardsToClaim

  datatype StakerRecord = StakerRecord(
    balance: u128, rewardPerTokenPaid: u128, pendingRewards: u128, stakedAtBlock: u32)

  const NO_RECORD := StakerRecord(0, 0, 0, 0)

  datatype State = State(
    records: map<AccountId, StakerRecord>,
    totalStaked: u128,
    totalStakers: u32,
    rewardsDistributed: u128,
    unclaimedRewards: u128,
    rewardPerTokenStored: u128)

  datatype StakingStats = StakingStats(
    totalStaked: u128, totalStakers: u32, averageStake: u128,
    rewardsDistributed: u128, unclaimedRewards: u128, rewardPerTokenStored: u128)

  const FRESH := State(map[], 0, 0, 0, 0, 0)

  // ----- what each message does ------------------------------------------------------------

  function Record(s: State, staker: AccountId): StakerRecord {
    GetOr(s.records, staker, NO_RECORD)
  }

  /** Rewards earned by a record against an accumulator value, with the source's saturations. */
  function ComputeEarned(rate: u128, r: StakerRecord): (earned: u128) {
    var rateDelta := SaturatingSub(rate, r.rewardPerTokenPaid);
    MulNonNegative(r.balance, rateDelta);
    SaturatingAdd(U128_MAX, SaturatingMul(U128_MAX, r.balance, rateDelta) / REWARD_PRECISION, r.pendingRewards)
  }

  function Settled(rate: u128, r: StakerRecord): StakerRecord {
    r.(pendingRewards := ComputeEarned(rate, r), rewardPerTokenPaid := rate)
  }

  function PendingRewards(s: State, staker: AccountId): u128 {
    ComputeEarned(s.rewardPerTokenStored, Record(s, staker))
  }

  function Stake(s: State, staker: AccountId, amount: u128, block: u32): Outcome<State, u128, StakingError> {
    var r := Settled(s.rewardPerTokenStored, Record(s, staker));
    if amount == 0 then Reverted(ZeroAmount)
    else if r.balance + amount > U128_MAX || s.totalStaked + amount > U128_MAX then Reverted(Overflow)
    else if r.balance == 0 && s.totalStakers == U32_MAX then Reverted(Overflow)
    else
      var r' := r.(balance := r.balance + amount, stakedAtBlock := block);
      Committed(
        s.(records := s.records[staker := r'],
           totalStaked := s.totalStaked + amount,
           totalStakers := s.totalStakers + if r.balance == 0 then 1 else 0),
        r'.balance)
  }

  function Unstake(s: State, staker: AccountId, amount: u128, block: u32): Outcome<State, u128, StakingError> {
    var r := Record(s, staker);
    if amount == 0 then Reverted(ZeroAmount)
    else if amount > r.balance then Reverted(InsufficientStake)
    else if block < SaturatingAdd(U32_MAX, r.stakedAtBlock, LOCK_PERIOD_BLOCKS) then Reverted(StillLocked)
    else
      var r' := Settled(s.rewardPerTokenStored, r).(balance := r.balance - amount);
      Committed(
        s.(records := s.records[staker := r'],
           totalStaked := SaturatingSub(s.totalStaked, amount),
           totalStakers := if r'.balance == 0 then SaturatingSub(s.totalStakers, 1) else s.totalStakers),
        r'.balance)
  }

  function Claim(s: State, staker: AccountId): Outcome<State, u128, StakingError> {
    var r := Settled(s.rewardPerTokenStored, Record(s, staker));
    if r.pendingRewards == 0 then Reverted(NoRewardsToClaim)
    else
      Committed(
        s.(records := s.records[staker := r.(pendingRewards := 0)],
           unclaimedRewards := SaturatingSub(s.unclaimedRewards, r.pendingRewards)),
        r.pendingRewards)
  }

  /** What one staked token earns from a distribution, scaled and floored. */
  function Delta(amount: nat, total: nat): nat
    requires total > 0
  {
    amount * REWARD_PRECISION / total
  }

  function Distribute(s: State, amount: u128): Outcome<State, u128, StakingError> {
    if amount == 0 then Reverted(ZeroAmount)
    else if s.totalStaked == 0 then Committed(s, 0)
    else if amount * REWARD_PRECISION > U128_MAX then Reverted(Overflow)
    else
      var delta := Delta(amount, s.totalStaked);
      if s.rewardPerTokenStored + delta > U128_MAX
         || s.rewardsDistributed + amount > U128_MAX
         || s.unclaimedRewards + amount > U128_MAX
      then Reverted(Overflow)
      else
        Committed(
          s.(rewardPerTokenStored := s.rewardPerTokenStored + delta,
             rewardsDistributed := s.rewardsDistributed + amount,
             unclaimedRewards := s.unclaimedRewards + amount),
          delta)
  }

  datatype Op =
    | OpStake(staker: AccountId, amount: u128, block: u32)
    | OpUnstake(staker: AccountId, amount: u128, block: u32)
    | OpClaim(staker: AccountId)
    | OpDistribute(amount: u128)

  function Apply(s: State, op: Op): Outcome<State, u128, StakingError> {
    match op
    case OpStake(staker, amount, block) => Stake(s, staker, amount, block)
    case OpUnstake(staker, amount, block) => Unstake(s, staker, amount, block)
    case OpClaim(staker) => Claim(s, staker)
    case OpDistribute(amount) => Distribute(s, amount)
  }

  function Next(s: State, op: Op): State {
    match Apply(s, op)
    case Committed(s', _) => s'
    case Reverted(_) => s
  }

  /** The state reached from a fresh dashboard by any run of messages, failing ones included. */
  function After(ops: seq<Op>): State {
    if ops == [] then FRESH else Next(After(ops[..|ops| - 1]), ops[|ops| - 1])
  }

  // ----- the contract itself ---------------------------------------------------------------

  class Dashboard {
    var stakerRecords: map<AccountId, StakerRecord>
    var totalStaked: u128
    var totalStakers: u32
    var rewardsDistributed: u128
    var unclaimedRewards: u128
    var rewardPerTokenStored: u128

    function View(): State
      reads this
    {
      State(stakerRecords, totalStaked, totalStakers, rewardsDistributed, unclaimedRewards, rewardPerTokenStored)
    }

    constructor ()
      ensures View() == FRESH
    {
      stakerRecords := map[];
      totalStaked, totalStakers, rewardsDistributed := 0, 0, 0;
      unclaimedRewards, rewardPerTokenStored := 0, 0;
    }

    method RecordStake(staker: AccountId, amount: u128, currentBlock: u32) returns (r: Result<u128, StakingError>)
      modifies this
      ensures r.Ok? ==> Stake(old(View()), staker, amount, currentBlock) == Committed(View(), r.value)
      ensures r.Err? ==> Stake(old(View()), staker, amount, currentBlock) == Reverted(r.error) && View() == old(View())
    {
      if amount == 0 {
        return Err(ZeroAmount);
      }
      var record := GetOr(stakerRecords, staker, NO_RECORD);
      record := SettleRewards(record);
      if record.balance + amount > U128_MAX {
        return Err(Overflow);
      }
      var newBalance: u128 := record.balance + amount;
      if totalStaked + amount > U128_MAX {
        return Err(Overflow);
      }
      var newTotal: u128 := totalStaked + amount;
      if record.balance == 0 {
        if totalStakers + 1 > U32_MAX {
          return Err(Overflow);
        }
        totalStakers := totalStakers + 1;
      }
      record := record.(balance := newBalance);
      record := record.(stakedAtBlock := currentBlock);
      stakerRecords := stakerRecords[staker := record];
      totalStaked := newTotal;
      return Ok(newBalance);
    }

    method RecordUnstake(staker: AccountId, amount: u128, currentBlock: u32) returns (r: Result<u128, StakingError>)
      modifies this
      ensures r.Ok? ==> Unstake(old(View()), staker, amount, currentBlock) == Committed(View(), r.value)
      ensures r.Err? ==>
        Unstake(old(View()), staker, amount, currentBlock) == Reverted(r.error) && View() == old(View())
    {
      if amount == 0 {
        return Err(ZeroAmount);
      }
      var record := GetOr(stakerRecords, staker, NO_RECORD);
      if amount > record.balance {
        return Err(InsufficientStake);
      }
      if LOCK_PERIOD_BLOCKS > 0 && currentBlock < SaturatingAdd(U32_MAX, record.stakedAtBlock, LOCK_PERIOD_BLOCKS) {
        return Err(StillLocked);
      }
      record := SettleRewards(record);
      record := record.(balance := record.balance - amount);
      totalStaked := SaturatingSub(totalStaked, amount);
      if record.balance == 0 {
        totalStakers := SaturatingSub(totalStakers, 1);
      }
      stakerRecords := stakerRecords[staker := record];
      return Ok(record.balance);
    }

    method ClaimRewards(staker: AccountId) returns (r: Result<u128, StakingError>)
      modifies this
      ensures r.Ok? ==> Claim(old(View()), staker) == Committed(View(), r.value)
      ensures r.Err? ==> Claim(old(View()), staker) == Reverted(r.error) && View() == old(View())
    {
      var record := GetOr(stakerRecords, staker, NO_RECORD);
      record := SettleRewards(record);
      var claimable := record.pendingRewards;
      if claimable == 0 {
        return Err(NoRewardsToClaim);
      }
      record := record.(pendingRewards := 0);
      stakerRecords := stakerRecords[staker := record];
      unclaimedRewards := SaturatingSub(unclaimedRewards, claimable);
      return Ok(claimable);
    }

    /** On an error the accumulator, and even the distributed total, may already have moved: the
        method relies on the runtime to discard them. Nothing else moves. */
    method DistributeReward(amount: u128) returns (r: Result<u128, StakingError>)
      modifies this
      ensures r.Ok? ==> Distribute(old(View()), amount) == Committed(View(), r.value)
      ensures r.Err? ==> Distribute(old(View()), amount) == Reverted(r.error)
      ensures r.Err? ==> View() == old(View()).(rewardPerTokenStored := rewardPerTokenStored,
                                                rewardsDistributed := rewardsDistributed)
    {
      if amount == 0 {
        return Err(ZeroAmount);
      }
      if totalStaked == 0 {
        return Ok(0);
      }
      if amount * REWARD_PRECISION > U128_MAX {
        return Err(Overflow);
      }
      var delta := Delta(amount, totalStaked);
      if rewardPerTokenStored + delta > U128_MAX {
        return Err(Overflow);
      }
      rewardPerTokenStored := rewardPerTokenStored + delta;
      if rewardsDistributed + amount > U128_MAX {
        return Err(Overflow);
      }
      rewardsDistributed := rewardsDistributed + amount;
      if unclaimedRewards + amount > U128_MAX {
        return Err(Overflow);
      }
      unclaimedRewards := unclaimedRewards + amount;
      return Ok(delta);
    }

    method SettleRewards(record: StakerRecord) returns (settled: StakerRecord)
      ensures settled == Settled(rewardPerTokenStored, record)
    {
      settled := record.(pendingRewards := ComputeEarned(rewardPerTokenStored, record));
      settled := settled.(rewardPerTokenPaid := rewardPerTokenStored);
    }

    method GetStats() returns (stats: StakingStats)
      ensures stats == StakingStats(totalStaked, totalStakers, stats.averageStake,
                                    rewardsDistributed, unclaimedRewards, rewardPerTokenStored)
      ensures totalStakers == 0 ==> stats.averageStake == 0
      ensures totalStakers > 0 ==>
        stats.averageStake * totalStakers <= totalStaked < (stats.averageStake + 1) * totalStakers
    {
      stats := StakingStats(
        totalStaked, totalStakers, if totalStakers > 0 then totalStaked / totalStakers else 0,
        rewardsDistributed, unclaimedRewards, rewardPerTokenStored);
    }
  }
}
