/** Which staking messages succeed, told from the history alone: what was staked, unstaked,
    distributed and claimed before. */
module StakingHistory {
  import opened Machine
  import opened MapSum
  import opened StakingDashboard
  import opened StakingProofs
  import opened StakingRefinement

  // ----- balances and amounts --------------------------------------------------------------

  /** What a message adds to the stake of its account, if it succeeds. */
  function Moves(op: Op): int {
    match op
    case OpStake(_, amount, _) => amount
    case OpUnstake(_, amount, _) => 0 - amount
    case _ => 0
  }

  /** What an account staked less what it unstaked, over the successful messages of a run. */
  ghost function NetStake(ops: seq<Op>, a: AccountId): int {
    if ops == [] then 0
    else NetStake(Earlier(ops), a)
         + if !Last(ops).OpDistribute? && Last(ops).staker == a && Succeeds(ops) then Moves(Last(ops)) else 0
  }

  ghost function TotalNetStake(ops: seq<Op>): int {
    if ops == [] then 0 else TotalNetStake(Earlier(ops)) + if Succeeds(ops) then Moves(Last(ops)) else 0
  }

  /** The successful distributions that found somebody to distribute to. */
  ghost function TotalDistributed(ops: seq<Op>): nat {
    if ops == [] then 0
    else
      TotalDistributed(Earlier(ops))
      + match Last(ops)
        case OpDistribute(amount) => if Succeeds(ops) && TotalNetStake(Earlier(ops)) != 0 then amount else 0
        case _ => 0
  }

  lemma StepMovesStake(s: State, op: Op, a: AccountId)
    requires Inv(s) && Apply(s, op).Committed?
    ensures var s' := Apply(s, op).state;
      && Record(s', a).balance == Record(s, a).balance + (if !op.OpDistribute? && op.staker == a then Moves(op) else 0)
      && s'.totalStaked == s.totalStaked + Moves(op)
  {
    match op
    case OpStake(staker, amount, block) =>
    case OpUnstake(staker, amount, block) => UnstakeKeepsInv(s, staker, amount, block);
    case OpClaim(staker) =>
    case OpDistribute(amount) =>
  }

  /** Balances, the total and the distributed amount are what the history says. */
  lemma {:induction false} StateIsHistory(ops: seq<Op>, a: AccountId)
    ensures var s := After(ops);
      && Record(s, a).balance == NetStake(ops, a)
      && s.totalStaked == TotalNetStake(ops)
      && s.rewardsDistributed == TotalDistributed(ops)
  {
    if ops == [] {
    } else {
      StateIsHistory(Earlier(ops), a);
      Reachable(Earlier(ops));
      if Succeeds(ops) {
        StepMovesStake(After(Earlier(ops)), Last(ops), a);
      }
    }
  }

  // ----- staking and unstaking -------------------------------------------------------------

  /** A stake succeeds exactly if it is positive, all stakes together fit with it, and a newcomer can
      still be counted. That the account's own balance fits decides nothing. */
  lemma StakesExactly(ops: seq<Op>, a: AccountId, amount: u128, block: u32)
    ensures Stake(After(ops), a, amount, block).Committed? <==>
      && amount > 0 && TotalNetStake(ops) + amount <= U128_MAX
      && (NetStake(ops, a) == 0 ==> After(ops).totalStakers < U32_MAX)
  {
    Reachable(ops);
    StateIsHistory(ops, a);
    RecordWithinTotals(After(ops), a);
  }

  /** Where the account never staked there is nothing to unstake; where it did, `LockHonoured` says
      when. */
  lemma {:induction false} NoStakeNoBalance(ops: seq<Op>, a: AccountId)
    requires forall n :: 0 <= n < |ops| ==> !SuccessfulStake(ops, n, a)
    ensures Record(After(ops), a).balance == 0
  {
    if ops == [] {
    } else {
      var e := Earlier(ops);
      forall n | 0 <= n < |e| ensures !SuccessfulStake(e, n, a) {
        EarlierStakes(ops, n, a);
      }
      NoStakeNoBalance(e, a);
      assert !SuccessfulStake(ops, |ops| - 1, a);
      Reachable(e);
      if Succeeds(ops) {
        StepMovesStake(After(e), Last(ops), a);
      }
    }
  }

  // ----- distributing ----------------------------------------------------------------------

  /** A distribution succeeds exactly if it is positive and, where anybody has a stake, its scaled
      amount, the accumulator and all that was ever distributed fit with it. Without any stake it
      leaves everything as it was. */
  lemma DistributesExactly(ops: seq<Op>, amount: u128)
    ensures Distribute(After(ops), amount).Committed? <==>
      && amount > 0
      && (TotalNetStake(ops) > 0 ==>
            && REWARD_PRECISION * amount <= U128_MAX
            && After(ops).rewardPerTokenStored + REWARD_PRECISION * amount / TotalNetStake(ops) <= U128_MAX
            && TotalDistributed(ops) + amount <= U128_MAX)
    ensures TotalNetStake(ops) == 0 && amount > 0 ==> Distribute(After(ops), amount) == Committed(After(ops), 0)
  {
    Reachable(ops);
    StateIsHistory(ops, 0);
    Commutes(amount);
  }

  lemma Commutes(amount: nat)
    ensures amount * REWARD_PRECISION == REWARD_PRECISION * amount
  {
  }

  // ----- claiming --------------------------------------------------------------------------

  /** A claim succeeds exactly when a whole unit is owed, whatever saturates. */
  lemma ClaimsWhenOwed(s: State, a: AccountId)
    requires Inv(s)
    ensures Claim(s, a).Committed? <==> Owed(s.rewardPerTokenStored, Record(s, a)) >= REWARD_PRECISION
    ensures Claim(s, a).Committed? ==> Claim(s, a).value == PendingRewards(s, a) > 0
  {
    RecordWithinTotals(s, a);
    var rate, r := s.rewardPerTokenStored, Record(s, a);
    EarnedBounds(rate, r);
    if LosesUnit(rate, r) {
      LossIsFromTheProduct(s, a);
      LossLeavesSome(s, a);
    }
  }

  /** Even a saturated product is worth many units. */
  lemma LossLeavesSome(s: State, a: AccountId)
    requires Inv(s) && LosesUnit(s.rewardPerTokenStored, Record(s, a))
    ensures PendingRewards(s, a) >= U128_MAX / REWARD_PRECISION
    ensures Owed(s.rewardPerTokenStored, Record(s, a)) >= REWARD_PRECISION
  {
    var r := Record(s, a);
    var product := r.balance * (s.rewardPerTokenStored - r.rewardPerTokenPaid);
    RecordWithinTotals(s, a);
    LossIsFromTheProduct(s, a);
    MulNonNegative(r.balance, s.rewardPerTokenStored - r.rewardPerTokenPaid);
    QuotientParts(product);
    assert product > U128_MAX;
  }

  /** Told from the loop the accumulator replaces: a staker that never lost a unit can claim as soon
      as what the loop would have credited exceeds what it claimed by one unit and one per
      settlement, and nobody can claim while it does not exceed it by one. */
  lemma ClaimsFollowTheLoop(ops: seq<Op>, a: AccountId)
    ensures NeverLosesUnit(ops, a)
         && Accrual(ops, a) >= REWARD_PRECISION * (Claimed(ops, a) + Settlements(ops, a) + 1)
         ==> Claim(After(ops), a).Committed?
    ensures Accrual(ops, a) < REWARD_PRECISION * (Claimed(ops, a) + 1)
         ==> Claim(After(ops), a) == Reverted(NoRewardsToClaim)
  {
    Reachable(ops);
    ClaimsWhenOwed(After(ops), a);
    NeverOverpaid(ops, a);
    if NeverLosesUnit(ops, a) {
      RefinesLoop(ops, a);
    }
  }

  /** A claim leaves nothing to claim, and the account's stake where it was. */
  lemma ClaimsOnce(ops: seq<Op>, a: AccountId)
    requires Claim(After(ops), a).Committed?
    ensures Claim(After(ops + [OpClaim(a)]), a) == Reverted(NoRewardsToClaim)
    ensures NetStake(ops + [OpClaim(a)], a) == NetStake(ops, a)
  {
    OneMoreOp(ops, OpClaim(a));
    var s := After(ops + [OpClaim(a)]);
    Reachable(ops + [OpClaim(a)]);
    ClaimsWhenOwed(s, a);
    UpToDateOwed(s.rewardPerTokenStored, Record(s, a));
  }

  lemma HundredOwed(s: State, amount: u128)
    requires s == State(map[STAKER := StakerRecord(10, 0, 0, 0)], 10, 1, 0, 0, 0) && amount == 100
    ensures Distribute(s, amount).Committed?
    ensures Record(Distribute(s, amount).state, STAKER).balance == 10
    ensures PendingRewards(Distribute(s, amount).state, STAKER) == amount
  {
    assert Delta(amount, 10) == 10 * REWARD_PRECISION;
  }

  /** Stake ten, distribute a hundred: the hundred can be claimed, and the stake does not hinder it. */
  lemma StakersCanClaim(ops: seq<Op>)
    requires ops == [OpStake(STAKER, 10, 0)] + [OpDistribute(100)]
    ensures NetStake(ops, STAKER) == 10
    ensures Claim(After(ops), STAKER).Committed? && Claim(After(ops), STAKER).value == 100
  {
    SoleStaker();
    OneMoreOp([OpStake(STAKER, 10, 0)], OpDistribute(100));
    HundredOwed(After([OpStake(STAKER, 10, 0)]), 100);
    StateIsHistory(ops, STAKER);
  }

  // ----- refusals --------------------------------------------------------------------------

  /** The amount a message is about, if it is about one. */
  function Amount(op: Op): Option<u128> {
    match op
    case OpStake(_, amount, _) => Some(amount)
    case OpUnstake(_, amount, _) => Some(amount)
    case OpDistribute(amount) => Some(amount)
    case OpClaim(_) => None
  }

  /** Why a message is refused: for a zero amount first, then for want of stake, then for the lock; a
      claim for want of a unit; and all else for not fitting. */
  lemma RefusalsExactly(ops: seq<Op>, op: Op)
    ensures var o, s := Apply(After(ops), op), After(ops);
      && (o == Reverted(ZeroAmount) <==> Amount(op) == Some(0))
      && (o == Reverted(InsufficientStake) <==> op.OpUnstake? && op.amount > NetStake(ops, op.staker))
      && (o == Reverted(StillLocked) <==>
            && op.OpUnstake? && 0 < op.amount <= NetStake(ops, op.staker)
            && op.block < Min(U32_MAX, Record(s, op.staker).stakedAtBlock + 10))
      && (o == Reverted(NoRewardsToClaim) <==> op.OpClaim? && Owed(s.rewardPerTokenStored, Record(s, op.staker))
                                                                < REWARD_PRECISION)
      && (o.Reverted? ==> o.error in {ZeroAmount, InsufficientStake, StillLocked, NoRewardsToClaim, Overflow})
      && (o == Reverted(Overflow) ==> op.OpStake? || op.OpDistribute?)
  {
    Reachable(ops);
    if !op.OpDistribute? {
      StateIsHistory(ops, op.staker);
      ClaimsWhenOwed(After(ops), op.staker);
    }
  }
}
