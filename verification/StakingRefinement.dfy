/** The accumulator against the loop it replaces. The reference is the history alone: what each
    distribution owed a staker in proportion to the balance held at that moment. */
module StakingRefinement {
  import opened Machine
  import opened MapSum
  import opened StakingDashboard
  import opened StakingProofs

  ghost predicate Succeeds(ops: seq<Op>)
    requires ops != []
  {
    Apply(After(Earlier(ops)), Last(ops)).Committed?
  }

  /** Rewards paid out to a staker by a run. */
  ghost function Claimed(ops: seq<Op>, a: AccountId): nat {
    if ops == [] then 0
    else Claimed(Earlier(ops), a)
         + if Last(ops) == OpClaim(a) && Succeeds(ops) then Claim(After(Earlier(ops)), a).value else 0
  }

  ghost function TotalClaimed(ops: seq<Op>): nat {
    if ops == [] then 0
    else TotalClaimed(Earlier(ops))
         + if Last(ops).OpClaim? && Succeeds(ops) then Claim(After(Earlier(ops)), Last(ops).staker).value else 0
  }

  /** Successful messages that settled and wrote back a staker's record. */
  ghost function Settlements(ops: seq<Op>, a: AccountId): nat {
    if ops == [] then 0
    else Settlements(Earlier(ops), a)
         + if !Last(ops).OpDistribute? && Last(ops).staker == a && Succeeds(ops) then 1 else 0
  }

  /** Sum over the distributions of the balance held at the time, times the delta. */
  ghost function Accrual(ops: seq<Op>, a: AccountId): nat {
    if ops == [] then 0
    else
      var s := After(Earlier(ops));
      Accrual(Earlier(ops), a)
      + if Last(ops).OpDistribute? && Succeeds(ops)
        then (MulNonNegative(Record(s, a).balance, Distribute(s, Last(ops).amount).value);
              Record(s, a).balance * Distribute(s, Last(ops).amount).value)
        else 0
  }

  ghost function Share(amount: nat, balance: nat, total: nat): real
    requires total > 0
  {
    amount as real * balance as real / total as real
  }

  /** The exact pro-rata share of every distributed amount, as a rational number. */
  ghost function FairShare(ops: seq<Op>, a: AccountId): real {
    if ops == [] then 0.0
    else
      var s := After(Earlier(ops));
      FairShare(Earlier(ops), a)
      + if Last(ops).OpDistribute? && Succeeds(ops) && s.totalStaked > 0
        then Share(Last(ops).amount, Record(s, a).balance, s.totalStaked)
        else 0.0
  }

  /** Sum over the distributions of the balance held at the time. */
  ghost function Exposure(ops: seq<Op>, a: AccountId): nat {
    if ops == [] then 0
    else Exposure(Earlier(ops), a)
         + if Last(ops).OpDistribute? && Succeeds(ops) then Record(After(Earlier(ops)), a).balance else 0
  }

  /** At no point of the run has saturation cost the account a unit. */
  ghost predicate NeverLosesUnit(ops: seq<Op>, a: AccountId) {
    forall n :: 0 <= n <= |ops| ==> !LosesUnitAfter(ops[..n], a)
  }

  ghost predicate LosesUnitAfter(ops: seq<Op>, a: AccountId) {
    LosesUnit(After(ops).rewardPerTokenStored, Record(After(ops), a))
  }

  ghost predicate NeverSaturates(ops: seq<Op>, a: AccountId) {
    forall n :: 0 <= n <= |ops| ==> !SaturatesAfter(ops[..n], a)
  }

  ghost predicate SaturatesAfter(ops: seq<Op>, a: AccountId) {
    Saturates(After(ops).rewardPerTokenStored, Record(After(ops), a))
  }

  /** Accrued so far, and neither claimed nor owed: what flooring has swallowed. */
  ghost function Dust(ops: seq<Op>, a: AccountId): int {
    Accrual(ops, a) - REWARD_PRECISION * Claimed(ops, a) - Owed(After(ops).rewardPerTokenStored, Record(After(ops), a))
  }

  // ----- conservation ----------------------------------------------------------------------

  /** Everything ever distributed is either still held or was claimed; the totals are sums. */
  lemma {:induction false} Conservation(ops: seq<Op>)
    ensures var s := After(ops);
      && s.rewardsDistributed == s.unclaimedRewards + TotalClaimed(ops)
      && s.totalStaked == SumOf(s.records, Balance())
      && s.totalStakers == SumOf(s.records, IsStaker())
  {
    Reachable(ops);
    if ops == [] {
    } else {
      Conservation(Earlier(ops));
      Reachable(Earlier(ops));
      if Last(ops).OpClaim? && Succeeds(ops) {
        ClaimKeepsInv(After(Earlier(ops)), Last(ops).staker);
      }
    }
  }

  // ----- dust ------------------------------------------------------------------------------

  /** Writing back a settled record moves its owed amount by what was paid out and by the floor. */
  lemma SettlementDust(s: State, a: AccountId, r: StakerRecord, paid: nat)
    requires Inv(s)
    requires r.rewardPerTokenPaid == s.rewardPerTokenStored && r.pendingRewards + paid == PendingRewards(s, a)
    ensures 0 <= Owed(s.rewardPerTokenStored, Record(s, a)) - Owed(s.rewardPerTokenStored, r) - REWARD_PRECISION * paid
    ensures !LosesUnit(s.rewardPerTokenStored, Record(s, a)) <==>
      Owed(s.rewardPerTokenStored, Record(s, a)) - Owed(s.rewardPerTokenStored, r) - REWARD_PRECISION * paid
        <= REWARD_PRECISION - 1
  {
    RecordWithinTotals(s, a);
    EarnedBounds(s.rewardPerTokenStored, Record(s, a));
    UpToDateOwed(s.rewardPerTokenStored, r);
  }

  lemma DistributionDust(ops: seq<Op>, a: AccountId)
    requires ops != [] && Last(ops).OpDistribute?
    ensures Dust(ops, a) == Dust(Earlier(ops), a)
  {
    var s := After(Earlier(ops));
    if Succeeds(ops) {
      OwedShift(Record(s, a), s.rewardPerTokenStored, Distribute(s, Last(ops).amount).value);
    }
  }

  /** A successful message of the staker writes back a settled record. */
  lemma OwnMessage(ops: seq<Op>, a: AccountId)
    requires ops != [] && !Last(ops).OpDistribute? && Last(ops).staker == a && Succeeds(ops)
    ensures var s, r := After(Earlier(ops)), Record(After(ops), a);
      && r.rewardPerTokenPaid == s.rewardPerTokenStored == After(ops).rewardPerTokenStored
      && Claimed(ops, a) >= Claimed(Earlier(ops), a)
      && r.pendingRewards + (Claimed(ops, a) - Claimed(Earlier(ops), a)) == PendingRewards(s, a)
      && Settlements(ops, a) == Settlements(Earlier(ops), a) + 1
      && Accrual(ops, a) == Accrual(Earlier(ops), a)
  {
    Reachable(Earlier(ops));
    if Last(ops).OpClaim? {
      ClaimKeepsInv(After(Earlier(ops)), a);
    }
  }

  lemma OthersMessage(ops: seq<Op>, a: AccountId)
    requires ops != [] && !Last(ops).OpDistribute? && (Last(ops).staker != a || !Succeeds(ops))
    ensures After(ops).rewardPerTokenStored == After(Earlier(ops)).rewardPerTokenStored
    ensures Record(After(ops), a) == Record(After(Earlier(ops)), a)
    ensures Claimed(ops, a) == Claimed(Earlier(ops), a) && Accrual(ops, a) == Accrual(Earlier(ops), a)
    ensures Settlements(ops, a) == Settlements(Earlier(ops), a)
  {
  }

  lemma DustStep(ops: seq<Op>, a: AccountId)
    requires ops != []
    ensures 0 <= Dust(ops, a) - Dust(Earlier(ops), a)
    ensures !LosesUnitAfter(Earlier(ops), a) ==>
      Dust(ops, a) - Dust(Earlier(ops), a)
        <= (REWARD_PRECISION - 1) * (Settlements(ops, a) - Settlements(Earlier(ops), a))
  {
    if Last(ops).OpDistribute? {
      DistributionDust(ops, a);
    } else if Last(ops).staker == a && Succeeds(ops) {
      Reachable(Earlier(ops));
      OwnMessage(ops, a);
      SettlementDust(After(Earlier(ops)), a, Record(After(ops), a), Claimed(ops, a) - Claimed(Earlier(ops), a));
    } else {
      OthersMessage(ops, a);
    }
  }

  lemma {:induction false} DustNonNegative(ops: seq<Op>, a: AccountId)
    ensures 0 <= Dust(ops, a)
  {
    if ops == [] {
    } else {
      DustNonNegative(Earlier(ops), a);
      DustStep(ops, a);
    }
  }

  lemma NeverLosesEarlier(ops: seq<Op>, a: AccountId)
    requires ops != [] && NeverLosesUnit(ops, a)
    ensures NeverLosesUnit(Earlier(ops), a) && !LosesUnitAfter(Earlier(ops), a)
  {
    forall n | 0 <= n <= |ops| - 1 ensures !LosesUnitAfter(Earlier(ops)[..n], a) {
      assert Earlier(ops)[..n] == ops[..n];
    }
    assert Earlier(ops)[..|ops| - 1] == Earlier(ops);
  }

  lemma {:induction false} DustBounded(ops: seq<Op>, a: AccountId)
    requires NeverLosesUnit(ops, a)
    ensures Dust(ops, a) <= (REWARD_PRECISION - 1) * Settlements(ops, a)
  {
    if ops == [] {
    } else {
      NeverLosesEarlier(ops, a);
      DustBounded(Earlier(ops), a);
      DustStep(ops, a);
    }
  }

  // ----- refinement of the loop ------------------------------------------------------------

  /** No staker is ever credited more than the loop would have credited, on any run at all. */
  lemma NeverOverpaid(ops: seq<Op>, a: AccountId)
    ensures REWARD_PRECISION * (Claimed(ops, a) + PendingRewards(After(ops), a)) <= Accrual(ops, a)
  {
    Reachable(ops);
    RecordWithinTotals(After(ops), a);
    EarnedBounds(After(ops).rewardPerTokenStored, Record(After(ops), a));
    DustNonNegative(ops, a);
  }

  /** And, where saturation costs no unit, less than one unit is lost per settlement and one on reading. */
  lemma RefinesLoop(ops: seq<Op>, a: AccountId)
    requires NeverLosesUnit(ops, a)
    ensures var credited := Claimed(ops, a) + PendingRewards(After(ops), a);
      && REWARD_PRECISION * credited <= Accrual(ops, a)
      && Accrual(ops, a) < REWARD_PRECISION * credited + REWARD_PRECISION * (Settlements(ops, a) + 1)
  {
    NeverOverpaid(ops, a);
    DustBounded(ops, a);
    ReadingLoss(ops, a);
  }

  lemma ReadingLoss(ops: seq<Op>, a: AccountId)
    requires NeverLosesUnit(ops, a)
    ensures Accrual(ops, a) - Dust(ops, a)
          < REWARD_PRECISION * (Claimed(ops, a) + PendingRewards(After(ops), a) + 1)
  {
    assert ops[..|ops|] == ops;
    assert !LosesUnitAfter(ops, a);
    Reachable(ops);
    RecordWithinTotals(After(ops), a);
    EarnedBounds(After(ops).rewardPerTokenStored, Record(After(ops), a));
  }

  // ----- when nothing saturates ------------------------------------------------------------

  lemma FitsDoesNotSaturate(s: State, a: AccountId)
    requires Inv(s) && REWARD_PRECISION * s.rewardsDistributed <= U128_MAX
    ensures !Saturates(s.rewardPerTokenStored, Record(s, a))
    ensures !LosesUnit(s.rewardPerTokenStored, Record(s, a))
  {
    RecordWithinTotals(s, a);
    EarnedBounds(s.rewardPerTokenStored, Record(s, a));
  }

  lemma {:induction false} DistributedGrows(ops: seq<Op>, n: nat)
    requires n <= |ops|
    ensures After(ops[..n]).rewardsDistributed <= After(ops).rewardsDistributed
  {
    if n == |ops| {
      assert ops[..n] == ops;
    } else {
      DistributedGrows(Earlier(ops), n);
      assert Earlier(ops)[..n] == ops[..n];
    }
  }

  /** While the scaled total ever distributed fits in 128 bits, no saturating operation in
      `compute_earned` saturates, at any point of the run and for any account. */
  lemma FittingRunsDoNotSaturate(ops: seq<Op>, a: AccountId)
    requires REWARD_PRECISION * After(ops).rewardsDistributed <= U128_MAX
    ensures NeverSaturates(ops, a) && NeverLosesUnit(ops, a)
  {
    forall n | 0 <= n <= |ops| ensures !SaturatesAfter(ops[..n], a) && !LosesUnitAfter(ops[..n], a) {
      DistributedGrows(ops, n);
      Reachable(ops[..n]);
      FitsDoesNotSaturate(After(ops[..n]), a);
    }
  }

  /** What is read off an account in any reachable state is less than one unit below what is owed
      exactly when its unsettled part, in whole units, does not exceed what 128 bits can hold scaled. */
  lemma ReadsWithinAUnitExactly(ops: seq<Op>, a: AccountId)
    ensures var s, r := After(ops), Record(After(ops), a);
      Owed(s.rewardPerTokenStored, r) < REWARD_PRECISION * (PendingRewards(s, a) + 1) <==>
        r.balance * (s.rewardPerTokenStored - r.rewardPerTokenPaid) / REWARD_PRECISION
          <= U128_MAX / REWARD_PRECISION
  {
    Reachable(ops);
    RecordWithinTotals(After(ops), a);
    EarnedBounds(After(ops).rewardPerTokenStored, Record(After(ops), a));
    LossIsFromTheProduct(After(ops), a);
  }

  const STAKER: AccountId := 1
  const LARGE: u128 := 200_000_000_000_000_000_000

  /** One staker holds ten tokens, and two amounts are distributed. */
  function Windfall(): seq<Op> {
    [OpStake(STAKER, 10, 0)] + [OpDistribute(LARGE)] + [OpDistribute(LARGE)]
  }

  lemma OneMoreOp(ops: seq<Op>, op: Op)
    ensures After(ops + [op]) == Next(After(ops), op)
    ensures Earlier(ops + [op]) == ops && Last(ops + [op]) == op
  {
    assert (ops + [op])[..|ops|] == ops;
  }

  lemma SoleStaker()
    ensures After([OpStake(STAKER, 10, 0)]) == State(map[STAKER := StakerRecord(10, 0, 0, 0)], 10, 1, 0, 0, 0)
  {
    OneMoreOp([], OpStake(STAKER, 10, 0));
    assert [] + [OpStake(STAKER, 10, 0)] == [OpStake(STAKER, 10, 0)];
  }

  lemma Distributed(s: State, amount: u128)
    requires s.totalStaked == 10 && amount == LARGE && s.unclaimedRewards == s.rewardsDistributed <= LARGE
    requires s.rewardPerTokenStored <= 20_000_000_000_000_000_000_000_000_000_000_000_000
    ensures var delta := 20_000_000_000_000_000_000_000_000_000_000_000_000;
      Distribute(s, amount) == Committed(
        s.(rewardPerTokenStored := s.rewardPerTokenStored + delta,
           rewardsDistributed := s.rewardsDistributed + amount,
           unclaimedRewards := s.unclaimedRewards + amount), delta)
  {
    assert Delta(amount, 10) == 20_000_000_000_000_000_000_000_000_000_000_000_000;
  }

  /** Every message of the run is accepted, all that was distributed is owed to its one staker, and
      the bound of one unit per settlement fails by far. */
  lemma WindfallIsLost()
    ensures var s := After(Windfall());
      && s.rewardsDistributed == 2 * LARGE
      && Accrual(Windfall(), STAKER) == REWARD_PRECISION * (2 * LARGE)
      && Settlements(Windfall(), STAKER) == 1 && Claimed(Windfall(), STAKER) == 0
      && PendingRewards(s, STAKER) == 340_282_366_920_938_463_463 < 2 * LARGE - 1
      && LosesUnitAfter(Windfall(), STAKER)
  {
    var r1 := [OpStake(STAKER, 10, 0)];
    var r2 := r1 + [OpDistribute(LARGE)];
    SoleStaker();
    OneMoreOp(r1, OpDistribute(LARGE));
    Distributed(After(r1), LARGE);
    OneMoreOp(r2, OpDistribute(LARGE));
    Distributed(After(r2), LARGE);
    assert r1 == [] + [OpStake(STAKER, 10, 0)];
  }

  // ----- against the exact share -----------------------------------------------------------

  lemma ShareStep(amount: nat, balance: nat, total: nat, delta: nat)
    requires total > 0 && total * delta <= amount * REWARD_PRECISION < total * (delta + 1)
    ensures (balance * delta) as real <= REWARD_PRECISION as real * Share(amount, balance, total)
         <= (balance * delta + balance) as real
  {
    var share := Share(amount, balance, total);
    var scaled := REWARD_PRECISION as real * share;
    assert total as real * share == amount as real * balance as real;
    calc {
      total as real * scaled;
      REWARD_PRECISION as real * (total as real * share);
      REWARD_PRECISION as real * (amount as real * balance as real);
      (amount * REWARD_PRECISION) as real * balance as real;
    }
    ScaleBounds(total as real, delta as real, (amount * REWARD_PRECISION) as real, balance as real, scaled);
  }

  lemma ScaleBounds(total: real, delta: real, x: real, balance: real, scaled: real)
    requires total > 0.0 && balance >= 0.0
    requires total * delta <= x <= total * (delta + 1.0)
    requires total * scaled == x * balance
    ensures balance * delta <= scaled <= balance * delta + balance
  {
    MulOrder(total * delta, x, balance);
    MulOrder(x, total * (delta + 1.0), balance);
    assert total * delta * balance == total * (balance * delta);
    assert total * (delta + 1.0) * balance == total * (balance * delta + balance);
    DivOrder(total, balance * delta, scaled);
    DivOrder(total, scaled, balance * delta + balance);
  }

  lemma MulOrder(x: real, y: real, k: real)
    requires x <= y && k >= 0.0
    ensures x * k <= y * k
  {
  }

  lemma DivOrder(k: real, x: real, y: real)
    requires k > 0.0 && k * x <= k * y
    ensures x <= y
  {
  }

  lemma {:induction false} AccrualTracksFairShare(ops: seq<Op>, a: AccountId)
    ensures Accrual(ops, a) as real <= REWARD_PRECISION as real * FairShare(ops, a)
         <= (Accrual(ops, a) + Exposure(ops, a)) as real
  {
    if ops == [] {
    } else {
      AccrualTracksFairShare(Earlier(ops), a);
      FairShareStep(ops, a);
    }
  }

  lemma FairShareStep(ops: seq<Op>, a: AccountId)
    requires ops != []
    ensures var e := Earlier(ops);
      (Accrual(ops, a) - Accrual(e, a)) as real
        <= REWARD_PRECISION as real * (FairShare(ops, a) - FairShare(e, a))
        <= (Accrual(ops, a) + Exposure(ops, a) - Accrual(e, a) - Exposure(e, a)) as real
  {
    var s, op := After(Earlier(ops)), Last(ops);
    if op.OpDistribute? && Succeeds(ops) && s.totalStaked > 0 {
      var balance, delta := Record(s, a).balance, Delta(op.amount, s.totalStaked);
      DeltaBounds(op.amount, s.totalStaked);
      ShareStep(op.amount, balance, s.totalStaked, delta);
      assert Accrual(ops, a) - Accrual(Earlier(ops), a) == balance * delta;
      assert FairShare(ops, a) - FairShare(Earlier(ops), a) == Share(op.amount, balance, s.totalStaked);
    } else if op.OpDistribute? && Succeeds(ops) {
      NothingStaked(ops, a);
    }
  }

  /** With nothing staked a distribution is dropped and nobody holds a balance. */
  lemma NothingStaked(ops: seq<Op>, a: AccountId)
    requires ops != [] && After(Earlier(ops)).totalStaked == 0
    ensures Record(After(Earlier(ops)), a).balance == 0
  {
    Reachable(Earlier(ops));
    RecordWithinTotals(After(Earlier(ops)), a);
  }

  /** No staker is ever credited more than the exact share of what was distributed. */
  lemma NeverAboveFairShare(ops: seq<Op>, a: AccountId)
    ensures (Claimed(ops, a) + PendingRewards(After(ops), a)) as real <= FairShare(ops, a)
  {
    NeverOverpaid(ops, a);
    AccrualTracksFairShare(ops, a);
  }

  /** Where saturation costs no unit, the exact share is missed by the settlements' floors and by one
      scaled unit per token and distribution, and by no more. */
  lemma CloseToFairShare(ops: seq<Op>, a: AccountId)
    requires NeverLosesUnit(ops, a)
    ensures var credited := Claimed(ops, a) + PendingRewards(After(ops), a);
      REWARD_PRECISION as real * FairShare(ops, a)
        < (REWARD_PRECISION * (credited + Settlements(ops, a) + 1) + Exposure(ops, a)) as real
  {
    RefinesLoop(ops, a);
    AccrualTracksFairShare(ops, a);
  }

  // ----- the lock-up -----------------------------------------------------------------------

  ghost predicate SuccessfulStake(ops: seq<Op>, n: nat, a: AccountId)
    requires n < |ops|
  {
    ops[n].OpStake? && ops[n].staker == a && Apply(After(ops[..n]), ops[n]).Committed?
  }

  lemma OnlyStakesMoveTheClock(s: State, op: Op, a: AccountId)
    requires !(op.OpStake? && op.staker == a && Apply(s, op).Committed?)
    ensures Record(Next(s, op), a).stakedAtBlock == Record(s, a).stakedAtBlock
  {
  }

  lemma EarlierStakes(ops: seq<Op>, k: nat, a: AccountId)
    requires ops != [] && k < |ops| - 1
    ensures SuccessfulStake(Earlier(ops), k, a) == SuccessfulStake(ops, k, a)
  {
    assert Earlier(ops)[..k] == ops[..k];
  }

  lemma {:induction false} LastStakeIsRemembered(ops: seq<Op>, n: nat, a: AccountId)
    requires n < |ops| && SuccessfulStake(ops, n, a)
    requires forall k :: n < k < |ops| ==> !SuccessfulStake(ops, k, a)
    ensures Record(After(ops), a).stakedAtBlock == ops[n].block
  {
    var e := Earlier(ops);
    if n == |ops| - 1 {
    } else {
      forall k | n <= k < |e| ensures SuccessfulStake(e, k, a) == SuccessfulStake(ops, k, a) {
        EarlierStakes(ops, k, a);
      }
      LastStakeIsRemembered(e, n, a);
      assert !SuccessfulStake(ops, |ops| - 1, a);
      OnlyStakesMoveTheClock(After(e), Last(ops), a);
    }
  }

  /** Tokens leave only once the lock-up counted from the account's latest stake has passed. */
  lemma LockHonoured(ops: seq<Op>, n: nat, a: AccountId, amount: u128, block: u32)
    requires n < |ops| && SuccessfulStake(ops, n, a)
    requires forall k :: n < k < |ops| ==> !SuccessfulStake(ops, k, a)
    ensures Unstake(After(ops), a, amount, block).Committed? <==>
      && 0 < amount <= Record(After(ops), a).balance
      && (block >= ops[n].block + LOCK_PERIOD_BLOCKS || block == U32_MAX)
  {
    LastStakeIsRemembered(ops, n, a);
  }
}
