/** What the staking dashboard guarantees over whole runs: it never owes more than it holds, its
    counters are the sums they claim to be, and every staker is paid what a loop over all stakers
    would have paid, up to one token unit per settlement. */
module StakingProofs {
  import opened Machine
  import opened MapSum
  import opened StakingDashboard

  // ----- weights ---------------------------------------------------------------------------

  ghost function Balance(): (AccountId, StakerRecord) -> int {
    (a: AccountId, r: StakerRecord) => r.balance
  }

  ghost function IsStaker(): (AccountId, StakerRecord) -> int {
    (a: AccountId, r: StakerRecord) => if r.balance > 0 then 1 else 0
  }

  /** What a record is owed, scaled by the precision: its unsettled and its settled part. */
  ghost function Owed(rate: int, r: StakerRecord): int {
    r.balance * (rate - r.rewardPerTokenPaid) + REWARD_PRECISION * r.pendingRewards
  }

  ghost function OwedAt(rate: int): (AccountId, StakerRecord) -> int {
    (a: AccountId, r: StakerRecord) => Owed(rate, r)
  }

  ghost function EarnedAt(rate: u128): (AccountId, StakerRecord) -> int {
    (a: AccountId, r: StakerRecord) => ComputeEarned(rate, r)
  }

  /** The product or the sum in `compute_earned` does not fit in 128 bits. */
  ghost predicate Saturates(rate: int, r: StakerRecord) {
    var accrued := r.balance * (rate - r.rewardPerTokenPaid);
    accrued > U128_MAX || accrued / REWARD_PRECISION + r.pendingRewards > U128_MAX
  }

  /** Saturation costs the record a unit or more: the capped product is a whole unit short, or the
      sum does not fit. A product barely past the width is not. */
  ghost predicate LosesUnit(rate: int, r: StakerRecord) {
    var accrued := r.balance * (rate - r.rewardPerTokenPaid) / REWARD_PRECISION;
    accrued > U128_MAX / REWARD_PRECISION || accrued + r.pendingRewards > U128_MAX
  }

  // ----- the invariant ---------------------------------------------------------------------

  ghost predicate Inv(s: State) {
    && s.totalStaked == SumOf(s.records, Balance())
    && s.totalStakers == SumOf(s.records, IsStaker())
    && (forall a :: a in s.records ==> s.records[a].rewardPerTokenPaid <= s.rewardPerTokenStored)
    && SumOf(s.records, OwedAt(s.rewardPerTokenStored)) <= REWARD_PRECISION * s.unclaimedRewards
    && s.unclaimedRewards <= s.rewardsDistributed
  }

  lemma OwedNonNegative(rate: u128, r: StakerRecord)
    requires r.rewardPerTokenPaid <= rate
    ensures 0 <= Owed(rate, r)
  {
    MulNonNegative(r.balance, rate - r.rewardPerTokenPaid);
  }

  /** Settling never credits more than is owed, saturated or not, and the flooring loses less than
      one unit exactly when saturation costs none. */
  lemma EarnedBounds(rate: u128, r: StakerRecord)
    requires r.rewardPerTokenPaid <= rate
    ensures REWARD_PRECISION * ComputeEarned(rate, r) <= Owed(rate, r)
    ensures Owed(rate, r) < REWARD_PRECISION * (ComputeEarned(rate, r) + 1) <==> !LosesUnit(rate, r)
    ensures !Saturates(rate, r) ==> !LosesUnit(rate, r)
  {
    var product := r.balance * (rate - r.rewardPerTokenPaid);
    MulNonNegative(r.balance, rate - r.rewardPerTokenPaid);
    var capped := Min(U128_MAX, product);
    QuotientOrder(capped, product);
    QuotientOrder(capped, U128_MAX);
    var earned := ComputeEarned(rate, r);
    assert earned == Min(U128_MAX, capped / REWARD_PRECISION + r.pendingRewards);
    QuotientParts(product);
  }

  lemma QuotientOrder(x: nat, y: nat)
    requires x <= y
    ensures x / REWARD_PRECISION <= y / REWARD_PRECISION
  {
  }

  lemma QuotientParts(x: nat)
    ensures REWARD_PRECISION * (x / REWARD_PRECISION) <= x < REWARD_PRECISION * (x / REWARD_PRECISION + 1)
  {
  }

  /** A record that is up to date is owed exactly what is pending on it. */
  lemma UpToDateOwed(rate: u128, r: StakerRecord)
    requires r.rewardPerTokenPaid == rate
    ensures Owed(rate, r) == REWARD_PRECISION * r.pendingRewards
  {
  }

  /** Replacing one record changes each sum by the change of that record's weight. */
  lemma Replace(s: State, a: AccountId, r: StakerRecord)
    ensures SumOf(s.records[a := r], Balance()) == SumOf(s.records, Balance()) - Record(s, a).balance + r.balance
    ensures SumOf(s.records[a := r], IsStaker())
         == SumOf(s.records, IsStaker()) - IsStaker()(a, Record(s, a)) + IsStaker()(a, r)
    ensures SumOf(s.records[a := r], OwedAt(s.rewardPerTokenStored))
         == SumOf(s.records, OwedAt(s.rewardPerTokenStored))
            - Owed(s.rewardPerTokenStored, Record(s, a)) + Owed(s.rewardPerTokenStored, r)
  {
    Insert(s.records, Balance(), a, r);
    Insert(s.records, IsStaker(), a, r);
    Insert(s.records, OwedAt(s.rewardPerTokenStored), a, r);
  }

  /** One record is never owed more than the contract holds, nor more than all balances together. */
  lemma RecordWithinTotals(s: State, a: AccountId)
    requires Inv(s)
    ensures Record(s, a).rewardPerTokenPaid <= s.rewardPerTokenStored
    ensures Record(s, a).balance <= s.totalStaked
    ensures Record(s, a).balance > 0 ==> s.totalStakers >= 1
    ensures 0 <= Owed(s.rewardPerTokenStored, Record(s, a)) <= REWARD_PRECISION * s.unclaimedRewards
    ensures PendingRewards(s, a) <= s.unclaimedRewards
  {
    var rate := s.rewardPerTokenStored;
    forall x | x in s.records ensures 0 <= OwedAt(rate)(x, s.records[x]) {
      OwedNonNegative(rate, s.records[x]);
    }
    NonNegative(s.records, OwedAt(rate));
    if a in s.records {
      Dominates(s.records, Balance(), a);
      Dominates(s.records, IsStaker(), a);
      Dominates(s.records, OwedAt(rate), a);
    }
    EarnedBounds(rate, Record(s, a));
  }

  /** In a sound state the sum never saturates; a unit is lost exactly when the capped product is a
      unit short, and that takes more unclaimed rewards than 128 bits can hold scaled. */
  lemma LossIsFromTheProduct(s: State, a: AccountId)
    requires Inv(s)
    ensures var r := Record(s, a);
      && (LosesUnit(s.rewardPerTokenStored, r) <==>
            r.balance * (s.rewardPerTokenStored - r.rewardPerTokenPaid) / REWARD_PRECISION
              > U128_MAX / REWARD_PRECISION)
      && (LosesUnit(s.rewardPerTokenStored, r) ==> s.unclaimedRewards > U128_MAX / REWARD_PRECISION)
  {
    var r := Record(s, a);
    var product := r.balance * (s.rewardPerTokenStored - r.rewardPerTokenPaid);
    RecordWithinTotals(s, a);
    MulNonNegative(r.balance, s.rewardPerTokenStored - r.rewardPerTokenPaid);
    QuotientParts(product);
  }

  /** Writing back one settled record keeps the invariant when the totals follow it. */
  lemma WriteBack(s: State, s': State, a: AccountId, r: StakerRecord)
    requires Inv(s)
    requires s'.records == s.records[a := r] && r.rewardPerTokenPaid == s.rewardPerTokenStored
    requires s'.rewardPerTokenStored == s.rewardPerTokenStored && s'.rewardsDistributed == s.rewardsDistributed
    requires s'.totalStaked == s.totalStaked - Record(s, a).balance + r.balance
    requires s'.totalStakers == s.totalStakers - IsStaker()(a, Record(s, a)) + IsStaker()(a, r)
    requires r.pendingRewards + s.unclaimedRewards - s'.unclaimedRewards == PendingRewards(s, a)
    requires s'.unclaimedRewards <= s.unclaimedRewards
    ensures Inv(s')
  {
    RecordWithinTotals(s, a);
    EarnedBounds(s.rewardPerTokenStored, Record(s, a));
    UpToDateOwed(s.rewardPerTokenStored, r);
    Replace(s, a, r);
  }

  lemma StakeKeepsInv(s: State, a: AccountId, amount: u128, block: u32)
    requires Inv(s) && Stake(s, a, amount, block).Committed?
    ensures Inv(Stake(s, a, amount, block).state)
    ensures Stake(s, a, amount, block).value == Record(Stake(s, a, amount, block).state, a).balance
         == Record(s, a).balance + amount
  {
    var s' := Stake(s, a, amount, block).state;
    WriteBack(s, s', a, s'.records[a]);
  }

  /** The subtractions from the staked total and from the staker count never saturate. */
  lemma UnstakeKeepsInv(s: State, a: AccountId, amount: u128, block: u32)
    requires Inv(s) && Unstake(s, a, amount, block).Committed?
    ensures Inv(Unstake(s, a, amount, block).state)
    ensures Unstake(s, a, amount, block).value == Record(Unstake(s, a, amount, block).state, a).balance
         == Record(s, a).balance - amount
    ensures Unstake(s, a, amount, block).state.totalStaked == s.totalStaked - amount
    ensures Unstake(s, a, amount, block).state.totalStakers
         == s.totalStakers - if Record(s, a).balance == amount then 1 else 0
  {
    var s' := Unstake(s, a, amount, block).state;
    RecordWithinTotals(s, a);
    WriteBack(s, s', a, s'.records[a]);
  }

  /** The subtraction of a claim from the unclaimed total never saturates. */
  lemma ClaimKeepsInv(s: State, a: AccountId)
    requires Inv(s) && Claim(s, a).Committed?
    ensures Inv(Claim(s, a).state)
    ensures Claim(s, a).value == PendingRewards(s, a)
    ensures Claim(s, a).state.unclaimedRewards == s.unclaimedRewards - Claim(s, a).value
  {
    var s' := Claim(s, a).state;
    RecordWithinTotals(s, a);
    WriteBack(s, s', a, s'.records[a]);
  }

  /** A distribution owes every staker its balance times the delta. */
  lemma DeltaBounds(amount: u128, total: u128)
    requires total > 0
    ensures total * Delta(amount, total) <= amount * REWARD_PRECISION < total * (Delta(amount, total) + 1)
  {
    var x := amount * REWARD_PRECISION;
    assert x == total * (x / total) + x % total;
  }

  lemma OwedShift(r: StakerRecord, rate: int, delta: int)
    ensures Owed(rate + delta, r) == Owed(rate, r) + delta * r.balance
  {
    MulDistributes(r.balance, rate - r.rewardPerTokenPaid, delta);
  }

  lemma RateStep(s: State, delta: nat)
    ensures SumOf(s.records, OwedAt(s.rewardPerTokenStored + delta))
         == SumOf(s.records, OwedAt(s.rewardPerTokenStored)) + delta * SumOf(s.records, Balance())
  {
    var rate := s.rewardPerTokenStored;
    forall a | a in s.records
      ensures OwedAt(rate + delta)(a, s.records[a])
        == OwedAt(rate)(a, s.records[a]) + delta * Balance()(a, s.records[a])
    {
      OwedShift(s.records[a], rate, delta);
    }
    Linear(s.records, OwedAt(rate + delta), OwedAt(rate), Balance(), delta);
  }

  /** What a distribution adds to the debt, it adds to the holdings. */
  lemma StillCovered(owed: int, owed': int, unclaimed: nat, amount: nat, delta: nat, total: nat)
    requires owed <= REWARD_PRECISION * unclaimed && owed' == owed + delta * total
    requires total * delta <= amount * REWARD_PRECISION
    ensures owed' <= REWARD_PRECISION * (unclaimed + amount)
  {
  }

  lemma DistributeKeepsInv(s: State, amount: u128)
    requires Inv(s) && Distribute(s, amount).Committed?
    ensures Inv(Distribute(s, amount).state)
  {
    if s.totalStaked != 0 {
      var s', delta := Distribute(s, amount).state, Delta(amount, s.totalStaked);
      DeltaBounds(amount, s.totalStaked);
      RateStep(s, delta);
      StillCovered(SumOf(s.records, OwedAt(s.rewardPerTokenStored)), SumOf(s'.records, OwedAt(s'.rewardPerTokenStored)),
                   s.unclaimedRewards, amount, delta, s.totalStaked);
    }
  }

  lemma {:induction false} Reachable(ops: seq<Op>)
    ensures Inv(After(ops))
  {
    if ops == [] {
    } else {
      var s, op := After(ops[..|ops| - 1]), ops[|ops| - 1];
      Reachable(ops[..|ops| - 1]);
      if Apply(s, op).Committed? {
        match op
        case OpStake(a, amount, block) => StakeKeepsInv(s, a, amount, block);
        case OpUnstake(a, amount, block) => UnstakeKeepsInv(s, a, amount, block);
        case OpClaim(a) => ClaimKeepsInv(s, a);
        case OpDistribute(amount) => DistributeKeepsInv(s, amount);
      }
    }
  }

  // ----- solvency --------------------------------------------------------------------------

  /** After any run, what all stakers together could claim is held by the contract. */
  lemma Solvency(ops: seq<Op>)
    ensures var s := After(ops);
      && SumOf(s.records, OwedAt(s.rewardPerTokenStored)) <= REWARD_PRECISION * s.unclaimedRewards
      && SumOf(s.records, EarnedAt(s.rewardPerTokenStored)) <= s.unclaimedRewards
  {
    Reachable(ops);
    var s := After(ops);
    var rate := s.rewardPerTokenStored;
    var zero := (a: AccountId, r: StakerRecord) => 0;
    var scaled := (a: AccountId, r: StakerRecord) => REWARD_PRECISION * EarnedAt(rate)(a, r);
    Linear(s.records, scaled, zero, EarnedAt(rate), REWARD_PRECISION);
    Linear(s.records, zero, zero, zero, 1);
    forall a | a in s.records ensures scaled(a, s.records[a]) <= OwedAt(rate)(a, s.records[a]) {
      EarnedBounds(rate, s.records[a]);
    }
    Monotone(s.records, scaled, OwedAt(rate));
  }
}
