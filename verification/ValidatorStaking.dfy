/** The bridge validators' stake ledger, with slashing. A failed assertion traps. */
module ValidatorStaking {
  import opened Machine
  import opened MapSum

  const MIN_VALIDATOR_STAKE: u128 := 10_000_000
  const SLASH_PERCENT: u128 := 20

  datatype State = State(stakes: map<AccountId, u128>, validators: seq<AccountId>, totalStaked: u128, slashPool: u128)

  const EMPTY := State(map[], [], 0, 0)

  datatype Failure = BelowMinimum | InsufficientStake | Trap

  type Step = Outcome<State, (), Failure>

  function StakeOf(s: State, v: AccountId): u128 {
    GetOr(s.stakes, v, 0)
  }

  function Stake(s: State, v: AccountId, amount: u128): Step {
    if amount < MIN_VALIDATOR_STAKE then Reverted(BelowMinimum)
    else if StakeOf(s, v) + amount > U128_MAX || s.totalStaked + amount > U128_MAX then Reverted(Trap)
    else
      Committed(
        s.(validators := if StakeOf(s, v) == 0 then s.validators + [v] else s.validators,
           stakes := s.stakes[v := StakeOf(s, v) + amount],
           totalStaked := s.totalStaked + amount),
        ())
  }

  function Unstake(s: State, v: AccountId, amount: u128): Step {
    if StakeOf(s, v) < amount then Reverted(InsufficientStake)
    else
      Committed(
        s.(stakes := s.stakes[v := StakeOf(s, v) - amount],
           validators := if StakeOf(s, v) == amount then Without(s.validators, v) else s.validators,
           totalStaked := SaturatingSub(s.totalStaked, amount)),
        ())
  }

  function Penalty(stake: nat): nat {
    stake * SLASH_PERCENT / 100
  }

  function Slash(s: State, v: AccountId): Step {
    var current := StakeOf(s, v);
    if current == 0 then Committed(s, ())
    else if current * SLASH_PERCENT > U128_MAX || s.slashPool + Penalty(current) > U128_MAX then Reverted(Trap)
    else
      Committed(
        s.(stakes := s.stakes[v := current - Penalty(current)],
           totalStaked := SaturatingSub(s.totalStaked, Penalty(current)),
           slashPool := s.slashPool + Penalty(current)),
        ())
  }

  // ----- the contract's own methods --------------------------------------------------------

  class Ledger {
    var stakes: map<AccountId, u128>
    var validators: seq<AccountId>
    var totalStaked: u128
    var slashPool: u128

    function View(): State
      reads this
    {
      State(stakes, validators, totalStaked, slashPool)
    }

    constructor ()
      ensures View() == EMPTY
    {
      stakes, validators, totalStaked, slashPool := map[], [], 0, 0;
    }

    method AddStake(validator: AccountId, amount: u128) returns (r: Result<(), Failure>)
      modifies this
      ensures r.Ok? ==> Stake(old(View()), validator, amount) == Committed(View(), ())
      ensures r.Err? ==> Stake(old(View()), validator, amount) == Reverted(r.error)
    {
      if !(amount >= MIN_VALIDATOR_STAKE) {
        return Err(BelowMinimum);
      }
      var current := GetOr(stakes, validator, 0);
      if current == 0 {
        validators := validators + [validator];
      }
      if current + amount > U128_MAX {
        return Err(Trap);
      }
      stakes := stakes[validator := current + amount];
      if totalStaked + amount > U128_MAX {
        return Err(Trap);
      }
      totalStaked := totalStaked + amount;
      return Ok(());
    }

    method RemoveStake(validator: AccountId, amount: u128) returns (r: Result<(), Failure>)
      modifies this
      ensures r.Ok? ==> Unstake(old(View()), validator, amount) == Committed(View(), ())
      ensures r.Err? ==> Unstake(old(View()), validator, amount) == Reverted(r.error)
    {
      var current := GetOr(stakes, validator, 0);
      if !(current >= amount) {
        return Err(InsufficientStake);
      }
      var remaining: u128 := current - amount;
      stakes := stakes[validator := remaining];
      if remaining == 0 {
        validators := Without(validators, validator);
      }
      totalStaked := SaturatingSub(totalStaked, amount);
      return Ok(());
    }

    method SlashStake(validator: AccountId) returns (r: Result<(), Failure>)
      modifies this
      ensures r.Ok? ==> Slash(old(View()), validator) == Committed(View(), ())
      ensures r.Err? ==> Slash(old(View()), validator) == Reverted(r.error)
    {
      var current := GetOr(stakes, validator, 0);
      if current == 0 {
        return Ok(());
      }
      if current * SLASH_PERCENT > U128_MAX {
        return Err(Trap);
      }
      var slash := current * SLASH_PERCENT / 100;
      stakes := stakes[validator := current - slash];
      totalStaked := SaturatingSub(totalStaked, slash);
      if slashPool + slash > U128_MAX {
        return Err(Trap);
      }
      slashPool := slashPool + slash;
      return Ok(());
    }
  }

  // ----- runs ------------------------------------------------------------------------------

  datatype Op = OpStake(v: AccountId, amount: u128) | OpUnstake(v: AccountId, amount: u128) | OpSlash(v: AccountId)

  function Apply(s: State, op: Op): Step {
    match op
    case OpStake(v, amount) => Stake(s, v, amount)
    case OpUnstake(v, amount) => Unstake(s, v, amount)
    case OpSlash(v) => Slash(s, v)
  }

  function After(run: seq<Op>): State {
    if run == [] then EMPTY
    else
      var s := After(run[..|run| - 1]);
      match Apply(s, run[|run| - 1])
      case Committed(s', _) => s'
      case Reverted(_) => s
  }

  ghost predicate Succeeds(run: seq<Op>)
    requires run != []
  {
    Apply(After(run[..|run| - 1]), run[|run| - 1]).Committed?
  }

  /** Everything ever staked, and everything ever withdrawn. */
  ghost function Added(run: seq<Op>): nat {
    if run == [] then 0
    else Added(run[..|run| - 1])
         + match run[|run| - 1] case OpStake(_, amount) => if Succeeds(run) then amount else 0 case _ => 0
  }

  ghost function Withdrawn(run: seq<Op>): nat {
    if run == [] then 0
    else Withdrawn(run[..|run| - 1])
         + match run[|run| - 1] case OpUnstake(_, amount) => if Succeeds(run) then amount else 0 case _ => 0
  }

  ghost function Amount(): (AccountId, u128) -> int {
    (v: AccountId, amount: u128) => amount
  }

  /** The total is the sum of the stakes, and the validators are, once each, the accounts with one. */
  ghost predicate Inv(s: State) {
    && s.totalStaked == SumOf(s.stakes, Amount())
    && Distinct(s.validators)
    && (forall v: AccountId :: v in s.validators <==> StakeOf(s, v) > 0)
  }

  lemma {:induction false} WithoutKeepsDistinct(list: seq<AccountId>, a: AccountId)
    requires Distinct(list)
    ensures Distinct(Without(list, a))
  {
    if list == [] {
    } else {
      var n := |list| - 1;
      WithoutKeepsDistinct(list[..n], a);
      assert list[n] !in list[..n];
    }
  }

  /** No stake exceeds the total, so neither saturating subtraction saturates. */
  lemma StakeWithinTotal(s: State, v: AccountId)
    requires Inv(s)
    ensures StakeOf(s, v) <= s.totalStaked
  {
    if v in s.stakes {
      Dominates(s.stakes, Amount(), v);
    }
  }

  /** Slashing takes a fifth, rounded down, so it never takes the last of a stake. */
  lemma PenaltyLeavesSome(stake: nat)
    requires stake > 0
    ensures 5 * Penalty(stake) <= stake < 5 * Penalty(stake) + 5 && Penalty(stake) < stake
  {
  }

  /** Which messages succeed in a consistent ledger. That the own stake fits decides nothing. */
  lemma StepsExactly(s: State, op: Op)
    requires Inv(s)
    ensures Apply(s, op).Committed? <==>
      match op
      case OpStake(_, amount) => amount >= 10_000_000 && s.totalStaked + amount <= U128_MAX
      case OpUnstake(v, amount) => amount <= StakeOf(s, v)
      case OpSlash(v) => 20 * StakeOf(s, v) <= U128_MAX && s.slashPool + StakeOf(s, v) / 5 <= U128_MAX
    ensures Apply(s, op) == Reverted(BelowMinimum) <==> op.OpStake? && op.amount < 10_000_000
    ensures Apply(s, op) == Reverted(InsufficientStake) <==> op.OpUnstake? && op.amount > StakeOf(s, op.v)
  {
    StakeWithinTotal(s, op.v);
    if StakeOf(s, op.v) > 0 {
      PenaltyLeavesSome(StakeOf(s, op.v));
    }
  }

  /** What a successful message does to each account's stake, and to the pool. */
  lemma StepMoves(s: State, op: Op, w: AccountId)
    requires Inv(s) && Apply(s, op).Committed?
    ensures var s' := Apply(s, op).state;
      && (w != op.v ==> StakeOf(s', w) == StakeOf(s, w))
      && StakeOf(s', op.v) == (match op
                               case OpStake(_, amount) => StakeOf(s, op.v) + amount
                               case OpUnstake(_, amount) => StakeOf(s, op.v) - amount
                               case OpSlash(_) => StakeOf(s, op.v) - StakeOf(s, op.v) / 5)
      && s'.slashPool == s.slashPool + if op.OpSlash? then StakeOf(s, op.v) / 5 else 0
  {
    if StakeOf(s, op.v) > 0 {
      PenaltyLeavesSome(StakeOf(s, op.v));
    }
  }

  lemma StepKeepsInv(s: State, op: Op)
    requires Inv(s) && Apply(s, op).Committed?
    ensures var s' := Apply(s, op).state;
      && Inv(s')
      && s'.totalStaked + s'.slashPool == s.totalStaked + s.slashPool
           + (if op.OpStake? then op.amount else 0) - (if op.OpUnstake? then op.amount else 0)
  {
    var s' := Apply(s, op).state;
    StakeWithinTotal(s, op.v);
    if op.v in s'.stakes {
      Insert(s.stakes, Amount(), op.v, s'.stakes[op.v]);
    }
    match op
    case OpStake(v, amount) =>
    case OpUnstake(v, amount) => WithoutKeepsDistinct(s.validators, v);
    case OpSlash(v) => if StakeOf(s, v) > 0 { PenaltyLeavesSome(StakeOf(s, v)); }
  }

  /** After any run the ledger is consistent, and all stake added is staked, slashed or withdrawn. */
  lemma {:induction false} LedgerBalances(run: seq<Op>)
    ensures Inv(After(run))
    ensures Added(run) == After(run).totalStaked + After(run).slashPool + Withdrawn(run)
  {
    if run == [] {
    } else {
      var s := After(run[..|run| - 1]);
      LedgerBalances(run[..|run| - 1]);
      if Succeeds(run) {
        StepKeepsInv(s, run[|run| - 1]);
      }
    }
  }
}
