/** The life of a bridge request as its status tells it: which message moves it from where to where,
    which states it never reaches, and what makes a completed request stay completed. */
module BridgeStatus {
  import opened Machine
  import opened SignatureBitmap
  import opened BridgeTypes
  import opened BridgeMessages
  import opened BridgeInvariant
  import opened BridgeRuns

  // ----- one step --------------------------------------------------------------------------

  /** There is a hop after the current one. */
  predicate HopsLeft(r: Request) {
    r.currentHop + 1 < |r.route|
  }

  /** The statuses a call may move a request from and to; a vote may find it in any. */
  ghost predicate Moves(m: Message, r: Request, met: bool, to: OperationStatus) {
    match m
    case MsgSign(_, true) => to == if met then Locked else r.status
    case MsgSign(_, false) => to == Failed
    case MsgExecute(_) => r.status == Locked && to == if HopsLeft(r) then Pending else Completed
    case MsgRecover(_, RetryBridge) => r.status in {Failed, Expired} && to == Pending
    case MsgRecover(_, CancelBridge) => r.status in {Failed, Expired} && to == Failed
    case MsgRecover(_, _) => r.status in {Failed, Expired} && to == r.status
    case MsgRollback(_) => r.status !in {Completed, Unset} && to == Failed
    case _ => to == r.status
  }

  /** What a call makes of the hop status it finds. */
  ghost predicate HopMoves(m: Message, r: Request, to: MultiHopStatus) {
    match m
    case MsgSign(_, false) => to == HopFailed
    case MsgExecute(_) => to == if HopsLeft(r) then HopInProgress else HopCompleted
    case MsgRecover(_, RetryBridge) => to == HopInProgress
    case MsgRecover(_, CancelBridge) => to == HopFailed
    case _ => to == r.multiHopStatus
  }

  /** The vote, if it is one, meets the threshold. */
  ghost predicate Met(s: Bridge, id: u64)
    requires id in s.requests
  {
    CountMeets(|SignersFor(s, id)| + 1, s.requests[id].requiredSignatures)
  }

  lemma StatusStep(s: Bridge, c: Call, id: u64)
    requires Inv(s) && Apply(s, c).Committed? && Target(c.msg) == Some(id)
    ensures id in s.requests && id in Apply(s, c).state.requests
    ensures Moves(c.msg, s.requests[id], Met(s, id), Apply(s, c).state.requests[id].status)
  {
    match c.msg
    case MsgSign(i, approve) =>
      SignEffect(s, c.env, i, approve);
      SignLocks(s, c.env, i, approve);
    case MsgExecute(i) => ExecuteEffect(s, c.env, i);
    case MsgRecover(i, action) => RecoverEffect(s, c.env, i, action);
    case MsgRollback(i) => RollbackEffect(s, c.env, i);
    case MsgUpdateStatus(i, _, _, _, _, _, _) =>
  }

  lemma HopStatusStep(s: Bridge, c: Call, id: u64)
    requires Inv(s) && Apply(s, c).Committed? && Target(c.msg) == Some(id)
    ensures id in s.requests && id in Apply(s, c).state.requests
    ensures HopMoves(c.msg, s.requests[id], Apply(s, c).state.requests[id].multiHopStatus)
  {
    match c.msg
    case MsgSign(i, approve) => SignEffect(s, c.env, i, approve);
    case MsgExecute(i) => ExecuteEffect(s, c.env, i);
    case MsgRecover(i, action) => RecoverEffect(s, c.env, i, action);
    case MsgRollback(i) => RollbackEffect(s, c.env, i);
    case MsgUpdateStatus(i, _, _, _, _, _, _) =>
  }

  // ----- a completed request ---------------------------------------------------------------

  predicate IsVote(m: Message, id: u64) {
    m.MsgSign? && m.id == id
  }

  /** Nothing but a vote moves a completed request: it cannot be executed, recovered or rolled back. */
  lemma CompletedStays(s: Bridge, c: Call, id: u64)
    requires Inv(s) && id in s.requests && s.requests[id].status == Completed && !IsVote(c.msg, id)
    ensures id in Next(s, c).requests && Next(s, c).requests[id].status == Completed
    ensures c.msg == MsgRollback(id) || c.msg == MsgExecute(id) || (c.msg.MsgRecover? && c.msg.id == id)
      ==> Apply(s, c).Reverted?
  {
    if Apply(s, c).Committed? {
      if Target(c.msg) == Some(id) {
        StatusStep(s, c, id);
      } else {
        OtherCall(s, c, id);
      }
    }
  }

  /** A completed request stays completed, on every run, until somebody votes on it. */
  lemma {:induction false} CompletedUntilVoted(b: Bridge, run: seq<Call>, n: nat, id: u64)
    requires Inv(b) && n <= |run|
    requires id in After(b, run[..n]).requests && After(b, run[..n]).requests[id].status == Completed
    requires forall k :: n <= k < |run| ==> !(SucceedsAt(b, run, k) && IsVote(run[k].msg, id))
    ensures id in After(b, run).requests && After(b, run).requests[id].status == Completed
  {
    if n == |run| {
      assert run[..n] == run;
    } else {
      var e := Earlier(run);
      assert e[..n] == run[..n];
      forall k | n <= k < |e| ensures !(SucceedsAt(b, e, k) && IsVote(e[k].msg, id)) {
        assert e[..k] == run[..k] && e[k] == run[k];
        assert !(SucceedsAt(b, run, k) && IsVote(run[k].msg, id));
      }
      CompletedUntilVoted(b, e, n, id);
      Reachable(b, e);
      assert !(SucceedsAt(b, run, |run| - 1) && IsVote(Last(run).msg, id));
      if !IsVote(Last(run).msg, id) {
        CompletedStays(After(b, e), Last(run), id);
      }
    }
  }

  // ----- states that are never reached -----------------------------------------------------

  lemma StatusesStep(s: Bridge, c: Call, id: u64)
    requires Inv(s) && Apply(s, c).Committed? && id in Apply(s, c).state.requests
    requires id in s.requests ==> s.requests[id].status in {Pending, Locked, Completed, Failed}
    ensures Apply(s, c).state.requests[id].status in {Pending, Locked, Completed, Failed}
  {
    if id !in s.requests {
      AppearingRequest(s, c, id);
    } else if Target(c.msg) == Some(id) {
      StatusStep(s, c, id);
    } else {
      OtherCall(s, c, id);
    }
  }

  /** Since deployment a request is pending, locked, completed or failed. No message ever stores that
      it expired, is in transit or is recovering. */
  lemma {:induction false} StatusesReached(b: Bridge, run: seq<Call>, id: u64)
    requires Initial(b) && id in After(b, run).requests
    ensures After(b, run).requests[id].status in {Pending, Locked, Completed, Failed}
  {
    if run == [] {
    } else {
      InitialIsSound(b);
      Reachable(b, Earlier(run));
      if id in After(b, Earlier(run)).requests {
        StatusesReached(b, Earlier(run), id);
      }
      if Apply(After(b, Earlier(run)), Last(run)).Committed? {
        StatusesStep(After(b, Earlier(run)), Last(run), id);
      }
    }
  }

  // ----- when the admin can step in --------------------------------------------------------

  /** A rollback or a recovery succeeds exactly if the admin asks for it, the request is in a status
      that allows it, and its signatures can be read. */
  lemma InterventionsExactly(s: Bridge, env: Env, id: u64, action: RecoveryAction)
    requires Inv(s)
    ensures Rollback(s, env, id).Committed? <==>
      && env.caller == s.admin && id in s.requests && s.requests[id].status != Completed
      && s.requests[id].status != Unset && Normalize(s.registry, s.requests[id].storage).Committed?
    ensures Recover(s, env, id, action).Committed? <==>
      && env.caller == s.admin && id in s.requests && s.requests[id].status in {Failed, Expired}
      && Normalize(s.registry, s.requests[id].storage).Committed?
  {
  }

  /** So since deployment the admin can roll back exactly the requests that are not completed, and
      recover exactly those that failed. One whose time ran out is not recovered for that. */
  lemma InterventionsOnRuns(b: Bridge, run: seq<Call>, env: Env, id: u64, action: RecoveryAction)
    requires Initial(b) && id in After(b, run).requests
    ensures var s := After(b, run);
      && (Rollback(s, env, id).Committed? <==> env.caller == s.admin && s.requests[id].status != Completed)
      && (Recover(s, env, id, action).Committed? <==> env.caller == s.admin && s.requests[id].status == Failed)
  {
    InitialIsSound(b);
    Reachable(b, run);
    OnlyBitmaps(b, run, id);
    StatusesReached(b, run, id);
    InterventionsExactly(After(b, run), env, id, action);
  }

  // ----- validators ------------------------------------------------------------------------

  /** Who is a validator after a call: those added and not removed. Slots are no matter. */
  lemma ValidatorsStep(s: Bridge, c: Call, v: AccountId)
    requires Inv(s) && Apply(s, c).Committed?
    ensures v in Apply(s, c).state.registry.validators <==>
      if c.msg == MsgAddValidator(v) then true
      else if c.msg == MsgRemoveValidator(v) then false
      else v in s.registry.validators
  {
    if Target(c.msg).Some? {
      TargetedCall(s, c, Target(c.msg).value);
    }
  }

  /** The last successful call about the account's role added it. */
  ghost predicate Appointed(b: Bridge, run: seq<Call>, v: AccountId) {
    if run == [] then v in b.registry.validators
    else
      var succeeds := Apply(After(b, Earlier(run)), Last(run)).Committed?;
      if succeeds && Last(run).msg == MsgAddValidator(v) then true
      else if succeeds && Last(run).msg == MsgRemoveValidator(v) then false
      else Appointed(b, Earlier(run), v)
  }

  /** The validators are the accounts appointed and not dismissed since, and nobody else can vote. */
  lemma {:induction false} ValidatorsAreAppointed(b: Bridge, run: seq<Call>, env: Env, id: u64, approve: bool)
    requires Inv(b)
    ensures env.caller in After(b, run).registry.validators <==> Appointed(b, run, env.caller)
    ensures Sign(After(b, run), env, id, approve).Committed? ==> Appointed(b, run, env.caller)
  {
    if run == [] {
    } else {
      ValidatorsAreAppointed(b, Earlier(run), env, id, approve);
      Reachable(b, Earlier(run));
      if Apply(After(b, Earlier(run)), Last(run)).Committed? {
        ValidatorsStep(After(b, Earlier(run)), Last(run), env.caller);
      }
    }
  }

  /** Adding succeeds exactly if the admin asks for it and the account has a slot already, is a
      validator already, or a slot is free; removing, if the admin asks for it. */
  lemma AppointmentsExactly(s: Bridge, env: Env, v: AccountId)
    requires Inv(s)
    ensures AddValidator(s, env, v).Committed? <==>
      && env.caller == s.admin
      && (v in s.registry.validators || v in s.registry.positions || |s.registry.slots| < MAX_SLOTS)
    ensures RemoveValidator(s, env, v).Committed? <==> env.caller == s.admin
    ensures env.caller != s.admin ==>
      AddValidator(s, env, v) == Reverted(Unauthorized) && RemoveValidator(s, env, v) == Reverted(Unauthorized)
    ensures env.caller == s.admin && AddValidator(s, env, v).Reverted? ==>
      AddValidator(s, env, v) == Reverted(InsufficientSignatures)
  {
  }
}
