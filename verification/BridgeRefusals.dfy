/** Why a bridge message is refused. Each lemma gives, for one kind of message and every reason it can be
    refused for, exactly when that reason is the one returned. */
module BridgeRefusals {
  import opened Machine
  import opened SignatureBitmap
  import opened BridgeTypes
  import opened StatusTracker
  import opened BridgeMessages
  import opened BridgeInvariant
  import opened BridgeRuns
  import opened BridgeStatus
  import opened BridgeTerms
  import opened BridgeTracking

  predicate Late(r: Request, block: u32) {
    r.expiresAt.Some? && r.expiresAt.value < block
  }

  predicate Authentic(s: Bridge, env: Env, id: u64) {
    !env.paused && env.caller in s.registry.validators && id in s.requests
  }

  /** Since deployment a vote is refused for a pause, then for want of the role, then for want of the
      request, then for its deadline, and last because a vote of the account stands. Slots never matter:
      every validator has one. */
  lemma VoteRefusals(b: Bridge, run: seq<Call>, env: Env, id: u64, approve: bool)
    requires Initial(b)
    ensures var s := BridgeMessages.After(b, run);
      var o := Sign(s, env, id, approve);
      && (o == Reverted(OperationPaused) <==> env.paused)
      && (o == Reverted(Unauthorized) <==> !env.paused && env.caller !in s.registry.validators)
      && (o == Reverted(InvalidRequest) <==>
            !env.paused && env.caller in s.registry.validators && id !in s.requests)
      && (o == Reverted(RequestExpired) <==> Authentic(s, env, id) && Late(s.requests[id], env.block))
      && (o == Reverted(AlreadySigned) <==>
            && Authentic(s, env, id) && !Late(s.requests[id], env.block) && env.caller in SignersFor(s, id))
  {
    var s := BridgeMessages.After(b, run);
    InitialIsSound(b);
    Reachable(b, run);
    if Authentic(s, env, id) {
      OnlyBitmaps(b, run, id);
      PlacedSinceDeployment(b, run, env.caller);
      SlotAtHand(s.registry, s.requests[id].storage, env.caller);
      VoterHasBit(s.registry, s.requests[id].storage.bitmap, env.caller);
    }
  }

  /** Since deployment an execution is refused for a pause, then for want of the role, then because the
      request does not exist or is not locked, then because all 256 slots have signed, and then for the
      travel rule, the freeze and a route too long to count, in this order. */
  lemma ExecutionRefusals(b: Bridge, run: seq<Call>, env: Env, id: u64)
    requires Initial(b)
    ensures var s := BridgeMessages.After(b, run);
      var o := Execute(s, env, id);
      && (o == Reverted(OperationPaused) <==> env.paused)
      && (o == Reverted(Unauthorized) <==> !env.paused && env.caller !in s.operators)
      && (o == Reverted(InvalidRequest) <==>
            && !env.paused && env.caller in s.operators
            && (id in s.requests ==> s.requests[id].status != Locked))
      && (o == Reverted(InsufficientSignatures) <==> Ready(s, env, id) && Overfull(s, id))
      && (o == Reverted(TravelRuleDataRequired) <==>
            Ready(s, env, id) && !Overfull(s, id) && env.travelDataMissing)
      && (o == Reverted(AssetAlreadyFrozen) <==>
            Ready(s, env, id) && !Overfull(s, id) && !env.travelDataMissing && env.tokenFrozen)
  {
    var s := BridgeMessages.After(b, run);
    InitialIsSound(b);
    Reachable(b, run);
    if id in s.requests {
      OnlyBitmaps(b, run, id);
      CountMeetsExactly(s.registry, s.requests[id].storage.bitmap, s.requests[id].requiredSignatures);
    }
  }

  predicate Ready(s: Bridge, env: Env, id: u64) {
    !env.paused && env.caller in s.operators && id in s.requests && s.requests[id].status == Locked
  }

  ghost predicate Overfull(s: Bridge, id: u64)
    requires id in s.requests
  {
    |SignersFor(s, id)| >= MAX_SLOTS && s.requests[id].requiredSignatures > 0
  }

  /** An initiation is refused for a pause, then for its chain or route, then for the signatures it asks
      for, then for the limits met, then for a freeze, and then for want of a gas estimate. */
  lemma InitiationRefusals(s: Bridge, c: Call)
    requires Initiates(c.msg)
    ensures var o, sound := Apply(s, c), !c.env.paused && ChainsOk(s, c.msg);
      var asked := sound && Threshold(s, c.msg.required);
      var clear := asked && c.env.rateLimited.None? && !c.env.tokenFrozen;
      && (c.env.paused ==> o == Reverted(OperationPaused))
      && (!c.env.paused && !ChainsOk(s, c.msg) ==> o == Reverted(InvalidChain))
      && (sound && !asked ==> o == Reverted(InsufficientSignatures))
      && (asked && c.env.rateLimited.Some? ==> o == Reverted(c.env.rateLimited.value))
      && (asked && c.env.rateLimited.None? && c.env.tokenFrozen ==> o == Reverted(AssetAlreadyFrozen))
      && (clear && c.msg.MsgInitiateMultiHop? && c.env.gasEstimate.None? ==> o == Reverted(GasLimitExceeded))
  {
  }

  /** The chains the message names may be bridged to. */
  predicate ChainsOk(s: Bridge, m: Message)
    requires Initiates(m)
  {
    match m
    case MsgInitiate(_, destination, _, _, _, _) => destination in s.supportedChains
    case MsgInitiateMultiHop(_, route, _, _, _, _) =>
      |route| >= 2 && route[0] != HOME_CHAIN && forall i :: 0 <= i < |route| ==> route[i] in s.supportedChains
  }

  /** The admin's messages are refused to anybody else first, and then for the request's status. */
  lemma InterventionRefusals(b: Bridge, run: seq<Call>, env: Env, id: u64, action: RecoveryAction)
    requires Initial(b)
    ensures var s := BridgeMessages.After(b, run);
      && (env.caller != s.admin ==>
            && Rollback(s, env, id) == Reverted(Unauthorized)
            && Recover(s, env, id, action) == Reverted(Unauthorized))
      && (env.caller == s.admin && (id in s.requests ==> s.requests[id].status == Completed) ==>
            Rollback(s, env, id) == Reverted(InvalidRequest))
      && (env.caller == s.admin && (id in s.requests ==> s.requests[id].status != Failed) ==>
            Recover(s, env, id, action) == Reverted(InvalidRequest))
  {
    InitialIsSound(b);
    Reachable(b, run);
    if id in BridgeMessages.After(b, run).requests {
      OnlyBitmaps(b, run, id);
      StatusesReached(b, run, id);
    }
  }

  /** A report is refused for want of a role, then of a tracker, then for its chain, then for where it
      would take the leg. */
  lemma ReportRefusals(s: Bridge, c: Call)
    requires c.msg.MsgUpdateStatus?
    ensures var o, may := BridgeMessages.Apply(s, c), c.env.caller == s.admin || c.env.caller in s.operators;
      && (o == Reverted(Unauthorized) <==> !may)
      && (o == Reverted(TransactionNotFound) <==> may && c.msg.id !in s.trackers)
      && (o == Reverted(InvalidChain) <==>
            && may && c.msg.id in s.trackers
            && c.msg.chain !in {s.trackers[c.msg.id].sourceChain, s.trackers[c.msg.id].destinationChain})
      && (o == Reverted(InvalidStatusTransition) <==>
            && may && c.msg.id in s.trackers
            && c.msg.chain in {s.trackers[c.msg.id].sourceChain, s.trackers[c.msg.id].destinationChain}
            && !Reportable(s.trackers[c.msg.id], c.msg.chain, c.msg.status))
  {
  }

  /** A request whose legacy list cannot be migrated is refused for the first signer in the list that has
      no place: for want of the role if it is no validator, and otherwise for want of a free slot. */
  lemma MigrationRefusals(s: Bridge, env: Env, id: u64, n: nat)
    requires id in s.requests && s.requests[id].storage.Legacy? && n < |s.requests[id].storage.signers|
    requires !env.paused && env.caller in s.operators
    requires var signers := s.requests[id].storage.signers;
      Collect(s.registry, signers[..n]).Committed? && Collect(s.registry, signers[..n + 1]).Reverted?
    ensures Execute(s, env, id) == Reverted(
      if s.requests[id].storage.signers[n] in s.registry.validators then InsufficientSignatures else Unauthorized)
  {
    var signers := s.requests[id].storage.signers;
    var o := Collect(s.registry, signers[..n]);
    assert signers[..n + 1][..n] == signers[..n];
    SameValidators(s.registry, signers[..n]);
    CollectFailsEarly(s.registry, signers, n + 1);
  }

  lemma {:induction false} SameValidators(g: Registry, signers: seq<AccountId>)
    requires Collect(g, signers).Committed?
    ensures Collect(g, signers).state.validators == g.validators
  {
    if signers == [] {
    } else {
      SameValidators(g, signers[..|signers| - 1]);
    }
  }
}
