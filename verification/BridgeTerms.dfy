/** What a bridge request is for: every request on the books was asked for by one successful
    initiation, whose terms and deadline it keeps for good. */
module BridgeTerms {
  import opened Machine
  import opened SignatureBitmap
  import opened BridgeTypes
  import opened BridgeMessages
  import opened BridgeInvariant
  import opened BridgeRuns
  import opened BridgeStatus

  predicate Initiates(m: Message) {
    m.MsgInitiate? || m.MsgInitiateMultiHop?
  }

  // ----- when a request may be opened ------------------------------------------------------

  predicate Threshold(s: Bridge, required: u8) {
    s.minSignatures <= required <= s.maxSignatures
  }

  predicate Permits(s: Bridge, c: Call) {
    && !c.env.paused && c.env.rateLimited.None? && !c.env.tokenFrozen && s.requestCounter < U64_MAX
    && match c.msg
       case MsgInitiate(_, destination, _, required, _, _) =>
         destination in s.supportedChains && Threshold(s, required)
       case MsgInitiateMultiHop(_, route, _, required, _, _) =>
         && |route| >= 2 && route[0] != HOME_CHAIN && (forall i :: 0 <= i < |route| ==> route[i] in s.supportedChains)
         && Threshold(s, required) && c.env.gasEstimate.Some?
       case _ => false
  }

  /** An initiation succeeds exactly if it is permitted, and is numbered next. */
  lemma InitiatesExactly(s: Bridge, c: Call)
    requires Initiates(c.msg)
    ensures Apply(s, c).Committed? <==> Permits(s, c)
    ensures Apply(s, c).Committed? ==> Apply(s, c).value == s.requestCounter + 1
  {
  }

  // ----- what the request then says --------------------------------------------------------

  predicate ExpiresAfter(r: Request, block: u32, timeout: Option<u64>) {
    match timeout
    case None => r.expiresAt == None
    case Some(t) => r.expiresAt == Some(Min(U64_MAX, block + t))
  }

  /** The request has the number given and the terms of the initiation. */
  predicate AsAsked(r: Request, id: u64, c: Call) {
    && r.requestId == id && r.sender == c.env.caller && r.createdAt == c.env.block
    && match c.msg
       case MsgInitiate(token, destination, recipient, required, timeout, metadata) =>
         && r.tokenId == token && r.recipient == recipient && r.requiredSignatures == required
         && r.metadata == metadata && ExpiresAfter(r, c.env.block, timeout)
         && r.route == [] && r.destinationChain == destination && r.totalGasEstimate == 0
       case MsgInitiateMultiHop(token, route, recipient, required, timeout, metadata) =>
         && r.tokenId == token && r.recipient == recipient && r.requiredSignatures == required
         && r.metadata == metadata && ExpiresAfter(r, c.env.block, timeout)
         && r.route == route != [] && Some(r.totalGasEstimate) == c.env.gasEstimate
       case _ => false
  }

  lemma OpenedAsAsked(s: Bridge, c: Call)
    requires Initiates(c.msg) && Apply(s, c).Committed?
    ensures var id := Apply(s, c).value; 0 <= id <= U64_MAX && id in Apply(s, c).state.requests
    ensures AsAsked(Apply(s, c).state.requests[Apply(s, c).value], Apply(s, c).value, c)
    ensures JustOpened(Apply(s, c).state.requests[Apply(s, c).value])
  {
  }

  /** At its first hop, from the home chain, with no votes and nothing decided. */
  predicate JustOpened(r: Request) {
    && r.sourceChain == HOME_CHAIN && r.currentHop == 0 && (r.route != [] ==> r.destinationChain == r.route[0])
    && r.status == Pending && r.multiHopStatus == HopInProgress && r.storage == Stored(NoSignatures())
  }

  /** Nothing but the progress of the request differs. */
  predicate SameTerms(r: Request, r': Request) {
    && r'.requestId == r.requestId && r'.tokenId == r.tokenId && r'.sender == r.sender && r'.recipient == r.recipient
    && r'.requiredSignatures == r.requiredSignatures && r'.createdAt == r.createdAt && r'.expiresAt == r.expiresAt
    && r'.route == r.route && r'.totalGasEstimate == r.totalGasEstimate && r'.metadata == r.metadata
    && (r.route == [] ==> r'.destinationChain == r.destinationChain)
  }

  /** No call changes the terms of a request. */
  lemma TermsStay(s: Bridge, c: Call, id: u64)
    requires Inv(s) && Apply(s, c).Committed? && id in s.requests
    ensures id in Apply(s, c).state.requests && SameTerms(s.requests[id], Apply(s, c).state.requests[id])
  {
    if Target(c.msg) != Some(id) {
      OtherCall(s, c, id);
    } else {
      match c.msg
      case MsgSign(i, approve) => SignEffect(s, c.env, i, approve);
      case MsgExecute(i) => ExecuteEffect(s, c.env, i);
      case MsgRecover(i, action) => RecoverEffect(s, c.env, i, action);
      case MsgRollback(i) => RollbackEffect(s, c.env, i);
      case MsgUpdateStatus(i, _, _, _, _, _, _) =>
    }
  }

  lemma OtherMessagesOpenNothing(s: Bridge, c: Call, id: u64)
    requires Inv(s) && Apply(s, c).Committed? && id !in s.requests && id in Apply(s, c).state.requests
    ensures Initiates(c.msg) && Apply(s, c).value == id
  {
    AppearingRequest(s, c, id);
  }

  /** The call at step `n` opened the request. */
  ghost predicate OpenedAt(b: Bridge, run: seq<Call>, n: nat, id: u64) {
    && n < |run| && Initiates(run[n].msg) && SucceedsAt(b, run, n)
    && Apply(After(b, run[..n]), run[n]).value == id
  }

  lemma OpenedEarlier(b: Bridge, run: seq<Call>, n: nat, id: u64)
    requires run != [] && n < |run| - 1
    ensures OpenedAt(b, run, n, id) == OpenedAt(b, Earlier(run), n, id) && run[n] == Earlier(run)[n]
  {
    assert run[..n] == Earlier(run)[..n];
  }

  lemma OpenedLast(b: Bridge, run: seq<Call>, id: u64)
    requires run != []
    ensures OpenedAt(b, run, |run| - 1, id) <==>
      Initiates(Last(run).msg) && Apply(After(b, Earlier(run)), Last(run)).Committed?
      && Apply(After(b, Earlier(run)), Last(run)).value == id
  {
  }

  /** It was that call, and no other. */
  ghost predicate OnlyOpenedAt(b: Bridge, run: seq<Call>, n: nat, id: u64) {
    OpenedAt(b, run, n, id) && forall m: nat :: OpenedAt(b, run, m, id) ==> m == n
  }

  ghost predicate OnTerms(b: Bridge, run: seq<Call>, n: nat, id: u64)
    requires n < |run|
  {
    && id in After(b, run).requests && AsAsked(After(b, run).requests[id], id, run[n])
    && Permits(After(b, run[..n]), run[n])
  }

  /** Since deployment every request was opened by exactly one initiation, which was permitted, and is
      on its terms. */
  lemma {:induction false} RequestsAreAsAsked(b: Bridge, run: seq<Call>, id: u64)
    requires Initial(b) && id in After(b, run).requests
    ensures exists n: nat :: OnlyOpenedAt(b, run, n, id) && OnTerms(b, run, n, id)
  {
    InitialIsSound(b);
    if run == [] {
    } else {
      Reachable(b, Earlier(run));
      if id in After(b, Earlier(run)).requests {
        RequestsAreAsAsked(b, Earlier(run), id);
        var n: nat :| OnlyOpenedAt(b, Earlier(run), n, id) && OnTerms(b, Earlier(run), n, id);
        OpenedBefore(b, run, n, id);
        KeptOnTerms(b, run, n, id);
      } else {
        OpenedNow(b, run, id);
      }
    }
  }

  lemma OpenedBefore(b: Bridge, run: seq<Call>, n: nat, id: u64)
    requires Inv(b) && run != [] && id in After(b, Earlier(run)).requests && OnlyOpenedAt(b, Earlier(run), n, id)
    ensures OnlyOpenedAt(b, run, n, id)
  {
    Reachable(b, Earlier(run));
    OpenedEarlier(b, run, n, id);
    OpenedLast(b, run, id);
    OldNumber(After(b, Earlier(run)), Last(run), id);
    forall m: nat | OpenedAt(b, run, m, id) ensures m == n {
      if m < |run| - 1 {
        OpenedEarlier(b, run, m, id);
      }
    }
  }

  lemma KeptOnTerms(b: Bridge, run: seq<Call>, n: nat, id: u64)
    requires Inv(b) && run != [] && n < |run| - 1 && OnTerms(b, Earlier(run), n, id)
    ensures OnTerms(b, run, n, id)
  {
    Reachable(b, Earlier(run));
    assert run[..n] == Earlier(run)[..n];
    if Apply(After(b, Earlier(run)), Last(run)).Committed? {
      TermsStay(After(b, Earlier(run)), Last(run), id);
    }
  }

  lemma OldNumber(s: Bridge, c: Call, id: u64)
    requires Inv(s) && id in s.requests
    ensures Initiates(c.msg) && Apply(s, c).Committed? ==> Apply(s, c).value != id
  {
    if Initiates(c.msg) {
      InitiatesExactly(s, c);
    }
  }

  /** A request that appears was opened by the last call, and by none before. */
  lemma OpenedNow(b: Bridge, run: seq<Call>, id: u64)
    requires Initial(b) && run != [] && id !in After(b, Earlier(run)).requests && id in After(b, run).requests
    ensures OnlyOpenedAt(b, run, |run| - 1, id) && OnTerms(b, run, |run| - 1, id)
  {
    var e, s, c := Earlier(run), After(b, Earlier(run)), Last(run);
    InitialIsSound(b);
    Reachable(b, e);
    OtherMessagesOpenNothing(s, c, id);
    OpenedAsAsked(s, c);
    InitiatesExactly(s, c);
    OpenedLast(b, run, id);
    forall n: nat | n < |run| - 1 ensures !OpenedAt(b, run, n, id) {
      OpenedEarlier(b, run, n, id);
      if OpenedAt(b, e, n, id) {
        OpenedStays(b, e, n, id);
      }
    }
  }

  /** What was opened is still there. */
  lemma {:induction false} OpenedStays(b: Bridge, run: seq<Call>, n: nat, id: u64)
    requires Inv(b) && OpenedAt(b, run, n, id)
    ensures id in After(b, run).requests
  {
    if n < |run| - 1 {
      OpenedEarlier(b, run, n, id);
      OpenedStays(b, Earlier(run), n, id);
      Reachable(b, Earlier(run));
      if Apply(After(b, Earlier(run)), Last(run)).Committed? {
        TermsStay(After(b, Earlier(run)), Last(run), id);
      }
    } else {
      OpenedLast(b, run, id);
      OpenedAsAsked(After(b, Earlier(run)), Last(run));
    }
  }

  // ----- numbering -------------------------------------------------------------------------

  ghost function Openings(b: Bridge, run: seq<Call>): nat {
    if run == [] then 0
    else Openings(b, Earlier(run))
         + if Initiates(Last(run).msg) && Apply(After(b, Earlier(run)), Last(run)).Committed? then 1 else 0
  }

  lemma CounterStep(s: Bridge, c: Call, id: u64)
    requires Inv(s) && Apply(s, c).Committed?
    ensures var s' := Apply(s, c).state;
      && s'.requestCounter == s.requestCounter + (if Initiates(c.msg) then 1 else 0)
      && (id in s'.requests <==> id in s.requests || (Initiates(c.msg) && id == s'.requestCounter))
  {
    if Target(c.msg).Some? {
      TargetedCall(s, c, Target(c.msg).value);
    }
  }

  /** Since deployment the requests are numbered from one, without gaps, in the order of the
      initiations that succeeded. */
  lemma {:induction false} RequestsAreNumbered(b: Bridge, run: seq<Call>, id: u64)
    requires Initial(b)
    ensures After(b, run).requestCounter == Openings(b, run)
    ensures id in After(b, run).requests <==> 1 <= id <= Openings(b, run)
  {
    InitialIsSound(b);
    if run == [] {
    } else {
      Reachable(b, Earlier(run));
      RequestsAreNumbered(b, Earlier(run), id);
      if Apply(After(b, Earlier(run)), Last(run)).Committed? {
        CounterStep(After(b, Earlier(run)), Last(run), id);
      }
    }
  }

  // ----- deadlines -------------------------------------------------------------------------

  /** The time an initiation allows has not run out. */
  predicate InTime(c: Call, block: u32) {
    match c.msg
    case MsgInitiate(_, _, _, _, Some(timeout), _) => block <= c.env.block + timeout
    case MsgInitiateMultiHop(_, _, _, _, Some(timeout), _) => block <= c.env.block + timeout
    case _ => true
  }

  lemma DeadlineOf(r: Request, id: u64, c: Call, block: u32)
    requires AsAsked(r, id, c)
    ensures InTime(c, block) <==> r.expiresAt == None || block <= r.expiresAt.value
  {
  }

  lemma SlotAtHand(g: Registry, storage: SignatureStorage, v: AccountId)
    requires storage.Stored? && v in g.positions
    ensures Normalize(g, storage).Committed? && PositionOf(Normalize(g, storage).state, v).Committed?
  {
  }

  /** A request just opened can be voted on by a validator with a slot exactly while the current block
      has not passed the block of the initiation plus the timeout. */
  lemma VotesUntilDeadline(s: Bridge, c: Call, voter: Env, approve: bool)
    requires Inv(s) && Initiates(c.msg) && Apply(s, c).Committed?
    requires !voter.paused && voter.caller in s.registry.validators && voter.caller in s.registry.positions
    ensures Sign(Apply(s, c).state, voter, Apply(s, c).value, approve).Committed? <==> InTime(c, voter.block)
  {
    var s', id := Apply(s, c).state, Apply(s, c).value;
    NextKeepsInv(s, c);
    OpenedAsAsked(s, c);
    InitiatesExactly(s, c);
    AppearingRequest(s, c, id);
    DeadlineOf(s'.requests[id], id, c, voter.block);
    SlotAtHand(s'.registry, s'.requests[id].storage, voter.caller);
    VotesAcceptedExactly(s', voter, id, approve);
  }

  lemma PlacedSinceDeployment(b: Bridge, run: seq<Call>, v: AccountId)
    requires Initial(b) && v in After(b, run).registry.validators
    ensures v in After(b, run).registry.positions
  {
    InitialIsSound(b);
    ValidatorsStayPlaced(b, run, []);
  }

  /** Told from the history alone: since deployment a vote on a request is accepted exactly if the
      contract is not paused, the voter was appointed and not dismissed since, the time its initiation
      allowed has not run out, and no vote of the account stands. What was decided about the request
      plays no part. */
  lemma VotesFollowHistory(b: Bridge, run: seq<Call>, n: nat, id: u64, voter: Env, approve: bool)
    requires Initial(b) && OnlyOpenedAt(b, run, n, id)
    ensures Sign(After(b, run), voter, id, approve).Committed? <==>
      && !voter.paused && Appointed(b, run, voter.caller) && InTime(run[n], voter.block)
      && !VoteStands(b, run, id, voter.caller)
  {
    var s := After(b, run);
    InitialIsSound(b);
    Reachable(b, run);
    OpenedStays(b, run, n, id);
    RequestsAreAsAsked(b, run, id);
    OnlyBitmaps(b, run, id);
    var m: nat :| OnlyOpenedAt(b, run, m, id) && OnTerms(b, run, m, id);
    DeadlineOf(s.requests[id], id, run[n], voter.block);
    ValidatorsAreAppointed(b, run, voter, id, approve);
    SignersAreStandingVotes(b, run, id, voter.caller);
    VotesAcceptedExactly(s, voter, id, approve);
    if voter.caller in s.registry.validators {
      PlacedSinceDeployment(b, run, voter.caller);
      SlotAtHand(s.registry, s.requests[id].storage, voter.caller);
    }
  }

  /** Once its time has run out a request that is pending takes no vote, and no recovery either: only
      a rollback gets it out of that state. */
  lemma ExpiredIsNotRecovered(b: Bridge, run: seq<Call>, n: nat, id: u64, voter: Env, env: Env, approve: bool,
      action: RecoveryAction)
    requires Initial(b) && OnlyOpenedAt(b, run, n, id) && !InTime(run[n], voter.block)
    requires id in After(b, run).requests && After(b, run).requests[id].status == Pending
    ensures Sign(After(b, run), voter, id, approve).Reverted?
    ensures Recover(After(b, run), env, id, action).Reverted?
    ensures env.caller == After(b, run).admin ==> Rollback(After(b, run), env, id).Committed?
  {
    VotesFollowHistory(b, run, n, id, voter, approve);
    InterventionsOnRuns(b, run, env, id, action);
  }
}
