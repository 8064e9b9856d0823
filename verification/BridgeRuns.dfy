/** The bridge over whole runs: who voted for what was executed, how often it can be executed, and
    where it went. A run may contain any calls, failing ones included. It starts from any sound
    store, one that still holds legacy requests included, or, where a result says so, at deployment. */
module BridgeRuns {
  import opened Machine
  import opened SignatureBitmap
  import opened BridgeTypes
  import opened BridgeMessages
  import opened BridgeInvariant

  ghost predicate SucceedsAt(b: Bridge, run: seq<Call>, k: nat)
    requires k < |run|
  {
    Apply(After(b, run[..k]), run[k]).Committed?
  }

  /** The call wipes the votes of a request: a retry, a rollback, or a hop to the next leg. */
  predicate Wipes(s: Bridge, c: Call, id: u64) {
    || c.msg == MsgRollback(id)
    || c.msg == MsgRecover(id, RetryBridge)
    || (c.msg == MsgExecute(id) && id in s.requests && !IsLastHop(s.requests[id]))
  }

  ghost predicate WipedAt(b: Bridge, run: seq<Call>, k: nat, id: u64)
    requires k < |run|
  {
    SucceedsAt(b, run, k) && Wipes(After(b, run[..k]), run[k], id)
  }

  /** At step `k` the account, a validator at that moment, voted on the request, either way. */
  ghost predicate VotedAt(b: Bridge, run: seq<Call>, k: nat, id: u64, a: AccountId)
    requires k < |run|
  {
    && SucceedsAt(b, run, k) && run[k].msg.MsgSign? && run[k].msg.id == id && run[k].env.caller == a
    && a in After(b, run[..k]).registry.validators
  }

  /** The vote was cast at step `k`, and the votes were not wiped since. */
  ghost predicate VoteOf(b: Bridge, run: seq<Call>, id: u64, a: AccountId, k: nat) {
    && k < |run| && VotedAt(b, run, k, id, a)
    && forall j :: k < j < |run| ==> !WipedAt(b, run, j, id)
  }

  /** The account approved, or rejected, and the votes were not wiped since. */
  ghost predicate StandsAs(b: Bridge, run: seq<Call>, id: u64, a: AccountId, approve: bool) {
    exists k: nat :: VoteOf(b, run, id, a, k) && run[k].msg.approve == approve
  }

  ghost predicate VoteStands(b: Bridge, run: seq<Call>, id: u64, a: AccountId) {
    StandsAs(b, run, id, a, true) || StandsAs(b, run, id, a, false)
  }

  /** The store the run started from already counted the account, and the votes were never wiped. */
  ghost predicate CarriedOver(b: Bridge, run: seq<Call>, id: u64, a: AccountId) {
    && id in b.requests && a in SignersFor(b, id)
    && forall j :: 0 <= j < |run| ==> !WipedAt(b, run, j, id)
  }

  // ----- one step seen from one request ----------------------------------------------------

  /** The request a call names, if it names one. */
  function Target(m: Message): Option<u64> {
    match m
    case MsgSign(id, _) => Some(id)
    case MsgExecute(id) => Some(id)
    case MsgRecover(id, _) => Some(id)
    case MsgRollback(id) => Some(id)
    case MsgUpdateStatus(id, _, _, _, _, _, _) => Some(id)
    case _ => None
  }

  /** A call that names a request leaves every other request alone, and only adds slots. */
  lemma TargetedCall(s: Bridge, c: Call, id: u64)
    requires Inv(s) && Apply(s, c).Committed? && Target(c.msg) == Some(id)
    ensures var s' := Apply(s, c).state;
      && id in s.requests && id in s'.requests
      && Grown(s'.registry, s.registry)
      && s'.requests == s.requests[id := s'.requests[id]]
  {
    match c.msg
    case MsgSign(i, approve) => SignEffect(s, c.env, i, approve);
    case MsgExecute(i) => ExecuteEffect(s, c.env, i);
    case MsgRecover(i, action) => RecoverEffect(s, c.env, i, action);
    case MsgRollback(i) => RollbackEffect(s, c.env, i);
    case MsgUpdateStatus(i, _, _, _, _, _, _) =>
      assert s.requests[i := s.requests[i]] == s.requests;
  }

  /** A call that names no request changes no request. */
  lemma UntargetedCall(s: Bridge, c: Call, id: u64)
    requires Inv(s) && Apply(s, c).Committed? && Target(c.msg).None? && id in s.requests
    ensures var s' := Apply(s, c).state;
      && id in s'.requests && s'.requests[id] == s.requests[id]
      && SlotsMatch(s'.registry) && Extends(s'.registry, s.registry)
  {
    match c.msg
    case MsgAddValidator(v) => AddValidatorKeepsInv(s, c.env, v);
    case _ =>
  }

  /** No call changes a request it does not name, nor that request's signers. */
  lemma OtherCall(s: Bridge, c: Call, id: u64)
    requires Inv(s) && Apply(s, c).Committed? && Target(c.msg) != Some(id) && id in s.requests
    ensures var s' := Apply(s, c).state;
      id in s'.requests && s'.requests[id] == s.requests[id] && SignersFor(s', id) == SignersFor(s, id)
  {
    if Target(c.msg).None? {
      UntargetedCall(s, c, id);
    } else {
      TargetedCall(s, c, Target(c.msg).value);
    }
    GrowthKeepsRequest(Apply(s, c).state.registry, s.registry, s.requests[id]);
  }

  /** A request that appears is pending, on its first hop, and carries no votes. */
  lemma AppearingRequest(s: Bridge, c: Call, id: u64)
    requires Inv(s) && Apply(s, c).Committed? && id !in s.requests && id in Apply(s, c).state.requests
    ensures var s' := Apply(s, c).state;
      && Target(c.msg).None? && SignersFor(s', id) == {}
      && s'.requests[id].currentHop == 0 && s'.requests[id].status == Pending
  {
    if Target(c.msg).Some? {
      TargetedCall(s, c, Target(c.msg).value);
    } else {
      NobodySigned(s.registry);
    }
  }

  /** What a call does to the votes of the request it names. */
  lemma TargetVotes(s: Bridge, c: Call, id: u64)
    requires Inv(s) && Apply(s, c).Committed? && Target(c.msg) == Some(id)
    ensures var s' := Apply(s, c).state;
      && id in s.requests && id in s'.requests
      && SignersFor(s', id) ==
           if Wipes(s, c, id) then {}
           else if c.msg.MsgSign? then SignersFor(s, id) + {c.env.caller}
           else SignersFor(s, id)
  {
    match c.msg
    case MsgSign(i, approve) => SignEffect(s, c.env, i, approve);
    case MsgExecute(i) => ExecuteEffect(s, c.env, i);
    case MsgRecover(i, action) => RecoverEffect(s, c.env, i, action);
    case MsgRollback(i) => RollbackEffect(s, c.env, i);
    case MsgUpdateStatus(i, _, _, _, _, _, _) =>
  }

  /** What a call does to the votes of a request. */
  lemma VotesStep(s: Bridge, c: Call, id: u64)
    requires Inv(s) && Apply(s, c).Committed?
    ensures var s' := Apply(s, c).state;
      && (id in s.requests ==> id in s'.requests)
      && (id in s'.requests && id !in s.requests ==> SignersFor(s', id) == {})
      && (id in s.requests ==>
            SignersFor(s', id) ==
              if Wipes(s, c, id) then {}
              else if c.msg.MsgSign? && c.msg.id == id then SignersFor(s, id) + {c.env.caller}
              else SignersFor(s, id))
  {
    if Target(c.msg) == Some(id) {
      TargetVotes(s, c, id);
    } else if id in s.requests {
      OtherCall(s, c, id);
    } else if id in Apply(s, c).state.requests {
      AppearingRequest(s, c, id);
    }
  }

  /** A request that does not exist is neither named nor wiped by a call that succeeds. */
  lemma UnknownIsUntouched(s: Bridge, c: Call, id: u64)
    requires Inv(s) && Apply(s, c).Committed? && id !in s.requests
    ensures Target(c.msg) != Some(id) && !Wipes(s, c, id)
  {
    if Target(c.msg) == Some(id) {
      TargetedCall(s, c, id);
    }
  }

  // ----- standing votes --------------------------------------------------------------------

  /** The earlier steps of a run are the steps of the earlier run. */
  lemma EarlierSteps(b: Bridge, run: seq<Call>, id: u64, a: AccountId, k: nat)
    requires run != [] && k < |run| - 1
    ensures VotedAt(b, Earlier(run), k, id, a) == VotedAt(b, run, k, id, a)
    ensures WipedAt(b, Earlier(run), k, id) == WipedAt(b, run, k, id)
  {
    assert Earlier(run)[..k] == run[..k];
  }

  lemma VoteOfStep(b: Bridge, run: seq<Call>, id: u64, a: AccountId, k: nat)
    requires run != [] && k < |run| - 1
    ensures VoteOf(b, run, id, a, k) <==> VoteOf(b, Earlier(run), id, a, k) && !WipedAt(b, run, |run| - 1, id)
  {
    forall j | k <= j < |run| - 1
      ensures VotedAt(b, Earlier(run), j, id, a) == VotedAt(b, run, j, id, a)
      ensures WipedAt(b, Earlier(run), j, id) == WipedAt(b, run, j, id)
    {
      EarlierSteps(b, run, id, a, j);
    }
  }

  lemma VoteKeepsStanding(b: Bridge, run: seq<Call>, id: u64, a: AccountId, approve: bool)
    requires run != [] && StandsAs(b, Earlier(run), id, a, approve) && !WipedAt(b, run, |run| - 1, id)
    ensures StandsAs(b, run, id, a, approve)
  {
    var k: nat :| VoteOf(b, Earlier(run), id, a, k) && Earlier(run)[k].msg.approve == approve;
    VoteOfStep(b, run, id, a, k);
    assert VoteOf(b, run, id, a, k) && run[k].msg.approve == approve;
  }

  lemma FreshVoteStands(b: Bridge, run: seq<Call>, id: u64, a: AccountId)
    requires run != [] && VotedAt(b, run, |run| - 1, id, a)
    ensures StandsAs(b, run, id, a, Last(run).msg.approve)
  {
    assert VoteOf(b, run, id, a, |run| - 1);
  }

  lemma StandingVoteIsOld(b: Bridge, run: seq<Call>, id: u64, a: AccountId, k: nat)
    requires run != [] && VoteOf(b, run, id, a, k) && k < |run| - 1
    ensures StandsAs(b, Earlier(run), id, a, run[k].msg.approve) && !WipedAt(b, run, |run| - 1, id)
  {
    VoteOfStep(b, run, id, a, k);
    assert VoteOf(b, Earlier(run), id, a, k) && Earlier(run)[k] == run[k];
  }

  lemma NotLast(b: Bridge, run: seq<Call>, id: u64, a: AccountId, k: nat, last: nat)
    requires |run| == last + 1 && VoteOf(b, run, id, a, k)
    requires VotedAt(b, run, last, id, a) ==> run[last].msg.approve != run[k].msg.approve
    ensures k < last
  {
  }

  /** A vote that is not the last step stood before and was not wiped. */
  lemma VoteIsOld(b: Bridge, run: seq<Call>, id: u64, a: AccountId, k: nat, last: nat)
    requires |run| == last + 1 && VoteOf(b, run, id, a, k)
    requires VotedAt(b, run, last, id, a) ==> run[last].msg.approve != run[k].msg.approve
    ensures StandsAs(b, Earlier(run), id, a, run[k].msg.approve) && !WipedAt(b, run, |run| - 1, id)
  {
    NotLast(b, run, id, a, k, last);
    StandingVoteIsOld(b, run, id, a, k);
  }

  /** A standing vote that is not fresh stood before and was not wiped. */
  lemma StoodBefore(b: Bridge, run: seq<Call>, id: u64, a: AccountId, approve: bool, last: nat)
    requires |run| == last + 1 && StandsAs(b, run, id, a, approve)
    requires VotedAt(b, run, last, id, a) ==> run[last].msg.approve != approve
    ensures StandsAs(b, Earlier(run), id, a, approve) && !WipedAt(b, run, |run| - 1, id)
  {
    var k: nat :| VoteOf(b, run, id, a, k) && run[k].msg.approve == approve;
    VoteIsOld(b, run, id, a, k, last);
  }

  lemma StandsAsStep(b: Bridge, run: seq<Call>, id: u64, a: AccountId, approve: bool)
    requires run != []
    ensures StandsAs(b, run, id, a, approve) <==>
      || (VotedAt(b, run, |run| - 1, id, a) && Last(run).msg.approve == approve)
      || (StandsAs(b, Earlier(run), id, a, approve) && !WipedAt(b, run, |run| - 1, id))
  {
    if VotedAt(b, run, |run| - 1, id, a) && Last(run).msg.approve == approve {
      FreshVoteStands(b, run, id, a);
    } else if StandsAs(b, run, id, a, approve) {
      StoodBefore(b, run, id, a, approve, |run| - 1);
    } else if StandsAs(b, Earlier(run), id, a, approve) && !WipedAt(b, run, |run| - 1, id) {
      VoteKeepsStanding(b, run, id, a, approve);
    }
  }

  lemma CarriedOverStep(b: Bridge, run: seq<Call>, id: u64, a: AccountId)
    requires run != []
    ensures CarriedOver(b, run, id, a) <==>
      CarriedOver(b, Earlier(run), id, a) && !WipedAt(b, run, |run| - 1, id)
  {
    forall j | 0 <= j < |run| - 1 ensures WipedAt(b, Earlier(run), j, id) == WipedAt(b, run, j, id) {
      EarlierSteps(b, run, id, a, j);
    }
  }

  /** In how many ways the account's vote counts: approving, rejecting, carried over. */
  ghost function Stances(b: Bridge, run: seq<Call>, id: u64, a: AccountId): nat {
    (if StandsAs(b, run, id, a, true) then 1 else 0)
    + (if StandsAs(b, run, id, a, false) then 1 else 0)
    + (if CarriedOver(b, run, id, a) then 1 else 0)
  }

  lemma StancesStep(b: Bridge, run: seq<Call>, id: u64, a: AccountId)
    requires run != [] && Stances(b, Earlier(run), id, a) <= 1
    requires VotedAt(b, run, |run| - 1, id, a) ==> Stances(b, Earlier(run), id, a) == 0
    requires VotedAt(b, run, |run| - 1, id, a) ==> !WipedAt(b, run, |run| - 1, id)
    ensures Stances(b, run, id, a) ==
      if VotedAt(b, run, |run| - 1, id, a) then 1
      else if WipedAt(b, run, |run| - 1, id) then 0
      else Stances(b, Earlier(run), id, a)
  {
    StandsAsStep(b, run, id, a, true);
    StandsAsStep(b, run, id, a, false);
    CarriedOverStep(b, run, id, a);
  }

  ghost predicate Signed(s: Bridge, id: u64, a: AccountId) {
    id in s.requests && a in SignersFor(s, id)
  }

  /** A call adds the account to the signers by its vote, and drops it only by wiping the votes. */
  lemma SignedStep(s: Bridge, c: Call, id: u64, a: AccountId)
    requires Inv(s)
    ensures var voted := Apply(s, c).Committed? && c.msg.MsgSign? && c.msg.id == id && c.env.caller == a;
      && (Signed(Next(s, c), id, a) <==>
            voted || (Signed(s, id, a) && !(Apply(s, c).Committed? && Wipes(s, c, id))))
      && (voted ==> !Signed(s, id, a) && !Wipes(s, c, id) && a in s.registry.validators)
  {
    if Apply(s, c).Committed? {
      VotesStep(s, c, id);
      if c.msg.MsgSign? {
        SignEffect(s, c.env, c.msg.id, c.msg.approve);
      }
    }
  }

  /** The signers a request carries are exactly the accounts whose votes stand, each counted for one
      vote only, and those that a legacy store already counted. */
  lemma {:induction false} SignersAreStandingVotes(b: Bridge, run: seq<Call>, id: u64, a: AccountId)
    requires Inv(b)
    ensures Signed(After(b, run), id, a) <==> VoteStands(b, run, id, a) || CarriedOver(b, run, id, a)
    ensures Stances(b, run, id, a) == if Signed(After(b, run), id, a) then 1 else 0
  {
    if run == [] {
      assert !StandsAs(b, run, id, a, true) && !StandsAs(b, run, id, a, false);
    } else {
      SignersAreStandingVotes(b, Earlier(run), id, a);
      Reachable(b, Earlier(run));
      SignedStep(After(b, Earlier(run)), Last(run), id, a);
      StancesStep(b, run, id, a);
    }
  }

  /** Every execution is backed by enough distinct accounts, each of which was a validator when it
      voted, or was already counted by the store the run started from. */
  lemma ExecutionsAreBacked(b: Bridge, run: seq<Call>, n: nat, id: u64)
    requires Inv(b) && n < |run| && run[n].msg == MsgExecute(id) && SucceedsAt(b, run, n)
    ensures exists voters: set<AccountId> ::
      && id in After(b, run[..n]).requests
      && |voters| >= After(b, run[..n]).requests[id].requiredSignatures
      && forall a :: a in voters ==> VoteStands(b, run[..n], id, a) || CarriedOver(b, run[..n], id, a)
  {
    var s := After(b, run[..n]);
    Reachable(b, run[..n]);
    ExecuteEffect(s, run[n].env, id);
    forall a | a in SignersFor(s, id)
      ensures VoteStands(b, run[..n], id, a) || CarriedOver(b, run[..n], id, a)
    {
      SignersAreStandingVotes(b, run[..n], id, a);
    }
  }

  /** A locked request carries enough signers, in every reachable state. The count of its bitmap is
      their number exactly while not all 256 slots have signed. */
  lemma LockedMeansThreshold(b: Bridge, run: seq<Call>, id: u64)
    requires Inv(b) && id in After(b, run).requests && After(b, run).requests[id].status == Locked
    ensures var s := After(b, run);
      && |SignersFor(s, id)| >= s.requests[id].requiredSignatures
      && (s.requests[id].storage.Stored? ==>
            && |SignersFor(s, id)| <= |s.registry.slots|
            && (SignatureCount(s.requests[id].storage) == |SignersFor(s, id)| <==> |SignersFor(s, id)| < MAX_SLOTS))
  {
    var s := After(b, run);
    Reachable(b, run);
    if s.requests[id].storage.Stored? {
      SignersFitSlots(s.registry, s.requests[id].storage.bitmap);
      CountIsExact(s.requests[id].storage.bitmap);
    }
  }

  lemma SignersFitSlots(g: Registry, bitmap: Bitmap)
    requires SlotsMatch(g) && BitsAssigned(g, bitmap)
    ensures |SignersOf(g, bitmap)| == |Positions(bitmap)| <= |g.slots|
  {
    SignersCounted(g, bitmap);
    PopCountIsCardinality(bitmap);
    AtMostSlots(Positions(bitmap), |g.slots|);
  }

  lemma StaysBitmap(s: Bridge, c: Call, id: u64)
    requires Inv(s) && Apply(s, c).Committed? && Target(c.msg) == Some(id)
    requires id in s.requests && s.requests[id].storage.Stored?
    ensures id in Apply(s, c).state.requests && Apply(s, c).state.requests[id].storage.Stored?
  {
    match c.msg
    case MsgSign(i, approve) => SignEffect(s, c.env, i, approve);
    case MsgExecute(i) =>
    case MsgRecover(i, action) =>
    case MsgRollback(i) =>
    case MsgUpdateStatus(i, _, _, _, _, _, _) =>
  }

  lemma StartsAsBitmap(s: Bridge, c: Call, id: u64)
    requires Apply(s, c).Committed? && Target(c.msg).None? && id !in s.requests
    ensures id in Apply(s, c).state.requests ==> Apply(s, c).state.requests[id].storage.Stored?
  {
  }

  /** Since deployment every request is stored in the bitmap format. */
  lemma {:induction false} OnlyBitmaps(b: Bridge, run: seq<Call>, id: u64)
    requires Initial(b) && id in After(b, run).requests
    ensures After(b, run).requests[id].storage.Stored?
  {
    if run == [] {
    } else {
      var s, c := After(b, Earlier(run)), Last(run);
      InitialIsSound(b);
      Reachable(b, Earlier(run));
      if id in s.requests {
        OnlyBitmaps(b, Earlier(run), id);
        if Apply(s, c).Committed? {
          if Target(c.msg) == Some(id) {
            StaysBitmap(s, c, id);
          } else {
            OtherCall(s, c, id);
          }
        }
      } else {
        AppearingRequest(s, c, id);
        StartsAsBitmap(s, c, id);
      }
    }
  }

  /** The one-byte count of so many signers meets the requirement: when all 256 slots have signed the
      count is zero, and meets none but zero. */
  predicate CountMeets(signers: nat, required: nat) {
    signers >= required && (signers < MAX_SLOTS || required == 0)
  }

  lemma CountMeetsExactly(g: Registry, bitmap: Bitmap, required: nat)
    requires SlotsMatch(g) && BitsAssigned(g, bitmap)
    ensures |SignersOf(g, bitmap)| <= MAX_SLOTS
    ensures SignatureCount(Stored(bitmap)) >= required <==> CountMeets(|SignersOf(g, bitmap)|, required)
  {
    SignersFitSlots(g, bitmap);
    CountIsExact(bitmap);
  }

  // ----- locking ---------------------------------------------------------------------------

  lemma TalliedLocks(g: Registry, r: Request, bitmap: Bitmap, approve: bool, signers: set<AccountId>, voter: AccountId)
    requires SlotsMatch(g) && BitsAssigned(g, bitmap)
    requires voter !in signers && SignersOf(g, bitmap) == signers + {voter}
    ensures Tallied(r.(storage := Stored(bitmap)), approve).status ==
      if !approve then Failed
      else if CountMeets(|signers| + 1, r.requiredSignatures) then Locked
      else r.status
  {
    OneMoreSigner(signers, voter);
    CountMeetsExactly(g, bitmap, r.requiredSignatures);
  }

  /** What a vote makes of the status. */
  lemma SignLocks(s: Bridge, env: Env, id: u64, approve: bool)
    requires Inv(s) && Sign(s, env, id, approve).Committed?
    ensures var s' := Sign(s, env, id, approve).state;
      && id in s'.requests && |SignersFor(s', id)| == |SignersFor(s, id)| + 1
      && s'.requests[id].status ==
           if !approve then Failed
           else if CountMeets(|SignersFor(s, id)| + 1, s.requests[id].requiredSignatures) then Locked
           else s.requests[id].status
  {
    SignEffect(s, env, id, approve);
    OneMoreSigner(SignersFor(s, id), env.caller);
    var s' := Sign(s, env, id, approve).state;
    TalliedLocks(s'.registry, s.requests[id], s'.requests[id].storage.bitmap, approve,
                 SignersFor(s, id), env.caller);
  }

  /** A request becomes locked exactly by an approving vote whose count meets the threshold. What was
      decided about the request before plays no part. */
  lemma LocksExactly(s: Bridge, c: Call, id: u64)
    requires Inv(s) && Apply(s, c).Committed? && id in s.requests && s.requests[id].status != Locked
    ensures var s' := Apply(s, c).state;
      && id in s'.requests
      && (s'.requests[id].status == Locked <==>
            c.msg == MsgSign(id, true) && CountMeets(|SignersFor(s, id)| + 1, s.requests[id].requiredSignatures))
  {
    if Target(c.msg) != Some(id) {
      OtherCall(s, c, id);
    } else if c.msg.MsgSign? {
      SignLocks(s, c.env, id, c.msg.approve);
    } else {
      NoVoteNoLock(s, c, id);
    }
  }

  lemma NoVoteNoLock(s: Bridge, c: Call, id: u64)
    requires Inv(s) && Apply(s, c).Committed? && id in s.requests && s.requests[id].status != Locked
    requires Target(c.msg) == Some(id) && !c.msg.MsgSign?
    ensures id in Apply(s, c).state.requests && Apply(s, c).state.requests[id].status != Locked
  {
    match c.msg
    case MsgExecute(i) => ExecuteEffect(s, c.env, i);
    case MsgRecover(i, action) => RecoverEffect(s, c.env, i, action);
    case MsgRollback(i) => RollbackEffect(s, c.env, i);
    case MsgUpdateStatus(i, _, _, _, _, _, _) =>
  }

  /** At step `k` an approving vote met the request's threshold. */
  ghost predicate ReachesThresholdAt(b: Bridge, run: seq<Call>, k: nat, id: u64)
    requires k < |run|
  {
    var s := After(b, run[..k]);
    && SucceedsAt(b, run, k) && run[k].msg == MsgSign(id, true)
    && id in s.requests && CountMeets(|SignersFor(s, id)| + 1, s.requests[id].requiredSignatures)
  }

  /** A request that is not locked, completed and rolled back ones included, stays so, and cannot be
      executed, until an approving vote meets its threshold. */
  lemma {:induction false} UnlockedUntilVoted(b: Bridge, run: seq<Call>, n: nat, env: Env, id: u64)
    requires Inv(b) && n <= |run|
    requires id in After(b, run[..n]).requests && After(b, run[..n]).requests[id].status != Locked
    requires forall k :: n <= k < |run| ==> !ReachesThresholdAt(b, run, k, id)
    ensures id in After(b, run).requests && After(b, run).requests[id].status != Locked
    ensures Execute(After(b, run), env, id).Reverted?
  {
    if n == |run| {
      assert run[..n] == run;
    } else {
      var e := Earlier(run);
      assert e[..n] == run[..n];
      forall k | n <= k < |e| ensures !ReachesThresholdAt(b, e, k, id) {
        assert e[..k] == run[..k] && e[k] == run[k];
        assert !ReachesThresholdAt(b, run, k, id);
      }
      UnlockedUntilVoted(b, e, n, env, id);
      Reachable(b, e);
      assert !ReachesThresholdAt(b, run, |run| - 1, id);
      if Apply(After(b, e), Last(run)).Committed? {
        LocksExactly(After(b, e), Last(run), id);
      }
    }
  }

  ghost predicate Unobstructed(s: Bridge, env: Env) {
    !env.paused && env.caller in s.operators && !env.travelDataMissing && !env.tokenFrozen
  }

  /** The next hop, if there is one, can still be counted. */
  predicate HopFits(r: Request) {
    IsLastHop(r) || r.currentHop < U32_MAX
  }

  /** An execution succeeds exactly if nothing obstructs it and the request is locked, its signatures
      can be read, and not all 256 slots have signed it; the threshold itself never decides. */
  lemma ExecutesExactlyWhenLocked(s: Bridge, env: Env, id: u64)
    requires Inv(s)
    ensures Execute(s, env, id).Committed? <==>
      && Unobstructed(s, env) && id in s.requests && s.requests[id].status == Locked && HopFits(s.requests[id])
      && Normalize(s.registry, s.requests[id].storage).Committed?
      && (|SignersFor(s, id)| < MAX_SLOTS || s.requests[id].requiredSignatures == 0)
  {
    if id in s.requests && Normalize(s.registry, s.requests[id].storage).Committed? {
      var n := Normalize(s.registry, s.requests[id].storage);
      NormalizeKeepsSigners(s.registry, s.requests[id].storage);
      CountMeetsExactly(n.state, n.value, s.requests[id].requiredSignatures);
    }
  }

  lemma VoteMeets(status: OperationStatus, status': OperationStatus, approve: bool, signers: nat, required: nat)
    requires status == Locked ==> signers >= required
    requires status' == if !approve then Failed else if CountMeets(signers + 1, required) then Locked else status
    ensures status' == Locked && (signers + 1 < MAX_SLOTS || required == 0) <==>
      approve && CountMeets(signers + 1, required)
  {
  }

  /** Whatever was decided about a request before, it refuses execution while it is not locked; and
      after a vote, locked or not before, it executes exactly when that vote approves and the count
      with it meets the threshold. */
  lemma ReopensExactly(s: Bridge, voter: Env, env: Env, id: u64, approve: bool)
    requires Inv(s) && Sign(s, voter, id, approve).Committed?
    ensures s.requests[id].status != Locked ==> Execute(s, env, id).Reverted?
    ensures Execute(Sign(s, voter, id, approve).state, env, id).Committed? <==>
      && Unobstructed(s, env) && HopFits(s.requests[id])
      && approve && CountMeets(|SignersFor(s, id)| + 1, s.requests[id].requiredSignatures)
  {
    SignEffect(s, voter, id, approve);
    SignKeepsInv(s, voter, id, approve);
    SignLocks(s, voter, id, approve);
    var s' := Sign(s, voter, id, approve).state;
    ExecutesExactlyWhenLocked(s', env, id);
    var r := s.requests[id];
    VoteMeets(r.status, s'.requests[id].status, approve, |SignersFor(s, id)|, r.requiredSignatures);
    assert HopFits(s'.requests[id]) == HopFits(r);
  }

  /** So a locked request that the last of 256 slots also signs stays locked and cannot be executed
      any more: not even the vote of every validator is too little, it is one too many. */
  lemma LastSlotBlocks(s: Bridge, voter: Env, env: Env, id: u64)
    requires Inv(s) && Sign(s, voter, id, true).Committed? && s.requests[id].status == Locked
    requires |SignersFor(s, id)| == MAX_SLOTS - 1 && s.requests[id].requiredSignatures > 0
    ensures Sign(s, voter, id, true).state.requests[id].status == Locked
    ensures Execute(Sign(s, voter, id, true).state, env, id).Reverted?
  {
    SignLocks(s, voter, id, true);
    ReopensExactly(s, voter, env, id, true);
  }

  /** A vote is accepted exactly from a validator with a slot to be had that is not a signer yet, on
      a request whose signatures can be read and whose time has not run out. */
  lemma VotesAcceptedExactly(s: Bridge, env: Env, id: u64, approve: bool)
    requires Inv(s)
    ensures Sign(s, env, id, approve).Committed? <==>
      && !env.paused && env.caller in s.registry.validators && id in s.requests
      && (s.requests[id].expiresAt.Some? ==> env.block <= s.requests[id].expiresAt.value)
      && Normalize(s.registry, s.requests[id].storage).Committed?
      && PositionOf(Normalize(s.registry, s.requests[id].storage).state, env.caller).Committed?
      && env.caller !in SignersFor(s, id)
  {
    if id in s.requests && Normalize(s.registry, s.requests[id].storage).Committed? {
      if PositionOf(Normalize(s.registry, s.requests[id].storage).state, env.caller).Committed? {
        VoteInBitmap(s.registry, s.requests[id].storage, env.caller);
      }
    }
  }

  // ----- approvals -------------------------------------------------------------------------

  /** The signers whose standing vote approves, or rejects. */
  ghost function Voters(b: Bridge, run: seq<Call>, id: u64, approve: bool): set<AccountId>
    requires id in After(b, run).requests
  {
    set a | a in SignersFor(After(b, run), id) && StandsAs(b, run, id, a, approve)
  }

  lemma OneStance(b: Bridge, run: seq<Call>, id: u64, a: AccountId)
    requires Initial(b) && id in After(b, run).requests && a in SignersFor(After(b, run), id)
    ensures StandsAs(b, run, id, a, true) != StandsAs(b, run, id, a, false)
  {
    InitialIsSound(b);
    SignersAreStandingVotes(b, run, id, a);
  }

  lemma TwoParts(whole: set<AccountId>, x: set<AccountId>, y: set<AccountId>)
    requires x <= whole && y <= whole && forall a :: a in whole ==> (a in x) != (a in y)
    ensures x + y == whole && x !! y && |x| + |y| == |whole|
  {
    assert x !! y;
    assert |x + y| == |x| + |y|;
  }

  /** Since deployment, every signer either approved or rejected, and none did both. */
  lemma SignersSplit(b: Bridge, run: seq<Call>, id: u64)
    requires Initial(b) && id in After(b, run).requests
    ensures var signers := SignersFor(After(b, run), id);
      && Voters(b, run, id, true) + Voters(b, run, id, false) == signers
      && Voters(b, run, id, true) !! Voters(b, run, id, false)
      && |Voters(b, run, id, true)| + |Voters(b, run, id, false)| == |signers|
  {
    var signers, yes, no := SignersFor(After(b, run), id), Voters(b, run, id, true), Voters(b, run, id, false);
    forall a | a in signers ensures (a in yes) != (a in no) {
      OneStance(b, run, id, a);
    }
    TwoParts(signers, yes, no);
  }

  /** A rejecting vote counts towards the threshold like an approving one. So the approvals reach it
      exactly when the signers left over after it can cover the rejections. */
  lemma ApprovalsReachThreshold(b: Bridge, run: seq<Call>, id: u64)
    requires Initial(b) && id in After(b, run).requests
    ensures var required := After(b, run).requests[id].requiredSignatures;
      |Voters(b, run, id, true)| >= required <==>
        |Voters(b, run, id, false)| <= |SignersFor(After(b, run), id)| - required
  {
    SignersSplit(b, run, id);
  }

  // ----- how often a request can be executed -----------------------------------------------

  /** The count of executions since the last wipe, one call later. */
  ghost function Counting(s: Bridge, c: Call, id: u64, executions: nat): nat {
    if Apply(s, c).Reverted? then executions
    else if Wipes(s, c, id) then 0
    else executions + if c.msg == MsgExecute(id) then 1 else 0
  }

  /** Successful executions of a request since its votes were last wiped. */
  ghost function Executions(b: Bridge, run: seq<Call>, id: u64): nat {
    if run == [] then 0
    else Counting(After(b, Earlier(run)), Last(run), id, Executions(b, Earlier(run), id))
  }

  /** The votes left over for one more execution: one past the threshold, once it is reached. */
  ghost predicate Allowance(r: Request, signers: nat, executions: nat) {
    && (signers < r.requiredSignatures ==> executions == 0)
    && (signers >= r.requiredSignatures ==> executions <= signers - r.requiredSignatures + 1)
    && (r.status == Locked ==> executions + r.requiredSignatures <= signers)
  }

  lemma TalliedAllowance(r: Request, storage: SignatureStorage, approve: bool, signers: nat, executions: nat)
    requires Allowance(r, signers, executions) && SignatureCount(storage) <= signers + 1
    ensures Allowance(Tallied(r.(storage := storage), approve), signers + 1, executions)
  {
  }

  lemma SignAllowance(s: Bridge, env: Env, id: u64, approve: bool, executions: nat)
    requires Inv(s) && Sign(s, env, id, approve).Committed? && id in s.requests
    requires Allowance(s.requests[id], |SignersFor(s, id)|, executions)
    ensures var s' := Sign(s, env, id, approve).state;
      id in s'.requests && Allowance(s'.requests[id], |SignersFor(s', id)|, executions)
  {
    SignEffect(s, env, id, approve);
    OneMoreSigner(SignersFor(s, id), env.caller);
    var s' := Sign(s, env, id, approve).state;
    CountAtMost(s'.registry, s'.requests[id].storage.bitmap);
    TalliedAllowance(s.requests[id], s'.requests[id].storage, approve, |SignersFor(s, id)|, executions);
  }

  lemma ExecuteAllowance(s: Bridge, env: Env, id: u64, executions: nat)
    requires Inv(s) && Execute(s, env, id).Committed? && id in s.requests && IsLastHop(s.requests[id])
    requires Allowance(s.requests[id], |SignersFor(s, id)|, executions)
    ensures var s' := Execute(s, env, id).state;
      id in s'.requests && Allowance(s'.requests[id], |SignersFor(s', id)|, executions + 1)
  {
    ExecuteEffect(s, env, id);
  }

  lemma RecoverAllowance(s: Bridge, env: Env, id: u64, action: RecoveryAction, executions: nat)
    requires Inv(s) && Recover(s, env, id, action).Committed? && id in s.requests && action != RetryBridge
    requires Allowance(s.requests[id], |SignersFor(s, id)|, executions)
    ensures var s' := Recover(s, env, id, action).state;
      id in s'.requests && Allowance(s'.requests[id], |SignersFor(s', id)|, executions)
  {
    RecoverEffect(s, env, id, action);
  }

  ghost predicate Bounded(s: Bridge, id: u64, executions: nat) {
    if id in s.requests then Allowance(s.requests[id], |SignersFor(s, id)|, executions) else executions == 0
  }

  lemma AllowanceStep(s: Bridge, c: Call, id: u64, executions: nat)
    requires Inv(s) && Apply(s, c).Committed? && id in s.requests && !Wipes(s, c, id)
    requires Bounded(s, id, executions)
    ensures Bounded(Apply(s, c).state, id, Counting(s, c, id, executions))
  {
    if Target(c.msg) != Some(id) {
      OtherCall(s, c, id);
    } else {
      match c.msg
      case MsgSign(i, approve) => SignAllowance(s, c.env, i, approve, executions);
      case MsgExecute(i) => ExecuteAllowance(s, c.env, i, executions);
      case MsgRecover(i, action) => RecoverAllowance(s, c.env, i, action, executions);
      case MsgUpdateStatus(i, _, _, _, _, _, _) =>
    }
  }

  lemma WipedRequestIsOpen(s: Bridge, c: Call, id: u64)
    requires Inv(s) && Apply(s, c).Committed? && id in s.requests && Wipes(s, c, id)
    ensures id in Apply(s, c).state.requests && Apply(s, c).state.requests[id].status != Locked
  {
    match c.msg
    case MsgExecute(i) => ExecuteEffect(s, c.env, i);
    case MsgRecover(i, action) => RecoverEffect(s, c.env, i, action);
    case MsgRollback(i) => RollbackEffect(s, c.env, i);
  }

  lemma BoundStep(s: Bridge, c: Call, id: u64, executions: nat)
    requires Inv(s) && Apply(s, c).Committed? && Bounded(s, id, executions)
    ensures Bounded(Apply(s, c).state, id, Counting(s, c, id, executions))
  {
    VotesStep(s, c, id);
    if id in s.requests && !Wipes(s, c, id) {
      AllowanceStep(s, c, id, executions);
    } else if id in s.requests {
      WipedRequestIsOpen(s, c, id);
    } else {
      UnknownIsUntouched(s, c, id);
      if id in Apply(s, c).state.requests {
        AppearingRequest(s, c, id);
      }
    }
  }

  /** Between two wipes a request is executed at most once per signer past the threshold, and once
      for the threshold itself. */
  lemma {:induction false} ExecutionsAreBounded(b: Bridge, run: seq<Call>, id: u64)
    requires Inv(b)
    ensures Bounded(After(b, run), id, Executions(b, run, id))
  {
    if run == [] {
    } else {
      var e, c := Earlier(run), Last(run);
      ExecutionsAreBounded(b, e, id);
      Reachable(b, e);
      if Apply(After(b, e), c).Committed? {
        BoundStep(After(b, e), c, id, Executions(b, e, id));
      }
    }
  }

  // ----- approvals behind executions -------------------------------------------------------

  /** The approving accounts of a request, none if there is no such request. */
  ghost function Approvers(b: Bridge, run: seq<Call>, id: u64): set<AccountId> {
    if id in After(b, run).requests then Voters(b, run, id, true) else {}
  }

  ghost predicate Approves(b: Bridge, run: seq<Call>, id: u64, a: AccountId) {
    Signed(After(b, run), id, a) && StandsAs(b, run, id, a, true)
  }

  lemma ApprovesStep(b: Bridge, run: seq<Call>, id: u64, a: AccountId)
    requires Inv(b) && run != []
    ensures var s, c := After(b, Earlier(run)), Last(run);
      Approves(b, run, id, a) <==>
        if Apply(s, c).Committed? && c.msg == MsgSign(id, true) && c.env.caller == a then true
        else Approves(b, Earlier(run), id, a) && !(Apply(s, c).Committed? && Wipes(s, c, id))
  {
    var s := After(b, Earlier(run));
    Reachable(b, Earlier(run));
    SignedStep(s, Last(run), id, a);
    StandsAsStep(b, run, id, a, true);
    SignersAreStandingVotes(b, Earlier(run), id, a);
  }

  /** An approving vote adds its account to the approvers, a wipe drops them all, and nothing else
      changes them. */
  lemma ApproversStep(b: Bridge, run: seq<Call>, id: u64)
    requires Inv(b) && run != []
    ensures var s, c := After(b, Earlier(run)), Last(run);
      Approvers(b, run, id) ==
        if Apply(s, c).Committed? && c.msg == MsgSign(id, true) then Approvers(b, Earlier(run), id) + {c.env.caller}
        else if Apply(s, c).Committed? && Wipes(s, c, id) then {}
        else Approvers(b, Earlier(run), id)
  {
    forall a: AccountId
      ensures a in Approvers(b, run, id) <==> Approves(b, run, id, a)
      ensures a in Approvers(b, Earlier(run), id) <==> Approves(b, Earlier(run), id, a)
    {
    }
    forall a: AccountId { ApprovesStep(b, run, id, a); }
  }

  ghost function IfLocked(s: Bridge, id: u64): nat {
    if id in s.requests && s.requests[id].status == Locked then 1 else 0
  }

  /** An approving vote by an account that had not voted. */
  lemma ApprovalIsNew(b: Bridge, run: seq<Call>, id: u64)
    requires Inv(b) && run != [] && Last(run).msg == MsgSign(id, true)
    requires Apply(After(b, Earlier(run)), Last(run)).Committed?
    ensures Last(run).env.caller !in Approvers(b, Earlier(run), id)
  {
    Reachable(b, Earlier(run));
    SignEffect(After(b, Earlier(run)), Last(run).env, id, true);
  }

  /** Executions and locks are paid for: only a vote locks, and each execution unlocks. */
  lemma LockedStep(s: Bridge, c: Call, id: u64, executions: nat)
    requires Inv(s) && Apply(s, c).Committed? && (id !in s.requests ==> executions == 0)
    ensures var s' := Apply(s, c).state;
      var later := Counting(s, c, id, executions) + IfLocked(s', id);
      && (Wipes(s, c, id) ==> later == 0)
      && (c.msg != MsgSign(id, true) ==> later <= executions + IfLocked(s, id))
      && (c.msg == MsgSign(id, true) ==> later <= executions + 1)
      && (id !in s'.requests ==> Counting(s, c, id, executions) == 0)
  {
    VotesStep(s, c, id);
    if id !in s.requests {
      UnknownIsUntouched(s, c, id);
      if id in Apply(s, c).state.requests {
        AppearingRequest(s, c, id);
      }
    } else if Wipes(s, c, id) {
      WipedRequestIsOpen(s, c, id);
    } else if c.msg == MsgExecute(id) {
      ExecuteEffect(s, c.env, id);
    } else if s.requests[id].status != Locked {
      LocksExactly(s, c, id);
    }
  }

  /** Every execution of a request since its votes were last wiped, and its being locked again, is
      paid for by a standing approval of its own. */
  lemma {:induction false} ExecutionsArePaid(b: Bridge, run: seq<Call>, id: u64)
    requires Initial(b)
    ensures Executions(b, run, id) + IfLocked(After(b, run), id) <= |Approvers(b, run, id)|
    ensures id !in After(b, run).requests ==> Executions(b, run, id) == 0
  {
    InitialIsSound(b);
    if run == [] {
    } else {
      var e, c := Earlier(run), Last(run);
      var s := After(b, e);
      ExecutionsArePaid(b, e, id);
      Reachable(b, e);
      ApproversStep(b, run, id);
      if Apply(s, c).Committed? {
        LockedStep(s, c, id, Executions(b, e, id));
        if c.msg == MsgSign(id, true) {
          ApprovalIsNew(b, run, id);
          OneMoreSigner(Approvers(b, e, id), c.env.caller);
        }
      }
    }
  }

  /** A locked request has one standing approval more than it was executed since the last wipe. */
  lemma LockedHasApproval(b: Bridge, run: seq<Call>, id: u64)
    requires Initial(b) && id in After(b, run).requests && After(b, run).requests[id].status == Locked
    ensures |Voters(b, run, id, true)| >= Executions(b, run, id) + 1
    ensures exists a :: StandsAs(b, run, id, a, true)
  {
    ExecutionsArePaid(b, run, id);
    var a :| a in Voters(b, run, id, true);
  }

  /** So the k-th execution since the last wipe has at least k standing approvals, whatever the
      threshold. */
  lemma ExecutionsAreApproved(b: Bridge, run: seq<Call>, n: nat, id: u64)
    requires Initial(b) && n < |run| && run[n].msg == MsgExecute(id) && SucceedsAt(b, run, n)
    ensures id in After(b, run[..n]).requests
    ensures |Voters(b, run[..n], id, true)| >= Executions(b, run[..n], id) + 1
    ensures exists a :: StandsAs(b, run[..n], id, a, true)
  {
    InitialIsSound(b);
    Reachable(b, run[..n]);
    ExecuteEffect(After(b, run[..n]), run[n].env, id);
    LockedHasApproval(b, run[..n], id);
  }

  // ----- slots -----------------------------------------------------------------------------

  lemma RegistryGrows(s: Bridge, c: Call)
    requires Inv(s)
    ensures Extends(Next(s, c).registry, s.registry)
    ensures ValidatorsPlaced(s.registry) ==> ValidatorsPlaced(Next(s, c).registry)
  {
    if Apply(s, c).Committed? {
      if Target(c.msg).Some? {
        TargetedCall(s, c, Target(c.msg).value);
      } else if c.msg.MsgAddValidator? {
        AddValidatorKeepsInv(s, c.env, c.msg.validator);
        AssignKeepsSlots(s.registry, c.msg.validator);
      }
    }
  }

  /** A validator's slot never moves, whatever is added, removed, added again or migrated. */
  lemma {:induction false} SlotsNeverMove(b: Bridge, run: seq<Call>, n: nat)
    requires Inv(b) && n <= |run|
    ensures SlotsMatch(After(b, run).registry)
    ensures Extends(After(b, run).registry, After(b, run[..n]).registry)
  {
    Reachable(b, run);
    if n == |run| {
      assert run[..n] == run;
    } else {
      var e, c := Earlier(run), Last(run);
      SlotsNeverMove(b, e, n);
      assert e[..n] == run[..n];
      Reachable(b, e);
      RegistryGrows(After(b, e), c);
      ExtendsTransitive(After(b, run).registry, After(b, e).registry, After(b, run[..n]).registry);
    }
  }

  ghost predicate ValidatorsPlaced(g: Registry) {
    forall v :: v in g.validators ==> v in g.positions
  }

  /** Since deployment every validator has a slot; so a legacy list migrates exactly when all its
      signers have one, and takes no further slots. */
  lemma {:induction false} ValidatorsStayPlaced(b: Bridge, run: seq<Call>, signers: seq<AccountId>)
    requires Inv(b) && ValidatorsPlaced(b.registry)
    ensures var g := After(b, run).registry;
      && ValidatorsPlaced(g)
      && (Collect(g, signers).Committed? <==> forall a :: a in signers ==> a in g.positions)
      && (Collect(g, signers).Committed? ==> Collect(g, signers).state == g)
  {
    Reachable(b, run);
    if run == [] {
    } else {
      Reachable(b, Earlier(run));
      ValidatorsStayPlaced(b, Earlier(run), signers);
      RegistryGrows(After(b, Earlier(run)), Last(run));
    }
    PlacedSignersMigrate(After(b, run).registry, signers);
  }

  // ----- routes ----------------------------------------------------------------------------

  /** The destinations of a request's successful executions, in order. */
  ghost function Itinerary(b: Bridge, run: seq<Call>, id: u64): seq<ChainId> {
    if run == [] then []
    else
      var e, c := Earlier(run), Last(run);
      Itinerary(b, e, id)
      + if c.msg == MsgExecute(id) && SucceedsAt(b, run, |run| - 1) && id in After(b, e).requests
        then [After(b, e).requests[id].destinationChain] else []
  }

  /** The itinerary is the route up to the current hop; anything after that went to the last hop,
      and a completed request has been there. */
  ghost predicate Follows(itinerary: seq<ChainId>, r: Request) {
    && r.currentHop <= |itinerary|
    && (r.route != [] ==> r.currentHop < |r.route| && itinerary[..r.currentHop] == r.route[..r.currentHop])
    && (forall j :: r.currentHop <= j < |itinerary| ==> itinerary[j] == r.destinationChain)
    && (r.currentHop < |itinerary| ==> IsLastHop(r))
    && (r.status == Completed ==> r.currentHop < |itinerary|)
  }

  /** The request has not moved, and was not completed. */
  predicate Unmoved(r: Request, r': Request) {
    && r'.route == r.route && r'.currentHop == r.currentHop && r'.requiredSignatures == r.requiredSignatures
    && r'.sourceChain == r.sourceChain && r'.destinationChain == r.destinationChain
    && (r'.status == Completed ==> r.status == Completed)
  }

  lemma NamedCallMoves(s: Bridge, c: Call, id: u64)
    requires Inv(s) && Apply(s, c).Committed? && Target(c.msg) == Some(id) && c.msg != MsgExecute(id)
    ensures id in s.requests && id in Apply(s, c).state.requests
    ensures Unmoved(s.requests[id], Apply(s, c).state.requests[id])
  {
    match c.msg
    case MsgSign(i, approve) => SignEffect(s, c.env, i, approve);
    case MsgRecover(i, action) => RecoverEffect(s, c.env, i, action);
    case MsgRollback(i) => RollbackEffect(s, c.env, i);
    case MsgUpdateStatus(i, _, _, _, _, _, _) =>
  }

  /** A call other than an execution leaves a request on its hop, and never completes it. */
  lemma OnlyExecutionMoves(s: Bridge, c: Call, id: u64)
    requires Inv(s) && Apply(s, c).Committed? && id in s.requests && c.msg != MsgExecute(id)
    ensures var s' := Apply(s, c).state; id in s'.requests && Unmoved(s.requests[id], s'.requests[id])
  {
    if Target(c.msg) == Some(id) {
      NamedCallMoves(s, c, id);
    } else {
      OtherCall(s, c, id);
    }
  }

  /** Each execution short of the last hop moves one hop on; the last one completes the request. */
  lemma ExecutionProgress(s: Bridge, env: Env, id: u64)
    requires Inv(s) && Execute(s, env, id).Committed?
    ensures var r, r' := s.requests[id], Execute(s, env, id).state.requests[id];
      && r'.route == r.route && r'.requiredSignatures == r.requiredSignatures
      && (IsLastHop(r) ==>
            r' == r.(status := Completed, multiHopStatus := HopCompleted, storage := r'.storage))
      && (!IsLastHop(r) ==>
            && |r'.route| - r'.currentHop == |r.route| - r.currentHop - 1 > 0
            && r'.sourceChain == r.destinationChain
            && r'.destinationChain == r.route[r'.currentHop]
            && r'.status == Pending)
  {
    ExecuteEffect(s, env, id);
  }

  lemma FollowsOn(itinerary: seq<ChainId>, r: Request, r': Request)
    requires Routed(r) && Follows(itinerary, r) && (!IsLastHop(r) ==> r.currentHop < U32_MAX)
    requires r' == Hopped(r).(storage := r'.storage)
    ensures Follows(itinerary + [r.destinationChain], r')
  {
    if !IsLastHop(r) {
      var longer := itinerary + [r.destinationChain];
      assert r.currentHop == |itinerary|;
      assert r.route[..r.currentHop + 1] == r.route[..r.currentHop] + [r.route[r.currentHop]];
      assert longer[..r.currentHop + 1] == itinerary[..r.currentHop] + [r.destinationChain];
    }
  }

  lemma FollowsStep(itinerary: seq<ChainId>, s: Bridge, env: Env, id: u64)
    requires Inv(s) && Execute(s, env, id).Committed? && Follows(itinerary, s.requests[id])
    ensures Follows(itinerary + [s.requests[id].destinationChain], Execute(s, env, id).state.requests[id])
  {
    ExecuteEffect(s, env, id);
    FollowsOn(itinerary, s.requests[id], Execute(s, env, id).state.requests[id]);
  }

  /** One call keeps the itinerary on the route. */
  lemma ItineraryStep(s: Bridge, c: Call, id: u64, itinerary: seq<ChainId>)
    requires Inv(s) && Apply(s, c).Committed? && id in Apply(s, c).state.requests
    requires if id in s.requests then Follows(itinerary, s.requests[id]) else itinerary == []
    ensures Follows(
      itinerary + if c.msg == MsgExecute(id) then [s.requests[id].destinationChain] else [],
      Apply(s, c).state.requests[id])
  {
    if id !in s.requests {
      AppearingRequest(s, c, id);
    } else if c.msg == MsgExecute(id) {
      FollowsStep(itinerary, s, c.env, id);
    } else {
      OnlyExecutionMoves(s, c, id);
    }
  }

  /** A request visits its route in order, and is completed only at its end. */
  lemma {:induction false} RoutesAreFollowed(b: Bridge, run: seq<Call>, id: u64)
    requires Initial(b)
    ensures id !in After(b, run).requests ==> Itinerary(b, run, id) == []
    ensures id in After(b, run).requests ==> Follows(Itinerary(b, run, id), After(b, run).requests[id])
  {
    if run == [] {
    } else {
      var e, c := Earlier(run), Last(run);
      RoutesAreFollowed(b, e, id);
      InitialIsSound(b);
      Reachable(b, e);
      var s := After(b, e);
      if Apply(s, c).Committed? {
        VotesStep(s, c, id);
        if id in Apply(s, c).state.requests {
          ItineraryStep(s, c, id, Itinerary(b, e, id));
        }
      }
    }
  }

  /** A routed request stands on its route, and its tracker, if it has one, follows it. */
  lemma RequestsStandOnTheirRoutes(b: Bridge, run: seq<Call>, id: u64)
    requires Inv(b) && id in After(b, run).requests
    ensures var s := After(b, run);
      Routed(s.requests[id]) && (id in s.trackers ==> Tracks(s.trackers[id], s.requests[id]))
  {
    Reachable(b, run);
  }

  lemma TargetedTrackers(s: Bridge, c: Call, id: u64)
    requires Inv(s) && Apply(s, c).Committed? && Target(c.msg) == Some(id)
    ensures s.trackers.Keys <= Apply(s, c).state.trackers.Keys
  {
    match c.msg
    case MsgSign(i, approve) => SignEffect(s, c.env, i, approve);
    case MsgExecute(i) =>
    case MsgRecover(i, action) => RecoverEffect(s, c.env, i, action);
    case MsgRollback(i) =>
    case MsgUpdateStatus(i, _, _, _, _, _, _) =>
  }

  lemma UntargetedTrackers(s: Bridge, c: Call)
    requires Apply(s, c).Committed? && Target(c.msg).None? && s.trackers.Keys == s.requests.Keys
    ensures Apply(s, c).state.trackers.Keys == Apply(s, c).state.requests.Keys
  {
  }

  lemma TrackersStay(s: Bridge, c: Call)
    requires Inv(s) && s.trackers.Keys == s.requests.Keys
    ensures Next(s, c).trackers.Keys == Next(s, c).requests.Keys
  {
    if Apply(s, c).Committed? {
      if Target(c.msg).Some? {
        var id := Target(c.msg).value;
        NextKeepsInv(s, c);
        TargetedCall(s, c, id);
        TargetedTrackers(s, c, id);
        assert s.requests.Keys + {id} == s.requests.Keys;
      } else {
        UntargetedTrackers(s, c);
      }
    }
  }

  /** Since deployment every request has a tracker. */
  lemma {:induction false} RequestsAreTracked(b: Bridge, run: seq<Call>)
    requires Initial(b)
    ensures After(b, run).trackers.Keys == After(b, run).requests.Keys
  {
    if run == [] {
    } else {
      RequestsAreTracked(b, Earlier(run));
      InitialIsSound(b);
      Reachable(b, Earlier(run));
      TrackersStay(After(b, Earlier(run)), Last(run));
    }
  }
}
