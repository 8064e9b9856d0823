/** Runs of a newly deployed bridge that reach the limits of what is proved about all runs. */
module BridgeExamples {
  import opened Machine
  import opened SignatureBitmap
  import opened BridgeTypes
  import opened StatusTracker
  import opened BridgeMessages
  import opened BridgeInvariant
  import opened BridgeRuns
  import opened BridgeTracking

  const ADMIN: AccountId := 1
  const OPERATOR: AccountId := 2
  const FOREIGN: ChainId := 5

  /** A newly deployed bridge with these roles, on which requests may ask for one or two signatures. */
  predicate Deployed(b: Bridge) {
    && Initial(b) && b.admin == ADMIN && b.operators == [OPERATOR]
    && FOREIGN in b.supportedChains && b.minSignatures == 1 && 2 <= b.maxSignatures
  }

  lemma SuchBridgesExist()
    ensures exists b :: Deployed(b)
  {
    assert Deployed(Bridge(ADMIN, [OPERATOR], [FOREIGN], 1, 9, Registry([], map[], []), map[], map[], 0));
  }

  function By(caller: AccountId): Env {
    Env(caller, 0, 0, false, None, false, false, None, 0)
  }

  function AddV(v: AccountId): Call {
    Call(By(ADMIN), MsgAddValidator(v))
  }

  function Open(required: u8): Call {
    Call(By(ADMIN), MsgInitiate(0, FOREIGN, 3, required, None, PropertyMetadata([], 0, [], 0, [])))
  }

  function Vote(v: AccountId, approve: bool): Call {
    Call(By(v), MsgSign(1, approve))
  }

  function Exec(): Call {
    Call(By(OPERATOR), MsgExecute(1))
  }

  function Roll(): Call {
    Call(By(ADMIN), MsgRollback(1))
  }

  function Tell(chain: ChainId, status: LegStatus): Call {
    Call(By(OPERATOR), MsgUpdateStatus(1, chain, status, None, 0, 0, None))
  }

  /** Two validators, 10 and 20, and one request that needs the given number of signatures. */
  function Opening(required: u8): seq<Call> {
    [AddV(10)] + [AddV(20)] + [Open(required)]
  }

  function Reached(b: Bridge, run: seq<Call>): Bridge {
    BridgeMessages.After(b, run)
  }

  lemma OneMoreCall(b: Bridge, run: seq<Call>, c: Call)
    ensures Earlier(run + [c]) == run && Last(run + [c]) == c
    ensures Reached(b, run + [c]) == BridgeMessages.Next(Reached(b, run), c)
  {
    assert (run + [c])[..|run|] == run;
  }

  lemma AlwaysSound(b: Bridge, run: seq<Call>)
    requires Deployed(b)
    ensures Inv(Reached(b, run))
  {
    InitialIsSound(b);
    Reachable(b, run);
  }

  // ----- the scene ---------------------------------------------------------------------------

  /** Roles and validators as they are in every run below. */
  ghost predicate Staffed(s: Bridge) {
    && s.admin == ADMIN && s.operators == [OPERATOR]
    && s.registry.validators == [10, 20]
    && 10 in s.registry.positions && 20 in s.registry.positions && |s.registry.slots| == 2
  }

  /** The only request, with its status and signers. */
  ghost predicate Scene(s: Bridge, required: u8, status: OperationStatus, signers: set<AccountId>) {
    && Inv(s) && Staffed(s)
    && 1 in s.requests && SignersFor(s, 1) == signers
    && var r := s.requests[1];
    && r.requiredSignatures == required && r.status == status && r.storage.Stored?
    && r.expiresAt == None && r.route == [] && r.currentHop == 0
  }

  lemma ValidatorsAdded(b: Bridge)
    requires Deployed(b)
    ensures var s := Reached(b, [AddV(10)] + [AddV(20)]);
      && Staffed(s) && s == b.(registry := s.registry)
  {
    OneMoreCall(b, [], AddV(10));
    assert [] + [AddV(10)] == [AddV(10)];
    OneMoreCall(b, [AddV(10)], AddV(20));
    var s := Reached(b, [AddV(10)]);
    assert s.registry == Registry([10], map[10 := 0], [Some(10)]);
  }

  lemma Opened(b: Bridge, required: u8)
    requires Deployed(b) && 1 <= required <= 2
    ensures Scene(Reached(b, Opening(required)), required, Pending, {})
    ensures 1 in Reached(b, Opening(required)).trackers
    ensures Reached(b, Opening(required)).trackers[1] == Init(HOME_CHAIN, FOREIGN, 0, 0)
  {
    ValidatorsAdded(b);
    OneMoreCall(b, [AddV(10)] + [AddV(20)], Open(required));
    AlwaysSound(b, Opening(required));
    AlwaysSound(b, [AddV(10)] + [AddV(20)]);
    NobodySigned(Reached(b, [AddV(10)] + [AddV(20)]).registry);
  }

  /** A vote of a placed validator on a bitmap assigns no slot. */
  lemma VoteAccepted(s: Bridge, required: u8, status: OperationStatus, signers: set<AccountId>,
                     v: AccountId, approve: bool)
    requires Scene(s, required, status, signers) && v in {10, 20} && v !in signers
    ensures Sign(s, By(v), 1, approve).Committed?
    ensures Sign(s, By(v), 1, approve).state.registry == s.registry
  {
    VotesAcceptedExactly(s, By(v), 1, approve);
  }

  function StatusAfter(required: u8, status: OperationStatus, signers: nat, approve: bool): OperationStatus {
    if !approve then Failed else if CountMeets(signers + 1, required as nat) then Locked else status
  }

  lemma FewSigners(s: Bridge, required: u8, status: OperationStatus, signers: set<AccountId>)
    requires Scene(s, required, status, signers)
    ensures |signers| <= 2
  {
    SignersFitSlots(s.registry, s.requests[1].storage.bitmap);
  }

  /** The scene once the request is replaced by another with the same terms. */
  lemma SceneMoves(s: Bridge, s': Bridge, required: u8, status: OperationStatus, signers: set<AccountId>,
                   status': OperationStatus, signers': set<AccountId>)
    requires Scene(s, required, status, signers) && Inv(s') && s'.registry == s.registry
    requires s'.admin == s.admin && s'.operators == s.operators
    requires 1 in s'.requests && SignersFor(s', 1) == signers' && s'.requests[1].storage.Stored?
    requires s'.requests[1] == s.requests[1].(status := status', multiHopStatus := s'.requests[1].multiHopStatus,
                                              storage := s'.requests[1].storage)
    ensures Scene(s', required, status', signers')
  {
  }

  lemma Voted(s: Bridge, required: u8, status: OperationStatus, signers: set<AccountId>, v: AccountId, approve: bool)
    requires Scene(s, required, status, signers) && v in {10, 20} && v !in signers && status != Locked
    ensures Sign(s, By(v), 1, approve).Committed?
    ensures Scene(Sign(s, By(v), 1, approve).state, required,
                  StatusAfter(required, status, |signers|, approve), signers + {v})
  {
    VoteAccepted(s, required, status, signers, v, approve);
    SignEffect(s, By(v), 1, approve);
    SignKeepsInv(s, By(v), 1, approve);
    SignLocks(s, By(v), 1, approve);
    SceneMoves(s, Sign(s, By(v), 1, approve).state, required, status, signers,
               StatusAfter(required, status, |signers|, approve), signers + {v});
  }

  lemma AfterVote(s: Bridge, v: AccountId, approve: bool)
    requires Sign(s, By(v), 1, approve).Committed?
    ensures BridgeMessages.Apply(s, Vote(v, approve)) == Sign(s, By(v), 1, approve)
    ensures BridgeMessages.Next(s, Vote(v, approve)) == Sign(s, By(v), 1, approve).state
  {
  }

  lemma Executed(s: Bridge, required: u8, signers: set<AccountId>)
    requires Scene(s, required, Locked, signers)
    ensures Execute(s, By(OPERATOR), 1).Committed?
    ensures Scene(Execute(s, By(OPERATOR), 1).state, required, Completed, signers)
  {
    FewSigners(s, required, Locked, signers);
    ExecutesExactlyWhenLocked(s, By(OPERATOR), 1);
    ExecuteEffect(s, By(OPERATOR), 1);
    ExecuteKeepsInv(s, By(OPERATOR), 1);
    SceneMoves(s, Execute(s, By(OPERATOR), 1).state, required, Locked, signers, Completed, signers);
  }

  lemma AfterExec(s: Bridge)
    requires Execute(s, By(OPERATOR), 1).Committed?
    ensures BridgeMessages.Apply(s, Exec()) == Execute(s, By(OPERATOR), 1)
    ensures BridgeMessages.Next(s, Exec()) == Execute(s, By(OPERATOR), 1).state
  {
  }

  lemma RolledBack(s: Bridge, required: u8, status: OperationStatus, signers: set<AccountId>)
    requires Scene(s, required, status, signers) && status != Completed && status != Unset
    ensures BridgeMessages.Apply(s, Roll()).Committed?
    ensures Scene(BridgeMessages.Next(s, Roll()), required, Failed, {})
  {
    RollbackEffect(s, By(ADMIN), 1);
    RollbackKeepsInv(s, By(ADMIN), 1);
  }

  /** The scene after one more vote on a run. */
  lemma VoteOnRun(b: Bridge, run: seq<Call>, required: u8, status: OperationStatus, signers: set<AccountId>,
                  v: AccountId, approve: bool)
    requires Scene(Reached(b, run), required, status, signers)
    requires v in {10, 20} && v !in signers && status != Locked
    ensures BridgeMessages.Apply(Reached(b, run), Vote(v, approve)).Committed?
    ensures Scene(Reached(b, run + [Vote(v, approve)]), required,
                  StatusAfter(required, status, |signers|, approve), signers + {v})
  {
    Voted(Reached(b, run), required, status, signers, v, approve);
    AfterVote(Reached(b, run), v, approve);
    OneMoreCall(b, run, Vote(v, approve));
  }

  lemma ExecOnRun(b: Bridge, run: seq<Call>, required: u8, signers: set<AccountId>)
    requires Scene(Reached(b, run), required, Locked, signers)
    ensures BridgeMessages.Apply(Reached(b, run), Exec()).Committed?
    ensures Scene(Reached(b, run + [Exec()]), required, Completed, signers)
  {
    Executed(Reached(b, run), required, signers);
    AfterExec(Reached(b, run));
    OneMoreCall(b, run, Exec());
  }

  // ----- one request, executed twice -------------------------------------------------------

  lemma CountsVote(b: Bridge, run: seq<Call>, v: AccountId, approve: bool)
    requires BridgeMessages.Apply(Reached(b, run), Vote(v, approve)).Committed?
    ensures Executions(b, run + [Vote(v, approve)], 1) == Executions(b, run, 1)
  {
    OneMoreCall(b, run, Vote(v, approve));
    assert !Wipes(Reached(b, run), Vote(v, approve), 1);
  }

  lemma CountsExec(b: Bridge, run: seq<Call>)
    requires BridgeMessages.Apply(Reached(b, run), Exec()).Committed? && !Wipes(Reached(b, run), Exec(), 1)
    ensures Executions(b, run + [Exec()], 1) == Executions(b, run, 1) + 1
  {
    OneMoreCall(b, run, Exec());
  }

  lemma LastHopKeepsVotes(s: Bridge, required: u8, signers: set<AccountId>)
    requires Scene(s, required, Locked, signers)
    ensures !Wipes(s, Exec(), 1)
  {
  }

  lemma CountedVote(b: Bridge, run: seq<Call>, one: u8, status: OperationStatus, signers: set<AccountId>, v: AccountId)
    requires Scene(Reached(b, run), one, status, signers) && one <= 1
    requires v in {10, 20} && v !in signers && status != Locked
    ensures Scene(Reached(b, run + [Vote(v, true)]), one, Locked, signers + {v})
    ensures Executions(b, run + [Vote(v, true)], 1) == Executions(b, run, 1)
  {
    FewSigners(Reached(b, run), one, status, signers);
    VoteOnRun(b, run, one, status, signers, v, true);
    CountsVote(b, run, v, true);
  }

  lemma CountedExec(b: Bridge, run: seq<Call>, one: u8, signers: set<AccountId>)
    requires Scene(Reached(b, run), one, Locked, signers)
    ensures Scene(Reached(b, run + [Exec()]), one, Completed, signers)
    ensures Executions(b, run + [Exec()], 1) == Executions(b, run, 1) + 1
  {
    ExecOnRun(b, run, one, signers);
    LastHopKeepsVotes(Reached(b, run), one, signers);
    CountsExec(b, run);
  }

  lemma ExecutedOnceMore(b: Bridge, run: seq<Call>, one: u8, status: OperationStatus, signers: set<AccountId>,
                         v: AccountId)
    requires Scene(Reached(b, run), one, status, signers) && one <= 1
    requires v in {10, 20} && v !in signers && status != Locked
    ensures var longer := run + [Vote(v, true)] + [Exec()];
      && Scene(Reached(b, longer), one, Completed, signers + {v})
      && Executions(b, longer, 1) == Executions(b, run, 1) + 1
  {
    CountedVote(b, run, one, status, signers, v);
    CountedExec(b, run + [Vote(v, true)], one, signers + {v});
  }

  lemma TwiceFrom(b: Bridge, run: seq<Call>, one: u8)
    requires Scene(Reached(b, run), one, Pending, {}) && one <= 1
    ensures var longer := run + [Vote(10, true)] + [Exec()] + [Vote(20, true)] + [Exec()];
      && Scene(Reached(b, longer), one, Completed, {} + {10} + {20})
      && Executions(b, longer, 1) == Executions(b, run, 1) + 2
  {
    var mid := run + [Vote(10, true)] + [Exec()];
    ExecutedOnceMore(b, run, one, Pending, {}, 10);
    ExecutedOnceMore(b, mid, one, Completed, {} + {10}, 20);
  }

  /** The bound on executions is attained: with one signature required and two given, the request is
      executed twice, the second time after it was completed. */
  lemma ExecutedTwice(b: Bridge)
    requires Deployed(b)
    ensures var run := Opening(1) + [Vote(10, true)] + [Exec()] + [Vote(20, true)] + [Exec()];
      var s := Reached(b, run);
      && 1 in s.requests && s.requests[1].status == Completed
      && Executions(b, run, 1) == 2 == |SignersFor(s, 1)| - s.requests[1].requiredSignatures + 1
  {
    Opened(b, 1);
    NothingExecuted(b, Opening(1));
    TwiceFrom(b, Opening(1), 1);
  }

  lemma NothingExecuted(b: Bridge, run: seq<Call>)
    requires Deployed(b) && Scene(Reached(b, run), 1, Pending, {})
    ensures Executions(b, run, 1) == 0
  {
    InitialIsSound(b);
    ExecutionsAreBounded(b, run, 1);
  }

  // ----- a rollback that is not final ------------------------------------------------------

  /** A rolled back request is locked again by one approving vote, and can be executed. */
  lemma RolledBackThenLocked(b: Bridge)
    requires Deployed(b)
    ensures var s := Reached(b, Opening(1) + [Roll()] + [Vote(10, true)]);
      && 1 in s.requests && s.requests[1].status == Locked
      && BridgeMessages.Apply(s, Exec()).Committed?
  {
    var r0 := Opening(1);
    Opened(b, 1);
    RolledBack(Reached(b, r0), 1, Pending, {});
    OneMoreCall(b, r0, Roll());
    VoteOnRun(b, r0 + [Roll()], 1, Failed, {}, 10, true);
    ExecOnRun(b, r0 + [Roll()] + [Vote(10, true)], 1, {} + {10});
  }

  // ----- executed with one approval of two -------------------------------------------------

  /** Of two signatures required, one rejects and one approves: the request is executed with a single
      approval. */
  lemma ExecutedOnOneApproval(b: Bridge)
    requires Deployed(b)
    ensures var run := Opening(2) + [Vote(10, false)] + [Vote(20, true)];
      && 1 in Reached(b, run).requests && Reached(b, run).requests[1].requiredSignatures == 2
      && BridgeMessages.Apply(Reached(b, run), Exec()).Committed?
      && Voters(b, run, 1, true) == {20} && Voters(b, run, 1, false) == {10}
  {
    var r0 := Opening(2);
    var r1 := r0 + [Vote(10, false)];
    Opened(b, 2);
    VoteOnRun(b, r0, 2, Pending, {}, 10, false);
    VoteOnRun(b, r1, 2, Failed, {} + {10}, 20, true);
    ExecOnRun(b, r1 + [Vote(20, true)], 2, {} + {10} + {20});
    LastVoteStands(b, r0, 10, false);
    LastVoteStands(b, r1, 20, true);
    VoteStaysFor(b, r1, Vote(20, true), 10, false);
    SplitOfTwo(b, r1 + [Vote(20, true)]);
  }

  lemma LastVoteStands(b: Bridge, run: seq<Call>, v: AccountId, approve: bool)
    requires BridgeMessages.Apply(Reached(b, run), Vote(v, approve)).Committed?
    ensures StandsAs(b, run + [Vote(v, approve)], 1, v, approve)
  {
    var longer := run + [Vote(v, approve)];
    OneMoreCall(b, run, Vote(v, approve));
    assert longer[..|run|] == run;
    StandsAsStep(b, longer, 1, v, approve);
  }

  lemma VoteStaysFor(b: Bridge, run: seq<Call>, c: Call, v: AccountId, approve: bool)
    requires StandsAs(b, run, 1, v, approve) && c.msg.MsgSign?
    ensures StandsAs(b, run + [c], 1, v, approve)
  {
    OneMoreCall(b, run, c);
    StandsAsStep(b, run + [c], 1, v, approve);
  }

  lemma SplitOfTwo(b: Bridge, run: seq<Call>)
    requires Deployed(b)
    requires 1 in Reached(b, run).requests && SignersFor(Reached(b, run), 1) == {} + {10} + {20}
    requires StandsAs(b, run, 1, 10, false) && StandsAs(b, run, 1, 20, true)
    ensures Voters(b, run, 1, true) == {20} && Voters(b, run, 1, false) == {10}
  {
    InitialIsSound(b);
    SignersAreStandingVotes(b, run, 1, 10);
    SignersAreStandingVotes(b, run, 1, 20);
  }

  // ----- a rollback that comes too late ----------------------------------------------------

  ghost predicate Legs(s: Bridge, source: LegStatus, destination: LegStatus) {
    && Scene(s, 1, Pending, {})
    && 1 in s.trackers && s.trackers[1].sourceChain == HOME_CHAIN && s.trackers[1].destinationChain == FOREIGN
    && s.trackers[1].sourceStatus.status == source && s.trackers[1].destinationStatus.status == destination
  }

  /** What a report by the operator does. */
  function ToldOf(s: Bridge, chain: ChainId, status: LegStatus): Step {
    UpdateChainStatus(s, By(OPERATOR), 1, chain, status, None, 0, 0, None)
  }

  lemma Told(s: Bridge, source: LegStatus, destination: LegStatus, chain: ChainId, status: LegStatus)
    requires Legs(s, source, destination) && chain in {HOME_CHAIN, FOREIGN}
    requires ValidTransition(if chain == HOME_CHAIN then source else destination, status)
    ensures ToldOf(s, chain, status).Committed?
    ensures Legs(ToldOf(s, chain, status).state,
                 if chain == HOME_CHAIN then status else source, if chain == FOREIGN then status else destination)
  {
    UpdateKeepsInv(s, By(OPERATOR), 1, chain, status, None, 0, 0, None);
    SceneMoves(s, ToldOf(s, chain, status).state, 1, Pending, {}, Pending, {});
  }

  lemma AfterTell(s: Bridge, chain: ChainId, status: LegStatus)
    requires ToldOf(s, chain, status).Committed?
    ensures BridgeMessages.Next(s, Tell(chain, status)) == ToldOf(s, chain, status).state
  {
  }

  lemma ToldOnRun(b: Bridge, run: seq<Call>, source: LegStatus, destination: LegStatus, chain: ChainId,
      status: LegStatus)
    requires Legs(Reached(b, run), source, destination) && chain in {HOME_CHAIN, FOREIGN}
    requires ValidTransition(if chain == HOME_CHAIN then source else destination, status)
    ensures Legs(Reached(b, run + [Tell(chain, status)]),
                 if chain == HOME_CHAIN then status else source, if chain == FOREIGN then status else destination)
  {
    Told(Reached(b, run), source, destination, chain, status);
    OneMoreCall(b, run, Tell(chain, status));
    AfterTell(Reached(b, run), chain, status);
  }

  /** A request nobody executed, whose legs were both reported confirmed, is rolled back: the tracker
      says failed although its legs say completed. */
  lemma RolledBackTooLate(b: Bridge)
    requires Deployed(b)
    ensures var run := Opening(1) + [Tell(HOME_CHAIN, LegConfirmed)] + [Tell(FOREIGN, LegSubmitted)]
                       + [Tell(FOREIGN, LegConfirmed)] + [Roll()];
      && 1 in Reached(b, run).trackers && !OverallAgrees(Reached(b, run).trackers[1])
      && OverruledAfter(b, run, 1)
  {
    var r0 := Opening(1);
    var r1 := r0 + [Tell(HOME_CHAIN, LegConfirmed)];
    var r2 := r1 + [Tell(FOREIGN, LegSubmitted)];
    var r3 := r2 + [Tell(FOREIGN, LegConfirmed)];
    Opened(b, 1);
    ToldOnRun(b, r0, LegSubmitted, LegNotStarted, HOME_CHAIN, LegConfirmed);
    ToldOnRun(b, r1, LegConfirmed, LegNotStarted, FOREIGN, LegSubmitted);
    ToldOnRun(b, r2, LegConfirmed, LegSubmitted, FOREIGN, LegConfirmed);
    LateRollback(b, r3);
  }

  lemma LateRollback(b: Bridge, run: seq<Call>)
    requires Legs(Reached(b, run), LegConfirmed, LegConfirmed)
    ensures 1 in Reached(b, run + [Roll()]).trackers
    ensures !OverallAgrees(Reached(b, run + [Roll()]).trackers[1])
    ensures OverruledAfter(b, run + [Roll()], 1)
  {
    RolledBack(Reached(b, run), 1, Pending, {});
    OneMoreCall(b, run, Roll());
    RewrittenOverall(Reached(b, run), Roll(), 1);
  }

  // ----- a store with a legacy request -----------------------------------------------------

  /** A store from before the bitmaps: two validators without slots, and a locked request that lists
      them both. */
  predicate FromBefore(s: Bridge, r: Request) {
    && s.operators == [OPERATOR] && s.registry == Registry([10, 20], map[], [])
    && s.requests == map[1 := r] && s.trackers == map[] && s.requestCounter == 1
    && r.storage == Legacy([10, 20]) && r.status == Locked && r.requiredSignatures == 2
    && r.route == [] && r.currentHop == 0 && r.sourceChain == HOME_CHAIN
  }

  lemma LegacyRequestReadable(s: Bridge, r: Request)
    requires FromBefore(s, r)
    ensures Inv(s) && SignersFor(s, 1) == {10, 20} && |{10, 20}| == 2
    ensures Normalize(s.registry, r.storage).Committed?
    ensures |Normalize(s.registry, r.storage).state.slots| == 2
  {
    TwoAccounts();
    CollectSucceeds(s.registry, r.storage.signers);
  }

  /** Such a store is sound, and executing the request gives both signers a slot and keeps them. */
  lemma LegacyRequestExecutes(s: Bridge, r: Request)
    requires FromBefore(s, r)
    ensures Inv(s)
    ensures Execute(s, By(OPERATOR), 1).Committed?
    ensures var s' := Execute(s, By(OPERATOR), 1).state;
      SignersFor(s', 1) == {10, 20} && |s'.registry.slots| == 2 && s'.requests[1].status == Completed
  {
    LegacyRequestReadable(s, r);
    ExecutesExactlyWhenLocked(s, By(OPERATOR), 1);
    ExecuteEffect(s, By(OPERATOR), 1);
  }

  lemma TwoAccounts()
    ensures Accounts([10, 20]) == {10, 20} && |Accounts([10, 20])| == 2
    ensures Unplaced(Registry([10, 20], map[], []), [10, 20]) == 2
  {
    var list: seq<AccountId> := [10, 20];
    assert list[..1] == [10] && list[..1][..0] == [];
    assert Accounts(list) == {10, 20};
    assert Unplaced(Registry([10, 20], map[], []), list[..1]) == 1;
  }
}
