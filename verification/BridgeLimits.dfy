/** Where the bridge gets stuck: legacy signers who can no longer be placed, a bitmap in which every
    slot has signed, and trackers both of whose legs are on one chain. */
module BridgeLimits {
  import opened Machine
  import opened SignatureBitmap
  import opened BridgeTypes
  import opened StatusTracker
  import opened BridgeMessages
  import opened BridgeInvariant
  import opened BridgeRuns
  import opened BridgeExamples

  // ----- legacy signers who cannot be placed -----------------------------------------------

  /** The message reads the votes of the request before it looks at anything else about it, or, for
      a rollback, right after its status. */
  predicate ReadsVotes(m: Message, id: u64) {
    (m.MsgSign? && m.id == id) || m == MsgExecute(id) || (m.MsgRecover? && m.id == id) || m == MsgRollback(id)
  }

  lemma UnreadableVotesRefuse(s: Bridge, c: Call, id: u64)
    requires ReadsVotes(c.msg, id) && id in s.requests
    requires Normalize(s.registry, s.requests[id].storage).Reverted?
    ensures BridgeMessages.Apply(s, c).Reverted?
  {
  }

  lemma ListedHaveSlots(g: Registry, storage: SignatureStorage)
    requires SlotsMatch(g) && Readable(g, storage) && Normalize(g, storage).Committed?
    ensures forall a :: a in Signers(g, storage) ==> a in Normalize(g, storage).state.positions
  {
    if storage.Legacy? {
      CollectSucceeds(g, storage.signers);
    }
  }

  lemma VoteKeepsSlots(s: Bridge, env: Env, id: u64, approve: bool)
    requires Inv(s) && Sign(s, env, id, approve).Committed?
    ensures var g := Normalize(s.registry, s.requests[id].storage).state;
      g.positions.Keys <= Sign(s, env, id, approve).state.registry.positions.Keys
  {
    PositionEffect(Normalize(s.registry, s.requests[id].storage).state, env.caller);
  }

  /** Whatever reads the votes of a request migrates it for good: from then on it is a bitmap, and every
      account that had signed it has a slot. */
  lemma ReadingMigrates(s: Bridge, c: Call, id: u64)
    requires Inv(s) && BridgeMessages.Apply(s, c).Committed? && ReadsVotes(c.msg, id)
    ensures var s' := BridgeMessages.Apply(s, c).state;
      && id in s.requests && id in s'.requests && s'.requests[id].storage.Stored?
      && forall a :: a in SignersFor(s, id) ==> a in s'.registry.positions
  {
    ListedHaveSlots(s.registry, s.requests[id].storage);
    if c.msg.MsgSign? {
      VoteKeepsSlots(s, c.env, id, c.msg.approve);
    }
  }

  ghost predicate Outside(g: Registry, a: AccountId) {
    a !in g.validators && a !in g.positions
  }

  /** The request is still in the legacy format and lists an account that has no slot and is no
      validator. */
  ghost predicate Stranded(s: Bridge, id: u64, a: AccountId) {
    && id in s.requests && s.requests[id].storage.Legacy? && a in s.requests[id].storage.signers
    && Outside(s.registry, a)
  }

  lemma StrandedIsUnreadable(s: Bridge, id: u64, a: AccountId)
    requires Inv(s) && Stranded(s, id, a)
    ensures Normalize(s.registry, s.requests[id].storage).Reverted?
  {
    CollectSucceeds(s.registry, s.requests[id].storage.signers);
  }

  /** At some step of the run the account was added as a validator. */
  ghost predicate Joined(b: Bridge, run: seq<Call>, a: AccountId) {
    && run != []
    && (|| Joined(b, Earlier(run), a)
        || (Last(run).msg == MsgAddValidator(a)
            && BridgeMessages.Apply(BridgeMessages.After(b, Earlier(run)), Last(run)).Committed?))
  }

  /** Migrating a list gives slots to validators only. */
  lemma MigrationSeatsValidators(g: Registry, storage: SignatureStorage, a: AccountId)
    requires SlotsMatch(g) && Outside(g, a) && Normalize(g, storage).Committed?
    ensures Outside(Normalize(g, storage).state, a)
  {
    if storage.Legacy? {
      CollectSucceeds(g, storage.signers);
    }
  }

  lemma VotingSeatsValidators(s: Bridge, env: Env, id: u64, approve: bool, a: AccountId)
    requires Inv(s) && Outside(s.registry, a) && Sign(s, env, id, approve).Committed?
    ensures Outside(Sign(s, env, id, approve).state.registry, a)
  {
    MigrationSeatsValidators(s.registry, s.requests[id].storage, a);
    PositionEffect(Normalize(s.registry, s.requests[id].storage).state, env.caller);
  }

  lemma ReadingSeatsValidators(s: Bridge, c: Call, id: u64, a: AccountId)
    requires Inv(s) && Outside(s.registry, a) && BridgeMessages.Apply(s, c).Committed? && ReadsVotes(c.msg, id)
    ensures Outside(BridgeMessages.Apply(s, c).state.registry, a)
  {
    if c.msg.MsgSign? {
      VotingSeatsValidators(s, c.env, id, c.msg.approve, a);
    } else {
      MigrationSeatsValidators(s.registry, s.requests[id].storage, a);
    }
  }

  /** An account comes into the registry only by being added. */
  lemma OutsideUntilAdded(s: Bridge, c: Call, a: AccountId)
    requires Inv(s) && Outside(s.registry, a) && BridgeMessages.Apply(s, c).Committed?
    ensures var g := BridgeMessages.Apply(s, c).state.registry;
      if c.msg == MsgAddValidator(a) then a in g.positions else Outside(g, a)
  {
    match c.msg
    case MsgSign(i, _) => ReadingSeatsValidators(s, c, i, a);
    case MsgExecute(i) => ReadingSeatsValidators(s, c, i, a);
    case MsgRecover(i, _) => ReadingSeatsValidators(s, c, i, a);
    case MsgRollback(i) => ReadingSeatsValidators(s, c, i, a);
    case _ =>
  }

  /** A call that succeeds does not rewrite a stranded request. */
  lemma StrandedStep(s: Bridge, c: Call, id: u64, a: AccountId)
    requires Inv(s) && Stranded(s, id, a) && BridgeMessages.Apply(s, c).Committed?
    ensures var s' := BridgeMessages.Apply(s, c).state;
      && id in s'.requests && s'.requests[id] == s.requests[id]
      && if c.msg == MsgAddValidator(a) then a in s'.registry.positions else Outside(s'.registry, a)
  {
    StrandedIsUnreadable(s, id, a);
    OutsideUntilAdded(s, c, a);
    if ReadsVotes(c.msg, id) {
      UnreadableVotesRefuse(s, c, id);
    } else if Target(c.msg) != Some(id) {
      OtherCall(s, c, id);
    }
  }

  /** The missing signer strands the request exactly until it is added as a validator. Meanwhile the
      request stays as it is, and refuses every vote, execution, recovery and rollback. */
  lemma {:induction false} StrandedUntilJoined(b: Bridge, run: seq<Call>, id: u64, a: AccountId)
    requires Inv(b) && Stranded(b, id, a)
    ensures var s := BridgeMessages.After(b, run);
      && (if Joined(b, run, a) then a in s.registry.positions else Outside(s.registry, a))
      && (!Joined(b, run, a) ==>
            && id in s.requests && s.requests[id] == b.requests[id]
            && forall c: Call :: ReadsVotes(c.msg, id) ==> BridgeMessages.Apply(s, c).Reverted?)
  {
    var s := BridgeMessages.After(b, run);
    if run == [] {
    } else {
      var e, c := Earlier(run), Last(run);
      StrandedUntilJoined(b, e, id, a);
      Reachable(b, e);
      if Joined(b, e, a) {
        RegistryGrows(BridgeMessages.After(b, e), c);
      } else if BridgeMessages.Apply(BridgeMessages.After(b, e), c).Committed? {
        StrandedStep(BridgeMessages.After(b, e), c, id, a);
      }
    }
    if !Joined(b, run, a) {
      Reachable(b, run);
      StrandedIsUnreadable(s, id, a);
      forall c: Call | ReadsVotes(c.msg, id) ensures BridgeMessages.Apply(s, c).Reverted? {
        UnreadableVotesRefuse(s, c, id);
      }
    }
  }

  /** A store from before the bitmaps: the only validator has no slot, and a pending request lists a
      former validator. */
  predicate FromBeforeRemoval(s: Bridge, r: Request) {
    && s.registry == Registry([10], map[], []) && s.requestCounter == 1
    && s.requests == map[1 := r] && s.trackers == map[]
    && r.storage == Legacy([10, 30]) && r.status == Pending && r.route == [] && r.currentHop == 0
    && r.sourceChain == HOME_CHAIN
  }

  /** Such a store is sound, and nobody can sign, execute, recover or roll back its request. */
  lemma FormerValidatorStrands(s: Bridge, r: Request, c: Call)
    requires FromBeforeRemoval(s, r)
    ensures Inv(s) && Stranded(s, 1, 30)
    ensures ReadsVotes(c.msg, 1) ==> BridgeMessages.Apply(s, c).Reverted?
  {
    StrandedIsUnreadable(s, 1, 30);
    if ReadsVotes(c.msg, 1) {
      UnreadableVotesRefuse(s, c, 1);
    }
  }

  // ----- the vote of the last slot ---------------------------------------------------------

  function Seat(i: nat): AccountId
    requires i < MAX_SLOTS
  {
    100 + i
  }

  ghost function Seats(n: nat): set<AccountId>
    requires n <= MAX_SLOTS
  {
    set i | 0 <= i < n :: Seat(i)
  }

  lemma {:induction false} SeatsCounted(n: nat)
    requires n <= MAX_SLOTS
    ensures |Seats(n)| == n
  {
    if n > 0 {
      SeatsCounted(n - 1);
      OneMoreSeat(n - 1);
      OneMoreSigner(Seats(n - 1), Seat(n - 1));
    } else {
      assert Seats(n) == {};
    }
  }

  lemma OneMoreSeat(n: nat)
    requires n < MAX_SLOTS
    ensures Seats(n + 1) == Seats(n) + {Seat(n)} && Seat(n) !in Seats(n)
  {
  }

  function Seated(n: nat): seq<Call>
    requires n <= MAX_SLOTS
  {
    if n == 0 then [] else Seated(n - 1) + [AddV(Seat(n - 1))]
  }

  /** The given number of validators, one request, and the votes of the given number of them. */
  function Assembly(n: nat, votes: nat): seq<Call>
    requires votes <= n <= MAX_SLOTS
  {
    if votes == 0 then Seated(n) + [Open(1)] else Assembly(n, votes - 1) + [Vote(Seat(votes - 1), true)]
  }

  ghost predicate Manned(g: Registry, n: nat)
    requires n <= MAX_SLOTS
  {
    && |g.slots| == n && g.positions.Keys == Seats(n)
    && forall v: AccountId :: v in g.validators <==> v in Seats(n)
  }

  lemma {:induction false} SeatedRegistry(b: Bridge, n: nat)
    requires Deployed(b) && n <= MAX_SLOTS
    ensures var s := Reached(b, Seated(n)); Manned(s.registry, n) && s == b.(registry := s.registry)
  {
    if n > 0 {
      SeatedRegistry(b, n - 1);
      OneMoreSeat(n - 1);
      OneMoreCall(b, Seated(n - 1), AddV(Seat(n - 1)));
    } else {
      assert Seats(n) == {};
    }
  }

  /** Everybody has a slot, and the request carries the votes of so many, one of which suffices. */
  ghost predicate Assembled(s: Bridge, n: nat, votes: nat)
    requires votes <= n <= MAX_SLOTS
  {
    && s.operators == [OPERATOR] && Manned(s.registry, n)
    && 1 in s.requests && SignersFor(s, 1) == Seats(votes)
    && var r := s.requests[1];
    && r.requiredSignatures == 1 && r.storage.Stored? && r.expiresAt == None && r.route == []
    && r.status == if votes == 0 then Pending else Locked
  }

  lemma AssemblyOpens(b: Bridge, n: nat, votes: nat)
    requires Deployed(b) && votes <= n <= MAX_SLOTS && votes == 0
    ensures Assembled(Reached(b, Assembly(n, votes)), n, votes)
  {
    SeatedRegistry(b, n);
    OneMoreCall(b, Seated(n), Open(1));
    NobodySigned(Reached(b, Seated(n)).registry);
    assert Seats(0) == {};
  }

  lemma SeatVotes(s: Bridge, n: nat, votes: nat)
    requires Inv(s) && votes < n <= MAX_SLOTS && Assembled(s, n, votes)
    ensures Sign(s, By(Seat(votes)), 1, true).Committed?
    ensures Assembled(Sign(s, By(Seat(votes)), 1, true).state, n, votes + 1)
  {
    var v := Seat(votes);
    OneMoreSeat(votes);
    SeatsCounted(votes);
    VotesAcceptedExactly(s, By(v), 1, true);
    SignEffect(s, By(v), 1, true);
    SignLocks(s, By(v), 1, true);
  }

  lemma AssemblyGrows(b: Bridge, run: seq<Call>, n: nat, votes: nat)
    requires Deployed(b) && votes < n <= MAX_SLOTS && Assembled(Reached(b, run), n, votes)
    ensures Assembled(Reached(b, run + [Vote(Seat(votes), true)]), n, votes + 1)
    ensures Reached(b, run + [Vote(Seat(votes), true)]) == BridgeMessages.Next(Reached(b, run), Vote(Seat(votes), true))
  {
    AlwaysSound(b, run);
    SeatVotes(Reached(b, run), n, votes);
    AfterVote(Reached(b, run), Seat(votes), true);
    OneMoreCall(b, run, Vote(Seat(votes), true));
  }

  /** After the given number of votes the state is as it should be. */
  ghost predicate Sits(b: Bridge, n: nat, votes: nat)
    requires votes <= n <= MAX_SLOTS
  {
    Assembled(Reached(b, Assembly(n, votes)), n, votes)
  }

  lemma AssemblyStep(b: Bridge, n: nat, votes: nat)
    requires Deployed(b) && votes < n <= MAX_SLOTS && Sits(b, n, votes)
    ensures Sits(b, n, votes + 1)
  {
    AssemblyGrows(b, Assembly(n, votes), n, votes);
  }

  lemma {:induction false} VotesGoOn(b: Bridge, n: nat, sofar: nat, votes: nat)
    requires Deployed(b) && sofar <= votes <= n <= MAX_SLOTS && Sits(b, n, sofar)
    ensures Sits(b, n, votes)
    decreases votes - sofar
  {
    if sofar < votes {
      AssemblyStep(b, n, sofar);
      VotesGoOn(b, n, sofar + 1, votes);
    }
  }

  lemma AssemblyVotes(b: Bridge, n: nat, votes: nat)
    requires Deployed(b) && votes <= n <= MAX_SLOTS
    ensures Sits(b, n, votes)
  {
    var sofar := 0;
    AssemblyOpens(b, n, sofar);
    VotesGoOn(b, n, sofar, votes);
  }

  lemma AssembledExecutes(s: Bridge, n: nat, votes: nat)
    requires Inv(s) && 0 < votes <= n <= MAX_SLOTS && Assembled(s, n, votes)
    ensures |SignersFor(s, 1)| == votes && s.requests[1].status == Locked
    ensures BridgeMessages.Apply(s, Exec()).Committed? <==> votes < MAX_SLOTS
  {
    SeatsCounted(votes);
    ExecutesExactlyWhenLocked(s, By(OPERATOR), 1);
    assert BridgeMessages.Apply(s, Exec()) == Execute(s, By(OPERATOR), 1);
  }

  /** A request approved by all but the last of 256 validators can be executed; once the last one
      approves it too, it cannot. */
  lemma UnanimityBlocks(b: Bridge, n: nat, most: nat)
    requires Deployed(b) && n == MAX_SLOTS && most == n - 1
    ensures var s, s' := Reached(b, Assembly(n, most)), Reached(b, Assembly(n, n));
      && BridgeMessages.Apply(s, Exec()).Committed?
      && s' == BridgeMessages.Next(s, Vote(Seat(most), true))
      && 1 in s'.requests && s'.requests[1].status == Locked && |SignersFor(s', 1)| == n
      && BridgeMessages.Apply(s', Exec()).Reverted?
  {
    AssemblyVotes(b, n, most);
    AssemblyGrows(b, Assembly(n, most), n, most);
    AlwaysSound(b, Assembly(n, most));
    AlwaysSound(b, Assembly(n, n));
    AssembledExecutes(Reached(b, Assembly(n, most)), n, most);
    AssembledExecutes(Reached(b, Assembly(n, n)), n, n);
  }

  // ----- a request whose time ran out ------------------------------------------------------

  function OpenUntil(timeout: u64): Call {
    Call(By(ADMIN), MsgInitiate(0, FOREIGN, 3, 1, Some(timeout), PropertyMetadata([], 0, [], 0, [])))
  }

  function LateVoter(v: AccountId, block: u32): Env {
    By(v).(block := block)
  }

  lemma OpensUntil(s: Bridge, timeout: u64)
    requires s.requestCounter == 0 && s.requests == map[] && FOREIGN in s.supportedChains
    requires s.minSignatures == 1 && 2 <= s.maxSignatures
    ensures var s' := BridgeMessages.Next(s, OpenUntil(timeout));
      && s'.registry == s.registry && s'.admin == s.admin && 1 in s'.requests
      && s'.requests[1].status == Pending && s'.requests[1].storage == Stored(NoSignatures())
      && s'.requests[1].expiresAt == Some(timeout)
  {
  }

  /** A request opened at block zero with a timeout of ten: a vote at block eleven comes too late, and it
      is still pending, so that nothing can be recovered. */
  lemma TimeRunsOut(b: Bridge, action: RecoveryAction)
    requires Deployed(b)
    ensures var s := Reached(b, [AddV(10)] + [AddV(20)] + [OpenUntil(10)]);
      && 1 in s.requests && s.requests[1].status == Pending
      && Sign(s, LateVoter(10, 10), 1, true).Committed?
      && Sign(s, LateVoter(10, 11), 1, true) == Reverted(RequestExpired)
      && Recover(s, By(ADMIN), 1, action) == Reverted(InvalidRequest)
  {
    ValidatorsAdded(b);
    OneMoreCall(b, [AddV(10)] + [AddV(20)], OpenUntil(10));
    OpensUntil(Reached(b, [AddV(10)] + [AddV(20)]), 10);
    EmptyHasNone();
    var s := Reached(b, [AddV(10)] + [AddV(20)] + [OpenUntil(10)]);
    assert !HasSignature(NoSignatures(), s.registry.positions[10]) by {
      assert s.registry.positions[10] !in Positions(NoSignatures());
    }
  }

  // ----- both legs on one chain ------------------------------------------------------------

  /** The chain the request's current hop comes from. */
  function CameFrom(r: Request): ChainId
    requires Routed(r)
  {
    if r.currentHop == 0 then HOME_CHAIN else r.route[r.currentHop - 1]
  }

  /** In every reachable state both legs of a tracker are on one chain exactly if its request goes to
      the chain it comes from; otherwise the snapshots equal the log. */
  lemma SnapshotsFollowRoutes(b: Bridge, run: seq<Call>, id: u64)
    requires Inv(b) && id in BridgeMessages.After(b, run).trackers
    ensures var s := BridgeMessages.After(b, run);
      && id in s.requests && Routed(s.requests[id])
      && var t, r := s.trackers[id], s.requests[id];
      && (t.sourceChain == t.destinationChain <==> r.destinationChain == CameFrom(r))
      && (r.destinationChain != CameFrom(r) ==> LogAgrees(t))
  {
    Reachable(b, run);
  }

  lemma OneChainDisagrees(chain: ChainId, now: u64, block: u64)
    ensures !LogAgrees(Init(chain, chain, now, block))
  {
    LogOneMore([], Init(chain, chain, now, block).sourceStatus, chain);
  }

  function OpenTo(chain: ChainId): Call {
    Call(By(ADMIN), MsgInitiate(0, chain, 3, 1, None, PropertyMetadata([], 0, [], 0, [])))
  }

  lemma Opens(b: Bridge, chain: ChainId)
    requires Deployed(b) && chain in b.supportedChains
    ensures var s := BridgeMessages.Next(b, OpenTo(chain));
      1 in s.trackers && s.trackers[1] == Init(HOME_CHAIN, chain, 0, 0)
  {
  }

  /** Where the home chain is listed as supported, one call opens a request to it, whose destination
      snapshot is not what the log says. */
  lemma HomeToHome(b: Bridge)
    requires Deployed(b) && HOME_CHAIN in b.supportedChains
    ensures var s := Reached(b, [OpenTo(HOME_CHAIN)]);
      1 in s.trackers && s.trackers[1].sourceChain == s.trackers[1].destinationChain && !LogAgrees(s.trackers[1])
  {
    Opens(b, HOME_CHAIN);
    OneChainDisagrees(HOME_CHAIN, 0, 0);
    assert [] + [OpenTo(HOME_CHAIN)] == [OpenTo(HOME_CHAIN)];
    OneMoreCall(b, [], OpenTo(HOME_CHAIN));
  }

  lemma SuchDeploymentsExist()
    ensures exists b :: Deployed(b) && HOME_CHAIN in b.supportedChains
  {
    assert Deployed(Bridge(ADMIN, [OPERATOR], [FOREIGN, HOME_CHAIN], 1, 9, Registry([], map[], []), map[], map[], 0));
  }
}
