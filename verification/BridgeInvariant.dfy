/** What every message of the bridge keeps. The invariant is about any store the contract may find,
    a newly deployed one or one that still holds requests in the legacy format. */
module BridgeInvariant {
  import opened Machine
  import opened SignatureBitmap
  import opened BridgeTypes
  import opened StatusTracker
  import opened BridgeMessages

  /** The request stands on its route: at the current hop, coming from the one before. */
  predicate Routed(r: Request) {
    if r.route == [] then r.currentHop == 0 && r.sourceChain == HOME_CHAIN
    else
      && r.currentHop < |r.route|
      && r.destinationChain == r.route[r.currentHop]
      && r.sourceChain == if r.currentHop == 0 then HOME_CHAIN else r.route[r.currentHop - 1]
  }

  /** The aggregate is the one computed from the legs, or else says that a rollback came too late. */
  predicate OverallOk(t: Tracker) {
    OverallAgrees(t) || (t.overallStatus == Failed && BothConfirmed(t))
  }

  /** The tracker follows the request's current hop, its snapshots equal its log, and its aggregate
      fits the legs. */
  predicate Tracks(t: Tracker, r: Request) {
    && t.sourceChain == r.sourceChain && t.destinationChain == r.destinationChain
    && (t.sourceChain != t.destinationChain ==> LogAgrees(t))
    && OverallOk(t)
  }

  /** The accounts whose votes a request currently carries. */
  ghost function SignersFor(b: Bridge, id: u64): set<AccountId>
    requires id in b.requests
  {
    Signers(b.registry, b.requests[id].storage)
  }

  ghost predicate RequestOk(g: Registry, r: Request) {
    && Readable(g, r.storage)
    && Routed(r)
    && (r.status == Locked ==> |Signers(g, r.storage)| >= r.requiredSignatures)
  }

  ghost predicate Inv(b: Bridge) {
    && SlotsMatch(b.registry)
    && b.trackers.Keys <= b.requests.Keys
    && (forall id :: id in b.requests ==> id <= b.requestCounter)
    && (forall id :: id in b.requests ==> RequestOk(b.registry, b.requests[id]))
    && (forall id :: id in b.trackers ==> Tracks(b.trackers[id], b.requests[id]))
  }

  lemma InitialIsSound(b: Bridge)
    requires Initial(b)
    ensures Inv(b)
  {
  }

  // ----- growing and replacing -------------------------------------------------------------

  /** A later registry with the same validators, in which nobody moved. */
  ghost predicate Grown(later: Registry, earlier: Registry) {
    SlotsMatch(later) && Extends(later, earlier) && later.validators == earlier.validators
  }

  /** Requests read the same in a registry that only grew, whichever format they are in. */
  lemma GrowthKeepsRequest(later: Registry, earlier: Registry, r: Request)
    requires SlotsMatch(earlier) && SlotsMatch(later) && Extends(later, earlier) && RequestOk(earlier, r)
    ensures RequestOk(later, r) && Signers(later, r.storage) == Signers(earlier, r.storage)
  {
    if r.storage.Stored? {
      GrowthKeepsSigners(later, earlier, r.storage.bitmap);
    }
  }

  /** Replacing one request, and its tracker if it has one, by good ones keeps the invariant. */
  lemma ReplaceKeepsInv(b: Bridge, g: Registry, id: u64, r: Request, trackers: map<u64, Tracker>)
    requires Inv(b) && id in b.requests && SlotsMatch(g) && Extends(g, b.registry) && RequestOk(g, r)
    requires trackers - {id} == b.trackers - {id}
    requires id in trackers ==> Tracks(trackers[id], r)
    ensures Inv(b.(registry := g, requests := b.requests[id := r], trackers := trackers))
  {
    var b' := b.(registry := g, requests := b.requests[id := r], trackers := trackers);
    forall x | x in b'.requests ensures RequestOk(g, b'.requests[x]) {
      if x != id {
        GrowthKeepsRequest(g, b.registry, b.requests[x]);
      }
    }
    forall x | x in trackers ensures x in b'.requests && Tracks(trackers[x], b'.requests[x]) {
      if x != id {
        assert x in trackers - {id} && x in b.trackers - {id};
        assert (trackers - {id})[x] == (b.trackers - {id})[x];
      }
    }
  }

  // ----- validators and new requests -------------------------------------------------------

  lemma GrowthKeepsInv(b: Bridge, g: Registry)
    requires Inv(b) && SlotsMatch(g) && Extends(g, b.registry)
    ensures Inv(b.(registry := g))
    ensures forall id :: id in b.requests ==> SignersFor(b.(registry := g), id) == SignersFor(b, id)
  {
    forall id | id in b.requests
      ensures RequestOk(g, b.requests[id]) && SignersFor(b.(registry := g), id) == SignersFor(b, id)
    {
      GrowthKeepsRequest(g, b.registry, b.requests[id]);
    }
  }

  lemma AddValidatorKeepsInv(b: Bridge, env: Env, v: AccountId)
    requires Inv(b) && AddValidator(b, env, v).Committed?
    ensures var b' := AddValidator(b, env, v).state;
      && Inv(b') && Extends(b'.registry, b.registry) && b' == b.(registry := b'.registry)
      && forall id :: id in b.requests ==> SignersFor(b', id) == SignersFor(b, id)
  {
    var b' := AddValidator(b, env, v).state;
    if v !in b.registry.validators {
      AssignKeepsSlots(b.registry, v);
    }
    GrowthKeepsInv(b, b'.registry);
  }

  lemma AddKeepsInv(b: Bridge, id: u64, r: Request, t: Tracker)
    requires Inv(b) && id == b.requestCounter + 1 && RequestOk(b.registry, r) && Tracks(t, r)
    ensures Inv(b.(requestCounter := id, requests := b.requests[id := r], trackers := b.trackers[id := t]))
  {
  }

  lemma FreshTracker(source: ChainId, destination: ChainId, now: u64, block: u64)
    ensures source != destination ==> LogAgrees(Init(source, destination, now, block))
    ensures OverallOk(Init(source, destination, now, block))
  {
    if source != destination {
      LogAlwaysAgrees(source, destination, now, block, []);
    }
  }

  lemma NewRequestKeepsInv(
      b: Bridge, env: Env, token: u64, destination: ChainId, recipient: AccountId, required: u8,
      timeout: Option<u64>, metadata: PropertyMetadata, route: seq<ChainId>, gas: u64)
    requires Inv(b) && (route != [] ==> destination == route[0])
    ensures var o := NewRequest(b, env, token, destination, recipient, required, timeout, metadata, route, gas);
      o.Committed? ==> Inv(o.state) && o.value !in b.requests && SignersFor(o.state, o.value) == {}
  {
    NobodySigned(b.registry);
    FreshTracker(HOME_CHAIN, destination, env.now, env.block);
    var o := NewRequest(b, env, token, destination, recipient, required, timeout, metadata, route, gas);
    if o.Committed? {
      AddKeepsInv(b, o.value, o.state.requests[o.value], o.state.trackers[o.value]);
    }
  }

  // ----- voting ----------------------------------------------------------------------------

  /** The voter's bit in the normalized form of either format. */
  lemma VoteInBitmap(g: Registry, storage: SignatureStorage, voter: AccountId)
    requires SlotsMatch(g) && Readable(g, storage) && Normalize(g, storage).Committed?
    requires PositionOf(Normalize(g, storage).state, voter).Committed?
    ensures var n := Normalize(g, storage);
      var p := PositionOf(n.state, voter);
      && Migrated(g, p.state, SetSignature(n.value, p.value), Signers(g, storage) + {voter})
      && (HasSignature(n.value, p.value) <==> voter in Signers(g, storage))
  {
    var n := Normalize(g, storage);
    NormalizeKeepsSigners(g, storage);
    MigratesOneMore(g, n.state, n.value, Signers(g, storage), voter);
    VoterHasBit(n.state, n.value, voter);
  }

  lemma VoterHasBit(g: Registry, bitmap: Bitmap, voter: AccountId)
    requires SlotsMatch(g) && BitsAssigned(g, bitmap) && PositionOf(g, voter).Committed?
    ensures HasSignature(bitmap, PositionOf(g, voter).value) <==> voter in SignersOf(g, bitmap)
  {
    var position := PositionOf(g, voter).value;
    assert HasSignature(bitmap, position) <==> position in Positions(bitmap);
  }

  /** A vote changes nothing but the request, by the voter's signature and the status tallied from
      it; a legacy list becomes a bitmap, for which slots may be assigned. */
  lemma SignEffect(b: Bridge, env: Env, id: u64, approve: bool)
    requires Inv(b) && Sign(b, env, id, approve).Committed?
    ensures var b' := Sign(b, env, id, approve).state;
      && id in b.requests && env.caller in b.registry.validators && env.caller !in SignersFor(b, id)
      && Grown(b'.registry, b.registry)
      && b' == b.(registry := b'.registry, requests := b.requests[id := b'.requests[id]])
      && b'.requests[id].storage.Stored?
      && BitsAssigned(b'.registry, b'.requests[id].storage.bitmap)
      && b'.requests[id] == Tallied(b.requests[id].(storage := b'.requests[id].storage), approve)
      && SignersFor(b', id) == SignersFor(b, id) + {env.caller}
  {
    VoteInBitmap(b.registry, b.requests[id].storage, env.caller);
  }

  /** The count never exceeds the number of signers, wrapped or not. */
  lemma CountAtMost(g: Registry, bitmap: Bitmap)
    requires SlotsMatch(g) && BitsAssigned(g, bitmap)
    ensures SignatureCount(Stored(bitmap)) <= |SignersOf(g, bitmap)|
  {
    SignersCounted(g, bitmap);
    PopCountIsCardinality(bitmap);
  }

  /** Tallying a vote never locks a request that lacks signers. */
  lemma TalliedOk(g: Registry, r: Request, bitmap: Bitmap, approve: bool, signers: nat)
    requires SlotsMatch(g) && Routed(r) && BitsAssigned(g, bitmap)
    requires r.status == Locked ==> signers >= r.requiredSignatures
    requires signers <= |SignersOf(g, bitmap)|
    ensures RequestOk(g, Tallied(r.(storage := Stored(bitmap)), approve))
  {
    CountAtMost(g, bitmap);
  }

  lemma TalliedTracks(t: Tracker, r: Request, storage: SignatureStorage, approve: bool)
    requires Tracks(t, r)
    ensures Tracks(t, Tallied(r.(storage := storage), approve))
  {
  }

  lemma SignKeepsInv(b: Bridge, env: Env, id: u64, approve: bool)
    requires Inv(b) && Sign(b, env, id, approve).Committed?
    ensures Inv(Sign(b, env, id, approve).state)
  {
    SignEffect(b, env, id, approve);
    var b' := Sign(b, env, id, approve).state;
    var r, r' := b.requests[id], b'.requests[id];
    OneMoreSigner(SignersFor(b, id), env.caller);
    TalliedOk(b'.registry, r, r'.storage.bitmap, approve, |SignersFor(b, id)|);
    if id in b.trackers {
      TalliedTracks(b.trackers[id], r, r'.storage, approve);
    }
    ReplaceKeepsInv(b, b'.registry, id, r', b.trackers);
  }

  lemma OneMoreSigner(signers: set<AccountId>, a: AccountId)
    requires a !in signers
    ensures |signers + {a}| == |signers| + 1
  {
  }

  // ----- execution -------------------------------------------------------------------------

  /** An execution finds the threshold met, and moves the request one hop along its route. */
  lemma ExecuteEffect(b: Bridge, env: Env, id: u64)
    requires Inv(b) && Execute(b, env, id).Committed?
    ensures var b' := Execute(b, env, id).state;
      && id in b.requests && b.requests[id].status == Locked
      && |SignersFor(b, id)| >= b.requests[id].requiredSignatures
      && Grown(b'.registry, b.registry)
      && b' == b.(registry := b'.registry, requests := b.requests[id := b'.requests[id]], trackers := b'.trackers)
      && b'.requests[id] == Hopped(b.requests[id]).(storage := b'.requests[id].storage)
      && Readable(b'.registry, b'.requests[id].storage)
      && SignersFor(b', id) == if IsLastHop(b.requests[id]) then SignersFor(b, id) else {}
  {
    NormalizeKeepsSigners(b.registry, b.requests[id].storage);
    NobodySigned(Execute(b, env, id).state.registry);
  }

  lemma HoppedOk(g: Registry, r: Request, storage: SignatureStorage)
    requires Routed(r) && (!IsLastHop(r) ==> r.currentHop < U32_MAX) && Readable(g, storage)
    ensures RequestOk(g, Hopped(r).(storage := storage))
  {
  }

  /** The tracker of an executed request follows it to its next hop. */
  lemma ExecutedTracks(trackers: map<u64, Tracker>, env: Env, id: u64, r: Request, r': Request)
    requires (!IsLastHop(r) ==> r.currentHop < U32_MAX)
    requires r' == Hopped(r).(storage := r'.storage)
    requires id in trackers ==> Tracks(trackers[id], r)
    ensures var trackers' := ExecutedTrackers(trackers, env, id, r, r');
      && trackers' - {id} == trackers - {id}
      && (id in trackers' ==> Tracks(trackers'[id], r'))
  {
    if IsLastHop(r) {
      if id in trackers && r.sourceChain != r.destinationChain {
        AdvanceKeepsLog(trackers[id], env.txHash, env.now, env.block);
      }
    } else {
      FreshTracker(r'.sourceChain, r'.destinationChain, env.now, env.block);
    }
  }

  lemma ExecuteKeepsInv(b: Bridge, env: Env, id: u64)
    requires Inv(b) && Execute(b, env, id).Committed?
    ensures Inv(Execute(b, env, id).state)
  {
    var b' := Execute(b, env, id).state;
    var r, r' := b.requests[id], b'.requests[id];
    ExecuteEffect(b, env, id);
    HoppedOk(b'.registry, r, r'.storage);
    ExecutedTracks(b.trackers, env, id, r, r');
    ReplaceKeepsInv(b, b'.registry, id, r', b'.trackers);
  }

  // ----- recovery and rollback -------------------------------------------------------------

  /** The request with another status than locked, and its votes kept in some form or wiped. */
  function Restatused(r: Request, status: OperationStatus, hop: MultiHopStatus, storage: SignatureStorage): Request {
    r.(status := status, multiHopStatus := hop, storage := storage)
  }

  /** A recovery changes nothing but the request's status, and its votes on a retry. */
  lemma RecoverEffect(b: Bridge, env: Env, id: u64, action: RecoveryAction)
    requires Inv(b) && Recover(b, env, id, action).Committed?
    ensures var b' := Recover(b, env, id, action).state;
      var r' := b'.requests[id];
      && id in b.requests && r'.status in {Pending, Failed, Expired}
      && Grown(b'.registry, b.registry)
      && b' == b.(registry := b'.registry, requests := b.requests[id := r'])
      && r' == Restatused(b.requests[id], r'.status, r'.multiHopStatus, r'.storage)
      && Readable(b'.registry, r'.storage)
      && SignersFor(b', id) == if action == RetryBridge then {} else SignersFor(b, id)
  {
    NormalizeKeepsSigners(b.registry, b.requests[id].storage);
    NobodySigned(Recover(b, env, id, action).state.registry);
  }

  lemma RecoverKeepsInv(b: Bridge, env: Env, id: u64, action: RecoveryAction)
    requires Inv(b) && Recover(b, env, id, action).Committed?
    ensures Inv(Recover(b, env, id, action).state)
  {
    RecoverEffect(b, env, id, action);
    var b' := Recover(b, env, id, action).state;
    ReplaceKeepsInv(b, b'.registry, id, b'.requests[id], b.trackers);
  }

  /** A rollback fails the request, wipes its votes and marks its tracker. */
  lemma RollbackEffect(b: Bridge, env: Env, id: u64)
    requires Inv(b) && Rollback(b, env, id).Committed?
    ensures var b' := Rollback(b, env, id).state;
      var r' := b'.requests[id];
      && id in b.requests
      && Grown(b'.registry, b.registry)
      && b' == b.(registry := b'.registry, requests := b.requests[id := r'], trackers := b'.trackers)
      && r' == Restatused(b.requests[id], Failed, r'.multiHopStatus, Stored(NoSignatures()))
      && Readable(b'.registry, r'.storage)
      && SignersFor(b', id) == {}
  {
    NormalizeKeepsSigners(b.registry, b.requests[id].storage);
    NobodySigned(Rollback(b, env, id).state.registry);
  }

  /** The tracker of a rolled back request keeps to its log. */
  lemma FailedTracks(t: Tracker, r: Request, r': Request, now: u64, block: u64)
    requires Tracks(t, r) && r'.sourceChain == r.sourceChain && r'.destinationChain == r.destinationChain
    ensures Tracks(Fail(t, r.sourceChain, r.destinationChain, now, block), r')
  {
    if t.sourceChain != t.destinationChain {
      FailKeepsLog(t, now, block);
    }
  }

  lemma RollbackKeepsInv(b: Bridge, env: Env, id: u64)
    requires Inv(b) && Rollback(b, env, id).Committed?
    ensures Inv(Rollback(b, env, id).state)
  {
    RollbackEffect(b, env, id);
    var b' := Rollback(b, env, id).state;
    if id in b.trackers {
      FailedTracks(b.trackers[id], b.requests[id], b'.requests[id], env.now, env.block);
    }
    ReplaceKeepsInv(b, b'.registry, id, b'.requests[id], b'.trackers);
  }

  // ----- relayer reports -------------------------------------------------------------------

  lemma UpdateKeepsInv(
      b: Bridge, env: Env, id: u64, chain: ChainId, status: LegStatus, hash: Option<Hash>,
      block: u64, confirmations: u32, message: Option<Text>)
    requires Inv(b)
    requires UpdateChainStatus(b, env, id, chain, status, hash, block, confirmations, message).Committed?
    ensures Inv(UpdateChainStatus(b, env, id, chain, status, hash, block, confirmations, message).state)
  {
    var t := b.trackers[id];
    var update := LegUpdate(chain, status, hash, block, env.now, confirmations, message);
    if t.sourceChain != t.destinationChain {
      ReportKeepsLog(t, update);
    }
    ReplaceKeepsInv(b, b.registry, id, b.requests[id], b.trackers[id := Report(t, update).state]);
    assert b.requests[id := b.requests[id]] == b.requests;
  }

  // ----- every message ---------------------------------------------------------------------

  lemma NextKeepsInv(b: Bridge, c: Call)
    requires Inv(b)
    ensures Inv(BridgeMessages.Next(b, c))
  {
    if BridgeMessages.Apply(b, c).Committed? {
      match c.msg
      case MsgAddValidator(v) => AddValidatorKeepsInv(b, c.env, v);
      case MsgRemoveValidator(v) =>
      case MsgInitiate(t, d, r, q, o, m) => NewRequestKeepsInv(b, c.env, t, d, r, q, o, m, [], 0);
      case MsgInitiateMultiHop(t, route, r, q, o, m) =>
        NewRequestKeepsInv(b, c.env, t, route[0], r, q, o, m, route, c.env.gasEstimate.value);
      case MsgSign(id, approve) => SignKeepsInv(b, c.env, id, approve);
      case MsgExecute(id) => ExecuteKeepsInv(b, c.env, id);
      case MsgRecover(id, action) => RecoverKeepsInv(b, c.env, id, action);
      case MsgRollback(id) => RollbackKeepsInv(b, c.env, id);
      case MsgUpdateStatus(id, ch, s, h, bl, cf, m) => UpdateKeepsInv(b, c.env, id, ch, s, h, bl, cf, m);
      case MsgReconfigure(a, ops, chains, lo, hi) =>
    }
  }

  /** The invariant holds after every run that starts from a sound store, failing calls included. */
  lemma {:induction false} Reachable(b: Bridge, run: seq<Call>)
    requires Inv(b)
    ensures Inv(BridgeMessages.After(b, run))
  {
    if run == [] {
    } else {
      Reachable(b, run[..|run| - 1]);
      NextKeepsInv(BridgeMessages.After(b, run[..|run| - 1]), run[|run| - 1]);
    }
  }
}
