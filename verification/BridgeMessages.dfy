/** The bridge's request lifecycle as a state machine: what each message does to the stored
    requests, the validator slots and the status trackers. */
module BridgeMessages {
  import opened Machine
  import opened SignatureBitmap
  import opened BridgeTypes
  import opened StatusTracker

  datatype Bridge = Bridge(
    admin: AccountId,
    operators: seq<AccountId>,
    supportedChains: seq<ChainId>,
    minSignatures: u8,
    maxSignatures: u8,
    registry: Registry,
    requests: map<u64, Request>,
    trackers: map<u64, Tracker>,
    requestCounter: u64)

  /** The call's environment. The last five fields are the verdicts of checks modelled elsewhere
      or not at all; any of them may block a message, none of them writes here. */
  datatype Env = Env(
    caller: AccountId,
    block: u32,
    now: u64,
    paused: bool,
    rateLimited: Option<BridgeError>,
    tokenFrozen: bool,
    travelDataMissing: bool,
    gasEstimate: Option<u64>,
    txHash: Hash)

  type Step = Outcome<Bridge, u64, BridgeError>

  function SlotFailure(e: SlotError): BridgeError {
    match e
    case SlotsExhausted => InsufficientSignatures
    case NotAValidator => Unauthorized
  }

  // ----- validators ------------------------------------------------------------------------

  function AddValidator(b: Bridge, env: Env, validator: AccountId): Step {
    if env.caller != b.admin then Reverted(Unauthorized)
    else if validator in b.registry.validators then Committed(b, 0)
    else
      var o := Assign(b.registry, validator);
      if o.Reverted? then Reverted(SlotFailure(o.error))
      else Committed(b.(registry := o.state.(validators := o.state.validators + [validator])), 0)
  }

  function RemoveValidator(b: Bridge, env: Env, validator: AccountId): Step {
    if env.caller != b.admin then Reverted(Unauthorized)
    else Committed(b.(registry := b.registry.(validators := Without(b.registry.validators, validator))), 0)
  }

  // ----- initiation ------------------------------------------------------------------------

  function NewRequest(
      b: Bridge, env: Env, token: u64, destination: ChainId, recipient: AccountId, required: u8,
      timeout: Option<u64>, metadata: PropertyMetadata, route: seq<ChainId>, gas: u64): Step
  {
    if b.requestCounter == U64_MAX then Reverted(Trap)
    else
      var id := b.requestCounter + 1;
      var expires := if timeout.Some? then Some(SaturatingAdd(U64_MAX, env.block, timeout.value)) else None;
      var request := Request(
        id, token, HOME_CHAIN, destination, env.caller, recipient, required, Stored(NoSignatures()),
        env.block, expires, Pending, HopInProgress, route, 0, gas, metadata);
      Committed(
        b.(requestCounter := id,
           requests := b.requests[id := request],
           trackers := b.trackers[id := Init(HOME_CHAIN, destination, env.now, env.block)]),
        id)
  }

  function Initiate(
      b: Bridge, env: Env, token: u64, destination: ChainId, recipient: AccountId, required: u8,
      timeout: Option<u64>, metadata: PropertyMetadata): Step
  {
    if env.paused then Reverted(OperationPaused)
    else if destination !in b.supportedChains then Reverted(InvalidChain)
    else if required < b.minSignatures || required > b.maxSignatures then Reverted(InsufficientSignatures)
    else if env.rateLimited.Some? then Reverted(env.rateLimited.value)
    else if env.tokenFrozen then Reverted(AssetAlreadyFrozen)
    else NewRequest(b, env, token, destination, recipient, required, timeout, metadata, [], 0)
  }

  function InitiateMultiHop(
      b: Bridge, env: Env, token: u64, route: seq<ChainId>, recipient: AccountId, required: u8,
      timeout: Option<u64>, metadata: PropertyMetadata): Step
  {
    if env.paused then Reverted(OperationPaused)
    else if |route| < 2 then Reverted(InvalidChain)
    else if route[0] == HOME_CHAIN then Reverted(InvalidChain)
    else if exists c :: c in route && c !in b.supportedChains then Reverted(InvalidChain)
    else if required < b.minSignatures || required > b.maxSignatures then Reverted(InsufficientSignatures)
    else if env.rateLimited.Some? then Reverted(env.rateLimited.value)
    else if env.tokenFrozen then Reverted(AssetAlreadyFrozen)
    else if env.gasEstimate.None? then Reverted(GasLimitExceeded)
    else NewRequest(b, env, token, route[0], recipient, required, timeout, metadata, route, env.gasEstimate.value)
  }

  // ----- signing ---------------------------------------------------------------------------

  function Sign(b: Bridge, env: Env, id: u64, approve: bool): Step {
    if env.paused then Reverted(OperationPaused)
    else if env.caller !in b.registry.validators then Reverted(Unauthorized)
    else if id !in b.requests then Reverted(InvalidRequest)
    else
      var r := b.requests[id];
      var n := Normalize(b.registry, r.storage);
      if n.Reverted? then Reverted(SlotFailure(n.error))
      else if r.expiresAt.Some? && env.block > r.expiresAt.value then Reverted(RequestExpired)
      else
        var p := PositionOf(n.state, env.caller);
        if p.Reverted? then Reverted(SlotFailure(p.error))
        else if HasSignature(n.value, p.value) then Reverted(AlreadySigned)
        else
          var r' := r.(storage := Stored(SetSignature(n.value, p.value)));
          Committed(b.(registry := p.state, requests := b.requests[id := Tallied(r', approve)]), 0)
  }

  /** The status a request takes after a vote of either kind. */
  function Tallied(r: Request, approve: bool): Request {
    if !approve then r.(status := Failed, multiHopStatus := HopFailed)
    else if SignatureCount(r.storage) >= r.requiredSignatures then r.(status := Locked)
    else r
  }

  // ----- execution -------------------------------------------------------------------------

  predicate IsLastHop(r: Request) {
    r.route == [] || r.currentHop + 1 >= |r.route|
  }

  /** The request after an execution: finished, or reset for its next hop. */
  function Hopped(r: Request): Request
    requires !IsLastHop(r) ==> r.currentHop < U32_MAX
  {
    if IsLastHop(r) then r.(status := Completed, multiHopStatus := HopCompleted)
    else r.(currentHop := r.currentHop + 1,
            sourceChain := r.destinationChain,
            destinationChain := r.route[r.currentHop + 1],
            status := Pending,
            storage := Stored(NoSignatures()),
            multiHopStatus := HopInProgress)
  }

  function Execute(b: Bridge, env: Env, id: u64): Step {
    if env.paused then Reverted(OperationPaused)
    else if env.caller !in b.operators then Reverted(Unauthorized)
    else if id !in b.requests then Reverted(InvalidRequest)
    else
      var n := Normalize(b.registry, b.requests[id].storage);
      if n.Reverted? then Reverted(SlotFailure(n.error))
      else
        var r := b.requests[id].(storage := Stored(n.value));
        if r.status != Locked then Reverted(InvalidRequest)
        else if SignatureCount(r.storage) < r.requiredSignatures then Reverted(InsufficientSignatures)
        else if env.travelDataMissing then Reverted(TravelRuleDataRequired)
        else if env.tokenFrozen then Reverted(AssetAlreadyFrozen)
        else if !IsLastHop(r) && r.currentHop == U32_MAX then Reverted(Trap)
        else
          var r' := Hopped(r);
          Committed(
            b.(registry := n.state,
               requests := b.requests[id := r'],
               trackers := ExecutedTrackers(b.trackers, env, id, r, r')),
            0)
  }

  /** The tracker advances along the hop just made and starts afresh for the next one, if any. */
  function ExecutedTrackers(
      trackers: map<u64, Tracker>, env: Env, id: u64, r: Request, r': Request): map<u64, Tracker>
  {
    var advanced :=
      if id in trackers
      then trackers[id := Advance(trackers[id], r.sourceChain, r.destinationChain, env.txHash, env.now, env.block)]
      else trackers;
    if IsLastHop(r) then advanced
    else advanced[id := Init(r'.sourceChain, r'.destinationChain, env.now, env.block)]
  }

  // ----- recovery --------------------------------------------------------------------------

  function Recover(b: Bridge, env: Env, id: u64, action: RecoveryAction): Step {
    if env.caller != b.admin then Reverted(Unauthorized)
    else if id !in b.requests then Reverted(InvalidRequest)
    else
      var n := Normalize(b.registry, b.requests[id].storage);
      if n.Reverted? then Reverted(SlotFailure(n.error))
      else
        var r := b.requests[id].(storage := Stored(n.value));
        if r.status != Failed && r.status != Expired then Reverted(InvalidRequest)
        else
          var r' := match action
            case UnlockToken => r
            case RefundGas => r
            case RetryBridge =>
              r.(status := Pending, multiHopStatus := HopInProgress, storage := Stored(NoSignatures()))
            case CancelBridge => r.(status := Failed, multiHopStatus := HopFailed);
          Committed(b.(registry := n.state, requests := b.requests[id := r']), 0)
  }

  function Rollback(b: Bridge, env: Env, id: u64): Step {
    if env.caller != b.admin then Reverted(Unauthorized)
    else if id !in b.requests then Reverted(InvalidRequest)
    else
      var r := b.requests[id];
      if r.status == Completed || r.status == Unset then Reverted(InvalidRequest)
      else
        var n := Normalize(b.registry, r.storage);
        if n.Reverted? then Reverted(SlotFailure(n.error))
        else
          var r' := r.(status := Failed, storage := Stored(NoSignatures()));
          Committed(
            b.(registry := n.state,
               requests := b.requests[id := r'],
               trackers :=
                 if id in b.trackers
                 then b.trackers[id := Fail(b.trackers[id], r.sourceChain, r.destinationChain, env.now, env.block)]
                 else b.trackers),
            0)
  }

  // ----- relayer reports -------------------------------------------------------------------

  function UpdateChainStatus(
      b: Bridge, env: Env, id: u64, chain: ChainId, status: LegStatus, hash: Option<Hash>,
      block: u64, confirmations: u32, message: Option<Text>): Step
  {
    if env.caller != b.admin && env.caller !in b.operators then Reverted(Unauthorized)
    else if id !in b.trackers then Reverted(TransactionNotFound)
    else
      var o := Report(b.trackers[id], LegUpdate(chain, status, hash, block, env.now, confirmations, message));
      if o.Reverted? then Reverted(o.error) else Committed(b.(trackers := b.trackers[id := o.state]), 0)
  }

  // ----- runs ------------------------------------------------------------------------------

  datatype Message =
    | MsgAddValidator(validator: AccountId)
    | MsgRemoveValidator(validator: AccountId)
    | MsgInitiate(token: u64, destination: ChainId, recipient: AccountId, required: u8,
                  timeout: Option<u64>, metadata: PropertyMetadata)
    | MsgInitiateMultiHop(token: u64, route: seq<ChainId>, recipient: AccountId, required: u8,
                          timeout: Option<u64>, metadata: PropertyMetadata)
    | MsgSign(id: u64, approve: bool)
    | MsgExecute(id: u64)
    | MsgRecover(id: u64, action: RecoveryAction)
    | MsgRollback(id: u64)
    | MsgUpdateStatus(id: u64, chain: ChainId, status: LegStatus, hash: Option<Hash>,
                      block: u64, confirmations: u32, message: Option<Text>)
    /** Any change the administrative messages make to roles and configuration. */
    | MsgReconfigure(admin: AccountId, operators: seq<AccountId>, supportedChains: seq<ChainId>,
                     minSignatures: u8, maxSignatures: u8)

  datatype Call = Call(env: Env, msg: Message)

  function Apply(b: Bridge, c: Call): Step {
    match c.msg
    case MsgAddValidator(v) => AddValidator(b, c.env, v)
    case MsgRemoveValidator(v) => RemoveValidator(b, c.env, v)
    case MsgInitiate(t, d, r, q, o, m) => Initiate(b, c.env, t, d, r, q, o, m)
    case MsgInitiateMultiHop(t, route, r, q, o, m) => InitiateMultiHop(b, c.env, t, route, r, q, o, m)
    case MsgSign(id, approve) => Sign(b, c.env, id, approve)
    case MsgExecute(id) => Execute(b, c.env, id)
    case MsgRecover(id, action) => Recover(b, c.env, id, action)
    case MsgRollback(id) => Rollback(b, c.env, id)
    case MsgUpdateStatus(id, ch, s, h, bl, cf, m) => UpdateChainStatus(b, c.env, id, ch, s, h, bl, cf, m)
    case MsgReconfigure(a, ops, chains, lo, hi) =>
      Committed(
        b.(admin := a, operators := ops, supportedChains := chains, minSignatures := lo, maxSignatures := hi),
        0)
  }

  function Next(b: Bridge, c: Call): Bridge {
    match Apply(b, c)
    case Committed(b', _) => b'
    case Reverted(_) => b
  }

  /** A newly deployed bridge, whatever its roles and configuration. */
  predicate Initial(b: Bridge) {
    && b.registry == Registry([], map[], [])
    && b.requests == map[] && b.trackers == map[] && b.requestCounter == 0
  }

  function After(b: Bridge, run: seq<Call>): Bridge {
    if run == [] then b else Next(After(b, run[..|run| - 1]), run[|run| - 1])
  }
}
