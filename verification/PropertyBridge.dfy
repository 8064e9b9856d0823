/** The bridge contract's own methods, proved to do what `BridgeMessages` says. A method that
    returns an error may leave writes behind; the runtime discards them. */
module PropertyBridge {
  import opened Machine
  import opened SignatureBitmap
  import opened BridgeTypes
  import opened StatusTracker
  import opened BridgeMessages

  class Contract {
    var admin: AccountId
    var bridgeOperators: seq<AccountId>
    var supportedChains: seq<ChainId>
    var minSignaturesRequired: u8
    var maxSignaturesRequired: u8
    var validators: seq<AccountId>
    var validatorBitPositions: map<AccountId, u8>
    var validatorSlots: seq<Option<AccountId>>
    var bridgeRequests: map<u64, Request>
    var crossChainTxStatus: map<u64, Tracker>
    var requestCounter: u64

    function Slots(): Registry
      reads this
    {
      Registry(validators, validatorBitPositions, validatorSlots)
    }

    function View(): Bridge
      reads this
    {
      Bridge(admin, bridgeOperators, supportedChains, minSignaturesRequired, maxSignaturesRequired,
             Slots(), bridgeRequests, crossChainTxStatus, requestCounter)
    }

    constructor (caller: AccountId, chains: seq<ChainId>, minSignatures: u8, maxSignatures: u8)
      ensures Initial(View())
      ensures admin == caller && bridgeOperators == [caller] && supportedChains == chains
      ensures minSignaturesRequired == minSignatures && maxSignaturesRequired == maxSignatures
    {
      admin, bridgeOperators, supportedChains := caller, [caller], chains;
      minSignaturesRequired, maxSignaturesRequired := minSignatures, maxSignatures;
      validators, validatorBitPositions, validatorSlots := [], map[], [];
      bridgeRequests, crossChainTxStatus, requestCounter := map[], map[], 0;
    }

    // ----- slots -----

    method AssignValidatorBitPosition(validator: AccountId) returns (r: Result<u8, SlotError>)
      modifies this`validatorSlots, this`validatorBitPositions
      ensures match r
        case Ok(position) => Assign(old(Slots()), validator) == Committed(Slots(), position)
        case Err(e) => Assign(old(Slots()), validator) == Reverted(e) && Slots() == old(Slots())
    {
      if validator in validatorBitPositions {
        return Ok(validatorBitPositions[validator]);
      }
      if |validatorSlots| >= MAX_SLOTS {
        return Err(SlotsExhausted);
      }
      var position: u8 := |validatorSlots|;
      validatorSlots := validatorSlots + [Some(validator)];
      validatorBitPositions := validatorBitPositions[validator := position];
      return Ok(position);
    }

    method GetValidatorBitPosition(validator: AccountId) returns (r: Result<u8, SlotError>)
      modifies this`validatorSlots, this`validatorBitPositions
      ensures match r
        case Ok(position) => PositionOf(old(Slots()), validator) == Committed(Slots(), position)
        case Err(e) => PositionOf(old(Slots()), validator) == Reverted(e) && Slots() == old(Slots())
    {
      if validator in validatorBitPositions {
        return Ok(validatorBitPositions[validator]);
      }
      if validator !in validators {
        return Err(NotAValidator);
      }
      r := AssignValidatorBitPosition(validator);
    }

    method NormalizeSignatureStorage(storage: SignatureStorage) returns (r: Result<Bitmap, SlotError>)
      modifies this`validatorSlots, this`validatorBitPositions
      ensures r.Ok? ==> Normalize(old(Slots()), storage) == Committed(Slots(), r.value)
      ensures r.Err? ==> Normalize(old(Slots()), storage) == Reverted(r.error)
    {
      if storage.Stored? {
        return Ok(storage.bitmap);
      }
      var signers := storage.signers;
      var bitmap := NoSignatures();
      var i := 0;
      while i < |signers|
        invariant 0 <= i <= |signers|
        invariant Collect(old(Slots()), signers[..i]) == Committed(Slots(), bitmap)
      {
        var position := GetValidatorBitPosition(signers[i]);
        assert signers[..i + 1][..i] == signers[..i];
        if position.Err? {
          CollectFailsEarly(old(Slots()), signers, i + 1);
          return Err(position.error);
        }
        bitmap := SetSignature(bitmap, position.value);
        i := i + 1;
      }
      assert signers[..|signers|] == signers;
      return Ok(bitmap);
    }

    method SignerListForRequest(storage: SignatureStorage) returns (list: seq<AccountId>)
      ensures storage.Legacy? ==> list == storage.signers
      ensures storage.Stored? ==> list == SignerList(validatorSlots, storage.bitmap)
    {
      if storage.Legacy? {
        return storage.signers;
      }
      list := [];
      var index := 0;
      while index < |validatorSlots|
        invariant 0 <= index <= |validatorSlots|
        invariant list == SignerList(validatorSlots[..index], storage.bitmap)
      {
        if validatorSlots[index].Some? && HasSignature(storage.bitmap, index % 256) {
          list := list + [validatorSlots[index].value];
        }
        assert validatorSlots[..index + 1][..index] == validatorSlots[..index];
        index := index + 1;
      }
      assert validatorSlots[..|validatorSlots|] == validatorSlots;
    }

    method AddValidator(env: Env, validator: AccountId) returns (r: Result<u64, BridgeError>)
      modifies this
      ensures r.Ok? ==> BridgeMessages.AddValidator(old(View()), env, validator) == Committed(View(), r.value)
      ensures r.Err? ==> BridgeMessages.AddValidator(old(View()), env, validator) == Reverted(r.error)
    {
      if env.caller != admin {
        return Err(Unauthorized);
      }
      if validator in validators {
        return Ok(0);
      }
      var position := AssignValidatorBitPosition(validator);
      if position.Err? {
        return Err(SlotFailure(position.error));
      }
      validators := validators + [validator];
      return Ok(0);
    }

    method RemoveValidator(env: Env, validator: AccountId) returns (r: Result<u64, BridgeError>)
      modifies this
      ensures r.Ok? ==> BridgeMessages.RemoveValidator(old(View()), env, validator) == Committed(View(), r.value)
      ensures r.Err? ==> BridgeMessages.RemoveValidator(old(View()), env, validator) == Reverted(r.error)
    {
      if env.caller != admin {
        return Err(Unauthorized);
      }
      validators := Without(validators, validator);
      return Ok(0);
    }

    // ----- the tracker -----

    method InitCrossChainStatus(env: Env, id: u64, source: ChainId, destination: ChainId)
      modifies this`crossChainTxStatus
      ensures crossChainTxStatus == old(crossChainTxStatus)[id := Init(source, destination, env.now, env.block)]
    {
      var submitted := LegUpdate(source, LegSubmitted, None, env.block, env.now, 0, None);
      var untouched := LegUpdate(destination, LegNotStarted, None, 0, env.now, 0, None);
      var history := [];
      history := history + [submitted];
      assert history == [submitted];
      var tracker := Tracker(source, destination, submitted, untouched, Pending, history, env.now);
      crossChainTxStatus := crossChainTxStatus[id := tracker];
    }

    method AdvanceCrossChainStatusOnExecute(env: Env, id: u64, source: ChainId, destination: ChainId)
      modifies this`crossChainTxStatus
      ensures crossChainTxStatus ==
        if id in old(crossChainTxStatus)
        then old(crossChainTxStatus)[id :=
          Advance(old(crossChainTxStatus)[id], source, destination, env.txHash, env.now, env.block)]
        else old(crossChainTxStatus)
    {
      if id !in crossChainTxStatus {
        return;
      }
      var tracker := crossChainTxStatus[id];
      var sourceUpdate := LegUpdate(source, LegConfirmed, Some(env.txHash), env.block, env.now, 1, None);
      var destinationUpdate := LegUpdate(destination, LegSubmitted, None, 0, env.now, 0, None);
      var history := tracker.history + [sourceUpdate];
      history := history + [destinationUpdate];
      assert history == tracker.history + [sourceUpdate, destinationUpdate];
      tracker := tracker.(sourceStatus := sourceUpdate, destinationStatus := destinationUpdate, history := history,
                          lastUpdated := env.now, overallStatus := InTransit);
      crossChainTxStatus := crossChainTxStatus[id := tracker];
    }

    method FailCrossChainStatus(env: Env, id: u64, source: ChainId, destination: ChainId)
      modifies this`crossChainTxStatus
      ensures crossChainTxStatus ==
        if id in old(crossChainTxStatus)
        then old(crossChainTxStatus)[id := Fail(old(crossChainTxStatus)[id], source, destination, env.now, env.block)]
        else old(crossChainTxStatus)
    {
      if id !in crossChainTxStatus {
        return;
      }
      var tracker := crossChainTxStatus[id];
      var history := tracker.history;
      if tracker.sourceStatus.status != LegConfirmed {
        var update := Broken(source, tracker.sourceStatus, env.now, env.block);
        tracker := tracker.(sourceStatus := update);
        history := history + [update];
      }
      if tracker.destinationStatus.status != LegConfirmed {
        var update := Broken(destination, tracker.destinationStatus, env.now, env.block);
        tracker := tracker.(destinationStatus := update);
        history := history + [update];
      }
      tracker := tracker.(history := history, lastUpdated := env.now, overallStatus := Failed);
      assert tracker == Fail(old(crossChainTxStatus)[id], source, destination, env.now, env.block);
      crossChainTxStatus := crossChainTxStatus[id := tracker];
    }

    method ReportOn(t: Tracker, update: LegUpdate) returns (r: Result<Tracker, BridgeError>)
      ensures match r
        case Ok(tracker) => Report(t, update) == Committed(tracker, ())
        case Err(e) => Report(t, update) == Reverted(e)
    {
      var tracker, chain := t, update.chain;
      if chain != tracker.sourceChain && chain != tracker.destinationChain {
        return Err(InvalidChain);
      }
      var current :=
        if chain == tracker.sourceChain then tracker.sourceStatus.status else tracker.destinationStatus.status;
      if !ValidTransition(current, update.status) {
        return Err(InvalidStatusTransition);
      }
      if chain == tracker.sourceChain {
        tracker := tracker.(sourceStatus := update);
      } else {
        tracker := tracker.(destinationStatus := update);
      }
      var history := tracker.history + [update];
      var overall := Overall(tracker.sourceStatus.status, tracker.destinationStatus.status);
      tracker := tracker.(history := history, lastUpdated := update.timestamp, overallStatus := overall);
      return Ok(tracker);
    }

    method UpdateChainTxStatus(
        env: Env, id: u64, chain: ChainId, status: LegStatus, txHash: Option<Hash>,
        block: u64, confirmations: u32, message: Option<Text>) returns (r: Result<u64, BridgeError>)
      modifies this`crossChainTxStatus
      ensures r.Ok? ==>
        UpdateChainStatus(old(View()), env, id, chain, status, txHash, block, confirmations, message)
          == Committed(View(), r.value)
      ensures r.Err? ==>
        UpdateChainStatus(old(View()), env, id, chain, status, txHash, block, confirmations, message)
          == Reverted(r.error)
    {
      if env.caller != admin && env.caller !in bridgeOperators {
        return Err(Unauthorized);
      }
      if id !in crossChainTxStatus {
        return Err(TransactionNotFound);
      }
      var update := LegUpdate(chain, status, txHash, block, env.now, confirmations, message);
      var tracker := ReportOn(crossChainTxStatus[id], update);
      if tracker.Err? {
        return Err(tracker.error);
      }
      crossChainTxStatus := crossChainTxStatus[id := tracker.value];
      return Ok(0);
    }

    // ----- requests -----

    method CreateRequest(
        env: Env, token: u64, destination: ChainId, recipient: AccountId, required: u8, timeout: Option<u64>,
        metadata: PropertyMetadata, route: seq<ChainId>, gas: u64) returns (r: Result<u64, BridgeError>)
      modifies this
      ensures r.Ok? ==>
        NewRequest(old(View()), env, token, destination, recipient, required, timeout, metadata, route, gas)
          == Committed(View(), r.value)
      ensures r.Err? ==>
        NewRequest(old(View()), env, token, destination, recipient, required, timeout, metadata, route, gas)
          == Reverted(r.error)
    {
      if requestCounter + 1 > U64_MAX {
        return Err(Trap);
      }
      requestCounter := requestCounter + 1;
      var id := requestCounter;
      var expires: Option<u64> :=
        if timeout.Some? then Some(SaturatingAdd(U64_MAX, env.block, timeout.value)) else None;
      var request := Request(
        id, token, HOME_CHAIN, destination, env.caller, recipient, required, Stored(NoSignatures()),
        env.block, expires, Pending, HopInProgress, route, 0, gas, metadata);
      bridgeRequests := bridgeRequests[id := request];
      InitCrossChainStatus(env, id, request.sourceChain, destination);
      return Ok(id);
    }

    method InitiateBridgeMultisig(
        env: Env, token: u64, destination: ChainId, recipient: AccountId, required: u8,
        timeout: Option<u64>, metadata: PropertyMetadata) returns (r: Result<u64, BridgeError>)
      modifies this
      ensures r.Ok? ==>
        Initiate(old(View()), env, token, destination, recipient, required, timeout, metadata)
          == Committed(View(), r.value)
      ensures r.Err? ==>
        Initiate(old(View()), env, token, destination, recipient, required, timeout, metadata) == Reverted(r.error)
    {
      if env.paused {
        return Err(OperationPaused);
      }
      if destination !in supportedChains {
        return Err(InvalidChain);
      }
      if required < minSignaturesRequired || required > maxSignaturesRequired {
        return Err(InsufficientSignatures);
      }
      if env.rateLimited.Some? {
        return Err(env.rateLimited.value);
      }
      if env.tokenFrozen {
        return Err(AssetAlreadyFrozen);
      }
      r := CreateRequest(env, token, destination, recipient, required, timeout, metadata, [], 0);
    }

    method InitiateMultiHopBridge(
        env: Env, token: u64, route: seq<ChainId>, recipient: AccountId, required: u8,
        timeout: Option<u64>, metadata: PropertyMetadata) returns (r: Result<u64, BridgeError>)
      modifies this
      ensures r.Ok? ==>
        InitiateMultiHop(old(View()), env, token, route, recipient, required, timeout, metadata)
          == Committed(View(), r.value)
      ensures r.Err? ==>
        InitiateMultiHop(old(View()), env, token, route, recipient, required, timeout, metadata) == Reverted(r.error)
    {
      if env.paused {
        return Err(OperationPaused);
      }
      if |route| < 2 {
        return Err(InvalidChain);
      }
      if route[0] == HOME_CHAIN {
        return Err(InvalidChain);
      }
      if exists chain :: chain in route && chain !in supportedChains {
        return Err(InvalidChain);
      }
      if required < minSignaturesRequired || required > maxSignaturesRequired {
        return Err(InsufficientSignatures);
      }
      if env.rateLimited.Some? {
        return Err(env.rateLimited.value);
      }
      if env.tokenFrozen {
        return Err(AssetAlreadyFrozen);
      }
      if env.gasEstimate.None? {
        return Err(GasLimitExceeded);
      }
      r := CreateRequest(env, token, route[0], recipient, required, timeout, metadata, route, env.gasEstimate.value);
    }

    method SignBridgeRequest(env: Env, id: u64, approve: bool) returns (r: Result<u64, BridgeError>)
      modifies this
      ensures r.Ok? ==> Sign(old(View()), env, id, approve) == Committed(View(), r.value)
      ensures r.Err? ==> Sign(old(View()), env, id, approve) == Reverted(r.error)
    {
      if env.paused {
        return Err(OperationPaused);
      }
      if env.caller !in validators {
        return Err(Unauthorized);
      }
      if id !in bridgeRequests {
        return Err(InvalidRequest);
      }
      var request := bridgeRequests[id];
      var normal := NormalizeSignatureStorage(request.storage);
      if normal.Err? {
        return Err(SlotFailure(normal.error));
      }
      if request.expiresAt.Some? {
        if env.block > request.expiresAt.value {
          return Err(RequestExpired);
        }
      }
      var position := GetValidatorBitPosition(env.caller);
      if position.Err? {
        return Err(SlotFailure(position.error));
      }
      if HasSignature(normal.value, position.value) {
        return Err(AlreadySigned);
      }
      request := request.(storage := Stored(SetSignature(normal.value, position.value)));
      if !approve {
        request := request.(status := Failed);
        request := request.(multiHopStatus := HopFailed);
      } else if SignatureCount(request.storage) >= request.requiredSignatures {
        request := request.(status := Locked);
      }
      bridgeRequests := bridgeRequests[id := request];
      return Ok(0);
    }

    method MoveTracker(env: Env, id: u64, was: Request, request: Request)
      modifies this`crossChainTxStatus
      ensures crossChainTxStatus == ExecutedTrackers(old(crossChainTxStatus), env, id, was, request)
    {
      AdvanceCrossChainStatusOnExecute(env, id, was.sourceChain, was.destinationChain);
      if !IsLastHop(was) {
        InitCrossChainStatus(env, id, request.sourceChain, request.destinationChain);
      }
    }

    method HopRequest(was: Request) returns (r: Result<Request, BridgeError>)
      ensures r.Err? <==> !IsLastHop(was) && was.currentHop == U32_MAX
      ensures r.Err? ==> r.error == Trap
      ensures r.Ok? ==> r.value == Hopped(was)
    {
      var request := was;
      var isLastHop := request.route == [] || request.currentHop + 1 >= |request.route|;
      if isLastHop {
        request := request.(status := Completed);
        request := request.(multiHopStatus := HopCompleted);
      } else {
        if request.currentHop + 1 > U32_MAX {
          return Err(Trap);
        }
        request := request.(currentHop := request.currentHop + 1);
        request := request.(sourceChain := request.destinationChain);
        request := request.(destinationChain := request.route[request.currentHop]);
        request := request.(status := Pending);
        request := request.(storage := Stored(NoSignatures()));
        request := request.(multiHopStatus := HopInProgress);
      }
      return Ok(request);
    }

    method FinishExecution(env: Env, id: u64, request: Request) returns (r: Result<u64, BridgeError>)
      modifies this`bridgeRequests, this`crossChainTxStatus
      ensures r == if !IsLastHop(request) && request.currentHop == U32_MAX then Err(Trap) else Ok(0)
      ensures r.Ok? ==>
        && bridgeRequests == old(bridgeRequests)[id := Hopped(request)]
        && crossChainTxStatus == ExecutedTrackers(old(crossChainTxStatus), env, id, request, Hopped(request))
    {
      var hopped := HopRequest(request);
      if hopped.Err? {
        return Err(hopped.error);
      }
      bridgeRequests := bridgeRequests[id := hopped.value];
      MoveTracker(env, id, request, hopped.value);
      return Ok(0);
    }

    method ExecuteBridge(env: Env, id: u64) returns (r: Result<u64, BridgeError>)
      modifies this`validatorSlots, this`validatorBitPositions, this`bridgeRequests, this`crossChainTxStatus
      ensures r.Ok? ==> Execute(old(View()), env, id) == Committed(View(), r.value)
      ensures r.Err? ==> Execute(old(View()), env, id) == Reverted(r.error)
    {
      if env.paused {
        return Err(OperationPaused);
      }
      if env.caller !in bridgeOperators {
        return Err(Unauthorized);
      }
      if id !in bridgeRequests {
        return Err(InvalidRequest);
      }
      var request := bridgeRequests[id];
      var normal := NormalizeSignatureStorage(request.storage);
      if normal.Err? {
        return Err(SlotFailure(normal.error));
      }
      request := request.(storage := Stored(normal.value));
      if request.status != Locked {
        return Err(InvalidRequest);
      }
      if SignatureCount(request.storage) < request.requiredSignatures {
        return Err(InsufficientSignatures);
      }
      if env.travelDataMissing {
        return Err(TravelRuleDataRequired);
      }
      if env.tokenFrozen {
        return Err(AssetAlreadyFrozen);
      }
      r := FinishExecution(env, id, request);
    }

    method RecoverFailedBridge(env: Env, id: u64, action: RecoveryAction) returns (r: Result<u64, BridgeError>)
      modifies this
      ensures r.Ok? ==> Recover(old(View()), env, id, action) == Committed(View(), r.value)
      ensures r.Err? ==> Recover(old(View()), env, id, action) == Reverted(r.error)
    {
      if env.caller != admin {
        return Err(Unauthorized);
      }
      if id !in bridgeRequests {
        return Err(InvalidRequest);
      }
      var request := bridgeRequests[id];
      var normal := NormalizeSignatureStorage(request.storage);
      if normal.Err? {
        return Err(SlotFailure(normal.error));
      }
      request := request.(storage := Stored(normal.value));
      if request.status != Failed && request.status != Expired {
        return Err(InvalidRequest);
      }
      match action {
        case UnlockToken =>
        case RefundGas =>
        case RetryBridge =>
          request := request.(status := Pending);
          request := request.(multiHopStatus := HopInProgress);
          request := request.(storage := Stored(NoSignatures()));
        case CancelBridge =>
          request := request.(status := Failed);
          request := request.(multiHopStatus := HopFailed);
      }
      bridgeRequests := bridgeRequests[id := request];
      return Ok(0);
    }

    method RollbackBridgeTransaction(env: Env, id: u64) returns (r: Result<u64, BridgeError>)
      modifies this`validatorSlots, this`validatorBitPositions, this`bridgeRequests, this`crossChainTxStatus
      ensures r.Ok? ==> Rollback(old(View()), env, id) == Committed(View(), r.value)
      ensures r.Err? ==> Rollback(old(View()), env, id) == Reverted(r.error)
    {
      if env.caller != admin {
        return Err(Unauthorized);
      }
      if id !in bridgeRequests {
        return Err(InvalidRequest);
      }
      var request := bridgeRequests[id];
      if request.status == Completed || request.status == Unset {
        return Err(InvalidRequest);
      }
      request := request.(status := Recovering);
      bridgeRequests := bridgeRequests[id := request];
      var normal := NormalizeSignatureStorage(request.storage);
      if normal.Err? {
        return Err(SlotFailure(normal.error));
      }
      request := request.(storage := Stored(NoSignatures()));
      request := request.(status := Failed);
      bridgeRequests := bridgeRequests[id := request];
      assert bridgeRequests == old(bridgeRequests)[id := request];
      FailCrossChainStatus(env, id, request.sourceChain, request.destinationChain);
      return Ok(0);
    }
  }
}
