/** Records shared by the bridge's modules. Where two source enums use the same variant name, the
    leg's variant carries the prefix `Leg`, and the operation status `None` is `Unset`. */
module BridgeTypes {
  import opened Machine
  import opened SignatureBitmap

  type byte = x: int | 0 <= x < 256

  /** Text as its UTF-8 bytes. */
  type Text = seq<byte>

  type Hash = nat

  /** `get_current_chain_id` is a constant. */
  const HOME_CHAIN: ChainId := 1

  datatype BridgeError =
    | Unauthorized | InvalidRequest | InvalidChain | InsufficientSignatures | RequestExpired | AlreadySigned
    | OperationPaused | RateLimitExceeded | AssetAlreadyFrozen | TravelRuleDataRequired | GasLimitExceeded
    | TransactionNotFound | InvalidStatusTransition | Trap

  datatype OperationStatus =
    | Unset | Pending | Locked | InTransit | Completed | Failed | Recovering | Expired

  datatype MultiHopStatus = HopInProgress | HopCompleted | HopFailed

  datatype RecoveryAction = UnlockToken | RefundGas | RetryBridge | CancelBridge

  datatype PropertyMetadata = PropertyMetadata(
    location: Text, size: u64, legalDescription: Text, valuation: u128, documentsUrl: Text)

  datatype Request = Request(
    requestId: u64,
    tokenId: u64,
    sourceChain: ChainId,
    destinationChain: ChainId,
    sender: AccountId,
    recipient: AccountId,
    requiredSignatures: u8,
    storage: SignatureStorage,
    createdAt: u64,
    expiresAt: Option<u64>,
    status: OperationStatus,
    multiHopStatus: MultiHopStatus,
    route: seq<ChainId>,
    currentHop: u32,
    totalGasEstimate: u64,
    metadata: PropertyMetadata)
}
