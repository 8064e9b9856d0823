/** The per-leg status tracker of one cross-chain transfer, and its chronological log. */
module StatusTracker {
  import opened Machine
  import opened BridgeTypes

  datatype LegStatus = LegNotStarted | LegSubmitted | LegConfirming | LegConfirmed | LegFailed

  datatype LegUpdate = LegUpdate(
    chain: ChainId, status: LegStatus, txHash: Option<Hash>, block: u64,
    timestamp: u64, confirmations: u32, errorMessage: Option<Text>)

  datatype Tracker = Tracker(
    sourceChain: ChainId,
    destinationChain: ChainId,
    sourceStatus: LegUpdate,
    destinationStatus: LegUpdate,
    overallStatus: OperationStatus,
    history: seq<LegUpdate>,
    lastUpdated: u64)

  predicate ValidTransition(from: LegStatus, to: LegStatus) {
    match (from, to)
    case (LegNotStarted, LegSubmitted) => true
    case (LegNotStarted, LegFailed) => true
    case (LegSubmitted, LegSubmitted) => true
    case (LegSubmitted, LegConfirming) => true
    case (LegSubmitted, LegConfirmed) => true
    case (LegSubmitted, LegFailed) => true
    case (LegConfirming, LegConfirming) => true
    case (LegConfirming, LegConfirmed) => true
    case (LegConfirming, LegFailed) => true
    case (LegConfirmed, LegConfirmed) => true
    case (LegFailed, LegFailed) => true
    case _ => false
  }

  function Overall(source: LegStatus, destination: LegStatus): OperationStatus {
    match (source, destination)
    case (LegFailed, _) => Failed
    case (_, LegFailed) => Failed
    case (LegConfirmed, LegConfirmed) => Completed
    case (LegConfirmed, _) => InTransit
    case (LegSubmitted, LegNotStarted) => Pending
    case (LegConfirming, LegNotStarted) => Pending
    case _ => InTransit
  }

  function Untouched(chain: ChainId, timestamp: u64): LegUpdate {
    LegUpdate(chain, LegNotStarted, None, 0, timestamp, 0, None)
  }

  const ROLLBACK_MESSAGE: Text := [66, 114, 105, 100, 103, 101, 32, 114, 111, 108, 108, 98, 97, 99, 107]

  // ----- the four operations ---------------------------------------------------------------

  function Init(source: ChainId, destination: ChainId, now: u64, block: u64): Tracker {
    var submitted := LegUpdate(source, LegSubmitted, None, block, now, 0, None);
    Tracker(source, destination, submitted, Untouched(destination, now), Pending, [submitted], now)
  }

  function Report(t: Tracker, update: LegUpdate): Outcome<Tracker, (), BridgeError> {
    if update.chain != t.sourceChain && update.chain != t.destinationChain then Reverted(InvalidChain)
    else
      var onSource := update.chain == t.sourceChain;
      var current := if onSource then t.sourceStatus.status else t.destinationStatus.status;
      if !ValidTransition(current, update.status) then Reverted(InvalidStatusTransition)
      else
        var source := if onSource then update else t.sourceStatus;
        var destination := if onSource then t.destinationStatus else update;
        Committed(
          t.(sourceStatus := source, destinationStatus := destination,
             history := t.history + [update],
             lastUpdated := update.timestamp,
             overallStatus := Overall(source.status, destination.status)),
          ())
  }

  function Advance(t: Tracker, source: ChainId, destination: ChainId, hash: Hash, now: u64, block: u64): Tracker {
    var confirmed := LegUpdate(source, LegConfirmed, Some(hash), block, now, 1, None);
    var submitted := LegUpdate(destination, LegSubmitted, None, 0, now, 0, None);
    t.(sourceStatus := confirmed, destinationStatus := submitted,
       history := t.history + [confirmed, submitted],
       lastUpdated := now,
       overallStatus := InTransit)
  }

  function Broken(chain: ChainId, last: LegUpdate, now: u64, block: u64): LegUpdate {
    LegUpdate(chain, LegFailed, last.txHash, block, now, last.confirmations, Some(ROLLBACK_MESSAGE))
  }

  function Fail(t: Tracker, source: ChainId, destination: ChainId, now: u64, block: u64): Tracker {
    var s, d := t.sourceStatus, t.destinationStatus;
    var s' := if s.status != LegConfirmed then Broken(source, s, now, block) else s;
    var d' := if d.status != LegConfirmed then Broken(destination, d, now, block) else d;
    t.(sourceStatus := s', destinationStatus := d',
       history := t.history
                  + (if s.status != LegConfirmed then [s'] else [])
                  + (if d.status != LegConfirmed then [d'] else []),
       lastUpdated := now,
       overallStatus := Failed)
  }

  datatype Event =
    | Reported(update: LegUpdate)
    | Executed(hash: Hash, now: u64, block: u64)
    | RolledBack(now: u64, block: u64)

  function Next(t: Tracker, e: Event): Tracker {
    match e
    case Reported(update) => (match Report(t, update) case Committed(t', _) => t' case Reverted(_) => t)
    case Executed(hash, now, block) => Advance(t, t.sourceChain, t.destinationChain, hash, now, block)
    case RolledBack(now, block) => Fail(t, t.sourceChain, t.destinationChain, now, block)
  }

  function After(t: Tracker, events: seq<Event>): Tracker {
    if events == [] then t else Next(After(t, events[..|events| - 1]), events[|events| - 1])
  }

  // ----- the log ---------------------------------------------------------------------------

  /** The last entry logged for a chain. */
  function LastEntry(history: seq<LegUpdate>, chain: ChainId): Option<LegUpdate> {
    if history == [] then None
    else if history[|history| - 1].chain == chain then Some(history[|history| - 1])
    else LastEntry(history[..|history| - 1], chain)
  }

  /** Each leg's snapshot is the last entry logged for its chain; a destination never heard of
      carries the untouched record made together with the first entry. */
  predicate LogAgrees(t: Tracker) {
    && t.history != []
    && LastEntry(t.history, t.sourceChain) == Some(t.sourceStatus)
    && (match LastEntry(t.history, t.destinationChain)
        case Some(last) => t.destinationStatus == last
        case None => t.destinationStatus == Untouched(t.destinationChain, t.history[0].timestamp))
  }

  lemma LogOneMore(history: seq<LegUpdate>, e: LegUpdate, chain: ChainId)
    ensures LastEntry(history + [e], chain) == if e.chain == chain then Some(e) else LastEntry(history, chain)
  {
    assert (history + [e])[..|history|] == history;
  }

  lemma LogTwoMore(history: seq<LegUpdate>, e: LegUpdate, f: LegUpdate, chain: ChainId)
    ensures LastEntry(history + [e, f], chain)
         == if f.chain == chain then Some(f) else if e.chain == chain then Some(e) else LastEntry(history, chain)
  {
    assert history + [e, f] == history + [e] + [f];
    LogOneMore(history, e, chain);
    LogOneMore(history + [e], f, chain);
  }

  lemma ReportKeepsLog(t: Tracker, update: LegUpdate)
    requires t.sourceChain != t.destinationChain && LogAgrees(t) && Report(t, update).Committed?
    ensures LogAgrees(Report(t, update).state)
  {
    LogOneMore(t.history, update, t.sourceChain);
    LogOneMore(t.history, update, t.destinationChain);
  }

  lemma AdvanceKeepsLog(t: Tracker, hash: Hash, now: u64, block: u64)
    requires t.sourceChain != t.destinationChain && LogAgrees(t)
    ensures LogAgrees(Advance(t, t.sourceChain, t.destinationChain, hash, now, block))
  {
    var t' := Advance(t, t.sourceChain, t.destinationChain, hash, now, block);
    LogTwoMore(t.history, t'.sourceStatus, t'.destinationStatus, t.sourceChain);
    LogTwoMore(t.history, t'.sourceStatus, t'.destinationStatus, t.destinationChain);
  }

  lemma FailKeepsLog(t: Tracker, now: u64, block: u64)
    requires t.sourceChain != t.destinationChain && LogAgrees(t)
    ensures LogAgrees(Fail(t, t.sourceChain, t.destinationChain, now, block))
  {
    var t' := Fail(t, t.sourceChain, t.destinationChain, now, block);
    var s, d := t.sourceStatus.status, t.destinationStatus.status;
    forall chain
      ensures LastEntry(t'.history, chain)
           == if chain == t.destinationChain && d != LegConfirmed then Some(t'.destinationStatus)
              else if chain == t.sourceChain && s != LegConfirmed then Some(t'.sourceStatus)
              else LastEntry(t.history, chain)
    {
      LogTwoMore(t.history, t'.sourceStatus, t'.destinationStatus, chain);
      LogOneMore(t.history, t'.sourceStatus, chain);
      LogOneMore(t.history, t'.destinationStatus, chain);
      assert t'.history ==
        if s != LegConfirmed && d != LegConfirmed then t.history + [t'.sourceStatus, t'.destinationStatus]
        else if s != LegConfirmed then t.history + [t'.sourceStatus]
        else if d != LegConfirmed then t.history + [t'.destinationStatus]
        else t.history;
    }
  }

  lemma NextKeepsLog(t: Tracker, e: Event)
    requires t.sourceChain != t.destinationChain && LogAgrees(t)
    ensures LogAgrees(Next(t, e))
  {
    match e
    case Reported(update) => if Report(t, update).Committed? { ReportKeepsLog(t, update); }
    case Executed(hash, now, block) => AdvanceKeepsLog(t, hash, now, block);
    case RolledBack(now, block) => FailKeepsLog(t, now, block);
  }

  lemma {:induction false} ChainsFixed(t: Tracker, events: seq<Event>)
    ensures After(t, events).sourceChain == t.sourceChain && After(t, events).destinationChain == t.destinationChain
  {
    if events == [] {
    } else {
      ChainsFixed(t, events[..|events| - 1]);
    }
  }

  lemma {:induction false} LogAlwaysAgrees(source: ChainId, destination: ChainId, now: u64, block: u64,
      events: seq<Event>)
    requires source != destination
    ensures LogAgrees(After(Init(source, destination, now, block), events))
  {
    var t := Init(source, destination, now, block);
    if events == [] {
      LogOneMore([], t.sourceStatus, source);
      LogOneMore([], t.sourceStatus, destination);
    } else {
      var earlier := events[..|events| - 1];
      LogAlwaysAgrees(source, destination, now, block, earlier);
      ChainsFixed(t, earlier);
      NextKeepsLog(After(t, earlier), events[|events| - 1]);
    }
  }

  /** The snapshots equal the log on every run exactly when the two chains differ. */
  lemma LogAgreesExactly(source: ChainId, destination: ChainId, now: u64, block: u64)
    ensures (forall events :: LogAgrees(After(Init(source, destination, now, block), events)))
       <==> source != destination
  {
    if source != destination {
      forall events ensures LogAgrees(After(Init(source, destination, now, block), events)) {
        LogAlwaysAgrees(source, destination, now, block, events);
      }
    } else {
      var t := Init(source, destination, now, block);
      LogOneMore([], t.sourceStatus, source);
      assert !LogAgrees(After(t, []));
    }
  }

  /** The log is append-only: no event rewrites or drops an earlier entry. */
  lemma {:induction false} LogOnlyGrows(t: Tracker, events: seq<Event>, n: nat)
    requires n <= |events|
    ensures After(t, events[..n]).history <= After(t, events).history
  {
    if n == |events| {
      assert events[..n] == events;
    } else {
      var earlier := events[..|events| - 1];
      LogOnlyGrows(t, earlier, n);
      assert earlier[..n] == events[..n];
    }
  }

  // ----- relayer reports only move forward -------------------------------------------------

  function Rank(status: LegStatus): nat {
    match status
    case LegNotStarted => 0
    case LegSubmitted => 1
    case LegConfirming => 2
    case _ => 3
  }

  predicate Forward(from: LegStatus, to: LegStatus) {
    && Rank(from) <= Rank(to)
    && (from == LegConfirmed ==> to == LegConfirmed)
    && (from == LegFailed ==> to == LegFailed)
  }

  /** Along any run of relayer reports both legs only move forward, and stay once final. */
  lemma {:induction false} ReportsMoveForward(t: Tracker, events: seq<Event>)
    requires forall e :: e in events ==> e.Reported?
    ensures Forward(t.sourceStatus.status, After(t, events).sourceStatus.status)
    ensures Forward(t.destinationStatus.status, After(t, events).destinationStatus.status)
  {
    if events == [] {
    } else {
      ReportsMoveForward(t, events[..|events| - 1]);
      assert events[|events| - 1] in events;
    }
  }

  // ----- the aggregate status --------------------------------------------------------------

  predicate OverallAgrees(t: Tracker) {
    t.overallStatus == Overall(t.sourceStatus.status, t.destinationStatus.status)
  }

  predicate BothConfirmed(t: Tracker) {
    t.sourceStatus.status == LegConfirmed && t.destinationStatus.status == LegConfirmed
  }

  /** The last event that took effect was a rollback that found both legs confirmed. */
  ghost predicate Overruled(t: Tracker, events: seq<Event>) {
    if events == [] then false
    else
      var earlier, e := events[..|events| - 1], events[|events| - 1];
      match e
      case Executed(_, _, _) => false
      case RolledBack(_, _) => BothConfirmed(After(t, earlier))
      case Reported(update) => Report(After(t, earlier), update).Reverted? && Overruled(t, earlier)
  }

  /** After any run the aggregate is the one computed from the legs, unless it was overruled. */
  lemma {:induction false} OverallAgreesExactly(source: ChainId, destination: ChainId, now: u64, block: u64,
      events: seq<Event>)
    ensures var t := Init(source, destination, now, block);
      OverallAgrees(After(t, events)) <==> !Overruled(t, events)
  {
    if events == [] {
    } else {
      OverallAgreesExactly(source, destination, now, block, events[..|events| - 1]);
    }
  }

  // ----- what the events say of the legs ---------------------------------------------------

  /** The aggregate in terms of the legs alone. */
  predicate SaysLegs(overall: OperationStatus, source: LegStatus, destination: LegStatus) {
    && (overall == Completed <==> source == LegConfirmed && destination == LegConfirmed)
    && (overall == Failed <==> source == LegFailed || destination == LegFailed)
    && (overall == Pending <==> source in {LegSubmitted, LegConfirming} && destination == LegNotStarted)
    && overall in {Completed, Failed, Pending, InTransit}
  }

  /** An aggregate computed from the legs is completed exactly if both are confirmed, failed exactly if
      one failed, pending exactly while only the source was heard of and is not confirmed, and in
      transit otherwise. */
  lemma AggregateSaysLegs(t: Tracker)
    requires OverallAgrees(t)
    ensures SaysLegs(t.overallStatus, t.sourceStatus.status, t.destinationStatus.status)
  {
  }

  /** The same over every run of events, unless a rollback overruled it. */
  lemma OverallSaysLegs(source: ChainId, destination: ChainId, now: u64, block: u64, events: seq<Event>)
    ensures var t0 := Init(source, destination, now, block);
      var t := After(t0, events);
      if Overruled(t0, events) then t.overallStatus == Failed && BothConfirmed(t)
      else SaysLegs(t.overallStatus, t.sourceStatus.status, t.destinationStatus.status)
  {
    OverallAgreesExactly(source, destination, now, block, events);
    if Overruled(Init(source, destination, now, block), events) {
      OverruledSays(Init(source, destination, now, block), events);
    } else {
      AggregateSaysLegs(After(Init(source, destination, now, block), events));
    }
  }

  lemma {:induction false} OverruledSays(t: Tracker, events: seq<Event>)
    requires Overruled(t, events)
    ensures After(t, events).overallStatus == Failed && BothConfirmed(After(t, events))
  {
    if events == [] {
    } else if events[|events| - 1].Reported? {
      OverruledSays(t, events[..|events| - 1]);
    }
  }

  /** A leg may be reported again as it is unless it was never heard of. Otherwise it starts as
      submitted, goes from there to confirming or confirmed, and may fail before it is confirmed. */
  predicate MayFollow(from: LegStatus, to: LegStatus) {
    if from == to then from != LegNotStarted
    else if to == LegFailed then from != LegConfirmed
    else Rank(from) < Rank(to) && from != LegFailed && (from == LegNotStarted ==> to == LegSubmitted)
  }

  /** Which reports are accepted. */
  lemma ReportsExactly(t: Tracker, update: LegUpdate)
    ensures Report(t, update).Committed? <==>
      || (update.chain == t.sourceChain && MayFollow(t.sourceStatus.status, update.status))
      || (update.chain != t.sourceChain && update.chain == t.destinationChain
          && MayFollow(t.destinationStatus.status, update.status))
    ensures update.chain !in {t.sourceChain, t.destinationChain} ==> Report(t, update) == Reverted(InvalidChain)
  {
  }

  /** The leg after a rollback. */
  predicate Failing(leg: LegUpdate, chain: ChainId, leg': LegUpdate, now: u64, block: u64) {
    if leg.status == LegConfirmed then leg' == leg
    else
      && leg'.status == LegFailed && leg'.chain == chain && leg'.timestamp == now && leg'.block == block
      && leg'.txHash == leg.txHash && leg'.confirmations == leg.confirmations
      && leg'.errorMessage == Some(ROLLBACK_MESSAGE)
  }

  /** What an event makes of the two legs. */
  predicate LegsMove(t: Tracker, e: Event, t': Tracker) {
    match e
    case Reported(update) =>
      if update.chain == t.sourceChain
      then t'.sourceStatus == update && t'.destinationStatus == t.destinationStatus
      else t'.sourceStatus == t.sourceStatus && t'.destinationStatus == update
    case Executed(hash, now, block) =>
      && t'.sourceStatus == LegUpdate(t.sourceChain, LegConfirmed, Some(hash), block, now, 1, None)
      && t'.destinationStatus == LegUpdate(t.destinationChain, LegSubmitted, None, 0, now, 0, None)
    case RolledBack(now, block) =>
      && Failing(t.sourceStatus, t.sourceChain, t'.sourceStatus, now, block)
      && Failing(t.destinationStatus, t.destinationChain, t'.destinationStatus, now, block)
  }

  /** When an event happened. */
  function TimeOf(e: Event): u64 {
    match e
    case Reported(update) => update.timestamp
    case Executed(_, now, _) => now
    case RolledBack(now, _) => now
  }

  /** The log after an event: every leg it touched, the source first. */
  predicate LogMoves(t: Tracker, e: Event, t': Tracker) {
    match e
    case Reported(update) => t'.history == t.history + [update]
    case Executed(_, _, _) => t'.history == t.history + [t'.sourceStatus] + [t'.destinationStatus]
    case RolledBack(_, _) =>
      t'.history == t.history
        + (if t.sourceStatus.status == LegConfirmed then [] else [t'.sourceStatus])
        + (if t.destinationStatus.status == LegConfirmed then [] else [t'.destinationStatus])
  }

  /** What an event that is accepted does to the legs, the log and the clock of a tracker. */
  lemma EventMoves(t: Tracker, e: Event)
    requires e.Reported? ==> Report(t, e.update).Committed?
    ensures LegsMove(t, e, Next(t, e)) && LogMoves(t, e, Next(t, e)) && Next(t, e).lastUpdated == TimeOf(e)
  {
  }

  /** Confirmed at the source, then submitted and confirmed at the destination, a transfer is
      completed. */
  lemma DeliveredIsCompleted(t: Tracker, now: u64, block: u64, source: LegUpdate, sent: LegUpdate, delivered: LegUpdate)
    requires t == Init(source.chain, sent.chain, now, block) && source.chain != sent.chain == delivered.chain
    requires source.status == LegConfirmed && sent.status == LegSubmitted && delivered.status == LegConfirmed
    ensures After(t, [Reported(source), Reported(sent), Reported(delivered)]).overallStatus == Completed
  {
    var e1, e2, e3 := Reported(source), Reported(sent), Reported(delivered);
    assert [e1, e2, e3][..2] == [e1, e2] && [e1, e2][..1] == [e1] && [e1][..0] == [];
    assert After(t, [e1]) == Next(t, e1);
    assert After(t, [e1, e2]) == Next(Next(t, e1), e2);
  }
}
