/** The status trackers over whole bridge runs: when the aggregate status they report is the one
    their legs call for. */
module BridgeTracking {
  import opened Machine
  import opened BridgeTypes
  import opened StatusTracker
  import opened BridgeMessages
  import opened BridgeInvariant
  import opened BridgeRuns
  import opened BridgeStatus

  /** The call rewrote the tracker of the request, or could have. */
  predicate Rewrites(m: Message, id: u64) {
    m == MsgRollback(id) || m == MsgExecute(id) || (m.MsgUpdateStatus? && m.id == id)
  }

  /** The last call that rewrote the request's tracker was a rollback that found both legs confirmed;
      or there was none, and the store the run started from already disagreed. */
  ghost predicate OverruledAfter(b: Bridge, run: seq<Call>, id: u64) {
    if run == [] then id in b.trackers && !OverallAgrees(b.trackers[id])
    else
      var s, c := BridgeMessages.After(b, Earlier(run)), Last(run);
      if BridgeMessages.Apply(s, c).Reverted? || !Rewrites(c.msg, id) then OverruledAfter(b, Earlier(run), id)
      else c.msg == MsgRollback(id) && id in s.trackers && BothConfirmed(s.trackers[id])
  }

  /** What a rewriting call leaves of the aggregate. */
  lemma RewrittenOverall(s: Bridge, c: Call, id: u64)
    requires BridgeMessages.Apply(s, c).Committed? && Rewrites(c.msg, id)
    ensures var s' := BridgeMessages.Apply(s, c).state;
      && (id in s.trackers ==> id in s'.trackers)
      && (id in s'.trackers ==>
            (OverallAgrees(s'.trackers[id]) <==>
               !(c.msg == MsgRollback(id) && id in s.trackers && BothConfirmed(s.trackers[id]))))
      && (c.msg == MsgRollback(id) && id !in s.trackers ==> id !in s'.trackers)
  {
    match c.msg
    case MsgRollback(i) =>
    case MsgExecute(i) =>
    case MsgUpdateStatus(i, _, _, _, _, _, _) =>
  }

  lemma NewTracker(s: Bridge, c: Call, id: u64)
    requires BridgeMessages.Apply(s, c).Committed? && !Rewrites(c.msg, id)
    requires id !in s.trackers && id in BridgeMessages.Apply(s, c).state.trackers
    ensures OverallAgrees(BridgeMessages.Apply(s, c).state.trackers[id])
  {
  }

  lemma KeptTracker(s: Bridge, c: Call, id: u64)
    requires BridgeMessages.Apply(s, c).Committed? && !Rewrites(c.msg, id) && id in s.trackers
    requires id <= s.requestCounter
    ensures var s' := BridgeMessages.Apply(s, c).state;
      id in s'.trackers && s'.trackers[id] == s.trackers[id]
  {
  }

  /** In every reachable state the aggregate of a tracker is the one computed from its legs, unless
      it was overruled. */
  lemma {:induction false} OverallAgreesOnRuns(b: Bridge, run: seq<Call>, id: u64)
    requires Inv(b)
    ensures var s := BridgeMessages.After(b, run);
      && (id in s.trackers ==> (OverallAgrees(s.trackers[id]) <==> !OverruledAfter(b, run, id)))
      && (id !in s.trackers ==> !OverruledAfter(b, run, id))
  {
    if run == [] {
    } else {
      var s, c := BridgeMessages.After(b, Earlier(run)), Last(run);
      OverallAgreesOnRuns(b, Earlier(run), id);
      Reachable(b, Earlier(run));
      if BridgeMessages.Apply(s, c).Committed? {
        if Rewrites(c.msg, id) {
          RewrittenOverall(s, c, id);
        } else if id in s.trackers {
          KeptTracker(s, c, id);
        } else if id in BridgeMessages.Apply(s, c).state.trackers {
          NewTracker(s, c, id);
        }
      }
    }
  }

  /** So what a reachable tracker reports can be told from its legs alone, and an overruled one says
      failed although both are confirmed. */
  lemma AggregateOnRuns(b: Bridge, run: seq<Call>, id: u64)
    requires Inv(b) && id in BridgeMessages.After(b, run).trackers
    ensures var t := BridgeMessages.After(b, run).trackers[id];
      if OverruledAfter(b, run, id) then t.overallStatus == Failed && BothConfirmed(t)
      else SaysLegs(t.overallStatus, t.sourceStatus.status, t.destinationStatus.status)
  {
    Reachable(b, run);
    OverallAgreesOnRuns(b, run, id);
    if !OverruledAfter(b, run, id) {
      AggregateSaysLegs(BridgeMessages.After(b, run).trackers[id]);
    }
  }

  // ----- a tracker and its request ---------------------------------------------------------

  /** What a call that succeeds does to the tracker of a request: an execution confirms the source and
      sends to the destination, and where there is another hop the tracker starts afresh for it; a
      rollback fails the legs; a report replaces one; nothing else touches it. */
  ghost predicate TrackerMoves(s: Bridge, c: Call, id: u64, s': Bridge)
    requires id in s.trackers && id in s'.trackers && id in s.requests && id in s'.requests
  {
    var t, t', r' := s.trackers[id], s'.trackers[id], s'.requests[id];
    match c.msg
    case MsgExecute(i) =>
      if i != id then t' == t
      else if HopsLeft(s.requests[id]) then t' == Init(r'.sourceChain, r'.destinationChain, c.env.now, c.env.block)
      else t' == StatusTracker.Next(t, Executed(c.env.txHash, c.env.now, c.env.block))
    case MsgRollback(i) => if i == id then t' == StatusTracker.Next(t, RolledBack(c.env.now, c.env.block)) else t' == t
    case MsgUpdateStatus(i, chain, status, hash, block, confirmations, message) =>
      if i != id then t' == t
      else
        var update := LegUpdate(chain, status, hash, block, c.env.now, confirmations, message);
        Report(t, update).Committed? && t' == StatusTracker.Next(t, Reported(update))
    case _ => t' == t
  }

  lemma TrackerStep(s: Bridge, c: Call, id: u64)
    requires Inv(s) && BridgeMessages.Apply(s, c).Committed? && id in s.trackers
    ensures var s' := BridgeMessages.Apply(s, c).state;
      id in s'.trackers && id in s'.requests && TrackerMoves(s, c, id, s')
  {
    NextKeepsInv(s, c);
    if !Rewrites(c.msg, id) {
      KeptTracker(s, c, id);
    }
  }

  predicate Reportable(t: Tracker, chain: ChainId, status: LegStatus) {
    if chain == t.sourceChain then MayFollow(t.sourceStatus.status, status)
    else chain == t.destinationChain && MayFollow(t.destinationStatus.status, status)
  }

  /** A report is accepted exactly from the admin or an operator, on a request with a tracker, for a
      chain of that tracker whose leg may come to the reported status. */
  lemma ReportersExactly(s: Bridge, c: Call)
    requires c.msg.MsgUpdateStatus?
    ensures BridgeMessages.Apply(s, c).Committed? <==>
      && (c.env.caller == s.admin || c.env.caller in s.operators) && c.msg.id in s.trackers
      && Reportable(s.trackers[c.msg.id], c.msg.chain, c.msg.status)
  {
  }

  /** A tracker starts with the source submitted, the destination never heard of, and that in its log. */
  lemma FreshLegs(source: ChainId, destination: ChainId, now: u64, block: u64)
    ensures var t := Init(source, destination, now, block);
      && t.sourceStatus == LegUpdate(source, LegSubmitted, None, block, now, 0, None)
      && t.destinationStatus == LegUpdate(destination, LegNotStarted, None, 0, now, 0, None)
      && t.history == [t.sourceStatus] && t.overallStatus == Pending && t.lastUpdated == now
  {
  }
}
