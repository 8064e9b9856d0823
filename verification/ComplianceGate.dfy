/** The compliance gate as a statement about history. What a run did to an account's record is its
    trace of events; the gate opens exactly on the traces described by `Cleared`. */
module ComplianceGate {
  import opened Machine
  import opened ComplianceRegistry

  datatype Event =
    | EvVerified(account: AccountId, jurisdiction: Jurisdiction, risk: RiskLevel, expiry: u64, retention: u64)
    | EvAml(account: AccountId, passed: bool, factors: RiskFactors)
    | EvSanctions(account: AccountId, passed: bool)
    | EvConsent(account: AccountId, consent: ConsentStatus, at: u64)
    | EvRevoked(account: AccountId)
    | EvDeleted(account: AccountId)

  // ----- the trace of a run ----------------------------------------------------------------

  function Verification(s: State, env: Env, a: AccountId, j: Jurisdiction, e: Evidence): seq<Event> {
    if Refusal(s.jurisdictionRules, env, j, e).Some? then []
    else
      var d := VerifiedRecord(s.jurisdictionRules, env, j, e);
      [EvVerified(a, j, e.riskLevel, d.expiryTimestamp, d.dataRetentionUntil)]
  }

  function AmlEvents(s: State, accounts: seq<AccountId>, factors: seq<RiskFactors>): seq<Event>
    requires |accounts| == |factors|
  {
    if accounts == [] then []
    else
      var n := |accounts| - 1;
      AmlEvents(s, accounts[..n], factors[..n])
      + if accounts[n] in s.complianceData then [EvAml(accounts[n], BatchAmlPasses(factors[n]), factors[n])] else []
  }

  function SanctionsEvents(accounts: seq<AccountId>, results: seq<bool>): seq<Event>
    requires |accounts| == |results|
  {
    if accounts == [] then []
    else
      var n := |accounts| - 1;
      SanctionsEvents(accounts[..n], results[..n]) + [EvSanctions(accounts[n], results[n])]
  }

  function FunnelEvents(s: State, env: Env, m: FunnelMessage): seq<Event> {
    match m
    case MsgSubmit(a, j, e) => Verification(s, env, a, j, e)
    case MsgCreateRequest(j) => []
    case MsgProcess(id, e) =>
      if id in s.funnel.requests
      then Verification(s, env, s.funnel.requests[id].account, s.funnel.requests[id].jurisdiction, e) else []
  }

  function RecordEvents(s: State, env: Env, m: RecordMessage): seq<Event> {
    match m
    case MsgAml(a, passed, f) => [EvAml(a, passed, f)]
    case MsgSanctions(a, passed) => [EvSanctions(a, passed)]
    case MsgBatchAml(accounts, fs) => if |accounts| == |fs| then AmlEvents(s, accounts, fs) else []
    case MsgBatchSanctions(accounts, results) =>
      if |accounts| == |results| then SanctionsEvents(accounts, results) else []
    case MsgRevoke(a) => [EvRevoked(a)]
    case MsgConsent(a, consent) => [EvConsent(a, consent, env.now)]
    case MsgDelete(a) => [EvDeleted(a)]
  }

  /** What a call does to compliance records: nothing unless it succeeds. */
  function Events(s: State, c: Call): seq<Event> {
    if Apply(s, c).result.Err? then []
    else
      match c.msg
      case Administer(_) => []
      case Verify(m) => FunnelEvents(s, c.env, m)
      case Amend(m) => RecordEvents(s, c.env, m)
  }

  function Trace(owner: AccountId, run: seq<Call>): seq<Event> {
    if run == [] then []
    else
      var earlier := run[..|run| - 1];
      Trace(owner, earlier) + Events(After(owner, earlier, false), run[|run| - 1])
  }

  // ----- records replay their events -------------------------------------------------------

  function Amended(d: Option<ComplianceData>, e: Event): Option<ComplianceData> {
    if e.EvVerified? then Some(FreshRecord(e.jurisdiction, e.risk, e.expiry, e.retention))
    else if d.None? then None
    else
      match e
      case EvAml(_, passed, f) => Some(WithAml(d.value, passed, f))
      case EvSanctions(_, passed) => Some(WithSanctions(d.value, passed))
      case EvConsent(_, consent, at) => Some(d.value.(consent := consent, consentTimestamp := at))
      case EvRevoked(_) => Some(d.value.(status := Rejected))
      case EvDeleted(_) => Some(d.value.(status := Lapsed))
      case EvVerified(_, _, _, _, _) => d
  }

  function Replay(d: Option<ComplianceData>, t: seq<Event>, a: AccountId): Option<ComplianceData> {
    if t == [] then d
    else
      var before := Replay(d, t[..|t| - 1], a);
      if t[|t| - 1].account == a then Amended(before, t[|t| - 1]) else before
  }

  function Lookup(s: State, a: AccountId): Option<ComplianceData> {
    if a in s.complianceData then Some(s.complianceData[a]) else None
  }

  lemma ReplayOneMore(d: Option<ComplianceData>, t: seq<Event>, e: Event, a: AccountId)
    ensures Replay(d, t + [e], a) == if e.account == a then Amended(Replay(d, t, a), e) else Replay(d, t, a)
  {
    assert (t + [e])[..|t|] == t;
  }

  lemma {:induction false} ReplayJoin(d: Option<ComplianceData>, t: seq<Event>, u: seq<Event>, a: AccountId)
    ensures Replay(d, t + u, a) == Replay(Replay(d, t, a), u, a)
  {
    if u == [] {
      assert t + u == t;
    } else {
      var n := |u| - 1;
      ReplayJoin(d, t, u[..n], a);
      assert t + u == (t + u[..n]) + [u[n]];
      ReplayOneMore(d, t + u[..n], u[n], a);
    }
  }

  /** One update of the batch loop is one event. */
  lemma AmlPutReplays(s: State, e: Event, a: AccountId)
    requires e.EvAml? && e.account in s.complianceData
    ensures var s' := Put(s, e.account, WithAml(s.complianceData[e.account], e.passed, e.factors));
      && s'.complianceData.Keys == s.complianceData.Keys
      && Lookup(s', a) == if e.account == a then Amended(Lookup(s, a), e) else Lookup(s, a)
  {
    assert s.complianceData.Keys + {e.account} == s.complianceData.Keys;
  }

  lemma {:induction false} AmlLoopReplays(s: State, accounts: seq<AccountId>, factors: seq<RiskFactors>, a: AccountId)
    requires |accounts| == |factors|
    ensures AmlLoop(s, accounts, factors).complianceData.Keys == s.complianceData.Keys
    ensures Lookup(AmlLoop(s, accounts, factors), a) == Replay(Lookup(s, a), AmlEvents(s, accounts, factors), a)
  {
    if accounts == [] {
    } else {
      var n := |accounts| - 1;
      var earlier := AmlEvents(s, accounts[..n], factors[..n]);
      AmlLoopReplays(s, accounts[..n], factors[..n], a);
      if accounts[n] in s.complianceData {
        var e := EvAml(accounts[n], BatchAmlPasses(factors[n]), factors[n]);
        AmlPutReplays(AmlLoop(s, accounts[..n], factors[..n]), e, a);
        ReplayOneMore(Lookup(s, a), earlier, e, a);
      } else {
        assert earlier + [] == earlier;
      }
    }
  }

  lemma {:induction false} SanctionsLoopReplays(s: State, env: Env, accounts: seq<AccountId>, results: seq<bool>,
      a: AccountId)
    requires |accounts| == |results| && SanctionsLoop(s, env, accounts, results).result.Ok?
    ensures Lookup(SanctionsLoop(s, env, accounts, results).state, a)
         == Replay(Lookup(s, a), SanctionsEvents(accounts, results), a)
  {
    if accounts == [] {
    } else {
      var n := |accounts| - 1;
      SanctionsLoopReplays(s, env, accounts[..n], results[..n], a);
      ReplayOneMore(Lookup(s, a), SanctionsEvents(accounts[..n], results[..n]),
        EvSanctions(accounts[n], results[n]), a);
    }
  }

  lemma SubmitReplays(s: State, env: Env, b: AccountId, j: Jurisdiction, e: Evidence, a: AccountId)
    requires Submit(s, env, b, j, e).result.Ok?
    ensures Lookup(Submit(s, env, b, j, e).state, a) == Replay(Lookup(s, a), Verification(s, env, b, j, e), a)
    ensures Submit(s, env, b, j, e).state.jurisdictionRules == s.jurisdictionRules && j in s.jurisdictionRules
  {
    SubmitSucceeds(s, env, b, j, e);
    OneEvent(Lookup(s, a), Verification(s, env, b, j, e)[0], a);
  }

  lemma OneEvent(d: Option<ComplianceData>, e: Event, a: AccountId)
    ensures Replay(d, [e], a) == if e.account == a then Amended(d, e) else d
  {
    ReplayOneMore(d, [], e, a);
    assert [] + [e] == [e];
  }

  lemma PutReplays(s: State, e: Event, a: AccountId)
    requires !e.EvVerified? && e.account in s.complianceData
    ensures Lookup(Put(s, e.account, Amended(Some(s.complianceData[e.account]), e).value), a)
      == Replay(Lookup(s, a), [e], a)
  {
    OneEvent(Lookup(s, a), e, a);
  }

  lemma FunnelReplays(s: State, env: Env, m: FunnelMessage, a: AccountId)
    requires ApplyFunnel(s, env, m).result.Ok?
    ensures Lookup(ApplyFunnel(s, env, m).state, a) == Replay(Lookup(s, a), FunnelEvents(s, env, m), a)
    ensures ApplyFunnel(s, env, m).state.jurisdictionRules == s.jurisdictionRules
  {
    match m
    case MsgSubmit(b, j, e) => SubmitReplays(s, env, b, j, e, a);
    case MsgCreateRequest(j) =>
    case MsgProcess(id, e) =>
      SubmitReplays(s, env, s.funnel.requests[id].account, s.funnel.requests[id].jurisdiction, e, a);
  }

  lemma RecordReplays(s: State, env: Env, m: RecordMessage, a: AccountId)
    requires ApplyRecord(s, env, m).result.Ok?
    ensures Lookup(ApplyRecord(s, env, m).state, a) == Replay(Lookup(s, a), RecordEvents(s, env, m), a)
  {
    match m
    case MsgBatchAml(accounts, fs) => AmlLoopReplays(s, accounts, fs, a);
    case MsgBatchSanctions(accounts, results) => SanctionsLoopReplays(s, env, accounts, results, a);
    case MsgAml(b, passed, f) => PutReplays(s, EvAml(b, passed, f), a);
    case MsgSanctions(b, passed) => PutReplays(s, EvSanctions(b, passed), a);
    case MsgRevoke(b) => PutReplays(s, EvRevoked(b), a);
    case MsgConsent(b, consent) => PutReplays(s, EvConsent(b, consent, env.now), a);
    case MsgDelete(b) => PutReplays(s, EvDeleted(b), a);
  }

  lemma StepReplays(s: State, c: Call, a: AccountId)
    ensures Lookup(Next(s, c, false), a) == Replay(Lookup(s, a), Events(s, c), a)
  {
    if Apply(s, c).result.Ok? {
      match c.msg
      case Administer(m) => AdminKeepsRecords(s, c.env, m);
      case Verify(m) => FunnelReplays(s, c.env, m, a);
      case Amend(m) => RecordReplays(s, c.env, m, a);
    }
  }

  lemma AdminKeepsRecords(s: State, env: Env, m: AdminMessage)
    ensures ApplyAdmin(s, env, m).state.complianceData == s.complianceData
    ensures s.jurisdictionRules.Keys <= ApplyAdmin(s, env, m).state.jurisdictionRules.Keys
  {
  }

  /** An account's stored record is the replay of its trace. */
  lemma {:induction false} RecordsReplay(owner: AccountId, run: seq<Call>, a: AccountId)
    ensures Lookup(After(owner, run, false), a) == Replay(None, Trace(owner, run), a)
  {
    if run == [] {
    } else {
      var earlier, c := run[..|run| - 1], run[|run| - 1];
      var s := After(owner, earlier, false);
      RecordsReplay(owner, earlier, a);
      ReplayJoin(None, Trace(owner, earlier), Events(s, c), a);
      StepReplays(s, c, a);
    }
  }

  // ----- reading a trace -------------------------------------------------------------------

  datatype Kind = Verifications | AmlUpdates | SanctionsUpdates | ConsentUpdates | RiskChanges

  /** What an event sets an account's risk level to, if it sets it. */
  function RiskSet(e: Event): Option<RiskLevel> {
    match e
    case EvVerified(_, _, risk, _, _) => Some(risk)
    case EvAml(_, passed, f) =>
      if !passed || RiskCount(f) >= 3 then Some(Prohibited)
      else if RiskCount(f) == 2 then Some(High)
      else if RiskCount(f) == 1 then Some(Medium)
      else None
    case EvSanctions(_, passed) => if passed then None else Some(Prohibited)
    case _ => None
  }

  predicate Matches(kind: Kind, a: AccountId, e: Event) {
    && e.account == a
    && match kind
       case Verifications => e.EvVerified?
       case AmlUpdates => e.EvAml?
       case SanctionsUpdates => e.EvSanctions?
       case ConsentUpdates => e.EvConsent?
       case RiskChanges => RiskSet(e).Some?
  }

  /** The position of the latest event of a kind about an account. */
  function Latest(t: seq<Event>, kind: Kind, a: AccountId): (r: Option<nat>)
    ensures r.Some? ==> r.value < |t| && Matches(kind, a, t[r.value])
    ensures r.Some? ==> forall i :: r.value < i < |t| ==> !Matches(kind, a, t[i])
    ensures r.None? ==> forall i :: 0 <= i < |t| ==> !Matches(kind, a, t[i])
  {
    if t == [] then None
    else if Matches(kind, a, t[|t| - 1]) then Some(|t| - 1)
    else Latest(t[..|t| - 1], kind, a)
  }

  /** A failing check, three or more risk factors, a revocation or a deletion. */
  predicate Disqualifies(e: Event) {
    match e
    case EvAml(_, passed, f) => !passed || RiskCount(f) >= 3
    case EvSanctions(_, passed) => !passed
    case EvRevoked(_) => true
    case EvDeleted(_) => true
    case _ => false
  }

  predicate CleanSince(t: seq<Event>, a: AccountId, v: nat) {
    forall i :: v < i < |t| && t[i].account == a ==> !Disqualifies(t[i])
  }

  predicate LatestAmlPassed(t: seq<Event>, a: AccountId, v: nat) {
    var m := Latest(t, AmlUpdates, a);
    m.Some? && m.value > v && t[m.value].passed
  }

  predicate LatestSanctionsPassed(t: seq<Event>, a: AccountId, v: nat) {
    var m := Latest(t, SanctionsUpdates, a);
    m.Some? && m.value > v && t[m.value].passed
  }

  predicate LatestConsentGiven(t: seq<Event>, a: AccountId, v: nat) {
    var m := Latest(t, ConsentUpdates, a);
    m.Some? && m.value > v && t[m.value].consent == Given
  }

  predicate LatestRiskAllowed(t: seq<Event>, a: AccountId) {
    var m := Latest(t, RiskChanges, a);
    m.Some? && RiskSet(t[m.value]) != Some(Prohibited)
  }

  /** Since the account's latest verification nothing disqualified it, the latest AML and sanctions
      updates passed and the latest consent is given; the latest risk level set is not prohibited,
      and neither the verification nor its data retention has run out. */
  predicate Cleared(t: seq<Event>, a: AccountId, now: u64) {
    var v := Latest(t, Verifications, a);
    && v.Some?
    && CleanSince(t, a, v.value)
    && LatestAmlPassed(t, a, v.value)
    && LatestSanctionsPassed(t, a, v.value)
    && LatestConsentGiven(t, a, v.value)
    && LatestRiskAllowed(t, a)
    && t[v.value].expiry > now
    && now <= t[v.value].retention
  }

  /** How each field of a replayed record reads off the trace since a verification. */
  ghost predicate Reads(t: seq<Event>, a: AccountId, v: nat, d: ComplianceData) {
    && v < |t| && t[v].EvVerified?
    && (d.status == Verified <==> CleanSince(t, a, v))
    && (d.amlChecked <==> LatestAmlPassed(t, a, v))
    && (d.sanctionsChecked <==> LatestSanctionsPassed(t, a, v))
    && (d.consent == Given <==> LatestConsentGiven(t, a, v))
    && (d.riskLevel != Prohibited <==> LatestRiskAllowed(t, a))
    && Latest(t, RiskChanges, a).Some?
    && d.expiryTimestamp == t[v].expiry
    && d.dataRetentionUntil == t[v].retention
  }

  ghost predicate Describes(t: seq<Event>, a: AccountId, d: Option<ComplianceData>) {
    var v := Latest(t, Verifications, a);
    (d.Some? <==> v.Some?) && (d.Some? ==> Reads(t, a, v.value, d.value))
  }

  lemma LatestOneMore(t: seq<Event>, e: Event, kind: Kind, a: AccountId)
    ensures Latest(t + [e], kind, a) == if Matches(kind, a, e) then Some(|t|) else Latest(t, kind, a)
  {
    assert (t + [e])[..|t|] == t;
  }

  lemma CleanOneMore(t: seq<Event>, e: Event, a: AccountId, v: nat)
    requires v < |t|
    ensures CleanSince(t + [e], a, v) <==> CleanSince(t, a, v) && (e.account == a ==> !Disqualifies(e))
  {
    var u := t + [e];
    assert u[|t|] == e;
    assert forall i :: 0 <= i < |t| ==> u[i] == t[i];
  }

  lemma AmlOneMore(t: seq<Event>, e: Event, a: AccountId, v: nat)
    requires v < |t|
    ensures LatestAmlPassed(t + [e], a, v) <==> if Matches(AmlUpdates, a, e) then e.passed else LatestAmlPassed(t, a, v)
  {
    LatestOneMore(t, e, AmlUpdates, a);
  }

  lemma SanctionsOneMore(t: seq<Event>, e: Event, a: AccountId, v: nat)
    requires v < |t|
    ensures LatestSanctionsPassed(t + [e], a, v)
       <==> if Matches(SanctionsUpdates, a, e) then e.passed else LatestSanctionsPassed(t, a, v)
  {
    LatestOneMore(t, e, SanctionsUpdates, a);
  }

  lemma ConsentOneMore(t: seq<Event>, e: Event, a: AccountId, v: nat)
    requires v < |t|
    ensures LatestConsentGiven(t + [e], a, v)
       <==> if Matches(ConsentUpdates, a, e) then e.consent == Given else LatestConsentGiven(t, a, v)
  {
    LatestOneMore(t, e, ConsentUpdates, a);
  }

  lemma RiskOneMore(t: seq<Event>, e: Event, a: AccountId)
    ensures LatestRiskAllowed(t + [e], a)
       <==> if Matches(RiskChanges, a, e) then RiskSet(e) != Some(Prohibited) else LatestRiskAllowed(t, a)
    ensures Latest(t + [e], RiskChanges, a).Some? <==> Matches(RiskChanges, a, e) || Latest(t, RiskChanges, a).Some?
  {
    LatestOneMore(t, e, RiskChanges, a);
  }

  /** Right after a verification nothing is checked, and nothing has gone wrong. */
  lemma DescribesVerification(t: seq<Event>, e: Event, a: AccountId)
    requires e.EvVerified? && e.account == a
    ensures Describes(t + [e], a, Amended(None, e))
  {
    LatestOneMore(t, e, Verifications, a);
    RiskOneMore(t, e, a);
  }

  /** An event about somebody else changes no reading. */
  lemma ReadsOther(t: seq<Event>, e: Event, a: AccountId, v: nat, d: ComplianceData)
    requires Reads(t, a, v, d) && e.account != a
    ensures Reads(t + [e], a, v, d)
  {
    RiskOneMore(t, e, a);
    CleanOneMore(t, e, a, v);
    AmlOneMore(t, e, a, v);
    SanctionsOneMore(t, e, a, v);
    ConsentOneMore(t, e, a, v);
  }

  /** What an event about the account, other than a verification, does to each field. */
  predicate AmendsTo(d: ComplianceData, e: Event, d': ComplianceData) {
    && (d'.status == Verified <==> d.status == Verified && !Disqualifies(e))
    && d'.amlChecked == (if e.EvAml? then e.passed else d.amlChecked)
    && d'.sanctionsChecked == (if e.EvSanctions? then e.passed else d.sanctionsChecked)
    && d'.consent == (if e.EvConsent? then e.consent else d.consent)
    && d'.riskLevel == (if RiskSet(e).Some? then RiskSet(e).value else d.riskLevel)
    && d'.expiryTimestamp == d.expiryTimestamp && d'.dataRetentionUntil == d.dataRetentionUntil
    && d'.jurisdiction == d.jurisdiction
    && d'.amlRiskFactors == (if e.EvAml? then e.factors else d.amlRiskFactors)
    && d'.consentTimestamp == (if e.EvConsent? then e.at else d.consentTimestamp)
    && d'.status == (if e.EvDeleted? then Lapsed else if Disqualifies(e) then Rejected else d.status)
  }

  lemma AmendedFields(d: ComplianceData, e: Event)
    requires !e.EvVerified?
    ensures AmendsTo(d, e, Amended(Some(d), e).value)
  {
  }

  lemma ReadsOwn(t: seq<Event>, e: Event, a: AccountId, v: nat, d: ComplianceData, d': ComplianceData)
    requires Reads(t, a, v, d) && !e.EvVerified? && e.account == a && AmendsTo(d, e, d')
    ensures Reads(t + [e], a, v, d')
  {
    RiskOneMore(t, e, a);
    CleanOneMore(t, e, a, v);
    AmlOneMore(t, e, a, v);
    SanctionsOneMore(t, e, a, v);
    ConsentOneMore(t, e, a, v);
  }

  lemma DescribesOneMore(t: seq<Event>, e: Event, a: AccountId, d: Option<ComplianceData>)
    requires Describes(t, a, d)
    ensures Describes(t + [e], a, if e.account == a then Amended(d, e) else d)
  {
    if Matches(Verifications, a, e) {
      DescribesVerification(t, e, a);
    } else {
      LatestOneMore(t, e, Verifications, a);
      if d.Some? && e.account == a {
        AmendedFields(d.value, e);
        ReadsOwn(t, e, a, Latest(t, Verifications, a).value, d.value, Amended(d, e).value);
      } else if d.Some? {
        ReadsOther(t, e, a, Latest(t, Verifications, a).value, d.value);
      }
    }
  }

  lemma {:induction false} ReplayDescribed(t: seq<Event>, a: AccountId)
    ensures Describes(t, a, Replay(None, t, a))
  {
    if t == [] {
    } else {
      var n := |t| - 1;
      ReplayDescribed(t[..n], a);
      DescribesOneMore(t[..n], t[n], a, Replay(None, t[..n], a));
      assert t == t[..n] + [t[n]];
    }
  }

  // ----- risk factors ----------------------------------------------------------------------

  datatype Factor = Exposed | RiskyCountry | Suspicious | LargeVolume

  predicate Holds(f: RiskFactors, x: Factor) {
    match x
    case Exposed => f.pepStatus
    case RiskyCountry => f.highRiskCountry
    case Suspicious => f.suspiciousPattern
    case LargeVolume => f.largeVolume
  }

  /** The factors found, with one more if it is present. */
  function With(found: set<Factor>, present: bool, x: Factor): set<Factor> {
    if present then found + {x} else found
  }

  function Persons(f: RiskFactors): set<Factor> {
    With(With({}, f.pepStatus, Exposed), f.highRiskCountry, RiskyCountry)
  }

  function Present(f: RiskFactors): set<Factor> {
    With(With(Persons(f), f.suspiciousPattern, Suspicious), f.largeVolume, LargeVolume)
  }

  lemma PresentHolds(f: RiskFactors, x: Factor)
    ensures x in Present(f) <==> Holds(f, x)
  {
  }

  lemma OneMoreFactor(found: set<Factor>, present: bool, x: Factor)
    requires x !in found
    ensures |With(found, present, x)| == |found| + if present then 1 else 0
    ensures forall y :: y in With(found, present, x) ==> y in found || y == x
  {
  }

  lemma PersonsCount(f: RiskFactors)
    ensures |Persons(f)| == (if f.pepStatus then 1 else 0) + (if f.highRiskCountry then 1 else 0)
    ensures Suspicious !in Persons(f) && LargeVolume !in Persons(f)
  {
    OneMoreFactor({}, f.pepStatus, Exposed);
    OneMoreFactor(With({}, f.pepStatus, Exposed), f.highRiskCountry, RiskyCountry);
  }

  lemma PresentCount(f: RiskFactors)
    ensures |Present(f)| == RiskCount(f)
  {
    PersonsCount(f);
    OneMoreFactor(Persons(f), f.suspiciousPattern, Suspicious);
    OneMoreFactor(With(Persons(f), f.suspiciousPattern, Suspicious), f.largeVolume, LargeVolume);
  }

  /** Every risk factor counts once; the source of funds is none of them. */
  lemma RiskCountIsCardinality(f: RiskFactors)
    ensures RiskCount(f) == |set x: Factor | Holds(f, x)|
  {
    PresentCount(f);
    PresentIsAll(f, set x: Factor | Holds(f, x));
  }

  lemma PresentIsAll(f: RiskFactors, all: set<Factor>)
    requires forall x: Factor :: x in all <==> Holds(f, x)
    ensures Present(f) == all
  {
    forall x: Factor ensures x in Present(f) <==> x in all {
      PresentHolds(f, x);
    }
  }

  /** In a batch an account passes exactly with fewer than three risk factors and its funds accounted
      for; one that does not is rejected. */
  lemma BatchVerdict(s: State, env: Env, a: AccountId, f: RiskFactors)
    requires IsVerifier(s, env.caller) && a in s.complianceData
    ensures var s' := BatchAml(s, env, [a], [f]).state;
      var passes := |set x: Factor | Holds(f, x)| < 3 && f.sourceOfFundsVerified;
      && a in s'.complianceData && s'.complianceData[a].amlChecked == passes
      && (!passes ==> s'.complianceData[a].status == Rejected && s'.complianceData[a].riskLevel == Prohibited)
      && (passes ==> s'.complianceData[a].status == s.complianceData[a].status)
  {
    RiskCountIsCardinality(f);
    assert AmlLoop(s, [], []) == s;
    assert [a][..0] == [] && [f][..0] == [];
  }

  // ----- taxes -----------------------------------------------------------------------------

  /** Who may say how an account stands with its taxes. */
  predicate TaxAuthority(s: State, a: AccountId) {
    a == s.roles.owner || IsVerifier(s, a) || GetOr(s.roles.taxModules, a, false)
  }

  /** What was last said about an account's taxes. */
  ghost function LatestTax(owner: AccountId, run: seq<Call>, a: AccountId): Option<TaxStatus> {
    if run == [] then None
    else
      var c := Last(run);
      if c.msg.Administer? && c.msg.admin.MsgUpdateTax? && c.msg.admin.account == a
         && TaxAuthority(After(owner, Earlier(run), false), c.env.caller)
      then Some(c.msg.admin.tax)
      else LatestTax(owner, Earlier(run), a)
  }

  /** Nothing was said, or nothing is owed, everything was handed in, and the clearance, if it has an
      end, has not come to it. */
  predicate TaxesInOrder(t: Option<TaxStatus>, now: u64) {
    t.Some? ==>
      && t.value.outstandingTax == 0 && t.value.reportingSubmitted && t.value.legalDocumentsVerified
      && (t.value.clearanceExpiry > 0 ==> now <= t.value.clearanceExpiry)
  }

  lemma {:induction false} AmlLoopKeepsTaxes(s: State, accounts: seq<AccountId>, factors: seq<RiskFactors>)
    requires |accounts| == |factors|
    ensures AmlLoop(s, accounts, factors).taxStatus == s.taxStatus
  {
    if accounts == [] {
    } else {
      AmlLoopKeepsTaxes(s, accounts[..|accounts| - 1], factors[..|accounts| - 1]);
    }
  }

  lemma {:induction false} SanctionsLoopKeepsTaxes(s: State, env: Env, accounts: seq<AccountId>, results: seq<bool>)
    requires |accounts| == |results|
    ensures SanctionsLoop(s, env, accounts, results).state.taxStatus == s.taxStatus
  {
    if accounts == [] {
    } else {
      SanctionsLoopKeepsTaxes(s, env, accounts[..|accounts| - 1], results[..|accounts| - 1]);
    }
  }

  lemma FunnelKeepsTaxes(s: State, env: Env, m: FunnelMessage)
    ensures ApplyFunnel(s, env, m).state.taxStatus == s.taxStatus
  {
  }

  lemma RecordKeepsTaxes(s: State, env: Env, m: RecordMessage)
    ensures ApplyRecord(s, env, m).state.taxStatus == s.taxStatus
  {
    match m
    case MsgBatchAml(accounts, fs) => if |accounts| == |fs| { AmlLoopKeepsTaxes(s, accounts, fs); }
    case MsgBatchSanctions(accounts, results) =>
      if |accounts| == |results| { SanctionsLoopKeepsTaxes(s, env, accounts, results); }
    case _ =>
  }

  lemma AdminTaxes(s: State, env: Env, m: AdminMessage, a: AccountId)
    ensures TaxOf(ApplyAdmin(s, env, m).state, a) ==
      if m.MsgUpdateTax? && m.account == a && TaxAuthority(s, env.caller) then Some(m.tax) else TaxOf(s, a)
  {
  }

  function TaxOf(s: State, a: AccountId): Option<TaxStatus> {
    if a in s.taxStatus then Some(s.taxStatus[a]) else None
  }

  /** The tax status on record is the last one reported by somebody who may. */
  lemma {:induction false} TaxesAreLatest(owner: AccountId, run: seq<Call>, a: AccountId)
    ensures TaxOf(After(owner, run, false), a) == LatestTax(owner, run, a)
  {
    if run == [] {
    } else {
      var s, c := After(owner, Earlier(run), false), Last(run);
      TaxesAreLatest(owner, Earlier(run), a);
      match c.msg
      case Administer(m) => AdminTaxes(s, c.env, m, a);
      case Verify(m) => FunnelKeepsTaxes(s, c.env, m);
      case Amend(m) => RecordKeepsTaxes(s, c.env, m);
    }
  }

  // ----- the gate --------------------------------------------------------------------------

  /** The gate opens for an account exactly when its history clears it and the last report on its taxes
      has them in order. */
  lemma GateReadsHistory(owner: AccountId, run: seq<Call>, a: AccountId, now: u64)
    ensures var s := After(owner, run, false);
      IsCompliant(s, a, now) <==> Cleared(Trace(owner, run), a, now) && TaxesInOrder(LatestTax(owner, run, a), now)
  {
    RecordsReplay(owner, run, a);
    ReplayDescribed(Trace(owner, run), a);
    TaxesAreLatest(owner, run, a);
  }

  // ----- transactions ----------------------------------------------------------------------

  /** Every stored record belongs to a jurisdiction with rules. */
  predicate RulesExist(s: State) {
    forall a :: a in s.complianceData ==> s.complianceData[a].jurisdiction in s.jurisdictionRules
  }

  lemma {:induction false} AmlLoopKeepsRules(s: State, accounts: seq<AccountId>, factors: seq<RiskFactors>)
    requires RulesExist(s) && |accounts| == |factors|
    ensures RulesExist(AmlLoop(s, accounts, factors))
  {
    if accounts == [] {
    } else {
      AmlLoopKeepsRules(s, accounts[..|accounts| - 1], factors[..|accounts| - 1]);
    }
  }

  lemma {:induction false} SanctionsLoopKeepsRules(s: State, env: Env, accounts: seq<AccountId>, results: seq<bool>)
    requires RulesExist(s) && |accounts| == |results|
    ensures RulesExist(SanctionsLoop(s, env, accounts, results).state)
  {
    if accounts == [] {
    } else {
      SanctionsLoopKeepsRules(s, env, accounts[..|accounts| - 1], results[..|accounts| - 1]);
    }
  }

  lemma FunnelKeepsRules(s: State, env: Env, m: FunnelMessage)
    requires RulesExist(s) && ApplyFunnel(s, env, m).result.Ok?
    ensures RulesExist(ApplyFunnel(s, env, m).state)
  {
    var s' := ApplyFunnel(s, env, m).state;
    forall a | a in s'.complianceData ensures s'.complianceData[a].jurisdiction in s'.jurisdictionRules {
      FunnelReplays(s, env, m, a);
      match m
      case MsgSubmit(b, j, e) => SubmitReplays(s, env, b, j, e, a);
      case MsgCreateRequest(j) =>
      case MsgProcess(id, e) =>
        SubmitReplays(s, env, s.funnel.requests[id].account, s.funnel.requests[id].jurisdiction, e, a);
    }
  }

  lemma RecordKeepsRules(s: State, env: Env, m: RecordMessage)
    requires RulesExist(s)
    ensures RulesExist(ApplyRecord(s, env, m).state)
  {
    match m
    case MsgBatchAml(accounts, fs) => if |accounts| == |fs| { AmlLoopKeepsRules(s, accounts, fs); }
    case MsgBatchSanctions(accounts, results) =>
      if |accounts| == |results| { SanctionsLoopKeepsRules(s, env, accounts, results); }
    case _ =>
  }

  lemma StepKeepsRules(s: State, c: Call)
    requires RulesExist(s)
    ensures RulesExist(Next(s, c, false))
  {
    if Apply(s, c).result.Ok? {
      match c.msg
      case Administer(m) => AdminKeepsRecords(s, c.env, m);
      case Verify(m) => FunnelKeepsRules(s, c.env, m);
      case Amend(m) => RecordKeepsRules(s, c.env, m);
    }
  }

  lemma {:induction false} RulesAlwaysExist(owner: AccountId, run: seq<Call>)
    ensures RulesExist(After(owner, run, false))
  {
    if run == [] {
    } else {
      RulesAlwaysExist(owner, run[..|run| - 1]);
      StepKeepsRules(After(owner, run[..|run| - 1], false), run[|run| - 1]);
    }
  }

  /** For every operation the transaction check passes exactly when the account is compliant. */
  lemma TransactionsFollowTheGate(owner: AccountId, run: seq<Call>, a: AccountId, op: Operation, now: u64)
    ensures var s := After(owner, run, false);
      CheckTransaction(s, a, op, now).Ok? <==> IsCompliant(s, a, now)
  {
    RulesAlwaysExist(owner, run);
  }
}
