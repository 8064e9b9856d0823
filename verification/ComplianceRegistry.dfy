/** The compliance registry: verification requests and their funnel counters, the per-account
    compliance record, and the gate that reads it.

    A failing message returns its error together with the state it leaves. On chain that state is
    discarded; `Next` takes either reading, so that results can be proved for both. */
module ComplianceRegistry {
  import opened Machine

  datatype VerificationStatus = NotVerifiedYet | Pending | Verified | Rejected | Lapsed

  datatype Jurisdiction = US | EU | UK | Singapore | UAE | Other

  datatype RiskLevel = Low | Medium | High | Prohibited

  datatype DocumentType =
    | Passport | NationalId | DriverLicense | BirthCertificate | ProofOfAddress | CorporateDocument

  datatype BiometricMethod =
    | NoBiometric | Fingerprint | FaceRecognition | VoiceRecognition | IrisScan | MultiFactor

  datatype ConsentStatus = NotGiven | Given | Withdrawn | ConsentExpired

  datatype RiskFactors = RiskFactors(
    pepStatus: bool, highRiskCountry: bool, suspiciousPattern: bool, largeVolume: bool, sourceOfFundsVerified: bool)

  datatype Rules = Rules(
    requiresKyc: bool, requiresAml: bool, requiresSanctionsCheck: bool, minimumVerificationLevel: u8,
    dataRetentionDays: u32, requiresBiometric: bool)

  datatype ComplianceData = ComplianceData(
    status: VerificationStatus,
    jurisdiction: Jurisdiction,
    riskLevel: RiskLevel,
    expiryTimestamp: u64,
    amlChecked: bool,
    sanctionsChecked: bool,
    amlRiskFactors: RiskFactors,
    consent: ConsentStatus,
    consentTimestamp: u64,
    dataRetentionUntil: u64)

  datatype VerificationRequest = VerificationRequest(
    account: AccountId, jurisdiction: Jurisdiction, timestamp: u64, status: VerificationStatus)

  datatype TaxStatus = TaxStatus(
    outstandingTax: u128, reportingSubmitted: bool, legalDocumentsVerified: bool, clearanceExpiry: u64)

  datatype KycMetrics = KycMetrics(
    requestsCreated: u64,
    pendingRequests: u64,
    verificationAttempts: u64,
    successfulVerifications: u64,
    failedVerifications: u64,
    convertedRequests: u64,
    conversionRateBips: u32,
    verificationRateBips: u32)

  const NO_METRICS := KycMetrics(0, 0, 0, 0, 0, 0, 0, 0)

  datatype ComplianceError =
    | NotAuthorized | NotVerified | HighRisk | AlreadyVerified | ConsentNotGiven | DataRetentionExpired
    | InvalidRiskScore | JurisdictionNotSupported | Trap

  datatype Roles = Roles(owner: AccountId, verifiers: map<AccountId, bool>, taxModules: map<AccountId, bool>)

  /** The request table and the counters kept beside it. */
  datatype Funnel = Funnel(
    requests: map<u64, VerificationRequest>,
    requestCounter: u64,
    accountRequests: map<AccountId, u64>,
    metrics: KycMetrics,
    byJurisdiction: map<Jurisdiction, KycMetrics>)

  datatype State = State(
    roles: Roles,
    jurisdictionRules: map<Jurisdiction, Rules>,
    complianceData: map<AccountId, ComplianceData>,
    taxStatus: map<AccountId, TaxStatus>,
    funnel: Funnel)

  const YEAR_MS: u64 := 365 * DAY_MS

  function DefaultRules(): map<Jurisdiction, Rules> {
    map[US := Rules(true, true, true, 3, 2555, false),
        EU := Rules(true, true, true, 3, 1095, false),
        UK := Rules(true, true, true, 3, 1825, false),
        Singapore := Rules(true, true, true, 4, 1825, true),
        UAE := Rules(true, true, true, 4, 1825, true)]
  }

  function EmptyFunnel(): Funnel {
    Funnel(map[], 0, map[], NO_METRICS, map[])
  }

  function New(caller: AccountId): State {
    State(Roles(caller, map[caller := true], map[]), DefaultRules(), map[], map[], EmptyFunnel())
  }

  datatype Env = Env(caller: AccountId, now: u64)

  /** What a message leaves, and what it returns. */
  datatype Attempt = Attempt(state: State, result: Result<u64, ComplianceError>)

  predicate IsVerifier(s: State, a: AccountId) {
    GetOr(s.roles.verifiers, a, false)
  }

  // ----- the funnel counters ---------------------------------------------------------------

  function RateBips(numerator: u64, denominator: u64): nat {
    if denominator == 0 then 0 else SaturatingMul(U64_MAX, numerator, 10_000) / denominator
  }

  function Refreshed(m: KycMetrics): KycMetrics {
    m.(conversionRateBips := RateBips(m.convertedRequests, m.requestsCreated) % (U32_MAX + 1),
       verificationRateBips := RateBips(m.successfulVerifications, m.verificationAttempts) % (U32_MAX + 1))
  }

  function Plus1(n: u64): u64 {
    SaturatingAdd(U64_MAX, n, 1)
  }

  function WithRequest(m: KycMetrics): KycMetrics {
    Refreshed(m.(requestsCreated := Plus1(m.requestsCreated), pendingRequests := Plus1(m.pendingRequests)))
  }

  function WithAttempt(m: KycMetrics, converted: bool, success: bool): KycMetrics {
    var m1 := m.(verificationAttempts := Plus1(m.verificationAttempts));
    var m2 :=
      if !success then m1.(failedVerifications := Plus1(m1.failedVerifications))
      else
        var m3 := m1.(successfulVerifications := Plus1(m1.successfulVerifications));
        if converted
        then m3.(convertedRequests := Plus1(m3.convertedRequests),
                 pendingRequests := SaturatingSub(m3.pendingRequests, 1))
        else m3;
    Refreshed(m2)
  }

  function JurisdictionMetrics(f: Funnel, j: Jurisdiction): KycMetrics {
    GetOr(f.byJurisdiction, j, NO_METRICS)
  }

  function RecordRequest(f: Funnel, j: Jurisdiction): Funnel {
    f.(metrics := WithRequest(f.metrics),
       byJurisdiction := f.byJurisdiction[j := WithRequest(JurisdictionMetrics(f, j))])
  }

  function RecordAttempt(f: Funnel, j: Jurisdiction, converted: bool, success: bool): Funnel {
    f.(metrics := WithAttempt(f.metrics, converted, success),
       byJurisdiction := f.byJurisdiction[j := WithAttempt(JurisdictionMetrics(f, j), converted, success)])
  }

  // ----- verification ----------------------------------------------------------------------

  datatype Evidence = Evidence(riskLevel: RiskLevel, document: DocumentType, biometric: BiometricMethod, riskScore: u8)

  function VerificationLevel(e: Evidence): nat {
    var document := if e.document == Passport || e.document == CorporateDocument then 2 else 1;
    var biometric := match e.biometric
      case NoBiometric => 0
      case IrisScan => 2
      case MultiFactor => 3
      case _ => 1;
    var level := 1 + document + biometric;
    var adjusted := if e.riskScore < 20 then level + 1
                    else if e.riskScore > 80 then SaturatingSub(level, 2)
                    else level;
    Min(adjusted, 5)
  }

  function FreshRecord(j: Jurisdiction, risk: RiskLevel, expiry: u64, retention: u64): ComplianceData {
    ComplianceData(Verified, j, risk, expiry, false, false, RiskFactors(false, false, false, false, false),
                   NotGiven, 0, retention)
  }

  /** The account's latest request is waiting. */
  predicate IsWaiting(f: Funnel, a: AccountId) {
    && a in f.accountRequests && f.accountRequests[a] in f.requests
    && f.requests[f.accountRequests[a]].status == Pending
  }

  /** The account's latest request is waiting in this jurisdiction. */
  predicate Convertible(f: Funnel, a: AccountId, j: Jurisdiction) {
    IsWaiting(f, a) && f.requests[f.accountRequests[a]].jurisdiction == j
  }

  function Converted(f: Funnel, id: u64): Funnel
    requires id in f.requests
  {
    f.(requests := f.requests[id := f.requests[id].(status := Verified)])
  }

  /** A successful verification converts the account's request if it waits in the jurisdiction. */
  function Accepted(f: Funnel, a: AccountId, j: Jurisdiction): Funnel {
    if Convertible(f, a, j)
    then RecordAttempt(Converted(f, f.accountRequests[a]), j, true, true)
    else RecordAttempt(f, j, false, true)
  }

  /** A new waiting request, the account's latest. */
  function Opened(f: Funnel, a: AccountId, j: Jurisdiction, now: u64): Funnel
    requires f.requestCounter < U64_MAX
  {
    RecordRequest(
      f.(requestCounter := f.requestCounter + 1,
         requests := f.requests[f.requestCounter := VerificationRequest(a, j, now, Pending)],
         accountRequests := f.accountRequests[a := f.requestCounter]),
      j)
  }

  function RetentionEnd(now: u64, rules: Rules): nat {
    now + rules.dataRetentionDays * DAY_MS
  }

  /** Why a verification is refused, if it is. */
  function Refusal(rules: map<Jurisdiction, Rules>, env: Env, j: Jurisdiction, e: Evidence): Option<ComplianceError> {
    if e.riskScore > 100 then Some(InvalidRiskScore)
    else if j !in rules then Some(JurisdictionNotSupported)
    else if VerificationLevel(e) < rules[j].minimumVerificationLevel then Some(NotVerified)
    else if env.now + YEAR_MS > U64_MAX || RetentionEnd(env.now, rules[j]) > U64_MAX then Some(Trap)
    else None
  }

  function VerifiedRecord(rules: map<Jurisdiction, Rules>, env: Env, j: Jurisdiction, e: Evidence): ComplianceData
    requires Refusal(rules, env, j, e).None?
  {
    FreshRecord(j, e.riskLevel, env.now + YEAR_MS, RetentionEnd(env.now, rules[j]))
  }

  function SubmitInternal(s: State, env: Env, a: AccountId, j: Jurisdiction, e: Evidence): Attempt {
    var refusal := Refusal(s.jurisdictionRules, env, j, e);
    if refusal.Some? then Attempt(s, Err(refusal.value))
    else
      Attempt(
        s.(complianceData := s.complianceData[a := VerifiedRecord(s.jurisdictionRules, env, j, e)],
           funnel := Accepted(s.funnel, a, j)),
        Ok(0))
  }

  /** A failed verification is counted on the error path; a trap unwinds before it is. */
  function Submit(s: State, env: Env, a: AccountId, j: Jurisdiction, e: Evidence): Attempt {
    if !IsVerifier(s, env.caller) then Attempt(s, Err(NotAuthorized))
    else
      var o := SubmitInternal(s, env, a, j, e);
      if o.result.Err? && o.result.error != Trap
      then o.(state := o.state.(funnel := RecordAttempt(o.state.funnel, j, false, false)))
      else o
  }

  /** A submission succeeds exactly when a verifier makes it and nothing refuses it; then it writes
      the account's record and its share of the funnel, and nothing else. */
  lemma SubmitSucceeds(s: State, env: Env, a: AccountId, j: Jurisdiction, e: Evidence)
    ensures Submit(s, env, a, j, e).result.Ok? <==>
      IsVerifier(s, env.caller) && Refusal(s.jurisdictionRules, env, j, e).None?
    ensures Submit(s, env, a, j, e).result.Ok? ==>
      Submit(s, env, a, j, e).state ==
        s.(complianceData := s.complianceData[a := VerifiedRecord(s.jurisdictionRules, env, j, e)],
           funnel := Accepted(s.funnel, a, j))
  {
  }

  /** A refused submission writes nothing but the count of a failed attempt. */
  lemma SubmitFails(s: State, env: Env, a: AccountId, j: Jurisdiction, e: Evidence)
    requires Submit(s, env, a, j, e).result.Err?
    ensures var s' := Submit(s, env, a, j, e).state;
      s' == s || s' == s.(funnel := RecordAttempt(s.funnel, j, false, false))
  {
  }

  function CreateRequest(s: State, env: Env, j: Jurisdiction): Attempt {
    if IsWaiting(s.funnel, env.caller) then Attempt(s, Err(AlreadyVerified))
    else if s.funnel.requestCounter == U64_MAX then Attempt(s, Err(Trap))
    else Attempt(s.(funnel := Opened(s.funnel, env.caller, j, env.now)), Ok(s.funnel.requestCounter))
  }

  function Process(s: State, env: Env, id: u64, e: Evidence): Attempt {
    if !IsVerifier(s, env.caller) then Attempt(s, Err(NotAuthorized))
    else if id !in s.funnel.requests then Attempt(s, Err(NotVerified))
    else if s.funnel.requests[id].status != Pending then Attempt(s, Err(AlreadyVerified))
    else
      var r := s.funnel.requests[id];
      var o := Submit(s, env, r.account, r.jurisdiction, e);
      if o.result.Ok?
      then
        var f := o.state.funnel;
        o.(state := o.state.(funnel := f.(requests := f.requests[id := r.(status := Verified)])))
      else o
  }

  // ----- the compliance record -------------------------------------------------------------

  function RiskCount(f: RiskFactors): nat {
    (if f.pepStatus then 1 else 0) + (if f.highRiskCountry then 1 else 0)
    + (if f.suspiciousPattern then 1 else 0) + (if f.largeVolume then 1 else 0)
  }

  function WithAml(d: ComplianceData, passed: bool, f: RiskFactors): ComplianceData {
    var d' := d.(amlChecked := passed, amlRiskFactors := f);
    if !passed || RiskCount(f) >= 3 then d'.(status := Rejected, riskLevel := Prohibited)
    else if RiskCount(f) >= 2 then d'.(riskLevel := High)
    else if RiskCount(f) >= 1 then d'.(riskLevel := Medium)
    else d'
  }

  function WithSanctions(d: ComplianceData, passed: bool): ComplianceData {
    var d' := d.(sanctionsChecked := passed);
    if passed then d' else d'.(status := Rejected, riskLevel := Prohibited)
  }

  function Put(s: State, a: AccountId, d: ComplianceData): State {
    s.(complianceData := s.complianceData[a := d])
  }

  function UpdateAml(s: State, env: Env, a: AccountId, passed: bool, f: RiskFactors): Attempt {
    if !IsVerifier(s, env.caller) then Attempt(s, Err(NotAuthorized))
    else if a !in s.complianceData then Attempt(s, Err(NotVerified))
    else Attempt(Put(s, a, WithAml(s.complianceData[a], passed, f)), Ok(0))
  }

  function UpdateSanctions(s: State, env: Env, a: AccountId, passed: bool): Attempt {
    if !IsVerifier(s, env.caller) then Attempt(s, Err(NotAuthorized))
    else if a !in s.complianceData then Attempt(s, Err(NotVerified))
    else Attempt(Put(s, a, WithSanctions(s.complianceData[a], passed)), Ok(0))
  }

  predicate BatchAmlPasses(f: RiskFactors) {
    RiskCount(f) < 3 && f.sourceOfFundsVerified
  }

  /** The batch loop over its first entries: accounts without a record are skipped. */
  function AmlLoop(s: State, accounts: seq<AccountId>, factors: seq<RiskFactors>): State
    requires |accounts| == |factors|
  {
    if accounts == [] then s
    else
      var n := |accounts| - 1;
      var s' := AmlLoop(s, accounts[..n], factors[..n]);
      if accounts[n] in s'.complianceData
      then Put(s', accounts[n], WithAml(s'.complianceData[accounts[n]], BatchAmlPasses(factors[n]), factors[n]))
      else s'
  }

  function BatchAml(s: State, env: Env, accounts: seq<AccountId>, factors: seq<RiskFactors>): Attempt {
    if !IsVerifier(s, env.caller) then Attempt(s, Err(NotAuthorized))
    else if |accounts| != |factors| then Attempt(s, Err(NotVerified))
    else Attempt(AmlLoop(s, accounts, factors), Ok(0))
  }

  /** The batch loop stops at the first account without a record, keeping what it wrote. */
  function SanctionsLoop(s: State, env: Env, accounts: seq<AccountId>, results: seq<bool>): Attempt
    requires |accounts| == |results|
  {
    if accounts == [] then Attempt(s, Ok(0))
    else
      var n := |accounts| - 1;
      var o := SanctionsLoop(s, env, accounts[..n], results[..n]);
      if o.result.Err? then o else UpdateSanctions(o.state, env, accounts[n], results[n])
  }

  function BatchSanctions(s: State, env: Env, accounts: seq<AccountId>, results: seq<bool>): Attempt {
    if !IsVerifier(s, env.caller) then Attempt(s, Err(NotAuthorized))
    else if |accounts| != |results| then Attempt(s, Err(NotVerified))
    else SanctionsLoop(s, env, accounts, results)
  }

  function Revoke(s: State, env: Env, a: AccountId): Attempt {
    if !IsVerifier(s, env.caller) then Attempt(s, Err(NotAuthorized))
    else if a !in s.complianceData then Attempt(s, Err(NotVerified))
    else Attempt(Put(s, a, s.complianceData[a].(status := Rejected)), Ok(0))
  }

  function UpdateConsent(s: State, env: Env, a: AccountId, consent: ConsentStatus): Attempt {
    if env.caller != a && !IsVerifier(s, env.caller) then Attempt(s, Err(NotAuthorized))
    else if a !in s.complianceData then Attempt(s, Err(NotVerified))
    else Attempt(Put(s, a, s.complianceData[a].(consent := consent, consentTimestamp := env.now)), Ok(0))
  }

  function RequestDeletion(s: State, env: Env, a: AccountId): Attempt {
    if env.caller != a then Attempt(s, Err(NotAuthorized))
    else if a !in s.complianceData || env.now <= s.complianceData[a].dataRetentionUntil then
      Attempt(s, Err(DataRetentionExpired))
    else if s.complianceData[a].consent != Withdrawn then Attempt(s, Err(ConsentNotGiven))
    else Attempt(Put(s, a, s.complianceData[a].(status := Lapsed)), Ok(0))
  }

  // ----- administration --------------------------------------------------------------------

  function AddVerifier(s: State, env: Env, v: AccountId): Attempt {
    if env.caller != s.roles.owner then Attempt(s, Err(NotAuthorized))
    else Attempt(s.(roles := s.roles.(verifiers := s.roles.verifiers[v := true])), Ok(0))
  }

  function RegisterProvider(s: State, env: Env, provider: AccountId, serviceType: u8): Attempt {
    if env.caller != s.roles.owner then Attempt(s, Err(NotAuthorized))
    else if serviceType == 0 || serviceType == 3 then
      Attempt(s.(roles := s.roles.(verifiers := s.roles.verifiers[provider := true])), Ok(0))
    else Attempt(s, Ok(0))
  }

  function UpdateRules(s: State, env: Env, j: Jurisdiction, rules: Rules): Attempt {
    if env.caller != s.roles.owner then Attempt(s, Err(NotAuthorized))
    else Attempt(s.(jurisdictionRules := s.jurisdictionRules[j := rules]), Ok(0))
  }

  function SetTaxModule(s: State, env: Env, m: AccountId, active: bool): Attempt {
    if env.caller != s.roles.owner then Attempt(s, Err(NotAuthorized))
    else Attempt(s.(roles := s.roles.(taxModules := s.roles.taxModules[m := active])), Ok(0))
  }

  function UpdateTax(s: State, env: Env, a: AccountId, status: TaxStatus): Attempt {
    if env.caller != s.roles.owner && !IsVerifier(s, env.caller) && !GetOr(s.roles.taxModules, env.caller, false) then
      Attempt(s, Err(NotAuthorized))
    else Attempt(s.(taxStatus := s.taxStatus[a := status]), Ok(0))
  }

  // ----- the gate --------------------------------------------------------------------------

  predicate TaxCompliant(s: State, a: AccountId, now: u64) {
    a in s.taxStatus ==>
      var t := s.taxStatus[a];
      && t.outstandingTax == 0 && t.reportingSubmitted && t.legalDocumentsVerified
      && (t.clearanceExpiry == 0 || t.clearanceExpiry >= now)
  }

  predicate IsCompliant(s: State, a: AccountId, now: u64) {
    && a in s.complianceData
    && var d := s.complianceData[a];
    && d.status == Verified
    && d.expiryTimestamp > now
    && d.riskLevel != Prohibited
    && d.amlChecked
    && d.sanctionsChecked
    && d.consent == Given
    && now <= d.dataRetentionUntil
    && TaxCompliant(s, a, now)
  }

  datatype Operation =
    | RegisterProperty | TransferProperty | UpdateMetadata | CreateEscrow | ReleaseEscrow
    | ListForSale | Purchase | BridgeTransfer

  function CheckTransaction(s: State, a: AccountId, op: Operation, now: u64): Result<(), ComplianceError> {
    if !IsCompliant(s, a, now) then Err(NotVerified)
    else
      var d := s.complianceData[a];
      if d.jurisdiction !in s.jurisdictionRules then Err(JurisdictionNotSupported)
      else
        var rules := s.jurisdictionRules[d.jurisdiction];
        match op
        case ListForSale => MarketCheck(d)
        case Purchase => MarketCheck(d)
        case BridgeTransfer => MarketCheck(d)
        case _ =>
          if !rules.requiresKyc || !rules.requiresAml || !rules.requiresSanctionsCheck then Ok(())
          else if !d.amlChecked || !d.sanctionsChecked then Err(NotVerified)
          else Ok(())
  }

  function MarketCheck(d: ComplianceData): Result<(), ComplianceError> {
    if d.riskLevel == Prohibited then Err(HighRisk)
    else if !d.amlChecked || !d.sanctionsChecked then Err(NotVerified)
    else Ok(())
  }

  // ----- runs ------------------------------------------------------------------------------

  datatype AdminMessage =
    | MsgAddVerifier(verifier: AccountId)
    | MsgRegisterProvider(provider: AccountId, serviceType: u8)
    | MsgUpdateRules(jurisdiction: Jurisdiction, rules: Rules)
    | MsgSetTaxModule(taxModule: AccountId, active: bool)
    | MsgUpdateTax(account: AccountId, tax: TaxStatus)

  datatype FunnelMessage =
    | MsgSubmit(account: AccountId, jurisdiction: Jurisdiction, evidence: Evidence)
    | MsgCreateRequest(jurisdiction: Jurisdiction)
    | MsgProcess(id: u64, evidence: Evidence)

  datatype RecordMessage =
    | MsgAml(account: AccountId, passed: bool, factors: RiskFactors)
    | MsgSanctions(account: AccountId, passed: bool)
    | MsgBatchAml(accounts: seq<AccountId>, allFactors: seq<RiskFactors>)
    | MsgBatchSanctions(accounts: seq<AccountId>, results: seq<bool>)
    | MsgRevoke(account: AccountId)
    | MsgConsent(account: AccountId, consent: ConsentStatus)
    | MsgDelete(account: AccountId)

  datatype Message = Administer(admin: AdminMessage) | Verify(funnel: FunnelMessage) | Amend(record: RecordMessage)

  datatype Call = Call(env: Env, msg: Message)

  function ApplyAdmin(s: State, env: Env, m: AdminMessage): Attempt {
    match m
    case MsgAddVerifier(v) => AddVerifier(s, env, v)
    case MsgRegisterProvider(p, t) => RegisterProvider(s, env, p, t)
    case MsgUpdateRules(j, rules) => UpdateRules(s, env, j, rules)
    case MsgSetTaxModule(t, active) => SetTaxModule(s, env, t, active)
    case MsgUpdateTax(a, t) => UpdateTax(s, env, a, t)
  }

  function ApplyFunnel(s: State, env: Env, m: FunnelMessage): Attempt {
    match m
    case MsgSubmit(a, j, e) => Submit(s, env, a, j, e)
    case MsgCreateRequest(j) => CreateRequest(s, env, j)
    case MsgProcess(id, e) => Process(s, env, id, e)
  }

  function ApplyRecord(s: State, env: Env, m: RecordMessage): Attempt {
    match m
    case MsgAml(a, passed, f) => UpdateAml(s, env, a, passed, f)
    case MsgSanctions(a, passed) => UpdateSanctions(s, env, a, passed)
    case MsgBatchAml(accounts, fs) => BatchAml(s, env, accounts, fs)
    case MsgBatchSanctions(accounts, results) => BatchSanctions(s, env, accounts, results)
    case MsgRevoke(a) => Revoke(s, env, a)
    case MsgConsent(a, consent) => UpdateConsent(s, env, a, consent)
    case MsgDelete(a) => RequestDeletion(s, env, a)
  }

  function Apply(s: State, c: Call): Attempt {
    match c.msg
    case Administer(m) => ApplyAdmin(s, c.env, m)
    case Verify(m) => ApplyFunnel(s, c.env, m)
    case Amend(m) => ApplyRecord(s, c.env, m)
  }

  /** `keeps` tells whether the writes of a failing message stay. */
  function Next(s: State, c: Call, keeps: bool): State {
    var o := Apply(s, c);
    if o.result.Ok? || keeps then o.state else s
  }

  function After(owner: AccountId, run: seq<Call>, keeps: bool): State {
    if run == [] then New(owner)
    else Next(After(owner, run[..|run| - 1], keeps), run[|run| - 1], keeps)
  }
}
