/** The compliance registry's own methods, proved to leave the state and to return the result that
    `ComplianceRegistry` says, on success and on failure alike. */
module ComplianceContract {
  import opened Machine
  import opened ComplianceRegistry

  class Contract {
    var owner: AccountId
    var verifiers: map<AccountId, bool>
    var complianceData: map<AccountId, ComplianceData>
    var jurisdictionRules: map<Jurisdiction, Rules>
    var verificationRequests: map<u64, VerificationRequest>
    var requestCounter: u64
    var accountRequests: map<AccountId, u64>
    var taxModules: map<AccountId, bool>
    var taxComplianceStatus: map<AccountId, TaxStatus>
    var kycMetrics: KycMetrics
    var jurisdictionKycMetrics: map<Jurisdiction, KycMetrics>

    function FunnelView(): Funnel
      reads this
    {
      Funnel(verificationRequests, requestCounter, accountRequests, kycMetrics, jurisdictionKycMetrics)
    }

    function View(): State
      reads this
    {
      State(Roles(owner, verifiers, taxModules), jurisdictionRules, complianceData, taxComplianceStatus, FunnelView())
    }

    constructor (caller: AccountId)
      ensures View() == New(caller)
    {
      owner, verifiers := caller, map[caller := true];
      complianceData, jurisdictionRules := map[], DefaultRules();
      verificationRequests, requestCounter, accountRequests := map[], 0, map[];
      taxModules, taxComplianceStatus := map[], map[];
      kycMetrics, jurisdictionKycMetrics := NO_METRICS, map[];
    }

    // ----- the funnel counters -----

    method RefreshKycRates(metrics: KycMetrics) returns (m: KycMetrics)
      ensures m == Refreshed(metrics)
    {
      m := metrics.(conversionRateBips := RateBips(metrics.convertedRequests, metrics.requestsCreated) % (U32_MAX + 1));
      m := m.(verificationRateBips := RateBips(m.successfulVerifications, m.verificationAttempts) % (U32_MAX + 1));
    }

    method UpdateKycMetrics(metrics: KycMetrics, converted: bool, success: bool) returns (m: KycMetrics)
      ensures m == WithAttempt(metrics, converted, success)
    {
      m := metrics.(verificationAttempts := Plus1(metrics.verificationAttempts));
      if success {
        m := m.(successfulVerifications := Plus1(m.successfulVerifications));
        if converted {
          m := m.(convertedRequests := Plus1(m.convertedRequests));
          m := m.(pendingRequests := SaturatingSub(m.pendingRequests, 1));
        }
      } else {
        m := m.(failedVerifications := Plus1(m.failedVerifications));
      }
      m := RefreshKycRates(m);
    }

    method RecordKycRequestCreated(j: Jurisdiction)
      modifies this`kycMetrics, this`jurisdictionKycMetrics
      ensures FunnelView() == RecordRequest(old(FunnelView()), j)
    {
      kycMetrics := kycMetrics.(requestsCreated := Plus1(kycMetrics.requestsCreated));
      kycMetrics := kycMetrics.(pendingRequests := Plus1(kycMetrics.pendingRequests));
      kycMetrics := RefreshKycRates(kycMetrics);
      var m := GetOr(jurisdictionKycMetrics, j, NO_METRICS);
      m := m.(requestsCreated := Plus1(m.requestsCreated));
      m := m.(pendingRequests := Plus1(m.pendingRequests));
      m := RefreshKycRates(m);
      jurisdictionKycMetrics := jurisdictionKycMetrics[j := m];
    }

    method RecordKycVerificationAttempt(j: Jurisdiction, converted: bool, success: bool)
      modifies this`kycMetrics, this`jurisdictionKycMetrics
      ensures FunnelView() == RecordAttempt(old(FunnelView()), j, converted, success)
    {
      kycMetrics := UpdateKycMetrics(kycMetrics, converted, success);
      var m := UpdateKycMetrics(GetOr(jurisdictionKycMetrics, j, NO_METRICS), converted, success);
      jurisdictionKycMetrics := jurisdictionKycMetrics[j := m];
    }

    // ----- verification -----

    method CompletePendingRequest(account: AccountId, j: Jurisdiction) returns (converted: bool)
      modifies this`verificationRequests
      ensures converted == Convertible(old(FunnelView()), account, j)
      ensures FunnelView() ==
        if converted then Converted(old(FunnelView()), accountRequests[account]) else old(FunnelView())
    {
      if account !in accountRequests {
        return false;
      }
      var id := accountRequests[account];
      if id !in verificationRequests {
        return false;
      }
      var request := verificationRequests[id];
      if request.status != Pending || request.jurisdiction != j {
        return false;
      }
      request := request.(status := Verified);
      verificationRequests := verificationRequests[id := request];
      return true;
    }

    method CountSuccess(account: AccountId, j: Jurisdiction)
      modifies this`verificationRequests, this`kycMetrics, this`jurisdictionKycMetrics
      ensures FunnelView() == Accepted(old(FunnelView()), account, j)
    {
      var converted := CompletePendingRequest(account, j);
      RecordKycVerificationAttempt(j, converted, true);
    }

    /** The checks of a verification, and when it and its data retention end. */
    method CheckVerification(env: Env, j: Jurisdiction, e: Evidence) returns (r: Result<(u64, u64), ComplianceError>)
      ensures r.Err? ==> Refusal(jurisdictionRules, env, j, e) == Some(r.error)
      ensures r.Ok? ==> Refusal(jurisdictionRules, env, j, e).None?
      ensures r.Ok? ==>
        FreshRecord(j, e.riskLevel, r.value.0, r.value.1) == VerifiedRecord(jurisdictionRules, env, j, e)
    {
      if e.riskScore > 100 {
        return Err(InvalidRiskScore);
      }
      if j !in jurisdictionRules {
        return Err(JurisdictionNotSupported);
      }
      var rules := jurisdictionRules[j];
      var level := VerificationLevel(e);
      if level < rules.minimumVerificationLevel {
        return Err(NotVerified);
      }
      if env.now + YEAR_MS > U64_MAX {
        return Err(Trap);
      }
      var expiry: u64 := env.now + YEAR_MS;
      if RetentionEnd(env.now, rules) > U64_MAX {
        return Err(Trap);
      }
      var retention: u64 := RetentionEnd(env.now, rules);
      return Ok((expiry, retention));
    }

    method SubmitVerificationInternal(env: Env, account: AccountId, j: Jurisdiction, e: Evidence)
      returns (r: Result<u64, ComplianceError>)
      modifies this
      ensures Attempt(View(), r) == SubmitInternal(old(View()), env, account, j, e)
    {
      var checked := CheckVerification(env, j, e);
      if checked.Err? {
        return Err(checked.error);
      }
      var (expiry, retention) := checked.value;
      complianceData := complianceData[account := FreshRecord(j, e.riskLevel, expiry, retention)];
      CountSuccess(account, j);
      return Ok(0);
    }

    method SubmitVerification(env: Env, account: AccountId, j: Jurisdiction, e: Evidence)
      returns (r: Result<u64, ComplianceError>)
      modifies this
      ensures Attempt(View(), r) == Submit(old(View()), env, account, j, e)
    {
      if !GetOr(verifiers, env.caller, false) {
        return Err(NotAuthorized);
      }
      r := SubmitVerificationInternal(env, account, j, e);
      if r == Err(Trap) {
        return;
      }
      if r.Err? {
        RecordKycVerificationAttempt(j, false, false);
      }
    }

    method StoreRequest(env: Env, j: Jurisdiction)
      requires requestCounter < U64_MAX
      modifies this`requestCounter, this`verificationRequests, this`accountRequests
      modifies this`kycMetrics, this`jurisdictionKycMetrics
      ensures FunnelView() == Opened(old(FunnelView()), env.caller, j, env.now)
    {
      var id := requestCounter;
      requestCounter := requestCounter + 1;
      var request := VerificationRequest(env.caller, j, env.now, Pending);
      verificationRequests := verificationRequests[id := request];
      accountRequests := accountRequests[env.caller := id];
      RecordKycRequestCreated(j);
    }

    method CreateVerificationRequest(env: Env, j: Jurisdiction) returns (r: Result<u64, ComplianceError>)
      modifies this`requestCounter, this`verificationRequests, this`accountRequests
      modifies this`kycMetrics, this`jurisdictionKycMetrics
      ensures Attempt(View(), r) == CreateRequest(old(View()), env, j)
    {
      if env.caller in accountRequests {
        var existing := accountRequests[env.caller];
        if existing in verificationRequests {
          if verificationRequests[existing].status == Pending {
            return Err(AlreadyVerified);
          }
        }
      }
      var id := requestCounter;
      if requestCounter + 1 > U64_MAX {
        return Err(Trap);
      }
      StoreRequest(env, j);
      return Ok(id);
    }

    method ProcessVerificationRequest(env: Env, id: u64, e: Evidence) returns (r: Result<u64, ComplianceError>)
      modifies this
      ensures Attempt(View(), r) == Process(old(View()), env, id, e)
    {
      if !GetOr(verifiers, env.caller, false) {
        return Err(NotAuthorized);
      }
      if id !in verificationRequests {
        return Err(NotVerified);
      }
      var request := verificationRequests[id];
      if request.status != Pending {
        return Err(AlreadyVerified);
      }
      r := SubmitVerification(env, request.account, request.jurisdiction, e);
      if r.Ok? {
        request := request.(status := Verified);
        verificationRequests := verificationRequests[id := request];
      }
    }

    // ----- the compliance record -----

    method UpdateAmlStatus(env: Env, account: AccountId, passed: bool, factors: RiskFactors)
      returns (r: Result<u64, ComplianceError>)
      modifies this`complianceData
      ensures Attempt(View(), r) == UpdateAml(old(View()), env, account, passed, factors)
    {
      if !GetOr(verifiers, env.caller, false) {
        return Err(NotAuthorized);
      }
      if account !in complianceData {
        return Err(NotVerified);
      }
      var data := complianceData[account];
      data := data.(amlChecked := passed);
      data := data.(amlRiskFactors := factors);
      var riskCount := RiskCount(factors);
      if !passed || riskCount >= 3 {
        data := data.(status := Rejected);
        data := data.(riskLevel := Prohibited);
      } else if riskCount >= 2 {
        data := data.(riskLevel := High);
      } else if riskCount >= 1 {
        data := data.(riskLevel := Medium);
      }
      complianceData := complianceData[account := data];
      return Ok(0);
    }

    method UpdateSanctionsStatus(env: Env, account: AccountId, passed: bool) returns (r: Result<u64, ComplianceError>)
      modifies this`complianceData
      ensures Attempt(View(), r) == UpdateSanctions(old(View()), env, account, passed)
    {
      if !GetOr(verifiers, env.caller, false) {
        return Err(NotAuthorized);
      }
      if account !in complianceData {
        return Err(NotVerified);
      }
      var data := complianceData[account];
      data := data.(sanctionsChecked := passed);
      if !passed {
        data := data.(status := Rejected);
        data := data.(riskLevel := Prohibited);
      }
      complianceData := complianceData[account := data];
      return Ok(0);
    }

    method BatchAmlCheck(env: Env, accounts: seq<AccountId>, factors: seq<RiskFactors>)
      returns (r: Result<u64, ComplianceError>, results: seq<bool>)
      modifies this`complianceData
      ensures Attempt(View(), r) == BatchAml(old(View()), env, accounts, factors)
      ensures r.Ok? ==>
        |results| == |factors| && forall i :: 0 <= i < |factors| ==> results[i] == BatchAmlPasses(factors[i])
    {
      results := [];
      if !GetOr(verifiers, env.caller, false) {
        return Err(NotAuthorized), [];
      }
      if |accounts| != |factors| {
        return Err(NotVerified), [];
      }
      var i := 0;
      while i < |accounts|
        invariant 0 <= i <= |accounts|
        invariant View() == AmlLoop(old(View()), accounts[..i], factors[..i])
        invariant verifiers == old(verifiers)
        invariant |results| == i && forall k :: 0 <= k < i ==> results[k] == BatchAmlPasses(factors[k])
      {
        var passed := BatchAmlPasses(factors[i]);
        results := results + [passed];
        assert accounts[..i + 1][..i] == accounts[..i] && factors[..i + 1][..i] == factors[..i];
        if accounts[i] in complianceData {
          var updated := UpdateAmlStatus(env, accounts[i], passed, factors[i]);
        }
        i := i + 1;
      }
      assert accounts[..|accounts|] == accounts && factors[..|factors|] == factors;
      return Ok(0), results;
    }

    method BatchSanctionsCheck(env: Env, accounts: seq<AccountId>, results: seq<bool>)
      returns (r: Result<u64, ComplianceError>)
      modifies this`complianceData
      ensures Attempt(View(), r) == BatchSanctions(old(View()), env, accounts, results)
    {
      if !GetOr(verifiers, env.caller, false) {
        return Err(NotAuthorized);
      }
      if |accounts| != |results| {
        return Err(NotVerified);
      }
      var i := 0;
      while i < |accounts|
        invariant 0 <= i <= |accounts|
        invariant Attempt(View(), Ok(0)) == SanctionsLoop(old(View()), env, accounts[..i], results[..i])
      {
        var updated := UpdateSanctionsStatus(env, accounts[i], results[i]);
        assert accounts[..i + 1][..i] == accounts[..i] && results[..i + 1][..i] == results[..i];
        i := i + 1;
        if updated.Err? {
          LoopStops(old(View()), env, accounts, results, i);
          return Err(updated.error);
        }
      }
      assert accounts[..|accounts|] == accounts && results[..|results|] == results;
      return Ok(0);
    }

    method RevokeVerification(env: Env, account: AccountId) returns (r: Result<u64, ComplianceError>)
      modifies this`complianceData
      ensures Attempt(View(), r) == Revoke(old(View()), env, account)
    {
      if !GetOr(verifiers, env.caller, false) {
        return Err(NotAuthorized);
      }
      if account !in complianceData {
        return Err(NotVerified);
      }
      complianceData := complianceData[account := complianceData[account].(status := Rejected)];
      return Ok(0);
    }

    method UpdateConsentStatus(env: Env, account: AccountId, consent: ConsentStatus)
      returns (r: Result<u64, ComplianceError>)
      modifies this`complianceData
      ensures Attempt(View(), r) == UpdateConsent(old(View()), env, account, consent)
    {
      if env.caller != account && !GetOr(verifiers, env.caller, false) {
        return Err(NotAuthorized);
      }
      if account !in complianceData {
        return Err(NotVerified);
      }
      var data := complianceData[account];
      data := data.(consent := consent);
      data := data.(consentTimestamp := env.now);
      complianceData := complianceData[account := data];
      return Ok(0);
    }

    method RequestDataDeletion(env: Env, account: AccountId) returns (r: Result<u64, ComplianceError>)
      modifies this`complianceData
      ensures Attempt(View(), r) == RequestDeletion(old(View()), env, account)
    {
      if env.caller != account {
        return Err(NotAuthorized);
      }
      var retentionOver := account in complianceData && env.now > complianceData[account].dataRetentionUntil;
      if !retentionOver {
        return Err(DataRetentionExpired);
      }
      var data := complianceData[account];
      if data.consent != Withdrawn {
        return Err(ConsentNotGiven);
      }
      complianceData := complianceData[account := data.(status := Lapsed)];
      return Ok(0);
    }
  }

  /** Once the batch loop has failed, the rest of the batch changes nothing. */
  lemma {:induction false} LoopStops(s: State, env: Env, accounts: seq<AccountId>, results: seq<bool>, n: nat)
    requires n <= |accounts| == |results|
    requires SanctionsLoop(s, env, accounts[..n], results[..n]).result.Err?
    ensures SanctionsLoop(s, env, accounts, results) == SanctionsLoop(s, env, accounts[..n], results[..n])
  {
    if n == |accounts| {
      assert accounts[..n] == accounts && results[..n] == results;
    } else {
      var m := |accounts| - 1;
      assert accounts[..m][..n] == accounts[..n] && results[..m][..n] == results[..n];
      LoopStops(s, env, accounts[..m], results[..m], n);
    }
  }
}
