/** When each crowdfunding message succeeds, what it moves for whom, and the states a campaign goes
    through. */
module FundingTerms {
  import opened Machine
  import opened MapSum
  import opened Crowdfunding
  import opened FundingProofs
  import opened FundingExamples

  // ----- the life of a campaign ------------------------------------------------------------

  /** The campaign a call names, if it names one. */
  function Named(m: Message): Option<u64> {
    match m
    case MsgActivate(id) => Some(id)
    case MsgInvest(id, _) => Some(id)
    case MsgFail(id) => Some(id)
    case _ => None
  }

  /** The status a call leaves a campaign in. Activation and cancellation ask for none before. */
  predicate Moves(c: Call, was: Campaign, now: Campaign) {
    match c.msg
    case MsgActivate(_) => now.status == Active
    case MsgFail(_) => now.status == Cancelled
    case MsgInvest(_, amount) =>
      was.status == Active && now.status == if was.raisedAmount + amount >= was.targetAmount then Funded else Active
    case _ => now.status == was.status
  }

  /** A call changes no campaign it does not name, no creator and no target; and it changes a status as
      said above. */
  lemma CampaignStep(s: State, c: Call, id: u64)
    requires Books(s) && Apply(s, c).Committed? && id in s.campaigns
    ensures var s' := Apply(s, c).state;
      && id in s'.campaigns && s'.admin == s.admin
      && s'.campaigns[id].creator == s.campaigns[id].creator
      && s'.campaigns[id].targetAmount == s.campaigns[id].targetAmount
      && (if Named(c.msg) == Some(id) then Moves(c, s.campaigns[id], s'.campaigns[id])
          else s'.campaigns[id] == s.campaigns[id])
  {
    match c.msg
    case MsgActivate(_) =>
    case MsgFail(_) =>
    case MsgInvest(_, _) =>
    case MsgBuy(_) =>
    case _ =>
  }

  /** Since deployment a campaign is a draft, active, funded or cancelled: none is ever closed. */
  lemma {:induction false} StatusesReached(admin: AccountId, run: seq<Call>, id: u64)
    requires id in After(admin, run).campaigns
    ensures After(admin, run).campaigns[id].status in {Draft, Active, Funded, Cancelled}
  {
    if run == [] {
    } else {
      var s, c := After(admin, Earlier(run)), Last(run);
      BooksAlwaysBalance(admin, Earlier(run));
      if id in s.campaigns {
        StatusesReached(admin, Earlier(run), id);
        if Apply(s, c).Committed? {
          CampaignStep(s, c, id);
        }
      }
    }
  }

  /** A new campaign is the next one, the caller's, a draft, and has raised nothing. */
  lemma CreatesExactly(s: State, env: Env, target: u128)
    requires Books(s)
    ensures CreateCampaign(s, env, target).Committed? <==> s.campaignCount < U64_MAX
    ensures CreateCampaign(s, env, target).Committed? ==>
      var o := CreateCampaign(s, env, target);
      && o.value == s.campaignCount + 1 && o.value !in s.campaigns
      && o.state.campaigns == s.campaigns[o.value := Campaign(env.caller, target, 0, Draft, 0)]
      && o.state.campaignCount == o.value
  {
  }

  /** Its creator or the admin may activate a campaign, and the admin may cancel it, whatever was
      decided about it before. */
  lemma StatusChangesExactly(s: State, env: Env, id: u64)
    ensures Activate(s, env, id).Committed? <==>
      id in s.campaigns && (env.caller == s.campaigns[id].creator || env.caller == s.admin)
    ensures FailCampaign(s, env, id).Committed? <==> id in s.campaigns && env.caller == s.admin
  {
  }

  // ----- investing -------------------------------------------------------------------------

  /** An investment succeeds exactly if nothing speaks against the caller, the campaign is active, the
      value attached is the amount, and what the campaign raised, the caller's shares and, for a first
      investment, the count of investors fit with it. That the caller's own total fits decides
      nothing. */
  lemma InvestsExactly(s: State, env: Env, id: u64, amount: u128)
    requires Books(s)
    ensures Invest(s, env, id, amount).Committed? <==>
      && env.refusal.None? && id in s.campaigns && s.campaigns[id].status == Active && env.transferred == amount
      && s.campaigns[id].raisedAmount + amount <= U128_MAX
      && GetOr(s.shareHoldings, (id, env.caller), 0) + amount / 1000 <= U64_MAX
      && (GetOr(s.investments, (id, env.caller), 0) == 0 ==> s.campaigns[id].investorCount < U32_MAX)
  {
    if id in s.campaigns {
      assert BooksOf(s, id);
      OwnWithinRaised(s, id, env.caller);
    }
  }

  lemma OwnWithinRaised(s: State, id: u64, a: AccountId)
    ensures GetOr(s.investments, (id, a), 0) <= InvestedIn(s, id)
  {
    if (id, a) in s.investments {
      Dominates(s.investments, InCampaign(id), (id, a));
    } else {
      NonNegative(s.investments, InCampaign(id));
    }
  }

  /** What an account invested in a campaign over a run. */
  ghost function InvestedBy(admin: AccountId, run: seq<Call>, id: u64, a: AccountId): nat {
    if run == [] then 0
    else InvestedBy(admin, Earlier(run), id, a)
         + match Last(run).msg
           case MsgInvest(i, amount) =>
             if i == id && Last(run).env.caller == a && Succeeds(admin, run) then amount else 0
           case _ => 0
  }

  lemma InvestmentStep(s: State, c: Call, id: u64, a: AccountId)
    requires Apply(s, c).Committed?
    ensures GetOr(Apply(s, c).state.investments, (id, a), 0) == GetOr(s.investments, (id, a), 0)
      + match c.msg
        case MsgInvest(i, amount) => if i == id && c.env.caller == a then amount else 0
        case _ => 0
  {
    match c.msg
    case MsgInvest(_, _) =>
    case MsgBuy(_) =>
    case _ =>
  }

  /** The ledger holds for every account exactly what it invested. */
  lemma {:induction false} InvestmentsAreHistory(admin: AccountId, run: seq<Call>, id: u64, a: AccountId)
    ensures GetOr(After(admin, run).investments, (id, a), 0) == InvestedBy(admin, run, id, a)
  {
    if run == [] {
    } else {
      InvestmentsAreHistory(admin, Earlier(run), id, a);
      if Succeeds(admin, run) {
        InvestmentStep(After(admin, Earlier(run)), Last(run), id, a);
      }
    }
  }

  // ----- shares ----------------------------------------------------------------------------

  /** A listing succeeds exactly if the caller holds the shares, is numbered next, and offers what was
      asked for; it moves no share and touches no other listing. */
  lemma ListsExactly(s: State, env: Env, id: u64, shares: u64, price: u128)
    ensures var o := ListShares(s, env, id, shares, price);
      && (o.Committed? <==> shares <= GetOr(s.shareHoldings, (id, env.caller), 0) && s.listingCount < U64_MAX)
      && (o.Committed? ==>
            && o.value == o.state.listingCount == s.listingCount + 1
            && o.state.listings == s.listings[o.value := Listing(env.caller, id, shares, price)]
            && o.state.shareHoldings == s.shareHoldings)
  {
  }

  /** What a purchase makes of the shares of one account in one campaign. */
  function Bought(held: u64, l: Listing, id: u64, a: AccountId, buyer: AccountId): int {
    var left := if id == l.campaignId && a == l.seller then (if held >= l.shares then held - l.shares else 0) else held;
    left + if id == l.campaignId && a == buyer then l.shares else 0
  }

  /** A purchase succeeds exactly if the listing is there, its price can be computed and the buyer's
      shares fit. It costs the price of each share, removes the listing and no other, and moves the
      shares from the seller to the buyer. */
  lemma BuysExactly(s: State, env: Env, n: u64, id: u64, a: AccountId)
    ensures BuyShares(s, env, n).Committed? <==>
      && n in s.listings && s.listings[n].pricePerShare * s.listings[n].shares <= U128_MAX
      && Bought(GetOr(s.shareHoldings, (s.listings[n].campaignId, env.caller), 0), s.listings[n],
                s.listings[n].campaignId, env.caller, env.caller) <= U64_MAX
    ensures BuyShares(s, env, n).Committed? ==>
      var o := BuyShares(s, env, n);
      && o.value == s.listings[n].pricePerShare * s.listings[n].shares
      && n !in o.state.listings && o.state.listings == s.listings - {n}
      && GetOr(o.state.shareHoldings, (id, a), 0)
           == Bought(GetOr(s.shareHoldings, (id, a), 0), s.listings[n], id, a, env.caller)
  {
  }

  // ----- refunds ---------------------------------------------------------------------------

  /** A refund succeeds exactly if the campaign is cancelled, the caller invested in it and was not
      refunded before, on the whole run; it returns what the caller invested. */
  lemma RefundsExactly(admin: AccountId, run: seq<Call>, env: Env, id: u64)
    ensures var s := After(admin, run);
      var invested := InvestedBy(admin, run, id, env.caller);
      && (ClaimRefund(s, env, id).Committed? <==>
            && id in s.campaigns && s.campaigns[id].status == Cancelled
            && invested > 0 && RefundsTo(admin, run, id, env.caller) == 0)
      && (ClaimRefund(s, env, id).Committed? ==> ClaimRefund(s, env, id).value == invested)
  {
    InvestmentsAreHistory(admin, run, id, env.caller);
    RefundedAtMostOnce(admin, run, id, env.caller);
  }

  /** So the creator of a cancelled campaign can end its refunds by activating it again. */
  lemma ActivationEndsRefunds(s: State, creator: Env, env: Env, id: u64)
    requires id in s.campaigns && s.campaigns[id].status == Cancelled && creator.caller == s.campaigns[id].creator
    ensures Activate(s, creator, id).Committed?
    ensures ClaimRefund(Activate(s, creator, id).state, env, id) == Reverted(CampaignNotFailed)
  {
  }

  /** Alice invests 1000 in her own campaign, it is cancelled, and activated again: the refund she could
      have claimed before is refused. */
  lemma RefundEnded(admin: AccountId)
    ensures var run := Opening() + [Thousand()] + [Cancel(admin)];
      && Apply(After(admin, run), Refund()).Committed? && Apply(After(admin, run), Refund()).value == 1000
      && Apply(After(admin, run + [Activated()]), Refund()) == Reverted(CampaignNotFailed)
  {
    var r0 := Opening() + [Thousand()];
    Invested(admin);
    OneMoreCall(admin, r0, Cancel(admin));
    OneMoreCall(admin, r0 + [Cancel(admin)], Activated());
  }

  // ----- payouts ---------------------------------------------------------------------------

  /** The payout query fails exactly where the product does not fit, and otherwise answers the floor of
      profit times investment over target, or zero where there is no target. */
  lemma AnswersExactly(s: State, id: u64, profit: u128, a: AccountId)
    ensures var o, invested := DistributeProfit(s, id, profit, a), GetOr(s.investments, (id, a), 0);
      if id !in s.campaigns || s.campaigns[id].targetAmount == 0 then o == Ok(0)
      else if profit * invested > U128_MAX then o == Err(Trap)
      else
        var target := s.campaigns[id].targetAmount;
        o.Ok? && target * o.value <= profit * invested < target * o.value + target
  {
    var invested := GetOr(s.investments, (id, a), 0);
    if id in s.campaigns && s.campaigns[id].targetAmount > 0 {
      PayoutBounds(profit, invested, s.campaigns[id].targetAmount);
    }
  }

  // ----- refusals --------------------------------------------------------------------------

  /** Why an investment is refused: what speaks against the caller first, then the campaign, then the
      value attached, then what does not fit. */
  lemma InvestRefusals(s: State, env: Env, id: u64, amount: u128)
    ensures var o := Invest(s, env, id, amount);
      if env.refusal.Some? then o == Reverted(env.refusal.value)
      else
        && (o == Reverted(CampaignNotFound) <==> id !in s.campaigns)
        && (o == Reverted(CampaignNotActive) <==> id in s.campaigns && s.campaigns[id].status != Active)
        && (o == Reverted(ValueMismatch) <==>
              id in s.campaigns && s.campaigns[id].status == Active && env.transferred != amount)
        && (o.Reverted? ==>
              o.error in {CampaignNotFound, CampaignNotActive, ValueMismatch, ArithmeticOverflow, Trap})
  {
  }

  /** Why a refund is refused. */
  lemma RefundRefusals(admin: AccountId, run: seq<Call>, env: Env, id: u64)
    ensures var s := After(admin, run);
      var o := ClaimRefund(s, env, id);
      && (o == Reverted(CampaignNotFound) <==> id !in s.campaigns)
      && (o == Reverted(CampaignNotFailed) <==> id in s.campaigns && s.campaigns[id].status != Cancelled)
      && (o == Reverted(AlreadyRefunded) <==>
            && id in s.campaigns && s.campaigns[id].status == Cancelled && RefundsTo(admin, run, id, env.caller) > 0)
      && (o == Reverted(NoInvestmentFound) <==>
            && id in s.campaigns && s.campaigns[id].status == Cancelled && RefundsTo(admin, run, id, env.caller) == 0
            && InvestedBy(admin, run, id, env.caller) == 0)
  {
    InvestmentsAreHistory(admin, run, id, env.caller);
    RefundedAtMostOnce(admin, run, id, env.caller);
  }
}
