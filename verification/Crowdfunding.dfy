/** The crowdfunding ledger: investments, shares traded on a secondary market, refunds, and the
    payout formula. Identity checks on investors are a verdict given with the call. */
module Crowdfunding {
  import opened Machine

  datatype CampaignStatus = Draft | Active | Funded | Closed | Cancelled

  datatype Campaign = Campaign(
    creator: AccountId, targetAmount: u128, raisedAmount: u128, status: CampaignStatus, investorCount: u32)

  datatype Listing = Listing(seller: AccountId, campaignId: u64, shares: u64, pricePerShare: u128)

  datatype FundingError =
    | Unauthorized | CampaignNotFound | CampaignNotActive | InsufficientShares | ListingNotFound
    | CampaignNotFailed | AlreadyRefunded | NoInvestmentFound | InvestorNotCompliant
    | AccreditationNotVerified | ValueMismatch | ArithmeticOverflow | Trap

  type Holding = (u64, AccountId)

  datatype State = State(
    admin: AccountId,
    campaigns: map<u64, Campaign>,
    campaignCount: u64,
    investments: map<Holding, u128>,
    shareHoldings: map<Holding, u64>,
    listings: map<u64, Listing>,
    listingCount: u64,
    refundsIssued: map<Holding, bool>,
    campaignInvestors: map<u64, seq<AccountId>>)

  function New(admin: AccountId): State {
    State(admin, map[], 0, map[], map[], map[], 0, map[], map[])
  }

  /** The caller, the value attached, and why the caller may not invest, if so. */
  datatype Env = Env(caller: AccountId, transferred: u128, refusal: Option<FundingError>)

  type Step = Outcome<State, u128, FundingError>

  function Investors(s: State, id: u64): seq<AccountId> {
    GetOr(s.campaignInvestors, id, [])
  }

  function CreateCampaign(s: State, env: Env, target: u128): Step {
    if s.campaignCount == U64_MAX then Reverted(Trap)
    else
      var id := s.campaignCount + 1;
      Committed(
        s.(campaignCount := id, campaigns := s.campaigns[id := Campaign(env.caller, target, 0, Draft, 0)]),
        id)
  }

  function Activate(s: State, env: Env, id: u64): Step {
    if id !in s.campaigns then Reverted(CampaignNotFound)
    else if env.caller != s.campaigns[id].creator && env.caller != s.admin then Reverted(Unauthorized)
    else Committed(s.(campaigns := s.campaigns[id := s.campaigns[id].(status := Active)]), 0)
  }

  /** The campaign after a booked investment: funded as soon as the target is reached. */
  function Raised(c: Campaign, amount: nat, first: bool): Campaign
    requires c.raisedAmount + amount <= U128_MAX && (first ==> c.investorCount < U32_MAX)
  {
    var raised := c.raisedAmount + amount;
    c.(raisedAmount := raised,
       investorCount := if first then c.investorCount + 1 else c.investorCount,
       status := if raised >= c.targetAmount then Funded else c.status)
  }

  function Invest(s: State, env: Env, id: u64, amount: u128): Step {
    if env.refusal.Some? then Reverted(env.refusal.value)
    else if id !in s.campaigns then Reverted(CampaignNotFound)
    else if s.campaigns[id].status != Active then Reverted(CampaignNotActive)
    else if env.transferred != amount then Reverted(ValueMismatch)
    else
      var key := (id, env.caller);
      var c := s.campaigns[id];
      var current := GetOr(s.investments, key, 0);
      var held := GetOr(s.shareHoldings, key, 0);
      if current + amount > U128_MAX || c.raisedAmount + amount > U128_MAX then Reverted(ArithmeticOverflow)
      else if amount / 1000 > U64_MAX || held + amount / 1000 > U64_MAX then Reverted(ArithmeticOverflow)
      else if current == 0 && c.investorCount == U32_MAX then Reverted(Trap)
      else
        Committed(
          s.(campaigns := s.campaigns[id := Raised(c, amount, current == 0)],
             campaignInvestors :=
               if current == 0 then s.campaignInvestors[id := Investors(s, id) + [env.caller]] else s.campaignInvestors,
             investments := s.investments[key := current + amount],
             shareHoldings := s.shareHoldings[key := held + amount / 1000]),
          0)
  }

  function FailCampaign(s: State, env: Env, id: u64): Step {
    if env.caller != s.admin then Reverted(Unauthorized)
    else if id !in s.campaigns then Reverted(CampaignNotFound)
    else Committed(s.(campaigns := s.campaigns[id := s.campaigns[id].(status := Cancelled)]), 0)
  }

  function ClaimRefund(s: State, env: Env, id: u64): Step {
    var key := (id, env.caller);
    if id !in s.campaigns then Reverted(CampaignNotFound)
    else if s.campaigns[id].status != Cancelled then Reverted(CampaignNotFailed)
    else if GetOr(s.refundsIssued, key, false) then Reverted(AlreadyRefunded)
    else if GetOr(s.investments, key, 0) == 0 then Reverted(NoInvestmentFound)
    else Committed(s.(refundsIssued := s.refundsIssued[key := true]), s.investments[key])
  }

  function ListShares(s: State, env: Env, id: u64, shares: u64, price: u128): Step {
    if GetOr(s.shareHoldings, (id, env.caller), 0) < shares then Reverted(InsufficientShares)
    else if s.listingCount == U64_MAX then Reverted(Trap)
    else
      var n := s.listingCount + 1;
      Committed(s.(listingCount := n, listings := s.listings[n := Listing(env.caller, id, shares, price)]), n)
  }

  function Product(a: nat, b: nat): (r: nat)
    ensures r == a * b
  {
    a * b
  }

  /** Shares leave the seller, down to none, and reach the buyer in full. */
  function Moved(holdings: map<Holding, u64>, l: Listing, buyer: AccountId): (r: map<Holding, nat>) {
    var seller := (l.campaignId, l.seller);
    var taken := holdings[seller := SaturatingSub(GetOr(holdings, seller, 0), l.shares)];
    taken[(l.campaignId, buyer) := GetOr(taken, (l.campaignId, buyer), 0) + l.shares]
  }

  function BuyShares(s: State, env: Env, n: u64): Step {
    if n !in s.listings then Reverted(ListingNotFound)
    else
      var l := s.listings[n];
      var key := (l.campaignId, env.caller);
      var holdings := Moved(s.shareHoldings, l, env.caller);
      if Product(l.pricePerShare, l.shares) > U128_MAX then Reverted(Trap)
      else if holdings[key] > U64_MAX then Reverted(ArithmeticOverflow)
      else Committed(s.(shareHoldings := holdings, listings := s.listings - {n}), Product(l.pricePerShare, l.shares))
  }

  function Payout(profit: nat, investment: nat, target: nat): nat
    requires target > 0
  {
    Product(profit, investment) / target
  }

  lemma PayoutBounds(profit: nat, investment: nat, target: nat)
    requires target > 0
    ensures var p := Payout(profit, investment, target);
      && target * p <= Product(profit, investment) < target * p + target
      && p <= Product(profit, investment)
  {
    Quotient(Product(profit, investment), target);
  }

  lemma Quotient(x: nat, d: nat)
    requires d > 0
    ensures d * (x / d) <= x < d * (x / d) + d && x / d <= x
  {
    DivMod(x, d);
    AtLeast(x / d, d);
  }

  lemma DivMod(x: nat, d: nat)
    requires d > 0
    ensures x == d * (x / d) + x % d && 0 <= x % d < d
  {
  }

  lemma AtLeast(q: nat, d: nat)
    requires d > 0
    ensures q <= d * q
  {
  }

  /** A missing campaign counts as one with target zero. */
  function DistributeProfit(s: State, id: u64, profit: u128, investor: AccountId): Result<u128, FundingError> {
    var investment := GetOr(s.investments, (id, investor), 0);
    if id !in s.campaigns || s.campaigns[id].targetAmount == 0 then Ok(0)
    else if Product(profit, investment) > U128_MAX then Err(Trap)
    else
      PayoutBounds(profit, investment, s.campaigns[id].targetAmount);
      Ok(Payout(profit, investment, s.campaigns[id].targetAmount))
  }

  // ----- runs ------------------------------------------------------------------------------

  datatype Message =
    | MsgCreate(target: u128)
    | MsgActivate(id: u64)
    | MsgInvest(id: u64, amount: u128)
    | MsgFail(id: u64)
    | MsgRefund(id: u64)
    | MsgList(id: u64, shares: u64, price: u128)
    | MsgBuy(listing: u64)

  datatype Call = Call(env: Env, msg: Message)

  function Apply(s: State, c: Call): Step {
    match c.msg
    case MsgCreate(target) => CreateCampaign(s, c.env, target)
    case MsgActivate(id) => Activate(s, c.env, id)
    case MsgInvest(id, amount) => Invest(s, c.env, id, amount)
    case MsgFail(id) => FailCampaign(s, c.env, id)
    case MsgRefund(id) => ClaimRefund(s, c.env, id)
    case MsgList(id, shares, price) => ListShares(s, c.env, id, shares, price)
    case MsgBuy(n) => BuyShares(s, c.env, n)
  }

  function Next(s: State, c: Call): State {
    match Apply(s, c)
    case Committed(s', _) => s'
    case Reverted(_) => s
  }

  function After(admin: AccountId, run: seq<Call>): State {
    if run == [] then New(admin) else Next(After(admin, run[..|run| - 1]), run[|run| - 1])
  }

  // ----- the contract's own methods --------------------------------------------------------

  class Contract {
    var admin: AccountId
    var campaigns: map<u64, Campaign>
    var campaignCount: u64
    var investments: map<Holding, u128>
    var shareHoldings: map<Holding, u64>
    var listings: map<u64, Listing>
    var listingCount: u64
    var refundsIssued: map<Holding, bool>
    var campaignInvestors: map<u64, seq<AccountId>>

    function View(): State
      reads this
    {
      State(admin, campaigns, campaignCount, investments, shareHoldings, listings, listingCount,
            refundsIssued, campaignInvestors)
    }

    constructor (admin: AccountId)
      ensures View() == New(admin)
    {
      this.admin := admin;
      campaigns, campaignCount, investments, shareHoldings := map[], 0, map[], map[];
      listings, listingCount, refundsIssued, campaignInvestors := map[], 0, map[], map[];
    }

    method InvestInCampaign(env: Env, id: u64, amount: u128) returns (r: Result<(), FundingError>)
      modifies this
      ensures r.Ok? ==> Invest(old(View()), env, id, amount) == Committed(View(), 0)
      ensures r.Err? ==> Invest(old(View()), env, id, amount) == Reverted(r.error) && View() == old(View())
    {
      if env.refusal.Some? {
        return Err(env.refusal.value);
      }
      if id !in campaigns {
        return Err(CampaignNotFound);
      }
      var campaign := campaigns[id];
      if campaign.status != Active {
        return Err(CampaignNotActive);
      }
      if env.transferred != amount {
        return Err(ValueMismatch);
      }
      var current := GetOr(investments, (id, env.caller), 0);
      if current + amount > U128_MAX {
        return Err(ArithmeticOverflow);
      }
      if campaign.raisedAmount + amount > U128_MAX {
        return Err(ArithmeticOverflow);
      }
      var newRaisedAmount: u128 := campaign.raisedAmount + amount;
      if amount / 1000 > U64_MAX {
        return Err(ArithmeticOverflow);
      }
      var shares: u64 := amount / 1000;
      var held := GetOr(shareHoldings, (id, env.caller), 0);
      if held + shares > U64_MAX {
        return Err(ArithmeticOverflow);
      }
      if current == 0 {
        if campaign.investorCount + 1 > U32_MAX {
          return Err(Trap);
        }
        campaign := campaign.(investorCount := campaign.investorCount + 1);
        var investors := GetOr(campaignInvestors, id, []);
        investors := investors + [env.caller];
        campaignInvestors := campaignInvestors[id := investors];
      }
      investments := investments[(id, env.caller) := current + amount];
      campaign := campaign.(raisedAmount := newRaisedAmount);
      if campaign.raisedAmount >= campaign.targetAmount {
        campaign := campaign.(status := Funded);
      }
      campaigns := campaigns[id := campaign];
      shareHoldings := shareHoldings[(id, env.caller) := held + shares];
      return Ok(());
    }

    method ListSharesForSale(env: Env, id: u64, shares: u64, price: u128) returns (r: Result<u64, FundingError>)
      modifies this
      ensures r.Ok? ==> ListShares(old(View()), env, id, shares, price) == Committed(View(), r.value)
      ensures r.Err? ==> ListShares(old(View()), env, id, shares, price) == Reverted(r.error) && View() == old(View())
    {
      var held := GetOr(shareHoldings, (id, env.caller), 0);
      if held < shares {
        return Err(InsufficientShares);
      }
      if listingCount + 1 > U64_MAX {
        return Err(Trap);
      }
      listingCount := listingCount + 1;
      listings := listings[listingCount := Listing(env.caller, id, shares, price)];
      return Ok(listingCount);
    }

    /** The seller is debited before the buyer's total is checked. */
    method BuyListedShares(env: Env, n: u64) returns (r: Result<u128, FundingError>)
      modifies this
      ensures r.Ok? ==> BuyShares(old(View()), env, n) == Committed(View(), r.value)
      ensures r.Err? ==> BuyShares(old(View()), env, n) == Reverted(r.error)
    {
      if n !in listings {
        return Err(ListingNotFound);
      }
      var listing := listings[n];
      var totalCost := Product(listing.pricePerShare, listing.shares);
      if totalCost > U128_MAX {
        return Err(Trap);
      }
      var sellerShares := GetOr(shareHoldings, (listing.campaignId, listing.seller), 0);
      shareHoldings := shareHoldings[(listing.campaignId, listing.seller) :=
        SaturatingSub(sellerShares, listing.shares)];
      var buyerShares := GetOr(shareHoldings, (listing.campaignId, env.caller), 0);
      if buyerShares + listing.shares > U64_MAX {
        return Err(ArithmeticOverflow);
      }
      shareHoldings := shareHoldings[(listing.campaignId, env.caller) := buyerShares + listing.shares];
      listings := listings - {n};
      return Ok(totalCost);
    }

    method FailCampaignById(env: Env, id: u64) returns (r: Result<(), FundingError>)
      modifies this
      ensures r.Ok? ==> FailCampaign(old(View()), env, id) == Committed(View(), 0)
      ensures r.Err? ==> FailCampaign(old(View()), env, id) == Reverted(r.error) && View() == old(View())
    {
      if env.caller != admin {
        return Err(Unauthorized);
      }
      if id !in campaigns {
        return Err(CampaignNotFound);
      }
      campaigns := campaigns[id := campaigns[id].(status := Cancelled)];
      return Ok(());
    }

    method ClaimRefundFor(env: Env, id: u64) returns (r: Result<u128, FundingError>)
      modifies this
      ensures r.Ok? ==> ClaimRefund(old(View()), env, id) == Committed(View(), r.value)
      ensures r.Err? ==> ClaimRefund(old(View()), env, id) == Reverted(r.error) && View() == old(View())
    {
      if id !in campaigns {
        return Err(CampaignNotFound);
      }
      if campaigns[id].status != Cancelled {
        return Err(CampaignNotFailed);
      }
      if GetOr(refundsIssued, (id, env.caller), false) {
        return Err(AlreadyRefunded);
      }
      if (id, env.caller) !in investments {
        return Err(NoInvestmentFound);
      }
      var amount := investments[(id, env.caller)];
      if amount == 0 {
        return Err(NoInvestmentFound);
      }
      refundsIssued := refundsIssued[(id, env.caller) := true];
      return Ok(amount);
    }
  }
}
