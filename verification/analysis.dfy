/**
 * The analysis view's wallet snapshot: five state cells (token balances,
 * token prices, NFT data, reputation score, loading flag) that are reset to
 * their defaults whenever the wallet address changes and then filled in by
 * the fetch sequence: reputation, balances, NFT analytics, then one price
 * request per token.
 *
 * Every HTTP response is an input (`Responses`); the API-key lookup is the
 * boolean `hasApiKey`.
 */
module Analysis {
  import opened WalletTypes
  import opened PriceLoop

  /** Outcome of the NFT wallet-analytics request. */
  datatype NftOutcome =
    | NftFailed                                  // fetch or JSON parsing threw
    | NftReceived(data: seq<NftAnalytics>)      // a missing `data` array is the empty list

  /** What the analytics service answers to the requests made for one wallet. */
  datatype Responses = Responses(
    riskScore: Option<int>,                 // None: request failed or payload lacked the metric
    balances: Option<seq<TokenBalance>>,    // None: request failed
    nft: NftOutcome,
    metrics: seq<MetricsOutcome>)           // one per fetched balance, in order

  /** The values of the five state cells. */
  datatype Snapshot = Snapshot(
    tokenBalances: seq<TokenBalance>,
    tokenPrices: map<string, real>,
    nftData: Option<NftAnalytics>,
    reputationScore: int,
    isLoading: bool)

  /** The initial value of every cell, which is also what an address change resets them to. */
  const Defaults := Snapshot([], map[], None, 0, true)

  /** The fetch sequence reaches the try block: the address is non-empty and the key is set. */
  predicate Attempted(walletAddress: string, hasApiKey: bool)
  {
    walletAddress != "" && hasApiKey
  }

  /**
   * The try block applied to `s`: a failing step skips every later step and
   * leaves their cells as they were.
   */
  function RunSteps(s: Snapshot, r: Responses): (t: Snapshot)
    ensures t.isLoading == s.isLoading
    ensures r.riskScore.None? ==> t == s
    ensures r.riskScore.Some? ==> t.reputationScore == 100 - r.riskScore.value
    ensures r.riskScore.None? || r.balances.None? ==>
      t.tokenBalances == s.tokenBalances && t.nftData == s.nftData && t.tokenPrices == s.tokenPrices
    ensures r.riskScore.Some? && r.balances.Some? ==> t.tokenBalances == r.balances.value
    ensures r.nft.NftFailed? ==> t.nftData == s.nftData && t.tokenPrices == s.tokenPrices
    ensures t.nftData != s.nftData ==> r.nft.NftReceived? && |r.nft.data| > 0 && t.nftData == Some(r.nft.data[0])
    ensures r.riskScore.Some? && r.balances.Some? && r.nft.NftReceived? && |r.nft.data| > 0 ==>
      t.nftData == Some(r.nft.data[0])
    ensures r.riskScore.Some? && r.balances.Some? && r.nft.NftReceived? ==>
      t.tokenPrices == PricesAfter(r.balances.value, r.metrics, |r.balances.value|)
  {
    match r.riskScore
    case None => s
    case Some(risk) =>
      var scored := s.(reputationScore := 100 - risk);
      match r.balances
      case None => scored
      case Some(balances) =>
        var listed := scored.(tokenBalances := balances);
        match r.nft
        case NftFailed => listed
        case NftReceived(data) =>
          var withNft := if |data| > 0 then listed.(nftData := Some(data[0])) else listed;
          withNft.(tokenPrices := PricesAfter(balances, r.metrics, |balances|))
  }

  /**
   * The state after the fetch sequence, started from `s`. Without an address
   * or an API key it returns early and changes nothing; otherwise it runs the
   * steps and the loading flag is cleared whatever they did.
   */
  function FetchResult(s: Snapshot, walletAddress: string, hasApiKey: bool, r: Responses)
    : (t: Snapshot)
    ensures !Attempted(walletAddress, hasApiKey) ==> t == s
    ensures Attempted(walletAddress, hasApiKey) ==> !t.isLoading
  {
    if !Attempted(walletAddress, hasApiKey) then s
    else RunSteps(s, r).(isLoading := false)
  }

  /** The prices are keyed only by addresses of the balances held. */
  ghost predicate PricesWithinBalances(s: Snapshot)
  {
    forall key :: key in s.tokenPrices ==>
      exists i :: 0 <= i < |s.tokenBalances| && s.tokenBalances[i].tokenAddress == key
  }

  /**
   * The state once an address change has reset the cells and the fetch
   * sequence has finished. Nothing of the previous address survives.
   */
  function Loaded(walletAddress: string, hasApiKey: bool, r: Responses): (t: Snapshot)
    ensures t.isLoading <==> !Attempted(walletAddress, hasApiKey)
    ensures t.reputationScore ==
      if Attempted(walletAddress, hasApiKey) && r.riskScore.Some? then 100 - r.riskScore.value else 0
    ensures t.tokenBalances ==
      if Attempted(walletAddress, hasApiKey) && r.riskScore.Some? && r.balances.Some?
      then r.balances.value else []
    ensures t.nftData ==
      if Attempted(walletAddress, hasApiKey) && r.riskScore.Some? && r.balances.Some?
         && r.nft.NftReceived? && |r.nft.data| > 0
      then Some(r.nft.data[0]) else None
    ensures t.tokenPrices ==
      if Attempted(walletAddress, hasApiKey) && r.riskScore.Some? && r.balances.Some? && r.nft.NftReceived?
      then PricesAfter(r.balances.value, r.metrics, |r.balances.value|) else map[]
    ensures PricesWithinBalances(t)
  {
    var fetched := if r.balances.Some? then r.balances.value else [];
    PriceKeysWithinBalances(fetched, r.metrics);
    FetchResult(Defaults, walletAddress, hasApiKey, r)
  }

  /** The analysis view's state cells. */
  class AnalysisView {
    var tokenBalances: seq<TokenBalance>
    var tokenPrices: map<string, real>
    var nftData: Option<NftAnalytics>
    var reputationScore: int
    var isLoading: bool

    function State(): Snapshot
      reads this
    {
      Snapshot(tokenBalances, tokenPrices, nftData, reputationScore, isLoading)
    }

    constructor ()
      ensures State() == Defaults
    {
      tokenBalances := [];
      tokenPrices := map[];
      nftData := None;
      reputationScore := 0;
      isLoading := true;
    }

    /** The reset that runs on every address change, before any request. */
    method ResetState()
      modifies this
      ensures State() == Defaults
    {
      tokenBalances := [];
      tokenPrices := map[];
      nftData := None;
      reputationScore := 0;
      isLoading := true;
    }

    /** The fetch sequence: each step publishes its cell as soon as its response is in. */
    method FetchData(walletAddress: string, hasApiKey: bool, r: Responses)
      modifies this
      ensures State() == FetchResult(old(State()), walletAddress, hasApiKey, r)
    {
      if walletAddress == "" {
        return;
      }
      if !hasApiKey {
        return;
      }
      match r.riskScore {
        case None =>
        case Some(risk) =>
          reputationScore := 100 - risk;
          match r.balances {
            case None =>
            case Some(balances) =>
              tokenBalances := balances;
              match r.nft {
                case NftFailed =>
                case NftReceived(data) =>
                  if |data| > 0 {
                    nftData := Some(data[0]);
                  }
                  var prices, _ := CollectPrices(balances, r.metrics);
                  tokenPrices := prices;
              }
          }
      }
      // the finally clause
      isLoading := false;
    }

    /** An address change: reset every cell, then run the fetch sequence for the new address. */
    method OnWalletAddressChange(walletAddress: string, hasApiKey: bool, r: Responses)
      modifies this
      ensures State() == Loaded(walletAddress, hasApiKey, r)
    {
      ResetState();
      FetchData(walletAddress, hasApiKey, r);
    }
  }
}
