/**
 * The per-token price loop of the analysis view's fetch sequence. For each
 * fetched balance, in list order, one token-metrics request is issued; when
 * its response carries at least one metrics record, the first record's
 * current price is stored under the token's address. A request that fails is
 * caught inside the loop, so the remaining tokens are still processed.
 *
 * The responses are an input: `responses[i]` is what the request for the
 * i-th balance returned; a request with no recorded response counts as failed.
 */
module PriceLoop {
  import opened WalletTypes

  /** Outcome of one token-metrics request. */
  datatype MetricsOutcome =
    | MetricsFailed                                  // fetch or JSON parsing threw
    | MetricsReceived(data: seq<TokenMetrics>)      // a missing `data` array is the empty list

  /** The price the i-th request reports, if any: the first record's current price. */
  function ReportedPrice(responses: seq<MetricsOutcome>, i: nat): Option<real>
  {
    if i < |responses| then
      match responses[i]
      case MetricsFailed => None
      case MetricsReceived(data) => if |data| > 0 then Some(data[0].currentPrice) else None
    else None
  }

  /** The price record after the loop has handled the first `n` balances. */
  function PricesAfter(balances: seq<TokenBalance>, responses: seq<MetricsOutcome>, n: nat)
    : map<string, real>
    requires n <= |balances|
  {
    if n == 0 then map[]
    else
      var before := PricesAfter(balances, responses, n - 1);
      match ReportedPrice(responses, n - 1)
      case Some(price) => before[balances[n - 1].tokenAddress := price]
      case None => before
  }

  /** A token address has a price iff some handled balance with that address got a price back. */
  lemma {:induction false} PriceKeysAreReportedTokens(
    balances: seq<TokenBalance>, responses: seq<MetricsOutcome>, n: nat, key: string)
    requires n <= |balances|
    ensures key in PricesAfter(balances, responses, n) <==>
      exists i :: 0 <= i < n && balances[i].tokenAddress == key && ReportedPrice(responses, i).Some?
  {
    if n > 0 {
      PriceKeysAreReportedTokens(balances, responses, n - 1, key);
    }
  }

  /** Every key of the price record is the address of a fetched balance. */
  lemma PriceKeysWithinBalances(balances: seq<TokenBalance>, responses: seq<MetricsOutcome>)
    ensures forall key :: key in PricesAfter(balances, responses, |balances|) ==>
      exists i :: 0 <= i < |balances| && balances[i].tokenAddress == key
  {
    forall key | key in PricesAfter(balances, responses, |balances|)
      ensures exists i :: 0 <= i < |balances| && balances[i].tokenAddress == key
    {
      PriceKeysAreReportedTokens(balances, responses, |balances|, key);
    }
  }

  /**
   * A stored price is the one reported for the last handled balance with that
   * address whose request returned data: later duplicates overwrite earlier ones.
   */
  lemma {:induction false} PriceIsLastReport(
    balances: seq<TokenBalance>, responses: seq<MetricsOutcome>, n: nat, key: string)
    requires n <= |balances|
    requires key in PricesAfter(balances, responses, n)
    ensures exists i ::
      && 0 <= i < n
      && balances[i].tokenAddress == key
      && ReportedPrice(responses, i) == Some(PricesAfter(balances, responses, n)[key])
      && forall j :: i < j < n && balances[j].tokenAddress == key ==> ReportedPrice(responses, j).None?
  {
    var prices := PricesAfter(balances, responses, n);
    if balances[n - 1].tokenAddress == key && ReportedPrice(responses, n - 1).Some? {
      assert ReportedPrice(responses, n - 1) == Some(prices[key]);
    } else {
      PriceIsLastReport(balances, responses, n - 1, key);
    }
  }

  /**
   * The entry for an address depends only on the requests made for balances
   * with that address: what any other request returned, a failure included,
   * does not change it.
   */
  lemma {:induction false} PriceDependsOnlyOnOwnRequests(
    balances: seq<TokenBalance>, responses: seq<MetricsOutcome>, others: seq<MetricsOutcome>,
    n: nat, key: string)
    requires n <= |balances|
    requires forall i :: 0 <= i < n && balances[i].tokenAddress == key ==>
      ReportedPrice(responses, i) == ReportedPrice(others, i)
    ensures key in PricesAfter(balances, responses, n) <==> key in PricesAfter(balances, others, n)
    ensures key in PricesAfter(balances, responses, n) ==>
      PricesAfter(balances, responses, n)[key] == PricesAfter(balances, others, n)[key]
  {
    if n > 0 {
      PriceDependsOnlyOnOwnRequests(balances, responses, others, n - 1, key);
    }
  }

  /** A failed request for the i-th token leaves the prices of all other addresses as they were. */
  lemma FailedRequestSkipsOnlyItsToken(
    balances: seq<TokenBalance>, responses: seq<MetricsOutcome>, i: nat, key: string)
    requires i < |responses|
    requires i >= |balances| || key != balances[i].tokenAddress
    ensures var failed := responses[i := MetricsFailed];
      && (key in PricesAfter(balances, failed, |balances|) <==> key in PricesAfter(balances, responses, |balances|))
      && (key in PricesAfter(balances, responses, |balances|) ==>
            PricesAfter(balances, failed, |balances|)[key] == PricesAfter(balances, responses, |balances|)[key])
  {
    var failed := responses[i := MetricsFailed];
    forall j | 0 <= j < |balances| && balances[j].tokenAddress == key
      ensures ReportedPrice(failed, j) == ReportedPrice(responses, j)
    {
    }
    PriceDependsOnlyOnOwnRequests(balances, failed, responses, |balances|, key);
  }

  /**
   * The loop: returns the price record, published once after the loop, and
   * the token addresses requested, one per balance in balance order.
   */
  method CollectPrices(balances: seq<TokenBalance>, responses: seq<MetricsOutcome>)
    returns (prices: map<string, real>, requested: seq<string>)
    ensures prices == PricesAfter(balances, responses, |balances|)
    ensures forall key :: key in prices ==>
      exists i :: 0 <= i < |balances| && balances[i].tokenAddress == key
    ensures |requested| == |balances|
    ensures forall i :: 0 <= i < |balances| ==> requested[i] == balances[i].tokenAddress
  {
    prices := map[];
    requested := [];
    for i := 0 to |balances|
      invariant prices == PricesAfter(balances, responses, i)
      invariant |requested| == i
      invariant forall j :: 0 <= j < i ==> requested[j] == balances[j].tokenAddress
    {
      var token := balances[i];
      requested := requested + [token.tokenAddress];
      var response := if i < |responses| then responses[i] else MetricsFailed;
      match response
      case MetricsFailed =>
        // the error is caught inside the loop and the next token is handled
      case MetricsReceived(data) =>
        if |data| > 0 {
          prices := prices[token.tokenAddress := data[0].currentPrice];
        }
    }
    PriceKeysWithinBalances(balances, responses);
  }
}
