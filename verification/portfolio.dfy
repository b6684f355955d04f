/**
 * The portfolio aggregation of the analysis view: each fetched token balance
 * becomes a portfolio entry priced from the collected price record (0 when the
 * record has no price for the token), and the total value is the sum of the
 * entries' values, folded from 0 in list order.
 */
module Portfolio {
  import opened WalletTypes

  /** The price used for a token: its recorded price, or 0 when none is recorded. */
  function PriceOf(prices: map<string, real>, tokenAddress: string): real
  {
    if tokenAddress in prices then prices[tokenAddress] else 0.0
  }

  /**
   * The portfolio entry derived from one token balance: name, symbol and
   * balance copied, the recorded price or 0, value = quantity * price.
   */
  function EntryOf(token: TokenBalance, prices: map<string, real>): (entry: PortfolioEntry)
    ensures entry.name == token.tokenName
    ensures entry.symbol == token.tokenSymbol
    ensures entry.balance == token.quantity
    ensures token.tokenAddress in prices ==> entry.price == prices[token.tokenAddress]
    ensures token.tokenAddress !in prices ==> entry.price == 0.0
    ensures entry.value == token.quantity * entry.price
    ensures entry.predictions == PlaceholderPredictions
  {
    var price := PriceOf(prices, token.tokenAddress);
    PortfolioEntry(token.tokenName, token.tokenSymbol, token.quantity, price,
                   token.quantity * price, PlaceholderPredictions)
  }

  /**
   * The portfolio table: one entry per balance, in balance order, each the
   * entry derived from that balance (see `EntryOf` for its fields).
   */
  function TransformPortfolio(balances: seq<TokenBalance>, prices: map<string, real>)
    : (entries: seq<PortfolioEntry>)
    ensures |entries| == |balances|
    ensures forall i :: 0 <= i < |balances| ==> entries[i] == EntryOf(balances[i], prices)
  {
    if balances == [] then []
    else
      var rest := TransformPortfolio(balances[1..], prices);
      var entries := [EntryOf(balances[0], prices)] + rest;
      assert forall i :: 1 <= i < |balances| ==> entries[i] == rest[i - 1] && balances[i] == balances[1..][i - 1];
      entries
  }

  /** Reference sum of the entries' values, right to left. */
  function SumOfValues(entries: seq<PortfolioEntry>): real
  {
    if entries == [] then 0.0 else entries[0].value + SumOfValues(entries[1..])
  }

  /** The running fold `sum + token.value`, left to right, starting from `acc`. */
  function FoldValues(acc: real, entries: seq<PortfolioEntry>): real
    decreases |entries|
  {
    if entries == [] then acc else FoldValues(acc + entries[0].value, entries[1..])
  }

  lemma {:induction false} FoldValuesIsShiftedSum(acc: real, entries: seq<PortfolioEntry>)
    ensures FoldValues(acc, entries) == acc + SumOfValues(entries)
    decreases |entries|
  {
    if entries != [] {
      FoldValuesIsShiftedSum(acc + entries[0].value, entries[1..]);
    }
  }

  /** The total portfolio value: the entries' values folded from 0. */
  function TotalValue(entries: seq<PortfolioEntry>): (total: real)
    ensures total == SumOfValues(entries)
  {
    FoldValuesIsShiftedSum(0.0, entries);
    FoldValues(0.0, entries)
  }

  /** Reference value of a holding: the sum of quantity times resolved price. */
  function HoldingsValue(balances: seq<TokenBalance>, prices: map<string, real>): real
  {
    if balances == [] then 0.0
    else balances[0].quantity * PriceOf(prices, balances[0].tokenAddress)
         + HoldingsValue(balances[1..], prices)
  }

  /** The total shown for a portfolio is the sum of quantity * price over all balances. */
  lemma {:induction false} TotalValueIsHoldingsValue(balances: seq<TokenBalance>, prices: map<string, real>)
    ensures TotalValue(TransformPortfolio(balances, prices)) == HoldingsValue(balances, prices)
  {
    if balances != [] {
      var entries := TransformPortfolio(balances, prices);
      assert entries[1..] == TransformPortfolio(balances[1..], prices);
      TotalValueIsHoldingsValue(balances[1..], prices);
    }
  }

  /** Without any recorded price (every price request failed) the total is 0. */
  lemma {:induction false} UnpricedPortfolioIsWorthZero(balances: seq<TokenBalance>)
    ensures HoldingsValue(balances, map[]) == 0.0
  {
    if balances != [] {
      UnpricedPortfolioIsWorthZero(balances[1..]);
    }
  }

  /** With non-negative quantities and prices, the total value is non-negative. */
  lemma {:induction false} HoldingsValueNonNegative(balances: seq<TokenBalance>, prices: map<string, real>)
    requires forall i :: 0 <= i < |balances| ==> balances[i].quantity >= 0.0
    requires forall a :: a in prices ==> prices[a] >= 0.0
    ensures HoldingsValue(balances, prices) >= 0.0
  {
    if balances != [] {
      var q, p := balances[0].quantity, PriceOf(prices, balances[0].tokenAddress);
      assert q * p >= 0.0;
      HoldingsValueNonNegative(balances[1..], prices);
    }
  }
}
