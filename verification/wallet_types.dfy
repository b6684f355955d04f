/**
 * Record shapes of the wallet dashboard: the token balances, token metrics,
 * NFT analytics and portfolio entries the analysis view works with, and the
 * placeholder prediction series every portfolio entry carries.
 *
 * JavaScript numbers that hold amounts (quantities, prices, values, volume)
 * are modelled as `real`; counters and the risk score as `int`.
 */
module WalletTypes {

  datatype Option<T> = None | Some(value: T)

  /** One entry of the token-balance response. */
  datatype TokenBalance = TokenBalance(
    tokenName: string,
    tokenSymbol: string,
    quantity: real,
    decimal: int,
    tokenAddress: string)

  /** One entry of the token-metrics response; only `currentPrice` is used. */
  datatype TokenMetrics = TokenMetrics(
    currentPrice: real,
    tokenName: string,
    tokenSymbol: string,
    tokenAddress: string)

  /** One entry of the NFT wallet-analytics response. */
  datatype NftAnalytics = NftAnalytics(
    nftBought: int,
    nftSold: int,
    nftMint: int,
    nftTransfer: int,
    nftBurn: int,
    transactions: int,
    transfers: int,
    volume: real)

  /** A point of a price forecast series. */
  datatype TokenData = TokenData(date: string, price: real)

  /** A row of the portfolio table, derived from one token balance. */
  datatype PortfolioEntry = PortfolioEntry(
    name: string,
    symbol: string,
    balance: real,
    price: real,
    value: real,
    predictions: seq<TokenData>)

  /**
   * The forecast series of the first mock portfolio entry (Ethereum), which
   * the analysis view copies into every portfolio entry.
   */
  const PlaceholderPredictions: seq<TokenData> := [
    TokenData("2023-07", 2100.0),
    TokenData("2023-08", 2200.0),
    TokenData("2023-09", 2300.0),
    TokenData("2023-10", 2400.0)
  ]
}
