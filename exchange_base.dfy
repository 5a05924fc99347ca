/**
 * The records shared by both venues (exchange_base.py). Amounts are exact
 * reals: IEEE-754 rounding is not modelled.
 */
module ExchangeBase {

  /** A venue quote for the configured trade size. */
  datatype PriceInfo = PriceInfo(
    currentPrice: real,
    buyPrice: real,
    sellPrice: real,
    buyCost: real,
    sellRevenue: real,
    timestamp: string)

  /** Free and locked holdings of POLS and USDT, plus the USDT value of the free POLS. */
  datatype BalanceInfo = BalanceInfo(
    polsFree: real,
    polsLocked: real,
    usdtFree: real,
    usdtLocked: real,
    polsValueUsdt: real)

  /** The reasons a venue quote raises. */
  datatype QuoteError =
    | NoOrderBook             // the venue returned no book or a book without both sides
    | NotEnoughBuyLiquidity   // the asks do not cover the trade size
    | NotEnoughSellLiquidity  // the bids do not cover the trade size
    | EmptyAsks               // `asks[0]` on an empty side (IndexError)
    | ZeroQuantity            // division by a trade size of 0 (ZeroDivisionError)
    | RouterFailed            // the router call raised
    | BalanceReadFailed       // the account or token-balance read raised

  /** The invariant every venue's quote meets: cost and revenue are price times trade size. */
  predicate Consistent(q: PriceInfo, quantity: real)
  {
    q.buyCost == q.buyPrice * quantity && q.sellRevenue == q.sellPrice * quantity
  }
}
