/**
 * The PancakeSwap venue (pancakeswap_exchange.py): one router quote turned
 * into buy/sell prices with a fixed 0.1% margin, and the on-chain balances
 * scaled from wei. The router output and the raw `balanceOf` amounts are
 * parameters.
 */
module PancakeSwapExchange {
  import opened Wrappers
  import opened ExchangeBase

  /** 10^18: the number of wei in one token (both tokens have 18 decimals). */
  const WEI: real := 1000000000000000000.0

  /** The synthetic slippage factors applied around the router's mid price. */
  const BUY_MARGIN: real := 1.001
  const SELL_MARGIN: real := 0.999

  /**
   * get_price_info (pancakeswap_exchange.py:81-112): `amountOut` is the router's
   * output for `quantity * 10^18` wei of POLS, or None when the call raised.
   */
  function Quote(amountOut: Option<real>, quantity: int, timestamp: string): Result<PriceInfo, QuoteError>
  {
    match amountOut
    case None => Err(RouterFailed)
    case Some(out) =>
      if quantity == 0 then Err(ZeroQuantity)
      else
        var current := out / (quantity as real * WEI);
        var buyPrice := current * BUY_MARGIN;
        var sellPrice := current * SELL_MARGIN;
        Ok(PriceInfo(current, buyPrice, sellPrice, buyPrice * quantity as real, sellPrice * quantity as real, timestamp))
  }

  /**
   * A successful quote: the spot price is the router output per POLS in
   * whole tokens, the margins bracket it, cost and revenue are price times
   * size, and the bid/ask gap is 0.2% of the spot value of the trade.
   */
  lemma QuoteShape(amountOut: Option<real>, quantity: int, timestamp: string)
    requires Quote(amountOut, quantity, timestamp).Ok?
    ensures var q := Quote(amountOut, quantity, timestamp).value;
      && quantity != 0 && amountOut.Some?
      && q.currentPrice * (quantity as real * WEI) == amountOut.value
      && q.buyPrice == q.currentPrice * 1.001 && q.sellPrice == q.currentPrice * 0.999
      && Consistent(q, quantity as real)
      && q.buyCost - q.sellRevenue == 0.002 * q.currentPrice * quantity as real
  {
    var q := Quote(amountOut, quantity, timestamp).value;
    var n := quantity as real;
    assert q.buyCost - q.sellRevenue == (q.currentPrice * 1.001) * n - (q.currentPrice * 0.999) * n;
  }

  /** For a non-negative router output and a positive size, buy >= spot >= sell. */
  lemma QuoteOrdered(amountOut: real, quantity: int, timestamp: string)
    requires amountOut >= 0.0 && quantity > 0
    ensures var q := Quote(Some(amountOut), quantity, timestamp).value;
      q.buyPrice >= q.currentPrice >= q.sellPrice >= 0.0
  {
    var q := Quote(Some(amountOut), quantity, timestamp).value;
    assert q.currentPrice >= 0.0;
  }

  /**
   * get_balance (pancakeswap_exchange.py:114-144): `polsRaw` and `usdtRaw` are
   * the results of the two `balanceOf` calls, None where one raised. Raw
   * amounts are scaled by 10^18, nothing is ever locked, and the free POLS are
   * valued at the spot price of a quote taken afterwards inside the call;
   * either failure fails the call.
   */
  function Balance(polsRaw: Option<real>, usdtRaw: Option<real>, quote: Result<PriceInfo, QuoteError>): (r: Result<BalanceInfo, QuoteError>)
    ensures r.Err? <==> polsRaw.None? || usdtRaw.None? || quote.Err?
    ensures polsRaw.None? || usdtRaw.None? ==> r == Err(BalanceReadFailed)
    ensures polsRaw.Some? && usdtRaw.Some? && quote.Err? ==> r == Err(quote.error)
    ensures r.Ok? ==> r.value.polsLocked == 0.0 && r.value.usdtLocked == 0.0
    ensures r.Ok? ==> r.value.polsFree * WEI == polsRaw.value && r.value.usdtFree * WEI == usdtRaw.value
    ensures r.Ok? ==> r.value.polsValueUsdt == r.value.polsFree * quote.value.currentPrice
  {
    if polsRaw.None? || usdtRaw.None? then Err(BalanceReadFailed)
    else
      var polsBalance := polsRaw.value / WEI;
      var usdtBalance := usdtRaw.value / WEI;
      match quote
      case Err(e) => Err(e)
      case Ok(q) => Ok(BalanceInfo(polsBalance, 0.0, usdtBalance, 0.0, polsBalance * q.currentPrice))
  }

  /** The PancakeSwap venue object; its trade size is changed at run time by the notifier. */
  class PancakeSwapExchange {
    var polsQuantity: int

    constructor (polsQuantity: int)
      ensures this.polsQuantity == polsQuantity
    {
      this.polsQuantity := polsQuantity;
    }

    /** get_price_info for the current trade size. */
    function GetPriceInfo(amountOut: Option<real>, timestamp: string): Result<PriceInfo, QuoteError>
      reads this
    {
      Quote(amountOut, polsQuantity, timestamp)
    }
  }
}
