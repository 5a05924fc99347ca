/**
 * The KuCoin venue (kucoin_exchange.py): the depth-aware quote obtained by
 * walking the order book, the balance record built from the account list,
 * and the balance prechecks of the two order calls. The SDK reads (order
 * book, accounts, order responses) are parameters.
 */
module KucoinExchange {
  import opened Wrappers
  import opened ExchangeBase
  import opened OrderBook

  /** The `{bids, asks}` order book returned by the venue. */
  datatype Book = Book(bids: seq<Level>, asks: seq<Level>)

  /** One entry of the account list. */
  datatype Account = Account(currency: string, available: real, holds: real)

  /** What the ladder walk leaves behind: the accumulated cost and the unfilled quantity. */
  datatype Fill = Fill(cost: real, remaining: real)

  /**
   * The loop of kucoin_exchange.py:46-60 (and its copy for the bids): stop once
   * nothing remains, take a whole level when it fits, otherwise take what remains.
   */
  function Walk(levels: seq<Level>, remaining: real): Fill
  {
    if |levels| == 0 || remaining <= 0.0 then Fill(0.0, remaining)
    else if levels[0].quantity <= remaining then
      var rest := Walk(levels[1..], remaining - levels[0].quantity);
      Fill(levels[0].price * levels[0].quantity + rest.cost, rest.remaining)
    else
      Fill(levels[0].price * remaining, 0.0)
  }

  /** The quantity the walk takes from each level it reaches, in ladder order. */
  function Taken(levels: seq<Level>, remaining: real): (t: seq<real>)
    ensures |t| <= |levels|
  {
    if |levels| == 0 || remaining <= 0.0 then []
    else if levels[0].quantity <= remaining then
      [levels[0].quantity] + Taken(levels[1..], remaining - levels[0].quantity)
    else
      [remaining]
  }

  /** Sum of the taken quantities. */
  function SumTaken(t: seq<real>): real
  {
    if |t| == 0 then 0.0 else t[0] + SumTaken(t[1..])
  }

  /** Sum of price times taken quantity over the reached levels. */
  function Dot(levels: seq<Level>, t: seq<real>): real
    requires |t| <= |levels|
  {
    if |t| == 0 then 0.0 else levels[0].price * t[0] + Dot(levels[1..], t[1..])
  }

  /**
   * Each level contributes at most its listed quantity, the taken quantities
   * add up to what was filled, and the cost is the sum of price times taken.
   */
  lemma {:induction false} WalkTakes(levels: seq<Level>, remaining: real)
    ensures SumTaken(Taken(levels, remaining)) == remaining - Walk(levels, remaining).remaining
    ensures forall i :: 0 <= i < |Taken(levels, remaining)| ==> Taken(levels, remaining)[i] <= levels[i].quantity
    ensures Walk(levels, remaining).cost == Dot(levels, Taken(levels, remaining))
  {
    if |levels| == 0 || remaining <= 0.0 {
    } else if levels[0].quantity <= remaining {
      WalkTakes(levels[1..], remaining - levels[0].quantity);
    } else {
      assert Taken(levels, remaining) == [remaining];
    }
  }

  /** Starting from a non-negative quantity, the unfilled part never goes negative. */
  lemma {:induction false} WalkRemainingNonNegative(levels: seq<Level>, remaining: real)
    requires remaining >= 0.0
    ensures Walk(levels, remaining).remaining >= 0.0
  {
    if |levels| > 0 && remaining > 0.0 && levels[0].quantity <= remaining {
      WalkRemainingNonNegative(levels[1..], remaining - levels[0].quantity);
    }
  }

  /**
   * With non-negative quantities the walk leaves exactly the part of the order
   * that the whole ladder cannot cover.
   */
  lemma {:induction false} WalkDepth(levels: seq<Level>, remaining: real)
    requires NonNegative(levels) && remaining >= 0.0
    ensures Walk(levels, remaining).remaining
         == if TotalQuantity(levels) < remaining then remaining - TotalQuantity(levels) else 0.0
  {
    if |levels| == 0 {
    } else if remaining <= 0.0 {
      TotalQuantityNonNegative(levels);
    } else if levels[0].quantity <= remaining {
      WalkDepth(levels[1..], remaining - levels[0].quantity);
    } else {
      TotalQuantityNonNegative(levels[1..]);
    }
  }

  /** Once the order is filled, levels further down the ladder are never consumed. */
  lemma {:induction false} WalkIgnoresLaterLevels(levels: seq<Level>, more: seq<Level>, remaining: real)
    requires Walk(levels, remaining).remaining <= 0.0
    ensures Walk(levels + more, remaining) == Walk(levels, remaining)
    ensures Taken(levels + more, remaining) == Taken(levels, remaining)
  {
    if |levels| == 0 || remaining <= 0.0 {
    } else {
      assert (levels + more)[0] == levels[0];
      assert (levels + more)[1..] == levels[1..] + more;
      if levels[0].quantity <= remaining {
        WalkIgnoresLaterLevels(levels[1..], more, remaining - levels[0].quantity);
      }
    }
  }

  /** A ladder whose prices are all at least `lo` costs at least `lo` per filled unit. */
  lemma {:induction false} WalkCostAtLeast(levels: seq<Level>, remaining: real, lo: real)
    requires NonNegative(levels) && remaining >= 0.0
    requires forall i :: 0 <= i < |levels| ==> lo <= levels[i].price
    ensures Walk(levels, remaining).cost >= lo * (remaining - Walk(levels, remaining).remaining)
  {
    if |levels| == 0 || remaining <= 0.0 {
    } else if levels[0].quantity <= remaining {
      var q := levels[0].quantity;
      WalkCostAtLeast(levels[1..], remaining - q, lo);
      MulMonotone(lo, levels[0].price, q);
    } else {
      MulMonotone(lo, levels[0].price, remaining);
    }
  }

  /** A ladder whose prices are all at most `hi` yields at most `hi` per filled unit. */
  lemma {:induction false} WalkCostAtMost(levels: seq<Level>, remaining: real, hi: real)
    requires NonNegative(levels) && remaining >= 0.0
    requires forall i :: 0 <= i < |levels| ==> levels[i].price <= hi
    ensures Walk(levels, remaining).cost <= hi * (remaining - Walk(levels, remaining).remaining)
  {
    if |levels| == 0 || remaining <= 0.0 {
    } else if levels[0].quantity <= remaining {
      var q := levels[0].quantity;
      WalkCostAtMost(levels[1..], remaining - q, hi);
      MulMonotone(levels[0].price, hi, q);
    } else {
      MulMonotone(levels[0].price, hi, remaining);
    }
  }

  /**
   * The imperative ladder walk of kucoin_exchange.py:44-60 / 65-81: it
   * accumulates the cost and the unfilled quantity exactly as Walk does.
   */
  method WalkLadder(levels: seq<Level>, quantity: real) returns (total: real, remaining: real)
    ensures Fill(total, remaining) == Walk(levels, quantity)
  {
    total := 0.0;
    remaining := quantity;
    var i := 0;
    while i < |levels|
      invariant 0 <= i <= |levels|
      invariant total + Walk(levels[i..], remaining).cost == Walk(levels, quantity).cost
      invariant Walk(levels[i..], remaining).remaining == Walk(levels, quantity).remaining
    {
      var price := levels[i].price;
      var available := levels[i].quantity;
      if remaining <= 0.0 {
        break;
      }
      assert levels[i..][1..] == levels[i + 1..];
      if available <= remaining {
        total := total + price * available;
        remaining := remaining - available;
      } else {
        total := total + price * remaining;
        remaining := 0.0;
      }
      i := i + 1;
    }
  }

  /**
   * get_price_info (kucoin_exchange.py:34-100) as a function of the order book
   * read and the trade size, with every way it raises.
   */
  function Quote(book: Option<Book>, quantity: int, timestamp: string): Result<PriceInfo, QuoteError>
  {
    match book
    case None => Err(NoOrderBook)
    case Some(b) =>
      var buy := Walk(b.asks, quantity as real);
      if buy.remaining > 0.0 then Err(NotEnoughBuyLiquidity)
      else
        var sell := Walk(b.bids, quantity as real);
        if sell.remaining > 0.0 then Err(NotEnoughSellLiquidity)
        else if |b.asks| == 0 then Err(EmptyAsks)
        else if quantity == 0 then Err(ZeroQuantity)
        else Ok(PriceInfo(b.asks[0].price, buy.cost / quantity as real, sell.cost / quantity as real,
                          buy.cost, sell.cost, timestamp))
  }

  /**
   * A successful quote fills the trade size exactly on both sides: every level
   * gives at most its listed quantity and the cost/revenue is price times taken.
   */
  lemma QuoteFillsExactly(b: Book, quantity: int, timestamp: string)
    requires quantity > 0 && Quote(Some(b), quantity, timestamp).Ok?
    ensures var q := Quote(Some(b), quantity, timestamp).value;
      && SumTaken(Taken(b.asks, quantity as real)) == quantity as real
      && SumTaken(Taken(b.bids, quantity as real)) == quantity as real
      && (forall i :: 0 <= i < |Taken(b.asks, quantity as real)| ==> Taken(b.asks, quantity as real)[i] <= b.asks[i].quantity)
      && (forall i :: 0 <= i < |Taken(b.bids, quantity as real)| ==> Taken(b.bids, quantity as real)[i] <= b.bids[i].quantity)
      && q.buyCost == Dot(b.asks, Taken(b.asks, quantity as real))
      && q.sellRevenue == Dot(b.bids, Taken(b.bids, quantity as real))
  {
    WalkTakes(b.asks, quantity as real);
    WalkTakes(b.bids, quantity as real);
    WalkRemainingNonNegative(b.asks, quantity as real);
    WalkRemainingNonNegative(b.bids, quantity as real);
  }

  /**
   * With non-negative listed quantities, a quote for a positive size fails
   * with a liquidity error exactly when a side's total depth is below the size;
   * it never returns a partial fill.
   */
  lemma QuoteLiquidity(b: Book, quantity: int, timestamp: string)
    requires NonNegative(b.asks) && NonNegative(b.bids) && quantity > 0
    ensures Quote(Some(b), quantity, timestamp) == Err(NotEnoughBuyLiquidity)
        <==> TotalQuantity(b.asks) < quantity as real
    ensures Quote(Some(b), quantity, timestamp) == Err(NotEnoughSellLiquidity)
        <==> TotalQuantity(b.asks) >= quantity as real && TotalQuantity(b.bids) < quantity as real
    ensures Quote(Some(b), quantity, timestamp).Ok?
        <==> TotalQuantity(b.asks) >= quantity as real && TotalQuantity(b.bids) >= quantity as real
  {
    WalkDepth(b.asks, quantity as real);
    WalkDepth(b.bids, quantity as real);
    if TotalQuantity(b.asks) >= quantity as real && quantity > 0 {
      assert |b.asks| > 0;
    }
  }

  /**
   * Prices of a successful quote: the averages are cost over size, the spot
   * price is the first ask, and the quote obeys the cost = price * size invariant.
   */
  lemma QuotePrices(book: Option<Book>, quantity: int, timestamp: string)
    requires Quote(book, quantity, timestamp).Ok?
    ensures var q := Quote(book, quantity, timestamp).value;
      && quantity != 0 && book.Some? && |book.value.asks| > 0
      && q.currentPrice == book.value.asks[0].price
      && q.buyPrice == q.buyCost / quantity as real
      && q.sellPrice == q.sellRevenue / quantity as real
      && Consistent(q, quantity as real)
  {
  }

  /** Filling a positive size from an ascending ladder averages at least its first price. */
  lemma AverageAtLeastFirst(levels: seq<Level>, r: real)
    requires NonNegative(levels) && Ascending(levels) && |levels| > 0
    requires r > 0.0 && Walk(levels, r).remaining <= 0.0
    ensures Walk(levels, r).cost / r >= levels[0].price
  {
    WalkRemainingNonNegative(levels, r);
    WalkCostAtLeast(levels, r, levels[0].price);
    var c := Walk(levels, r).cost;
    DivAtLeast(c, levels[0].price, r);
  }

  /** Filling a positive size from a descending ladder averages at most its first price. */
  lemma AverageAtMostFirst(levels: seq<Level>, r: real)
    requires NonNegative(levels) && Descending(levels) && |levels| > 0
    requires r > 0.0 && Walk(levels, r).remaining <= 0.0
    ensures Walk(levels, r).cost / r <= levels[0].price
  {
    WalkRemainingNonNegative(levels, r);
    WalkCostAtMost(levels, r, levels[0].price);
    var c := Walk(levels, r).cost;
    DivAtMost(c, levels[0].price, r);
  }

  /**
   * With asks in ascending and bids in descending price order, the average
   * buy price is at least the spot price and the average sell price at most
   * the best bid.
   */
  lemma QuoteWithinSpread(b: Book, quantity: int, timestamp: string)
    requires NonNegative(b.asks) && NonNegative(b.bids) && Ascending(b.asks) && Descending(b.bids)
    requires quantity > 0 && Quote(Some(b), quantity, timestamp).Ok?
    ensures |b.bids| > 0
    ensures Quote(Some(b), quantity, timestamp).value.buyPrice >= Quote(Some(b), quantity, timestamp).value.currentPrice
    ensures Quote(Some(b), quantity, timestamp).value.sellPrice <= b.bids[0].price
  {
    var r := quantity as real;
    assert |b.bids| > 0;
    AverageAtLeastFirst(b.asks, r);
    AverageAtMostFirst(b.bids, r);
  }

  /** The first account of the given currency in the list, as `next(...)` finds it. */
  function FirstAccount(accounts: seq<Account>, currency: string): (r: Option<Account>)
    ensures r.Some? ==> r.value.currency == currency
  {
    if |accounts| == 0 then None
    else if accounts[0].currency == currency then Some(accounts[0])
    else FirstAccount(accounts[1..], currency)
  }

  /**
   * There is no account of the currency exactly when none is found; a found
   * account is one of the list, and no earlier account has that currency.
   */
  lemma {:induction false} FirstAccountFound(accounts: seq<Account>, currency: string)
    ensures FirstAccount(accounts, currency).None? <==> forall i :: 0 <= i < |accounts| ==> accounts[i].currency != currency
    ensures FirstAccount(accounts, currency).Some? ==>
      exists i :: 0 <= i < |accounts| && accounts[i] == FirstAccount(accounts, currency).value
        && (forall j :: 0 <= j < i ==> accounts[j].currency != currency)
  {
    if |accounts| > 0 && accounts[0].currency != currency {
      FirstAccountFound(accounts[1..], currency);
      assert forall i :: 1 <= i < |accounts| ==> accounts[i] == accounts[1..][i - 1];
      if FirstAccount(accounts, currency).Some? {
        var k :| 0 <= k < |accounts[1..]| && accounts[1..][k] == FirstAccount(accounts, currency).value
          && (forall j :: 0 <= j < k ==> accounts[1..][j].currency != currency);
        assert accounts[k + 1] == FirstAccount(accounts, currency).value;
        assert forall j :: 0 <= j < k + 1 ==> accounts[j].currency != currency;
      }
    }
  }

  /**
   * get_balance (kucoin_exchange.py:102-130): `accounts` is the result of
   * `get_accounts()`, None where it raised. The first POLS and USDT accounts
   * give free/locked amounts (0 when missing); the POLS value uses the spot
   * price of a quote taken afterwards inside the call, and either failure
   * fails the call.
   */
  function Balance(accounts: Option<seq<Account>>, quote: Result<PriceInfo, QuoteError>): (r: Result<BalanceInfo, QuoteError>)
    ensures r.Err? <==> accounts.None? || quote.Err?
    ensures accounts.None? ==> r == Err(BalanceReadFailed)
    ensures accounts.Some? && quote.Err? ==> r == Err(quote.error)
    ensures r.Ok? ==>
      && r.value.polsFree == Available(FirstAccount(accounts.value, "POLS"))
      && r.value.polsLocked == Held(FirstAccount(accounts.value, "POLS"))
      && r.value.usdtFree == Available(FirstAccount(accounts.value, "USDT"))
      && r.value.usdtLocked == Held(FirstAccount(accounts.value, "USDT"))
      && r.value.polsValueUsdt == r.value.polsFree * quote.value.currentPrice
  {
    match accounts
    case None => Err(BalanceReadFailed)
    case Some(list) =>
      var polsFree := Available(FirstAccount(list, "POLS"));
      var polsLocked := Held(FirstAccount(list, "POLS"));
      var usdtFree := Available(FirstAccount(list, "USDT"));
      var usdtLocked := Held(FirstAccount(list, "USDT"));
      match quote
      case Err(e) => Err(e)
      case Ok(q) => Ok(BalanceInfo(polsFree, polsLocked, usdtFree, usdtLocked, polsFree * q.currentPrice))
  }

  /** The available amount of an account, 0 where there is none. */
  function Available(a: Option<Account>): real
  {
    if a.Some? then a.value.available else 0.0
  }

  /** The held amount of an account, 0 where there is none. */
  function Held(a: Option<Account>): real
  {
    if a.Some? then a.value.holds else 0.0
  }

  /**
   * Locked POLS never enter the USDT valuation: two account lists that agree
   * on every currency and available amount (the holds may differ) value the
   * POLS the same.
   */
  lemma LockedPolsNotValued(accounts: seq<Account>, moved: seq<Account>, quote: Result<PriceInfo, QuoteError>)
    requires quote.Ok? && |moved| == |accounts|
    requires forall i :: 0 <= i < |accounts| ==>
      moved[i].currency == accounts[i].currency && moved[i].available == accounts[i].available
    ensures Balance(Some(moved), quote).value.polsValueUsdt == Balance(Some(accounts), quote).value.polsValueUsdt
  {
    FirstAccountIgnoresHolds(accounts, moved, "POLS");
  }

  /** Account selection looks only at currencies, so the available amount found does not depend on holds. */
  lemma {:induction false} FirstAccountIgnoresHolds(accounts: seq<Account>, moved: seq<Account>, currency: string)
    requires |moved| == |accounts|
    requires forall i :: 0 <= i < |accounts| ==>
      moved[i].currency == accounts[i].currency && moved[i].available == accounts[i].available
    ensures FirstAccount(moved, currency).Some? == FirstAccount(accounts, currency).Some?
    ensures Available(FirstAccount(moved, currency)) == Available(FirstAccount(accounts, currency))
  {
    if |accounts| > 0 && accounts[0].currency != currency {
      FirstAccountIgnoresHolds(accounts[1..], moved[1..], currency);
    }
  }

  /** A limit order as handed to the venue. */
  datatype LimitOrder = LimitOrder(symbol: string, side: string, size: real, price: real)

  /** The reasons an order call raises. */
  datatype OrderError =
    | BalanceUnavailable(cause: QuoteError)  // the balance read inside the call raised
    | QuoteUnavailable(cause: QuoteError)    // the price read inside the call raised
    | InsufficientPols(have: real, need: real)
    | InsufficientUsdt(have: real, need: real)
    | OrderFailed                            // the venue answered with an empty order

  /**
   * The precheck of create_limit_order (kucoin_exchange.py:182-199): a sell
   * needs `size` free POLS and a buy needs `size * price` free USDT; only a
   * request that passes is sent, unchanged.
   */
  function LimitOrderRequest(balance: Result<BalanceInfo, QuoteError>, symbol: string, side: string,
                             size: real, price: real): (r: Result<LimitOrder, OrderError>)
    ensures r.Ok? <==> (balance.Ok?
      && !(side == "sell" && balance.value.polsFree < size)
      && !(side == "buy" && balance.value.usdtFree < size * price))
    ensures r.Ok? ==> r.value == LimitOrder(symbol, side, size, price)
    ensures balance.Ok? && side == "sell" && balance.value.polsFree < size ==>
      r == Err(InsufficientPols(balance.value.polsFree, size))
    ensures balance.Ok? && side == "buy" && balance.value.usdtFree < size * price ==>
      r == Err(InsufficientUsdt(balance.value.usdtFree, size * price))
  {
    match balance
    case Err(e) => Err(BalanceUnavailable(e))
    case Ok(b) =>
      if side == "sell" && b.polsFree < size then Err(InsufficientPols(b.polsFree, size))
      else if side == "buy" && b.usdtFree < size * price then Err(InsufficientUsdt(b.usdtFree, size * price))
      else Ok(LimitOrder(symbol, side, size, price))
  }

  /** The fee margin create_market_buy_order adds to the expected cost. */
  const MARKET_BUY_MARGIN: real := 1.001

  /** The USDT a market buy of `amount` POLS is expected to need. */
  function MarketBuyCost(amount: int, q: PriceInfo): real
  {
    amount as real * q.buyPrice * MARKET_BUY_MARGIN
  }

  /**
   * create_market_buy_order (kucoin_exchange.py:132-168): rejects before
   * sending when the free USDT is below `amount * buy_price * 1.001`; otherwise
   * the venue's answer decides, and an empty answer raises.
   */
  function MarketBuyOrder(balance: Result<BalanceInfo, QuoteError>, quote: Result<PriceInfo, QuoteError>,
                          amount: int, response: Option<string>): (r: Result<string, OrderError>)
    ensures r.Ok? ==> (balance.Ok? && quote.Ok?
      && balance.value.usdtFree >= MarketBuyCost(amount, quote.value)
      && response == Some(r.value))
    ensures balance.Ok? && quote.Ok? && balance.value.usdtFree < MarketBuyCost(amount, quote.value) ==>
      r == Err(InsufficientUsdt(balance.value.usdtFree, MarketBuyCost(amount, quote.value)))
    ensures balance.Ok? && quote.Ok? && balance.value.usdtFree >= MarketBuyCost(amount, quote.value) ==>
      r == (if response.Some? then Ok(response.value) else Err(OrderFailed))
    ensures balance.Err? ==> r == Err(BalanceUnavailable(balance.error))
    ensures balance.Ok? && quote.Err? ==> r == Err(QuoteUnavailable(quote.error))
  {
    match balance
    case Err(e) => Err(BalanceUnavailable(e))
    case Ok(b) =>
      match quote
      case Err(e) => Err(QuoteUnavailable(e))
      case Ok(q) =>
        var cost := MarketBuyCost(amount, q);
        if b.usdtFree < cost then Err(InsufficientUsdt(b.usdtFree, cost))
        else if response.None? then Err(OrderFailed)
        else Ok(response.value)
  }

  /** The KuCoin venue object; its trade size is changed at run time by the notifier. */
  class KucoinExchange {
    var polsQuantity: int

    constructor (polsQuantity: int)
      ensures this.polsQuantity == polsQuantity
    {
      this.polsQuantity := polsQuantity;
    }

    /** get_price_info: both ladder walks over the book read, for the current trade size. */
    method GetPriceInfo(book: Option<Book>, timestamp: string) returns (r: Result<PriceInfo, QuoteError>)
      ensures r == Quote(book, polsQuantity, timestamp)
    {
      if book.None? {
        return Err(NoOrderBook);
      }
      var b := book.value;
      var totalBuyCost, remaining := WalkLadder(b.asks, polsQuantity as real);
      if remaining > 0.0 {
        return Err(NotEnoughBuyLiquidity);
      }
      var totalSellRevenue, remainingSell := WalkLadder(b.bids, polsQuantity as real);
      if remainingSell > 0.0 {
        return Err(NotEnoughSellLiquidity);
      }
      if |b.asks| == 0 {
        return Err(EmptyAsks);
      }
      var currentPrice := b.asks[0].price;
      if polsQuantity == 0 {
        return Err(ZeroQuantity);
      }
      var buyPrice := totalBuyCost / polsQuantity as real;
      var sellPrice := totalSellRevenue / polsQuantity as real;
      r := Ok(PriceInfo(currentPrice, buyPrice, sellPrice, totalBuyCost, totalSellRevenue, timestamp));
    }
  }
}
