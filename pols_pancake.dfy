/**
 * The stand-alone PancakeSwap report (get_pols_pancake.py): the check of the
 * required environment variables, the average price of filling a target
 * amount against a ladder, the simulated order book built around the router
 * price, and the list of moving averages. The router output and the
 * environment are parameters.
 */
module PolsPancake {
  import opened Wrappers
  import opened OrderBook
  import opened Series
  import TradingStrategy

  // ---------------------------------------------------------------------------
  // load_env_file

  /** The variables the report needs. */
  const REQUIRED_VARS: seq<string> := ["BSC_WALLET_ADDRESS", "BSCSCAN_API_KEY"]

  /** `not os.getenv(name)`: the variable is unset or empty. */
  predicate IsUnset(env: map<string, string>, name: string)
  {
    name !in env || env[name] == ""
  }

  /** The required variables that are unset, in the order they are required. */
  function MissingVars(env: map<string, string>, names: seq<string>): (r: seq<string>)
    ensures forall v :: v in r <==> v in names && IsUnset(env, v)
    ensures |r| <= |names|
  {
    if |names| == 0 then []
    else (if IsUnset(env, names[0]) then [names[0]] else []) + MissingVars(env, names[1..])
  }

  /** Why the environment was refused. */
  datatype EnvError =
    | TemplateWritten                       // no .env file: a template was written
    | MissingVariables(names: seq<string>)

  /**
   * load_env_file (get_pols_pancake.py:82-98): `env` is the environment once
   * the .env file is loaded.
   */
  function LoadEnvFile(envFileExists: bool, env: map<string, string>): (r: Option<EnvError>)
    ensures r.None? <==> envFileExists && forall v :: v in REQUIRED_VARS ==> !IsUnset(env, v)
    ensures r == Some(TemplateWritten) <==> !envFileExists
    ensures r.Some? && r.value.MissingVariables? ==>
      r.value.names == MissingVars(env, REQUIRED_VARS) && |r.value.names| > 0
  {
    if !envFileExists then Some(TemplateWritten)
    else
      var missing := MissingVars(env, REQUIRED_VARS);
      if |missing| > 0 then
        assert missing[0] in missing;
        Some(MissingVariables(missing))
      else None
  }

  // ---------------------------------------------------------------------------
  // calculate_average_price

  /** The cost of taking `quantity` at `price`. */
  function LevelCost(quantity: real, price: real): real
  {
    quantity * price
  }

  /** How much the fill loop has taken so far, and at what total cost. */
  datatype Progress = Progress(filled: real, cost: real)

  /**
   * The fill loop of calculate_average_price (get_pols_pancake.py:124-140)
   * from an amount `filled` already taken at total `cost`: a level is taken
   * whole while it fits under the target, and the first level that does not
   * fit is taken only up to the target.
   */
  function FillTarget(orders: seq<Level>, target: real, filled: real, cost: real): Progress
  {
    if |orders| == 0 then Progress(filled, cost)
    else
      var price := orders[0].price;
      var available := orders[0].quantity;
      if filled + available <= target then
        var filled' := filled + available;
        var cost' := cost + LevelCost(available, price);
        if filled' >= target then Progress(filled', cost') else FillTarget(orders[1..], target, filled', cost')
      else
        Progress(target, cost + LevelCost(target - filled, price))
  }

  /** One step of the fill loop on the first level. */
  lemma FillTargetHead(orders: seq<Level>, target: real, filled: real, cost: real)
    requires |orders| > 0
    ensures var price := orders[0].price;
            var available := orders[0].quantity;
      FillTarget(orders, target, filled, cost) ==
        if filled + available > target then Progress(target, cost + LevelCost(target - filled, price))
        else if filled + available >= target then Progress(filled + available, cost + LevelCost(available, price))
        else FillTarget(orders[1..], target, filled + available, cost + LevelCost(available, price))
  {
  }

  /** One step of the fill loop at level `i`. */
  lemma FillTargetAt(orders: seq<Level>, i: nat, target: real, filled: real, cost: real)
    requires i < |orders|
    ensures FillTarget(orders[i..], target, filled, cost) ==
      if filled + orders[i].quantity > target then Progress(target, cost + LevelCost(target - filled, orders[i].price))
      else if filled + orders[i].quantity >= target then Progress(filled + orders[i].quantity, cost + LevelCost(orders[i].quantity, orders[i].price))
      else FillTarget(orders[i + 1..], target, filled + orders[i].quantity, cost + LevelCost(orders[i].quantity, orders[i].price))
  {
    var rest := orders[i..];
    assert rest[0] == orders[i] && rest[1..] == orders[i + 1..];
    FillTargetHead(rest, target, filled, cost);
  }

  /** The dictionary calculate_average_price returns. */
  datatype AverageInfo = AverageInfo(averagePrice: real, totalCost: real, amountFilled: real, slippage: real)

  /** None when nothing was filled; a division by a zero price raises. */
  datatype AverageResult = NothingFilled | Filled(info: AverageInfo) | ZeroPriceDivision

  /** calculate_average_price (get_pols_pancake.py:119-153) as a value. */
  function AveragePrice(orders: seq<Level>, target: real, isBuy: bool): AverageResult
  {
    var Progress(filled, cost) := FillTarget(orders, target, 0.0, 0.0);
    if filled == 0.0 then NothingFilled
    else
      assert |orders| > 0;
      var average := cost / filled;
      var first := orders[0].price;
      if isBuy then
        if first == 0.0 then ZeroPriceDivision
        else Filled(AverageInfo(average, cost, filled, (average / first - 1.0) * 100.0))
      else
        if average == 0.0 then ZeroPriceDivision
        else Filled(AverageInfo(average, cost, filled, (first / average - 1.0) * 100.0))
  }

  /** The fill loop of calculate_average_price (get_pols_pancake.py:124-140) with its two exits. */
  method FillLadder(orders: seq<Level>, target: real) returns (amountFilled: real, totalCost: real)
    ensures Progress(amountFilled, totalCost) == FillTarget(orders, target, 0.0, 0.0)
  {
    amountFilled := 0.0;
    totalCost := 0.0;
    var i := 0;
    while i < |orders|
      invariant 0 <= i <= |orders|
      invariant FillTarget(orders[i..], target, amountFilled, totalCost) == FillTarget(orders, target, 0.0, 0.0)
    {
      FillTargetAt(orders, i, target, amountFilled, totalCost);
      if amountFilled + orders[i].quantity <= target {
        amountFilled := amountFilled + orders[i].quantity;
        totalCost := totalCost + LevelCost(orders[i].quantity, orders[i].price);
      } else {
        var remaining := target - amountFilled;
        amountFilled := amountFilled + remaining;
        totalCost := totalCost + LevelCost(remaining, orders[i].price);
        break;
      }
      if amountFilled >= target {
        break;
      }
      i := i + 1;
    }
    if i == |orders| {
      assert orders[i..] == [];
    }
  }

  /** calculate_average_price: the fill, then the average and the slippage of the first level. */
  method CalculateAveragePrice(orders: seq<Level>, target: real, isBuy: bool) returns (r: AverageResult)
    ensures r == AveragePrice(orders, target, isBuy)
  {
    var amountFilled, totalCost := FillLadder(orders, target);
    if amountFilled == 0.0 {
      return NothingFilled;
    }
    var averagePrice := totalCost / amountFilled;
    if isBuy {
      if orders[0].price == 0.0 {
        return ZeroPriceDivision;
      }
      r := Filled(AverageInfo(averagePrice, totalCost, amountFilled, (averagePrice / orders[0].price - 1.0) * 100.0));
    } else {
      if averagePrice == 0.0 {
        return ZeroPriceDivision;
      }
      r := Filled(AverageInfo(averagePrice, totalCost, amountFilled, (orders[0].price / averagePrice - 1.0) * 100.0));
    }
  }

  /** The loop never fills more than the target once it starts at or under it. */
  lemma {:induction false} FillWithinTarget(orders: seq<Level>, target: real, filled: real, cost: real)
    requires filled <= target
    ensures FillTarget(orders, target, filled, cost).filled <= target
  {
    if |orders| > 0 && filled + orders[0].quantity <= target && filled + orders[0].quantity < target {
      FillWithinTarget(orders[1..], target, filled + orders[0].quantity, cost + LevelCost(orders[0].quantity, orders[0].price));
    }
  }

  /** On non-negative volumes the loop fills the target or the whole depth, whichever is smaller. */
  lemma {:induction false} FillDepth(orders: seq<Level>, target: real, filled: real, cost: real)
    requires NonNegative(orders) && 0.0 <= filled <= target
    ensures var total := filled + TotalQuantity(orders);
      FillTarget(orders, target, filled, cost).filled == if total < target then total else target
  {
    if |orders| > 0 {
      var filled' := filled + orders[0].quantity;
      TotalQuantityNonNegative(orders[1..]);
      assert NonNegative(orders[1..]) by {
        forall i | 0 <= i < |orders[1..]| ensures orders[1..][i].quantity >= 0.0 {
          assert orders[1..][i] == orders[i + 1];
        }
      }
      if filled' < target {
        FillDepth(orders[1..], target, filled', cost + LevelCost(orders[0].quantity, orders[0].price));
      }
    }
  }

  /**
   * The amount filled is at most the target; on non-negative volumes nothing
   * is filled exactly when the target or the depth is 0, and a depth short of
   * the target gives a partial fill of the whole depth rather than an error.
   */
  lemma AveragePriceFill(orders: seq<Level>, target: real, isBuy: bool)
    requires target >= 0.0
    ensures AveragePrice(orders, target, isBuy).Filled? ==> AveragePrice(orders, target, isBuy).info.amountFilled <= target
    ensures NonNegative(orders) ==>
      (AveragePrice(orders, target, isBuy).NothingFilled? <==> target == 0.0 || TotalQuantity(orders) == 0.0)
    ensures NonNegative(orders) && AveragePrice(orders, target, isBuy).Filled? && TotalQuantity(orders) < target ==>
      AveragePrice(orders, target, isBuy).info.amountFilled == TotalQuantity(orders)
  {
    FillWithinTarget(orders, target, 0.0, 0.0);
    if NonNegative(orders) {
      FillDepth(orders, target, 0.0, 0.0);
      TotalQuantityNonNegative(orders);
    }
  }

  /** Every level is priced within [lo, hi]. */
  predicate PricedWithin(orders: seq<Level>, lo: real, hi: real)
  {
    forall i :: 0 <= i < |orders| ==> lo <= orders[i].price <= hi
  }

  lemma PricedWithinTail(orders: seq<Level>, lo: real, hi: real)
    requires |orders| > 0 && NonNegative(orders) && PricedWithin(orders, lo, hi)
    ensures NonNegative(orders[1..]) && PricedWithin(orders[1..], lo, hi)
    ensures lo <= orders[0].price <= hi && orders[0].quantity >= 0.0
  {
    forall i | 0 <= i < |orders[1..]| ensures orders[1..][i] == orders[i + 1] { }
  }

  /** Multiplication distributes over a sum named `s`. */
  lemma ScaleSum(a: real, b: real, s: real, c: real)
    requires s == a + b
    ensures s * c == a * c + b * c
  {
  }

  /** `b * lo <= b * p` for a non-negative `b`. */
  lemma ScaleBound(lo: real, p: real, b: real)
    requires lo <= p && b >= 0.0
    ensures b * lo <= b * p
  {
    assert b * p - b * lo == b * (p - lo);
  }

  /** One level's contribution: `b` units bought at `p`, priced at `bound` instead. */
  lemma LevelLower(c: real, b: real, bound: real, p: real)
    requires bound <= p && b >= 0.0
    ensures b * bound <= (c + LevelCost(b, p)) - c
  {
    ScaleBound(bound, p, b);
  }

  lemma LevelUpper(c: real, b: real, bound: real, p: real)
    requires p <= bound && b >= 0.0
    ensures (c + LevelCost(b, p)) - c <= b * bound
  {
    ScaleBound(p, bound, b);
  }

  /** A level's lower bound added to the rest of the walk's lower bound. */
  lemma StepLower(d: real, q: real, s: real, bound: real, p: real, c0: real, c1: real)
    requires d * bound <= c1 - (c0 + LevelCost(q, p)) && bound <= p && q >= 0.0 && s == d + q
    ensures s * bound <= c1 - c0
  {
    ScaleBound(bound, p, q);
    ScaleSum(d, q, s, bound);
  }

  lemma StepUpper(d: real, q: real, s: real, bound: real, p: real, c0: real, c1: real)
    requires c1 - (c0 + LevelCost(q, p)) <= d * bound && p <= bound && q >= 0.0 && s == d + q
    ensures c1 - c0 <= s * bound
  {
    ScaleBound(p, bound, q);
    ScaleSum(d, q, s, bound);
  }

  /** The walk's lower cost bound when the first level reaches the target. */
  lemma FillCostAtLeastLast(orders: seq<Level>, target: real, filled: real, cost: real, lo: real)
    requires |orders| > 0 && orders[0].quantity >= 0.0 && lo <= orders[0].price
    requires filled <= target <= filled + orders[0].quantity
    ensures (FillTarget(orders, target, filled, cost).filled - filled) * lo <= FillTarget(orders, target, filled, cost).cost - cost
  {
    FillTargetHead(orders, target, filled, cost);
    if filled + orders[0].quantity > target {
      LevelLower(cost, target - filled, lo, orders[0].price);
    } else {
      LevelLower(cost, orders[0].quantity, lo, orders[0].price);
    }
  }

  /** The walk's lower cost bound from the bound on the walk past the first level. */
  lemma FillCostAtLeastNext(orders: seq<Level>, target: real, filled: real, cost: real, lo: real)
    requires |orders| > 0 && orders[0].quantity >= 0.0 && lo <= orders[0].price
    requires filled + orders[0].quantity < target
    requires var rest := FillTarget(orders[1..], target, filled + orders[0].quantity, cost + LevelCost(orders[0].quantity, orders[0].price));
      (rest.filled - (filled + orders[0].quantity)) * lo <= rest.cost - (cost + LevelCost(orders[0].quantity, orders[0].price))
    ensures (FillTarget(orders, target, filled, cost).filled - filled) * lo <= FillTarget(orders, target, filled, cost).cost - cost
  {
    var rest := FillTarget(orders[1..], target, filled + orders[0].quantity, cost + LevelCost(orders[0].quantity, orders[0].price));
    FillTargetHead(orders, target, filled, cost);
    StepLower(rest.filled - (filled + orders[0].quantity), orders[0].quantity, rest.filled - filled, lo, orders[0].price, cost, rest.cost);
  }

  /** The cost of what the loop adds is at least the added amount priced at `lo`. */
  lemma {:induction false} FillCostAtLeast(orders: seq<Level>, target: real, filled: real, cost: real, lo: real, hi: real)
    requires NonNegative(orders) && PricedWithin(orders, lo, hi) && filled <= target
    ensures (FillTarget(orders, target, filled, cost).filled - filled) * lo <= FillTarget(orders, target, filled, cost).cost - cost
  {
    if |orders| > 0 {
      PricedWithinTail(orders, lo, hi);
      if filled + orders[0].quantity >= target {
        FillCostAtLeastLast(orders, target, filled, cost, lo);
      } else {
        FillCostAtLeast(orders[1..], target, filled + orders[0].quantity, cost + LevelCost(orders[0].quantity, orders[0].price), lo, hi);
        FillCostAtLeastNext(orders, target, filled, cost, lo);
      }
    }
  }

  /** The walk's upper cost bound when the first level reaches the target. */
  lemma FillCostAtMostLast(orders: seq<Level>, target: real, filled: real, cost: real, hi: real)
    requires |orders| > 0 && orders[0].quantity >= 0.0 && orders[0].price <= hi
    requires filled <= target <= filled + orders[0].quantity
    ensures FillTarget(orders, target, filled, cost).cost - cost <= (FillTarget(orders, target, filled, cost).filled - filled) * hi
  {
    FillTargetHead(orders, target, filled, cost);
    if filled + orders[0].quantity > target {
      LevelUpper(cost, target - filled, hi, orders[0].price);
    } else {
      LevelUpper(cost, orders[0].quantity, hi, orders[0].price);
    }
  }

  /** The walk's upper cost bound from the bound on the walk past the first level. */
  lemma FillCostAtMostNext(orders: seq<Level>, target: real, filled: real, cost: real, hi: real)
    requires |orders| > 0 && orders[0].quantity >= 0.0 && orders[0].price <= hi
    requires filled + orders[0].quantity < target
    requires var rest := FillTarget(orders[1..], target, filled + orders[0].quantity, cost + LevelCost(orders[0].quantity, orders[0].price));
      rest.cost - (cost + LevelCost(orders[0].quantity, orders[0].price)) <= (rest.filled - (filled + orders[0].quantity)) * hi
    ensures FillTarget(orders, target, filled, cost).cost - cost <= (FillTarget(orders, target, filled, cost).filled - filled) * hi
  {
    var rest := FillTarget(orders[1..], target, filled + orders[0].quantity, cost + LevelCost(orders[0].quantity, orders[0].price));
    FillTargetHead(orders, target, filled, cost);
    StepUpper(rest.filled - (filled + orders[0].quantity), orders[0].quantity, rest.filled - filled, hi, orders[0].price, cost, rest.cost);
  }

  /** The cost of what the loop adds is at most the added amount priced at `hi`. */
  lemma {:induction false} FillCostAtMost(orders: seq<Level>, target: real, filled: real, cost: real, lo: real, hi: real)
    requires NonNegative(orders) && PricedWithin(orders, lo, hi) && filled <= target
    ensures FillTarget(orders, target, filled, cost).cost - cost <= (FillTarget(orders, target, filled, cost).filled - filled) * hi
  {
    if |orders| > 0 {
      PricedWithinTail(orders, lo, hi);
      if filled + orders[0].quantity >= target {
        FillCostAtMostLast(orders, target, filled, cost, hi);
      } else {
        FillCostAtMost(orders[1..], target, filled + orders[0].quantity, cost + LevelCost(orders[0].quantity, orders[0].price), lo, hi);
        FillCostAtMostNext(orders, target, filled, cost, hi);
      }
    }
  }

  /** A fill that took something has its average price within the ladder's price range. */
  lemma AverageWithin(orders: seq<Level>, target: real, lo: real, hi: real)
    requires NonNegative(orders) && PricedWithin(orders, lo, hi) && target >= 0.0
    requires FillTarget(orders, target, 0.0, 0.0).filled != 0.0
    ensures lo <= FillTarget(orders, target, 0.0, 0.0).cost / FillTarget(orders, target, 0.0, 0.0).filled <= hi
  {
    FillDepth(orders, target, 0.0, 0.0);
    TotalQuantityNonNegative(orders);
    FillCostAtLeast(orders, target, 0.0, 0.0, lo, hi);
    FillCostAtMost(orders, target, 0.0, 0.0, lo, hi);
    var p := FillTarget(orders, target, 0.0, 0.0);
    DivAtLeast(p.cost, lo, p.filled);
    DivAtMost(p.cost, hi, p.filled);
  }

  /** An ascending ladder with a positive best ask has a non-negative buy slippage. */
  lemma BuySlippageNonNegative(orders: seq<Level>, target: real)
    requires NonNegative(orders) && Ascending(orders) && target >= 0.0
    requires |orders| > 0 && orders[0].price > 0.0
    ensures AveragePrice(orders, target, true).Filled? ==> AveragePrice(orders, target, true).info.slippage >= 0.0
  {
    if AveragePrice(orders, target, true).Filled? {
      assert PricedWithin(orders, orders[0].price, orders[|orders| - 1].price);
      AverageWithin(orders, target, orders[0].price, orders[|orders| - 1].price);
      var p := FillTarget(orders, target, 0.0, 0.0);
      DivAtLeast(p.cost / p.filled, 1.0, orders[0].price);
    }
  }

  /** A descending ladder with positive prices has a non-negative sell slippage. */
  lemma SellSlippageNonNegative(orders: seq<Level>, target: real)
    requires NonNegative(orders) && Descending(orders) && target >= 0.0
    requires |orders| > 0 && orders[|orders| - 1].price > 0.0
    ensures AveragePrice(orders, target, false).Filled? ==> AveragePrice(orders, target, false).info.slippage >= 0.0
  {
    if AveragePrice(orders, target, false).Filled? {
      assert PricedWithin(orders, orders[|orders| - 1].price, orders[0].price);
      AverageWithin(orders, target, orders[|orders| - 1].price, orders[0].price);
      var p := FillTarget(orders, target, 0.0, 0.0);
      DivAtLeast(orders[0].price, 1.0, p.cost / p.filled);
    }
  }

  // ---------------------------------------------------------------------------
  // get_order_book

  /** The simulated ladders step 0.1% per level around the router price. */
  const PRICE_STEP: real := 0.001
  const BASE_VOLUME: real := 1000.0
  /** The amount the report prices a fill for. */
  const TARGET_AMOUNT: real := 1000.0
  /** The summary totals cover only the first 10 levels of each side. */
  const SUMMARY_LEVELS: nat := 10

  /** get_token_price (get_pols_pancake.py:314-331): the router output for 10^18 wei, in tokens. */
  function TokenPrice(amountOut: Option<nat>): Option<real>
  {
    match amountOut
    case None => None
    case Some(out) => Some(out as real / 1000000000000000000.0)
  }

  /** The i-th simulated ask: 0.1% dearer per level, with shrinking volume. */
  function AskLevel(price: real, i: nat): Level
  {
    Level(price * (1.0 + (i + 1) as real * PRICE_STEP), BASE_VOLUME / (1.0 + i as real * 0.2))
  }

  /** The i-th simulated bid: 0.1% cheaper per level, with growing volume. */
  function BidLevel(price: real, i: nat): Level
  {
    Level(price * (1.0 - (i + 1) as real * PRICE_STEP), BASE_VOLUME * (1.0 + i as real * 0.1))
  }

  /** The summary get_order_book returns. */
  datatype SimulatedBook = SimulatedBook(
    bids: seq<Level>,
    asks: seq<Level>,
    totalBidVolume: real,
    totalAskVolume: real,
    spread: real,
    spreadPercent: real,
    currentPrice: real,
    buyInfo: AverageResult,
    sellInfo: AverageResult)

  function Min(a: nat, b: nat): nat
  {
    if a < b then a else b
  }

  /**
   * get_order_book (get_pols_pancake.py:155-258): `amountOut` is the router's
   * output for one POLS in wei (None when the call raised). A falsy price and
   * the `asks[0]` of an empty ladder give None.
   */
  method GetOrderBook(amountOut: Option<nat>, depth: nat) returns (r: Option<SimulatedBook>)
    ensures r.None? <==> amountOut.None? || amountOut.value == 0 || depth == 0
    ensures r.Some? ==>
      var price := TokenPrice(amountOut).value;
      var b := r.value;
      && b.currentPrice == price
      && |b.asks| == depth && |b.bids| == depth
      && (forall i :: 0 <= i < depth ==> b.asks[i] == AskLevel(price, i) && b.bids[i] == BidLevel(price, i))
      && b.totalAskVolume == TotalQuantity(b.asks[..Min(SUMMARY_LEVELS, depth)])
      && b.totalBidVolume == TotalQuantity(b.bids[..Min(SUMMARY_LEVELS, depth)])
      && b.spread == b.asks[0].price - b.bids[0].price
      && b.bids[0].price != 0.0 && b.spreadPercent == b.spread / b.bids[0].price * 100.0
      && b.buyInfo == AveragePrice(b.asks, TARGET_AMOUNT, true)
      && b.sellInfo == AveragePrice(b.bids, TARGET_AMOUNT, false)
  {
    var current := TokenPrice(amountOut);
    if current.None? || current.value == 0.0 {
      return None;
    }
    var price := current.value;
    assert price > 0.0;
    var bids: seq<Level> := [];
    var asks: seq<Level> := [];
    for i := 0 to depth
      invariant |asks| == i && |bids| == i
      invariant forall j :: 0 <= j < i ==> asks[j] == AskLevel(price, j) && bids[j] == BidLevel(price, j)
    {
      asks := asks + [AskLevel(price, i)];
      bids := bids + [BidLevel(price, i)];
    }
    // The ladders are built in order already, so sorting them leaves them unchanged.
    if depth == 0 {
      return None;
    }
    SimulatedFills(price, asks, bids);
    var buyInfo := CalculateAveragePrice(asks, TARGET_AMOUNT, true);
    var sellInfo := CalculateAveragePrice(bids, TARGET_AMOUNT, false);
    var n := Min(SUMMARY_LEVELS, depth);
    var totalAskVolume := 0.0;
    var j := n;
    while j > 0
      invariant 0 <= j <= n
      invariant totalAskVolume == TotalQuantity(asks[..n][j..])
    {
      j := j - 1;
      TotalQuantityStep(asks[..n], j);
      totalAskVolume := totalAskVolume + asks[j].quantity;
    }
    assert asks[..n][0..] == asks[..n];
    var totalBidVolume := 0.0;
    for k := 0 to n
      invariant totalBidVolume + TotalQuantity(bids[..n][k..]) == TotalQuantity(bids[..n])
    {
      TotalQuantityStep(bids[..n], k);
      totalBidVolume := totalBidVolume + bids[k].quantity;
    }
    assert bids[..n][n..] == [];
    var spread := asks[0].price - bids[0].price;
    var spreadPercent := spread / bids[0].price * 100.0;
    r := Some(SimulatedBook(bids, asks, totalBidVolume, totalAskVolume, spread, spreadPercent, price, buyInfo, sellInfo));
  }

  /**
   * On the simulated ladders for a positive price: asks strictly ascend and
   * bids strictly descend, the first level of each side holds exactly the
   * 1000 POLS priced, so the averages are the best ask `p * 1.001` and best
   * bid `p * 0.999` with no slippage, and the spread is `0.002 p`.
   */
  lemma SimulatedFills(price: real, asks: seq<Level>, bids: seq<Level>)
    requires price > 0.0 && |asks| > 0 && |bids| > 0
    requires forall j :: 0 <= j < |asks| ==> asks[j] == AskLevel(price, j)
    requires forall j :: 0 <= j < |bids| ==> bids[j] == BidLevel(price, j)
    ensures forall i, j :: 0 <= i < j < |asks| ==> asks[i].price < asks[j].price
    ensures forall i, j :: 0 <= i < j < |bids| ==> bids[i].price > bids[j].price
    ensures AveragePrice(asks, TARGET_AMOUNT, true) == Filled(AverageInfo(price * 1.001, 1000.0 * (price * 1.001), 1000.0, 0.0))
    ensures AveragePrice(bids, TARGET_AMOUNT, false) == Filled(AverageInfo(price * 0.999, 1000.0 * (price * 0.999), 1000.0, 0.0))
    ensures asks[0].price - bids[0].price == 0.002 * price && bids[0].price != 0.0
  {
    AsksAscend(price, asks);
    BidsDescend(price, bids);
    SimulatedBuyFill(price, asks);
    SimulatedSellFill(price, bids);
    assert asks[0] == AskLevel(price, 0) && bids[0] == BidLevel(price, 0);
  }

  /** The simulated asks strictly ascend. */
  lemma AsksAscend(price: real, asks: seq<Level>)
    requires price > 0.0
    requires forall j :: 0 <= j < |asks| ==> asks[j] == AskLevel(price, j)
    ensures forall i, j :: 0 <= i < j < |asks| ==> asks[i].price < asks[j].price
  {
    forall i, j | 0 <= i < j < |asks| ensures asks[i].price < asks[j].price {
      assert asks[j].price - asks[i].price == price * ((j - i) as real * PRICE_STEP);
    }
  }

  /** The simulated bids strictly descend. */
  lemma BidsDescend(price: real, bids: seq<Level>)
    requires price > 0.0
    requires forall j :: 0 <= j < |bids| ==> bids[j] == BidLevel(price, j)
    ensures forall i, j :: 0 <= i < j < |bids| ==> bids[i].price > bids[j].price
  {
    forall i, j | 0 <= i < j < |bids| ensures bids[i].price > bids[j].price {
      assert bids[i].price - bids[j].price == price * ((j - i) as real * PRICE_STEP);
    }
  }

  /** The first simulated ask alone fills the 1000 POLS, at `p * 1.001`. */
  lemma SimulatedBuyFill(price: real, asks: seq<Level>)
    requires price > 0.0 && |asks| > 0 && asks[0] == AskLevel(price, 0)
    ensures AveragePrice(asks, TARGET_AMOUNT, true) == Filled(AverageInfo(price * 1.001, 1000.0 * (price * 1.001), 1000.0, 0.0))
  {
    assert asks[0] == Level(price * 1.001, 1000.0);
    FillTargetHead(asks, TARGET_AMOUNT, 0.0, 0.0);
    assert FillTarget(asks, TARGET_AMOUNT, 0.0, 0.0) == Progress(1000.0, 1000.0 * (price * 1.001));
    assert 1000.0 * (price * 1.001) / 1000.0 == price * 1.001;
  }

  /** The first simulated bid alone fills the 1000 POLS, at `p * 0.999`. */
  lemma SimulatedSellFill(price: real, bids: seq<Level>)
    requires price > 0.0 && |bids| > 0 && bids[0] == BidLevel(price, 0)
    ensures AveragePrice(bids, TARGET_AMOUNT, false) == Filled(AverageInfo(price * 0.999, 1000.0 * (price * 0.999), 1000.0, 0.0))
  {
    assert bids[0] == Level(price * 0.999, 1000.0);
    FillTargetHead(bids, TARGET_AMOUNT, 0.0, 0.0);
    assert FillTarget(bids, TARGET_AMOUNT, 0.0, 0.0) == Progress(1000.0, 1000.0 * (price * 0.999));
    assert 1000.0 * (price * 0.999) / 1000.0 == price * 0.999;
  }

  // ---------------------------------------------------------------------------
  // calculate_moving_average

  /** The mean of the `period` prices ending at index `i`. */
  function WindowAverage(prices: seq<real>, period: nat, i: nat): real
    requires 1 <= period && period - 1 <= i < |prices|
  {
    Sum(prices[i - (period - 1)..i + 1]) / period as real
  }

  /** The entry calculate_moving_average gives for index `i`: None before the first full window. */
  function MovingAverageEntry(prices: seq<real>, period: nat, i: nat): Option<real>
    requires 1 <= period && i < |prices|
  {
    if i < period - 1 then None else Some(WindowAverage(prices, period, i))
  }

  /**
   * calculate_moving_average (get_pols_pancake.py:344-359) as a value: [] for
   * too few prices; with some prices a period of 0 divides by zero (None).
   */
  function MovingAverages(prices: seq<real>, period: nat): Option<seq<Option<real>>>
  {
    if |prices| == 0 || |prices| < period then Some([])
    else if period == 0 then None
    else Some(seq(|prices|, i requires 0 <= i < |prices| => MovingAverageEntry(prices, period, i)))
  }

  /** calculate_moving_average: one entry appended per price. */
  method CalculateMovingAverage(prices: seq<real>, period: nat) returns (r: Option<seq<Option<real>>>)
    ensures r == MovingAverages(prices, period)
  {
    if |prices| == 0 || |prices| < period {
      return Some([]);
    }
    if period == 0 {
      return None;
    }
    var averages: seq<Option<real>> := [];
    for i := 0 to |prices|
      invariant |averages| == i
      invariant forall j :: 0 <= j < i ==> averages[j] == MovingAverageEntry(prices, period, j)
    {
      if i < period - 1 {
        averages := averages + [None];
      } else {
        var window := prices[i - (period - 1)..i + 1];
        averages := averages + [Some(Sum(window) / period as real)];
      }
    }
    assert averages == seq(|prices|, i requires 0 <= i < |prices| => MovingAverageEntry(prices, period, i));
    r := Some(averages);
  }

  /**
   * With enough prices the list has one entry per price, None exactly before
   * the first full window, and every average within the prices' range.
   */
  lemma MovingAveragesShape(prices: seq<real>, period: nat, lo: real, hi: real)
    requires 1 <= period <= |prices|
    requires forall i :: 0 <= i < |prices| ==> lo <= prices[i] <= hi
    ensures MovingAverages(prices, period).Some?
    ensures var r := MovingAverages(prices, period).value;
      && |r| == |prices|
      && (forall i :: 0 <= i < |r| ==> (r[i].None? <==> i < period - 1))
      && (forall i :: 0 <= i < |r| && r[i].Some? ==> lo <= r[i].value <= hi)
  {
    var r := MovingAverages(prices, period).value;
    forall i | 0 <= i < |r| && r[i].Some? ensures lo <= r[i].value <= hi {
      var window := prices[i - (period - 1)..i + 1];
      SumBounds(window, lo, hi);
      DivAtLeast(Sum(window), lo, period as real);
      DivAtMost(Sum(window), hi, period as real);
    }
  }

  /** The last 10-period entry is the strategy's moving average of the same prices. */
  lemma MovingAveragesMatchStrategy(prices: seq<real>)
    requires |prices| >= TradingStrategy.MA_PERIODS
    ensures MovingAverages(prices, 10).Some?
    ensures MovingAverages(prices, 10).value[|prices| - 1] == TradingStrategy.MovingAverage(prices)
  {
    assert prices[|prices| - 1 - 9..|prices| - 1 + 1] == prices[|prices| - 10..];
  }
}
