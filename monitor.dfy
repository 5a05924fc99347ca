/**
 * The monitoring script's own arbitrage evaluator (main.py): venue fees folded
 * into the buy cost and the sell revenue, plus a 0.1% loss of POLS on the
 * transfer between the chains. Its percentages are taken over the
 * fee-inclusive buy cost.
 */
module Monitor {
  import opened Wrappers
  import opened ExchangeBase
  import opened TelegramNotifier

  /** The trade size the script is configured with; the transfer loss is always applied to it. */
  const POLS_QUANTITY: int := 1000

  /** The share of POLS lost on a transfer between KuCoin and the BSC chain. */
  const BSC_TRANSFER_FEE: real := 0.001

  /** POLS that arrive on the other venue after the transfer. */
  function TransferredPols(): real
  {
    POLS_QUANTITY as real * (1.0 - BSC_TRANSFER_FEE)
  }

  /** Fee-inclusive cost of buying on KuCoin. */
  function KucoinBuyCost(k: PriceInfo): real
  {
    k.buyCost * (1.0 + KUCOIN_FEE)
  }

  /** Fee-inclusive cost of buying on PancakeSwap. */
  function PancakeswapBuyCost(p: PriceInfo): real
  {
    p.buyCost * (1.0 + PANCAKESWAP_FEE)
  }

  /** Net revenue of selling the transferred POLS on PancakeSwap. */
  function PancakeswapSellRevenue(p: PriceInfo): real
  {
    TransferredPols() * p.sellPrice * (1.0 - PANCAKESWAP_FEE)
  }

  /** Net revenue of selling the transferred POLS on KuCoin. */
  function KucoinSellRevenue(k: PriceInfo): real
  {
    TransferredPols() * k.sellPrice * (1.0 - KUCOIN_FEE)
  }

  /**
   * calculate_arbitrage_gains (main.py:36-89) for the two venue quotes. Either
   * percentage divides by a fee-inclusive buy cost, which raises when it is 0.
   */
  function TransferGains(k: PriceInfo, p: PriceInfo): Result<Gains, GainsError>
  {
    var kucoinBuyCost := KucoinBuyCost(k);
    var pancakeswapSellRevenue := PancakeswapSellRevenue(p);
    var kpProfit := pancakeswapSellRevenue - kucoinBuyCost;
    var pancakeswapBuyCost := PancakeswapBuyCost(p);
    var kucoinSellRevenue := KucoinSellRevenue(k);
    var pkProfit := kucoinSellRevenue - pancakeswapBuyCost;
    if kucoinBuyCost == 0.0 || pancakeswapBuyCost == 0.0 then Err(ZeroBuyCost)
    else
      var kpPct := Percentage(kpProfit, kucoinBuyCost);
      var pkPct := Percentage(pkProfit, pancakeswapBuyCost);
      Ok(Gains(
        Route(kpProfit, kpPct, [
          Money("Achat sur KuCoin", k.buyCost),
          Money("Frais KuCoin", k.buyCost * KUCOIN_FEE),
          Note("Transfert BSC: -0.1%"),
          Money("Vente sur PancakeSwap", pancakeswapSellRevenue),
          Money("Frais PancakeSwap", TransferredPols() * p.sellPrice * PANCAKESWAP_FEE),
          Final("Profit final", kpProfit, kpPct)]),
        Route(pkProfit, pkPct, [
          Money("Achat sur PancakeSwap", p.buyCost),
          Money("Frais PancakeSwap", p.buyCost * PANCAKESWAP_FEE),
          Note("Transfert BSC: -0.1%"),
          Money("Vente sur KuCoin", kucoinSellRevenue),
          Money("Frais KuCoin", TransferredPols() * k.sellPrice * KUCOIN_FEE),
          Final("Profit final", pkProfit, pkPct)])))
  }

  /**
   * The itemised steps of a transfer route reconcile: the profit is the net
   * sale minus the purchase and its fee, the net sale plus the sell fee is the
   * gross sale, and the route ends with its profit and percentage.
   */
  predicate TransferStepsReconcile(r: Route)
  {
    && |r.steps| == 6
    && r.steps[0].Money? && r.steps[1].Money? && r.steps[3].Money? && r.steps[4].Money?
    && r.steps[2] == Note("Transfert BSC: -0.1%")
    && r.steps[5] == Final("Profit final", r.profit, r.profitPercentage)
    && r.profit == r.steps[3].amount - r.steps[0].amount - r.steps[1].amount
  }

  /**
   * The evaluator fails exactly when a buy cost is 0; otherwise both routes
   * have six reconciling steps, the sell fee line plus the net sale is the
   * gross sale of 999 POLS, and each percentage is over the fee-inclusive cost.
   */
  lemma TransferGainsCorrect(k: PriceInfo, p: PriceInfo)
    ensures TransferGains(k, p).Err? <==> k.buyCost == 0.0 || p.buyCost == 0.0
    ensures TransferGains(k, p).Ok? ==> var g := TransferGains(k, p).value;
      && TransferStepsReconcile(g.kucoinToPancakeswap) && TransferStepsReconcile(g.pancakeswapToKucoin)
      && g.kucoinToPancakeswap.steps[3].amount + g.kucoinToPancakeswap.steps[4].amount == 999.0 * p.sellPrice
      && g.pancakeswapToKucoin.steps[3].amount + g.pancakeswapToKucoin.steps[4].amount == 999.0 * k.sellPrice
      && g.kucoinToPancakeswap.profitPercentage * (k.buyCost * 1.001) == g.kucoinToPancakeswap.profit * 100.0
      && g.pancakeswapToKucoin.profitPercentage * (p.buyCost * 1.0025) == g.pancakeswapToKucoin.profit * 100.0
  {
    if k.buyCost != 0.0 && p.buyCost != 0.0 {
      var g := TransferGains(k, p).value;
      assert g.kucoinToPancakeswap.profit / KucoinBuyCost(k) * KucoinBuyCost(k) == g.kucoinToPancakeswap.profit;
      assert g.pancakeswapToKucoin.profit / PancakeswapBuyCost(p) * PancakeswapBuyCost(p) == g.pancakeswapToKucoin.profit;
    }
  }

  /**
   * The two evaluators compared on quotes for a trade of `n` POLS: the buy legs
   * agree, and the sell legs differ by the net value of the POLS that the
   * fixed 999-POLS transfer has instead of the quoted `n`.
   */
  lemma TransferGainsVersusNotifier(k: PriceInfo, p: PriceInfo, n: real)
    requires Consistent(k, n) && Consistent(p, n)
    requires k.buyCost != 0.0 && p.buyCost != 0.0
    ensures TransferGains(k, p).Ok? && ArbitrageGains(k, p).Ok?
    ensures TransferGains(k, p).value.kucoinToPancakeswap.profit
         == ArbitrageGains(k, p).value.kucoinToPancakeswap.profit + 0.9975 * p.sellPrice * (999.0 - n)
    ensures TransferGains(k, p).value.pancakeswapToKucoin.profit
         == ArbitrageGains(k, p).value.pancakeswapToKucoin.profit + 0.999 * k.sellPrice * (999.0 - n)
  {
    ArbitrageGainsCorrect(k, p);
    assert p.sellRevenue == p.sellPrice * n;
    assert k.sellRevenue == k.sellPrice * n;
  }

  /**
   * When the quotes are for the script's own 1000 POLS, each transfer route
   * earns exactly the transfer loss less than the notifier's route.
   */
  lemma TransferLossAtConfiguredSize(k: PriceInfo, p: PriceInfo)
    requires Consistent(k, POLS_QUANTITY as real) && Consistent(p, POLS_QUANTITY as real)
    requires k.buyCost != 0.0 && p.buyCost != 0.0
    ensures TransferGains(k, p).Ok? && ArbitrageGains(k, p).Ok?
    ensures TransferGains(k, p).value.kucoinToPancakeswap.profit
         == ArbitrageGains(k, p).value.kucoinToPancakeswap.profit - 0.001 * 0.9975 * p.sellRevenue
    ensures TransferGains(k, p).value.pancakeswapToKucoin.profit
         == ArbitrageGains(k, p).value.pancakeswapToKucoin.profit - 0.001 * 0.999 * k.sellRevenue
  {
    TransferGainsVersusNotifier(k, p, 1000.0);
  }
}
