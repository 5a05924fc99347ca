/**
 * The chat notifier (telegram_notifier.py): the fee-only arbitrage evaluator,
 * the significance gate that decides whether an alert is sent, and the two
 * configuration commands that change the threshold and the trade size. The
 * chat transport is left out: an alert handed to `send_message` is appended
 * to the `sent` field, and a command's reply is its return value.
 */
module TelegramNotifier {
  import opened Wrappers
  import opened ExchangeBase
  import KucoinExchange
  import PancakeSwapExchange

  /** Venue fees used by the evaluator (telegram_notifier.py:218-219). */
  const KUCOIN_FEE: real := 0.001
  const PANCAKESWAP_FEE: real := 0.0025

  /** The alert threshold, in percent, a new notifier starts with. */
  const INITIAL_THRESHOLD: real := 0.5

  /** One itemised line of a route: an amount, a fixed text, or the final profit. */
  datatype Line =
    | Money(caption: string, amount: real)
    | Note(text: string)
    | Final(caption: string, amount: real, percentage: real)

  /** One direction of the round trip: profit, percentage and itemised steps. */
  datatype Route = Route(profit: real, profitPercentage: real, steps: seq<Line>)

  /** Both directions, keyed as the source's dictionary is. */
  datatype Gains = Gains(kucoinToPancakeswap: Route, pancakeswapToKucoin: Route)

  /** The percentage divides by a buy cost of 0 (ZeroDivisionError). */
  datatype GainsError = ZeroBuyCost

  /** Profit as a percentage of a buy cost. */
  function Percentage(profit: real, cost: real): real
    requires cost != 0.0
  {
    profit / cost * 100.0
  }

  /** The itemised steps of a route add up to its profit and end with it. */
  predicate StepsAddUp(r: Route)
  {
    && |r.steps| == 5
    && r.steps[0].Money? && r.steps[1].Money? && r.steps[2].Money? && r.steps[3].Money?
    && r.steps[4] == Final("Profit final", r.profit, r.profitPercentage)
    && r.profit == r.steps[2].amount - r.steps[0].amount - r.steps[1].amount - r.steps[3].amount
  }

  /** K->P profit: sell on PancakeSwap, buy on KuCoin, each venue's fee on its own leg. */
  function KucoinToPancakeswapProfit(k: PriceInfo, p: PriceInfo): real
  {
    p.sellRevenue - k.buyCost - k.buyCost * KUCOIN_FEE - p.sellRevenue * PANCAKESWAP_FEE
  }

  /** P->K profit: sell on KuCoin, buy on PancakeSwap, each venue's fee on its own leg. */
  function PancakeswapToKucoinProfit(k: PriceInfo, p: PriceInfo): real
  {
    k.sellRevenue - p.buyCost - p.buyCost * PANCAKESWAP_FEE - k.sellRevenue * KUCOIN_FEE
  }

  /**
   * _calculate_arbitrage_gains exactly as written (telegram_notifier.py:212-270):
   * `kucoin_fee` and `pancakeswap_fee` are reassigned for the P->K leg before
   * the dictionary is built, so the K->P fee lines show the P->K fees.
   */
  function GainsAsWritten(k: PriceInfo, p: PriceInfo): Result<Gains, GainsError>
  {
    var kucoinBuyCost := k.buyCost;
    var pancakeswapSellRevenue := p.sellRevenue;
    var kpProfit := KucoinToPancakeswapProfit(k, p);
    var pancakeswapBuyCost := p.buyCost;
    var pancakeswapFee := pancakeswapBuyCost * PANCAKESWAP_FEE;
    var kucoinSellRevenue := k.sellRevenue;
    var kucoinFee := kucoinSellRevenue * KUCOIN_FEE;
    var pkProfit := PancakeswapToKucoinProfit(k, p);
    if kucoinBuyCost == 0.0 || pancakeswapBuyCost == 0.0 then Err(ZeroBuyCost)
    else
      var kpPct := Percentage(kpProfit, kucoinBuyCost);
      var pkPct := Percentage(pkProfit, pancakeswapBuyCost);
      Ok(Gains(
        Route(kpProfit, kpPct, [
          Money("Achat sur KuCoin", kucoinBuyCost),
          Money("Frais KuCoin", kucoinFee),
          Money("Vente sur PancakeSwap", pancakeswapSellRevenue),
          Money("Frais PancakeSwap", pancakeswapFee),
          Final("Profit final", kpProfit, kpPct)]),
        Route(pkProfit, pkPct, [
          Money("Achat sur PancakeSwap", pancakeswapBuyCost),
          Money("Frais PancakeSwap", pancakeswapFee),
          Money("Vente sur kucoin", kucoinSellRevenue),
          Money("Frais KuCoin", kucoinFee),
          Final("Profit final", pkProfit, pkPct)])))
  }

  /** With the source's stale fee values the K->P steps need not add up to the K->P profit. */
  lemma AsWrittenStepsDisagree()
    ensures var k := PriceInfo(1.0, 1.0, 0.99, 1000.0, 990.0, "");
            var p := PriceInfo(1.0, 1.01, 1.05, 1010.0, 1050.0, "");
      && GainsAsWritten(k, p).Ok?
      && GainsAsWritten(k, p).value.kucoinToPancakeswap.profit == 46.375
      && GainsAsWritten(k, p).value.kucoinToPancakeswap.steps[1] == Money("Frais KuCoin", 0.99)
      && !StepsAddUp(GainsAsWritten(k, p).value.kucoinToPancakeswap)
  {
    var k := PriceInfo(1.0, 1.0, 0.99, 1000.0, 990.0, "");
    var p := PriceInfo(1.0, 1.01, 1.05, 1010.0, 1050.0, "");
    var route := GainsAsWritten(k, p).value.kucoinToPancakeswap;
    assert route.steps[2].amount - route.steps[0].amount - route.steps[1].amount - route.steps[3].amount == 46.485;
  }

  /**
   * The evaluator with each direction's steps showing the fees that direction
   * pays: the same profits and percentages as the source, on gross buy cost.
   */
  function ArbitrageGains(k: PriceInfo, p: PriceInfo): Result<Gains, GainsError>
  {
    if k.buyCost == 0.0 || p.buyCost == 0.0 then Err(ZeroBuyCost)
    else
      var kpProfit := KucoinToPancakeswapProfit(k, p);
      var pkProfit := PancakeswapToKucoinProfit(k, p);
      var kpPct := Percentage(kpProfit, k.buyCost);
      var pkPct := Percentage(pkProfit, p.buyCost);
      Ok(Gains(
        Route(kpProfit, kpPct, [
          Money("Achat sur KuCoin", k.buyCost),
          Money("Frais KuCoin", k.buyCost * KUCOIN_FEE),
          Money("Vente sur PancakeSwap", p.sellRevenue),
          Money("Frais PancakeSwap", p.sellRevenue * PANCAKESWAP_FEE),
          Final("Profit final", kpProfit, kpPct)]),
        Route(pkProfit, pkPct, [
          Money("Achat sur PancakeSwap", p.buyCost),
          Money("Frais PancakeSwap", p.buyCost * PANCAKESWAP_FEE),
          Money("Vente sur kucoin", k.sellRevenue),
          Money("Frais KuCoin", k.sellRevenue * KUCOIN_FEE),
          Final("Profit final", pkProfit, pkPct)])))
  }

  /**
   * The evaluator fails exactly on a zero buy cost; otherwise both directions
   * carry five steps that add up to their profit, each profit is net sell
   * revenue minus fee-inclusive buy cost, and the percentage is taken over the
   * gross buy cost.
   */
  lemma ArbitrageGainsCorrect(k: PriceInfo, p: PriceInfo)
    ensures ArbitrageGains(k, p).Err? <==> k.buyCost == 0.0 || p.buyCost == 0.0
    ensures ArbitrageGains(k, p).Ok? ==> var g := ArbitrageGains(k, p).value;
      && StepsAddUp(g.kucoinToPancakeswap) && StepsAddUp(g.pancakeswapToKucoin)
      && g.kucoinToPancakeswap.profit == p.sellRevenue * (1.0 - PANCAKESWAP_FEE) - k.buyCost * (1.0 + KUCOIN_FEE)
      && g.pancakeswapToKucoin.profit == k.sellRevenue * (1.0 - KUCOIN_FEE) - p.buyCost * (1.0 + PANCAKESWAP_FEE)
      && g.kucoinToPancakeswap.profitPercentage * k.buyCost == g.kucoinToPancakeswap.profit * 100.0
      && g.pancakeswapToKucoin.profitPercentage * p.buyCost == g.pancakeswapToKucoin.profit * 100.0
  {
    if k.buyCost != 0.0 && p.buyCost != 0.0 {
      var g := ArbitrageGains(k, p).value;
      assert g.kucoinToPancakeswap.profit / k.buyCost * k.buyCost == g.kucoinToPancakeswap.profit;
      assert g.pancakeswapToKucoin.profit / p.buyCost * p.buyCost == g.pancakeswapToKucoin.profit;
    }
  }

  /** Fixing the displayed fees changes nothing else: profits and percentages are the source's. */
  lemma ArbitrageGainsAgreesWithSource(k: PriceInfo, p: PriceInfo)
    ensures ArbitrageGains(k, p).Err? <==> GainsAsWritten(k, p).Err?
    ensures ArbitrageGains(k, p).Ok? ==>
      var fixed := ArbitrageGains(k, p).value; var written := GainsAsWritten(k, p).value;
      && fixed.kucoinToPancakeswap.profit == written.kucoinToPancakeswap.profit
      && fixed.kucoinToPancakeswap.profitPercentage == written.kucoinToPancakeswap.profitPercentage
      && fixed.pancakeswapToKucoin == written.pancakeswapToKucoin
  {
  }

  /** The two directions of an alert. */
  datatype Direction = KucoinToPancakeswap | PancakeswapToKucoin

  /** One direction's part of an alert message. */
  datatype Section = Section(direction: Direction, lines: seq<Line>)

  /** The alert message: one section per qualifying direction, K->P first. */
  datatype Alert = Alert(sections: seq<Section>)

  /** The K->P section as the gate writes it (telegram_notifier.py:293-301). */
  function KucoinToPancakeswapSection(profit: real, kucoinBuyCost: real, pancakeBuyCost: real, pct: real): Section
  {
    Section(KucoinToPancakeswap, [
      Money("Achat sur kucoin", kucoinBuyCost),
      Money("Frais KuCoin", kucoinBuyCost * 0.001),
      Note("Transfert BSC: -0.1%"),
      Money("Vente sur pancakeswap", pancakeBuyCost),
      Money("Frais PancakeSwap", pancakeBuyCost * 0.0025),
      Final("Profit final", profit, pct)])
  }

  /** The P->K section as the gate writes it (telegram_notifier.py:303-312). */
  function PancakeswapToKucoinSection(profit: real, kucoinBuyCost: real, pancakeBuyCost: real, pct: real): Section
  {
    Section(PancakeswapToKucoin, [
      Money("Achat sur pancakeswap", pancakeBuyCost),
      Money("Frais PancakeSwap", pancakeBuyCost * 0.0025),
      Note("Transfert BSC: -0.1%"),
      Money("Vente sur kucoin", kucoinBuyCost),
      Money("Frais KuCoin", kucoinBuyCost * 0.001),
      Final("Profit final", profit, pct)])
  }

  /** The profit, as a percentage, that a direction's section reports. */
  function SectionPercentage(direction: Direction, kpPct: real, pkPct: real): real
  {
    if direction == KucoinToPancakeswap then kpPct else pkPct
  }

  /**
   * _check_significant_arbitrage (telegram_notifier.py:272-325): the alert (if
   * any) for one evaluation. A zero buy cost raises inside the gate, which is
   * caught and sends nothing.
   */
  function SignificantArbitrage(kpProfit: real, pkProfit: real, kucoinBuyCost: real, pancakeBuyCost: real,
                                threshold: real): (r: Option<Alert>)
    ensures kucoinBuyCost == 0.0 || pancakeBuyCost == 0.0 ==> r.None?
    ensures kucoinBuyCost != 0.0 && pancakeBuyCost != 0.0 ==>
      (r.Some? <==> (Percentage(kpProfit, kucoinBuyCost) > threshold || Percentage(pkProfit, pancakeBuyCost) > threshold))
    ensures r.Some? ==> 1 <= |r.value.sections| <= 2 && kucoinBuyCost != 0.0 && pancakeBuyCost != 0.0
    ensures r.Some? ==> (r.value.sections ==
      (if Percentage(kpProfit, kucoinBuyCost) > threshold
       then [KucoinToPancakeswapSection(kpProfit, kucoinBuyCost, pancakeBuyCost, Percentage(kpProfit, kucoinBuyCost))]
       else [])
      + (if Percentage(pkProfit, pancakeBuyCost) > threshold
         then [PancakeswapToKucoinSection(pkProfit, kucoinBuyCost, pancakeBuyCost, Percentage(pkProfit, pancakeBuyCost))]
         else []))
    ensures r.Some? ==>
      (r.value.sections[0].direction == KucoinToPancakeswap <==> Percentage(kpProfit, kucoinBuyCost) > threshold)
    ensures r.Some? ==>
      (r.value.sections[|r.value.sections| - 1].direction == PancakeswapToKucoin <==> Percentage(pkProfit, pancakeBuyCost) > threshold)
    ensures r.Some? ==> forall i :: 0 <= i < |r.value.sections| ==>
      (var s := r.value.sections[i];
       var pct := SectionPercentage(s.direction, Percentage(kpProfit, kucoinBuyCost), Percentage(pkProfit, pancakeBuyCost));
       && pct > threshold
       && |s.lines| == 6
       && s.lines[5] == Final("Profit final", if s.direction == KucoinToPancakeswap then kpProfit else pkProfit, pct))
  {
    if kucoinBuyCost == 0.0 || pancakeBuyCost == 0.0 then None
    else
      var kpPct := Percentage(kpProfit, kucoinBuyCost);
      var pkPct := Percentage(pkProfit, pancakeBuyCost);
      if kpPct > threshold || pkPct > threshold then
        var first := if kpPct > threshold then [KucoinToPancakeswapSection(kpProfit, kucoinBuyCost, pancakeBuyCost, kpPct)] else [];
        var second := if pkPct > threshold then [PancakeswapToKucoinSection(pkProfit, kucoinBuyCost, pancakeBuyCost, pkPct)] else [];
        Some(Alert(first + second))
      else None
  }

  /** Strict threshold: a percentage equal to the threshold does not alert, anything above does. */
  lemma GateBoundary(kucoinBuyCost: real, pancakeBuyCost: real, threshold: real, epsilon: real)
    requires kucoinBuyCost > 0.0 && pancakeBuyCost > 0.0 && epsilon > 0.0
    ensures var atThreshold := threshold * kucoinBuyCost / 100.0;
            var below := threshold * pancakeBuyCost / 100.0;
      SignificantArbitrage(atThreshold, below, kucoinBuyCost, pancakeBuyCost, threshold).None?
    ensures var above := (threshold + epsilon) * kucoinBuyCost / 100.0;
            var below := threshold * pancakeBuyCost / 100.0;
      SignificantArbitrage(above, below, kucoinBuyCost, pancakeBuyCost, threshold).Some?
  {
    var k := kucoinBuyCost;
    var p := pancakeBuyCost;
    assert Percentage(threshold * k / 100.0, k) == threshold;
    assert Percentage(threshold * p / 100.0, p) == threshold;
    assert Percentage((threshold + epsilon) * k / 100.0, k) == threshold + epsilon;
  }

  /** The alert the gate computes, as the sequence of messages it sends (none or one). */
  function Sent(alert: Option<Alert>): (s: seq<Alert>)
    ensures alert.None? ==> s == []
    ensures alert.Some? ==> s == [alert.value]
  {
    if alert.Some? then [alert.value] else []
  }

  /** An ASCII digit, the characters str.isdigit accepts in this model. */
  predicate IsDigit(c: char)
  {
    '0' <= c <= '9'
  }

  /** Every character is a digit. */
  predicate AllDigits(s: string)
  {
    forall i :: 0 <= i < |s| ==> IsDigit(s[i])
  }

  /** Every character is a digit or a dot. */
  predicate DigitsOrDots(s: string)
  {
    forall i :: 0 <= i < |s| ==> IsDigit(s[i]) || s[i] == '.'
  }

  /** str.isdigit: non-empty and only digits. */
  predicate IsDigits(s: string)
  {
    |s| > 0 && AllDigits(s)
  }

  /** Some digit of the text is not `0`. */
  predicate HasNonZeroDigit(s: string)
  {
    exists i :: 0 <= i < |s| && IsDigit(s[i]) && s[i] != '0'
  }

  /** str.replace('.', ''): the text with every dot removed. */
  function RemoveDots(s: string): (r: string)
    ensures |r| <= |s|
  {
    if |s| == 0 then "" else (if s[0] == '.' then "" else [s[0]]) + RemoveDots(s[1..])
  }

  /** Number of dots in a text. */
  function CountDots(s: string): nat
  {
    if |s| == 0 then 0 else (if s[0] == '.' then 1 else 0) + CountDots(s[1..])
  }

  function DigitValue(c: char): nat
    requires IsDigit(c)
  {
    (c as int - '0' as int) as nat
  }

  lemma CharClassesConcat(a: string, b: string)
    ensures AllDigits(a + b) <==> AllDigits(a) && AllDigits(b)
    ensures DigitsOrDots(a + b) <==> DigitsOrDots(a) && DigitsOrDots(b)
    ensures HasNonZeroDigit(a + b) <==> HasNonZeroDigit(a) || HasNonZeroDigit(b)
  {
    if HasNonZeroDigit(a + b) {
      var i :| 0 <= i < |a + b| && IsDigit((a + b)[i]) && (a + b)[i] != '0';
      if i >= |a| {
        assert b[i - |a|] == (a + b)[i];
      } else {
        assert a[i] == (a + b)[i];
      }
    }
    if HasNonZeroDigit(a) {
      var i :| 0 <= i < |a| && IsDigit(a[i]) && a[i] != '0';
      assert (a + b)[i] == a[i];
    }
    if HasNonZeroDigit(b) {
      var i :| 0 <= i < |b| && IsDigit(b[i]) && b[i] != '0';
      assert (a + b)[|a| + i] == b[i];
    }
    if AllDigits(a) && AllDigits(b) {
      forall i | 0 <= i < |a + b| ensures IsDigit((a + b)[i]) {
        if i >= |a| { assert (a + b)[i] == b[i - |a|]; }
      }
    }
    if AllDigits(a + b) {
      forall i | 0 <= i < |a| ensures IsDigit(a[i]) {
        assert (a + b)[i] == a[i];
      }
      forall i | 0 <= i < |b| ensures IsDigit(b[i]) {
        assert (a + b)[|a| + i] == b[i];
      }
    }
    if DigitsOrDots(a) && DigitsOrDots(b) {
      forall i | 0 <= i < |a + b| ensures IsDigit((a + b)[i]) || (a + b)[i] == '.' {
        if i >= |a| { assert (a + b)[i] == b[i - |a|]; }
      }
    }
    if DigitsOrDots(a + b) {
      forall i | 0 <= i < |a| ensures IsDigit(a[i]) || a[i] == '.' {
        assert (a + b)[i] == a[i];
      }
      forall i | 0 <= i < |b| ensures IsDigit(b[i]) || b[i] == '.' {
        assert (a + b)[|a| + i] == b[i];
      }
    }
  }

  /** Splitting off the first character of a text. */
  lemma CharClassesHead(s: string)
    requires |s| > 0
    ensures AllDigits(s) <==> IsDigit(s[0]) && AllDigits(s[1..])
    ensures DigitsOrDots(s) <==> (IsDigit(s[0]) || s[0] == '.') && DigitsOrDots(s[1..])
    ensures HasNonZeroDigit(s) <==> (IsDigit(s[0]) && s[0] != '0') || HasNonZeroDigit(s[1..])
  {
    assert s == [s[0]] + s[1..];
    CharClassesConcat([s[0]], s[1..]);
  }

  /**
   * Left-to-right decimal reading of digits and at most one dot: `whole` is the
   * integer part so far, `frac / scale` the fractional part so far.
   */
  function ReadDecimal(s: string, seenDot: bool, whole: nat, frac: nat, scale: nat): Option<real>
    requires scale >= 1
  {
    if |s| == 0 then Some(whole as real + frac as real / scale as real)
    else if s[0] == '.' then
      if seenDot then None else ReadDecimal(s[1..], true, whole, frac, scale)
    else if IsDigit(s[0]) then
      if seenDot then ReadDecimal(s[1..], true, whole, frac * 10 + DigitValue(s[0]), scale * 10)
      else ReadDecimal(s[1..], false, whole * 10 + DigitValue(s[0]), frac, scale)
    else None
  }

  /**
   * Python's float() on a text of ASCII digits and dots (the only texts the
   * threshold guard lets through): it needs a digit and at most one dot.
   */
  function Float(s: string): Option<real>
  {
    if |RemoveDots(s)| == 0 then None else ReadDecimal(s, false, 0, 0, 1)
  }

  /** Python's int() on a text of ASCII digits. */
  function ReadInt(s: string, acc: nat): nat
    requires AllDigits(s)
  {
    if |s| == 0 then acc else ReadInt(s[1..], acc * 10 + DigitValue(s[0]))
  }

  /** On a text of digits and dots, reading fails exactly when a second dot appears. */
  lemma {:induction false} ReadDecimalFailsOnSecondDot(s: string, seenDot: bool, whole: nat, frac: nat, scale: nat)
    requires scale >= 1 && DigitsOrDots(s)
    ensures ReadDecimal(s, seenDot, whole, frac, scale).None? <==> CountDots(s) + (if seenDot then 1 else 0) >= 2
  {
    if |s| > 0 {
      CharClassesHead(s);
      ReadDecimalFailsOnSecondDot(s[1..], seenDot || s[0] == '.',
        if IsDigit(s[0]) && !seenDot then whole * 10 + DigitValue(s[0]) else whole,
        if IsDigit(s[0]) && seenDot then frac * 10 + DigitValue(s[0]) else frac,
        if IsDigit(s[0]) && seenDot then scale * 10 else scale);
    }
  }

  /** A successful reading is non-negative, and positive exactly when some digit is not zero. */
  lemma {:induction false} ReadDecimalPositive(s: string, seenDot: bool, whole: nat, frac: nat, scale: nat)
    requires scale >= 1 && ReadDecimal(s, seenDot, whole, frac, scale).Some?
    ensures ReadDecimal(s, seenDot, whole, frac, scale).value >= 0.0
    ensures ReadDecimal(s, seenDot, whole, frac, scale).value > 0.0 <==> (whole > 0 || frac > 0 || HasNonZeroDigit(s))
  {
    if |s| == 0 {
      assert frac as real / scale as real >= 0.0;
      assert frac > 0 ==> frac as real / scale as real > 0.0;
    } else {
      CharClassesHead(s);
      ReadDecimalPositive(s[1..], seenDot || s[0] == '.',
        if IsDigit(s[0]) && !seenDot then whole * 10 + DigitValue(s[0]) else whole,
        if IsDigit(s[0]) && seenDot then frac * 10 + DigitValue(s[0]) else frac,
        if IsDigit(s[0]) && seenDot then scale * 10 else scale);
    }
  }

  /** int() of a digit text is positive exactly when some digit is not zero. */
  lemma {:induction false} ReadIntPositive(s: string, acc: nat)
    requires AllDigits(s)
    ensures ReadInt(s, acc) > 0 <==> (acc > 0 || HasNonZeroDigit(s))
  {
    if |s| > 0 {
      CharClassesHead(s);
      ReadIntPositive(s[1..], acc * 10 + DigitValue(s[0]));
    }
  }

  /** Removing the dots keeps exactly the digits: the guard accepts digits and dots with at least one digit. */
  lemma {:induction false} RemoveDotsDigits(s: string)
    ensures AllDigits(RemoveDots(s)) <==> DigitsOrDots(s)
    ensures HasNonZeroDigit(RemoveDots(s)) <==> HasNonZeroDigit(s)
  {
    if |s| > 0 {
      RemoveDotsDigits(s[1..]);
      CharClassesHead(s);
      var head := if s[0] == '.' then "" else [s[0]];
      CharClassesConcat(head, RemoveDots(s[1..]));
    }
  }

  /** The reply a command sends back. */
  datatype Reply =
    | Usage                         // missing or malformed argument
    | MustBePositive                // the value is not above 0
    | UpdateError                   // the conversion raised, caught by the handler
    | ThresholdUpdated(threshold: real)
    | QuantityUpdated(quantity: int)

  /**
   * _handle_set_threshold (telegram_notifier.py:84-105): digits and dots only,
   * then float(), then the positivity check.
   */
  function ThresholdReply(args: seq<string>): (r: Reply)
    ensures r.ThresholdUpdated? ==> r.threshold > 0.0 && |args| > 0 && Float(args[0]) == Some(r.threshold)
    ensures r == Usage <==> (|args| == 0 || !IsDigits(RemoveDots(args[0])))
    ensures !r.QuantityUpdated?
  {
    if |args| == 0 || !IsDigits(RemoveDots(args[0])) then Usage
    else
      match Float(args[0])
      case None => UpdateError
      case Some(v) => if v <= 0.0 then MustBePositive else ThresholdUpdated(v)
  }

  /**
   * Which texts the threshold command accepts: it updates exactly on a text of
   * digits and at most one dot with a non-zero digit; a text of digits and two
   * or more dots (such as "1.2.3") passes the guard and then fails float().
   */
  lemma ThresholdReplyCases(args: seq<string>)
    requires |args| > 0 && IsDigits(RemoveDots(args[0]))
    ensures ThresholdReply(args) == UpdateError <==> CountDots(args[0]) >= 2
    ensures ThresholdReply(args).ThresholdUpdated? <==> CountDots(args[0]) <= 1 && HasNonZeroDigit(args[0])
    ensures ThresholdReply(args) == MustBePositive <==> CountDots(args[0]) <= 1 && !HasNonZeroDigit(args[0])
  {
    var s := args[0];
    RemoveDotsDigits(s);
    ReadDecimalFailsOnSecondDot(s, false, 0, 0, 1);
    if ReadDecimal(s, false, 0, 0, 1).Some? {
      ReadDecimalPositive(s, false, 0, 0, 1);
    }
  }

  /**
   * _handle_set_quantity (telegram_notifier.py:107-136): digits only, then
   * int(), then the positivity check.
   */
  function QuantityReply(args: seq<string>): (r: Reply)
    ensures r.QuantityUpdated? ==> r.quantity > 0 && |args| > 0 && IsDigits(args[0]) && r.quantity == ReadInt(args[0], 0)
    ensures r == Usage <==> (|args| == 0 || !IsDigits(args[0]))
    ensures !r.ThresholdUpdated? && r != UpdateError
  {
    if |args| == 0 || !IsDigits(args[0]) then Usage
    else
      var v := ReadInt(args[0], 0);
      if v <= 0 then MustBePositive else QuantityUpdated(v)
  }

  /** A digit text is rejected as non-positive exactly when all its digits are zero. */
  lemma QuantityReplyCases(args: seq<string>)
    requires |args| > 0 && IsDigits(args[0])
    ensures QuantityReply(args).QuantityUpdated? <==> HasNonZeroDigit(args[0])
    ensures QuantityReply(args) == MustBePositive <==> !HasNonZeroDigit(args[0])
  {
    ReadIntPositive(args[0], 0);
  }

  /**
   * The notifier object: the runtime configuration (trade size, threshold),
   * the venue objects registered in the bot's data, and the alerts sent.
   */
  class Notifier {
    var polsQuantity: int
    var arbitrageThreshold: real
    var kucoin: KucoinExchange.KucoinExchange?
    var pancakeswap: PancakeSwapExchange.PancakeSwapExchange?
    var sent: seq<Alert>

    /** The configuration invariant: trade size and threshold are positive everywhere they are held. */
    predicate Valid()
      reads this, kucoin, pancakeswap
    {
      && polsQuantity > 0 && arbitrageThreshold > 0.0
      && (kucoin != null ==> kucoin.polsQuantity > 0)
      && (pancakeswap != null ==> pancakeswap.polsQuantity > 0)
    }

    constructor (polsQuantity: int)
      ensures this.polsQuantity == polsQuantity && arbitrageThreshold == INITIAL_THRESHOLD
      ensures kucoin == null && pancakeswap == null && sent == []
      ensures polsQuantity > 0 ==> Valid()
    {
      this.polsQuantity := polsQuantity;
      arbitrageThreshold := INITIAL_THRESHOLD;
      kucoin := null;
      pancakeswap := null;
      sent := [];
    }

    /** Registering the venue objects in the bot's data (main.py:105-107). */
    method Register(k: KucoinExchange.KucoinExchange, p: PancakeSwapExchange.PancakeSwapExchange)
      modifies this`kucoin, this`pancakeswap
      ensures kucoin == k && pancakeswap == p
    {
      kucoin := k;
      pancakeswap := p;
    }

    /** _check_significant_arbitrage: sends at most one alert, for the current threshold. */
    method CheckSignificantArbitrage(kpProfit: real, pkProfit: real, kucoinBuyCost: real, pancakeBuyCost: real)
      modifies this`sent
      ensures sent == old(sent) + Sent(SignificantArbitrage(kpProfit, pkProfit, kucoinBuyCost, pancakeBuyCost, arbitrageThreshold))
    {
      var alert := SignificantArbitrage(kpProfit, pkProfit, kucoinBuyCost, pancakeBuyCost, arbitrageThreshold);
      if alert.Some? {
        sent := sent + [alert.value];
      }
    }

    /**
     * _calculate_arbitrage_gains for two venue quotes: runs the gate on the
     * routes' profits and gross buy costs, then returns the evaluation as the
     * source builds it, with the reassigned fee lines in the K->P route. Its
     * failures, profits and percentages are those of the corrected evaluator.
     */
    method CalculateArbitrageGains(k: PriceInfo, p: PriceInfo) returns (r: Result<Gains, GainsError>)
      modifies this`sent
      ensures r == GainsAsWritten(k, p)
      ensures r.Err? <==> k.buyCost == 0.0 || p.buyCost == 0.0
      ensures r.Ok? ==>
        && r.value.kucoinToPancakeswap.profit == ArbitrageGains(k, p).value.kucoinToPancakeswap.profit
        && r.value.kucoinToPancakeswap.profitPercentage == ArbitrageGains(k, p).value.kucoinToPancakeswap.profitPercentage
        && r.value.pancakeswapToKucoin == ArbitrageGains(k, p).value.pancakeswapToKucoin
      ensures sent == old(sent) + Sent(SignificantArbitrage(KucoinToPancakeswapProfit(k, p),
        PancakeswapToKucoinProfit(k, p), k.buyCost, p.buyCost, arbitrageThreshold))
    {
      var kpProfit := KucoinToPancakeswapProfit(k, p);
      var pkProfit := PancakeswapToKucoinProfit(k, p);
      CheckSignificantArbitrage(kpProfit, pkProfit, k.buyCost, p.buyCost);
      ArbitrageGainsCorrect(k, p);
      ArbitrageGainsAgreesWithSource(k, p);
      r := GainsAsWritten(k, p);
    }

    /** The /set_threshold command: the threshold changes only to a positive value. */
    method HandleSetThreshold(args: seq<string>) returns (reply: Reply)
      requires Valid()
      modifies this`arbitrageThreshold
      ensures reply == ThresholdReply(args)
      ensures arbitrageThreshold == if reply.ThresholdUpdated? then reply.threshold else old(arbitrageThreshold)
      ensures Valid()
    {
      if |args| == 0 || !IsDigits(RemoveDots(args[0])) {
        return Usage;
      }
      var parsed := Float(args[0]);
      if parsed.None? {
        return UpdateError;
      }
      var newThreshold := parsed.value;
      if newThreshold <= 0.0 {
        return MustBePositive;
      }
      arbitrageThreshold := newThreshold;
      reply := ThresholdUpdated(newThreshold);
    }

    /**
     * The /set_quantity command: a valid size is copied to both registered
     * venues and to the notifier; anything else changes nothing.
     */
    method HandleSetQuantity(args: seq<string>) returns (reply: Reply)
      requires Valid()
      modifies this`polsQuantity, kucoin, pancakeswap
      ensures reply == QuantityReply(args)
      ensures kucoin == old(kucoin) && pancakeswap == old(pancakeswap)
      ensures polsQuantity == if reply.QuantityUpdated? then reply.quantity else old(polsQuantity)
      ensures kucoin != null ==>
        kucoin.polsQuantity == if reply.QuantityUpdated? then reply.quantity else old(kucoin.polsQuantity)
      ensures pancakeswap != null ==>
        pancakeswap.polsQuantity == if reply.QuantityUpdated? then reply.quantity else old(pancakeswap.polsQuantity)
      ensures Valid()
    {
      if |args| == 0 || !IsDigits(args[0]) {
        return Usage;
      }
      var newQuantity := ReadInt(args[0], 0);
      if newQuantity <= 0 {
        return MustBePositive;
      }
      if kucoin != null {
        kucoin.polsQuantity := newQuantity;
      }
      if pancakeswap != null {
        pancakeswap.polsQuantity := newQuantity;
      }
      polsQuantity := newQuantity;
      reply := QuantityUpdated(newQuantity);
    }
  }
}
