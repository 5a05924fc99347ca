/**
 * The momentum exit strategy (trading_strategy.py): a bounded price history,
 * an arm trigger on the 10-period moving average, a ratcheting peak while
 * monitoring, and a limit sell on a 2% pullback. The venue calls of one tick
 * (price read, balance read, order placement) are the fields of a `Tick`.
 */
module TradingStrategy {
  import opened Wrappers
  import opened Series
  import KucoinExchange

  const MA_PERIODS: nat := 10
  const PRICE_INCREASE_THRESHOLD: real := 0.10
  const DROP_THRESHOLD: real := 0.02
  const LIMIT_ORDER_OFFSET: real := 0.01
  const ORDER_SIZE: real := 10.0
  /** The history keeps only the newest 100 prices. */
  const HISTORY_CAPACITY: nat := 100

  /** The history after appending a price: the newest 100 of the old prices followed by it. */
  function Appended(history: seq<real>, price: real): seq<real>
  {
    var extended := history + [price];
    if |extended| > HISTORY_CAPACITY then extended[|extended| - HISTORY_CAPACITY..] else extended
  }

  /**
   * Appending keeps at most 100 prices, ends with the new price, and keeps the
   * newest of the old ones in order: the oldest are evicted first.
   */
  lemma AppendedShape(history: seq<real>, price: real)
    ensures var r := Appended(history, price);
      && |r| == (if |history| + 1 > HISTORY_CAPACITY then HISTORY_CAPACITY else |history| + 1)
      && r[|r| - 1] == price
      && forall i :: 0 <= i < |r| - 1 ==> r[i] == history[|history| + 1 - |r| + i]
  {
  }

  /** The newest `k` prices of the appended history, for a window no larger than the capacity. */
  lemma AppendedNewest(history: seq<real>, price: real, k: nat)
    requires 1 <= k <= |history| + 1 && k <= HISTORY_CAPACITY
    ensures var r := Appended(history, price);
      k <= |r| && r[|r| - k..] == history[|history| + 1 - k..] + [price]
  {
    var r := Appended(history, price);
    var extended := history + [price];
    assert r[|r| - k..] == extended[|extended| - k..];
    assert extended[|extended| - k..] == history[|history| + 1 - k..] + [price];
  }

  /** calculate_ma (trading_strategy.py:62-74): the mean of the newest 10 prices, once there are 10. */
  function MovingAverage(history: seq<real>): Option<real>
  {
    if |history| < MA_PERIODS then None else Some(Sum(history[|history| - MA_PERIODS..]) / MA_PERIODS as real)
  }

  /** The moving average exists exactly with 10 prices and lies between the window's extremes. */
  lemma MovingAverageBounds(history: seq<real>, lo: real, hi: real)
    requires forall i :: 0 <= i < |history| ==> lo <= history[i] <= hi
    ensures MovingAverage(history).None? <==> |history| < MA_PERIODS
    ensures MovingAverage(history).Some? ==> lo <= MovingAverage(history).value <= hi
  {
    if |history| >= MA_PERIODS {
      var window := history[|history| - MA_PERIODS..];
      SumBounds(window, lo, hi);
    }
  }

  /**
   * `(price - ma) / ma > 0.10` as evaluated on the moving average's float64:
   * dividing by a zero average gives +inf for a positive numerator and NaN for
   * zero, so it arms exactly when the price is positive.
   */
  predicate Rises(price: real, ma: real)
  {
    if ma == 0.0 then price > 0.0 else (price - ma) / ma > PRICE_INCREASE_THRESHOLD
  }

  /** One strategy state: the price history and the monitoring flag with its peak. */
  datatype State = State(history: seq<real>, isMonitoring: bool, highestPrice: Option<real>)

  /** The strategy's invariant: a bounded history, and a peak exactly while monitoring. */
  predicate Valid(s: State)
  {
    |s.history| <= HISTORY_CAPACITY && (s.highestPrice.None? <==> !s.isMonitoring)
  }

  /** What create_limit_order gave back: it raised, returned a falsy value, or returned an order. */
  datatype OrderReply = Raised | Falsy | Placed(orderId: string)

  /**
   * The venue answers within one tick: the current price (None when
   * get_price_info raised), the free POLS (None when get_balance raised), and
   * the reply to the order. Only the answers the tick asks for are used.
   */
  datatype Tick = Tick(price: Option<real>, polsFree: Option<real>, order: OrderReply)

  /** What a tick did. */
  datatype Outcome =
    | NoPrice
    | Waiting
    | Armed(price: real, movingAverage: real)
    | Holding(peak: real, drop: real)
    | InsufficientBalance(polsFree: real)
    | OrderRejected
    | LimitSellPlaced(request: KucoinExchange.LimitOrder, orderId: string)
    | Reset

  /** The order the strategy places on a pullback. */
  function SellRequest(price: real): KucoinExchange.LimitOrder
  {
    KucoinExchange.LimitOrder("POLS-USDT", "sell", ORDER_SIZE, price * (1.0 - LIMIT_ORDER_OFFSET))
  }

  /**
   * check_and_update (trading_strategy.py:76-148). Every exception (comparing a
   * price with a missing peak, a zero peak, a failed balance read, a failed
   * order) resets the machine to idle but keeps the price already appended.
   */
  function Step(s: State, t: Tick): (State, Outcome)
  {
    match t.price
    case None => (s, NoPrice)
    case Some(price) =>
      var history := Appended(s.history, price);
      if !s.isMonitoring then
        match MovingAverage(history)
        case None => (State(history, false, s.highestPrice), Waiting)
        case Some(ma) =>
          if Rises(price, ma) then (State(history, true, Some(price)), Armed(price, ma))
          else (State(history, false, s.highestPrice), Waiting)
      else
        match s.highestPrice
        case None => (State(history, false, None), Reset)
        case Some(previousPeak) =>
          var peak := if price > previousPeak then price else previousPeak;
          if peak == 0.0 then (State(history, false, None), Reset)
          else
            var drop := (peak - price) / peak;
            if drop < DROP_THRESHOLD then (State(history, true, Some(peak)), Holding(peak, drop))
            else
              match t.polsFree
              case None => (State(history, false, None), Reset)
              case Some(free) =>
                if free < ORDER_SIZE then (State(history, true, Some(peak)), InsufficientBalance(free))
                else
                  match t.order
                  case Raised => (State(history, false, None), Reset)
                  case Falsy => (State(history, true, Some(peak)), OrderRejected)
                  case Placed(id) => (State(history, false, None), LimitSellPlaced(SellRequest(price), id))
  }

  /** Every tick keeps the invariant. */
  lemma StepPreservesValid(s: State, t: Tick)
    requires Valid(s)
    ensures Valid(Step(s, t).0)
  {
  }

  /**
   * A failed price read changes nothing; otherwise the history is the old one
   * with the price appended, whatever else happens in the tick.
   */
  lemma StepHistory(s: State, t: Tick)
    ensures t.price.None? ==> Step(s, t) == (s, NoPrice)
    ensures t.price.Some? ==> Step(s, t).0.history == Appended(s.history, t.price.value)
  {
  }

  /**
   * Idle -> Monitoring happens exactly on a strict rise above the moving
   * average of the appended history, sets the peak to the price, and checks no
   * drop on that tick.
   */
  lemma ArmTrigger(s: State, t: Tick)
    requires !s.isMonitoring && t.price.Some?
    ensures var ma := MovingAverage(Appended(s.history, t.price.value));
      Step(s, t).0.isMonitoring <==> ma.Some? && Rises(t.price.value, ma.value)
    ensures Step(s, t).0.isMonitoring ==>
      && Step(s, t).0.highestPrice == Some(t.price.value)
      && Step(s, t).1 == Armed(t.price.value, MovingAverage(Appended(s.history, t.price.value)).value)
    ensures !Step(s, t).0.isMonitoring ==> Step(s, t) == (State(Appended(s.history, t.price.value), false, s.highestPrice), Waiting)
  {
  }

  /**
   * While monitoring, a tick that stays in Monitoring holds the ratcheted peak:
   * never below the old peak, never below the price.
   */
  lemma PeakRatchets(s: State, t: Tick)
    requires s.isMonitoring && s.highestPrice.Some? && t.price.Some?
    requires Step(s, t).0.isMonitoring
    ensures Step(s, t).0.highestPrice.Some?
    ensures Step(s, t).0.highestPrice.value >= s.highestPrice.value
    ensures Step(s, t).0.highestPrice.value >= t.price.value
    ensures Step(s, t).0.highestPrice.value == s.highestPrice.value || Step(s, t).0.highestPrice.value == t.price.value
  {
  }

  /** For a positive price at or below a peak the pullback is a fraction in [0, 1). */
  lemma DropInUnitInterval(peak: real, price: real)
    requires 0.0 < price <= peak
    ensures 0.0 <= (peak - price) / peak < 1.0
  {
    assert (peak - price) / peak * peak == peak - price;
  }

  /**
   * The limit sell is placed exactly while monitoring with a positive peak,
   * when the pullback reaches 2%, at least 10 POLS are free and the venue
   * accepts the order; it sells 10 POLS at 1% under the price and returns the
   * machine to idle without a peak.
   */
  lemma SellTrigger(s: State, t: Tick)
    requires s.isMonitoring && s.highestPrice.Some? && t.price.Some?
    ensures var price := t.price.value;
            var peak := if price > s.highestPrice.value then price else s.highestPrice.value;
      Step(s, t).1.LimitSellPlaced? <==>
        (&& peak != 0.0 && (peak - price) / peak >= DROP_THRESHOLD
         && t.polsFree.Some? && t.polsFree.value >= ORDER_SIZE && t.order.Placed?)
    ensures Step(s, t).1.LimitSellPlaced? ==>
      && Step(s, t).1.request == KucoinExchange.LimitOrder("POLS-USDT", "sell", 10.0, t.price.value * 0.99)
      && Step(s, t).0 == State(Appended(s.history, t.price.value), false, None)
  {
  }

  /**
   * Short balance and a falsy order reply keep monitoring with the peak;
   * a raised balance read or order call resets to idle, keeping the
   * appended price.
   */
  lemma FailedSellOutcomes(s: State, t: Tick)
    requires s.isMonitoring && s.highestPrice.Some? && t.price.Some?
    ensures Step(s, t).1.InsufficientBalance? || Step(s, t).1.OrderRejected? ==>
      Step(s, t).0 == State(Appended(s.history, t.price.value), true,
        Some(if t.price.value > s.highestPrice.value then t.price.value else s.highestPrice.value))
    ensures Step(s, t).1 == Reset ==>
      Step(s, t).0 == State(Appended(s.history, t.price.value), false, None)
  {
  }

  /**
   * The moving average includes the price just appended, so on a flat history
   * at `m` a new price arms only when it is above 99/89 of `m` (about 11.2%),
   * not merely 10% above it.
   */
  lemma FlatHistoryArmingLevel(s: State, price: real, m: real, polsFree: Option<real>, order: OrderReply)
    requires !s.isMonitoring && Valid(s) && m > 0.0 && price >= 0.0
    requires |s.history| >= MA_PERIODS - 1
    requires forall i :: |s.history| - (MA_PERIODS - 1) <= i < |s.history| ==> s.history[i] == m
    ensures Step(s, Tick(Some(price), polsFree, order)).0.isMonitoring <==> 89.0 * price > 99.0 * m
  {
    var history := Appended(s.history, price);
    var old9 := s.history[|s.history| - 9..];
    AppendedNewest(s.history, price, MA_PERIODS);
    assert history[|history| - MA_PERIODS..] == old9 + [price];
    SumAppend(old9, [price]);
    SumBounds(old9, m, m);
    assert Sum([price]) == price;
    var ma := (9.0 * m + price) / 10.0;
    assert MovingAverage(history) == Some(ma);
    assert ma > 0.0;
    assert Rises(price, ma) <==> price - ma > PRICE_INCREASE_THRESHOLD * ma by {
      assert (price - ma) / ma * ma == price - ma;
    }
  }

  /**
   * An arm/disarm cycle: after ten prices of 1.0 a price of 1.12 arms with
   * the peak at 1.12, and a price 3% below that peak, with enough POLS free,
   * places the sell and returns to idle.
   */
  lemma ArmThenSellCycle(orderId: string)
    ensures var s0 := State([1.0, 1.0, 1.0, 1.0, 1.0, 1.0, 1.0, 1.0, 1.0, 1.0], false, None);
            var s1 := Step(s0, Tick(Some(1.12), None, Raised)).0;
            var r2 := Step(s1, Tick(Some(1.0864), Some(50.0), Placed(orderId)));
      && s1.isMonitoring && s1.highestPrice == Some(1.12)
      && r2.1 == LimitSellPlaced(SellRequest(1.0864), orderId)
      && !r2.0.isMonitoring && r2.0.highestPrice.None?
  {
    var s0 := State([1.0, 1.0, 1.0, 1.0, 1.0, 1.0, 1.0, 1.0, 1.0, 1.0], false, None);
    FlatHistoryArmingLevel(s0, 1.12, 1.0, None, Raised);
    var s1 := Step(s0, Tick(Some(1.12), None, Raised)).0;
    assert s1.highestPrice == Some(1.12);
    assert (1.12 - 1.0864) / 1.12 == 0.03;
  }

  /** The strategy object: its price history and monitoring state are updated in place. */
  class TradingStrategy {
    var priceHistory: seq<real>
    var isMonitoring: bool
    var highestPrice: Option<real>

    constructor ()
      ensures priceHistory == [] && !isMonitoring && highestPrice.None?
      ensures Valid(Snapshot())
    {
      priceHistory := [];
      isMonitoring := false;
      highestPrice := None;
    }

    /** The object's state as a value. */
    function Snapshot(): State
      reads this
    {
      State(priceHistory, isMonitoring, highestPrice)
    }

    /** calculate_ma on the current history. */
    function CalculateMa(): (r: Option<real>)
      reads this
      ensures r.None? <==> |priceHistory| < MA_PERIODS
    {
      MovingAverage(priceHistory)
    }

    /**
     * update_price_history (trading_strategy.py:40-60): `price` is what
     * get_price_info gave (None when it raised); a price is appended and
     * returned, a failure appends nothing.
     */
    method UpdatePriceHistory(price: Option<real>) returns (r: Option<real>)
      modifies this`priceHistory
      ensures r == price
      ensures priceHistory == if price.Some? then Appended(old(priceHistory), price.value) else old(priceHistory)
    {
      if price.None? {
        return None;
      }
      priceHistory := priceHistory + [price.value];
      if |priceHistory| > HISTORY_CAPACITY {
        priceHistory := priceHistory[|priceHistory| - HISTORY_CAPACITY..];
      }
      r := price;
    }

    /** check_and_update: one tick of the strategy, as `Step` describes it. */
    method CheckAndUpdate(t: Tick) returns (outcome: Outcome)
      modifies this
      ensures (Snapshot(), outcome) == Step(old(Snapshot()), t)
      ensures old(Valid(Snapshot())) ==> Valid(Snapshot())
    {
      ghost var before := Snapshot();
      if Valid(before) {
        StepPreservesValid(before, t);
      }
      var current := UpdatePriceHistory(t.price);
      if current.None? {
        return NoPrice;
      }
      var price := current.value;
      if !isMonitoring {
        var ma := CalculateMa();
        outcome := Waiting;
        if ma.Some? && Rises(price, ma.value) {
          isMonitoring := true;
          highestPrice := Some(price);
          outcome := Armed(price, ma.value);
        }
        return;
      }
      if highestPrice.None? {
        isMonitoring := false;
        return Reset;
      }
      if price > highestPrice.value {
        highestPrice := Some(price);
      }
      var peak := highestPrice.value;
      if peak == 0.0 {
        isMonitoring := false;
        highestPrice := None;
        return Reset;
      }
      var drop := (peak - price) / peak;
      if drop < DROP_THRESHOLD {
        return Holding(peak, drop);
      }
      if t.polsFree.None? {
        isMonitoring := false;
        highestPrice := None;
        return Reset;
      }
      if t.polsFree.value < ORDER_SIZE {
        return InsufficientBalance(t.polsFree.value);
      }
      var request := SellRequest(price);
      match t.order {
        case Raised =>
          isMonitoring := false;
          highestPrice := None;
          outcome := Reset;
        case Falsy =>
          outcome := OrderRejected;
        case Placed(id) =>
          isMonitoring := false;
          highestPrice := None;
          outcome := LimitSellPlaced(request, id);
      }
    }
  }
}
