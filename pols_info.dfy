/**
 * The stand-alone KuCoin report (get_pols_info.py): the check of the API
 * credentials in the environment, the kline rows turned into samples and
 * candles (bad rows skipped), the candle statistics, the moving averages of
 * the closes, the order-book summary and the selection of the POLS/USDT
 * balances from the account list. Every SDK response is a parameter.
 */
module PolsInfo {
  import opened Wrappers
  import opened OrderBook
  import opened Series
  import PolsPancake
  import KucoinExchange

  // ---------------------------------------------------------------------------
  // load_env_file

  /** The credentials the report needs. */
  const REQUIRED_VARS: seq<string> := ["KUCOIN_API_KEY", "KUCOIN_API_SECRET", "KUCOIN_API_PASSPHRASE"]

  /** The environment as the template written for a missing .env file leaves it. */
  const TEMPLATE: map<string, string> := map[
    "KUCOIN_API_KEY" := "votre_api_key_ici",
    "KUCOIN_API_SECRET" := "votre_api_secret_ici",
    "KUCOIN_API_PASSPHRASE" := "votre_api_passphrase_ici"]

  /** `str.lower()` on one character; only ASCII letters are modelled. */
  function LowerChar(c: char): char
  {
    if 'A' <= c <= 'Z' then (c as int + 32) as char else c
  }

  /** `str.lower()` character by character. */
  function Lower(s: string): (r: string)
    ensures |r| == |s|
    ensures forall i :: 0 <= i < |s| ==> r[i] == LowerChar(s[i])
  {
    if |s| == 0 then [] else [LowerChar(s[0])] + Lower(s[1..])
  }

  /** The value the check treats as an unedited placeholder: `votre_<name in lower case>_ici`. */
  function Placeholder(name: string): (r: string)
    ensures |r| == |name| + 10
    ensures r[..6] == "votre_" && r[|r| - 4..] == "_ici"
    ensures forall i :: 0 <= i < |name| ==> r[6 + i] == LowerChar(name[i])
  {
    "votre_" + Lower(name) + "_ici"
  }

  /** A required variable is missing when it is unset or empty, or still holds the placeholder. */
  predicate IsMissing(env: map<string, string>, name: string)
  {
    PolsPancake.IsUnset(env, name) || env[name] == Placeholder(name)
  }

  /** The required variables that are missing, in the order they are required. */
  function MissingVars(env: map<string, string>, names: seq<string>): (r: seq<string>)
    ensures forall v :: v in r <==> v in names && IsMissing(env, v)
    ensures |r| <= |names|
  {
    if |names| == 0 then []
    else (if IsMissing(env, names[0]) then [names[0]] else []) + MissingVars(env, names[1..])
  }

  /**
   * load_env_file (get_pols_info.py:24-44): with no .env file a template is
   * written and the call raises; otherwise it raises when a credential is
   * missing. `env` is the environment once the .env file is loaded.
   */
  function LoadEnvFile(envFileExists: bool, env: map<string, string>): (r: Option<PolsPancake.EnvError>)
    ensures r.None? <==> envFileExists && forall v :: v in REQUIRED_VARS ==> !IsMissing(env, v)
    ensures r == Some(PolsPancake.TemplateWritten) <==> !envFileExists
    ensures r.Some? && r.value.MissingVariables? ==>
      r.value.names == MissingVars(env, REQUIRED_VARS) && |r.value.names| > 0
  {
    if !envFileExists then Some(PolsPancake.TemplateWritten)
    else
      var missing := MissingVars(env, REQUIRED_VARS);
      if |missing| > 0 then
        assert missing[0] in missing;
        Some(PolsPancake.MissingVariables(missing))
      else None
  }

  /**
   * The template values never equal the placeholder the check looks for
   * (`votre_api_key_ici` against `votre_kucoin_api_key_ici`), so an
   * unedited template passes the check.
   */
  lemma TemplatePassesCheck()
    ensures LoadEnvFile(true, TEMPLATE) == None
  {
    forall v | v in REQUIRED_VARS ensures !IsMissing(TEMPLATE, v) {
      TemplateValueNotPlaceholder(v);
    }
  }

  /** Each template value is 7 characters shorter than the placeholder of its variable. */
  lemma TemplateValueNotPlaceholder(name: string)
    requires name in REQUIRED_VARS
    ensures name in TEMPLATE && |TEMPLATE[name]| + 7 == |Placeholder(name)|
  {
  }

  /** A credential set to the placeholder the check looks for is reported as missing. */
  lemma PlaceholderRejected(env: map<string, string>, name: string)
    requires name in REQUIRED_VARS
    ensures var r := LoadEnvFile(true, env[name := Placeholder(name)]);
      r.Some? && r.value.MissingVariables? && name in r.value.names
  {
    assert IsMissing(env[name := Placeholder(name)], name);
  }

  /** A required variable is missing when it is unset, empty, or still holds its template value. */
  predicate IsUnconfigured(env: map<string, string>, name: string)
  {
    PolsPancake.IsUnset(env, name) || (name in TEMPLATE && env[name] == TEMPLATE[name])
  }

  /** The unconfigured required variables, in the order they are required. */
  function UnconfiguredVars(env: map<string, string>, names: seq<string>): (r: seq<string>)
    ensures forall v :: v in r <==> v in names && IsUnconfigured(env, v)
    ensures |r| <= |names|
  {
    if |names| == 0 then []
    else (if IsUnconfigured(env, names[0]) then [names[0]] else []) + UnconfiguredVars(env, names[1..])
  }

  /** load_env_file with the check compared against the values the template writes. */
  function LoadEnvFileChecked(envFileExists: bool, env: map<string, string>): (r: Option<PolsPancake.EnvError>)
    ensures r.None? <==> envFileExists && forall v :: v in REQUIRED_VARS ==> !IsUnconfigured(env, v)
    ensures r == Some(PolsPancake.TemplateWritten) <==> !envFileExists
    ensures r.Some? && r.value.MissingVariables? ==>
      r.value.names == UnconfiguredVars(env, REQUIRED_VARS) && |r.value.names| > 0
  {
    if !envFileExists then Some(PolsPancake.TemplateWritten)
    else
      var missing := UnconfiguredVars(env, REQUIRED_VARS);
      if |missing| > 0 then
        assert missing[0] in missing;
        Some(PolsPancake.MissingVariables(missing))
      else None
  }

  /** With the corrected comparison, the unedited template reports every credential as missing. */
  lemma TemplateRejected()
    ensures LoadEnvFileChecked(true, TEMPLATE) == Some(PolsPancake.MissingVariables(REQUIRED_VARS))
  {
    var names := REQUIRED_VARS;
    assert UnconfiguredVars(TEMPLATE, names[3..]) == [];
    assert UnconfiguredVars(TEMPLATE, names[2..]) == [names[2]] + UnconfiguredVars(TEMPLATE, names[2..][1..]);
    assert names[2..][1..] == names[3..];
    assert UnconfiguredVars(TEMPLATE, names[1..]) == [names[1]] + UnconfiguredVars(TEMPLATE, names[1..][1..]);
    assert names[1..][1..] == names[2..];
    assert UnconfiguredVars(TEMPLATE, names) == [names[0]] + UnconfiguredVars(TEMPLATE, names[1..]);
    assert names == [names[0]] + ([names[1]] + ([names[2]] + []));
  }

  // ---------------------------------------------------------------------------
  // Kline rows

  /** One text cell of a kline row, as `int()` and `float()` convert it (None: ValueError). */
  datatype Cell = Cell(asInt: Option<int>, asFloat: Option<real>)

  type Row = seq<Cell>

  /** The rows kept by a parse that skips every row whose conversion raises, in their order. */
  function KeptRows<T>(rows: seq<Row>, parse: Row -> Option<T>): (r: seq<T>)
    ensures |r| <= |rows|
  {
    if |rows| == 0 then []
    else
      var last := parse(rows[|rows| - 1]);
      KeptRows(rows[..|rows| - 1], parse) + (if last.Some? then [last.value] else [])
  }

  /** Skipping is local: the kept rows of two batches are the kept rows of each, in order. */
  lemma {:induction false} KeptRowsConcat<T>(a: seq<Row>, b: seq<Row>, parse: Row -> Option<T>)
    ensures KeptRows(a + b, parse) == KeptRows(a, parse) + KeptRows(b, parse)
  {
    if |b| == 0 {
      assert a + b == a;
    } else {
      assert (a + b)[..|a + b| - 1] == a + b[..|b| - 1];
      KeptRowsConcat(a, b[..|b| - 1], parse);
    }
  }

  /** Every row is kept, in order, exactly when every row converts. */
  lemma {:induction false} KeptRowsAll<T>(rows: seq<Row>, parse: Row -> Option<T>)
    ensures |KeptRows(rows, parse)| == |rows| <==> forall i :: 0 <= i < |rows| ==> parse(rows[i]).Some?
    ensures (forall i :: 0 <= i < |rows| ==> parse(rows[i]).Some?) ==>
      forall i :: 0 <= i < |rows| ==> KeptRows(rows, parse)[i] == parse(rows[i]).value
  {
    if |rows| > 0 {
      var front := rows[..|rows| - 1];
      KeptRowsAll(front, parse);
      assert forall i :: 0 <= i < |front| ==> front[i] == rows[i];
      if parse(rows[|rows| - 1]).None? {
        assert |KeptRows(rows, parse)| < |rows|;
      }
    }
  }

  /** A kept entry is the conversion of some row. */
  lemma {:induction false} KeptRowsFromRows<T>(rows: seq<Row>, parse: Row -> Option<T>, k: nat)
    requires k < |KeptRows(rows, parse)|
    ensures exists i :: 0 <= i < |rows| && parse(rows[i]) == Some(KeptRows(rows, parse)[k])
  {
    var front := rows[..|rows| - 1];
    if k < |KeptRows(front, parse)| {
      KeptRowsFromRows(front, parse, k);
      var i :| 0 <= i < |front| && parse(front[i]) == Some(KeptRows(front, parse)[k]);
      assert rows[i] == front[i];
    } else {
      assert parse(rows[|rows| - 1]) == Some(KeptRows(rows, parse)[k]);
    }
  }

  /** The `prix`/`volume` sample of a 1-minute kline. */
  datatype MinuteSample = MinuteSample(timestamp: int, price: real, volume: real)

  /** A 1-minute row (get_pols_info.py:133-135): `int(k[0])`, `float(k[2])`, `float(k[5])`. */
  function ParseMinuteRow(row: Row): Option<MinuteSample>
  {
    if |row| <= 5 then None
    else if row[0].asInt.None? || row[2].asFloat.None? || row[5].asFloat.None? then None
    else Some(MinuteSample(row[0].asInt.value, row[2].asFloat.value, row[5].asFloat.value))
  }

  /** The open/close/high/low/volume candle of a 5-minute kline. */
  datatype Candle = Candle(timestamp: int, open: real, close: real, high: real, low: real, volume: real)

  /** A 5-minute row (get_pols_info.py:220-225): `int(k[0])` and `float(k[1])` to `float(k[5])`. */
  function ParseHourRow(row: Row): Option<Candle>
  {
    if |row| <= 5 then None
    else if row[0].asInt.None? || row[1].asFloat.None? || row[2].asFloat.None?
         || row[3].asFloat.None? || row[4].asFloat.None? || row[5].asFloat.None? then None
    else Some(Candle(row[0].asInt.value, row[1].asFloat.value, row[2].asFloat.value,
                     row[3].asFloat.value, row[4].asFloat.value, row[5].asFloat.value))
  }

  /** The 1-minute parse loop (get_pols_info.py:130-144): a raising row is skipped. */
  method ParseMinuteRows(rows: seq<Row>) returns (history: seq<MinuteSample>)
    ensures history == KeptRows(rows, ParseMinuteRow)
  {
    history := [];
    for i := 0 to |rows|
      invariant history == KeptRows(rows[..i], ParseMinuteRow)
    {
      assert rows[..i + 1][..i] == rows[..i];
      var sample := ParseMinuteRow(rows[i]);
      if sample.Some? {
        history := history + [sample.value];
      }
    }
    assert rows[..|rows|] == rows;
  }

  /** The 5-minute parse loop (get_pols_info.py:217-237): a raising row is skipped. */
  method ParseHourRows(rows: seq<Row>) returns (history: seq<Candle>)
    ensures history == KeptRows(rows, ParseHourRow)
  {
    history := [];
    for i := 0 to |rows|
      invariant history == KeptRows(rows[..i], ParseHourRow)
    {
      assert rows[..i + 1][..i] == rows[..i];
      var candle := ParseHourRow(rows[i]);
      if candle.Some? {
        history := history + [candle.value];
      }
    }
    assert rows[..|rows|] == rows;
  }

  // ---------------------------------------------------------------------------
  // Candle statistics

  /** The highest `high` of a non-empty history (`max(h['high'] for h in history)`). */
  function MaxHigh(h: seq<Candle>): (r: real)
    requires |h| > 0
    ensures forall i :: 0 <= i < |h| ==> h[i].high <= r
    ensures exists i :: 0 <= i < |h| && h[i].high == r
  {
    if |h| == 1 then h[0].high
    else
      var rest := MaxHigh(h[1..]);
      assert forall i :: 1 <= i < |h| ==> h[i] == h[1..][i - 1];
      if h[0].high >= rest then h[0].high else rest
  }

  /** The lowest `low` of a non-empty history (`min(h['low'] for h in history)`). */
  function MinLow(h: seq<Candle>): (r: real)
    requires |h| > 0
    ensures forall i :: 0 <= i < |h| ==> r <= h[i].low
    ensures exists i :: 0 <= i < |h| && h[i].low == r
  {
    if |h| == 1 then h[0].low
    else
      var rest := MinLow(h[1..]);
      assert forall i :: 1 <= i < |h| ==> h[i] == h[1..][i - 1];
      if h[0].low <= rest then h[0].low else rest
  }

  /** The volumes of a history, in order. */
  function Volumes(h: seq<Candle>): (r: seq<real>)
    ensures |r| == |h| && forall i :: 0 <= i < |h| ==> r[i] == h[i].volume
  {
    seq(|h|, i requires 0 <= i < |h| => h[i].volume)
  }

  /** The closes of a history, in order. */
  function Closes(h: seq<Candle>): (r: seq<real>)
    ensures |r| == |h| && forall i :: 0 <= i < |h| ==> r[i] == h[i].close
  {
    seq(|h|, i requires 0 <= i < |h| => h[i].close)
  }

  /** The summary the report logs for a history. */
  datatype Stats = Stats(startPrice: real, currentPrice: real, highest: real, lowest: real, totalVolume: real, change: real)

  /** Why no statistics exist: nothing to summarise, or the variation divides by a start price of 0. */
  datatype StatsError = EmptyHistory | ZeroStartPrice

  /**
   * The candle statistics (get_pols_info.py:85-91, 254-259): the start is the
   * first open, the current price the last close, the extremes are taken over
   * the highs and the lows, and the change is in percent of the start.
   */
  function CandleStats(h: seq<Candle>): (r: Result<Stats, StatsError>)
    ensures r == Err(EmptyHistory) <==> |h| == 0
    ensures r == Err(ZeroStartPrice) <==> |h| > 0 && h[0].open == 0.0
    ensures r.Ok? ==>
      var s := r.value;
      && s.startPrice == h[0].open && s.currentPrice == h[|h| - 1].close
      && (forall i :: 0 <= i < |h| ==> s.lowest <= h[i].low && h[i].high <= s.highest)
      && (exists i :: 0 <= i < |h| && h[i].high == s.highest)
      && (exists i :: 0 <= i < |h| && h[i].low == s.lowest)
      && s.totalVolume == Sum(Volumes(h))
      && s.change * s.startPrice == (s.currentPrice - s.startPrice) * 100.0
  {
    if |h| == 0 then Err(EmptyHistory)
    else if h[0].open == 0.0 then Err(ZeroStartPrice)
    else
      var current := h[|h| - 1].close;
      var start := h[0].open;
      var change := (current - start) / start * 100.0;
      assert change * start == (current - start) * 100.0;
      Ok(Stats(start, current, MaxHigh(h), MinLow(h), Sum(Volumes(h)), change))
  }

  /** The price/volume samples viewed as candles whose open, close, high and low are the sample price. */
  function SampleCandles(samples: seq<MinuteSample>): (r: seq<Candle>)
    ensures |r| == |samples|
    ensures forall i :: 0 <= i < |samples| ==>
      r[i] == Candle(samples[i].timestamp, samples[i].price, samples[i].price, samples[i].price, samples[i].price, samples[i].volume)
  {
    seq(|samples|, i requires 0 <= i < |samples| =>
      Candle(samples[i].timestamp, samples[i].price, samples[i].price, samples[i].price, samples[i].price, samples[i].volume))
  }

  /**
   * The 1-minute statistics (get_pols_info.py:156-161) are the candle
   * statistics of the samples taken as flat candles: first and last price,
   * highest and lowest price, total volume.
   */
  lemma SampleStats(samples: seq<MinuteSample>)
    requires |samples| > 0 && samples[0].price != 0.0
    ensures var r := CandleStats(SampleCandles(samples));
      && r.Ok?
      && r.value.startPrice == samples[0].price && r.value.currentPrice == samples[|samples| - 1].price
      && (forall i :: 0 <= i < |samples| ==> r.value.lowest <= samples[i].price <= r.value.highest)
      && (exists i :: 0 <= i < |samples| && samples[i].price == r.value.highest)
      && (exists i :: 0 <= i < |samples| && samples[i].price == r.value.lowest)
      && r.value.totalVolume == Sum(seq(|samples|, i requires 0 <= i < |samples| => samples[i].volume))
  {
    var h := SampleCandles(samples);
    var r := CandleStats(h);
    assert r.Ok?;
    var i :| 0 <= i < |h| && h[i].high == r.value.highest;
    assert samples[i].price == r.value.highest;
    var j :| 0 <= j < |h| && h[j].low == r.value.lowest;
    assert samples[j].price == r.value.lowest;
    assert Volumes(h) == seq(|samples|, i requires 0 <= i < |samples| => samples[i].volume);
  }

  // ---------------------------------------------------------------------------
  // History reports

  /**
   * get_last_30min_history (get_pols_info.py:108-176): None without data;
   * otherwise the kept samples, unless the variation divides by a first
   * price of 0, which raises and is caught as None.
   */
  function Last30MinHistory(response: Option<seq<Row>>): (r: Option<seq<MinuteSample>>)
    ensures response.None? ==> r.None?
    ensures response.Some? ==> var h := KeptRows(response.value, ParseMinuteRow);
      (r.Some? <==> |h| == 0 || h[0].price != 0.0) && (r.Some? ==> r.value == h)
  {
    match response
    case None => None
    case Some(rows) =>
      var history := KeptRows(rows, ParseMinuteRow);
      if |history| > 0 && CandleStats(SampleCandles(history)).Err? then None else Some(history)
  }

  /** The moving-average period of the hourly report. */
  const HOUR_MA_PERIOD: nat := 5

  /**
   * get_last_hour_history as written (get_pols_info.py:195-279): None without
   * data; the display loop reads `moving_averages[i]` for every candle, and
   * the moving averages are [] for fewer than 5 candles, so a history of 1 to
   * 4 candles raises IndexError and is dropped; a first open of 0 raises in
   * the variation.
   */
  function LastHourHistoryAsWritten(response: Option<seq<Row>>): Option<seq<Candle>>
  {
    match response
    case None => None
    case Some(rows) =>
      var history := KeptRows(rows, ParseHourRow);
      var averages := PolsPancake.MovingAverages(Closes(history), HOUR_MA_PERIOD);
      if |history| == 0 then Some([])
      else if averages.None? || |averages.value| < |history| then None
      else if CandleStats(history).Err? then None
      else Some(history)
  }

  /** A history of one to four valid candles is discarded by the report as written. */
  lemma ShortHourHistoryDropped(rows: seq<Row>)
    requires 0 < |KeptRows(rows, ParseHourRow)| < HOUR_MA_PERIOD
    ensures LastHourHistoryAsWritten(Some(rows)) == None
  {
  }

  /** A concrete 5-minute row that converts. */
  const SAMPLE_ROW: Row := [Cell(Some(1700000000), Some(1700000000.0)), Cell(None, Some(0.5)), Cell(None, Some(0.51)),
                            Cell(None, Some(0.52)), Cell(None, Some(0.49)), Cell(None, Some(100.0))]

  /** One valid candle: the report as written returns None instead of the candle. */
  lemma SingleCandleDropped()
    ensures KeptRows([SAMPLE_ROW], ParseHourRow) == [Candle(1700000000, 0.5, 0.51, 0.52, 0.49, 100.0)]
    ensures LastHourHistoryAsWritten(Some([SAMPLE_ROW])) == None
  {
    assert [SAMPLE_ROW][..0] == [];
    ShortHourHistoryDropped([SAMPLE_ROW]);
  }

  /**
   * get_last_hour_history with the moving average shown only where one
   * exists: None without data or when the variation divides by a first
   * open of 0, the kept candles otherwise.
   */
  function LastHourHistory(response: Option<seq<Row>>): (r: Option<seq<Candle>>)
    ensures response.None? ==> r.None?
    ensures response.Some? ==> var h := KeptRows(response.value, ParseHourRow);
      (r.Some? <==> |h| == 0 || h[0].open != 0.0) && (r.Some? ==> r.value == h)
  {
    match response
    case None => None
    case Some(rows) =>
      var history := KeptRows(rows, ParseHourRow);
      if |history| > 0 && CandleStats(history).Err? then None else Some(history)
  }

  /** The two agree whenever the history is empty or holds at least five candles. */
  lemma LastHourHistoryAgrees(rows: seq<Row>)
    requires |KeptRows(rows, ParseHourRow)| == 0 || |KeptRows(rows, ParseHourRow)| >= HOUR_MA_PERIOD
    ensures LastHourHistoryAsWritten(Some(rows)) == LastHourHistory(Some(rows))
  {
    var history := KeptRows(rows, ParseHourRow);
    if |history| >= HOUR_MA_PERIOD {
      assert |PolsPancake.MovingAverages(Closes(history), HOUR_MA_PERIOD).value| == |history|;
    }
  }

  // ---------------------------------------------------------------------------
  // calculate_moving_average

  /** calculate_moving_average (get_pols_info.py:178-193) over the candle closes. */
  method CalculateMovingAverage(history: seq<Candle>, period: nat) returns (r: Option<seq<Option<real>>>)
    ensures r == PolsPancake.MovingAverages(Closes(history), period)
  {
    if |history| == 0 || |history| < period {
      return Some([]);
    }
    if period == 0 {
      return None;
    }
    var closes := Closes(history);
    var averages: seq<Option<real>> := [];
    for i := 0 to |history|
      invariant |averages| == i
      invariant forall j :: 0 <= j < i ==> averages[j] == PolsPancake.MovingAverageEntry(closes, period, j)
    {
      if i < period - 1 {
        averages := averages + [None];
      } else {
        var window := closes[i - (period - 1)..i + 1];
        averages := averages + [Some(Sum(window) / period as real)];
      }
    }
    assert averages == seq(|closes|, i requires 0 <= i < |closes| => PolsPancake.MovingAverageEntry(closes, period, i));
    r := Some(averages);
  }

  // ---------------------------------------------------------------------------
  // get_order_book

  /** The number of levels kept per side. */
  const ORDER_BOOK_LIMIT: nat := 20

  /** The `bids`/`asks` entries of the order-book response; None where the key is absent. */
  datatype BookData = BookData(bids: Option<seq<Level>>, asks: Option<seq<Level>>)

  /** The dictionary get_order_book returns, without its timestamp. */
  datatype BookSummary = BookSummary(bids: seq<Level>, asks: seq<Level>, totalBidVolume: real, totalAskVolume: real,
                                     spread: real, spreadPercent: real)

  /** `data.get(side, [])[:limit]`. */
  function Truncated(side: Option<seq<Level>>, limit: nat): (r: seq<Level>)
    ensures side.None? ==> r == []
    ensures side.Some? ==> |r| == (if |side.value| < limit then |side.value| else limit)
    ensures side.Some? ==> forall i :: 0 <= i < |r| ==> r[i] == side.value[i]
  {
    match side
    case None => []
    case Some(levels) => if |levels| <= limit then levels else levels[..limit]
  }

  /**
   * get_order_book (get_pols_info.py:281-356): the sides truncated to
   * `limit`; None without data, with an empty side, or with a best bid of
   * 0, where the spread percentage raises. The ask total is accumulated
   * over the reversed asks, the bid total over the bids.
   */
  method GetOrderBook(data: Option<BookData>, limit: nat) returns (r: Option<BookSummary>)
    ensures r.None? <==> (data.None? || |Truncated(data.value.bids, limit)| == 0
      || |Truncated(data.value.asks, limit)| == 0 || Truncated(data.value.bids, limit)[0].price == 0.0)
    ensures r.Some? ==>
      var b := r.value;
      && b.bids == Truncated(data.value.bids, limit) && b.asks == Truncated(data.value.asks, limit)
      && b.totalBidVolume == TotalQuantity(b.bids) && b.totalAskVolume == TotalQuantity(b.asks)
      && b.spread == b.asks[0].price - b.bids[0].price
      && b.spreadPercent * b.bids[0].price == b.spread * 100.0
  {
    if data.None? {
      return None;
    }
    var bids := Truncated(data.value.bids, limit);
    var asks := Truncated(data.value.asks, limit);
    if |bids| == 0 || |asks| == 0 {
      return None;
    }
    var totalAskVolume := 0.0;
    var j := |asks|;
    while j > 0
      invariant 0 <= j <= |asks|
      invariant totalAskVolume == TotalQuantity(asks[j..])
    {
      j := j - 1;
      TotalQuantityStep(asks, j);
      totalAskVolume := totalAskVolume + asks[j].quantity;
    }
    assert asks[0..] == asks;
    var totalBidVolume := 0.0;
    for k := 0 to |bids|
      invariant totalBidVolume + TotalQuantity(bids[k..]) == TotalQuantity(bids)
    {
      TotalQuantityStep(bids, k);
      totalBidVolume := totalBidVolume + bids[k].quantity;
    }
    assert bids[|bids|..] == [];
    if bids[0].price == 0.0 {
      return None;
    }
    var spread := asks[0].price - bids[0].price;
    var spreadPercent := spread / bids[0].price * 100.0;
    r := Some(BookSummary(bids, asks, totalBidVolume, totalAskVolume, spread, spreadPercent));
  }

  /** The total of a ladder is the total of a prefix plus the total of the rest. */
  lemma {:induction false} TotalQuantitySplit(levels: seq<Level>, n: nat)
    requires n <= |levels|
    ensures TotalQuantity(levels) == TotalQuantity(levels[..n]) + TotalQuantity(levels[n..])
  {
    if n > 0 {
      TotalQuantitySplit(levels[1..], n - 1);
      assert levels[..n][1..] == levels[1..][..n - 1];
      assert levels[n..] == levels[1..][n - 1..];
    } else {
      assert levels[..0] == [];
    }
  }

  /** With non-negative quantities, truncating a side never increases its total volume. */
  lemma TruncatedVolumeAtMost(levels: seq<Level>, limit: nat)
    requires NonNegative(levels)
    ensures TotalQuantity(Truncated(Some(levels), limit)) <= TotalQuantity(levels)
  {
    if |levels| > limit {
      TotalQuantitySplit(levels, limit);
      assert NonNegative(levels[limit..]) by {
        forall i | 0 <= i < |levels[limit..]| ensures levels[limit..][i].quantity >= 0.0 {
          assert levels[limit..][i] == levels[limit + i];
        }
      }
      TotalQuantityNonNegative(levels[limit..]);
    }
  }

  // ---------------------------------------------------------------------------
  // Account balances

  /** The last account of the given currency in the list: the one the overwriting loop leaves. */
  function LastAccount(accounts: seq<KucoinExchange.Account>, currency: string): (r: Option<KucoinExchange.Account>)
    ensures r.Some? ==> r.value.currency == currency
  {
    if |accounts| == 0 then None
    else if accounts[|accounts| - 1].currency == currency then Some(accounts[|accounts| - 1])
    else LastAccount(accounts[..|accounts| - 1], currency)
  }

  /**
   * There is no account of the currency exactly when none is found; a found
   * account is one of the list, and no later account has that currency.
   */
  lemma {:induction false} LastAccountFound(accounts: seq<KucoinExchange.Account>, currency: string)
    ensures LastAccount(accounts, currency).None? <==> forall i :: 0 <= i < |accounts| ==> accounts[i].currency != currency
    ensures LastAccount(accounts, currency).Some? ==>
      exists i :: 0 <= i < |accounts| && accounts[i] == LastAccount(accounts, currency).value
        && (forall j :: i < j < |accounts| ==> accounts[j].currency != currency)
  {
    if |accounts| > 0 {
      var n := |accounts| - 1;
      if accounts[n].currency != currency {
        LastAccountFound(accounts[..n], currency);
        assert forall i :: 0 <= i < n ==> accounts[i] == accounts[..n][i];
      }
    }
  }

  /** The four balances the report returns. */
  datatype Balances = Balances(pols: real, polsLocked: real, usdt: real, usdtLocked: real)

  /**
   * The account loop (get_pols_info.py:408-419): every balance starts at 0
   * and each POLS or USDT account overwrites the balances of its currency,
   * so the last account of each currency decides.
   */
  method ParseBalances(accounts: seq<KucoinExchange.Account>) returns (b: Balances)
    ensures b.pols == KucoinExchange.Available(LastAccount(accounts, "POLS")) && b.polsLocked == KucoinExchange.Held(LastAccount(accounts, "POLS"))
    ensures b.usdt == KucoinExchange.Available(LastAccount(accounts, "USDT")) && b.usdtLocked == KucoinExchange.Held(LastAccount(accounts, "USDT"))
  {
    b := Balances(0.0, 0.0, 0.0, 0.0);
    for i := 0 to |accounts|
      invariant b.pols == KucoinExchange.Available(LastAccount(accounts[..i], "POLS")) && b.polsLocked == KucoinExchange.Held(LastAccount(accounts[..i], "POLS"))
      invariant b.usdt == KucoinExchange.Available(LastAccount(accounts[..i], "USDT")) && b.usdtLocked == KucoinExchange.Held(LastAccount(accounts[..i], "USDT"))
    {
      assert accounts[..i + 1][..i] == accounts[..i];
      var account := accounts[i];
      if account.currency == "POLS" {
        b := b.(pols := account.available, polsLocked := account.holds);
      } else if account.currency == "USDT" {
        b := b.(usdt := account.available, usdtLocked := account.holds);
      }
    }
    assert accounts[..|accounts|] == accounts;
  }

  /**
   * With at most one account per currency the report and the KuCoin venue
   * (which takes the first account) select the same account.
   */
  lemma LastIsFirstWhenUnique(accounts: seq<KucoinExchange.Account>, currency: string)
    requires forall i, j :: 0 <= i < j < |accounts| && accounts[i].currency == currency ==> accounts[j].currency != currency
    ensures LastAccount(accounts, currency) == KucoinExchange.FirstAccount(accounts, currency)
  {
    LastAccountFound(accounts, currency);
    KucoinExchange.FirstAccountFound(accounts, currency);
    var last := LastAccount(accounts, currency);
    var first := KucoinExchange.FirstAccount(accounts, currency);
    if last.Some? {
      var i :| 0 <= i < |accounts| && accounts[i] == last.value && (forall j :: i < j < |accounts| ==> accounts[j].currency != currency);
      var k :| 0 <= k < |accounts| && accounts[k] == first.value && (forall j :: 0 <= j < k ==> accounts[j].currency != currency);
      assert i == k;
    }
  }

  /** Where a currency has two accounts, the report and the KuCoin venue can disagree. */
  lemma DuplicateAccountsDisagree()
    ensures var accounts := [KucoinExchange.Account("POLS", 1.0, 0.0), KucoinExchange.Account("POLS", 2.0, 0.0)];
      KucoinExchange.Available(LastAccount(accounts, "POLS")) == 2.0 && KucoinExchange.FirstAccount(accounts, "POLS").value.available == 1.0
  {
    var accounts := [KucoinExchange.Account("POLS", 1.0, 0.0), KucoinExchange.Account("POLS", 2.0, 0.0)];
    assert accounts[..1] == [accounts[0]];
  }
}
