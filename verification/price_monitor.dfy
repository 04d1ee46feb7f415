/**
 * The snapshot-fetch layer: deriving a price snapshot from what the market-data
 * provider returns, the last-known-good cache it falls back to, and the batch
 * fetch that merges per-instrument results.
 */
module PriceMonitor {
  import opened Wrappers
  import opened Numeric
  import opened Configs

  /** One key of the provider's `info` dictionary: missing, present with no value, or present with a value. */
  datatype Field<T> = Absent | Null | Has(value: T) {

    /** `info.get(key)`. */
    function Get(): Option<T> {
      if Has? then Some(value) else None
    }

    /** `info.get(key, fallback)`: the fallback replaces a missing key, not a key present with no value. */
    function GetOrDefault(fallback: T): Option<T> {
      match this
      case Absent => Some(fallback)
      case Null => None
      case Has(v) => Some(v)
    }
  }

  /** The static fields of the provider's `info` dictionary that the monitor reads. */
  datatype Info = Info(
    currentPrice: Field<real>,
    previousClose: Field<real>,
    volume: Field<int>,
    marketCap: Field<real>,
    trailingPE: Field<real>,
    fiftyTwoWeekHigh: Field<real>,
    fiftyTwoWeekLow: Field<real>)

  /** One intraday (one-minute) bar. */
  datatype Bar = Bar(close: real, volume: real)

  /**
   * What the provider gave for one instrument: its `info` fields, the closes of
   * the last daily bars (oldest first) and today's intraday bars; or an exception.
   */
  datatype ProviderReply = Replied(info: Info, dailyCloses: seq<real>, intraday: seq<Bar>) | ProviderError

  datatype FetchError =
    | ProviderFailed        // the provider call itself raised
    | NoPriceData           // no intraday bar and no truthy price field
    | MissingPreviousClose  // `previousClose` present with no value and fewer than two daily bars

  /** One instrument's priced and derived metrics as of a fetch. */
  datatype Snapshot = Snapshot(
    symbol: string,
    currentPrice: real,
    previousClose: real,
    yesterdayClose: real,
    change: real,
    changePercent: real,
    yesterdayChange: real,
    yesterdayChangePercent: real,
    volume: Option<int>,
    timestamp: string,
    marketCap: Option<real>,
    peRatio: Option<real>,
    fiftyTwoWeekHigh: Option<real>,
    fiftyTwoWeekLow: Option<real>,
    securityCover: Option<real>)

  /** Collateral value over outstanding loan; 0 when no positive loan is outstanding. */
  function CoverRatio(quantityFactor: real, price: real, loanOutstanding: real): (r: real)
    ensures loanOutstanding > 0.0 ==> r * loanOutstanding == quantityFactor * price
    ensures loanOutstanding <= 0.0 ==> r == 0.0
  {
    if loanOutstanding > 0.0 then quantityFactor * price / loanOutstanding else 0.0
  }

  /** Truthiness of an optional price: present and non-zero. */
  predicate Truthy(v: Option<real>) {
    v.Some? && v.value != 0.0
  }

  /** `info.get('currentPrice') or info.get('previousClose')`, kept only when truthy. */
  function InfoPrice(info: Info): (r: Option<real>)
    ensures r.None? <==> !Truthy(info.currentPrice.Get()) && !Truthy(info.previousClose.Get())
    ensures Truthy(info.currentPrice.Get()) ==> r == info.currentPrice.Get()
    ensures r.Some? ==> r.value != 0.0 && (r == info.currentPrice.Get() || r == info.previousClose.Get())
  {
    var current := info.currentPrice.Get();
    var previous := info.previousClose.Get();
    if Truthy(current) then current
    else if Truthy(previous) then previous
    else None
  }

  /** The price quoted now: the last intraday close, else the truthy `info` price. */
  function QuotedPrice(info: Info, intraday: seq<Bar>): (r: Option<real>)
    ensures |intraday| > 0 ==> r == Some(intraday[|intraday| - 1].close)
    ensures |intraday| == 0 ==> r == InfoPrice(info)
  {
    if |intraday| > 0 then Some(intraday[|intraday| - 1].close) else InfoPrice(info)
  }

  /** The snapshot one provider reply yields, or the error its derivation raises. */
  function DeriveSnapshot(
    config: StockConfig, info: Info, dailyCloses: seq<real>, intraday: seq<Bar>, now: string): (r: Result<Snapshot, FetchError>)
    ensures r == Err(NoPriceData) <==> QuotedPrice(info, intraday).None?
    ensures r == Err(MissingPreviousClose) <==>
      QuotedPrice(info, intraday).Some? && |dailyCloses| < 2 && info.previousClose.Null?
    ensures r.Err? ==> r == Err(NoPriceData) || r == Err(MissingPreviousClose)
    ensures r.Ok? ==> r.value.symbol == config.symbol && r.value.timestamp == now
    ensures r.Ok? ==> r.value.currentPrice == Round2(QuotedPrice(info, intraday).value)
    ensures r.Ok? ==>
      r.value.securityCover ==
        Some(Round2(CoverRatio(config.quantityFactor, QuotedPrice(info, intraday).value, config.loanOutstanding)))
    ensures r.Ok? && |dailyCloses| >= 2 ==>
      var n := |dailyCloses|;
      && r.value.previousClose == Round2(dailyCloses[n - 1])
      && r.value.yesterdayClose == Round2(dailyCloses[n - 2])
      && r.value.change == Round2(QuotedPrice(info, intraday).value - dailyCloses[n - 1])
      && r.value.changePercent ==
           Round2(Percent(QuotedPrice(info, intraday).value - dailyCloses[n - 1], dailyCloses[n - 1]))
    ensures r.Ok? && |dailyCloses| < 2 ==>
      var price := QuotedPrice(info, intraday).value;
      && info.previousClose.GetOrDefault(price).Some?
      && var close := info.previousClose.GetOrDefault(price).value;
      && r.value.previousClose == Round2(close)
      && r.value.yesterdayClose == Round2(close)
      && r.value.change == Round2(price - close)
      && r.value.changePercent == Round2(Percent(price - close, close))
    ensures r.Ok? && |dailyCloses| < 2 && info.previousClose.Absent? ==> r.value.change == 0.0
    ensures r.Ok? && |dailyCloses| < 3 ==> r.value.yesterdayChange == 0.0 && r.value.yesterdayChangePercent == 0.0
    ensures r.Ok? && |dailyCloses| >= 3 ==>
      var n := |dailyCloses|;
      && r.value.yesterdayChange == Round2(dailyCloses[n - 2] - dailyCloses[n - 3])
      && r.value.yesterdayChangePercent ==
           Round2(Percent(dailyCloses[n - 2] - dailyCloses[n - 3], dailyCloses[n - 3]))
    ensures r.Ok? && |intraday| > 0 ==> r.value.volume == Some(Truncate(intraday[|intraday| - 1].volume))
    ensures r.Ok? && |intraday| == 0 ==> r.value.volume == info.volume.GetOrDefault(0)
    ensures r.Ok? ==>
      && r.value.marketCap == info.marketCap.Get() && r.value.peRatio == info.trailingPE.Get()
      && r.value.fiftyTwoWeekHigh == info.fiftyTwoWeekHigh.Get() && r.value.fiftyTwoWeekLow == info.fiftyTwoWeekLow.Get()
  {
    match QuotedPrice(info, intraday)
    case None => Err(NoPriceData)
    case Some(price) =>
      var volume := if |intraday| > 0 then Some(Truncate(intraday[|intraday| - 1].volume)) else info.volume.GetOrDefault(0);
      var fallbackClose := info.previousClose.GetOrDefault(price);
      var n := |dailyCloses|;
      var previousClose := if n >= 2 then Some(dailyCloses[n - 1]) else fallbackClose;
      var yesterdayClose := if n >= 2 then Some(dailyCloses[n - 2]) else fallbackClose;
      if previousClose.None? then Err(MissingPreviousClose)
      else
        var change := price - previousClose.value;
        var yesterdayChange := if n >= 3 then yesterdayClose.value - dailyCloses[n - 3] else 0.0;
        var yesterdayPercent := if n >= 3 then Percent(yesterdayChange, dailyCloses[n - 3]) else 0.0;
        var cover := CoverRatio(config.quantityFactor, price, config.loanOutstanding);
        Round2KeepsCents(0);
        Ok(Snapshot(
          config.symbol,
          Round2(price),
          Round2(previousClose.value),
          Round2(yesterdayClose.value),
          Round2(change),
          Round2(Percent(change, previousClose.value)),
          Round2(yesterdayChange),
          Round2(yesterdayPercent),
          volume,
          now,
          info.marketCap.Get(),
          info.trailingPE.Get(),
          info.fiftyTwoWeekHigh.Get(),
          info.fiftyTwoWeekLow.Get(),
          Some(Round2(cover))))
  }

  /** One fetch attempt: the provider call, then the derivation; either may raise. */
  function Attempt(config: StockConfig, reply: ProviderReply, now: string): (r: Result<Snapshot, FetchError>)
    ensures r == Err(ProviderFailed) <==> reply.ProviderError?
    ensures r.Ok? ==> r.value.symbol == config.symbol && r.value.timestamp == now
  {
    match reply
    case ProviderError => Err(ProviderFailed)
    case Replied(info, daily, intraday) => DeriveSnapshot(config, info, daily, intraday, now)
  }

  /** The monitor's process-scoped state: last good snapshot and last update time per symbol. */
  datatype Monitor = Monitor(cache: map<string, Snapshot>, lastUpdate: map<string, string>)

  /** A monitor that has fetched nothing yet. */
  function NewMonitor(): (m: Monitor)
    ensures m.cache == map[] && m.lastUpdate == map[]
    ensures WellKeyed(m)
  {
    Monitor(map[], map[])
  }

  /** Every cached snapshot is filed under its own symbol. */
  ghost predicate WellKeyed(m: Monitor) {
    forall k | k in m.cache :: m.cache[k].symbol == k
  }

  /** How one fetch ended: a new snapshot, the cached one served in place of a failed fetch, or an error. */
  datatype FetchResult = Fresh(snapshot: Snapshot) | Stale(snapshot: Snapshot) | Failed(error: FetchError) {
    /** The fetch produced a snapshot its caller can use. */
    predicate HasValue() {
      !Failed?
    }
  }

  /** A fetch result with the monitor state it leaves behind. */
  datatype Fetched = Fetched(result: FetchResult, monitor: Monitor)

  /** Settle one fetch attempt against the cache: write it on success, serve the cached value on failure. */
  function Settle(m: Monitor, symbol: string, attempt: Result<Snapshot, FetchError>, now: string): (f: Fetched)
    ensures f.result.Fresh? <==> attempt.Ok?
    ensures f.result.Fresh? ==>
      && f.result.snapshot == attempt.value
      && f.monitor.cache == m.cache[symbol := attempt.value]
      && f.monitor.lastUpdate == m.lastUpdate[symbol := now]
    ensures f.result.Stale? <==> attempt.Err? && symbol in m.cache
    ensures f.result.Stale? ==> f.result.snapshot == m.cache[symbol]
    ensures f.result.Failed? ==> f.result.error == attempt.error
    ensures !f.result.Fresh? ==> f.monitor == m
  {
    match attempt
    case Ok(data) =>
      Fetched(Fresh(data), Monitor(m.cache[symbol := data], m.lastUpdate[symbol := now]))
    case Err(e) =>
      if symbol in m.cache then Fetched(Stale(m.cache[symbol]), m)
      else Fetched(Failed(e), m)
  }

  /** Fetch one instrument, writing the cache on success and serving the cached value on failure. */
  function GetStockData(m: Monitor, config: StockConfig, reply: ProviderReply, now: string): (f: Fetched)
    ensures f.result.Fresh? <==> Attempt(config, reply, now).Ok?
    ensures f.result.Fresh? ==>
      && f.result.snapshot == Attempt(config, reply, now).value
      && f.monitor.cache == m.cache[config.symbol := f.result.snapshot]
      && f.monitor.lastUpdate == m.lastUpdate[config.symbol := now]
    ensures f.result.Stale? <==> Attempt(config, reply, now).Err? && config.symbol in m.cache
    ensures f.result.Stale? ==> f.result.snapshot == m.cache[config.symbol]
    ensures f.result.Failed? ==> f.result.error == Attempt(config, reply, now).error
    ensures !f.result.Fresh? ==> f.monitor == m
    ensures WellKeyed(m) ==> WellKeyed(f.monitor)
    ensures WellKeyed(m) && f.result.HasValue() ==> f.result.snapshot.symbol == config.symbol
  {
    Settle(m, config.symbol, Attempt(config, reply, now), now)
  }

  /** The attempt outcome of every instrument of a batch. */
  function Attempts(configs: seq<StockConfig>, replies: seq<ProviderReply>, now: string): (r: seq<Result<Snapshot, FetchError>>)
    requires |replies| == |configs|
    ensures |r| == |configs|
    ensures forall j | 0 <= j < |configs| :: r[j] == Attempt(configs[j], replies[j], now)
    ensures forall j | 0 <= j < |configs| && r[j].Ok? :: r[j].value.symbol == configs[j].symbol
  {
    seq(|configs|, j requires 0 <= j < |configs| => Attempt(configs[j], replies[j], now))
  }

  /** The symbols of `configs`. */
  function Symbols(configs: seq<StockConfig>): set<string> {
    set i | 0 <= i < |configs| :: configs[i].symbol
  }

  /** The symbols of the instruments whose fetch attempt succeeded. */
  function Succeeded(configs: seq<StockConfig>, replies: seq<ProviderReply>, now: string): set<string>
    requires |replies| == |configs|
  {
    Written(configs, Attempts(configs, replies, now))
  }

  /** No later instrument in `configs` carries the symbol of the `i`-th. */
  predicate LastOccurrence(configs: seq<StockConfig>, i: int)
    requires 0 <= i < |configs|
  {
    forall j | i < j < |configs| :: configs[j].symbol != configs[i].symbol
  }

  /** The results of a batch of fetches, with the monitor state they leave behind. */
  datatype Batch = Batch(results: seq<FetchResult>, monitor: Monitor)

  /**
   * Settle the attempts of a batch one after the other in configuration order,
   * each seeing the cache the previous one left. The fetches never yield, so the
   * concurrent gather of the source runs them in exactly this order.
   */
  function FetchInOrder(m: Monitor, configs: seq<StockConfig>, attempts: seq<Result<Snapshot, FetchError>>, now: string): (b: Batch)
    requires |attempts| == |configs|
    ensures |b.results| == |configs|
    decreases |configs|
  {
    if |configs| == 0 then Batch([], m)
    else
      var n := |configs| - 1;
      var before := FetchInOrder(m, configs[..n], attempts[..n], now);
      var f := Settle(before.monitor, configs[n].symbol, attempts[n], now);
      Batch(before.results + [f.result], f.monitor)
  }

  /** The symbols the successful attempts of a batch write to the cache. */
  function Written(configs: seq<StockConfig>, attempts: seq<Result<Snapshot, FetchError>>): set<string>
    requires |attempts| == |configs|
  {
    set j | 0 <= j < |configs| && attempts[j].Ok? :: configs[j].symbol
  }

  /** Each result of a batch is fresh exactly when its own attempt succeeded, and then carries that attempt's snapshot. */
  lemma {:induction false} FetchResultsFollowAttempts(
    m: Monitor, configs: seq<StockConfig>, attempts: seq<Result<Snapshot, FetchError>>, now: string)
    requires |attempts| == |configs|
    ensures var b := FetchInOrder(m, configs, attempts, now);
      forall j | 0 <= j < |configs| ::
        && (b.results[j].Fresh? <==> attempts[j].Ok?)
        && (b.results[j].Fresh? ==> b.results[j].snapshot == attempts[j].value)
    decreases |configs|
  {
    if |configs| > 0 {
      var n := |configs| - 1;
      FetchResultsFollowAttempts(m, configs[..n], attempts[..n], now);
    }
  }

  /** A batch adds to the cache exactly the symbols whose attempt succeeded, and leaves every other entry as it was. */
  lemma {:induction false} FetchWritesOnlySuccesses(
    m: Monitor, configs: seq<StockConfig>, attempts: seq<Result<Snapshot, FetchError>>, now: string)
    requires |attempts| == |configs|
    ensures var b := FetchInOrder(m, configs, attempts, now);
      && b.monitor.cache.Keys == m.cache.Keys + Written(configs, attempts)
      && forall k | k in m.cache && k !in Written(configs, attempts) :: b.monitor.cache[k] == m.cache[k]
    decreases |configs|
  {
    if |configs| > 0 {
      var n := |configs| - 1;
      FetchWritesOnlySuccesses(m, configs[..n], attempts[..n], now);
      var extra := if attempts[n].Ok? then {configs[n].symbol} else {};
      assert Written(configs, attempts) == Written(configs[..n], attempts[..n]) + extra by {
        forall k | k in Written(configs, attempts)
          ensures k in Written(configs[..n], attempts[..n]) + extra
        {
          var j :| 0 <= j < |configs| && attempts[j].Ok? && configs[j].symbol == k;
          if j < n {
            assert configs[..n][j] == configs[j] && attempts[..n][j] == attempts[j];
          }
        }
        forall k | k in Written(configs[..n], attempts[..n])
          ensures k in Written(configs, attempts)
        {
          var j :| 0 <= j < n && attempts[..n][j].Ok? && configs[..n][j].symbol == k;
          assert configs[..n][j] == configs[j] && attempts[..n][j] == attempts[j];
        }
      }
    }
  }

  /**
   * Each fetch of a batch sees the cache the earlier ones left: a failed attempt
   * is served from the cache exactly when its symbol was cached before the batch
   * or written by an earlier success of the same batch.
   */
  lemma {:induction false} FetchSeesEarlierWrites(
    m: Monitor, configs: seq<StockConfig>, attempts: seq<Result<Snapshot, FetchError>>, now: string)
    requires |attempts| == |configs|
    ensures var b := FetchInOrder(m, configs, attempts, now);
      forall j | 0 <= j < |configs| ::
        b.results[j].Stale? <==>
          attempts[j].Err? && (configs[j].symbol in m.cache || configs[j].symbol in Written(configs[..j], attempts[..j]))
    decreases |configs|
  {
    if |configs| > 0 {
      var n := |configs| - 1;
      var b := FetchInOrder(m, configs, attempts, now);
      var before := FetchInOrder(m, configs[..n], attempts[..n], now);
      FetchSeesEarlierWrites(m, configs[..n], attempts[..n], now);
      FetchWritesOnlySuccesses(m, configs[..n], attempts[..n], now);
      forall j | 0 <= j < |configs|
        ensures b.results[j].Stale? <==>
          attempts[j].Err? && (configs[j].symbol in m.cache || configs[j].symbol in Written(configs[..j], attempts[..j]))
      {
        if j < n {
          assert b.results[j] == before.results[j];
          assert configs[..n][j] == configs[j] && attempts[..n][j] == attempts[j];
          assert configs[..n][..j] == configs[..j] && attempts[..n][..j] == attempts[..j];
        } else {
          assert configs[..j] == configs[..n] && attempts[..j] == attempts[..n];
        }
      }
    }
  }

  /**
   * Every result of a batch that carries a value leaves its symbol cached, and
   * the last result for a symbol carries exactly what the cache ends up holding.
   */
  lemma {:induction false} FetchResultsAgreeWithCache(
    m: Monitor, configs: seq<StockConfig>, attempts: seq<Result<Snapshot, FetchError>>, now: string)
    requires |attempts| == |configs|
    ensures var b := FetchInOrder(m, configs, attempts, now);
      && (forall j | 0 <= j < |configs| && b.results[j].HasValue() :: configs[j].symbol in b.monitor.cache)
      && (forall j | 0 <= j < |configs| && b.results[j].HasValue() && LastOccurrence(configs, j) ::
            b.results[j].snapshot == b.monitor.cache[configs[j].symbol])
    decreases |configs|
  {
    if |configs| > 0 {
      var n := |configs| - 1;
      var before := FetchInOrder(m, configs[..n], attempts[..n], now);
      FetchResultsAgreeWithCache(m, configs[..n], attempts[..n], now);
      var b := FetchInOrder(m, configs, attempts, now);
      forall j | 0 <= j < |configs| && b.results[j].HasValue() && LastOccurrence(configs, j)
        ensures b.results[j].snapshot == b.monitor.cache[configs[j].symbol]
      {
        if j < n {
          assert configs[..n][j] == configs[j];
          assert LastOccurrence(configs[..n], j);
          assert configs[n].symbol != configs[j].symbol;
        }
      }
      forall j | 0 <= j < n && b.results[j].HasValue()
        ensures configs[j].symbol in b.monitor.cache
      {
        assert configs[..n][j] == configs[j];
      }
    }
  }

  /** A batch whose successful attempts carry their own symbols keeps the cache well keyed. */
  lemma {:induction false} FetchKeepsCacheWellKeyed(
    m: Monitor, configs: seq<StockConfig>, attempts: seq<Result<Snapshot, FetchError>>, now: string)
    requires |attempts| == |configs|
    requires forall j | 0 <= j < |configs| && attempts[j].Ok? :: attempts[j].value.symbol == configs[j].symbol
    ensures WellKeyed(m) ==> WellKeyed(FetchInOrder(m, configs, attempts, now).monitor)
    decreases |configs|
  {
    if |configs| > 0 {
      var n := |configs| - 1;
      assert forall j | 0 <= j < n :: configs[..n][j] == configs[j] && attempts[..n][j] == attempts[j];
      FetchKeepsCacheWellKeyed(m, configs[..n], attempts[..n], now);
    }
  }

  /**
   * The merge of a batch: a fetch that produced a value contributes it; one that
   * raised contributes what the cache holds once every fetch has finished, if
   * anything; a later instrument with the same symbol overwrites an earlier one.
   */
  function MergeResults(configs: seq<StockConfig>, results: seq<FetchResult>, cache: map<string, Snapshot>): map<string, Snapshot>
    requires |results| == |configs|
    decreases |configs|
  {
    if |configs| == 0 then map[]
    else
      var n := |configs| - 1;
      var before := MergeResults(configs[..n], results[..n], cache);
      var symbol := configs[n].symbol;
      if results[n].HasValue() then before[symbol := results[n].snapshot]
      else if symbol in cache then before[symbol := cache[symbol]]
      else before
  }

  /** The merged map holds the configured symbols that are cached, when every valued result's symbol is cached. */
  lemma {:induction false} MergeKeys(configs: seq<StockConfig>, results: seq<FetchResult>, cache: map<string, Snapshot>)
    requires |results| == |configs|
    requires forall j | 0 <= j < |configs| && results[j].HasValue() :: configs[j].symbol in cache
    ensures MergeResults(configs, results, cache).Keys == Symbols(configs) * cache.Keys
    decreases |configs|
  {
    if |configs| > 0 {
      var n := |configs| - 1;
      assert forall j | 0 <= j < n :: configs[..n][j] == configs[j] && results[..n][j] == results[j];
      MergeKeys(configs[..n], results[..n], cache);
      assert Symbols(configs) == Symbols(configs[..n]) + {configs[n].symbol} by {
        forall k | k in Symbols(configs) ensures k in Symbols(configs[..n]) + {configs[n].symbol} {
          var j :| 0 <= j < |configs| && configs[j].symbol == k;
          if j < n { assert configs[..n][j] == configs[j]; }
        }
      }
    }
  }

  /**
   * Each merged value is the cached one, or a later instrument (from index `n`
   * on) still has the same symbol to overwrite it.
   */
  lemma {:induction false} MergeValuesPrefix(
    configs: seq<StockConfig>, results: seq<FetchResult>, cache: map<string, Snapshot>, n: nat)
    requires |results| == |configs| && n <= |configs|
    requires forall j | 0 <= j < |configs| && results[j].HasValue() :: configs[j].symbol in cache
    requires forall j | 0 <= j < |configs| && results[j].HasValue() && LastOccurrence(configs, j) ::
      results[j].snapshot == cache[configs[j].symbol]
    ensures var merged := MergeResults(configs[..n], results[..n], cache);
      forall k | k in merged :: k in cache && (merged[k] == cache[k] || exists j :: n <= j < |configs| && configs[j].symbol == k)
    decreases n
  {
    if n > 0 {
      MergeValuesPrefix(configs, results, cache, n - 1);
      assert configs[..n][..n - 1] == configs[..n - 1];
      assert results[..n][..n - 1] == results[..n - 1];
      var i := n - 1;
      var merged := MergeResults(configs[..n], results[..n], cache);
      forall k | k in merged
        ensures k in cache && (merged[k] == cache[k] || exists j :: n <= j < |configs| && configs[j].symbol == k)
      {
        if k == configs[i].symbol && results[i].HasValue() && !LastOccurrence(configs, i) {
          var j :| i < j < |configs| && configs[j].symbol == k;
        }
      }
    }
  }

  /** The merge of a batch is the final cache restricted to the configured symbols. */
  lemma MergeIsCacheRestriction(configs: seq<StockConfig>, results: seq<FetchResult>, cache: map<string, Snapshot>)
    requires |results| == |configs|
    requires forall j | 0 <= j < |configs| && results[j].HasValue() :: configs[j].symbol in cache
    requires forall j | 0 <= j < |configs| && results[j].HasValue() && LastOccurrence(configs, j) ::
      results[j].snapshot == cache[configs[j].symbol]
    ensures MergeResults(configs, results, cache).Keys == Symbols(configs) * cache.Keys
    ensures forall k | k in MergeResults(configs, results, cache) :: MergeResults(configs, results, cache)[k] == cache[k]
  {
    MergeKeys(configs, results, cache);
    MergeValuesPrefix(configs, results, cache, |configs|);
    assert configs[..|configs|] == configs && results[..|configs|] == results;
  }

  /**
   * Settle and merge a batch of attempts: no failure aborts the batch, and a
   * symbol whose attempt failed with nothing cached is absent from the result.
   */
  function SettleBatch(m: Monitor, configs: seq<StockConfig>, attempts: seq<Result<Snapshot, FetchError>>, now: string): (r: (map<string, Snapshot>, Monitor))
    requires |attempts| == |configs|
    requires forall j | 0 <= j < |configs| && attempts[j].Ok? :: attempts[j].value.symbol == configs[j].symbol
    ensures r.0.Keys == Symbols(configs) * (m.cache.Keys + Written(configs, attempts))
    ensures forall k | k in r.0 :: k in r.1.cache && r.0[k] == r.1.cache[k]
    ensures r.1.cache.Keys == m.cache.Keys + Written(configs, attempts)
    ensures forall k | k in m.cache && k !in Written(configs, attempts) :: r.1.cache[k] == m.cache[k]
    ensures forall i | 0 <= i < |configs| && LastOccurrence(configs, i) && attempts[i].Ok? ::
      configs[i].symbol in r.0 && r.0[configs[i].symbol] == attempts[i].value
    ensures WellKeyed(m) ==> WellKeyed(r.1)
  {
    var batch := FetchInOrder(m, configs, attempts, now);
    FetchResultsFollowAttempts(m, configs, attempts, now);
    FetchWritesOnlySuccesses(m, configs, attempts, now);
    FetchResultsAgreeWithCache(m, configs, attempts, now);
    FetchKeepsCacheWellKeyed(m, configs, attempts, now);
    MergeIsCacheRestriction(configs, batch.results, batch.monitor.cache);
    (MergeResults(configs, batch.results, batch.monitor.cache), batch.monitor)
  }

  /**
   * Fetch a batch of instruments (`check_multiple_stocks`): a symbol is in the
   * result exactly when it is configured and either its fetch succeeded or the
   * cache already held it; one instrument's failure never removes another's entry.
   */
  function CheckMultipleStocks(m: Monitor, configs: seq<StockConfig>, replies: seq<ProviderReply>, now: string): (r: (map<string, Snapshot>, Monitor))
    requires |replies| == |configs|
    ensures r.0.Keys == Symbols(configs) * (m.cache.Keys + Succeeded(configs, replies, now))
    ensures forall k | k in r.0 :: k in r.1.cache && r.0[k] == r.1.cache[k]
    ensures forall k | k in r.0 && k !in Succeeded(configs, replies, now) :: r.0[k] == m.cache[k]
    ensures forall i | 0 <= i < |configs| && LastOccurrence(configs, i) && Attempt(configs[i], replies[i], now).Ok? ::
      configs[i].symbol in r.0 && r.0[configs[i].symbol] == Attempt(configs[i], replies[i], now).value
    ensures r.1.cache.Keys == m.cache.Keys + Succeeded(configs, replies, now)
    ensures forall k | k in m.cache && k !in Succeeded(configs, replies, now) :: r.1.cache[k] == m.cache[k]
    ensures WellKeyed(m) ==> WellKeyed(r.1)
  {
    SettleBatch(m, configs, Attempts(configs, replies, now), now)
  }
}
