/** The decision and aggregation part of `get_real_metrics`
    (generate_data.py): the burn as the day-over-day drop of the total
    supply, with a fee-based estimate as fallback; the sample scaled to a
    whole day at a fixed 25,000 ledgers; and the rule that an empty sample
    marks the entry as simulated with empty category dicts. The XRP price
    is an input (its fetch and the fallback price are not modelled), and
    `round(...)` is left out: every figure is the exact value before
    rounding. */
module DailyMetrics {
  import opened Py
  import opened Categories
  import opened SampleCommon
  import opened LedgerParse
  import opened DailySampling

  /** `LEDGERS_PER_DAY` */
  const LedgersPerDay: int := 25000

  /** The seven values `get_real_metrics` returns; `None` stands for
      Python's `None` and an empty map for `{}`. */
  datatype RealMetrics = RealMetrics(
    burnXrp: Option<real>,
    loadUsdM: Option<real>,
    totalTxM: Option<real>,
    txCats: map<Category, real>,
    loadCats: map<Category, real>,
    isSimulated: bool,
    currentTotalCoins: Option<real>)

  /** A dict with the four category keys, `{k: f(k) for k in tx_counts}`. */
  function PerCategory(f: Category -> real): map<Category, real>
  {
    map[Settlement := f(Settlement), Identity := f(Identity), Defi := f(Defi), AcctMgmt := f(AcctMgmt)]
  }

  /** The sum of a four-category dict's values. */
  function SumCats(m: map<Category, real>): real
    requires Settlement in m && Identity in m && Defi in m && AcctMgmt in m
  {
    m[Settlement] + m[Identity] + m[Defi] + m[AcctMgmt]
  }

  /** `x * scale / 1e6`: a sampled quantity scaled to a day, in millions. */
  function Millions(x: real, scale: real): real
  {
    x * scale / 1000000.0
  }

  /** `load_usd_m * (v / total_sampled)` */
  function Share(load: real, n: nat, total: nat): real
    requires total > 0
  {
    load * (n as real / total as real)
  }

  /** `{k: round(v * scale / 1e6, 4) for k, v in tx_counts.items()}` */
  function ScaledCounts(c: Counts, scale: real): map<Category, real>
  {
    PerCategory(k => Millions(c.Of(k) as real, scale))
  }

  /** `{k: round(load_usd_m * (tx_counts_raw[k] / total_raw), 2) for k in tx_counts_raw}` */
  function LoadShares(load: real, c: Counts): map<Category, real>
    requires c.Total() > 0
  {
    PerCategory(k => Share(load, c.Of(k), c.Total()))
  }

  /** The sample `get_real_metrics` uses when it does not sample: all counts
      zero and no ledger fetched. */
  const EmptySample: DailySample := DailySample(NoCounts, 0, 0, 0)

  /** Whether the sample holds anything: `ledgers_ok > 0 and total_sampled > 0`. */
  predicate Sampled(s: DailySample)
  {
    s.ledgersOk > 0 && s.txCounts.Total() > 0
  }

  /** `scale = LEDGERS_PER_DAY / ledgers_ok` */
  function DayScale(s: DailySample): real
    requires s.ledgersOk > 0
  {
    LedgersPerDay as real / s.ledgersOk as real
  }

  /** `load_usd_m = payment_vol_xrp * scale * xrp_price / 1e6`: the day's
      payment volume in millions of USD. */
  function LoadUsdM(s: DailySample, price: real): real
    requires s.ledgersOk > 0
  {
    Millions(PaymentXrp(s), DayScale(s)) * price
  }

  /** Step 3: `round(previous_total_coins - current_total_coins, 4)`, made
      non-negative with `abs`, when both totals are truthy; otherwise `None`.
      Within `update_data` the previous total is `None` or a number, since
      the history scan raises on any other stored supply before this runs;
      for any other value the subtraction would raise. */
  function DeltaBurn(previous: Value, currentCoins: Option<real>): Outcome<Option<real>>
  {
    if currentCoins.Some? && currentCoins.value != 0.0 && Truthy(previous) then
      var p :- NumberOf(previous);
      Returned(Some(AbsReal(p - currentCoins.value)))
    else Returned(None)
  }

  /** Step 4 onwards, for a given burn and sample. */
  function Aggregate(price: real, burn: Option<real>, s: DailySample, currentCoins: Option<real>): RealMetrics
  {
    if Sampled(s) then
      var scale := DayScale(s);
      var load := LoadUsdM(s, price);
      RealMetrics(
        if burn.Some? then burn else Some(Millions(s.feeDrops as real, scale)),
        Some(load),
        Some(Millions(s.txCounts.Total() as real, scale)),
        ScaledCounts(s.txCounts, scale),
        LoadShares(load, s.txCounts),
        false,
        currentCoins)
    else RealMetrics(burn, None, None, map[], map[], true, currentCoins)
  }

  /** Everything after the server info and the sample are known. */
  function Decide(price: real, previous: Value, currentCoins: Option<real>, s: DailySample): Outcome<RealMetrics>
  {
    var burn :- DeltaBurn(previous, currentCoins);
    Returned(Aggregate(price, burn, s, currentCoins))
  }

  /** `get_real_metrics(previous_total_coins)` as a whole: parse the server
      info, take the burn, sample the ledgers when the current ledger index
      is truthy, aggregate. */
  function RealMetricsOf(price: real, previous: Value, serverResult: Option<map<string, Value>>,
                         fetch: int -> Option<seq<Value>>): Outcome<RealMetrics>
  {
    var server :- GetServerInfo(serverResult);
    var coins := if server.Some? then Some(server.value.totalCoinsXrp) else None;
    var burn :- DeltaBurn(previous, coins);
    var s :- if server.Some? && server.value.ledgerIndex != 0
             then DailyReference(Fetched(fetch, server.value.ledgerIndex, SampleLedgerCount))
             else Returned(EmptySample);
    Returned(Aggregate(price, burn, s, coins))
  }

  /** `get_real_metrics`: `serverResult` is what the `server_info` call
      returned and `fetch` stands for `get_ledger_transactions`. */
  method GetRealMetrics(price: real, previous: Value, serverResult: Option<map<string, Value>>,
                        fetch: int -> Option<seq<Value>>)
    returns (r: Outcome<RealMetrics>)
    ensures r == RealMetricsOf(price, previous, serverResult, fetch)
  {
    var server :- GetServerInfo(serverResult);
    var currentTotalCoins := if server.Some? then Some(server.value.totalCoinsXrp) else None;
    var currentLedger := if server.Some? then Some(server.value.ledgerIndex) else None;
    var burn :- DeltaBurn(previous, currentTotalCoins);
    var sample := EmptySample;
    if currentLedger.Some? && currentLedger.value != 0 {
      sample :- SampleLedgers(currentLedger.value, fetch);
    }
    return Returned(Aggregate(price, burn, sample, currentTotalCoins));
  }

  // ---------------------------------------------------------------------
  // What the metrics promise
  // ---------------------------------------------------------------------

  /** The delta burn: when both totals are truthy it is the absolute
      difference, never negative, or an exception when the stored total is
      not a number; otherwise there is none. */
  lemma DeltaBurnRule(previous: Value, currentCoins: Option<real>)
    ensures var both := currentCoins.Some? && currentCoins.value != 0.0 && Truthy(previous);
      var r := DeltaBurn(previous, currentCoins);
      && (r == Raised <==> both && NumberOf(previous).Raised?)
      && (both && NumberOf(previous).Returned? ==>
            var delta := NumberOf(previous).value - currentCoins.value;
            r == Returned(Some(if delta < 0.0 then -delta else delta)) && r.value.value >= 0.0)
      && (!both ==> r == Returned(None))
  {
  }

  /** A delta burn is kept as it is; without one, the burn is the sampled
      fees scaled to a day, `fee_drops * scale / 1e6`, when the sample holds
      anything, and `None` otherwise. */
  lemma BurnFallback(price: real, burn: Option<real>, s: DailySample, currentCoins: Option<real>)
    ensures burn.Some? ==> Aggregate(price, burn, s, currentCoins).burnXrp == burn
    ensures burn.None? && Sampled(s) ==>
      Aggregate(price, burn, s, currentCoins).burnXrp == Some(s.feeDrops as real * DayScale(s) / 1000000.0)
    ensures burn.None? && !Sampled(s) ==> Aggregate(price, burn, s, currentCoins).burnXrp == None
  {
  }

  /** The "empty categories = simulated" rule: the entry is simulated
      exactly when the sample is empty, and then both category dicts are
      `{}` and the load and transaction totals are `None`; otherwise both
      dicts hold exactly the four categories and the totals are present. */
  lemma SimulatedRule(price: real, burn: Option<real>, s: DailySample, currentCoins: Option<real>)
    ensures var m := Aggregate(price, burn, s, currentCoins);
      && (m.isSimulated <==> !Sampled(s))
      && (m.isSimulated ==>
            m.txCats == map[] && m.loadCats == map[] && m.loadUsdM == None && m.totalTxM == None)
      && (!m.isSimulated ==>
            m.txCats.Keys == AllCategories && m.loadCats.Keys == AllCategories &&
            m.loadUsdM.Some? && m.totalTxM.Some?)
      && m.currentTotalCoins == currentCoins
  {
  }

  /** Every category count is scaled and expressed in millions, so the
      categories add up to the scaled total. */
  lemma ScaledCountsAddUp(c: Counts, scale: real)
    ensures var m := ScaledCounts(c, scale);
      && (forall k :: k in m && m[k] == Millions(c.Of(k) as real, scale))
      && SumCats(m) == Millions(c.Total() as real, scale)
  {
    var m := ScaledCounts(c, scale);
    forall k ensures k in m && m[k] == Millions(c.Of(k) as real, scale) {
      match k
      case Settlement =>
      case Identity =>
      case Defi =>
      case AcctMgmt =>
    }
    MillionsAdd(c.settlement as real, c.identity as real, c.defi as real, c.acctMgmt as real, scale);
  }

  lemma MillionsAdd(a: real, b: real, c: real, d: real, scale: real)
    ensures Millions(a, scale) + Millions(b, scale) + Millions(c, scale) + Millions(d, scale)
         == Millions(a + b + c + d, scale)
  {
    var x := scale / 1000000.0;
    assert Millions(a, scale) == a * x && Millions(b, scale) == b * x;
    assert Millions(c, scale) == c * x && Millions(d, scale) == d * x;
    assert Millions(a + b + c + d, scale) == (a + b + c + d) * x;
  }

  /** The load is split in proportion to the counts, so the category loads
      add up to the load. */
  lemma LoadSharesAddUp(load: real, c: Counts)
    requires c.Total() > 0
    ensures var m := LoadShares(load, c);
      && (forall k :: k in m && m[k] == Share(load, c.Of(k), c.Total()))
      && SumCats(m) == load
  {
    var m := LoadShares(load, c);
    forall k ensures k in m && m[k] == Share(load, c.Of(k), c.Total()) {
      match k
      case Settlement =>
      case Identity =>
      case Defi =>
      case AcctMgmt =>
    }
    SharesAdd(load, c.settlement, c.identity, c.defi, c.acctMgmt);
  }

  lemma SharesAdd(load: real, a: nat, b: nat, c: nat, d: nat)
    requires a + b + c + d > 0
    ensures var t := a + b + c + d;
      Share(load, a, t) + Share(load, b, t) + Share(load, c, t) + Share(load, d, t) == load
  {
    var t := (a + b + c + d) as real;
    var x, y, z, w := a as real / t, b as real / t, c as real / t, d as real / t;
    assert x + y + z + w == 1.0;
    assert load * x + load * y + load * z + load * w == load * (x + y + z + w);
  }

  /** For a non-empty sample the day's figures are the sample scaled by
      `25,000 / ledgers_ok`, in millions (the load also priced in USD), and
      both category dicts add up to their totals. */
  lemma CategoriesAddUp(price: real, burn: Option<real>, s: DailySample, currentCoins: Option<real>)
    requires Sampled(s)
    ensures var m := Aggregate(price, burn, s, currentCoins);
      && m.totalTxM == Some(Millions(s.txCounts.Total() as real, DayScale(s)))
      && m.loadUsdM == Some(LoadUsdM(s, price))
      && (forall k :: k in m.txCats && m.txCats[k] == Millions(s.txCounts.Of(k) as real, DayScale(s)))
      && SumCats(m.txCats) == m.totalTxM.value
      && SumCats(m.loadCats) == m.loadUsdM.value
  {
    var m := Aggregate(price, burn, s, currentCoins);
    var scale := DayScale(s);
    var load := LoadUsdM(s, price);
    assert m.txCats == ScaledCounts(s.txCounts, scale) && m.totalTxM == Some(Millions(s.txCounts.Total() as real, scale));
    assert m.loadCats == LoadShares(load, s.txCounts) && m.loadUsdM == Some(load);
    ScaledCountsAddUp(s.txCounts, scale);
    LoadSharesAddUp(load, s.txCounts);
  }

  /** When no node answers, nothing is sampled: the entry is simulated,
      has no burn and no supply to store. */
  lemma Unreachable(price: real, previous: Value, fetch: int -> Option<seq<Value>>)
    ensures RealMetricsOf(price, previous, None, fetch) ==
      Returned(RealMetrics(None, None, None, map[], map[], true, None))
  {
  }

  /** A server that reports ledger index 0 is not sampled either; the burn
      then comes only from the supply delta. */
  lemma ZeroLedgerNotSampled(price: real, previous: Value, serverResult: Option<map<string, Value>>,
                             fetch: int -> Option<seq<Value>>)
    requires GetServerInfo(serverResult).Returned?
    requires var info := GetServerInfo(serverResult).value;
      info.Some? && info.value.ledgerIndex == 0
    ensures RealMetricsOf(price, previous, serverResult, fetch) ==
      Decide(price, previous, Some(GetServerInfo(serverResult).value.value.totalCoinsXrp), EmptySample)
    ensures RealMetricsOf(price, previous, serverResult, fetch).Returned? ==>
      RealMetricsOf(price, previous, serverResult, fetch).value.isSimulated
  {
  }
}
