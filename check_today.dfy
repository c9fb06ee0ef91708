/** The steps of `main` (check_today.py) that decide the window: parse the
    current validated ledger, search for the ledger at local midnight, take
    the supply drop and the number of ledgers between the two, then sample
    and estimate. `currentResult` is what the `ledger` call for the
    validated ledger returned, `ledgerFetch` answers the search's `ledger`
    calls and `txFetch` the sampling loop's; the clock is the input
    `midnight` (Unix seconds). */
module CheckToday {
  import opened Py
  import opened LedgerParse
  import opened Resolver
  import opened SampleCommon
  import opened WindowSampling
  import opened WindowEstimate

  /** The two ends of the window and what `main` derives from them. */
  datatype Window = Window(current: Snapshot, start: Snapshot, burned: real, ledgersInWin: int)

  /** Everything `main` computes before printing its report. */
  datatype Report = Report(window: Window, sample: WindowSample, estimate: Estimate)

  /** `snapshot["coins"]` is truthy: present and not zero. */
  predicate HasCoins(s: Snapshot)
  {
    s.coins.Some? && s.coins.value != 0.0
  }

  /** Lines 100-119: `None` where `main` prints a failure and returns; an
      exception where it would raise (a current ledger without close time
      reaches `.astimezone` on `None`). */
  function WindowOf(currentResult: Option<map<string, Value>>, midnight: int,
                    ledgerFetch: int -> Option<map<string, Value>>): Outcome<Option<Window>>
  {
    var current :- ParseLedger(currentResult);
    WindowFrom(current, midnight, ledgerFetch)
  }

  /** Lines 102-119 for the parsed current ledger. */
  function WindowFrom(current: Option<Snapshot>, midnight: int,
                      ledgerFetch: int -> Option<map<string, Value>>): Outcome<Option<Window>>
  {
    if current.None? || !HasCoins(current.value) then Returned(None)
    else if current.value.time.None? then Raised
    else
      var start :- Search(midnight, current.value.sequence, current.value.time.value, ledgerFetch);
      Returned(Closing(current.value, start))
  }

  /** Lines 112-119 for the ledger the search found. */
  function Closing(current: Snapshot, start: Option<Snapshot>): Option<Window>
    requires HasCoins(current)
  {
    if start.None? || !HasCoins(start.value) then None
    else
      var st := start.value;
      Some(Window(current, st, st.coins.value - current.coins.value, current.sequence - st.sequence))
  }

  method LocateWindow(currentResult: Option<map<string, Value>>, midnight: int,
                      ledgerFetch: int -> Option<map<string, Value>>)
    returns (r: Outcome<Option<Window>>)
    ensures r == WindowOf(currentResult, midnight, ledgerFetch)
  {
    var current :- ParseLedger(currentResult);
    r := LocateFrom(current, midnight, ledgerFetch);
  }

  method LocateFrom(current: Option<Snapshot>, midnight: int,
                    ledgerFetch: int -> Option<map<string, Value>>)
    returns (r: Outcome<Option<Window>>)
    ensures r == WindowFrom(current, midnight, ledgerFetch)
  {
    if current.None? || !HasCoins(current.value) {
      return Returned(None);
    }
    if current.value.time.None? {
      return Raised;
    }
    var start :- FindLedgerAt(midnight, current.value.sequence, current.value.time.value, ledgerFetch);
    if start.None? || !HasCoins(start.value) {
      return Returned(None);
    }
    var burned := start.value.coins.value - current.value.coins.value;
    var ledgersInWin := current.value.sequence - start.value.sequence;
    return Returned(Some(Window(current.value, start.value, burned, ledgersInWin)));
  }

  /** Lines 100-201 as a whole. */
  function CheckTodayOf(currentResult: Option<map<string, Value>>, midnight: int,
                        ledgerFetch: int -> Option<map<string, Value>>,
                        txFetch: int -> Option<seq<Value>>, price: real): Outcome<Option<Report>>
  {
    var w :- WindowOf(currentResult, midnight, ledgerFetch);
    if w.None? then Returned(None)
    else
      var s :- WindowReference(Fetched(txFetch, w.value.current.sequence, SampleLedgerCount));
      Returned(Some(Report(w.value, s, EstimateOf(s, w.value.ledgersInWin, price))))
  }

  method CheckToday(currentResult: Option<map<string, Value>>, midnight: int,
                    ledgerFetch: int -> Option<map<string, Value>>,
                    txFetch: int -> Option<seq<Value>>, price: real)
    returns (r: Outcome<Option<Report>>)
    ensures r == CheckTodayOf(currentResult, midnight, ledgerFetch, txFetch, price)
  {
    var w :- LocateWindow(currentResult, midnight, ledgerFetch);
    if w.None? {
      return Returned(None);
    }
    var s :- SampleWindow(w.value.current.sequence, txFetch);
    var e := EstimateWindow(s, w.value.ledgersInWin, price);
    return Returned(Some(Report(w.value, s, e)));
  }

  // ---------------------------------------------------------------------
  // What the window promises
  // ---------------------------------------------------------------------

  /** A window exists only between two ledgers with a non-zero supply, the
      start being the search's answer from the current ledger; the burn is
      the plain supply difference, with no absolute value, so it is
      negative exactly when the supply grew, and the ledger count is the
      difference of the sequence numbers. */
  lemma WindowEnds(currentResult: Option<map<string, Value>>, midnight: int,
                   ledgerFetch: int -> Option<map<string, Value>>)
    requires WindowOf(currentResult, midnight, ledgerFetch).Returned?
    requires WindowOf(currentResult, midnight, ledgerFetch).value.Some?
    ensures var w := WindowOf(currentResult, midnight, ledgerFetch).value.value;
      && ParseLedger(currentResult) == Returned(Some(w.current))
      && w.current.time.Some?
      && Search(midnight, w.current.sequence, w.current.time.value, ledgerFetch) == Returned(Some(w.start))
      && HasCoins(w.current) && HasCoins(w.start)
      && w.burned == w.start.coins.value - w.current.coins.value
      && (w.burned < 0.0 <==> w.start.coins.value < w.current.coins.value)
      && w.ledgersInWin == w.current.sequence - w.start.sequence
  {
  }

  /** The run stops without a window when the current ledger cannot be
      read or reports no supply, and raises when it reports a supply but no
      close time. */
  lemma NoWindow(currentResult: Option<map<string, Value>>, midnight: int,
                 ledgerFetch: int -> Option<map<string, Value>>)
    ensures ParseLedger(currentResult) == Returned(None) ==>
      WindowOf(currentResult, midnight, ledgerFetch) == Returned(None)
    ensures ParseLedger(currentResult).Returned? && ParseLedger(currentResult).value.Some? ==>
      var cur := ParseLedger(currentResult).value.value;
      && (!HasCoins(cur) ==> WindowOf(currentResult, midnight, ledgerFetch) == Returned(None))
      && (HasCoins(cur) && cur.time.None? ==> WindowOf(currentResult, midnight, ledgerFetch) == Raised)
  {
  }

  /** A report samples the 60 ledgers ending at the current one and scales
      them to the window: at most 60 ledgers fetched, one per-ledger count
      each, every kept amount at most the cap, and a payment count no
      larger than the scaled transaction total when the window has
      non-negative length. */
  lemma ReportShape(currentResult: Option<map<string, Value>>, midnight: int,
                    ledgerFetch: int -> Option<map<string, Value>>,
                    txFetch: int -> Option<seq<Value>>, price: real)
    requires CheckTodayOf(currentResult, midnight, ledgerFetch, txFetch, price).Returned?
    requires CheckTodayOf(currentResult, midnight, ledgerFetch, txFetch, price).value.Some?
    ensures var r := CheckTodayOf(currentResult, midnight, ledgerFetch, txFetch, price).value.value;
      && r.sample.ledgersOk <= 60
      && |r.sample.txPerLedger| == r.sample.ledgersOk
      && (forall k | 0 <= k < |r.sample.amounts| :: r.sample.amounts[k] <= MaxPaymentDrops)
      && (r.window.ledgersInWin >= 0 ==> 0 <= r.estimate.paymentCountWindow <= r.estimate.totalTxWin)
  {
    var r := CheckTodayOf(currentResult, midnight, ledgerFetch, txFetch, price).value.value;
    var ls := Fetched(txFetch, r.window.current.sequence, SampleLedgerCount);
    assert WindowReference(ls) == Returned(r.sample);
    WindowShape(ls);
    assert |ls| == 60;
    if r.window.ledgersInWin >= 0 {
      var scale := WindowScale(r.window.ledgersInWin, r.sample.ledgersOk);
      ScaleDefined(r.window.ledgersInWin, r.sample.ledgersOk);
      PaymentCountWithinTotal(r.sample.amounts, r.sample.txCounts, scale);
    }
  }
}
