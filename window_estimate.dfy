/** The aggregation block of `main` (check_today.py, lines 161-185 and
    200-201): the sample is scaled to the window by
    `ledgers_in_win / max(ledgers_ok, 1)`; the payment volume is the upper
    median of the kept amounts times the truncated, scaled settlement
    count; transaction counts are truncated with `int()`. The XRP price is
    an input. */
module WindowEstimate {
  import opened Py
  import opened Categories
  import opened SampleCommon
  import opened LedgerParse
  import opened WindowSampling
  import opened Sorting

  /** What the block computes. Amounts are in XRP except `medianDrops`. */
  datatype Estimate = Estimate(
    totalSampled: nat,
    scale: real,
    medianDrops: int,
    paymentCountWindow: int,
    paymentVolWindow: real,
    rawSumXrp: real,
    feeBurnEst: real,
    totalTxWin: int,
    txCatsWin: map<Category, int>,
    avgTxLedger: real,
    loadUsdM: real,
    rawLoadUsdM: real)

  /** A product of two reals, kept behind a name so that the solver treats
      each product as one term. */
  function Times(x: real, y: real): real
  {
    x * y
  }

  /** `ledgers_in_win / max(ledgers_ok, 1)` */
  function WindowScale(ledgersInWin: int, ledgersOk: nat): real
  {
    ledgersInWin as real / (if ledgersOk > 1 then ledgersOk else 1) as real
  }

  /** `{k: int(v * scale) for k, v in tx_counts.items()}` */
  function TruncatedCounts(c: Counts, scale: real): map<Category, int>
  {
    map[Settlement := Trunc(Times(c.settlement as real, scale)),
        Identity := Trunc(Times(c.identity as real, scale)),
        Defi := Trunc(Times(c.defi as real, scale)),
        AcctMgmt := Trunc(Times(c.acctMgmt as real, scale))]
  }

  /** `total_tx_win = int(total_sampled * scale)` */
  function ScaledTotal(c: Counts, scale: real): int
  {
    Trunc(Times(c.Total() as real, scale))
  }

  /** `median_payment`: the upper median of the sorted amounts, 0 without
      amounts. */
  function MedianDrops(amounts: seq<int>): int
  {
    if amounts != [] then UpperMedian(SortAsc(amounts)) else 0
  }

  /** `payment_count_window`: `int(payment_count * scale)`, 0 without
      amounts. */
  function PaymentCount(amounts: seq<int>, c: Counts, scale: real): int
  {
    if amounts != [] then Trunc(Times(c.settlement as real, scale)) else 0
  }

  /** `sum(tx_per_ledger) / max(len(tx_per_ledger), 1)` */
  function Average(xs: seq<int>): real
  {
    Sum(xs) as real / (if |xs| > 1 then |xs| else 1) as real
  }

  /** Lines 161-185 and 200-201 of check_today.py for a sample, the number
      of ledgers in the window and the XRP price. */
  function EstimateOf(s: WindowSample, ledgersInWin: int, price: real): Estimate
  {
    var scale := WindowScale(ledgersInWin, s.ledgersOk);
    var medianDrops := MedianDrops(s.amounts);
    var count := PaymentCount(s.amounts, s.txCounts, scale);
    var vol := Times(XrpOfDrops(medianDrops), count as real);
    var rawSum := Times(XrpOfDrops(Sum(s.amounts)), scale);
    Estimate(
      s.txCounts.Total(),
      scale,
      medianDrops,
      count,
      vol,
      rawSum,
      Times(s.feeDrops as real, scale) / 1000000.0,
      ScaledTotal(s.txCounts, scale),
      TruncatedCounts(s.txCounts, scale),
      Average(s.txPerLedger),
      Times(vol, price) / 1000000.0,
      Times(rawSum, price) / 1000000.0)
  }

  /** The block as the script runs it: `payment_amounts.sort()` sorts the
      list in place before the median is read. */
  method EstimateWindow(s: WindowSample, ledgersInWin: int, price: real) returns (e: Estimate)
    ensures e == EstimateOf(s, ledgersInWin, price)
  {
    var totalSampled := s.txCounts.Total();
    var scale := WindowScale(ledgersInWin, s.ledgersOk);
    var paymentAmounts := SortedCopy(s.amounts);
    var medianDrops, paymentCountWindow, paymentVolWindow;
    if paymentAmounts.Length > 0 {
      medianDrops := paymentAmounts[paymentAmounts.Length / 2];
      paymentCountWindow := Trunc(Times(s.txCounts.settlement as real, scale));
      paymentVolWindow := Times(XrpOfDrops(medianDrops), paymentCountWindow as real);
    } else {
      paymentVolWindow := Times(XrpOfDrops(0), 0 as real);
      paymentCountWindow := 0;
      medianDrops := 0;
    }
    assert medianDrops == MedianDrops(s.amounts);
    assert paymentCountWindow == PaymentCount(s.amounts, s.txCounts, scale);
    // `sum` is the same over the sorted list
    var rawSumXrp := Times(XrpOfDrops(Sum(s.amounts)), scale);
    var feeBurnEst := Times(s.feeDrops as real, scale) / 1000000.0;
    var totalTxWin := Trunc(Times(totalSampled as real, scale));
    var txCatsWin := TruncatedCounts(s.txCounts, scale);
    var avgTxLedger := Average(s.txPerLedger);
    var loadUsdM := Times(paymentVolWindow, price) / 1000000.0;
    var rawLoadUsdM := Times(rawSumXrp, price) / 1000000.0;
    return Estimate(totalSampled, scale, medianDrops, paymentCountWindow, paymentVolWindow,
                    rawSumXrp, feeBurnEst, totalTxWin, txCatsWin, avgTxLedger, loadUsdM, rawLoadUsdM);
  }

  /** `payment_amounts` copied into an array and sorted there in place. */
  method SortedCopy(amounts: seq<int>) returns (a: array<int>)
    ensures a[..] == SortAsc(amounts)
  {
    a := new int[|amounts|](i requires 0 <= i < |amounts| => amounts[i]);
    assert a[..] == amounts;
    SortInPlace(a);
    SortInPlaceIsSortAsc(amounts, a[..]);
  }

  // ---------------------------------------------------------------------
  // What the estimate promises
  // ---------------------------------------------------------------------

  /** The scale is defined even when no ledger was fetched (it is then the
      window's ledger count itself), and otherwise spreads the window's
      ledgers over the fetched ones. */
  lemma ScaleDefined(ledgersInWin: int, ledgersOk: nat)
    ensures var scale := WindowScale(ledgersInWin, ledgersOk);
      && (ledgersOk <= 1 ==> scale == ledgersInWin as real)
      && (ledgersOk >= 1 ==> scale * ledgersOk as real == ledgersInWin as real)
      && (ledgersInWin >= 0 <==> scale >= 0.0)
  {
  }

  /** Without kept amounts the volume, the payment count, the median and
      the load are all zero. */
  lemma NoPayments(s: WindowSample, ledgersInWin: int, price: real)
    requires s.amounts == []
    ensures var e := EstimateOf(s, ledgersInWin, price);
      e.paymentVolWindow == 0.0 && e.paymentCountWindow == 0 && e.medianDrops == 0 &&
      e.loadUsdM == 0.0 && e.rawSumXrp == 0.0 && e.rawLoadUsdM == 0.0
  {
  }

  /** With kept amounts, the median is the upper median of the sorted
      amounts: one of them, at least the lower half and at most the upper
      half, and never above the cap when the amounts are not. */
  lemma MedianOfAmounts(amounts: seq<int>)
    requires amounts != []
    ensures var sorted, m := SortAsc(amounts), MedianDrops(amounts);
      && m == sorted[|amounts| / 2]
      && m in multiset(amounts)
      && (forall i | 0 <= i <= |amounts| / 2 :: sorted[i] <= m)
      && (forall i | |amounts| / 2 <= i < |amounts| :: m <= sorted[i])
      && ((forall k | 0 <= k < |amounts| :: amounts[k] <= MaxPaymentDrops) ==> m <= MaxPaymentDrops)
  {
    MedianOfSorted(amounts);
    assert MedianDrops(amounts) in amounts;
  }

  /** With kept amounts, the volume is the median (in XRP) times the
      settlement count scaled to the window and truncated, and the load is
      that volume priced in millions of USD. */
  lemma VolumeOfMedian(s: WindowSample, ledgersInWin: int, price: real)
    requires s.amounts != []
    ensures var e := EstimateOf(s, ledgersInWin, price);
      && e.medianDrops == MedianDrops(s.amounts)
      && e.paymentCountWindow == Trunc(s.txCounts.settlement as real * e.scale)
      && e.paymentVolWindow == e.medianDrops as real / 1000000.0 * e.paymentCountWindow as real
      && e.loadUsdM == e.paymentVolWindow * price / 1000000.0
  {
  }

  /** Every category count is the scaled count truncated; the truncations
      lose at most one transaction per category, so the categories add up
      to the truncated total or fall short of it (for a window of negative
      length, exceed it) by at most three. */
  lemma TruncatedCategories(c: Counts, scale: real)
    ensures var m, total := TruncatedCounts(c, scale), ScaledTotal(c, scale);
      var sum := m[Settlement] + m[Identity] + m[Defi] + m[AcctMgmt];
      && (forall k :: k in m && m[k] == Trunc(Times(c.Of(k) as real, scale)))
      && total == Trunc(Times(c.Total() as real, scale))
      && (scale >= 0.0 ==> 0 <= total - sum <= 3)
      && (scale < 0.0 ==> 0 <= sum - total <= 3)
  {
    TruncatedCountsAt(c, scale);
    var a, b, d, f := Times(c.settlement as real, scale), Times(c.identity as real, scale),
                      Times(c.defi as real, scale), Times(c.acctMgmt as real, scale);
    var t := Times(c.Total() as real, scale);
    assert t == a + b + d + f by {
      TimesAdd(c.settlement as real, c.identity as real, c.defi as real, c.acctMgmt as real, scale);
    }
    assert (scale >= 0.0 ==> a >= 0.0 && b >= 0.0 && d >= 0.0 && f >= 0.0) &&
           (scale < 0.0 ==> a <= 0.0 && b <= 0.0 && d <= 0.0 && f <= 0.0) by {
      TimesSign(c.settlement as real, scale);
      TimesSign(c.identity as real, scale);
      TimesSign(c.defi as real, scale);
      TimesSign(c.acctMgmt as real, scale);
    }
    var m := TruncatedCounts(c, scale);
    assert m[Settlement] + m[Identity] + m[Defi] + m[AcctMgmt] ==
           Trunc(a) + Trunc(b) + Trunc(d) + Trunc(f);
    TruncSum(a, b, d, f, t);
  }

  lemma TruncatedCountsAt(c: Counts, scale: real)
    ensures forall k :: (k in TruncatedCounts(c, scale) &&
      TruncatedCounts(c, scale)[k] == Trunc(Times(c.Of(k) as real, scale)))
  {
    var m := TruncatedCounts(c, scale);
    forall k ensures k in m && m[k] == Trunc(Times(c.Of(k) as real, scale)) {
      match k
      case Settlement =>
      case Identity =>
      case Defi =>
      case AcctMgmt =>
    }
  }

  /** A non-negative number times the scale has the scale's sign. */
  lemma TimesSign(x: real, scale: real)
    requires x >= 0.0
    ensures scale >= 0.0 ==> Times(x, scale) >= 0.0
    ensures scale < 0.0 ==> Times(x, scale) <= 0.0
  {
  }

  lemma TimesMonotone(x: real, y: real, scale: real)
    requires x <= y && scale >= 0.0
    ensures Times(x, scale) <= Times(y, scale)
  {
    assert (y - x) * scale >= 0.0;
  }

  lemma TimesAdd(a: real, b: real, c: real, d: real, x: real)
    ensures Times(a, x) + Times(b, x) + Times(c, x) + Times(d, x) == Times(a + b + c + d, x)
  {
  }

  /** Four truncations of numbers of one sign lose less than four units
      in all. */
  lemma TruncSum(a: real, b: real, c: real, d: real, t: real)
    requires t == a + b + c + d
    ensures var sum := Trunc(a) + Trunc(b) + Trunc(c) + Trunc(d);
      && (a >= 0.0 && b >= 0.0 && c >= 0.0 && d >= 0.0 ==> 0 <= Trunc(t) - sum <= 3)
      && (a <= 0.0 && b <= 0.0 && c <= 0.0 && d <= 0.0 ==> 0 <= sum - Trunc(t) <= 3)
  {
    TruncBounds(a);
    TruncBounds(b);
    TruncBounds(c);
    TruncBounds(d);
    TruncBounds(t);
  }

  /** For a window of non-negative length, the payment count is at most the
      transaction total: settlement transactions are among the sampled ones
      and truncation is monotone. */
  lemma PaymentCountWithinTotal(amounts: seq<int>, c: Counts, scale: real)
    requires scale >= 0.0
    ensures 0 <= PaymentCount(amounts, c, scale) <= ScaledTotal(c, scale)
  {
    TimesMonotone(c.settlement as real, c.Total() as real, scale);
    TimesSign(c.settlement as real, scale);
    TruncMonotone(0.0, Times(c.Total() as real, scale));
    TruncMonotone(0.0, Times(c.settlement as real, scale));
    TruncMonotone(Times(c.settlement as real, scale), Times(c.Total() as real, scale));
  }

  /** For a sample the loop produced, the average per fetched ledger is the
      number of sampled transactions over the number of fetched ledgers. */
  lemma AverageIsPerLedger(ls: seq<Option<seq<Value>>>, ledgersInWin: int, price: real)
    requires WindowReference(ls).Returned?
    ensures var s := WindowReference(ls).value;
      EstimateOf(s, ledgersInWin, price).avgTxLedger ==
        s.txCounts.Total() as real / (if s.ledgersOk > 1 then s.ledgersOk else 1) as real
  {
    WindowShape(ls);
  }
}
