/** The sampling block of `main` (check_today.py): the same walk over the
    60 most recent ledgers as `sample_ledgers`, but the XRP payment amounts
    are kept one by one, amounts above 10,000,000 XRP are left out, and the
    number of counted transactions of every fetched ledger is recorded. The
    `ledger` RPC call and the `res.get("ledger", {}).get("transactions", [])`
    that follows it are the oracle `fetch`. */
module WindowSampling {
  import opened Py
  import opened Categories
  import opened SampleCommon
  import DailySampling

  /** `MAX_PAYMENT_XRP` */
  const MaxPaymentXrp: int := 10000000

  /** `xrp_amt <= MAX_PAYMENT_XRP` with `xrp_amt = drops / 1e6` holds exactly
      when the drops are at most this bound. */
  const MaxPaymentDrops: int := MaxPaymentXrp * 1000000

  /** What the block leaves behind: `tx_counts`, `payment_amounts` (in drops,
      in the order met, before the later sort), `fee_drops`, `ledgers_ok` and
      `tx_per_ledger`. */
  datatype WindowSample = WindowSample(
    txCounts: Counts,
    amounts: seq<int>,
    feeDrops: int,
    ledgersOk: nat,
    txPerLedger: seq<int>)

  /** The amount a transaction adds to `payment_amounts`: the drops of an
      XRP payment not above the cap. */
  function KeptAmount(f: TxFacts): seq<int>
  {
    if f.xrpDrops.Some? && f.xrpDrops.value <= MaxPaymentDrops then [f.xrpDrops.value] else []
  }

  function CappedAmounts(fs: seq<TxFacts>): seq<int>
  {
    if fs == [] then [] else CappedAmounts(fs[..|fs| - 1]) + KeptAmount(fs[|fs| - 1])
  }

  /** The number of counted transactions of every ledger not skipped. */
  function PerLedger(ls: seq<Option<seq<Value>>>): seq<int>
  {
    if ls == [] then []
    else
      var l := ls[|ls| - 1];
      PerLedger(ls[..|ls| - 1]) + (if Kept(l) then [|CountedIn(TxsOf(l))|] else [])
  }

  /** The sample the block computes, defined over the visited ledgers. */
  function WindowReference(ls: seq<Option<seq<Value>>>): Outcome<WindowSample>
  {
    var fs :- AllFacts(CountedTxs(ls));
    Returned(WindowSample(Tally(fs), CappedAmounts(fs), FeeSum(fs), KeptCount(ls), PerLedger(ls)))
  }

  /** Lines 124-159 of check_today.py, for `current["seq"]`. */
  method SampleWindow(currentSeq: int, fetch: int -> Option<seq<Value>>)
    returns (r: Outcome<WindowSample>)
    ensures r == WindowReference(Fetched(fetch, currentSeq, SampleLedgerCount))
  {
    ghost var ls := Fetched(fetch, currentSeq, SampleLedgerCount);
    var txCounts := NoCounts;
    var paymentAmounts: seq<int> := [];
    var feeDrops := 0;
    var ledgersOk := 0;
    var txPerLedger: seq<int> := [];
    ghost var fs: seq<TxFacts> := [];
    for i := 0 to SampleLedgerCount
      invariant AllFacts(CountedTxs(ls[..i])) == Returned(fs)
      invariant txCounts == Tally(fs) && feeDrops == FeeSum(fs) && paymentAmounts == CappedAmounts(fs)
      invariant ledgersOk == KeptCount(ls[..i]) && txPerLedger == PerLedger(ls[..i])
    {
      var txs := fetch(currentSeq - i);
      LedgerStep(ls, i);
      PerLedgerStep(ls, i);
      if !Kept(txs) {
        SkippedContributesNothing(txs);
        assert CountedTxs(ls[..i + 1]) == CountedTxs(ls[..i]);
        continue;
      }
      ledgersOk := ledgersOk + 1;
      var raised, ledgerTxCount;
      raised, txCounts, paymentAmounts, feeDrops, ledgerTxCount, fs :=
        CountWindowLedger(txs.value, CountedTxs(ls[..i]), fs, txCounts, paymentAmounts, feeDrops);
      if raised {
        CountedTxsPrefix(ls, i + 1);
        AllFactsRaisedPrefix(CountedTxs(ls[..i + 1]), CountedTxs(ls));
        assert ls[..SampleLedgerCount] == ls;
        return Raised;
      }
      txPerLedger := txPerLedger + [ledgerTxCount];
    }
    assert ls[..SampleLedgerCount] == ls;
    return Returned(WindowSample(txCounts, paymentAmounts, feeDrops, ledgersOk, txPerLedger));
  }

  /** What the inner loop keeps after the first `j` transactions of `txs`:
      the running values are those of the facts `fs` of everything counted so
      far, and `n` is the number counted in this ledger. */
  ghost predicate Running(prior: seq<map<string, Value>>, txs: seq<Value>, j: nat, fs: seq<TxFacts>,
                          txCounts: Counts, amounts: seq<int>, feeDrops: int, n: int)
  {
    && j <= |txs|
    && AllFacts(prior + CountedIn(txs[..j])) == Returned(fs)
    && txCounts == Tally(fs) && feeDrops == FeeSum(fs) && amounts == CappedAmounts(fs)
    && n == |CountedIn(txs[..j])|
  }

  /** `for tx in txs` for one fetched ledger, continuing the running
      values, whose facts so far are `fs0`; also returns `ledger_tx_count`. */
  method CountWindowLedger(txs: seq<Value>, ghost prior: seq<map<string, Value>>, ghost fs0: seq<TxFacts>,
                           txCounts0: Counts, amounts0: seq<int>, feeDrops0: int)
    returns (raised: bool, txCounts: Counts, amounts: seq<int>, feeDrops: int, ledgerTxCount: int,
             ghost fs: seq<TxFacts>)
    requires AllFacts(prior) == Returned(fs0)
    requires txCounts0 == Tally(fs0) && feeDrops0 == FeeSum(fs0) && amounts0 == CappedAmounts(fs0)
    ensures raised <==> AllFacts(prior + CountedIn(txs)) == Raised
    ensures !raised ==> AllFacts(prior + CountedIn(txs)) == Returned(fs)
    ensures !raised ==> txCounts == Tally(fs) && feeDrops == FeeSum(fs) && amounts == CappedAmounts(fs)
    ensures !raised ==> ledgerTxCount == |CountedIn(txs)|
  {
    txCounts, amounts, feeDrops, fs := txCounts0, amounts0, feeDrops0, fs0;
    ledgerTxCount := 0;
    assert Running(prior, txs, 0, fs, txCounts, amounts, feeDrops, 0) by {
      assert CountedIn(txs[..0]) == [];
      assert prior + [] == prior;
    }
    for j := 0 to |txs|
      invariant Running(prior, txs, j, fs, txCounts, amounts, feeDrops, ledgerTxCount)
    {
      var tx := txs[j];
      // not a dict, or its metadata records a failure
      if !Counted(tx) {
        SkipStep(prior, txs, j, fs, txCounts, amounts, feeDrops, ledgerTxCount);
        continue;
      }
      var raised;
      ghost var before := txCounts;
      ghost var amountsBefore, feesBefore := amounts, feeDrops;
      raised, txCounts, amounts, feeDrops := CountWindowTransaction(tx.fields, txCounts, amounts, feeDrops);
      if raised {
        assert AllFacts(prior + CountedIn(txs)) == Raised by {
          RaisedAt(prior, fs, txs, j);
        }
        return true, txCounts, amounts, feeDrops, ledgerTxCount, fs;
      }
      ghost var f := FactsOf(tx.fields).value;
      CountedTxStep(prior, txs, j, fs, before, amountsBefore, feesBefore, ledgerTxCount, f);
      ledgerTxCount := ledgerTxCount + 1;
      fs := fs + [f];
    }
    assert txs[..|txs|] == txs;
    return false, txCounts, amounts, feeDrops, ledgerTxCount, fs;
  }

  lemma SkipStep(prior: seq<map<string, Value>>, txs: seq<Value>, j: nat, fs: seq<TxFacts>,
                 txCounts: Counts, amounts: seq<int>, feeDrops: int, n: int)
    requires j < |txs| && !Counted(txs[j])
    requires Running(prior, txs, j, fs, txCounts, amounts, feeDrops, n)
    ensures Running(prior, txs, j + 1, fs, txCounts, amounts, feeDrops, n)
  {
    assert CountedIn(txs[..j + 1]) == CountedIn(txs[..j]) by {
      CountedInStep(txs, j);
    }
  }

  lemma CountedTxStep(prior: seq<map<string, Value>>, txs: seq<Value>, j: nat, fs: seq<TxFacts>,
                      txCounts: Counts, amounts: seq<int>, feeDrops: int, n: int, f: TxFacts)
    requires j < |txs| && Counted(txs[j]) && FactsOf(txs[j].fields) == Returned(f)
    requires Running(prior, txs, j, fs, txCounts, amounts, feeDrops, n)
    ensures Running(prior, txs, j + 1, fs + [f], txCounts.Bump(f.category), amounts + KeptAmount(f),
                    feeDrops + f.fee, n + 1)
  {
    CountedStep(prior, txs, j);
    CountedInStep(txs, j);
    SumsStep(fs, f);
    CappedStep(fs, f);
  }

  /** The loop body for one counted transaction: classify it with
      `classify(tx.get("TransactionType", ""))`, add its fee and, for a
      payment whose amount is a string of drops not above the cap, append
      the amount. */
  method CountWindowTransaction(tx: map<string, Value>, txCounts0: Counts, amounts0: seq<int>, feeDrops0: int)
    returns (raised: bool, txCounts: Counts, amounts: seq<int>, feeDrops: int)
    ensures raised <==> FactsOf(tx).Raised?
    ensures !raised ==>
      var f := FactsOf(tx).value;
      && txCounts == txCounts0.Bump(f.category)
      && feeDrops == feeDrops0 + f.fee
      && amounts == amounts0 + KeptAmount(f)
  {
    ClassifyAgrees(tx, "");
    var cat := Classify(Get(tx, "TransactionType", Str("")));
    txCounts := txCounts0.Bump(cat);
    amounts := amounts0;
    var fee := IntOf(Get(tx, "Fee", Int(0)));
    if fee.Raised? {
      return true, txCounts, amounts, feeDrops0;
    }
    feeDrops := feeDrops0 + fee.value;
    if Get(tx, "TransactionType", Null) == Str("Payment") {
      var amt := Get(tx, "Amount", Int(0));
      if amt.Str? {
        var parsed := IntOf(amt);
        if parsed.Raised? {
          return true, txCounts, amounts, feeDrops;
        }
        if parsed.value <= MaxPaymentDrops {
          amounts := amounts + [parsed.value];
        }
      }
    }
    raised := false;
  }

  lemma CappedStep(fs: seq<TxFacts>, f: TxFacts)
    ensures CappedAmounts(fs + [f]) == CappedAmounts(fs) + KeptAmount(f)
  {
    assert (fs + [f])[..|fs|] == fs;
  }

  /** One step of the outer loop for `tx_per_ledger`. */
  lemma PerLedgerStep(ls: seq<Option<seq<Value>>>, i: nat)
    requires i < |ls|
    ensures PerLedger(ls[..i + 1]) ==
      PerLedger(ls[..i]) + (if Kept(ls[i]) then [|CountedIn(TxsOf(ls[i]))|] else [])
  {
    assert ls[..i + 1][..i] == ls[..i];
  }

  // ---------------------------------------------------------------------
  // What the sample promises
  // ---------------------------------------------------------------------

  /** At most 60 ledgers are counted as fetched, `tx_per_ledger` has one
      entry per fetched ledger and adds up to the counted transactions,
      every kept amount is at most the cap, and there are no more kept
      amounts than settlement transactions. */
  lemma {:induction false} WindowShape(ls: seq<Option<seq<Value>>>)
    requires WindowReference(ls).Returned?
    ensures var s := WindowReference(ls).value;
      && s.ledgersOk <= |ls|
      && |s.txPerLedger| == s.ledgersOk
      && Sum(s.txPerLedger) == s.txCounts.Total() == |CountedTxs(ls)|
      && (forall k | 0 <= k < |s.amounts| :: s.amounts[k] <= MaxPaymentDrops)
      && |s.amounts| <= s.txCounts.settlement
  {
    var fs := AllFacts(CountedTxs(ls)).value;
    PerLedgerShape(ls);
    AllFactsPointwise(CountedTxs(ls));
    TallyTotal(fs);
    CappedBelowCap(fs);
    AmountsWithinSettlement(CountedTxs(ls));
  }

  /** Only XRP payments, which are settlement transactions, leave an amount. */
  lemma {:induction false} AmountsWithinSettlement(txs: seq<map<string, Value>>)
    requires AllFacts(txs).Returned?
    ensures |CappedAmounts(AllFacts(txs).value)| <= Tally(AllFacts(txs).value).settlement
  {
    var fs := AllFacts(txs).value;
    AllFactsPointwise(txs);
    forall k | 0 <= k < |fs| && fs[k].xrpDrops.Some? ensures fs[k].category == Settlement {
      XrpPaymentIsSettlement(txs[k]);
    }
    CappedAtMostSettlement(fs);
  }

  lemma {:induction false} PerLedgerShape(ls: seq<Option<seq<Value>>>)
    ensures |PerLedger(ls)| == KeptCount(ls)
    ensures Sum(PerLedger(ls)) == |CountedTxs(ls)|
  {
    if ls != [] {
      var init, l := ls[..|ls| - 1], ls[|ls| - 1];
      PerLedgerShape(init);
      SumSnoc(PerLedger(init), |CountedIn(TxsOf(l))|);
      if !Kept(l) {
        SkippedContributesNothing(l);
        assert PerLedger(ls) == PerLedger(init);
      }
    }
  }

  lemma SumSnoc(xs: seq<int>, x: int)
    ensures Sum(xs + [x]) == Sum(xs) + x
  {
    assert (xs + [x])[..|xs|] == xs;
  }

  lemma {:induction false} CappedBelowCap(fs: seq<TxFacts>)
    ensures forall k | 0 <= k < |CappedAmounts(fs)| :: CappedAmounts(fs)[k] <= MaxPaymentDrops
  {
    if fs != [] {
      CappedBelowCap(fs[..|fs| - 1]);
    }
  }

  /** A transaction that moves XRP is a `Payment`, hence settlement. */
  lemma XrpPaymentIsSettlement(tx: map<string, Value>)
    requires FactsOf(tx).Returned? && FactsOf(tx).value.xrpDrops.Some?
    ensures FactsOf(tx).value.category == Settlement
  {
    assert IsXrpPayment(tx);
    assert "Payment" in SettlementTypes;
  }

  lemma {:induction false} CappedAtMostSettlement(fs: seq<TxFacts>)
    requires forall k | 0 <= k < |fs| && fs[k].xrpDrops.Some? :: fs[k].category == Settlement
    ensures |CappedAmounts(fs)| <= CategoryCount(fs, Settlement)
  {
    if fs != [] {
      var init := fs[..|fs| - 1];
      assert forall k | 0 <= k < |init| :: init[k] == fs[k];
      CappedAtMostSettlement(init);
    }
  }

  /** A payment of more than 10,000,000 XRP is left out of the amounts but
      still counted as a settlement transaction: excluded, not clamped. */
  lemma WhaleExcluded(tx: map<string, Value>, drops: int)
    requires Get(tx, "TransactionType", Null) == Str("Payment")
    requires Get(tx, "Amount", Int(0)) == Str(Decimal(drops))
    requires IntOf(Get(tx, "Fee", Int(0))).Returned?
    requires drops > MaxPaymentDrops
    ensures FactsOf(tx).Returned?
    ensures FactsOf(tx).value.category == Settlement && FactsOf(tx).value.xrpDrops == Some(drops)
    ensures KeptAmount(FactsOf(tx).value) == []
  {
    IntOfDecimal(drops);
    XrpPaymentIsSettlement(tx);
  }

  /** The two sampling loops agree: they raise on the same ledgers, and
      otherwise find the same category counts, fee total and number of
      fetched ledgers. */
  lemma SamplesAgree(ls: seq<Option<seq<Value>>>)
    ensures WindowReference(ls).Returned? <==> DailySampling.DailyReference(ls).Returned?
    ensures WindowReference(ls).Returned? ==>
      var w, d := WindowReference(ls).value, DailySampling.DailyReference(ls).value;
      w.txCounts == d.txCounts && w.feeDrops == d.feeDrops && w.ledgersOk == d.ledgersOk
  {
  }
}
