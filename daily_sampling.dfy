/** `sample_ledgers` (generate_data.py): walk back over the 60 most recent
    ledgers, skip the ones that failed or hold no transactions, and fold the
    counted transactions into per-category counts, a fee total and an XRP
    payment total. `get_ledger_transactions(idx)` is the oracle `fetch`. */
module DailySampling {
  import opened Py
  import opened Categories
  import opened SampleCommon

  /** What `sample_ledgers` returns: `tx_counts`, the payment volume (kept
      here in drops; the script divides each amount by 1,000,000 as it
      adds it), `fee_drops` and `ledgers_ok`. */
  datatype DailySample = DailySample(
    txCounts: Counts,
    paymentDrops: int,
    feeDrops: int,
    ledgersOk: nat)

  /** The payment volume in XRP, `payment_vol_xrp`. */
  function PaymentXrp(s: DailySample): real
  {
    s.paymentDrops as real / 1000000.0
  }

  /** The sample the loop computes, defined over the visited ledgers as a
      whole: the facts of every counted transaction, tallied and summed. */
  function DailyReference(ls: seq<Option<seq<Value>>>): Outcome<DailySample>
  {
    var fs :- AllFacts(CountedTxs(ls));
    Returned(DailySample(Tally(fs), XrpSum(fs), FeeSum(fs), KeptCount(ls)))
  }

  /** What the outer loop keeps after the first `i` visited ledgers: the
      running values are those of the facts `fs` of their counted
      transactions. */
  ghost predicate Visited(ls: seq<Option<seq<Value>>>, i: nat, fs: seq<TxFacts>,
                          txCounts: Counts, paymentDrops: int, feeDrops: int, ledgersOk: int)
  {
    && i <= |ls|
    && AllFacts(CountedTxs(ls[..i])) == Returned(fs)
    && txCounts == Tally(fs) && feeDrops == FeeSum(fs) && paymentDrops == XrpSum(fs)
    && ledgersOk == KeptCount(ls[..i])
  }

  /** `sample_ledgers(current_ledger_index)` */
  method SampleLedgers(currentLedgerIndex: int, fetch: int -> Option<seq<Value>>)
    returns (r: Outcome<DailySample>)
    ensures r == DailyReference(Fetched(fetch, currentLedgerIndex, SampleLedgerCount))
  {
    ghost var ls := Fetched(fetch, currentLedgerIndex, SampleLedgerCount);
    var txCounts := NoCounts;
    var paymentDrops := 0;
    var feeDrops := 0;
    var ledgersOk := 0;
    ghost var fs: seq<TxFacts> := [];
    assert ls[..0] == [];
    for i := 0 to SampleLedgerCount
      invariant Visited(ls, i, fs, txCounts, paymentDrops, feeDrops, ledgersOk)
    {
      var txs := fetch(currentLedgerIndex - i);
      if !Kept(txs) {
        SkippedLedgerStep(ls, i, fs, txCounts, paymentDrops, feeDrops, ledgersOk);
        continue;
      }
      var raised;
      ghost var fs0 := fs;
      raised, txCounts, feeDrops, paymentDrops, fs :=
        CountLedger(txs.value, CountedTxs(ls[..i]), fs, txCounts, feeDrops, paymentDrops);
      if raised {
        LedgerStep(ls, i);
        CountedTxsPrefix(ls, i + 1);
        AllFactsRaisedPrefix(CountedTxs(ls[..i + 1]), CountedTxs(ls));
        assert ls[..SampleLedgerCount] == ls;
        return Raised;
      }
      KeptLedgerStep(ls, i, fs0, fs, txCounts, paymentDrops, feeDrops, ledgersOk);
      ledgersOk := ledgersOk + 1;
    }
    assert ls[..SampleLedgerCount] == ls;
    return Returned(DailySample(txCounts, paymentDrops, feeDrops, ledgersOk));
  }

  lemma SkippedLedgerStep(ls: seq<Option<seq<Value>>>, i: nat, fs: seq<TxFacts>,
                          txCounts: Counts, paymentDrops: int, feeDrops: int, ledgersOk: int)
    requires i < |ls| && !Kept(ls[i])
    requires Visited(ls, i, fs, txCounts, paymentDrops, feeDrops, ledgersOk)
    ensures Visited(ls, i + 1, fs, txCounts, paymentDrops, feeDrops, ledgersOk)
  {
    LedgerStep(ls, i);
    SkippedContributesNothing(ls[i]);
    assert CountedTxs(ls[..i + 1]) == CountedTxs(ls[..i]);
  }

  lemma KeptLedgerStep(ls: seq<Option<seq<Value>>>, i: nat, fs0: seq<TxFacts>, fs: seq<TxFacts>,
                       txCounts: Counts, paymentDrops: int, feeDrops: int, ledgersOk: int)
    requires i < |ls| && Kept(ls[i])
    requires AllFacts(CountedTxs(ls[..i])) == Returned(fs0) && ledgersOk == KeptCount(ls[..i])
    requires AllFacts(CountedTxs(ls[..i]) + CountedIn(ls[i].value)) == Returned(fs)
    requires txCounts == Tally(fs) && feeDrops == FeeSum(fs) && paymentDrops == XrpSum(fs)
    ensures Visited(ls, i + 1, fs, txCounts, paymentDrops, feeDrops, ledgersOk + 1)
  {
    LedgerStep(ls, i);
  }

  /** What the inner loop keeps after the first `j` transactions of `txs`:
      the running values are those of the facts `fs` of everything counted
      so far. */
  ghost predicate Running(prior: seq<map<string, Value>>, txs: seq<Value>, j: nat, fs: seq<TxFacts>,
                          txCounts: Counts, feeDrops: int, paymentDrops: int)
  {
    && j <= |txs|
    && AllFacts(prior + CountedIn(txs[..j])) == Returned(fs)
    && txCounts == Tally(fs) && feeDrops == FeeSum(fs) && paymentDrops == XrpSum(fs)
  }

  /** The body of `for tx in txs` for one fetched ledger: it continues the
      running counts, whose facts so far are `fs0` (those of the counted
      transactions `prior` of the earlier ledgers), and reports whether an
      `int()` conversion raised. */
  method CountLedger(txs: seq<Value>, ghost prior: seq<map<string, Value>>, ghost fs0: seq<TxFacts>,
                     txCounts0: Counts, feeDrops0: int, paymentDrops0: int)
    returns (raised: bool, txCounts: Counts, feeDrops: int, paymentDrops: int,
             ghost fs: seq<TxFacts>)
    requires AllFacts(prior) == Returned(fs0)
    requires txCounts0 == Tally(fs0) && feeDrops0 == FeeSum(fs0) && paymentDrops0 == XrpSum(fs0)
    ensures raised <==> AllFacts(prior + CountedIn(txs)) == Raised
    ensures !raised ==> AllFacts(prior + CountedIn(txs)) == Returned(fs)
    ensures !raised ==> txCounts == Tally(fs) && feeDrops == FeeSum(fs) && paymentDrops == XrpSum(fs)
  {
    txCounts, feeDrops, paymentDrops, fs := txCounts0, feeDrops0, paymentDrops0, fs0;
    assert Running(prior, txs, 0, fs, txCounts, feeDrops, paymentDrops) by {
      assert CountedIn(txs[..0]) == [];
      assert prior + [] == prior;
    }
    for j := 0 to |txs|
      invariant Running(prior, txs, j, fs, txCounts, feeDrops, paymentDrops)
    {
      var tx := txs[j];
      // not a dict, or its metadata records a failure
      if !Counted(tx) {
        SkipStep(prior, txs, j, fs, txCounts, feeDrops, paymentDrops);
        continue;
      }
      var raised;
      ghost var countsBefore, feesBefore, paymentsBefore := txCounts, feeDrops, paymentDrops;
      raised, txCounts, feeDrops, paymentDrops := CountTransaction(tx.fields, txCounts, feeDrops, paymentDrops);
      if raised {
        assert AllFacts(prior + CountedIn(txs)) == Raised by {
          RaisedAt(prior, fs, txs, j);
        }
        return true, txCounts, feeDrops, paymentDrops, fs;
      }
      ghost var f := FactsOf(tx.fields).value;
      CountedTxStep(prior, txs, j, fs, countsBefore, feesBefore, paymentsBefore, f);
      fs := fs + [f];
    }
    assert txs[..|txs|] == txs;
    return false, txCounts, feeDrops, paymentDrops, fs;
  }

  lemma SkipStep(prior: seq<map<string, Value>>, txs: seq<Value>, j: nat, fs: seq<TxFacts>,
                 txCounts: Counts, feeDrops: int, paymentDrops: int)
    requires j < |txs| && !Counted(txs[j])
    requires Running(prior, txs, j, fs, txCounts, feeDrops, paymentDrops)
    ensures Running(prior, txs, j + 1, fs, txCounts, feeDrops, paymentDrops)
  {
    assert CountedIn(txs[..j + 1]) == CountedIn(txs[..j]) by {
      CountedInStep(txs, j);
    }
  }

  lemma CountedTxStep(prior: seq<map<string, Value>>, txs: seq<Value>, j: nat, fs: seq<TxFacts>,
                      txCounts: Counts, feeDrops: int, paymentDrops: int, f: TxFacts)
    requires j < |txs| && Counted(txs[j]) && FactsOf(txs[j].fields) == Returned(f)
    requires Running(prior, txs, j, fs, txCounts, feeDrops, paymentDrops)
    ensures Running(prior, txs, j + 1, fs + [f], txCounts.Bump(f.category), feeDrops + f.fee,
                    paymentDrops + (if f.xrpDrops.Some? then f.xrpDrops.value else 0))
  {
    CountedStep(prior, txs, j);
    SumsStep(fs, f);
  }

  /** The body of the loop for one counted transaction: count it in its
      category, add its fee and, for a payment whose amount is a string of
      drops, add the amount; `raised` tells that an `int()` raised. */
  method CountTransaction(tx: map<string, Value>, txCounts0: Counts, feeDrops0: int, paymentDrops0: int)
    returns (raised: bool, txCounts: Counts, feeDrops: int, paymentDrops: int)
    ensures raised <==> FactsOf(tx).Raised?
    ensures !raised ==>
      var f := FactsOf(tx).value;
      && txCounts == txCounts0.Bump(f.category)
      && feeDrops == feeDrops0 + f.fee
      && paymentDrops == paymentDrops0 + (if f.xrpDrops.Some? then f.xrpDrops.value else 0)
  {
    var cat := ClassifyTx(tx);
    txCounts := txCounts0.Bump(cat);
    var fee := IntOf(Get(tx, "Fee", Int(0)));
    if fee.Raised? {
      return true, txCounts, feeDrops0, paymentDrops0;
    }
    feeDrops := feeDrops0 + fee.value;
    paymentDrops := paymentDrops0;
    if Get(tx, "TransactionType", Null) == Str("Payment") {
      var amt := Get(tx, "Amount", Int(0));
      if amt.Str? {
        var parsed := IntOf(amt);
        if parsed.Raised? {
          return true, txCounts, feeDrops, paymentDrops;
        }
        paymentDrops := paymentDrops + parsed.value;
      }
    }
    raised := false;
  }

  // ---------------------------------------------------------------------
  // What the sample promises
  // ---------------------------------------------------------------------

  /** At most one ledger per visited index is counted as fetched, the four
      category counts add up to the number of counted transactions, and a
      sample is produced exactly when no `int()` conversion raises. */
  lemma SampleShape(ls: seq<Option<seq<Value>>>)
    ensures DailyReference(ls).Returned? <==> AllConvert(CountedTxs(ls))
    ensures DailyReference(ls).Returned? ==>
      var s := DailyReference(ls).value;
      && s.ledgersOk <= |ls|
      && s.txCounts.Total() == |CountedTxs(ls)|
  {
    var txs := CountedTxs(ls);
    AllFactsPointwise(txs);
    assert DailyReference(ls).Returned? <==> AllFacts(txs).Returned?;
    if AllFacts(txs).Returned? {
      TallyTotal(AllFacts(txs).value);
    }
  }

  /** The fee total is the sum of `int(tx["Fee"])` over the counted
      transactions and over nothing else, and the payment total sums the
      drops of the XRP payments among them. */
  lemma FeesOfCountedOnly(ls: seq<Option<seq<Value>>>)
    requires DailyReference(ls).Returned?
    ensures var txs := CountedTxs(ls);
      && DailyReference(ls).value.feeDrops == SumFees(txs)
      && DailyReference(ls).value.paymentDrops == SumPayments(txs)
  {
    var txs := CountedTxs(ls);
    AllFactsPointwise(txs);
    FactsSums(txs);
  }

  /** `int(tx.get("Fee", 0))` summed over a list of transactions whose
      conversions all succeed. */
  function SumFees(txs: seq<map<string, Value>>): int
  {
    if txs == [] then 0
    else
      var fee := IntOf(Get(txs[|txs| - 1], "Fee", Int(0)));
      SumFees(txs[..|txs| - 1]) + (if fee.Returned? then fee.value else 0)
  }

  /** `int(amt)` summed over the XRP payments of a list of transactions. */
  function SumPayments(txs: seq<map<string, Value>>): int
  {
    if txs == [] then 0
    else
      var tx := txs[|txs| - 1];
      var amt := IntOf(Get(tx, "Amount", Int(0)));
      SumPayments(txs[..|txs| - 1]) + (if IsXrpPayment(tx) && amt.Returned? then amt.value else 0)
  }

  lemma {:induction false} FactsSums(txs: seq<map<string, Value>>)
    requires AllFacts(txs).Returned?
    ensures FeeSum(AllFacts(txs).value) == SumFees(txs)
    ensures XrpSum(AllFacts(txs).value) == SumPayments(txs)
  {
    if txs != [] {
      var init := txs[..|txs| - 1];
      assert AllFacts(init).Returned?;
      FactsSums(init);
      var fs := AllFacts(txs).value;
      assert fs[..|fs| - 1] == AllFacts(init).value;
    }
  }

  /** A payment whose `Amount` is an issued-currency object moves no XRP;
      one whose `Amount` is a decimal string of drops moves those drops. */
  lemma PaymentAmounts(tx: map<string, Value>, drops: int)
    requires Get(tx, "TransactionType", Null) == Str("Payment")
    requires IntOf(Get(tx, "Fee", Int(0))).Returned?
    ensures Get(tx, "Amount", Int(0)).Dict? ==>
      FactsOf(tx).Returned? && FactsOf(tx).value.xrpDrops == None
    ensures Get(tx, "Amount", Int(0)) == Str(Decimal(drops)) ==>
      FactsOf(tx).Returned? && FactsOf(tx).value.xrpDrops == Some(drops)
  {
    IntOfDecimal(drops);
  }

  /** A failed or empty ledger, wherever it sits among the visited ones,
      changes nothing in the sample. */
  lemma SkippedLedgerChangesNothing(a: seq<Option<seq<Value>>>, l: Option<seq<Value>>,
                                    b: seq<Option<seq<Value>>>)
    requires !Kept(l)
    ensures DailyReference(a + [l] + b) == DailyReference(a + b)
  {
    CountedTxsConcat(a + [l], b);
    CountedTxsConcat(a, b);
    KeptCountConcat(a + [l], b);
    KeptCountConcat(a, b);
    assert (a + [l])[..|a|] == a;
    SkippedContributesNothing(l);
    assert CountedTxs(a + [l]) == CountedTxs(a) + CountedIn(TxsOf(l)) == CountedTxs(a);
    assert KeptCount(a + [l]) == KeptCount(a);
    assert CountedTxs(a + [l] + b) == CountedTxs(a + b);
  }
}
