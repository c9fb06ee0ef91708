/** What both sampling loops share (generate_data.py `sample_ledgers` and
    the sampling block of check_today.py `main`): which ledgers count,
    which transactions count, and what a counted transaction contributes.
    These definitions are the reference the two loops are proved against.

    A ledger is given as what the fetch produced: `None` when the node
    pool failed, otherwise the ledger's `transactions` list. */
module SampleCommon {
  import opened Py
  import opened Categories

  /** `for i in range(60)` in both scripts. */
  const SampleLedgerCount: nat := 60

  /** The ledgers the loop visits: the `i`-th is the fetch of
      `current - i`, counting backward from the current ledger. */
  function Fetched(fetch: int -> Option<seq<Value>>, current: int, n: nat): (ls: seq<Option<seq<Value>>>)
    ensures |ls| == n && forall i | 0 <= i < n :: ls[i] == fetch(current - i)
  {
    seq(n, i => fetch(current - i))
  }

  /** `if not txs: continue`: a failed fetch or an empty list is skipped. */
  predicate Kept(l: Option<seq<Value>>)
  {
    l.Some? && l.value != []
  }

  function TxsOf(l: Option<seq<Value>>): seq<Value>
  {
    if l.Some? then l.value else []
  }

  /** `tx.get("metaData") or tx.get("meta") or {}` */
  function Meta(tx: map<string, Value>): Value
  {
    Or(Or(Get(tx, "metaData", Null), Get(tx, "meta", Null)), Dict(map[]))
  }

  /** The success filter: a transaction is counted when it is a dict and
      its metadata is not a dict or has `TransactionResult` absent or
      equal to `tesSUCCESS`. */
  predicate Counted(tx: Value)
  {
    tx.Dict? &&
    var meta := Meta(tx.fields);
    !meta.Dict? || Get(meta.fields, "TransactionResult", Str("tesSUCCESS")) == Str("tesSUCCESS")
  }

  /** The counted transactions of one ledger's list, in order. */
  function CountedIn(txs: seq<Value>): (r: seq<map<string, Value>>)
    ensures |r| <= |txs|
  {
    if txs == [] then []
    else
      var last := txs[|txs| - 1];
      CountedIn(txs[..|txs| - 1]) + (if Counted(last) then [last.fields] else [])
  }

  /** The counted transactions of all visited ledgers, in visiting order. */
  function CountedTxs(ls: seq<Option<seq<Value>>>): seq<map<string, Value>>
  {
    if ls == [] then [] else CountedTxs(ls[..|ls| - 1]) + CountedIn(TxsOf(ls[|ls| - 1]))
  }

  /** The number of ledgers not skipped (`ledgers_ok`). */
  function KeptCount(ls: seq<Option<seq<Value>>>): (n: nat)
    ensures n <= |ls|
  {
    if ls == [] then 0 else KeptCount(ls[..|ls| - 1]) + (if Kept(ls[|ls| - 1]) then 1 else 0)
  }

  // ---------------------------------------------------------------------
  // What a counted transaction contributes
  // ---------------------------------------------------------------------

  /** Its category, its fee in drops, and the drops it moves when it is a
      `Payment` whose `Amount` is a string (XRP in drops); an issued-currency
      amount is a dict and moves no XRP. */
  datatype TxFacts = TxFacts(category: Category, fee: int, xrpDrops: Option<int>)

  /** `tx.get("TransactionType") == "Payment"` and `isinstance(amt, str)`
      with `amt = tx.get("Amount", 0)`. */
  predicate IsXrpPayment(tx: map<string, Value>)
  {
    Get(tx, "TransactionType", Null) == Str("Payment") && Get(tx, "Amount", Int(0)).Str?
  }

  /** `int(tx.get("Fee", 0))` and, for an XRP payment, `int(amt)`; either
      conversion may raise. */
  function FactsOf(tx: map<string, Value>): Outcome<TxFacts>
  {
    var fee :- IntOf(Get(tx, "Fee", Int(0)));
    if IsXrpPayment(tx) then
      var drops :- IntOf(Get(tx, "Amount", Int(0)));
      Returned(TxFacts(ClassifyTx(tx), fee, Some(drops)))
    else Returned(TxFacts(ClassifyTx(tx), fee, None))
  }

  /** The facts of every transaction in order, or `Raised` when any
      conversion raises. */
  function AllFacts(txs: seq<map<string, Value>>): Outcome<seq<TxFacts>>
  {
    if txs == [] then Returned([])
    else
      var init :- AllFacts(txs[..|txs| - 1]);
      var f :- FactsOf(txs[|txs| - 1]);
      Returned(init + [f])
  }

  /** How many facts fall in category `c`. */
  function CategoryCount(fs: seq<TxFacts>, c: Category): nat
  {
    if fs == [] then 0
    else CategoryCount(fs[..|fs| - 1], c) + (if fs[|fs| - 1].category == c then 1 else 0)
  }

  /** `tx_counts`: a dict that always holds exactly the four category keys,
      so it is a record with one field per category here. */
  datatype Counts = Counts(settlement: nat, identity: nat, defi: nat, acctMgmt: nat)
  {
    /** `tx_counts[cat]` */
    function Of(c: Category): nat
    {
      match c
      case Settlement => settlement
      case Identity => identity
      case Defi => defi
      case AcctMgmt => acctMgmt
    }

    /** `tx_counts[cat] += 1` */
    function Bump(c: Category): Counts
    {
      match c
      case Settlement => this.(settlement := settlement + 1)
      case Identity => this.(identity := identity + 1)
      case Defi => this.(defi := defi + 1)
      case AcctMgmt => this.(acctMgmt := acctMgmt + 1)
    }

    /** `sum(tx_counts.values())` */
    function Total(): nat
    {
      settlement + identity + defi + acctMgmt
    }
  }

  /** `{"settlement": 0, "identity": 0, "defi": 0, "acct_mgmt": 0}` */
  const NoCounts: Counts := Counts(0, 0, 0, 0)

  /** The counts the loop builds, per category. */
  function Tally(fs: seq<TxFacts>): Counts
  {
    Counts(CategoryCount(fs, Settlement), CategoryCount(fs, Identity),
           CategoryCount(fs, Defi), CategoryCount(fs, AcctMgmt))
  }

  /** `fee_drops` */
  function FeeSum(fs: seq<TxFacts>): int
  {
    if fs == [] then 0 else FeeSum(fs[..|fs| - 1]) + fs[|fs| - 1].fee
  }

  /** The XRP the payments move, in drops. */
  function XrpSum(fs: seq<TxFacts>): int
  {
    if fs == [] then 0
    else XrpSum(fs[..|fs| - 1]) + (if fs[|fs| - 1].xrpDrops.Some? then fs[|fs| - 1].xrpDrops.value else 0)
  }

  /** `sum(xs)` */
  function Sum(xs: seq<int>): int
  {
    if xs == [] then 0 else Sum(xs[..|xs| - 1]) + xs[|xs| - 1]
  }

  // ---------------------------------------------------------------------
  // Lemmas
  // ---------------------------------------------------------------------

  /** Counting by category partitions the counted transactions: the four
      counts add up to the number of transactions. */
  lemma {:induction false} TallyTotal(fs: seq<TxFacts>)
    ensures Tally(fs).Total() == |fs|
  {
    if fs != [] {
      TallyTotal(fs[..|fs| - 1]);
    }
  }

  /** Counting one more transaction adds one to its own category only. */
  lemma TallySnoc(fs: seq<TxFacts>, f: TxFacts)
    ensures Tally(fs + [f]) == Tally(fs).Bump(f.category)
  {
    assert (fs + [f])[..|fs|] == fs;
  }

  /** `tx_counts[cat] += 1` raises the count of `cat` by one and leaves the
      other three alone. */
  lemma BumpOnlyOne(m: Counts, c: Category, k: Category)
    ensures m.Bump(c).Of(k) == m.Of(k) + (if k == c then 1 else 0)
    ensures m.Bump(c).Total() == m.Total() + 1
  {
  }

  /** No `int()` conversion of any of the transactions raises. */
  predicate AllConvert(txs: seq<map<string, Value>>)
  {
    forall k | 0 <= k < |txs| :: FactsOf(txs[k]).Returned?
  }

  /** The facts are computed one transaction at a time: `AllFacts` returns
      exactly when every transaction's conversions succeed, and then holds
      each transaction's facts at its own position. */
  lemma {:induction false} AllFactsPointwise(txs: seq<map<string, Value>>)
    ensures AllFacts(txs).Returned? <==> AllConvert(txs)
    ensures AllFacts(txs).Returned? ==>
      |AllFacts(txs).value| == |txs| &&
      forall k | 0 <= k < |txs| :: AllFacts(txs).value[k] == FactsOf(txs[k]).value
  {
    if txs != [] {
      var init := txs[..|txs| - 1];
      AllFactsPointwise(init);
      assert forall k | 0 <= k < |init| :: txs[k] == init[k];
    }
  }

  /** Once a conversion has raised, nothing after it is looked at: a
      prefix that raises makes the whole sequence raise. */
  lemma {:induction false} AllFactsRaisedPrefix(a: seq<map<string, Value>>, b: seq<map<string, Value>>)
    requires a <= b
    requires AllFacts(a) == Raised
    ensures AllFacts(b) == Raised
    decreases |b|
  {
    if |b| > |a| {
      assert a <= b[..|b| - 1];
      AllFactsRaisedPrefix(a, b[..|b| - 1]);
    } else {
      assert a == b;
    }
  }

  /** Appending one counted transaction extends the facts by its own facts,
      or makes them raise when its conversions raise. */
  lemma AllFactsSnoc(txs: seq<map<string, Value>>, tx: map<string, Value>)
    requires AllFacts(txs).Returned?
    ensures FactsOf(tx).Returned? ==> AllFacts(txs + [tx]) == Returned(AllFacts(txs).value + [FactsOf(tx).value])
    ensures FactsOf(tx).Raised? ==> AllFacts(txs + [tx]) == Raised
  {
    assert (txs + [tx])[..|txs|] == txs;
  }

  lemma {:induction false} CountedInPrefix(txs: seq<Value>, j: nat)
    requires j <= |txs|
    ensures CountedIn(txs[..j]) <= CountedIn(txs)
    decreases |txs| - j
  {
    if j < |txs| {
      CountedInPrefix(txs, j + 1);
      CountedInStep(txs, j);
      var a, b, c := CountedIn(txs[..j]), CountedIn(txs[..j + 1]), CountedIn(txs);
      assert a <= b <= c;
      assert forall k | 0 <= k < |a| :: a[k] == b[k] == c[k];
    } else {
      assert txs[..j] == txs;
    }
  }

  lemma {:induction false} CountedTxsPrefix(ls: seq<Option<seq<Value>>>, i: nat)
    requires i <= |ls|
    ensures CountedTxs(ls[..i]) <= CountedTxs(ls)
    decreases |ls| - i
  {
    if i < |ls| {
      CountedTxsPrefix(ls, i + 1);
      LedgerStep(ls, i);
      var a, b, c := CountedTxs(ls[..i]), CountedTxs(ls[..i + 1]), CountedTxs(ls);
      assert a <= b <= c;
      assert forall k | 0 <= k < |a| :: a[k] == b[k] == c[k];
    } else {
      assert ls[..i] == ls;
    }
  }

  lemma PrefixAppend<T>(c: seq<T>, a: seq<T>, b: seq<T>)
    requires a <= b
    ensures c + a <= c + b
  {
    assert b == a + b[|a|..];
    assert c + b == (c + a) + b[|a|..];
  }

  /** One step of the inner loop: the counted transactions of ledger `i`
      seen so far grow by the next transaction exactly when it is counted. */
  lemma CountedInStep(txs: seq<Value>, j: nat)
    requires j < |txs|
    ensures CountedIn(txs[..j + 1]) ==
      CountedIn(txs[..j]) + (if Counted(txs[j]) then [txs[j].fields] else [])
  {
    assert txs[..j + 1][..j] == txs[..j];
  }

  /** One step of the outer loop. */
  lemma LedgerStep(ls: seq<Option<seq<Value>>>, i: nat)
    requires i < |ls|
    ensures CountedTxs(ls[..i + 1]) == CountedTxs(ls[..i]) + CountedIn(TxsOf(ls[i]))
    ensures KeptCount(ls[..i + 1]) == KeptCount(ls[..i]) + (if Kept(ls[i]) then 1 else 0)
  {
    assert ls[..i + 1][..i] == ls[..i];
  }

  /** The visited ledgers can be split anywhere: the counted transactions
      of `a + b` are those of `a` followed by those of `b`. */
  lemma {:induction false} CountedTxsConcat(a: seq<Option<seq<Value>>>, b: seq<Option<seq<Value>>>)
    ensures CountedTxs(a + b) == CountedTxs(a) + CountedTxs(b)
    decreases |b|
  {
    if b == [] {
      assert a + b == a;
    } else {
      var init, last := b[..|b| - 1], b[|b| - 1];
      CountedTxsConcat(a, init);
      assert (a + b)[..|a + b| - 1] == a + init && (a + b)[|a + b| - 1] == last;
      assert CountedTxs(a + b) == CountedTxs(a + init) + CountedIn(TxsOf(last));
      assert CountedTxs(b) == CountedTxs(init) + CountedIn(TxsOf(last));
    }
  }

  lemma {:induction false} KeptCountConcat(a: seq<Option<seq<Value>>>, b: seq<Option<seq<Value>>>)
    ensures KeptCount(a + b) == KeptCount(a) + KeptCount(b)
    decreases |b|
  {
    if b == [] {
      assert a + b == a;
    } else {
      var init := b[..|b| - 1];
      KeptCountConcat(a, init);
      assert (a + b)[..|a + b| - 1] == a + init;
    }
  }

  /** A skipped ledger contributes no transaction. */
  lemma SkippedContributesNothing(l: Option<seq<Value>>)
    requires !Kept(l)
    ensures CountedIn(TxsOf(l)) == []
  {
  }

  /** One counted transaction `list[j]` extends the facts of the counted
      transactions seen so far by its own facts, or makes them raise. */
  lemma CountedStep(base: seq<map<string, Value>>, list: seq<Value>, j: nat)
    requires j < |list| && Counted(list[j])
    requires AllFacts(base + CountedIn(list[..j])).Returned?
    ensures var prior := base + CountedIn(list[..j]);
      var facts := FactsOf(list[j].fields);
      && (facts.Returned? ==> AllFacts(base + CountedIn(list[..j + 1])) ==
                               Returned(AllFacts(prior).value + [facts.value]))
      && (facts.Raised? ==> AllFacts(base + CountedIn(list[..j + 1])) == Raised)
  {
    CountedInStep(list, j);
    assert base + CountedIn(list[..j + 1]) == (base + CountedIn(list[..j])) + [list[j].fields];
    AllFactsSnoc(base + CountedIn(list[..j]), list[j].fields);
  }

  /** The accumulators after one more transaction. */
  lemma SumsStep(fs: seq<TxFacts>, f: TxFacts)
    ensures Tally(fs + [f]) == Tally(fs).Bump(f.category)
    ensures FeeSum(fs + [f]) == FeeSum(fs) + f.fee
    ensures XrpSum(fs + [f]) == XrpSum(fs) + (if f.xrpDrops.Some? then f.xrpDrops.value else 0)
  {
    TallySnoc(fs, f);
    assert (fs + [f])[..|fs|] == fs;
  }

  /** A counted transaction `txs[j]` whose conversions raise makes the
      whole fold raise. */
  lemma RaisedAt(prior: seq<map<string, Value>>, fs: seq<TxFacts>, txs: seq<Value>, j: nat)
    requires j < |txs| && Counted(txs[j]) && FactsOf(txs[j].fields).Raised?
    requires AllFacts(prior + CountedIn(txs[..j])) == Returned(fs)
    ensures AllFacts(prior + CountedIn(txs)) == Raised
  {
    CountedStep(prior, txs, j);
    CountedInPrefix(txs, j + 1);
    PrefixAppend(prior, CountedIn(txs[..j + 1]), CountedIn(txs));
    AllFactsRaisedPrefix(prior + CountedIn(txs[..j + 1]), prior + CountedIn(txs));
  }
}
