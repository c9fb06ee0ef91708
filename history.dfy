/** The rolling history of `update_data` (generate_data.py): the previous
    day's supply is looked up in the stored entries, the day's metrics
    become one new entry, any entry already dated today is replaced, and
    only the 90 most recent entries are kept. Reading and writing
    `data.json` and the clock are not modelled: the loaded list, today's
    date string and the timestamp string are inputs. */
module History {
  import opened Py
  import opened Categories
  import opened LedgerParse
  import opened DailyMetrics

  /** `data[-90:]` */
  const HistoryDays: nat := 90

  /** One stored day: a JSON object. */
  type Entry = map<string, Value>

  /** `entry.get("date")` */
  function DateOf(e: Entry): Value
  {
    Get(e, "date", Null)
  }

  /** An entry the backward scan stops at: another day, with a truthy
      `total_coins_xrp`. */
  predicate IsBaseline(e: Entry, today: string)
  {
    DateOf(e) != Str(today) && Truthy(Get(e, "total_coins_xrp", Null))
  }

  /** The stored supply of the latest baseline entry, `None` when there is
      none. */
  function LatestBaseline(data: seq<Entry>, today: string): Value
  {
    if data == [] then Null
    else if IsBaseline(data[|data| - 1], today) then data[|data| - 1]["total_coins_xrp"]
    else LatestBaseline(data[..|data| - 1], today)
  }

  /** Lines 341-346: the supply the scan finds, which line 345 prints with
      `,.2f`. A stored supply that is not a number (a string, a list or a
      dict) makes that format raise, and so the whole run. */
  function PreviousBaseline(data: seq<Entry>, today: string): Outcome<Value>
  {
    var found := LatestBaseline(data, today);
    if found == Null || FormatsAsFixed(found) then Returned(found) else Raised
  }

  /** Lines 341-346: `for entry in reversed(data)` with `break`. */
  method PreviousTotalCoins(data: seq<Entry>, today: string) returns (previous: Outcome<Value>)
    ensures previous == PreviousBaseline(data, today)
  {
    var i := |data|;
    assert data[..i] == data;
    while i > 0
      invariant 0 <= i <= |data|
      invariant LatestBaseline(data, today) == LatestBaseline(data[..i], today)
    {
      var entry := data[i - 1];
      assert data[..i][..i - 1] == data[..i - 1];
      if DateOf(entry) != Str(today) && Truthy(Get(entry, "total_coins_xrp", Null)) {
        var found := entry["total_coins_xrp"];
        if !FormatsAsFixed(found) {
          // `f"{previous_total_coins:,.2f}"`
          return Raised;
        }
        return Returned(found);
      }
      i := i - 1;
    }
    return Returned(Null);
  }

  /** `[e for e in data if e.get("date") != date_str]` */
  function OtherDays(data: seq<Entry>, today: string): seq<Entry>
  {
    if data == [] then []
    else OtherDays(data[..|data| - 1], today) +
         (if DateOf(data[|data| - 1]) != Str(today) then [data[|data| - 1]] else [])
  }

  /** `data[-90:]` */
  function LastDays(data: seq<Entry>): seq<Entry>
  {
    if |data| > HistoryDays then data[|data| - HistoryDays..] else data
  }

  /** Lines 366-368. */
  function Updated(data: seq<Entry>, today: string, newEntry: Entry): seq<Entry>
  {
    LastDays(OtherDays(data, today) + [newEntry])
  }

  /** Lines 366-368 as the script runs them: rebuild the list without
      today's entries, append the new one, slice. */
  method UpdateHistory(data: seq<Entry>, today: string, newEntry: Entry) returns (result: seq<Entry>)
    ensures result == Updated(data, today, newEntry)
  {
    result := [];
    for i := 0 to |data|
      invariant result == OtherDays(data[..i], today)
    {
      assert data[..i + 1][..i] == data[..i];
      if DateOf(data[i]) != Str(today) {
        result := result + [data[i]];
      }
    }
    assert data[..|data|] == data;
    result := result + [newEntry];
    if |result| > HistoryDays {
      result := result[|result| - HistoryDays..];
    }
  }

  /** An optional float: the number, or JSON `null`. */
  function FloatOrNull(x: Option<real>): Value
  {
    if x.Some? then Float(x.value) else Null
  }

  /** A category dict keyed by the category names. */
  function CategoriesJson(m: map<Category, real>): Value
  {
    Dict(map c | c in m :: CategoryName(c) := Float(m[c]))
  }

  /** `new_entry` (lines 352-363), a map: the order of the keys in the
      dict literal is immaterial. */
  function NewEntry(today: string, timestamp: string, m: RealMetrics): Entry
  {
    map["last_updated" := Str(timestamp),
        "burn_xrp" := FloatOrNull(m.burnXrp),
        "load_usd_m" := FloatOrNull(m.loadUsdM),
        "transactions" := FloatOrNull(m.totalTxM),
        "load_categories" := CategoriesJson(m.loadCats),
        "tx_categories" := CategoriesJson(m.txCats),
        "is_fallback" := Bool(m.isSimulated),
        "total_coins_xrp" := FloatOrNull(m.currentTotalCoins),
        "date" := Str(today)]
  }

  /** `update_data` without the file and the clock: the history after the
      run, or an exception. */
  function UpdateDataOf(data: seq<Entry>, today: string, timestamp: string, price: real,
                        serverResult: Option<map<string, Value>>,
                        fetch: int -> Option<seq<Value>>): Outcome<seq<Entry>>
  {
    var previous :- PreviousBaseline(data, today);
    var m :- RealMetricsOf(price, previous, serverResult, fetch);
    Returned(Updated(data, today, NewEntry(today, timestamp, m)))
  }

  method UpdateData(data: seq<Entry>, today: string, timestamp: string, price: real,
                    serverResult: Option<map<string, Value>>,
                    fetch: int -> Option<seq<Value>>)
    returns (r: Outcome<seq<Entry>>)
    ensures r == UpdateDataOf(data, today, timestamp, price, serverResult, fetch)
  {
    var previous :- PreviousTotalCoins(data, today);
    var m :- GetRealMetrics(price, previous, serverResult, fetch);
    var newEntry := NewEntry(today, timestamp, m);
    var updated := UpdateHistory(data, today, newEntry);
    return Returned(updated);
  }

  // ---------------------------------------------------------------------
  // What the history promises
  // ---------------------------------------------------------------------

  /** The previous supply is the stored supply of the last entry of another
      day with a truthy supply, and `None` when no entry qualifies. */
  lemma {:induction false} LatestBaselineSpec(data: seq<Entry>, today: string)
    ensures LatestBaseline(data, today) == Null <==> forall k | 0 <= k < |data| :: !IsBaseline(data[k], today)
    ensures LatestBaseline(data, today) != Null ==>
      exists k | 0 <= k < |data| ::
        && IsBaseline(data[k], today)
        && LatestBaseline(data, today) == data[k]["total_coins_xrp"]
        && forall j | k < j < |data| :: !IsBaseline(data[j], today)
  {
    if data != [] {
      var init, last := data[..|data| - 1], data[|data| - 1];
      LatestBaselineSpec(init, today);
      assert forall k | 0 <= k < |init| :: init[k] == data[k];
      if IsBaseline(last, today) {
        assert data[|data| - 1]["total_coins_xrp"] != Null;
      } else if LatestBaseline(init, today) != Null {
        var k :| 0 <= k < |init| && IsBaseline(init[k], today) &&
                 LatestBaseline(init, today) == init[k]["total_coins_xrp"] &&
                 forall j | k < j < |init| :: !IsBaseline(init[j], today);
        assert IsBaseline(data[k], today);
      }
    }
  }

  /** The scan raises exactly when the last entry of another day with a
      truthy supply stores a supply that is not a number; otherwise it
      yields `None` or a number. */
  lemma PreviousBaselineRaises(data: seq<Entry>, today: string)
    ensures PreviousBaseline(data, today) == Raised <==>
      exists k | 0 <= k < |data| ::
        && IsBaseline(data[k], today)
        && !FormatsAsFixed(data[k]["total_coins_xrp"])
        && forall j | k < j < |data| :: !IsBaseline(data[j], today)
    ensures PreviousBaseline(data, today).Returned? ==>
      var v := PreviousBaseline(data, today).value;
      v == Null || FormatsAsFixed(v)
  {
    LatestBaselineSpec(data, today);
    if k :| 0 <= k < |data| && IsBaseline(data[k], today) &&
            !FormatsAsFixed(data[k]["total_coins_xrp"]) &&
            forall j | k < j < |data| :: !IsBaseline(data[j], today) {
      var k' :| 0 <= k' < |data| && IsBaseline(data[k'], today) &&
                LatestBaseline(data, today) == data[k']["total_coins_xrp"] &&
                forall j | k' < j < |data| :: !IsBaseline(data[j], today);
      assert k == k';
    }
  }

  /** Example: a supply stored as the string `"99986"` the day before makes
      the run raise at the `,.2f` format, whatever the server answers. */
  lemma StoredTextSupplyRaises(timestamp: string, price: real,
                               serverResult: Option<map<string, Value>>,
                               fetch: int -> Option<seq<Value>>)
    ensures var yesterday := map["date" := Str("2026-10-15"), "total_coins_xrp" := Str("99986")];
      UpdateDataOf([yesterday], "2026-10-16", timestamp, price, serverResult, fetch) == Raised
  {
    var yesterday := map["date" := Str("2026-10-15"), "total_coins_xrp" := Str("99986")];
    assert "2026-10-15" != "2026-10-16" by {
      assert "2026-10-15"[9] != "2026-10-16"[9];
    }
    assert IsBaseline(yesterday, "2026-10-16");
    assert [yesterday][..0] == [];
  }

  /** The rebuilt list holds only entries of other days, and is the whole
      list when no entry is dated today. */
  lemma {:induction false} OtherDaysSpec(data: seq<Entry>, today: string)
    ensures forall k | 0 <= k < |OtherDays(data, today)| :: DateOf(OtherDays(data, today)[k]) != Str(today)
    ensures |OtherDays(data, today)| <= |data|
    ensures (forall k | 0 <= k < |data| :: DateOf(data[k]) != Str(today)) ==> OtherDays(data, today) == data
  {
    if data != [] {
      var init := data[..|data| - 1];
      OtherDaysSpec(init, today);
      assert data == init + [data[|data| - 1]];
      assert forall k | 0 <= k < |init| :: init[k] == data[k];
    }
  }

  /** Every entry of another day is kept, and nothing else. */
  lemma {:induction false} OtherDaysKeeps(data: seq<Entry>, today: string)
    ensures forall k | 0 <= k < |data| && DateOf(data[k]) != Str(today) :: data[k] in OtherDays(data, today)
    ensures forall e | e in OtherDays(data, today) :: e in data
  {
    if data != [] {
      var init := data[..|data| - 1];
      OtherDaysKeeps(init, today);
      assert data == init + [data[|data| - 1]];
      forall k | 0 <= k < |data| && DateOf(data[k]) != Str(today) ensures data[k] in OtherDays(data, today) {
        if k < |init| {
          assert data[k] == init[k];
        }
      }
    }
  }

  lemma OtherDaysAppend(a: seq<Entry>, b: seq<Entry>, today: string)
    ensures OtherDays(a + b, today) == OtherDays(a, today) + OtherDays(b, today)
    decreases |b|
  {
    if b == [] {
      assert a + b == a;
    } else {
      var init := b[..|b| - 1];
      assert (a + b)[..|a + b| - 1] == a + init;
      OtherDaysAppend(a, init, today);
    }
  }

  /** After the update, exactly one entry carries today's date and it is
      the last; no more than 90 entries remain; the others are the most
      recent entries of other days, in their stored order. */
  lemma UpdatedSpec(data: seq<Entry>, today: string, newEntry: Entry)
    requires DateOf(newEntry) == Str(today)
    ensures var r := Updated(data, today, newEntry);
      var others := OtherDays(data, today);
      && 1 <= |r| <= HistoryDays
      && r[|r| - 1] == newEntry
      && (forall k | 0 <= k < |r| - 1 :: DateOf(r[k]) != Str(today))
      && r[..|r| - 1] == others[|others| - (|r| - 1)..]
      && |r| == (if |others| < HistoryDays then |others| + 1 else HistoryDays)
  {
    var others := OtherDays(data, today);
    OtherDaysSpec(data, today);
    var all := others + [newEntry];
    var r := Updated(data, today, newEntry);
    if |all| > HistoryDays {
      assert r == all[|all| - HistoryDays..];
      assert r[..|r| - 1] == others[|others| - (|r| - 1)..];
    } else {
      assert r == all;
      assert r[..|r| - 1] == others;
    }
    forall k | 0 <= k < |r| - 1 ensures DateOf(r[k]) != Str(today) {
      assert r[k] == r[..|r| - 1][k];
    }
  }

  /** Tomorrow's run finds today's supply: the entry just stored is the
      last one, is of another day by then, and is a baseline when its
      supply is truthy. */
  lemma TomorrowFindsToday(data: seq<Entry>, today: string, tomorrow: string, newEntry: Entry)
    requires DateOf(newEntry) == Str(today) && tomorrow != today
    requires Truthy(Get(newEntry, "total_coins_xrp", Null))
    ensures LatestBaseline(Updated(data, today, newEntry), tomorrow) == newEntry["total_coins_xrp"]
    ensures FormatsAsFixed(newEntry["total_coins_xrp"]) ==>
      PreviousBaseline(Updated(data, today, newEntry), tomorrow) == Returned(newEntry["total_coins_xrp"])
  {
    UpdatedSpec(data, today, newEntry);
  }

  /** Running twice on the same day leaves what one run with the second
      entry would: the first run's entry is replaced and nothing else is
      lost, even when the history was full. */
  lemma SameDayRerun(data: seq<Entry>, today: string, first: Entry, second: Entry)
    requires DateOf(first) == Str(today)
    ensures Updated(Updated(data, today, first), today, second) == Updated(data, today, second)
  {
    var others := OtherDays(data, today);
    var once := Updated(data, today, first);
    UpdatedSpec(data, today, first);
    var kept := once[..|once| - 1];
    RefilterUpdated(data, today, first);
    LastDaysOfSuffix(others, kept, second);
  }

  /** Filtering today's entries out of an updated history leaves the older
      entries it kept. */
  lemma RefilterUpdated(data: seq<Entry>, today: string, first: Entry)
    requires DateOf(first) == Str(today)
    ensures var once := Updated(data, today, first);
      |once| >= 1 && OtherDays(once, today) == once[..|once| - 1]
  {
    var once := Updated(data, today, first);
    UpdatedSpec(data, today, first);
    var kept := once[..|once| - 1];
    assert once == kept + [first];
    OtherDaysAppend(kept, [first], today);
    assert OtherDays([first], today) == [] by {
      assert [first][..0] == [];
    }
    assert forall k | 0 <= k < |kept| :: DateOf(kept[k]) != Str(today) by {
      assert forall k | 0 <= k < |kept| :: kept[k] == once[k];
    }
    OtherDaysSpec(kept, today);
  }

  /** Keeping the last 90 of a list is unaffected by first dropping all but
      its last 89 entries (or none). */
  lemma LastDaysOfSuffix(others: seq<Entry>, kept: seq<Entry>, e: Entry)
    requires |kept| <= |others| && kept == others[|others| - |kept|..]
    requires |kept| == (if |others| < HistoryDays then |others| else HistoryDays - 1)
    ensures LastDays(kept + [e]) == LastDays(others + [e])
  {
    if |others| < HistoryDays {
      assert kept == others;
    } else {
      assert (others + [e])[|others| + 1 - HistoryDays..] == kept + [e];
    }
  }

  /** The stored entry records the run: today's date, the supply for
      tomorrow's delta, and whether the run fell back to simulation. */
  lemma NewEntryRecords(today: string, timestamp: string, m: RealMetrics)
    ensures var e := NewEntry(today, timestamp, m);
      && DateOf(e) == Str(today)
      && (Truthy(Get(e, "total_coins_xrp", Null)) <==> m.currentTotalCoins.Some? && m.currentTotalCoins.value != 0.0)
      && (Truthy(Get(e, "total_coins_xrp", Null)) ==> FormatsAsFixed(e["total_coins_xrp"]))
      && Get(e, "is_fallback", Null) == Bool(m.isSimulated)
      && (m.txCats == map[] ==> Get(e, "tx_categories", Null) == Dict(map[]))
  {
  }
}
