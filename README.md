# XRPBurn estimation engine, modelled in Dafny

XRPBurn estimates daily XRP Ledger statistics. These are the XRP burned (the drop in total supply), the number of transactions per category, and the settlement load in US dollars. Two scripts produce them:

- `generate_data.py` runs once a day. It reads the validated ledger's supply and samples the 60 most recent ledgers. It scales the sample to a 25,000-ledger day and rolls the result into a 90-day history.
- `check_today.py` is a live snapshot since midnight in Singapore. It locates midnight's ledger by estimate-and-correct, taking the first ledger fetched that lies within 5 ledgers of midnight, or else the fourth one fetched. It samples 60 ledgers and scales them to the ledgers elapsed in the window. It estimates the payment volume as the upper median payment times the settlement count.

The model covers the logic both scripts run on data they have already fetched:

| file (module) | what it models |
|---|---|
| `py.dfy` (`Py`) | The Python values the scripts handle: JSON values, truthiness, `or`, `dict.get`, `int()` on strings and floats, and truncation toward zero. A Python exception becomes the outcome `Raised`. |
| `classify.dfy` (`Categories`) | `classify_tx` and `classify`: the four categories and their lookup tables. |
| `ledger_parse.dfy` (`LedgerParse`) | `parse_ledger` and the parsing half of `get_server_info`. |
| `resolver.dfy` (`Resolver`) | `find_ledger_at`, as a loop proved against a recursive search. |
| `sample_common.dfy` (`SampleCommon`) | What both sampling loops share: which ledgers and transactions are counted, and the per-transaction facts (category, fee, XRP amount). |
| `daily_sampling.dfy` (`DailySampling`) | `sample_ledgers`, as nested loops proved against a reference fold. |
| `window_sampling.dfy` (`WindowSampling`) | The sampling block of `check_today.main`, with the 10M XRP cap and the per-ledger counts. |
| `sorting.dfy` (`Sorting`) | `payment_amounts.sort()` in place on an array, and the upper median. |
| `window_estimate.dfy` (`WindowEstimate`) | The aggregation block of `check_today.main`. |
| `check_today.dfy` (`CheckToday`) | `check_today.main` from the current ledger to the estimate. |
| `daily_metrics.dfy` (`DailyMetrics`) | The decision and aggregation part of `get_real_metrics`. |
| `history.dfy` (`History`) | The history transform of `update_data`. |

Modelling conventions:

- The network is replaced by oracles:
  - `fetch: int -> Option<seq<Value>>` answers a ledger's transaction list, with `None` for a failed call;
  - `int -> Option<map<string, Value>>` answers a `ledger` RPC result;
  - the `server_info` result and the XRP price are parameters.
- Amounts are integer drops, and XRP is `drops / 1e6` as a real number.
- Python's `int()` on a float is truncation toward zero (`Trunc`). `int(seconds / 3.5)` on whole seconds is the integer `TruncDiv(2 * seconds, 7)`; `Resolver.LedgersInIsTrunc` proves the two agree.
- Every operation that changes state step by step is a method with loop invariants. Its `ensures` ties its result to a reference function, and the lemmas state what the source promises about that function.

Points where the code does less than its names and comments suggest, all modelled as the code runs:

- `find_ledger_at`'s docstring (check_today.py:54) says it binary-searches for the ledger closest to the target. The code instead corrects an estimate at most four times:
  - it rounds each correction with `int()`, toward zero, not to nearest;
  - it keeps no best-seen snapshot and never nudges the estimate;
  - a failed parse at any attempt ends it with `None`, discarding earlier snapshots;
  - a search that does not converge returns the fourth snapshot fetched.
- A ledger without a close time is not retried. `target_utc - None` raises, and the model returns `Raised` (`Resolver.ProbeAt`).
- When the supply is absent, `parse_ledger` still returns a snapshot, with `coins` set to `None`. Its caller checks `coins` itself.
- `generate_data.py` scales the sample by the constant `LEDGERS_PER_DAY = 25_000` (generate_data.py:36), whatever the hour of the run.
- `generate_data.py` makes the burn non-negative with `abs()`, and uses the fee estimate when there is no delta.
- `check_today.py` leaves `burned = start - current` unguarded, so it can be negative (`CheckToday.WindowEnds`).
- With reference ledger 1000 at `t`, target `t + 350` and ledger 1100 closed at `t + 360`, the correction `int(-10 / 3.5)` is -2. That is below the tolerance of 5, so the search stops at ledger 1100 (`Resolver.WorkedExample`).
- The history scan prints the supply it finds with `,.2f` (generate_data.py:345), so a stored supply that is a string, a list or a dict makes the whole run raise, before any metric is computed (`History.PreviousBaseline`).

## Model

| member | source | states |
|---|---|---|
| Categories.ClassifyExact | generate_data.py:137-159 | Every type value yields exactly one category. It is listed in that category's table, and an unlisted or non-string type is `acct_mgmt`. |
| Categories.ClassifyTxExact | generate_data.py:137-159 | A transaction without `TransactionType` is `acct_mgmt`. The transaction's category is the unique one whose table lists its type. |
| Categories.TablesDisjoint | generate_data.py:139-154 | The settlement, DeFi and identity tables share no type, so the order of the tests does not matter. |
| Categories.ClassifyAgrees | check_today.py:73-82 | `classify(tx.get("TransactionType", ""))` equals `classify_tx(tx)`. In particular `classify(t)` equals `classify_tx({"TransactionType": t})` for every string `t`. |
| LedgerParse.ParseLedger | check_today.py:40-45 | An empty or missing response gives `None`. `None` is returned only for that, or when the ledger object is missing or falsy. |
| LedgerParse.NoLedgerObject | check_today.py:43-45 | With neither a truthy `ledger` nor a truthy `closed.ledger`, the result is `None`. |
| LedgerParse.TwoShapesAgree | check_today.py:43 | The same ledger object under `ledger` or under `closed.ledger` parses to the same snapshot. |
| LedgerParse.DirectShapeFirst | check_today.py:43 | A truthy `ledger` wins: `closed` is then ignored. |
| LedgerParse.SequencePriority | check_today.py:46 | The sequence is `int()` of the first truthy one of `ledger.ledger_index` and `ledger.seqNum`, so absent, `null`, `""` and `0` are skipped. When both are falsy, it is `int()` of the top-level `ledger_index`, 0 when that is absent. A decimal-string or non-zero integer field gives its number. |
| LedgerParse.CoinsInXrp | check_today.py:47 | `total_coins` in drops gives `drops / 1e6` XRP. The coins are `None` exactly when `total_coins` is falsy. |
| LedgerParse.CloseTimeShifted | check_today.py:48-49 | The close time is `close_time + 946684800`. It is `None` exactly when `close_time` is absent or null. |
| LedgerParse.GetServerInfo | generate_data.py:97-99 | A missing or empty `server_info` result gives `None`. |
| LedgerParse.ServerInfoReads | generate_data.py:100-107 | Falsy `total_coins` gives `None`. Otherwise the supply is `drops / 1e6`, and `ledger_index` is `seq`, or 0 when it is absent. A `tx_per_ledger` that is `null`, a list or a dict makes `float()` raise. |
| Resolver.LedgersInIsTrunc | check_today.py:56 | `TruncDiv(2s, 7)` is `int(s / 3.5)`, truncation toward zero. |
| Resolver.LedgersInRoundsTowardZero | check_today.py:63 | Negative offsets truncate toward zero: `int(-6 / 3.5) == -1` and `int(-3 / 3.5) == 0`. |
| Resolver.FindLedgerAt | check_today.py:53-70 | The attempt loop, with its early `return` and `break`, returns exactly what the recursive search `Resolver.Search` returns. |
| Resolver.ProbesChainFrom | check_today.py:57-69 | From any estimate, 1 to `left` ledgers are fetched, the first at the estimate. Each later one is the previous one moved by its correction, which was at least the tolerance. |
| Resolver.ResultIsLastProbeFrom | check_today.py:58-70 | The last fetch decides the result. A crash there raises, a parse miss there gives `None`, and otherwise its snapshot is returned, either converged or after all the attempts. |
| Resolver.ReadsOnlyProbesFrom | check_today.py:57-69 | Two oracles that agree on the fetched estimates fetch the same estimates and give the same result. |
| Resolver.SearchContract | check_today.py:55-70 | For `find_ledger_at`: at most 4 fetches, the first at `current_seq + int(diff_s / 3.5)`, each next one at the previous plus its correction, and the outcome rules above. |
| Resolver.SearchReadsOnlyProbes | check_today.py:57-69 | Only the fetched ledgers affect `find_ledger_at`'s result. |
| Resolver.WorkedExample | check_today.py:55-68 | Reference 1000 at `t` and target `t + 350` start at ledger 1100. A close at `t + 360` gives correction -2, below the tolerance, so that snapshot is returned. |
| SampleCommon.KeptCount | generate_data.py:179-181 | The number of kept ledgers is at most the number visited. |
| SampleCommon.TallyTotal | generate_data.py:193-194 | The four category counts add up to the number of tallied transactions. |
| SampleCommon.BumpOnlyOne | generate_data.py:194 | `tx_counts[cat] += 1` raises one category by one and leaves the others alone. |
| SampleCommon.AllFactsPointwise | generate_data.py:193-203 | The facts succeed exactly when every counted transaction's `int()` conversions succeed. They are then the per-transaction facts, one per transaction. |
| SampleCommon.SkippedContributesNothing | generate_data.py:179-180 | A failed or empty ledger contributes no transaction. |
| SampleCommon.CountedTxsConcat | generate_data.py:176-203 | The counted transactions of consecutive ledger runs concatenate. |
| DailySampling.SampleLedgers | generate_data.py:162-210 | The nested loop returns exactly the reference sample of the 60 visited ledgers. An `int()` that raises ends it with `Raised`. |
| DailySampling.CountLedger | generate_data.py:183-203 | One ledger's inner loop extends the counts, the fee total and the payment total by exactly the facts of its counted transactions. |
| DailySampling.CountTransaction | generate_data.py:193-203 | One transaction bumps its category, adds its fee and adds the drops of an XRP payment. It raises exactly when an `int()` does. |
| DailySampling.SampleShape | generate_data.py:176-194 | A sample is produced iff every conversion succeeds. Then `ledgers_ok` is at most the ledgers visited, and the category counts add up to the counted transactions. |
| DailySampling.FeesOfCountedOnly | generate_data.py:196-203 | `fee_drops` sums `int(Fee)` over the counted transactions only. The payment total sums `int(Amount)` over their XRP payments. |
| DailySampling.FactsSums | generate_data.py:196-203 | Summing the facts equals summing the fees and XRP payment amounts of the transactions directly. |
| DailySampling.PaymentAmounts | generate_data.py:200-203 | An issued-currency (dict) amount adds nothing. A string amount adds its drops. |
| DailySampling.SkippedLedgerChangesNothing | generate_data.py:179-181 | Inserting a failed or empty ledger anywhere leaves the sample unchanged. |
| WindowSampling.SampleWindow | check_today.py:122-159 | The sampling loop returns exactly the reference window sample of the 60 visited ledgers. |
| WindowSampling.CountWindowLedger | check_today.py:139-158 | One ledger's loop extends the counts, fees and kept amounts by its counted transactions' facts. Its `ledger_tx_count` is the number counted. |
| WindowSampling.CountWindowTransaction | check_today.py:147-157 | One transaction bumps its category and adds its fee. An XRP payment within the cap is appended to the amounts. |
| WindowSampling.WindowShape | check_today.py:130-158 | `ledgers_ok` is at most the ledgers visited, and `len(tx_per_ledger) == ledgers_ok`. `sum(tx_per_ledger)` equals the total count and the counted transactions. Every kept amount is at most the cap, and there are no more amounts than settlement transactions. |
| WindowSampling.PerLedgerShape | check_today.py:136-158 | One per-ledger count is kept per kept ledger, and the counts sum to the counted transactions. |
| WindowSampling.CappedBelowCap | check_today.py:151-157 | Every kept amount is at most 10,000,000 XRP in drops. |
| WindowSampling.AmountsWithinSettlement | check_today.py:147-157 | There are no more kept amounts than settlement transactions. |
| WindowSampling.XrpPaymentIsSettlement | check_today.py:147-153 | A transaction with an XRP amount is a `Payment`, hence a settlement. |
| WindowSampling.WhaleExcluded | check_today.py:153-157 | A payment above the cap is still counted as a settlement, but its amount is excluded, not clamped. |
| WindowSampling.SamplesAgree | check_today.py:130-150 | On the same ledgers, the live and the daily sampling agree on success, the category counts, the fee total and `ledgers_ok`. |
| Sorting.SortInPlace | check_today.py:165 | `list.sort()` in place leaves the array sorted and a permutation of its old contents. |
| Sorting.SortAscIsSortedPermutation | check_today.py:165 | The sorted-list function yields a sorted permutation of its input. |
| Sorting.SortedUnique | check_today.py:165 | Two sorted arrangements of the same multiset are equal. |
| Sorting.SortInPlaceIsSortAsc | check_today.py:165 | The array after the in-place sort is the sorted-list function of its old contents. |
| Sorting.MedianOfSorted | check_today.py:165-167 | `sorted[len // 2]` is one of the amounts, no smaller than the first half and no larger than the second. |
| WindowEstimate.EstimateWindow | check_today.py:161-201 | Copying to an array, sorting in place and aggregating give exactly the estimate function of the sample. |
| WindowEstimate.ScaleDefined | check_today.py:162 | `ledgers_in_win / max(ledgers_ok, 1)` is defined for `ledgers_ok == 0`, and then equals `ledgers_in_win`. It times `ledgers_ok` is `ledgers_in_win`, and it is non-negative iff the window is. |
| WindowEstimate.NoPayments | check_today.py:166-201 | With no kept amounts, the volume, count, median, raw sum and both loads are 0. |
| WindowEstimate.MedianOfAmounts | check_today.py:165-167 | The median is the upper median of the sorted amounts and one of them. It splits them into halves and is within the cap when every amount is. |
| WindowEstimate.VolumeOfMedian | check_today.py:166-200 | The volume is median times `int(settlement * scale)`, and the load is volume times price over 1e6. |
| WindowEstimate.TruncatedCategories | check_today.py:183-184 | `tx_cats_win[k] == int(v * scale)` and `total_tx_win == int(total * scale)`. The categories sum to within 3 of the total: below it for a non-negative scale, above it for a negative one. |
| WindowEstimate.TruncSum | check_today.py:183-184 | Four truncations of same-sign numbers lose less than four units in all. |
| WindowEstimate.PaymentCountWithinTotal | check_today.py:168-183 | For a non-negative scale, the scaled payment count is between 0 and the scaled total. |
| WindowEstimate.AverageIsPerLedger | check_today.py:185 | `avg_tx_ledger` is the counted transactions over `max(ledgers_ok, 1)`. |
| CheckToday.LocateWindow | check_today.py:100-119 | Parsing the current ledger and searching for midnight give exactly the window function. |
| CheckToday.LocateFrom | check_today.py:102-119 | From the parsed current ledger, the search and the coin checks give exactly the window function. |
| CheckToday.CheckToday | check_today.py:100-201 | The whole snapshot (window, sample, estimate) is exactly the reference composition. |
| CheckToday.WindowEnds | check_today.py:102-119 | A window's ends are the parsed current ledger and the searched midnight ledger, both with coins. `burned = start - current` is negative iff supply grew, and `ledgers_in_win` is the sequence difference. |
| CheckToday.NoWindow | check_today.py:102-111 | No current ledger, or one without coins, gives no window. Coins without a close time raise. |
| CheckToday.ReportShape | check_today.py:130-183 | A report samples at most 60 ledgers with one count per kept ledger, and keeps only amounts within the cap. For a non-negative window, its payment count lies between 0 and the total. |
| DailyMetrics.GetRealMetrics | generate_data.py:217-315 | The metric builder returns exactly the reference function of the server result, the previous supply, the oracle and the price. |
| DailyMetrics.DeltaBurnRule | generate_data.py:242-250 | With both totals truthy, the burn is the absolute difference and never negative. Otherwise there is no delta burn. A non-numeric previous total raises. |
| DailyMetrics.BurnFallback | generate_data.py:242-304 | A delta burn is kept. Without one, a sampled day burns `fee_drops * scale / 1e6`, and an unsampled day has none. |
| DailyMetrics.SimulatedRule | generate_data.py:264-302 | The day is simulated iff `ledgers_ok == 0` or nothing was counted. Then both category dicts are `{}` and the totals are `None`. Otherwise both dicts have exactly the four keys, and the supply is passed through. |
| DailyMetrics.ScaledCountsAddUp | generate_data.py:268-272 | Each category is its count times scale in millions, and they add up to the scaled total. |
| DailyMetrics.LoadSharesAddUp | generate_data.py:280-284 | Each category load is `load * count_k / total`, and they add up to the load. |
| DailyMetrics.CategoriesAddUp | generate_data.py:264-284 | For a sampled day: the total and the load are the scaled values, `tx_cats` sums to the total, and `load_cats` sums to the load. |
| DailyMetrics.Unreachable | generate_data.py:237-305 | Without a `server_info` result, everything is `None` or empty and the day is simulated. |
| DailyMetrics.ZeroLedgerNotSampled | generate_data.py:258-264 | A `server_info` ledger index of 0 is falsy, so nothing is sampled and the day is simulated. |
| History.PreviousTotalCoins | generate_data.py:341-346 | The reversed scan with `break` returns the latest baseline supply, `None` when there is none, and raises when the supply it finds is not a number and cannot be formatted with `,.2f`. |
| History.PreviousBaselineRaises | generate_data.py:341-346 | The scan raises iff the last entry of another day with a truthy supply stores a supply that is not a number. Otherwise it yields `None` or a number. |
| History.StoredTextSupplyRaises | generate_data.py:341-346 | Example: yesterday's supply stored as the string `"99986"` makes the run raise, whatever the server answers. |
| History.LatestBaselineSpec | generate_data.py:341-346 | The previous supply is `None` iff no entry of another day has a truthy supply. Otherwise it is the supply of the last such entry. |
| History.UpdateHistory | generate_data.py:366-368 | Filtering, appending and slicing give exactly the updated-history function. |
| History.OtherDaysSpec | generate_data.py:366 | The filtered list holds no entry for today and is no longer than the input. It is the input unchanged when no entry is dated today. |
| History.OtherDaysKeeps | generate_data.py:366 | Every entry of another day is kept, and nothing else. |
| History.UpdatedSpec | generate_data.py:366-368 | The new entry is last and the only one dated today. The rest are the latest entries of other days: all of them when there are fewer than 90 (one more entry in all), otherwise the last 89 (90 entries). |
| History.TomorrowFindsToday | generate_data.py:341-368 | The next day's scan finds the supply just stored, and returns it without raising when it is a number. |
| History.SameDayRerun | generate_data.py:366-368 | Running twice on one day equals running once with the second entry. |
| History.NewEntryRecords | generate_data.py:352-363 | The stored entry carries today's date and the simulated flag. Its supply is truthy iff a non-zero supply was read, and is then a number, so the next scan can format it. Empty categories are stored as `{}`. |
| History.UpdateData | generate_data.py:340-368 | The whole update returns exactly the history function: baseline (raising on a stored supply that is not a number), metrics, new entry, filter, append, slice. |

## Left out

- Network access is left out: `xrpl_rpc` with its node failover, `fetch_json`, `get_ledger_transactions` and the CoinGecko price fetch. Their results are oracle parameters, and the price is an input.
- The fallback prices 2.36 and 2.30 are left out; the price is an input.
- `time.sleep` throttles are left out. They have no effect on the results.
- The clock and time zone work is left out: `datetime.now`, pytz, the Singapore midnight and `hours_elapsed`. The date string, the timestamp and the midnight instant are inputs.
- The burn-rate annualisation at check_today.py:204-206 is left out. It divides by a float of elapsed hours, which depends on the clock.
- Reading and writing `data.json` are left out, including a `json.load` failure and a file that holds something other than a list. History entries are assumed to be JSON objects (`Entry` is a map).
- Printing and the report layout are left out.
- `round(x, n)` is left out. Sums, loads and burns are exact reals, and IEEE double effects are not modelled.
- Python's `int()` on a string is modelled for ASCII digit strings with an optional sign. Strings with surrounding whitespace, underscores or non-ASCII digits, which Python accepts, raise in the model. On a float it truncates toward zero.
- LedgerParse.GetServerInfo: the value of `float(vl.get("tx_per_ledger", 0))` is not kept, since no result depends on it. Its TypeError on `null`, a list or a dict is modelled. Its ValueError on a string that is not a number, which also ends the run, is not: the model accepts every string there.
- `datetime.fromtimestamp` range errors are left out. A close time is a whole number of Unix seconds.
- LedgerParse.CloseTimeOf: a JSON float `close_time` raises in the model, but the script accepts it (`fromtimestamp` takes a float). rippled writes close times as integers, and the model's times are whole seconds.
- The model assumes a ledger's `transactions` field is a list. A ledger whose transactions are not a list is not modelled.
- WindowSampling.CountWindowTransaction: the cap test `int(amt) / 1e6 <= 10_000_000` is done exactly in drops, so floating-point rounding at the boundary is not modelled.
- DailyMetrics.DeltaBurnRule: the burn is the exact absolute difference, without `round(..., 4)`.
