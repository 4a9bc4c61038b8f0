# SuperMarketPro back-office data layer, in Dafny

This project models the data and query layer of a point-of-sale back-office demo (class `AppModel` in `model.py`). The constructor sets up five record collections: checkout lanes (cashiers), maintenance tickets, an earnings snapshot, inventory items and sales. Nothing changes them afterwards. On top of them the class offers:

- a placeholder login check;
- four list accessors, each with an optional status or stock filter followed by an optional case-insensitive substring search;
- statistics (counts, sums and a rounded mean) for each section and for the dashboard.

Because no state changes after construction, the model is a value. `Model.AppModel` is a datatype holding the five collections, and every accessor is a function of it. Files:

- `model.dfy` (module `Model`): the records and the login check and the nine query and statistics operations.
- `text.dfy` (module `Text`): ASCII `lower()`, Python's substring test `q in s`, and `str()` of an integer.
- `seqs.dfy` (module `Seqs`): list comprehensions as `Filter`, `sum` as `Sum`, and order-preserving subsequences.
- `properties.dfy` (module `ModelProperties`): lemmas relating the accessors to each other and to the collections.
- `fixture.dfy` (module `Fixture`): the sample data the constructor installs, and what the accessors answer on it.

Modelling choices:

- Status and priority fields stay plain strings, because the source compares raw strings. This keeps the source's uneven handling of unknown filter keys:
  - for cashiers and sales, any key other than `"all"` keeps only records with exactly that status;
  - for inventory, a key other than `"low"` and `"high"` filters nothing out.
- Prices and sale amounts are integer cents.
- An absent operator is `Option.None`.
- The sales search tests the query against `str(id)` without lower-casing it, as the source does. `ModelProperties.SaleIdSearchIgnoresCase` proves this is harmless, because `str(id)` contains no letters.

Two consequences of the code worth knowing:

- For cashiers and sales, an unrecognised filter key keeps only records whose status equals the key, so it gives an empty list (`ModelProperties.CashierUnknownKeyIsEmpty`, `ModelProperties.SaleUnknownKeyIsEmpty`). Only inventory treats an unknown key as no filter (`ModelProperties.InventoryUnknownKeyIsAll`).
- The sample data has 6 lanes under maintenance (7, 12, 15, 19, 21 and 23); see `Fixture.InitialMaintenanceCount`.

## Model

| member | source | states |
|---|---|---|
| Model.Authenticate | model.py:121-123 | the login succeeds exactly when both the user name and the password are non-empty |
| Model.GetCashiers | model.py:141-154 | the result is an order-preserving subsequence of the lanes; a lane is in it iff its status equals the filter (or the filter is "all") and, for a non-empty query, its name or present non-empty operator contains the lowered query; each selected lane keeps its multiplicity |
| Model.GetCashierStats | model.py:156-164 | total_cashiers is the number of lanes; open + closed + maintenance never exceeds it; the sales total is non-negative when every lane's sales are |
| Model.GetMaintenanceTasks | model.py:166-178 | order-preserving subsequence of the tickets; a ticket is in it iff the query is empty or its name, issue, details or reporter contains the lowered query; multiplicities kept |
| Model.RoundDiv | model.py:183 | `round(n / d)` is within half of d of n when multiplied back, and an exact half goes to the even neighbour |
| Model.GetMaintenanceStats | model.py:180-184 | total is the number of tickets; high_priority never exceeds it; avg_days is 0 without tickets and otherwise the integer nearest to the mean of estimated_days |
| Model.GetInventory | model.py:189-205 | order-preserving subsequence of the items; an item is in it iff it passes the stock filter ("low": stock <= min_stock, "high": stock > 2 * min_stock, any other key: always) and, for a non-empty query, its name, SKU or category contains the lowered query; multiplicities kept |
| Model.GetInventoryStats | model.py:207-219 | total_products is the number of items; low + high never exceeds it when reorder levels are non-negative; stock units and total value are non-negative for non-negative stocks and prices |
| Model.ItemValue | model.py:211 | one item's stock value, stock times unit price, is non-negative for a non-negative stock and price |
| Model.StockClassesCounted | model.py:209-210 | with non-negative reorder levels the low-stock and high-stock counts together never exceed the number of items |
| Model.GetSales | model.py:221-235 | order-preserving subsequence of the sales; a sale is in it iff its status equals the filter (or "all") and, for a non-empty query, `str(id)`, the cashier or the customer contains the lowered query; multiplicities kept |
| Model.GetSalesStats | model.py:237-249 | total_all is the number of sales; the three status counts never exceed it; the three amounts are non-negative when every amount is |
| Model.GetDashboardStats | model.py:125-139 | total_cashiers and transactions_today are the collection sizes; the maintenance and low-stock counts are bounded by them; month_growth is the snapshot's value |
| Text.Lower | model.py:148 | lower-casing keeps the length and maps each character, changing only A-Z |
| Text.LowerIdempotent | model.py:148 | lower-casing twice is lower-casing once |
| Text.Contains | model.py:151-152 | `q in s` holds exactly when q occurs in s at some position |
| Text.ContainsLower | model.py:151-152 | every case-exact occurrence is still found after lower-casing both query and field |
| Text.IntToString | model.py:231 | `str(n)` is non-empty; it starts with a minus sign exactly for negative n, every other character is a digit, and the digits have no leading zero unless they are the single digit 0 |
| Text.IntToStringRoundTrip | model.py:231 | reading `str(n)` back gives n, so distinct ids render differently |
| Text.IntToStringIsLowerCase | model.py:231 | `str(n)` is unchanged by lower-casing |
| Seqs.Filter | model.py:145 | a list comprehension's result is an order-preserving subsequence holding exactly the passing elements |
| Seqs.SumBounds | model.py:183 | a sum of terms that all lie between lo and hi lies between lo and hi times the number of terms |
| Seqs.SumPartition3 | model.py:246-248 | the sums over three filters that split the sequence add up to the sum over all of it |
| Seqs.FilterMultiset | model.py:145 | a comprehension keeps each passing element as many times as the input holds it, and no other element |
| ModelProperties.UnfilteredListsAreWhole | model.py:141-235 | filter "all" with an empty query returns each of the four collections whole and in order |
| ModelProperties.InventoryUnknownKeyIsAll | model.py:192-193 | an inventory stock key other than "low" or "high" filters nothing out |
| ModelProperties.CashierUnknownKeyIsEmpty | model.py:144-145 | when every lane has a known status, an unknown status key lists no lane |
| ModelProperties.SaleUnknownKeyIsEmpty | model.py:224-225 | when every sale has a known status, an unknown status key lists no sale |
| ModelProperties.AbsentOperatorNeverMatches | model.py:151-152 | a lane without operator is found by a search iff it passes the status filter and its name contains the lowered query |
| ModelProperties.SearchIgnoresCase | model.py:147-148 | two queries with the same lower-cased form give the same list in all four accessors |
| ModelProperties.SaleIdSearchIgnoresCase | model.py:231 | matching the unlowered `str(id)` is the same as matching its lowered form |
| ModelProperties.CashierQueryIdempotent | model.py:141-154 | running a cashier query over its own result returns that result |
| ModelProperties.TaskQueryIdempotent | model.py:166-178 | running a ticket search over its own result returns that result |
| ModelProperties.InventoryQueryIdempotent | model.py:189-205 | running an inventory query over its own result returns that result |
| ModelProperties.SaleQueryIdempotent | model.py:221-235 | running a sales query over its own result returns that result |
| ModelProperties.StockClasses | model.py:192-193 | for min_stock >= 0: no item is both low and high; stock == min_stock is low; stock == 2 * min_stock with min_stock > 0 is neither; with min_stock == 0 every positive stock is high |
| ModelProperties.CashierStatsAgreeWithFilters | model.py:159-163 | the open, closed and maintenance counts and total_cashiers equal the lengths of the matching unsearched cashier lists |
| ModelProperties.InventoryStatsAgreeWithFilters | model.py:209-210 | the low and high counts and total_products equal the lengths of the matching unsearched inventory lists |
| ModelProperties.SalesStatsAgreeWithFilters | model.py:238-245 | the completed, pending and refunded counts and total_all equal the lengths of the matching unsearched sales lists |
| ModelProperties.DashboardAgreesWithStats | model.py:127-130 | the dashboard's maintenance, lane, transaction and low-stock counts equal those of the section statistics |
| ModelProperties.CashierCountsAddUp | model.py:159-163 | when every lane is open, closed or in maintenance, the three counts add up to total_cashiers |
| ModelProperties.SalesCountsAddUp | model.py:238-248 | when every sale is completed, pending or refunded, the three counts add up to total_all and the three amounts add up to the amount of all sales |
| ModelProperties.AvgDaysWithinBounds | model.py:183 | with tickets present, avg_days lies between any lower and upper bound of the estimated days |
| ModelProperties.AvgDaysExact | model.py:183 | when the days divide evenly, avg_days is the exact mean |
| Fixture.Initial | model.py:10-119 | the state after construction holds the sample lanes, tickets, earnings snapshot, inventory and sales, with amounts in cents |
| Fixture.InitialMaintenanceCount | model.py:10-35 | the sample data has 6 lanes in maintenance, on the lane statistics and on the dashboard |
| Fixture.InitialLowStock | model.py:103-109 | the sample "low" list is the mouse and the webcam, in that order |
| Fixture.InitialCompletedAmount | model.py:110-119 | the sample's completed sales amount to 5582.35 |
| Fixture.InitialAvgDays | model.py:36-79 | the sample's 13 estimated days over 6 tickets average to 2 |
| Fixture.InitialSearchIgnoresCase | model.py:147-153 | searching the sample lanes for "CAJA 01" lists the same as searching for "caja 01" |

## Left out

- view.py is not part of this model. It builds the widget tree for a UI toolkit. Besides laying out what the model returns, it computes only display values: the week total, the widths of the chart bars and its own low-stock test for colouring rows.
- Floating-point money: prices and amounts are exact integer cents. The source's float sums `total_value`, `amount_*` and their rounding are not modelled.
- Text.Lower: only ASCII A-Z are lower-cased. Python's Unicode `str.lower()` (accented capitals, characters whose lower form is longer) is not modelled, because it depends on Unicode tables.
- Model.RoundDiv: rounds the exact rational sum / total, halves to even. The binary floating-point division before Python's `round()` is not modelled.
- `get_earnings_data` returns the stored snapshot unchanged. The model keeps the snapshot as `AppModel.earnings` and has no separate accessor for it.
- The unfiltered path of each accessor returns the stored list object itself, an alias, in the source. A value model has no aliasing.
- Model.Authenticate: takes strings. Python truthiness of non-string arguments such as `None` is not modelled.
- The constructor is modelled by `Fixture.Initial` as a constant. Creating the object is not modelled.
