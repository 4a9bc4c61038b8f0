/** Properties of the AppModel accessors that relate several calls, or a call
    and the collection it reads. */
module ModelProperties {
  import opened Text
  import opened Seqs
  import opened Model

  // ---------------------------------------------------------------- filters

  /** Filter "all" with an empty query lists every collection whole, in order. */
  lemma UnfilteredListsAreWhole(m: AppModel)
    ensures GetCashiers(m, "all", "") == m.cashiers
    ensures GetMaintenanceTasks(m, "") == m.maintenanceTasks
    ensures GetInventory(m, "all", "") == m.inventory
    ensures GetSales(m, "all", "") == m.sales
  {
  }

  /** For inventory an unrecognised stock key filters nothing out. */
  lemma InventoryUnknownKeyIsAll(m: AppModel, stockFilter: string)
    requires stockFilter != "low" && stockFilter != "high"
    ensures GetInventory(m, stockFilter, "") == m.inventory
  {
  }

  /** For cashiers an unrecognised status key keeps only lanes carrying that
      very status, so when every lane has a known status it lists nothing. */
  lemma CashierUnknownKeyIsEmpty(m: AppModel, statusFilter: string, searchQuery: string)
    requires statusFilter !in {"all", "open", "closed", "maintenance"}
    requires forall c :: c in m.cashiers ==> c.status in {"open", "closed", "maintenance"}
    ensures GetCashiers(m, statusFilter, searchQuery) == []
  {
    assert multiset(GetCashiers(m, statusFilter, searchQuery)) == multiset{};
  }

  /** For sales likewise. */
  lemma SaleUnknownKeyIsEmpty(m: AppModel, statusFilter: string, searchQuery: string)
    requires statusFilter !in {"all", "completed", "pending", "refunded"}
    requires forall s :: s in m.sales ==> s.status in {"completed", "pending", "refunded"}
    ensures GetSales(m, statusFilter, searchQuery) == []
  {
    assert multiset(GetSales(m, statusFilter, searchQuery)) == multiset{};
  }

  /** A lane without operator is found by a search only through its name. */
  lemma AbsentOperatorNeverMatches(m: AppModel, c: Cashier, statusFilter: string, searchQuery: string)
    requires c in m.cashiers && c.operator == None && searchQuery != ""
    ensures c in GetCashiers(m, statusFilter, searchQuery) <==>
      (statusFilter == "all" || c.status == statusFilter) && Contains(Lower(c.name), Lower(searchQuery))
  {
  }

  /** Searches depend on the query only through its lower-cased form. */
  lemma SearchIgnoresCase(m: AppModel, filter: string, q1: string, q2: string)
    requires Lower(q1) == Lower(q2)
    ensures GetCashiers(m, filter, q1) == GetCashiers(m, filter, q2)
    ensures GetMaintenanceTasks(m, q1) == GetMaintenanceTasks(m, q2)
    ensures GetInventory(m, filter, q1) == GetInventory(m, filter, q2)
    ensures GetSales(m, filter, q1) == GetSales(m, filter, q2)
  {
    assert |q1| == |Lower(q1)| == |q2|;
  }

  /** The sales search compares the query with `str(id)` without lowering it;
      since `str(id)` has no letters this is the same as lowering it. */
  lemma SaleIdSearchIgnoresCase(s: Sale, query: string)
    ensures SaleMatches(s, query) <==>
      Contains(Lower(IntToString(s.id)), query) || Contains(Lower(s.cashier), query) || Contains(Lower(s.customer), query)
  {
    IntToStringIsLowerCase(s.id);
  }

  /** `r` is an order-preserving selection of `s` that keeps every element
      it has as often as `s` has it. */
  lemma {:induction false} SubsequenceOfSameLength<T(!new)>(r: seq<T>, s: seq<T>)
    requires IsSubsequence(r, s) && |r| == |s|
    ensures r == s
    decreases |s|
  {
    if r != [] {
      if !(r[0] == s[0] && IsSubsequence(r[1..], s[1..])) {
        SubsequenceShorter(r, s[1..]);
        assert false;
      }
      SubsequenceOfSameLength(r[1..], s[1..]);
    }
  }

  /** A subsequence is never longer than the sequence. */
  lemma {:induction false} SubsequenceShorter<T(!new)>(r: seq<T>, s: seq<T>)
    requires IsSubsequence(r, s)
    ensures |r| <= |s|
    decreases |s|
  {
    if r != [] {
      if r[0] == s[0] && IsSubsequence(r[1..], s[1..]) {
        SubsequenceShorter(r[1..], s[1..]);
      } else {
        SubsequenceShorter(r, s[1..]);
      }
    }
  }

  /** Every listed element passes the filter again, so running the same query
      over a result gives the result back. */
  lemma CashierQueryIdempotent(m: AppModel, statusFilter: string, searchQuery: string)
    ensures var r := GetCashiers(m, statusFilter, searchQuery);
      GetCashiers(m.(cashiers := r), statusFilter, searchQuery) == r
  {
    var r := GetCashiers(m, statusFilter, searchQuery);
    var r' := GetCashiers(m.(cashiers := r), statusFilter, searchQuery);
    assert multiset(r') == multiset(r);
    SubsequenceOfSameLength(r', r);
  }

  lemma InventoryQueryIdempotent(m: AppModel, stockFilter: string, searchQuery: string)
    ensures var r := GetInventory(m, stockFilter, searchQuery);
      GetInventory(m.(inventory := r), stockFilter, searchQuery) == r
  {
    var r := GetInventory(m, stockFilter, searchQuery);
    var r' := GetInventory(m.(inventory := r), stockFilter, searchQuery);
    assert multiset(r') == multiset(r);
    SubsequenceOfSameLength(r', r);
  }

  lemma SaleQueryIdempotent(m: AppModel, statusFilter: string, searchQuery: string)
    ensures var r := GetSales(m, statusFilter, searchQuery);
      GetSales(m.(sales := r), statusFilter, searchQuery) == r
  {
    var r := GetSales(m, statusFilter, searchQuery);
    var r' := GetSales(m.(sales := r), statusFilter, searchQuery);
    assert multiset(r') == multiset(r);
    SubsequenceOfSameLength(r', r);
  }

  lemma TaskQueryIdempotent(m: AppModel, searchQuery: string)
    ensures var r := GetMaintenanceTasks(m, searchQuery);
      GetMaintenanceTasks(m.(maintenanceTasks := r), searchQuery) == r
  {
    var r := GetMaintenanceTasks(m, searchQuery);
    var r' := GetMaintenanceTasks(m.(maintenanceTasks := r), searchQuery);
    assert multiset(r') == multiset(r);
    SubsequenceOfSameLength(r', r);
  }

  // ---------------------------------------------------------------- stock classes

  /** The two stock classes of an item with a non-negative reorder level. */
  lemma StockClasses(p: InventoryItem)
    requires p.minStock >= 0
    ensures !(IsLowStock(p) && IsHighStock(p))
    ensures p.stock == p.minStock ==> IsLowStock(p) && !IsHighStock(p)
    ensures p.stock == 2 * p.minStock && p.minStock > 0 ==> !IsLowStock(p) && !IsHighStock(p)
    ensures p.minStock == 0 ==> (IsHighStock(p) <==> p.stock > 0)
  {
  }

  // ---------------------------------------------------------------- stats and filters

  /** The cashier counts are the lengths of the matching unsearched lists. */
  lemma CashierStatsAgreeWithFilters(m: AppModel)
    ensures GetCashierStats(m).open == |GetCashiers(m, "open", "")|
    ensures GetCashierStats(m).closed == |GetCashiers(m, "closed", "")|
    ensures GetCashierStats(m).maintenance == |GetCashiers(m, "maintenance", "")|
    ensures GetCashierStats(m).totalCashiers == |GetCashiers(m, "all", "")|
  {
  }

  /** The stock counts are the lengths of the matching unsearched lists. */
  lemma InventoryStatsAgreeWithFilters(m: AppModel)
    ensures GetInventoryStats(m).lowStockCount == |GetInventory(m, "low", "")|
    ensures GetInventoryStats(m).highStockCount == |GetInventory(m, "high", "")|
    ensures GetInventoryStats(m).totalProducts == |GetInventory(m, "all", "")|
  {
  }

  /** The sales counts are the lengths of the matching unsearched lists. */
  lemma SalesStatsAgreeWithFilters(m: AppModel)
    ensures GetSalesStats(m).totalCompleted == |GetSales(m, "completed", "")|
    ensures GetSalesStats(m).totalPending == |GetSales(m, "pending", "")|
    ensures GetSalesStats(m).totalRefunded == |GetSales(m, "refunded", "")|
    ensures GetSalesStats(m).totalAll == |GetSales(m, "all", "")|
  {
  }

  /** The dashboard's tiles agree with the section statistics. */
  lemma DashboardAgreesWithStats(m: AppModel)
    ensures GetDashboardStats(m).maintenanceCount == GetCashierStats(m).maintenance
    ensures GetDashboardStats(m).totalCashiers == GetCashierStats(m).totalCashiers
    ensures GetDashboardStats(m).lowStockCount == GetInventoryStats(m).lowStockCount
    ensures GetDashboardStats(m).transactionsToday == GetSalesStats(m).totalAll
  {
  }

  /** With every lane in a known status the three counts add up to the total. */
  lemma CashierCountsAddUp(m: AppModel)
    requires forall c :: c in m.cashiers ==> c.status in {"open", "closed", "maintenance"}
    ensures var st := GetCashierStats(m); st.open + st.closed + st.maintenance == st.totalCashiers
  {
    FilterPartition3(m.cashiers, (c: Cashier) => c.status == "open", (c: Cashier) => c.status == "closed",
      (c: Cashier) => c.status == "maintenance");
  }

  /** With every sale in a known status the three counts add up to the total,
      and the three amounts add up to the amount of all sales. */
  lemma SalesCountsAddUp(m: AppModel)
    requires forall s :: s in m.sales ==> s.status in {"completed", "pending", "refunded"}
    ensures var st := GetSalesStats(m); st.totalCompleted + st.totalPending + st.totalRefunded == st.totalAll
    ensures var st := GetSalesStats(m);
      st.amountCompletedCents + st.amountPendingCents + st.amountRefundedCents == Sum(m.sales, (s: Sale) => s.amountCents)
  {
    FilterPartition3(m.sales, (s: Sale) => s.status == "completed", (s: Sale) => s.status == "pending",
      (s: Sale) => s.status == "refunded");
    SumPartition3(m.sales, (s: Sale) => s.amountCents, (s: Sale) => s.status == "completed",
      (s: Sale) => s.status == "pending", (s: Sale) => s.status == "refunded");
  }

  // ---------------------------------------------------------------- average repair time

  lemma MulMonotone(a: int, b: int, d: int)
    ensures a <= b && d > 0 ==> a * d <= b * d
  {
    if a <= b && d > 0 {
      var k := b - a;
      assert b * d == a * d + k * d;
    }
  }

  /** An integer within half of d of n / d lies within [lo, hi] when n / d does. */
  lemma NearestWithin(avg: int, n: int, d: int, lo: int, hi: int)
    requires d > 0 && lo * d <= n <= hi * d
    requires 2 * (avg * d - n) <= d && 2 * (n - avg * d) <= d
    ensures lo <= avg <= hi
  {
    MulMonotone(avg, lo - 1, d);
    MulMonotone(hi + 1, avg, d);
    assert (lo - 1) * d == lo * d - d;
    assert (hi + 1) * d == hi * d + d;
  }

  /** The rounded mean lies between any lower and upper bound of the
      estimated days, so between their minimum and maximum. */
  lemma AvgDaysWithinBounds(m: AppModel, lo: int, hi: int)
    requires |m.maintenanceTasks| > 0
    requires forall t :: t in m.maintenanceTasks ==> lo <= t.estimatedDays <= hi
    ensures lo <= GetMaintenanceStats(m).avgDays <= hi
  {
    SumBounds(m.maintenanceTasks, (t: MaintenanceTask) => t.estimatedDays, lo, hi);
    NearestWithin(GetMaintenanceStats(m).avgDays, Sum(m.maintenanceTasks, (t: MaintenanceTask) => t.estimatedDays),
      |m.maintenanceTasks|, lo, hi);
  }

  /** When the days divide evenly the average is the exact mean. */
  lemma AvgDaysExact(m: AppModel, k: int)
    requires |m.maintenanceTasks| > 0
    requires Sum(m.maintenanceTasks, (t: MaintenanceTask) => t.estimatedDays) == k * |m.maintenanceTasks|
    ensures GetMaintenanceStats(m).avgDays == k
  {
    NearestWithin(GetMaintenanceStats(m).avgDays, Sum(m.maintenanceTasks, (t: MaintenanceTask) => t.estimatedDays),
      |m.maintenanceTasks|, k, k);
  }
}
