/** The data and query layer of the back-office application (class AppModel
    of model.py): five record collections fixed at construction, the filter
    and search accessors over them, and the statistics computed from them.
    Nothing is mutated after construction, so the model is a value and every
    accessor is a function of it. */
module Model {
  import opened Text
  import opened Seqs

  datatype Option<T> = None | Some(value: T)

  /** A checkout lane. `status` is a free string; the data uses "open",
      "closed" and "maintenance". `operator` is absent for closed lanes. */
  datatype Cashier = Cashier(id: int, name: string, status: string, operator: Option<string>, sales: int)

  /** A repair ticket for a lane; `priority` is "high", "medium" or "low" in the data. */
  datatype MaintenanceTask = MaintenanceTask(
    id: int, name: string, issue: string, details: string,
    reportedBy: string, reportedDate: string, estimatedDays: int, priority: string)

  datatype TodayEarnings = TodayEarnings(total: int, transactions: int, avg: int)
  datatype DayEarnings = DayEarnings(day: string, amount: int, profit: int, transactions: int)
  datatype WeekEarnings = WeekEarnings(week: string, amount: int, profit: int, transactions: int)
  datatype MonthEarnings = MonthEarnings(total: int, profit: int, growth: int, weeks: seq<WeekEarnings>)
  /** The reporting snapshot; it is only read, never computed. */
  datatype Earnings = Earnings(today: TodayEarnings, week: seq<DayEarnings>, month: MonthEarnings)

  /** A product; the price is kept in integer cents. */
  datatype InventoryItem = InventoryItem(
    id: int, name: string, sku: string, stock: int, minStock: int, priceCents: int, category: string)

  /** A sale; the amount is kept in integer cents. `status` is "completed",
      "pending" or "refunded" in the data. */
  datatype Sale = Sale(
    id: int, cashier: string, amountCents: int, items: int, time: string,
    payment: string, customer: string, status: string)

  /** The state of an AppModel instance after its constructor has run. */
  datatype AppModel = AppModel(
    cashiers: seq<Cashier>,
    maintenanceTasks: seq<MaintenanceTask>,
    earnings: Earnings,
    inventory: seq<InventoryItem>,
    sales: seq<Sale>)

  // ---------------------------------------------------------------- authenticate

  /** `bool(username and password)`: Python's `and` yields `username` when it is
      empty and `password` otherwise. */
  function Authenticate(username: string, password: string): (ok: bool)
    ensures ok <==> |username| > 0 && |password| > 0
  {
    if username == "" then false else password != ""
  }

  // ---------------------------------------------------------------- cashiers

  /** The search test of get_cashiers for an already lowered query: the name,
      or a present, non-empty operator, contains the query. */
  predicate CashierMatches(c: Cashier, query: string) {
    Contains(Lower(c.name), query)
    || (match c.operator
        case None => false
        case Some(op) => op != "" && Contains(Lower(op), query))
  }

  /** The combined test a cashier passes to be listed by get_cashiers. */
  predicate CashierSelected(c: Cashier, statusFilter: string, searchQuery: string) {
    (statusFilter == "all" || c.status == statusFilter)
    && (searchQuery == "" || CashierMatches(c, Lower(searchQuery)))
  }

  /** get_cashiers: status filter first (any key but "all" keeps the exact
      status), then the search; the result keeps the lanes' order. */
  function GetCashiers(m: AppModel, statusFilter: string, searchQuery: string): (r: seq<Cashier>)
    ensures IsSubsequence(r, m.cashiers)
    ensures forall c :: c in r <==> c in m.cashiers && CashierSelected(c, statusFilter, searchQuery)
    ensures forall c :: multiset(r)[c] == if CashierSelected(c, statusFilter, searchQuery) then multiset(m.cashiers)[c] else 0
  {
    SubsequenceRefl(m.cashiers);
    var data := if statusFilter != "all" then Filter(m.cashiers, (c: Cashier) => c.status == statusFilter) else m.cashiers;
    FilterMultiset(m.cashiers, (c: Cashier) => c.status == statusFilter);
    if searchQuery != "" then
      var query := Lower(searchQuery);
      var found := Filter(data, (c: Cashier) => CashierMatches(c, query));
      FilterMultiset(data, (c: Cashier) => CashierMatches(c, query));
      SubsequenceTrans(found, data, m.cashiers);
      found
    else data
  }

  datatype CashierStats = CashierStats(open: nat, closed: nat, maintenance: nat, totalSales: int, totalCashiers: nat)

  /** get_cashier_stats. */
  function GetCashierStats(m: AppModel): (st: CashierStats)
    ensures st.totalCashiers == |m.cashiers|
    ensures st.open + st.closed + st.maintenance <= st.totalCashiers
    ensures (forall c :: c in m.cashiers ==> c.sales >= 0) ==> st.totalSales >= 0
  {
    var open := Filter(m.cashiers, (c: Cashier) => c.status == "open");
    var closed := Filter(m.cashiers, (c: Cashier) => c.status == "closed");
    var maintenance := Filter(m.cashiers, (c: Cashier) => c.status == "maintenance");
    FilterDisjoint3(m.cashiers, (c: Cashier) => c.status == "open", (c: Cashier) => c.status == "closed",
      (c: Cashier) => c.status == "maintenance");
    var totalSales := Sum(m.cashiers, (c: Cashier) => c.sales);
    SumNonNegative(m.cashiers, (c: Cashier) => c.sales);
    CashierStats(|open|, |closed|, |maintenance|, totalSales, |m.cashiers|)
  }

  // ---------------------------------------------------------------- maintenance

  /** The search test of get_maintenance_tasks for an already lowered query. */
  predicate TaskMatches(t: MaintenanceTask, query: string) {
    Contains(Lower(t.name), query) || Contains(Lower(t.issue), query)
    || Contains(Lower(t.details), query) || Contains(Lower(t.reportedBy), query)
  }

  predicate TaskSelected(t: MaintenanceTask, searchQuery: string) {
    searchQuery == "" || TaskMatches(t, Lower(searchQuery))
  }

  /** get_maintenance_tasks: the tickets some searched field of which contains
      the lowered query, in their order. */
  function GetMaintenanceTasks(m: AppModel, searchQuery: string): (r: seq<MaintenanceTask>)
    ensures IsSubsequence(r, m.maintenanceTasks)
    ensures forall t :: t in r <==> t in m.maintenanceTasks && TaskSelected(t, searchQuery)
    ensures forall t :: multiset(r)[t] == if TaskSelected(t, searchQuery) then multiset(m.maintenanceTasks)[t] else 0
  {
    SubsequenceRefl(m.maintenanceTasks);
    if searchQuery != "" then
      var query := Lower(searchQuery);
      FilterMultiset(m.maintenanceTasks, (t: MaintenanceTask) => TaskMatches(t, query));
      Filter(m.maintenanceTasks, (t: MaintenanceTask) => TaskMatches(t, query))
    else m.maintenanceTasks
  }

  /** Python's `round(n / d)` for d > 0, computed exactly on the rational n / d:
      the nearest integer, halves going to the even neighbour. */
  function RoundDiv(n: int, d: int): (r: int)
    requires d > 0
    ensures 2 * (r * d - n) <= d && 2 * (n - r * d) <= d
    ensures (2 * (r * d - n) == d || 2 * (n - r * d) == d) ==> r % 2 == 0
  {
    var q, rem := n / d, n % d;
    assert n == q * d + rem;
    assert (q + 1) * d == q * d + d;
    if 2 * rem < d then q
    else if 2 * rem > d then q + 1
    else if q % 2 == 0 then q
    else q + 1
  }

  datatype MaintenanceStats = MaintenanceStats(total: nat, highPriority: nat, avgDays: int)

  /** get_maintenance_stats: `avg_days` is 0 without tickets and otherwise the
      mean of the estimated days, rounded. */
  function GetMaintenanceStats(m: AppModel): (st: MaintenanceStats)
    ensures st.total == |m.maintenanceTasks|
    ensures st.highPriority <= st.total
    ensures st.total == 0 ==> st.avgDays == 0
    ensures st.total > 0 ==>
      var days := Sum(m.maintenanceTasks, (t: MaintenanceTask) => t.estimatedDays);
      2 * (st.avgDays * st.total - days) <= st.total && 2 * (days - st.avgDays * st.total) <= st.total
  {
    var total := |m.maintenanceTasks|;
    var highPriority := |Filter(m.maintenanceTasks, (t: MaintenanceTask) => t.priority == "high")|;
    var avgDays := if total > 0 then RoundDiv(Sum(m.maintenanceTasks, (t: MaintenanceTask) => t.estimatedDays), total) else 0;
    MaintenanceStats(total, highPriority, avgDays)
  }

  // ---------------------------------------------------------------- inventory

  /** "Low stock": at or below the reorder level. */
  predicate IsLowStock(p: InventoryItem) {
    p.stock <= p.minStock
  }

  /** "High stock": more than twice the reorder level. */
  predicate IsHighStock(p: InventoryItem) {
    p.stock > p.minStock * 2
  }

  /** The stock filter of get_inventory: "low" and "high" select a class, any
      other key selects everything. */
  predicate PassesStockFilter(p: InventoryItem, stockFilter: string) {
    if stockFilter == "low" then IsLowStock(p)
    else if stockFilter == "high" then IsHighStock(p)
    else true
  }

  /** The search test of get_inventory for an already lowered query. */
  predicate ItemMatches(p: InventoryItem, query: string) {
    Contains(Lower(p.name), query) || Contains(Lower(p.sku), query) || Contains(Lower(p.category), query)
  }

  predicate ItemSelected(p: InventoryItem, stockFilter: string, searchQuery: string) {
    PassesStockFilter(p, stockFilter) && (searchQuery == "" || ItemMatches(p, Lower(searchQuery)))
  }

  /** get_inventory. */
  function GetInventory(m: AppModel, stockFilter: string, searchQuery: string): (r: seq<InventoryItem>)
    ensures IsSubsequence(r, m.inventory)
    ensures forall p :: p in r <==> p in m.inventory && ItemSelected(p, stockFilter, searchQuery)
    ensures forall p :: multiset(r)[p] == if ItemSelected(p, stockFilter, searchQuery) then multiset(m.inventory)[p] else 0
  {
    SubsequenceRefl(m.inventory);
    var data :=
      if stockFilter == "low" then Filter(m.inventory, IsLowStock)
      else if stockFilter == "high" then Filter(m.inventory, IsHighStock)
      else m.inventory;
    FilterMultiset(m.inventory, IsLowStock);
    FilterMultiset(m.inventory, IsHighStock);
    if searchQuery != "" then
      var query := Lower(searchQuery);
      var found := Filter(data, (p: InventoryItem) => ItemMatches(p, query));
      FilterMultiset(data, (p: InventoryItem) => ItemMatches(p, query));
      SubsequenceTrans(found, data, m.inventory);
      found
    else data
  }

  datatype InventoryStats = InventoryStats(
    totalProducts: nat, lowStockCount: nat, highStockCount: nat, totalValueCents: int, totalStockUnits: int)

  /** The stock value of one item, `price * stock`. */
  function ItemValue(p: InventoryItem): (v: int)
    ensures p.stock >= 0 && p.priceCents >= 0 ==> v >= 0
  {
    p.stock * p.priceCents
  }

  function ItemStock(p: InventoryItem): int {
    p.stock
  }

  /** get_inventory_stats; the value is the sum of stock times unit price. */
  function GetInventoryStats(m: AppModel): (st: InventoryStats)
    ensures st.totalProducts == |m.inventory|
    ensures (forall p :: p in m.inventory ==> p.minStock >= 0) ==> st.lowStockCount + st.highStockCount <= st.totalProducts
    ensures (forall p :: p in m.inventory ==> p.stock >= 0) ==> st.totalStockUnits >= 0
    ensures (forall p :: p in m.inventory ==> p.stock >= 0 && p.priceCents >= 0) ==> st.totalValueCents >= 0
  {
    StockClassesCounted(m.inventory);
    SumNonNegative(m.inventory, ItemStock);
    SumNonNegative(m.inventory, ItemValue);
    InventoryStats(|m.inventory|, |Filter(m.inventory, IsLowStock)|, |Filter(m.inventory, IsHighStock)|,
      Sum(m.inventory, ItemValue), Sum(m.inventory, ItemStock))
  }

  /** With non-negative reorder levels no item is counted in both classes. */
  lemma StockClassesCounted(s: seq<InventoryItem>)
    ensures (forall p :: p in s ==> p.minStock >= 0) ==> |Filter(s, IsLowStock)| + |Filter(s, IsHighStock)| <= |s|
  {
    if forall p :: p in s ==> p.minStock >= 0 {
      FilterDisjoint(s, IsLowStock, IsHighStock);
    }
  }

  // ---------------------------------------------------------------- sales

  /** The search test of get_sales for an already lowered query. The id is
      rendered with `str` and, as in the source, not lowered. */
  predicate SaleMatches(s: Sale, query: string) {
    Contains(IntToString(s.id), query) || Contains(Lower(s.cashier), query) || Contains(Lower(s.customer), query)
  }

  predicate SaleSelected(s: Sale, statusFilter: string, searchQuery: string) {
    (statusFilter == "all" || s.status == statusFilter)
    && (searchQuery == "" || SaleMatches(s, Lower(searchQuery)))
  }

  /** get_sales. */
  function GetSales(m: AppModel, statusFilter: string, searchQuery: string): (r: seq<Sale>)
    ensures IsSubsequence(r, m.sales)
    ensures forall s :: s in r <==> s in m.sales && SaleSelected(s, statusFilter, searchQuery)
    ensures forall s :: multiset(r)[s] == if SaleSelected(s, statusFilter, searchQuery) then multiset(m.sales)[s] else 0
  {
    SubsequenceRefl(m.sales);
    var data := if statusFilter != "all" then Filter(m.sales, (s: Sale) => s.status == statusFilter) else m.sales;
    FilterMultiset(m.sales, (s: Sale) => s.status == statusFilter);
    if searchQuery != "" then
      var query := Lower(searchQuery);
      var found := Filter(data, (s: Sale) => SaleMatches(s, query));
      FilterMultiset(data, (s: Sale) => SaleMatches(s, query));
      SubsequenceTrans(found, data, m.sales);
      found
    else data
  }

  datatype SalesStats = SalesStats(
    totalAll: nat, totalCompleted: nat, totalPending: nat, totalRefunded: nat,
    amountCompletedCents: int, amountPendingCents: int, amountRefundedCents: int)

  /** get_sales_stats. */
  function GetSalesStats(m: AppModel): (st: SalesStats)
    ensures st.totalAll == |m.sales|
    ensures st.totalCompleted + st.totalPending + st.totalRefunded <= st.totalAll
    ensures (forall s :: s in m.sales ==> s.amountCents >= 0) ==>
      st.amountCompletedCents >= 0 && st.amountPendingCents >= 0 && st.amountRefundedCents >= 0
  {
    var completed := Filter(m.sales, (s: Sale) => s.status == "completed");
    var pending := Filter(m.sales, (s: Sale) => s.status == "pending");
    var refunded := Filter(m.sales, (s: Sale) => s.status == "refunded");
    FilterDisjoint3(m.sales, (s: Sale) => s.status == "completed", (s: Sale) => s.status == "pending",
      (s: Sale) => s.status == "refunded");
    SumNonNegative(completed, (s: Sale) => s.amountCents);
    SumNonNegative(pending, (s: Sale) => s.amountCents);
    SumNonNegative(refunded, (s: Sale) => s.amountCents);
    SalesStats(|m.sales|, |completed|, |pending|, |refunded|,
      Sum(completed, (s: Sale) => s.amountCents),
      Sum(pending, (s: Sale) => s.amountCents),
      Sum(refunded, (s: Sale) => s.amountCents))
  }

  // ---------------------------------------------------------------- dashboard

  datatype DashboardStats = DashboardStats(
    maintenanceCount: nat, totalCashiers: nat, transactionsToday: nat, lowStockCount: nat, monthGrowth: int)

  /** get_dashboard_stats: counts taken afresh from the collections, and the
      month's growth read from the earnings snapshot. */
  function GetDashboardStats(m: AppModel): (st: DashboardStats)
    ensures st.totalCashiers == |m.cashiers| && st.transactionsToday == |m.sales|
    ensures st.maintenanceCount <= st.totalCashiers && st.lowStockCount <= |m.inventory|
    ensures st.monthGrowth == m.earnings.month.growth
  {
    DashboardStats(
      |Filter(m.cashiers, (c: Cashier) => c.status == "maintenance")|,
      |m.cashiers|,
      |m.sales|,
      |Filter(m.inventory, IsLowStock)|,
      m.earnings.month.growth)
  }
}
