/** The sample data the AppModel constructor installs (model.py, lines
    10-119), with prices and amounts in cents, and what the accessors answer
    on it. */
module Fixture {
  import opened Text
  import opened Seqs
  import opened Model
  import opened ModelProperties

  /** The state right after `AppModel()`. */
  function Initial(): AppModel {
    AppModel(
      Cashiers(),
      MaintenanceTasks(),
      Earnings(
        TodayEarnings(45230, 152, 297),
        [
        DayEarnings("Lun", 38420, 11526, 145),
        DayEarnings("Mar", 42150, 12645, 162),
        DayEarnings("Mié", 39870, 11961, 138),
        DayEarnings("Jue", 44200, 13260, 178),
        DayEarnings("Vie", 51340, 15402, 195),
        DayEarnings("Sáb", 62580, 18774, 234),
        DayEarnings("Dom", 35120, 10536, 126)
        ],
        MonthEarnings(1250430, 375129, 18, [
          WeekEarnings("Semana 1", 298450, 89535, 1234),
          WeekEarnings("Semana 2", 315680, 94704, 1301),
          WeekEarnings("Semana 3", 287920, 86376, 1189),
          WeekEarnings("Semana 4", 348380, 104514, 1432)
        ])),
      Inventory(),
      Sales())
  }

  /** The 24 lanes, kept in four groups of six. */
  function Cashiers(): seq<Cashier> {
    Lanes01To06() + Lanes07To12() + Lanes13To18() + Lanes19To24()
  }

  function Lanes01To06(): seq<Cashier> {
    [
      Cashier(1, "Caja 01", "open", Some("María González"), 156),
      Cashier(2, "Caja 02", "open", Some("Juan Pérez"), 143),
      Cashier(3, "Caja 03", "closed", None, 0),
      Cashier(4, "Caja 04", "open", Some("Ana Silva"), 98),
      Cashier(5, "Caja 05", "closed", None, 0),
      Cashier(6, "Caja 06", "open", Some("Carlos Ruiz"), 167)
    ]
  }

  function Lanes07To12(): seq<Cashier> {
    [
      Cashier(7, "Caja 07", "maintenance", None, 0),
      Cashier(8, "Caja 08", "open", Some("Laura Díaz"), 89),
      Cashier(9, "Caja 09", "open", Some("Roberto Sánchez"), 134),
      Cashier(10, "Caja 10", "closed", None, 0),
      Cashier(11, "Caja 11", "open", Some("Patricia López"), 112),
      Cashier(12, "Caja 12", "maintenance", None, 0)
    ]
  }

  function Lanes13To18(): seq<Cashier> {
    [
      Cashier(13, "Caja 13", "open", Some("Diego Fernández"), 78),
      Cashier(14, "Caja 14", "closed", None, 0),
      Cashier(15, "Caja 15", "maintenance", None, 0),
      Cashier(16, "Caja 16", "open", Some("Sofía Ramírez"), 145),
      Cashier(17, "Caja 17", "open", Some("Miguel Torres"), 91),
      Cashier(18, "Caja 18", "closed", None, 0)
    ]
  }

  function Lanes19To24(): seq<Cashier> {
    [
      Cashier(19, "Caja 19", "maintenance", None, 0),
      Cashier(20, "Caja 20", "open", Some("Carmen Vargas"), 156),
      Cashier(21, "Caja 21", "maintenance", None, 0),
      Cashier(22, "Caja 22", "closed", None, 0),
      Cashier(23, "Caja 23", "maintenance", None, 0),
      Cashier(24, "Caja 24", "open", Some("Fernando Castro"), 102)
    ]
  }

  /** The six tickets. The longer issue and details texts are spelled as
      concatenations of short literals: the joined strings are the sample
      texts, and the verifier handles short literals far more cheaply than one
      long literal, which keeps every lemma about the sample within bounds. */
  function MaintenanceTasks(): seq<MaintenanceTask> {
    [
      MaintenanceTask(7, "Caja 07",
        "Impresora de tickets " + "no funciona",
        "La impresora térmica " + "no responde. Revisar " + "cable de " + "alimentación y " + "conectividad USB.",
        "Ana Silva", "08/10/2025", 2, "high"),
      MaintenanceTask(12, "Caja 12",
        "Lector de código de " + "barras intermitente",
        "El escáner funciona " + "de forma " + "intermitente. " + "Posible problema de " + "cable o necesita " + "reemplazo.",
        "Carlos Ruiz", "07/10/2025", 1, "medium"),
      MaintenanceTask(15, "Caja 15",
        "Cajón de dinero " + "atascado",
        "El mecanismo del " + "cajón está trabado. " + "Requiere limpieza y " + "lubricación.",
        "María González", "06/10/2025", 1, "high"),
      MaintenanceTask(19, "Caja 19",
        "Pantalla táctil " + "descalibrada",
        "La pantalla no " + "responde " + "correctamente al " + "tacto. Necesita " + "recalibración o " + "reemplazo.",
        "Juan Pérez", "09/10/2025", 3, "medium"),
      MaintenanceTask(21, "Caja 21",
        "Teclado numérico no " + "funciona",
        "Algunas teclas del " + "teclado numérico no " + "registran. " + "Probablemente " + "requiere reemplazo.",
        "Laura Díaz", "05/10/2025", 2, "low"),
      MaintenanceTask(23, "Caja 23",
        "Sistema operativo " + "lento",
        "El sistema tarda " + "mucho en iniciar y " + "procesar " + "operaciones. " + "Requiere " + "optimización o " + "actualización.",
        "Pedro Martínez", "04/10/2025", 4, "low")
    ]
  }

  function Inventory(): seq<InventoryItem> {
    [
      InventoryItem(1, "Laptop Dell XPS 15", "LAP-001", 45, 10, 129999, "Electrónica"),
      InventoryItem(2, "Mouse Logitech MX Master", "ACC-002", 8, 15, 9999, "Accesorios"),
      InventoryItem(3, "Teclado Mecánico RGB", "ACC-003", 120, 20, 14999, "Accesorios"),
      InventoryItem(4, "Monitor LG 27 UHD", "MON-004", 67, 15, 44999, "Monitores"),
      InventoryItem(5, "Webcam Logitech C920", "ACC-005", 5, 10, 7999, "Accesorios")
    ]
  }

  function Sales(): seq<Sale> {
    [
      Sale(1, "Caja 01", 125050, 8, "14:32", "Tarjeta", "Cliente Regular", "completed"),
      Sale(2, "Caja 02", 85600, 5, "14:28", "Efectivo", "Nuevo Cliente", "completed"),
      Sale(3, "Caja 04", 234075, 12, "14:15", "Tarjeta", "Cliente VIP", "completed"),
      Sale(4, "Caja 01", 45620, 3, "14:05", "Efectivo", "Cliente Regular", "completed"),
      Sale(5, "Caja 06", 189000, 7, "13:58", "Tarjeta", "Cliente Regular", "pending"),
      Sale(6, "Caja 08", 34575, 4, "13:45", "Efectivo", "Cliente Regular", "refunded"),
      Sale(7, "Caja 02", 67890, 6, "13:30", "Tarjeta", "Cliente VIP", "completed"),
      Sale(8, "Caja 04", 23450, 2, "13:20", "Efectivo", "Nuevo Cliente", "pending")
    ]
  }

  /** Six lanes of the sample data are under maintenance, and the dashboard
      reports the same number. */
  lemma InitialMaintenanceCount()
    ensures GetCashierStats(Initial()).maintenance == 6
    ensures GetDashboardStats(Initial()).maintenanceCount == 6
  {
    DashboardAgreesWithStats(Initial());
    MaintenanceLanesOfSample();
  }

  lemma MaintenanceLanesOfSample()
    ensures |Filter(Cashiers(), (c: Cashier) => c.status == "maintenance")| == 6
  {
    var p := (c: Cashier) => c.status == "maintenance";
    MaintenanceLanesOfGroups();
    FilterAppend(Lanes01To06(), Lanes07To12(), p);
    FilterAppend(Lanes01To06() + Lanes07To12(), Lanes13To18(), p);
    FilterAppend(Lanes01To06() + Lanes07To12() + Lanes13To18(), Lanes19To24(), p);
  }

  /** Lanes in maintenance per group of six: none, 7 and 12, 15, and 19, 21 and 23. */
  lemma MaintenanceLanesOfGroups()
    ensures |Filter(Lanes01To06(), (c: Cashier) => c.status == "maintenance")| == 0
    ensures |Filter(Lanes07To12(), (c: Cashier) => c.status == "maintenance")| == 2
    ensures |Filter(Lanes13To18(), (c: Cashier) => c.status == "maintenance")| == 1
    ensures |Filter(Lanes19To24(), (c: Cashier) => c.status == "maintenance")| == 3
  {
    MaintenanceLanes01To06();
    MaintenanceLanes07To12();
    MaintenanceLanes13To18();
    MaintenanceLanes19To24();
  }

  lemma MaintenanceLanes01To06()
    ensures |Filter(Lanes01To06(), (c: Cashier) => c.status == "maintenance")| == 0
  {
  }

  lemma MaintenanceLanes07To12()
    ensures |Filter(Lanes07To12(), (c: Cashier) => c.status == "maintenance")| == 2
  {
  }

  lemma MaintenanceLanes13To18()
    ensures |Filter(Lanes13To18(), (c: Cashier) => c.status == "maintenance")| == 1
  {
  }

  lemma MaintenanceLanes19To24()
    ensures |Filter(Lanes19To24(), (c: Cashier) => c.status == "maintenance")| == 3
  {
  }

  /** The "low" list of the sample inventory is the mouse and the webcam, in that order. */
  lemma InitialLowStock()
    ensures GetInventory(Initial(), "low", "") == [Inventory()[1], Inventory()[4]]
  {
    LowStockOfSample();
  }

  lemma LowStockOfSample()
    ensures Filter(Inventory(), IsLowStock) == [Inventory()[1], Inventory()[4]]
  {
  }

  /** The completed sales of the sample data amount to 5582.35. */
  lemma InitialCompletedAmount()
    ensures GetSalesStats(Initial()).amountCompletedCents == 558235
  {
    CompletedAmountOfSample();
  }

  lemma CompletedAmountOfSample()
    ensures Sum(Filter(Sales(), (s: Sale) => s.status == "completed"), (s: Sale) => s.amountCents) == 558235
  {
    var ss := Sales();
    var p := (s: Sale) => s.status == "completed";
    var f := (s: Sale) => s.amountCents;
    CompletedAmountOfLastFour();
    SumFilterStep(ss, p, f, 3); SumFilterStep(ss, p, f, 2); SumFilterStep(ss, p, f, 1); SumFilterStep(ss, p, f, 0);
    assert ss[0..] == ss;
  }

  /** Of sales 5 to 8 only sale 7, 678.90, is completed. */
  lemma CompletedAmountOfLastFour()
    ensures Sum(Filter(Sales()[4..], (s: Sale) => s.status == "completed"), (s: Sale) => s.amountCents) == 67890
  {
    var ss := Sales();
    var p := (s: Sale) => s.status == "completed";
    var f := (s: Sale) => s.amountCents;
    SumFilterStep(ss, p, f, 7); SumFilterStep(ss, p, f, 6); SumFilterStep(ss, p, f, 5); SumFilterStep(ss, p, f, 4);
  }

  /** The sample tickets need 13 days over 6 tickets: 2 days on average. */
  lemma InitialAvgDays()
    ensures GetMaintenanceStats(Initial()).avgDays == 2
  {
    DaysOfSample();
  }

  lemma DaysOfSample()
    ensures Sum(MaintenanceTasks(), (t: MaintenanceTask) => t.estimatedDays) == 13
  {
  }

  /** Searching the lanes for "CAJA 01" lists what searching for "caja 01" lists. */
  lemma InitialSearchIgnoresCase()
    ensures GetCashiers(Initial(), "all", "CAJA 01") == GetCashiers(Initial(), "all", "caja 01")
  {
    assert Lower("CAJA 01") == Lower("caja 01");
    SearchIgnoresCase(Initial(), "all", "CAJA 01", "caja 01");
  }
}
