/**
 * The cross-module export query `getExportData` (convex/export.ts): it reads the chosen
 * modules' tables, date-filters four of them, computes twelve totals and reshapes every
 * record into the export schema. The store is the in-memory content of the eight tables;
 * the clock reading used for the export date is a parameter.
 */
module Export {
  import opened Wrappers
  import opened Seqs
  import opened Text
  import opened Records

  datatype DateRange = DateRange(startDate: string, endDate: string)

  /** The query arguments: both are optional. */
  datatype Args = Args(dateRange: Option<DateRange>, modules: Option<seq<string>>)

  /** The eight tables as the query collects them. */
  datatype Store = Store(
    sales: seq<Sale>, expenses: seq<Expense>, liabilities: seq<Liability>, salaries: seq<Salary>,
    cashflow: seq<CashflowEntry>, bankPdc: seq<BankPdc>, businessInHand: seq<BusinessInHandRecord>,
    futureNeeds: seq<FutureNeed>)

  datatype LiabilityRow = LiabilityRow(
    description: string, amount: int, outstandingBalance: int, dueDate: string, creditor: string,
    status: string)

  datatype SalaryRow = SalaryRow(
    employeeName: string, month: string, basicSalary: int, allowances: int, deductions: int,
    netSalary: int, paymentStatus: string, paymentDate: string)

  datatype BankPdcRow = BankPdcRow(
    bankName: string, supplierCode: string, amount: int, status: string, dueDate: string)

  datatype BusinessInHandRow = BusinessInHandRow(
    poNumber: string, supplier: string, description: string, amount: int, status: string,
    expectedDate: string)

  datatype FutureNeedRow = FutureNeedRow(
    description: string, category: string, month: string, amount: int, kind: string)

  datatype Summary = Summary(exportDate: string, dateRange: Option<DateRange>, currency: string)

  /**
   * The exported arrays. Sales, expenses and cash flow entries are copied field by field
   * into records with the same fields, so they keep their stored type.
   */
  datatype Data = Data(
    sales: seq<Sale>, expenses: seq<Expense>, liabilities: seq<LiabilityRow>,
    salaries: seq<SalaryRow>, cashflow: seq<CashflowEntry>, bankPdc: seq<BankPdcRow>,
    businessInHand: seq<BusinessInHandRow>, futureNeeds: seq<FutureNeedRow>)

  datatype Totals = Totals(
    totalSales: int, totalExpenses: int, totalLiabilities: int, outstandingLiabilities: int,
    totalSalaries: int, paidSalaries: int, pendingSalaries: int, totalInflows: int,
    totalOutflows: int, netCashflow: int, totalProfit: int, businessInHandValue: int)

  datatype ExportData = ExportData(summary: Summary, data: Data, totals: Totals)

  /** The module identifiers, used when the caller names none. */
  const AllModules: seq<string> :=
    ["sales", "expenses", "liabilities", "salaries", "cashflow", "bankPdc", "businessInHand", "futureNeeds"]

  function ModulesOf(args: Args): seq<string> {
    args.modules.GetOr(AllModules)
  }

  /** `modules.includes(id) ? <the table> : []`. */
  function Load<T>(modules: seq<string>, id: string, table: seq<T>): (r: seq<T>)
    ensures id in modules ==> r == table
    ensures id !in modules ==> r == []
  {
    if id in modules then table else []
  }

  /** The tables of the chosen modules; an unchosen module reads as an empty table. */
  function Selected(store: Store, modules: seq<string>): (r: Store)
    ensures ("sales" in modules ==> r.sales == store.sales) && ("sales" !in modules ==> r.sales == [])
    ensures ("expenses" in modules ==> r.expenses == store.expenses) && ("expenses" !in modules ==> r.expenses == [])
    ensures ("liabilities" in modules ==> r.liabilities == store.liabilities)
         && ("liabilities" !in modules ==> r.liabilities == [])
    ensures ("salaries" in modules ==> r.salaries == store.salaries) && ("salaries" !in modules ==> r.salaries == [])
    ensures ("cashflow" in modules ==> r.cashflow == store.cashflow) && ("cashflow" !in modules ==> r.cashflow == [])
    ensures ("bankPdc" in modules ==> r.bankPdc == store.bankPdc) && ("bankPdc" !in modules ==> r.bankPdc == [])
    ensures ("businessInHand" in modules ==> r.businessInHand == store.businessInHand)
         && ("businessInHand" !in modules ==> r.businessInHand == [])
    ensures ("futureNeeds" in modules ==> r.futureNeeds == store.futureNeeds)
         && ("futureNeeds" !in modules ==> r.futureNeeds == [])
  {
    Store(
      Load(modules, "sales", store.sales), Load(modules, "expenses", store.expenses),
      Load(modules, "liabilities", store.liabilities), Load(modules, "salaries", store.salaries),
      Load(modules, "cashflow", store.cashflow), Load(modules, "bankPdc", store.bankPdc),
      Load(modules, "businessInHand", store.businessInHand), Load(modules, "futureNeeds", store.futureNeeds))
  }

  /** The per-item test of `filterByDate`: a non-empty bound excludes what lies beyond it. */
  predicate InRange(dr: DateRange, d: string) {
    !(dr.startDate != "" && Less(d, dr.startDate)) && !(dr.endDate != "" && Less(dr.endDate, d))
  }

  function DateKeeper<T>(dr: DateRange, key: T -> string): T -> bool {
    x => InRange(dr, key(x))
  }

  /** Whether an optional range lets a date through. */
  predicate Admits(range: Option<DateRange>, d: string) {
    range.None? || InRange(range.value, d)
  }

  /**
   * `filterByDate(items, dateField)`: no range, or a range with both bounds empty, returns
   * the items themselves; otherwise the items whose date field passes the test.
   */
  function FilterByDate<T>(items: seq<T>, key: T -> string, range: Option<DateRange>): (r: seq<T>)
    ensures forall x :: x in r ==> x in items && Admits(range, key(x))
    ensures forall i :: 0 <= i < |items| && Admits(range, key(items[i])) ==> items[i] in r
    ensures (forall i :: 0 <= i < |items| ==> Admits(range, key(items[i]))) ==> r == items
  {
    if range.None? then items
    else if range.value.startDate == "" && range.value.endDate == "" then items
    else
      FilterKeepsAll(items, DateKeeper(range.value, key));
      Filter(items, DateKeeper(range.value, key))
  }

  function SaleDate(s: Sale): string { s.date }
  function ExpenseDate(e: Expense): string { e.date }
  function SalaryMonth(s: Salary): string { s.month }
  function CashflowDate(c: CashflowEntry): string { c.date }

  /** Only sales, expenses and cash flow (by `date`) and salaries (by `month`) are filtered. */
  function Filtered(s: Store, range: Option<DateRange>): Store {
    s.(sales := FilterByDate(s.sales, SaleDate, range),
       expenses := FilterByDate(s.expenses, ExpenseDate, range),
       salaries := FilterByDate(s.salaries, SalaryMonth, range),
       cashflow := FilterByDate(s.cashflow, CashflowDate, range))
  }

  /** The records the totals and the exported arrays are computed from. */
  function Exported(store: Store, args: Args): Store {
    Filtered(Selected(store, ModulesOf(args)), args.dateRange)
  }

  function SellingPrice(s: Sale): int { s.sellingPrice }
  function NetProfit(s: Sale): int { s.netProfit }
  function ExpenseAmount(e: Expense): int { e.amount }
  function OriginalAmount(l: Liability): int { l.originalAmount }
  function OutstandingBalance(l: Liability): int { l.outstandingBalance }
  function NetSalary(s: Salary): int { s.netSalary }
  predicate IsPaid(s: Salary) { s.paymentStatus == "paid" }
  predicate IsInflow(c: CashflowEntry) { c.kind == "inflow" }
  predicate IsOutflow(c: CashflowEntry) { c.kind == "outflow" }
  function CashAmount(c: CashflowEntry): int { c.amount }
  predicate NotReceived(b: BusinessInHandRecord) { b.status != "received" }
  function BusinessAmount(b: BusinessInHandRecord): int { b.amount }

  /** The twelve totals, computed from the filtered (and, for liabilities and business in hand, unfiltered) lists. */
  function ComputeTotals(f: Store): (r: Totals)
    ensures r.pendingSalaries == r.totalSalaries - r.paidSalaries
    ensures r.netCashflow == r.totalInflows - r.totalOutflows
  {
    var totalSalaries := Sum(f.salaries, NetSalary);
    var paidSalaries := Sum(Filter(f.salaries, IsPaid), NetSalary);
    var totalInflows := Sum(Filter(f.cashflow, IsInflow), CashAmount);
    var totalOutflows := Sum(Filter(f.cashflow, IsOutflow), CashAmount);
    Totals(
      Sum(f.sales, SellingPrice), Sum(f.expenses, ExpenseAmount),
      Sum(f.liabilities, OriginalAmount), Sum(f.liabilities, OutstandingBalance),
      totalSalaries, paidSalaries, totalSalaries - paidSalaries,
      totalInflows, totalOutflows, totalInflows - totalOutflows,
      Sum(f.sales, NetProfit), Sum(Filter(f.businessInHand, NotReceived), BusinessAmount))
  }

  /** A liability's export row: the description falls back on the lender, the status is fixed. */
  function LiabilityRowOf(l: Liability): (r: LiabilityRow)
    ensures Truthy(l.description) ==> r.description == l.description.value
    ensures !Truthy(l.description) ==> r.description == r.creditor
    ensures r.description == "" <==> !Truthy(l.description) && l.lenderParty == ""
    ensures r.amount == l.originalAmount && r.outstandingBalance == l.outstandingBalance
    ensures r.creditor == l.lenderParty && r.status == "active" && r.dueDate == l.dueDate
  {
    LiabilityRow(OrElse(l.description, l.lenderParty), l.originalAmount, l.outstandingBalance,
                 l.dueDate, l.lenderParty, "active")
  }

  /** A salary's export row: the placeholder components add up to the net salary. */
  function SalaryRowOf(s: Salary): (r: SalaryRow)
    ensures r.basicSalary + r.allowances - r.deductions == r.netSalary == s.netSalary
    ensures r.allowances == 0 && r.deductions == 0
    ensures r.paymentDate == "" <==> !Truthy(s.paymentDate)
    ensures Truthy(s.paymentDate) ==> r.paymentDate == s.paymentDate.value
    ensures r.employeeName == s.employeeName && r.month == s.month && r.paymentStatus == s.paymentStatus
  {
    SalaryRow(s.employeeName, s.month, s.netSalary, 0, 0, s.netSalary, s.paymentStatus,
              OrElse(s.paymentDate, ""))
  }

  /** A post-dated cheque's export row: bank, code and date are renamed, the due date is the cheque's date. */
  function BankPdcRowOf(p: BankPdc): (r: BankPdcRow)
    ensures r.bankName == p.bank && r.supplierCode == p.code && r.dueDate == p.date
    ensures r.amount == p.amount && r.status == p.status
  {
    BankPdcRow(p.bank, p.code, p.amount, p.status, p.date)
  }

  /**
   * A business-in-hand export row: the description is repeated as the PO number for a
   * `po_in_hand` record and as the supplier for a `pending_invoice`, and never as both.
   */
  function BusinessInHandRowOf(b: BusinessInHandRecord): (r: BusinessInHandRow)
    ensures r.description == b.description
    ensures b.kind == "po_in_hand" ==> r.poNumber == b.description
    ensures b.kind != "po_in_hand" ==> r.poNumber == ""
    ensures b.kind == "pending_invoice" ==> r.supplier == b.description
    ensures b.kind != "pending_invoice" ==> r.supplier == ""
    ensures r.poNumber == "" || r.supplier == ""
    ensures r.amount == b.amount && r.status == b.status && r.expectedDate == b.expectedDate
  {
    BusinessInHandRow(
      if b.kind == "po_in_hand" then b.description else "",
      if b.kind == "pending_invoice" then b.description else "",
      b.description, b.amount, b.status, b.expectedDate)
  }

  /** A future need's export row: the amount is the line total, the status becomes the type. */
  function FutureNeedRowOf(n: FutureNeed): (r: FutureNeedRow)
    ensures r.amount == n.amount * n.quantity
    ensures r.kind == n.status && r.category == ""
    ensures r.description == n.description && r.month == n.month
  {
    FutureNeedRow(n.description, "", n.month, n.amount * n.quantity, n.status)
  }

  /**
   * The export schema: sales, expenses and cash flow as stored, every other module one
   * reshaped row per record, in order.
   */
  function Reshape(f: Store): (r: Data)
    ensures r.sales == f.sales && r.expenses == f.expenses && r.cashflow == f.cashflow
    ensures |r.liabilities| == |f.liabilities| && forall i :: 0 <= i < |f.liabilities| ==> r.liabilities[i] == LiabilityRowOf(f.liabilities[i])
    ensures |r.salaries| == |f.salaries| && forall i :: 0 <= i < |f.salaries| ==> r.salaries[i] == SalaryRowOf(f.salaries[i])
    ensures |r.bankPdc| == |f.bankPdc| && forall i :: 0 <= i < |f.bankPdc| ==> r.bankPdc[i] == BankPdcRowOf(f.bankPdc[i])
    ensures |r.businessInHand| == |f.businessInHand|
    ensures forall i :: 0 <= i < |f.businessInHand| ==> r.businessInHand[i] == BusinessInHandRowOf(f.businessInHand[i])
    ensures |r.futureNeeds| == |f.futureNeeds|
    ensures forall i :: 0 <= i < |f.futureNeeds| ==> r.futureNeeds[i] == FutureNeedRowOf(f.futureNeeds[i])
  {
    Data(f.sales, f.expenses, Map(f.liabilities, LiabilityRowOf), Map(f.salaries, SalaryRowOf),
         f.cashflow, Map(f.bankPdc, BankPdcRowOf), Map(f.businessInHand, BusinessInHandRowOf),
         Map(f.futureNeeds, FutureNeedRowOf))
  }

  /**
   * `getExportData(args)` against the store; `now` is the ISO timestamp of the call
   * (`new Date().toISOString()`), whose date part is echoed as the export date.
   */
  function GetExportData(store: Store, args: Args, now: string): (r: ExportData)
    ensures r.summary.dateRange == args.dateRange && r.summary.currency == "PKR"
    ensures r.summary.exportDate <= now && 'T' !in r.summary.exportDate
    ensures |r.summary.exportDate| < |now| ==> now[|r.summary.exportDate|] == 'T'
    ensures r.totals.netCashflow == r.totals.totalInflows - r.totals.totalOutflows
    ensures r.totals.pendingSalaries == r.totals.totalSalaries - r.totals.paidSalaries
  {
    var f := Exported(store, args);
    ExportData(Summary(BeforeFirst(now, 'T'), args.dateRange, "PKR"), Reshape(f), ComputeTotals(f))
  }

  // ---------------------------------------------------------------------------------------
  // Properties of the query

  /**
   * The date test is the inclusive window `startDate <= d <= endDate` in string order,
   * each bound checked only when it is not empty.
   */
  lemma InRangeMeansBetween(dr: DateRange, d: string)
    ensures InRange(dr, d) <==>
      (dr.startDate == "" || Less(dr.startDate, d) || dr.startDate == d) &&
      (dr.endDate == "" || Less(d, dr.endDate) || d == dr.endDate)
  {
    LessIrreflexive(d);
    if dr.startDate != d {
      LessTotal(dr.startDate, d);
      if Less(dr.startDate, d) { LessAsymmetric(dr.startDate, d); }
    }
    if dr.endDate != d {
      LessTotal(dr.endDate, d);
      if Less(d, dr.endDate) { LessAsymmetric(d, dr.endDate); }
    }
  }

  /** The early return for a range with two empty bounds agrees with the filter it skips. */
  lemma EmptyBoundsFilterNothing<T>(items: seq<T>, key: T -> string)
    ensures Filter(items, DateKeeper(DateRange("", ""), key)) == items
  {
    FilterKeepsAll(items, DateKeeper(DateRange("", ""), key));
  }

  /** Date filtering commutes with concatenation: what it keeps stays in order. */
  lemma FilterByDateAppend<T>(a: seq<T>, b: seq<T>, key: T -> string, range: Option<DateRange>)
    ensures FilterByDate(a + b, key, range) == FilterByDate(a, key, range) + FilterByDate(b, key, range)
  {
    if range.Some? {
      FilterAppend(a, b, DateKeeper(range.value, key));
    }
  }

  /**
   * Salaries are filtered by their `YYYY-MM` month against `YYYY-MM-DD` bounds: a month
   * passes exactly when it is after the start date's month and not after the end date's
   * month. The start date's own month always fails, since a month is a proper prefix of
   * each of its days and so sorts below them; the end date's month always passes.
   */
  lemma SalaryMonthWindow(dr: DateRange, month: string)
    requires IsIsoDate(dr.startDate) && IsIsoDate(dr.endDate) && IsIsoMonth(month)
    ensures InRange(dr, month) <==>
      Less(MonthOf(dr.startDate), month) && !Less(MonthOf(dr.endDate), month)
  {
    var s7 := MonthOf(dr.startDate);
    CompareWithLonger(month, dr.startDate);
    CompareWithLonger(month, dr.endDate);
    LessIrreflexive(month);
    if month != s7 {
      LessTotal(month, s7);
      if Less(s7, month) { LessAsymmetric(s7, month); }
    }
  }

  /** A salary of the start date's month is dropped whenever the start is a day of that month. */
  lemma StartMonthSalariesDropped(dr: DateRange, s: Salary)
    requires IsIsoDate(dr.startDate) && s.month == MonthOf(dr.startDate)
    ensures !InRange(dr, s.month)
    ensures forall items: seq<Salary> :: s !in FilterByDate(items, SalaryMonth, Some(dr))
  {
    ProperPrefixIsLess(s.month, dr.startDate);
  }

  /**
   * A module left out of the list yields an empty array, and every total drawn
   * only from it is zero.
   */
  lemma ExcludedModulesAreEmpty(store: Store, args: Args, now: string, r: ExportData)
    requires r == GetExportData(store, args, now)
    ensures "sales" !in ModulesOf(args) ==>
      r.data.sales == [] && r.totals.totalSales == 0 && r.totals.totalProfit == 0
    ensures "expenses" !in ModulesOf(args) ==> r.data.expenses == [] && r.totals.totalExpenses == 0
    ensures "liabilities" !in ModulesOf(args) ==>
      r.data.liabilities == [] && r.totals.totalLiabilities == 0 && r.totals.outstandingLiabilities == 0
    ensures "salaries" !in ModulesOf(args) ==>
      r.data.salaries == [] && r.totals.totalSalaries == 0 && r.totals.paidSalaries == 0
      && r.totals.pendingSalaries == 0
    ensures "cashflow" !in ModulesOf(args) ==>
      r.data.cashflow == [] && r.totals.totalInflows == 0 && r.totals.totalOutflows == 0
      && r.totals.netCashflow == 0
    ensures "bankPdc" !in ModulesOf(args) ==> r.data.bankPdc == []
    ensures "businessInHand" !in ModulesOf(args) ==>
      r.data.businessInHand == [] && r.totals.businessInHandValue == 0
    ensures "futureNeeds" !in ModulesOf(args) ==> r.data.futureNeeds == []
  {
  }

  /**
   * Which list each total sums: sales, expenses, salaries and cash flow totals read the
   * date-filtered table of a chosen module, while the liability totals and the
   * business-in-hand value read the chosen table unfiltered.
   */
  lemma TotalsReadTheirLists(store: Store, args: Args, now: string)
    ensures var t, m, range := GetExportData(store, args, now).totals, ModulesOf(args), args.dateRange;
      var sales := FilterByDate(Load(m, "sales", store.sales), SaleDate, range);
      var salaries := FilterByDate(Load(m, "salaries", store.salaries), SalaryMonth, range);
      var cashflow := FilterByDate(Load(m, "cashflow", store.cashflow), CashflowDate, range);
      && t.totalSales == Sum(sales, SellingPrice) && t.totalProfit == Sum(sales, NetProfit)
      && t.totalExpenses == Sum(FilterByDate(Load(m, "expenses", store.expenses), ExpenseDate, range), ExpenseAmount)
      && t.totalLiabilities == Sum(Load(m, "liabilities", store.liabilities), OriginalAmount)
      && t.outstandingLiabilities == Sum(Load(m, "liabilities", store.liabilities), OutstandingBalance)
      && t.totalSalaries == Sum(salaries, NetSalary)
      && t.paidSalaries == Sum(Filter(salaries, IsPaid), NetSalary)
      && t.totalInflows == Sum(Filter(cashflow, IsInflow), CashAmount)
      && t.totalOutflows == Sum(Filter(cashflow, IsOutflow), CashAmount)
      && t.businessInHandValue == Sum(Filter(Load(m, "businessInHand", store.businessInHand), NotReceived), BusinessAmount)
  {
  }

  /**
   * The four dated arrays are the date-filtered tables of chosen modules, in stored order:
   * a record is exported exactly when its module is chosen and its date is admitted.
   */
  lemma DatedArraysAreFiltered(store: Store, args: Args, now: string, r: ExportData)
    requires r == GetExportData(store, args, now)
    ensures forall s :: s in r.data.sales <==>
              "sales" in ModulesOf(args) && s in store.sales && Admits(args.dateRange, s.date)
    ensures forall x :: x in r.data.expenses <==>
              "expenses" in ModulesOf(args) && x in store.expenses && Admits(args.dateRange, x.date)
    ensures forall c :: c in r.data.cashflow <==>
              "cashflow" in ModulesOf(args) && c in store.cashflow && Admits(args.dateRange, c.date)
    ensures r.data.salaries
         == Map(FilterByDate(Load(ModulesOf(args), "salaries", store.salaries), SalaryMonth, args.dateRange), SalaryRowOf)
  {
    var m := ModulesOf(args);
    LoadedAndFiltered(m, "sales", store.sales, SaleDate, args.dateRange);
    LoadedAndFiltered(m, "expenses", store.expenses, ExpenseDate, args.dateRange);
    LoadedAndFiltered(m, "cashflow", store.cashflow, CashflowDate, args.dateRange);
  }

  /** What survives loading a module's table and date-filtering it. */
  lemma LoadedAndFiltered<T>(modules: seq<string>, id: string, table: seq<T>, key: T -> string, range: Option<DateRange>)
    ensures forall x :: x in FilterByDate(Load(modules, id, table), key, range) <==>
              id in modules && x in table && Admits(range, key(x))
  {
    forall x | id in modules && x in table && Admits(range, key(x))
      ensures x in FilterByDate(Load(modules, id, table), key, range)
    {
      var i :| 0 <= i < |table| && table[i] == x;
      assert Admits(range, key(table[i]));
    }
  }

  /** Without arguments every module is read in full and nothing is date-filtered. */
  lemma NoArgumentsExportEverything(store: Store, now: string, r: ExportData)
    requires r == GetExportData(store, Args(None, None), now)
    ensures r.data.sales == store.sales && r.data.expenses == store.expenses
    ensures r.data.cashflow == store.cashflow
    ensures r.data.salaries == Map(store.salaries, SalaryRowOf)
    ensures r.data.liabilities == Map(store.liabilities, LiabilityRowOf)
    ensures r.data.bankPdc == Map(store.bankPdc, BankPdcRowOf)
    ensures r.data.businessInHand == Map(store.businessInHand, BusinessInHandRowOf)
    ensures r.data.futureNeeds == Map(store.futureNeeds, FutureNeedRowOf)
    ensures r.totals.totalSales == Sum(store.sales, SellingPrice)
  {
  }

  /**
   * Liabilities, bank PDCs, business in hand and future needs are never date-filtered:
   * two calls that differ only in the range agree on those arrays and on their totals.
   */
  lemma UndatedModulesIgnoreDateRange(
    store: Store, modules: Option<seq<string>>, range1: Option<DateRange>, range2: Option<DateRange>,
    now: string)
    ensures var a, b := GetExportData(store, Args(range1, modules), now),
                        GetExportData(store, Args(range2, modules), now);
      && a.data.liabilities == b.data.liabilities && a.data.bankPdc == b.data.bankPdc
      && a.data.businessInHand == b.data.businessInHand && a.data.futureNeeds == b.data.futureNeeds
      && a.totals.totalLiabilities == b.totals.totalLiabilities
      && a.totals.outstandingLiabilities == b.totals.outstandingLiabilities
      && a.totals.businessInHandValue == b.totals.businessInHandValue
  {
  }

  /** The four undated arrays of a chosen module have the stored list's length and order. */
  lemma UndatedModulesKeepLengthAndOrder(store: Store, args: Args, now: string, r: ExportData)
    requires r == GetExportData(store, args, now)
    ensures "liabilities" in ModulesOf(args) ==>
      |r.data.liabilities| == |store.liabilities|
      && forall i :: 0 <= i < |store.liabilities| ==> r.data.liabilities[i] == LiabilityRowOf(store.liabilities[i])
    ensures "bankPdc" in ModulesOf(args) ==>
      |r.data.bankPdc| == |store.bankPdc|
      && forall i :: 0 <= i < |store.bankPdc| ==> r.data.bankPdc[i] == BankPdcRowOf(store.bankPdc[i])
    ensures "businessInHand" in ModulesOf(args) ==>
      |r.data.businessInHand| == |store.businessInHand|
      && forall i :: 0 <= i < |store.businessInHand| ==>
           r.data.businessInHand[i] == BusinessInHandRowOf(store.businessInHand[i])
    ensures "futureNeeds" in ModulesOf(args) ==>
      |r.data.futureNeeds| == |store.futureNeeds|
      && forall i :: 0 <= i < |store.futureNeeds| ==> r.data.futureNeeds[i] == FutureNeedRowOf(store.futureNeeds[i])
  {
  }

  predicate IsUnpaid(s: Salary) { s.paymentStatus != "paid" }

  /**
   * The pending amount is the net salary of every exported salary not marked "paid",
   * whatever its status says otherwise.
   */
  lemma PendingSalariesAreTheUnpaid(store: Store, args: Args, now: string)
    ensures GetExportData(store, args, now).totals.pendingSalaries
         == Sum(Filter(Exported(store, args).salaries, IsUnpaid), NetSalary)
  {
    SumSplit(Exported(store, args).salaries, NetSalary, IsPaid, IsUnpaid);
  }

  /** A cash flow entry's effect on the net: in for an inflow, out for an outflow, none otherwise. */
  function SignedAmount(c: CashflowEntry): int {
    if IsInflow(c) then c.amount else if IsOutflow(c) then -c.amount else 0
  }

  lemma {:induction false} InflowsMinusOutflows(xs: seq<CashflowEntry>)
    ensures Sum(Filter(xs, IsInflow), CashAmount) - Sum(Filter(xs, IsOutflow), CashAmount)
         == Sum(xs, SignedAmount)
    decreases |xs|
  {
    if xs != [] {
      InflowsMinusOutflows(xs[1..]);
      SumAppend(if IsInflow(xs[0]) then [xs[0]] else [], Filter(xs[1..], IsInflow), CashAmount);
      SumAppend(if IsOutflow(xs[0]) then [xs[0]] else [], Filter(xs[1..], IsOutflow), CashAmount);
    }
  }

  /** The net cash flow is the signed sum of the exported cash flow entries. */
  lemma NetCashflowIsSignedSum(store: Store, args: Args, now: string)
    ensures GetExportData(store, args, now).totals.netCashflow == Sum(Exported(store, args).cashflow, SignedAmount)
  {
    InflowsMinusOutflows(Exported(store, args).cashflow);
  }

  /** An entry that is neither an inflow nor an outflow changes no total. */
  lemma OtherCashflowKindsCountNowhere(store: Store, args: Args, now: string, c: CashflowEntry)
    requires c.kind != "inflow" && c.kind != "outflow"
    ensures GetExportData(store.(cashflow := store.cashflow + [c]), args, now).totals
         == GetExportData(store, args, now).totals
  {
    var grown := store.(cashflow := store.cashflow + [c]);
    var f, g := Exported(store, args), Exported(grown, args);
    assert g == f.(cashflow := g.cashflow);
    if "cashflow" in ModulesOf(args) {
      var cf := FilterByDate(store.cashflow, CashflowDate, args.dateRange);
      var extra := FilterByDate([c], CashflowDate, args.dateRange);
      FilterByDateAppend(store.cashflow, [c], CashflowDate, args.dateRange);
      FilterAppend(cf, extra, IsInflow);
      FilterAppend(cf, extra, IsOutflow);
      FilterKeepsNone(extra, IsInflow);
      FilterKeepsNone(extra, IsOutflow);
      assert Filter(g.cashflow, IsInflow) == Filter(f.cashflow, IsInflow);
      assert Filter(g.cashflow, IsOutflow) == Filter(f.cashflow, IsOutflow);
    }
    TotalsOfSameLists(g, f);
  }

  /** The totals read only the filtered lists they sum. */
  lemma TotalsOfSameLists(f: Store, g: Store)
    requires f.sales == g.sales && f.expenses == g.expenses && f.liabilities == g.liabilities
    requires f.salaries == g.salaries && f.businessInHand == g.businessInHand
    requires Filter(f.cashflow, IsInflow) == Filter(g.cashflow, IsInflow)
    requires Filter(f.cashflow, IsOutflow) == Filter(g.cashflow, IsOutflow)
    ensures ComputeTotals(f) == ComputeTotals(g)
  {
  }

  /** Two stores holding the same records, each table possibly in another order. */
  predicate SameRecords(a: Store, b: Store) {
    && multiset(a.sales) == multiset(b.sales) && multiset(a.expenses) == multiset(b.expenses)
    && multiset(a.liabilities) == multiset(b.liabilities) && multiset(a.salaries) == multiset(b.salaries)
    && multiset(a.cashflow) == multiset(b.cashflow) && multiset(a.bankPdc) == multiset(b.bankPdc)
    && multiset(a.businessInHand) == multiset(b.businessInHand)
    && multiset(a.futureNeeds) == multiset(b.futureNeeds)
  }

  lemma FilterByDatePermutation<T>(a: seq<T>, b: seq<T>, key: T -> string, range: Option<DateRange>)
    requires multiset(a) == multiset(b)
    ensures multiset(FilterByDate(a, key, range)) == multiset(FilterByDate(b, key, range))
  {
    if range.Some? {
      FilterPermutation(a, b, DateKeeper(range.value, key));
    }
  }

  /** Every total is independent of the order in which the tables hold their records. */
  lemma TotalsIgnoreRecordOrder(a: Store, b: Store, args: Args, now: string)
    requires SameRecords(a, b)
    ensures GetExportData(a, args, now).totals == GetExportData(b, args, now).totals
  {
    var m := ModulesOf(args);
    var sa, sb := Selected(a, m), Selected(b, m);
    assert SameRecords(sa, sb);
    var fa, fb := Exported(a, args), Exported(b, args);
    FilterByDatePermutation(sa.sales, sb.sales, SaleDate, args.dateRange);
    FilterByDatePermutation(sa.expenses, sb.expenses, ExpenseDate, args.dateRange);
    FilterByDatePermutation(sa.salaries, sb.salaries, SalaryMonth, args.dateRange);
    FilterByDatePermutation(sa.cashflow, sb.cashflow, CashflowDate, args.dateRange);
    SumPermutation(fa.sales, fb.sales, SellingPrice);
    SumPermutation(fa.sales, fb.sales, NetProfit);
    SumPermutation(fa.expenses, fb.expenses, ExpenseAmount);
    SumPermutation(fa.liabilities, fb.liabilities, OriginalAmount);
    SumPermutation(fa.liabilities, fb.liabilities, OutstandingBalance);
    SumPermutation(fa.salaries, fb.salaries, NetSalary);
    FilterPermutation(fa.salaries, fb.salaries, IsPaid);
    SumPermutation(Filter(fa.salaries, IsPaid), Filter(fb.salaries, IsPaid), NetSalary);
    FilterPermutation(fa.cashflow, fb.cashflow, IsInflow);
    SumPermutation(Filter(fa.cashflow, IsInflow), Filter(fb.cashflow, IsInflow), CashAmount);
    FilterPermutation(fa.cashflow, fb.cashflow, IsOutflow);
    SumPermutation(Filter(fa.cashflow, IsOutflow), Filter(fb.cashflow, IsOutflow), CashAmount);
    FilterPermutation(fa.businessInHand, fb.businessInHand, NotReceived);
    SumPermutation(Filter(fa.businessInHand, NotReceived), Filter(fb.businessInHand, NotReceived), BusinessAmount);
    TotalsOfSameSums(fa, fb);
    assert GetExportData(a, args, now).totals == ComputeTotals(fa);
    assert GetExportData(b, args, now).totals == ComputeTotals(fb);
  }

  /** The totals are determined by the sums they are made of. */
  lemma TotalsOfSameSums(f: Store, g: Store)
    requires Sum(f.sales, SellingPrice) == Sum(g.sales, SellingPrice) && Sum(f.sales, NetProfit) == Sum(g.sales, NetProfit)
    requires Sum(f.expenses, ExpenseAmount) == Sum(g.expenses, ExpenseAmount)
    requires Sum(f.liabilities, OriginalAmount) == Sum(g.liabilities, OriginalAmount)
    requires Sum(f.liabilities, OutstandingBalance) == Sum(g.liabilities, OutstandingBalance)
    requires Sum(f.salaries, NetSalary) == Sum(g.salaries, NetSalary)
    requires Sum(Filter(f.salaries, IsPaid), NetSalary) == Sum(Filter(g.salaries, IsPaid), NetSalary)
    requires Sum(Filter(f.cashflow, IsInflow), CashAmount) == Sum(Filter(g.cashflow, IsInflow), CashAmount)
    requires Sum(Filter(f.cashflow, IsOutflow), CashAmount) == Sum(Filter(g.cashflow, IsOutflow), CashAmount)
    requires Sum(Filter(f.businessInHand, NotReceived), BusinessAmount)
          == Sum(Filter(g.businessInHand, NotReceived), BusinessAmount)
    ensures ComputeTotals(f) == ComputeTotals(g)
  {
  }
}
