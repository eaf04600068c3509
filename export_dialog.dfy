/**
 * The export dialog (client/src/components/export-dialog.tsx): the module checklist, the
 * arguments it sends to `getExportData`, and `generateExcel`, which turns the query result
 * into a workbook of a summary sheet and one sheet per selected module.
 */
module ExportDialog {
  import opened Wrappers
  import opened Seqs
  import opened Records
  import opened Export
  import opened CurrencyUtils
  import opened Spreadsheet

  datatype ModuleInfo = ModuleInfo(id: string, caption: string)

  /** `MODULES`: the checklist, in display order. */
  const Modules: seq<ModuleInfo> := [
    ModuleInfo("sales", "Sales Data"), ModuleInfo("expenses", "Expenses"),
    ModuleInfo("liabilities", "Liabilities"), ModuleInfo("salaries", "Salaries"),
    ModuleInfo("cashflow", "Cash Flow"), ModuleInfo("bankPdc", "Bank PDC"),
    ModuleInfo("businessInHand", "Business in Hand"), ModuleInfo("futureNeeds", "Future Needs")]

  function IdOf(m: ModuleInfo): string { m.id }

  /** `MODULES.map(m => m.id)` names the same modules, in the same order, as the query's default. */
  function ModuleIds(): (r: seq<string>)
    ensures r == AllModules
  {
    Map(Modules, IdOf)
  }

  function Other(id: string): string -> bool {
    x => x != id
  }

  /** `handleModuleToggle(id)`: remove the id where it is selected, append it where it is not. */
  function Toggle(selected: seq<string>, id: string): (r: seq<string>)
    ensures id in r <==> id !in selected
    ensures forall x :: x != id ==> (x in r <==> x in selected)
    ensures id !in selected ==> r == selected + [id]
    ensures id in selected ==> |r| < |selected|
  {
    if id in selected then
      var i :| 0 <= i < |selected| && selected[i] == id;
      assert !Other(id)(selected[i]);
      FilterDropsOne(selected, Other(id), i);
      Filter(selected, Other(id))
    else selected + [id]
  }

  lemma {:induction false} FilterDropsOne<T>(xs: seq<T>, p: T -> bool, i: nat)
    requires i < |xs| && !p(xs[i])
    ensures |Filter(xs, p)| < |xs|
    decreases |xs|
  {
    if i > 0 {
      FilterDropsOne(xs[1..], p, i - 1);
    }
  }

  /**
   * Toggling the same id twice restores the selection: exactly when the id was absent,
   * and up to its position (it moves to the end) when it was present.
   */
  lemma ToggleTwice(selected: seq<string>, id: string)
    ensures forall x :: x in Toggle(Toggle(selected, id), id) <==> x in selected
    ensures id !in selected ==> Toggle(Toggle(selected, id), id) == selected
    ensures id in selected ==> Toggle(Toggle(selected, id), id) == Filter(selected, Other(id)) + [id]
  {
    if id !in selected {
      FilterAppend(selected, [id], Other(id));
      FilterKeepsAll(selected, Other(id));
      assert Filter([id], Other(id)) == [] by { FilterKeepsNone([id], Other(id)); }
    }
  }

  /** The two date inputs of the dialog, `""` while empty. */
  datatype DateInput = DateInput(startDate: string, endDate: string)

  /** The arguments the dialog hands to `getExportData`. */
  function QueryArgs(dates: DateInput, selected: seq<string>): (r: Args)
    ensures r.dateRange.Some? <==> dates.startDate != "" && dates.endDate != ""
    ensures r.dateRange.Some? ==> r.dateRange.value == DateRange(dates.startDate, dates.endDate)
    ensures r.modules.Some?
    ensures |selected| > 0 ==> r.modules.value == selected
    ensures |selected| == 0 ==> r.modules.value == AllModules
  {
    Args(if dates.startDate != "" && dates.endDate != "" then Some(DateRange(dates.startDate, dates.endDate)) else None,
         Some(if |selected| > 0 then selected else ModuleIds()))
  }

  /**
   * From the dialog, a half-filled date range filters nothing, and an empty selection
   * exports every module: both come out as the query's own defaults.
   */
  lemma DialogQueryDefaults(store: Store, dates: DateInput, selected: seq<string>)
    ensures dates.startDate == "" || dates.endDate == "" ==>
      Exported(store, QueryArgs(dates, selected)) == Selected(store, ModulesOf(QueryArgs(dates, selected)))
    ensures |selected| == 0 ==> ModulesOf(QueryArgs(dates, selected)) == ModulesOf(Args(None, None))
  {
  }

  // ---------------------------------------------------------------------------------------
  // Sheets

  /** `formatCurrency(x)` with the default options. */
  function Money(x: int, toLocale: Localizer): Cell {
    Str(FormatCurrency(Num(x), "PKR", NoOptions, toLocale))
  }

  function DateRangeText(range: Option<DateRange>): string {
    if range.Some? then range.value.startDate + " to " + range.value.endDate else "All Data"
  }

  /** The summary sheet: a title, the summary fields, a blank line and the eleven formatted totals. */
  function SummaryRows(e: ExportData, toLocale: Localizer): (r: seq<Row>)
    ensures |r| == 17 && r[..6] == SummaryHead(e.summary) && r[6..] == TotalRows(e.totals, toLocale)
  {
    SummaryHead(e.summary) + TotalRows(e.totals, toLocale)
  }

  /** The title and the echoed summary fields, then a blank line and the totals' heading. */
  function SummaryHead(s: Summary): (r: seq<Row>)
    ensures |r| == 6 && r[0] == [Str("Finance Tracker Export Summary")]
    ensures r[1] == [Str("Export Date"), Str(s.exportDate)]
    ensures r[2] == [Str("Currency"), Str(s.currency)]
    ensures r[3] == [Str("Date Range"), Str(DateRangeText(s.dateRange))]
    ensures r[4] == [Str("")] && r[5] == [Str("Financial Totals")]
  {
    [[Str("Finance Tracker Export Summary")],
     [Str("Export Date"), Str(s.exportDate)],
     [Str("Currency"), Str(s.currency)],
     [Str("Date Range"), Str(DateRangeText(s.dateRange))],
     [Str("")],
     [Str("Financial Totals")]]
  }

  /** One row per total, its label and then the formatted amount, in the sheet's order. */
  /** The labels of the eleven totals rows, top to bottom. */
  const TotalLabels: seq<string> := ["Total Sales", "Total Expenses", "Total Profit", "Outstanding Liabilities",
    "Business in Hand", "Total Salaries", "Paid Salaries", "Pending Salaries", "Total Inflows", "Total Outflows",
    "Net Cash Flow"]

  /** The totals in the order of `TotalLabels`. */
  function TotalAmounts(t: Totals): (r: seq<int>)
    ensures |r| == 11
    ensures r[0] == t.totalSales && r[1] == t.totalExpenses && r[2] == t.totalProfit
    ensures r[3] == t.outstandingLiabilities && r[4] == t.businessInHandValue
    ensures r[5] == t.totalSalaries && r[6] == t.paidSalaries && r[7] == t.pendingSalaries
    ensures r[8] == t.totalInflows && r[9] == t.totalOutflows && r[10] == t.netCashflow
  {
    [t.totalSales, t.totalExpenses, t.totalProfit, t.outstandingLiabilities, t.businessInHandValue,
     t.totalSalaries, t.paidSalaries, t.pendingSalaries, t.totalInflows, t.totalOutflows, t.netCashflow]
  }

  /** Row `i` of the totals block: the `i`-th label, then that total formatted as rupees. */
  function TotalRows(t: Totals, toLocale: Localizer): (r: seq<Row>)
    ensures |r| == |TotalLabels|
    ensures forall i :: 0 <= i < |r| ==> r[i] == [Str(TotalLabels[i]), Money(TotalAmounts(t)[i], toLocale)]
  {
    var a := TotalAmounts(t);
    [[Str("Total Sales"), Money(a[0], toLocale)],
     [Str("Total Expenses"), Money(a[1], toLocale)],
     [Str("Total Profit"), Money(a[2], toLocale)],
     [Str("Outstanding Liabilities"), Money(a[3], toLocale)],
     [Str("Business in Hand"), Money(a[4], toLocale)],
     [Str("Total Salaries"), Money(a[5], toLocale)],
     [Str("Paid Salaries"), Money(a[6], toLocale)],
     [Str("Pending Salaries"), Money(a[7], toLocale)],
     [Str("Total Inflows"), Money(a[8], toLocale)],
     [Str("Total Outflows"), Money(a[9], toLocale)],
     [Str("Net Cash Flow"), Money(a[10], toLocale)]]
  }

  /** Every amount of the summary sheet is written with the rupee sign in front. */
  lemma SummaryAmountsCarrySymbol(e: ExportData, toLocale: Localizer)
    ensures var r := SummaryRows(e, toLocale);
      forall i :: 6 <= i < 17 ==> |r[i]| == 2 && r[i][1].Str? && GetCurrencySymbol() <= r[i][1].text
  {
    var r: seq<Row> := SummaryRows(e, toLocale);
    var amounts := TotalAmounts(e.totals);
    forall i: int | 6 <= i < 17 ensures |r[i]| == 2 && r[i][1].Str? && GetCurrencySymbol() <= r[i][1].text {
      assert r[i] == TotalRows(e.totals, toLocale)[i - 6];
      assert r[i][1] == Money(amounts[i - 6], toLocale);
      assert GetCurrencySymbol() <= FormatCurrency(Num(amounts[i - 6]), "PKR", NoOptions, toLocale);
    }
  }

  /** The date range row reads "start to end" for an echoed range and "All Data" otherwise. */
  lemma DateRangeRow(e: ExportData, toLocale: Localizer)
    ensures var cell := SummaryRows(e, toLocale)[3][1].text;
      && (e.summary.dateRange.None? <==> cell == "All Data")
      && (e.summary.dateRange.Some? ==>
            cell[..|e.summary.dateRange.value.startDate|] == e.summary.dateRange.value.startDate
            && cell[|cell| - |e.summary.dateRange.value.endDate|..] == e.summary.dateRange.value.endDate)
  {
    var cell := SummaryRows(e, toLocale)[3][1].text;
    if e.summary.dateRange.Some? {
      var dr := e.summary.dateRange.value;
      assert cell == dr.startDate + " to " + dr.endDate;
      assert cell[|dr.startDate| + 2] == 'o';
      assert 'o' !in "All Data";
    }
  }

  const SalesHeader: Row := [
    Str("Date"), Str("Description"), Str("Cost (PKR)"), Str("Selling Price (PKR)"),
    Str("Gross Profit (PKR)"), Str("Gross Margin (%)"), Str("Expenses (PKR)"),
    Str("Net Profit (PKR)"), Str("Net Margin (%)")]
  const ExpensesHeader: Row := [
    Str("Date"), Str("Description"), Str("Amount (PKR)"), Str("Category"), Str("Vendor"), Str("Status")]
  const LiabilitiesHeader: Row := [
    Str("Description"), Str("Original Amount (PKR)"), Str("Outstanding Balance"), Str("Due Date"),
    Str("Creditor"), Str("Status")]
  const SalariesHeader: Row := [
    Str("Employee Name"), Str("Month"), Str("Basic Salary (PKR)"), Str("Allowances (PKR)"),
    Str("Deductions (PKR)"), Str("Net Salary (PKR)"), Str("Payment Status"), Str("Payment Date")]
  const CashflowHeader: Row := [
    Str("Date"), Str("Type"), Str("Category"), Str("Description"), Str("Amount (PKR)")]
  const BankPdcHeader: Row := [
    Str("Bank Name"), Str("Supplier Code"), Str("Amount (PKR)"), Str("Status"), Str("Due Date")]
  const BusinessInHandHeader: Row := [
    Str("PO Number"), Str("Supplier"), Str("Description"), Str("Amount (PKR)"), Str("Status"),
    Str("Expected Date")]
  const FutureNeedsHeader: Row := [
    Str("Description"), Str("Category"), Str("Month"), Str("Total Amount (PKR)"), Str("Type")]

  /** `toFixed(2)` on a margin. */
  type Fixed2 = real -> string

  function SaleCells(toFixed: Fixed2): Sale -> Row {
    (s: Sale) => [Str(s.date), Str(s.description), Number(s.cost), Number(s.sellingPrice),
          Number(s.grossProfit), Str(toFixed(s.grossProfitMargin)), Number(s.expenses),
          Number(s.netProfit), Str(toFixed(s.netProfitMargin))]
  }

  function ExpenseCells(x: Expense): Row {
    [Str(x.date), Str(x.description), Number(x.amount), Str(x.category), Str(x.vendor), Str(x.status)]
  }

  function LiabilityCells(x: LiabilityRow): Row {
    [Str(x.description), Number(x.amount), Number(x.outstandingBalance), Str(x.dueDate),
     Str(x.creditor), Str(x.status)]
  }

  function SalaryCells(x: SalaryRow): Row {
    [Str(x.employeeName), Str(x.month), Number(x.basicSalary), Number(x.allowances),
     Number(x.deductions), Number(x.netSalary), Str(x.paymentStatus), Str(x.paymentDate)]
  }

  function CashflowCells(x: CashflowEntry): Row {
    [Str(x.date), Str(x.kind), Str(x.category), Str(x.description), Number(x.amount)]
  }

  function BankPdcCells(x: BankPdcRow): Row {
    [Str(x.bankName), Str(x.supplierCode), Number(x.amount), Str(x.status), Str(x.dueDate)]
  }

  function BusinessInHandCells(x: BusinessInHandRow): Row {
    [Str(x.poNumber), Str(x.supplier), Str(x.description), Number(x.amount), Str(x.status),
     Str(x.expectedDate)]
  }

  function FutureNeedCells(x: FutureNeedRow): Row {
    [Str(x.description), Str(x.category), Str(x.month), Number(x.amount), Str(x.kind)]
  }

  /*
   * The sheets are arrays of arrays, so what a cell means is given by the heading above it:
   * each lemma below reads every column of one table by its heading, and the data row is as
   * wide as the header.
   */

  lemma SalesHeadings()
    ensures Headings(SalesHeader)
  {
  }

  lemma ExpensesHeadings()
    ensures Headings(ExpensesHeader)
  {
  }

  lemma LiabilitiesHeadings()
    ensures Headings(LiabilitiesHeader)
  {
  }

  lemma SalariesHeadings()
    ensures Headings(SalariesHeader)
  {
  }

  lemma CashflowHeadings()
    ensures Headings(CashflowHeader)
  {
  }

  lemma BankPdcHeadings()
    ensures Headings(BankPdcHeader)
  {
  }

  lemma BusinessInHandHeadings()
    ensures Headings(BusinessInHandHeader)
  {
  }

  lemma FutureNeedsHeadings()
    ensures Headings(FutureNeedsHeader)
  {
  }

  lemma SaleColumns(s: Sale, toFixed: Fixed2)
    ensures |SaleCells(toFixed)(s)| == |SalesHeader|
    ensures CellUnder(SalesHeader, SaleCells(toFixed)(s), "Date") == Some(Str(s.date))
    ensures CellUnder(SalesHeader, SaleCells(toFixed)(s), "Description") == Some(Str(s.description))
    ensures CellUnder(SalesHeader, SaleCells(toFixed)(s), "Cost (PKR)") == Some(Number(s.cost))
    ensures CellUnder(SalesHeader, SaleCells(toFixed)(s), "Selling Price (PKR)") == Some(Number(s.sellingPrice))
    ensures CellUnder(SalesHeader, SaleCells(toFixed)(s), "Gross Profit (PKR)") == Some(Number(s.grossProfit))
  {
    SalesHeadings();
    CellUnderAt(SalesHeader, SaleCells(toFixed)(s), "Date", 0);
    CellUnderAt(SalesHeader, SaleCells(toFixed)(s), "Description", 1);
    CellUnderAt(SalesHeader, SaleCells(toFixed)(s), "Cost (PKR)", 2);
    CellUnderAt(SalesHeader, SaleCells(toFixed)(s), "Selling Price (PKR)", 3);
    CellUnderAt(SalesHeader, SaleCells(toFixed)(s), "Gross Profit (PKR)", 4);
  }

  /** The margin, expenses and net profit columns of a sales row. */
  lemma SaleMarginColumns(s: Sale, toFixed: Fixed2)
    ensures CellUnder(SalesHeader, SaleCells(toFixed)(s), "Gross Margin (%)") == Some(Str(toFixed(s.grossProfitMargin)))
    ensures CellUnder(SalesHeader, SaleCells(toFixed)(s), "Expenses (PKR)") == Some(Number(s.expenses))
    ensures CellUnder(SalesHeader, SaleCells(toFixed)(s), "Net Profit (PKR)") == Some(Number(s.netProfit))
    ensures CellUnder(SalesHeader, SaleCells(toFixed)(s), "Net Margin (%)") == Some(Str(toFixed(s.netProfitMargin)))
  {
    SalesHeadings();
    CellUnderAt(SalesHeader, SaleCells(toFixed)(s), "Gross Margin (%)", 5);
    CellUnderAt(SalesHeader, SaleCells(toFixed)(s), "Expenses (PKR)", 6);
    CellUnderAt(SalesHeader, SaleCells(toFixed)(s), "Net Profit (PKR)", 7);
    CellUnderAt(SalesHeader, SaleCells(toFixed)(s), "Net Margin (%)", 8);
  }

  lemma ExpenseColumns(x: Expense)
    ensures |ExpenseCells(x)| == |ExpensesHeader|
    ensures CellUnder(ExpensesHeader, ExpenseCells(x), "Date") == Some(Str(x.date))
    ensures CellUnder(ExpensesHeader, ExpenseCells(x), "Description") == Some(Str(x.description))
    ensures CellUnder(ExpensesHeader, ExpenseCells(x), "Amount (PKR)") == Some(Number(x.amount))
    ensures CellUnder(ExpensesHeader, ExpenseCells(x), "Category") == Some(Str(x.category))
    ensures CellUnder(ExpensesHeader, ExpenseCells(x), "Vendor") == Some(Str(x.vendor))
    ensures CellUnder(ExpensesHeader, ExpenseCells(x), "Status") == Some(Str(x.status))
  {
    ExpensesHeadings();
    CellUnderAt(ExpensesHeader, ExpenseCells(x), "Date", 0);
    CellUnderAt(ExpensesHeader, ExpenseCells(x), "Description", 1);
    CellUnderAt(ExpensesHeader, ExpenseCells(x), "Amount (PKR)", 2);
    CellUnderAt(ExpensesHeader, ExpenseCells(x), "Category", 3);
    CellUnderAt(ExpensesHeader, ExpenseCells(x), "Vendor", 4);
    CellUnderAt(ExpensesHeader, ExpenseCells(x), "Status", 5);
  }

  lemma LiabilityColumns(x: LiabilityRow)
    ensures |LiabilityCells(x)| == |LiabilitiesHeader|
    ensures CellUnder(LiabilitiesHeader, LiabilityCells(x), "Description") == Some(Str(x.description))
    ensures CellUnder(LiabilitiesHeader, LiabilityCells(x), "Original Amount (PKR)") == Some(Number(x.amount))
    ensures CellUnder(LiabilitiesHeader, LiabilityCells(x), "Outstanding Balance") == Some(Number(x.outstandingBalance))
    ensures CellUnder(LiabilitiesHeader, LiabilityCells(x), "Due Date") == Some(Str(x.dueDate))
    ensures CellUnder(LiabilitiesHeader, LiabilityCells(x), "Creditor") == Some(Str(x.creditor))
    ensures CellUnder(LiabilitiesHeader, LiabilityCells(x), "Status") == Some(Str(x.status))
  {
    LiabilitiesHeadings();
    CellUnderAt(LiabilitiesHeader, LiabilityCells(x), "Description", 0);
    CellUnderAt(LiabilitiesHeader, LiabilityCells(x), "Original Amount (PKR)", 1);
    CellUnderAt(LiabilitiesHeader, LiabilityCells(x), "Outstanding Balance", 2);
    CellUnderAt(LiabilitiesHeader, LiabilityCells(x), "Due Date", 3);
    CellUnderAt(LiabilitiesHeader, LiabilityCells(x), "Creditor", 4);
    CellUnderAt(LiabilitiesHeader, LiabilityCells(x), "Status", 5);
  }

  lemma SalaryColumns(x: SalaryRow)
    ensures |SalaryCells(x)| == |SalariesHeader|
    ensures CellUnder(SalariesHeader, SalaryCells(x), "Employee Name") == Some(Str(x.employeeName))
    ensures CellUnder(SalariesHeader, SalaryCells(x), "Month") == Some(Str(x.month))
    ensures CellUnder(SalariesHeader, SalaryCells(x), "Basic Salary (PKR)") == Some(Number(x.basicSalary))
    ensures CellUnder(SalariesHeader, SalaryCells(x), "Allowances (PKR)") == Some(Number(x.allowances))
  {
    SalariesHeadings();
    CellUnderAt(SalariesHeader, SalaryCells(x), "Employee Name", 0);
    CellUnderAt(SalariesHeader, SalaryCells(x), "Month", 1);
    CellUnderAt(SalariesHeader, SalaryCells(x), "Basic Salary (PKR)", 2);
    CellUnderAt(SalariesHeader, SalaryCells(x), "Allowances (PKR)", 3);
  }

  /** The net salary and payment columns of a salaries row. */
  lemma SalaryPaymentColumns(x: SalaryRow)
    ensures CellUnder(SalariesHeader, SalaryCells(x), "Deductions (PKR)") == Some(Number(x.deductions))
    ensures CellUnder(SalariesHeader, SalaryCells(x), "Net Salary (PKR)") == Some(Number(x.netSalary))
    ensures CellUnder(SalariesHeader, SalaryCells(x), "Payment Status") == Some(Str(x.paymentStatus))
    ensures CellUnder(SalariesHeader, SalaryCells(x), "Payment Date") == Some(Str(x.paymentDate))
  {
    SalariesHeadings();
    CellUnderAt(SalariesHeader, SalaryCells(x), "Deductions (PKR)", 4);
    CellUnderAt(SalariesHeader, SalaryCells(x), "Net Salary (PKR)", 5);
    CellUnderAt(SalariesHeader, SalaryCells(x), "Payment Status", 6);
    CellUnderAt(SalariesHeader, SalaryCells(x), "Payment Date", 7);
  }

  lemma CashflowColumns(x: CashflowEntry)
    ensures |CashflowCells(x)| == |CashflowHeader|
    ensures CellUnder(CashflowHeader, CashflowCells(x), "Date") == Some(Str(x.date))
    ensures CellUnder(CashflowHeader, CashflowCells(x), "Type") == Some(Str(x.kind))
    ensures CellUnder(CashflowHeader, CashflowCells(x), "Category") == Some(Str(x.category))
    ensures CellUnder(CashflowHeader, CashflowCells(x), "Description") == Some(Str(x.description))
    ensures CellUnder(CashflowHeader, CashflowCells(x), "Amount (PKR)") == Some(Number(x.amount))
  {
    CashflowHeadings();
    CellUnderAt(CashflowHeader, CashflowCells(x), "Date", 0);
    CellUnderAt(CashflowHeader, CashflowCells(x), "Type", 1);
    CellUnderAt(CashflowHeader, CashflowCells(x), "Category", 2);
    CellUnderAt(CashflowHeader, CashflowCells(x), "Description", 3);
    CellUnderAt(CashflowHeader, CashflowCells(x), "Amount (PKR)", 4);
  }

  lemma BankPdcColumns(x: BankPdcRow)
    ensures |BankPdcCells(x)| == |BankPdcHeader|
    ensures CellUnder(BankPdcHeader, BankPdcCells(x), "Bank Name") == Some(Str(x.bankName))
    ensures CellUnder(BankPdcHeader, BankPdcCells(x), "Supplier Code") == Some(Str(x.supplierCode))
    ensures CellUnder(BankPdcHeader, BankPdcCells(x), "Amount (PKR)") == Some(Number(x.amount))
    ensures CellUnder(BankPdcHeader, BankPdcCells(x), "Status") == Some(Str(x.status))
    ensures CellUnder(BankPdcHeader, BankPdcCells(x), "Due Date") == Some(Str(x.dueDate))
  {
    BankPdcHeadings();
    CellUnderAt(BankPdcHeader, BankPdcCells(x), "Bank Name", 0);
    CellUnderAt(BankPdcHeader, BankPdcCells(x), "Supplier Code", 1);
    CellUnderAt(BankPdcHeader, BankPdcCells(x), "Amount (PKR)", 2);
    CellUnderAt(BankPdcHeader, BankPdcCells(x), "Status", 3);
    CellUnderAt(BankPdcHeader, BankPdcCells(x), "Due Date", 4);
  }

  lemma BusinessInHandColumns(x: BusinessInHandRow)
    ensures |BusinessInHandCells(x)| == |BusinessInHandHeader|
    ensures CellUnder(BusinessInHandHeader, BusinessInHandCells(x), "PO Number") == Some(Str(x.poNumber))
    ensures CellUnder(BusinessInHandHeader, BusinessInHandCells(x), "Supplier") == Some(Str(x.supplier))
    ensures CellUnder(BusinessInHandHeader, BusinessInHandCells(x), "Description") == Some(Str(x.description))
    ensures CellUnder(BusinessInHandHeader, BusinessInHandCells(x), "Amount (PKR)") == Some(Number(x.amount))
    ensures CellUnder(BusinessInHandHeader, BusinessInHandCells(x), "Status") == Some(Str(x.status))
    ensures CellUnder(BusinessInHandHeader, BusinessInHandCells(x), "Expected Date") == Some(Str(x.expectedDate))
  {
    BusinessInHandHeadings();
    CellUnderAt(BusinessInHandHeader, BusinessInHandCells(x), "PO Number", 0);
    CellUnderAt(BusinessInHandHeader, BusinessInHandCells(x), "Supplier", 1);
    CellUnderAt(BusinessInHandHeader, BusinessInHandCells(x), "Description", 2);
    CellUnderAt(BusinessInHandHeader, BusinessInHandCells(x), "Amount (PKR)", 3);
    CellUnderAt(BusinessInHandHeader, BusinessInHandCells(x), "Status", 4);
    CellUnderAt(BusinessInHandHeader, BusinessInHandCells(x), "Expected Date", 5);
  }

  lemma FutureNeedColumns(x: FutureNeedRow)
    ensures |FutureNeedCells(x)| == |FutureNeedsHeader|
    ensures CellUnder(FutureNeedsHeader, FutureNeedCells(x), "Description") == Some(Str(x.description))
    ensures CellUnder(FutureNeedsHeader, FutureNeedCells(x), "Category") == Some(Str(x.category))
    ensures CellUnder(FutureNeedsHeader, FutureNeedCells(x), "Month") == Some(Str(x.month))
    ensures CellUnder(FutureNeedsHeader, FutureNeedCells(x), "Total Amount (PKR)") == Some(Number(x.amount))
    ensures CellUnder(FutureNeedsHeader, FutureNeedCells(x), "Type") == Some(Str(x.kind))
  {
    FutureNeedsHeadings();
    CellUnderAt(FutureNeedsHeader, FutureNeedCells(x), "Description", 0);
    CellUnderAt(FutureNeedsHeader, FutureNeedCells(x), "Category", 1);
    CellUnderAt(FutureNeedsHeader, FutureNeedCells(x), "Month", 2);
    CellUnderAt(FutureNeedsHeader, FutureNeedCells(x), "Total Amount (PKR)", 3);
    CellUnderAt(FutureNeedsHeader, FutureNeedCells(x), "Type", 4);
  }

  /** A module's sheet if the module is selected, nothing otherwise. */
  function SheetIf(selected: seq<string>, id: string, name: string, rows: seq<Row>): seq<Sheet> {
    if id in selected then [Sheet(name, rows)] else []
  }

  /** The module id and the sheet name of each `if` of the chain, in order. */
  const SheetTitles: seq<(string, string)> := [
    ("sales", "Sales"), ("expenses", "Expenses"), ("liabilities", "Liabilities"), ("salaries", "Salaries"),
    ("cashflow", "Cash Flow"), ("bankPdc", "Bank PDC"), ("businessInHand", "Business In Hand"),
    ("futureNeeds", "Future Needs")]

  /**
   * The row arrays of the eight module sheets, in the same order: each is a rectangular
   * table with one row per exported record.
   */
  function ModuleTables(d: Data, toFixed: Fixed2): (r: seq<seq<Row>>)
    ensures |r| == |SheetTitles|
    ensures forall k :: 0 <= k < |r| ==> Rectangular(r[k])
    ensures |r[0]| == 1 + |d.sales| && |r[1]| == 1 + |d.expenses| && |r[2]| == 1 + |d.liabilities|
    ensures |r[3]| == 1 + |d.salaries| && |r[4]| == 1 + |d.cashflow| && |r[5]| == 1 + |d.bankPdc|
    ensures |r[6]| == 1 + |d.businessInHand| && |r[7]| == 1 + |d.futureNeeds|
    ensures r[0][0] == SalesHeader && forall i :: 0 <= i < |d.sales| ==> r[0][i + 1] == SaleCells(toFixed)(d.sales[i])
    ensures r[1][0] == ExpensesHeader && forall i :: 0 <= i < |d.expenses| ==> r[1][i + 1] == ExpenseCells(d.expenses[i])
    ensures r[2][0] == LiabilitiesHeader
    ensures forall i :: 0 <= i < |d.liabilities| ==> r[2][i + 1] == LiabilityCells(d.liabilities[i])
    ensures r[3][0] == SalariesHeader && forall i :: 0 <= i < |d.salaries| ==> r[3][i + 1] == SalaryCells(d.salaries[i])
    ensures r[4][0] == CashflowHeader && forall i :: 0 <= i < |d.cashflow| ==> r[4][i + 1] == CashflowCells(d.cashflow[i])
    ensures r[5][0] == BankPdcHeader && forall i :: 0 <= i < |d.bankPdc| ==> r[5][i + 1] == BankPdcCells(d.bankPdc[i])
    ensures r[6][0] == BusinessInHandHeader
    ensures forall i :: 0 <= i < |d.businessInHand| ==> r[6][i + 1] == BusinessInHandCells(d.businessInHand[i])
    ensures r[7][0] == FutureNeedsHeader
    ensures forall i :: 0 <= i < |d.futureNeeds| ==> r[7][i + 1] == FutureNeedCells(d.futureNeeds[i])
  {
    TableIsRectangular(SalesHeader, d.sales, SaleCells(toFixed));
    TableIsRectangular(ExpensesHeader, d.expenses, ExpenseCells);
    TableIsRectangular(LiabilitiesHeader, d.liabilities, LiabilityCells);
    TableIsRectangular(SalariesHeader, d.salaries, SalaryCells);
    TableIsRectangular(CashflowHeader, d.cashflow, CashflowCells);
    TableIsRectangular(BankPdcHeader, d.bankPdc, BankPdcCells);
    TableIsRectangular(BusinessInHandHeader, d.businessInHand, BusinessInHandCells);
    TableIsRectangular(FutureNeedsHeader, d.futureNeeds, FutureNeedCells);
    [Table(SalesHeader, d.sales, SaleCells(toFixed)), Table(ExpensesHeader, d.expenses, ExpenseCells),
     Table(LiabilitiesHeader, d.liabilities, LiabilityCells), Table(SalariesHeader, d.salaries, SalaryCells),
     Table(CashflowHeader, d.cashflow, CashflowCells), Table(BankPdcHeader, d.bankPdc, BankPdcCells),
     Table(BusinessInHandHeader, d.businessInHand, BusinessInHandCells),
     Table(FutureNeedsHeader, d.futureNeeds, FutureNeedCells)]
  }

  /** The workbook after the summary and the first `k` steps of the `if` chain. */
  function Appended(selected: seq<string>, summary: Sheet, tables: seq<seq<Row>>, k: nat): (r: seq<Sheet>)
    requires k <= |tables| && k <= |SheetTitles|
    ensures |r| >= 1 && r[0] == summary
  {
    if k == 0 then [summary]
    else Appended(selected, summary, tables, k - 1)
         + SheetIf(selected, SheetTitles[k - 1].0, SheetTitles[k - 1].1, tables[k - 1])
  }

  /** The whole workbook `generateExcel` writes. */
  function WorkbookSheets(selected: seq<string>, e: ExportData, toLocale: Localizer, toFixed: Fixed2): seq<Sheet> {
    Appended(selected, Sheet("Summary", SummaryRows(e, toLocale)), ModuleTables(e.data, toFixed), 8)
  }

  /** The titles of the selected modules, keeping the order of `titles`. */
  function SelectedTitles(selected: seq<string>, titles: seq<(string, string)>): (r: seq<string>)
    ensures |r| <= |titles|
  {
    if titles == [] then []
    else (if titles[0].0 in selected then [titles[0].1] else []) + SelectedTitles(selected, titles[1..])
  }

  lemma {:induction false} SelectedTitlesAppend(selected: seq<string>, a: seq<(string, string)>, b: seq<(string, string)>)
    ensures SelectedTitles(selected, a + b) == SelectedTitles(selected, a) + SelectedTitles(selected, b)
  {
    if a == [] {
      assert a + b == b;
    } else {
      assert (a + b)[0] == a[0];
      assert (a + b)[1..] == a[1..] + b;
      SelectedTitlesAppend(selected, a[1..], b);
    }
  }

  /** A title whose module is selected makes the list of selected titles non-empty. */
  lemma {:induction false} SelectedTitlesNonEmpty(selected: seq<string>, titles: seq<(string, string)>, j: nat)
    requires j < |titles| && titles[j].0 in selected
    ensures |SelectedTitles(selected, titles)| > 0
  {
    if j > 0 && titles[0].0 !in selected {
      assert titles[1..][j - 1] == titles[j];
      SelectedTitlesNonEmpty(selected, titles[1..], j - 1);
    }
  }

  /** The chain's module ids are the checklist's ids, in the same order. */
  lemma SheetTitlesAreModules()
    ensures |SheetTitles| == |AllModules| && forall j :: 0 <= j < |SheetTitles| ==> SheetTitles[j].0 == AllModules[j]
  {
  }

  lemma {:induction false} AppendedNames(selected: seq<string>, summary: Sheet, tables: seq<seq<Row>>, k: nat)
    requires k <= |tables| && k <= |SheetTitles|
    ensures Names(Appended(selected, summary, tables, k)) == [summary.name] + SelectedTitles(selected, SheetTitles[..k])
  {
    if k > 0 {
      var prev := Appended(selected, summary, tables, k - 1);
      var step := SheetIf(selected, SheetTitles[k - 1].0, SheetTitles[k - 1].1, tables[k - 1]);
      AppendedNames(selected, summary, tables, k - 1);
      NamesAppend(prev, step);
      SheetIfNames(selected, SheetTitles[k - 1], tables[k - 1]);
      SelectedTitlesStep(selected, k);
    }
  }

  /** One `if` of the chain names its sheet exactly when its module is selected. */
  lemma SheetIfNames(selected: seq<string>, title: (string, string), rows: seq<Row>)
    ensures Names(SheetIf(selected, title.0, title.1, rows)) == SelectedTitles(selected, [title])
  {
    assert SelectedTitles(selected, [title]) == (if title.0 in selected then [title.1] else []) + SelectedTitles(selected, []);
  }

  lemma SelectedTitlesStep(selected: seq<string>, k: nat)
    requires 0 < k <= |SheetTitles|
    ensures SelectedTitles(selected, SheetTitles[..k])
         == SelectedTitles(selected, SheetTitles[..k - 1]) + SelectedTitles(selected, [SheetTitles[k - 1]])
  {
    assert SheetTitles[..k] == SheetTitles[..k - 1] + [SheetTitles[k - 1]];
    SelectedTitlesAppend(selected, SheetTitles[..k - 1], [SheetTitles[k - 1]]);
  }

  /**
   * The workbook starts with the summary and then holds a sheet for exactly the selected
   * modules, in the fixed order sales, expenses, liabilities, salaries, cash flow, bank
   * PDC, business in hand, future needs.
   */
  lemma SheetOrder(selected: seq<string>, e: ExportData, toLocale: Localizer, toFixed: Fixed2)
    ensures Names(WorkbookSheets(selected, e, toLocale, toFixed)) == ["Summary"] + SelectedTitles(selected, SheetTitles)
  {
    AppendedNames(selected, Sheet("Summary", SummaryRows(e, toLocale)), ModuleTables(e.data, toFixed), 8);
    assert SheetTitles[..8] == SheetTitles;
  }

  /** A sheet appended by one step of the chain: a selected module's table under its name. */
  predicate IsModuleSheet(selected: seq<string>, tables: seq<seq<Row>>, s: Sheet) {
    exists j :: 0 <= j < |tables| && j < |SheetTitles| && SheetTitles[j].0 in selected
      && s == Sheet(SheetTitles[j].1, tables[j])
  }

  lemma {:induction false} AppendedSheets(selected: seq<string>, summary: Sheet, tables: seq<seq<Row>>, k: nat)
    requires k <= |tables| && k <= |SheetTitles|
    ensures forall i :: 1 <= i < |Appended(selected, summary, tables, k)| ==>
      IsModuleSheet(selected, tables, Appended(selected, summary, tables, k)[i])
  {
    if k > 0 {
      AppendedSheets(selected, summary, tables, k - 1);
      var prev := Appended(selected, summary, tables, k - 1);
      var w := Appended(selected, summary, tables, k);
      forall i | 1 <= i < |w| ensures IsModuleSheet(selected, tables, w[i]) {
        if i < |prev| {
          assert w[i] == prev[i];
          assert IsModuleSheet(selected, tables, prev[i]);
        } else {
          assert SheetTitles[k - 1].0 in selected;
          assert w[i] == Sheet(SheetTitles[k - 1].1, tables[k - 1]);
        }
      }
    }
  }

  /**
   * Every sheet after the summary is the table of a selected module under that module's
   * name: a header row as wide as each data row, and one data row per exported record.
   */
  lemma ModuleSheetsAreTables(selected: seq<string>, e: ExportData, toLocale: Localizer, toFixed: Fixed2, w: seq<Sheet>)
    requires w == WorkbookSheets(selected, e, toLocale, toFixed)
    ensures w[0] == Sheet("Summary", SummaryRows(e, toLocale))
    ensures forall i :: 1 <= i < |w| ==> IsModuleSheet(selected, ModuleTables(e.data, toFixed), w[i])
    ensures forall i :: 1 <= i < |w| ==> Rectangular(w[i].rows)
  {
    var tables := ModuleTables(e.data, toFixed);
    AppendedSheets(selected, Sheet("Summary", SummaryRows(e, toLocale)), tables, 8);
    forall i | 1 <= i < |w| ensures Rectangular(w[i].rows) {
      assert IsModuleSheet(selected, tables, w[i]);
      var j :| 0 <= j < |tables| && j < |SheetTitles| && SheetTitles[j].0 in selected
               && w[i] == Sheet(SheetTitles[j].1, tables[j]);
    }
  }

  /** One `if` of the chain: append the module's sheet when the module is selected. */
  method AppendIfSelected(wb: Workbook, selected: seq<string>, id: string, name: string, rows: seq<Row>)
    modifies wb
    ensures wb.sheets == old(wb.sheets) + SheetIf(selected, id, name, rows)
  {
    if id in selected {
      wb.AppendSheet(rows, name);
    }
  }

  /** The eight `if`s of `generateExcel`, in order, after the summary sheet. */
  method AppendModuleSheets(wb: Workbook, selected: seq<string>, summary: Sheet, tables: seq<seq<Row>>)
    requires |tables| == 8 && wb.sheets == [summary]
    modifies wb
    ensures wb.sheets == Appended(selected, summary, tables, 8)
  {
    // `done` counts the steps of the chain taken so far.
    ghost var done := 0;
    assert wb.sheets == Appended(selected, summary, tables, done);
    AppendIfSelected(wb, selected, "sales", "Sales", tables[0]);
    done := done + 1;
    assert wb.sheets == Appended(selected, summary, tables, done);
    AppendIfSelected(wb, selected, "expenses", "Expenses", tables[1]);
    done := done + 1;
    assert wb.sheets == Appended(selected, summary, tables, done);
    AppendIfSelected(wb, selected, "liabilities", "Liabilities", tables[2]);
    done := done + 1;
    assert wb.sheets == Appended(selected, summary, tables, done);
    AppendIfSelected(wb, selected, "salaries", "Salaries", tables[3]);
    done := done + 1;
    assert wb.sheets == Appended(selected, summary, tables, done);
    AppendIfSelected(wb, selected, "cashflow", "Cash Flow", tables[4]);
    done := done + 1;
    assert wb.sheets == Appended(selected, summary, tables, done);
    AppendIfSelected(wb, selected, "bankPdc", "Bank PDC", tables[5]);
    done := done + 1;
    assert wb.sheets == Appended(selected, summary, tables, done);
    AppendIfSelected(wb, selected, "businessInHand", "Business In Hand", tables[6]);
    done := done + 1;
    assert wb.sheets == Appended(selected, summary, tables, done);
    AppendIfSelected(wb, selected, "futureNeeds", "Future Needs", tables[7]);
    done := done + 1;
    assert wb.sheets == Appended(selected, summary, tables, done);
  }

  /** `generateExcel`: nothing without data; otherwise the summary and module sheets, saved under a stamped name. */
  method GenerateExcel(exportData: Option<ExportData>, selected: seq<string>, isoNow: string,
                       toLocale: Localizer, toFixed: Fixed2) returns (file: Option<SavedFile>)
    ensures exportData.None? ==> file.None?
    ensures exportData.Some? ==> file == Some(SavedFile(
      StampedFileName("finance-tracker-export-", isoNow), WorkbookSheets(selected, exportData.value, toLocale, toFixed)))
  {
    if exportData.None? {
      return None;
    }
    var e := exportData.value;
    var d := e.data;
    var rows := SummaryRows(e, toLocale);
    var tables := ModuleTables(d, toFixed);
    var wb := new Workbook();
    wb.AppendSheet(rows, "Summary");
    AppendModuleSheets(wb, selected, Sheet("Summary", rows), tables);
    file := Some(SavedFile(StampedFileName("finance-tracker-export-", isoNow), wb.sheets));
  }

  datatype Format = Excel | Pdf

  /** The dialog's state: whether it is open, the chosen format, the checklist and the date inputs. */
  class DialogState {
    var isOpen: bool
    var exportFormat: Format
    var selectedModules: seq<string>
    var dateRange: DateInput

    /** A dialog starts closed, on Excel, with the given modules (all when none are given) and no dates. */
    constructor (defaultModules: Option<seq<string>>)
      ensures !isOpen && exportFormat == Excel && dateRange == DateInput("", "")
      ensures selectedModules == defaultModules.GetOr(AllModules)
    {
      isOpen := false;
      exportFormat := Excel;
      selectedModules := defaultModules.GetOr(ModuleIds());
      dateRange := DateInput("", "");
    }

    /** The arguments of the live query. */
    function Query(): Args
      reads this
    {
      QueryArgs(dateRange, selectedModules)
    }

    /** The export button is enabled once data has arrived and at least one module is checked. */
    predicate ExportEnabled(dataLoaded: bool)
      reads this
    {
      dataLoaded && |selectedModules| > 0
    }

    /**
     * An enabled button has data to export, and when the checked ids are the checklist's the
     * workbook holds the summary and at least one module sheet.
     */
    lemma EnabledExportWritesModuleSheet(exportData: Option<ExportData>, toLocale: Localizer, toFixed: Fixed2)
      requires ExportEnabled(exportData.Some?)
      requires forall m :: m in selectedModules ==> m in AllModules
      ensures exportData.Some?
      ensures |WorkbookSheets(selectedModules, exportData.value, toLocale, toFixed)| >= 2
    {
      var m := selectedModules[0];
      assert m in AllModules;
      var j :| 0 <= j < |AllModules| && AllModules[j] == m;
      SheetTitlesAreModules();
      SelectedTitlesNonEmpty(selectedModules, SheetTitles, j);
      SheetOrder(selectedModules, exportData.value, toLocale, toFixed);
    }

    method HandleModuleToggle(id: string)
      modifies this
      ensures selectedModules == Toggle(old(selectedModules), id)
      ensures isOpen == old(isOpen) && exportFormat == old(exportFormat) && dateRange == old(dateRange)
    {
      selectedModules := Toggle(selectedModules, id);
    }

    method SetStartDate(value: string)
      modifies this
      ensures dateRange == old(dateRange).(startDate := value)
      ensures isOpen == old(isOpen) && exportFormat == old(exportFormat) && selectedModules == old(selectedModules)
    {
      dateRange := dateRange.(startDate := value);
    }

    method SetEndDate(value: string)
      modifies this
      ensures dateRange == old(dateRange).(endDate := value)
      ensures isOpen == old(isOpen) && exportFormat == old(exportFormat) && selectedModules == old(selectedModules)
    {
      dateRange := dateRange.(endDate := value);
    }

    method SetExportFormat(value: Format)
      modifies this
      ensures exportFormat == value
      ensures isOpen == old(isOpen) && dateRange == old(dateRange) && selectedModules == old(selectedModules)
    {
      exportFormat := value;
    }

    /**
     * `handleExport`: both formats write the same Excel workbook (the PDF path falls back
     * on it), and a successful export closes the dialog.
     */
    method HandleExport(exportData: Option<ExportData>, isoNow: string, toLocale: Localizer, toFixed: Fixed2)
      returns (file: Option<SavedFile>)
      modifies this
      ensures exportData.None? ==> file.None? && isOpen == old(isOpen)
      ensures exportData.Some? ==> !isOpen && file == Some(SavedFile(
        StampedFileName("finance-tracker-export-", isoNow),
        WorkbookSheets(selectedModules, exportData.value, toLocale, toFixed)))
      ensures exportFormat == old(exportFormat) && dateRange == old(dateRange)
      ensures selectedModules == old(selectedModules)
    {
      file := GenerateExcel(exportData, selectedModules, isoNow, toLocale, toFixed);
      if exportData.Some? {
        isOpen := false;
      }
    }
  }
}
