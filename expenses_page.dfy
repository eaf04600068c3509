/**
 * The expenses page (client/src/pages/expenses.tsx): its one-sheet Excel export and the
 * form state behind the add and edit dialog. The xlsx import, date formatting, the clock
 * and `parseFloat` are parameters; the mutations are returned as requests.
 */
module ExpensesPage {
  import opened Wrappers
  import opened Text
  import opened Records
  import opened CurrencyUtils
  import opened Spreadsheet

  const Header: Row := [Str("Date"), Str("Category"), Str("Description"), Str("Vendor"), Str("Amount (PKR)"), Str("Status")]

  function ExpenseDate(x: Expense): string { x.date }

  /** A data row: the formatted date and then the stored fields in header order. */
  function ExpenseCells(format: DateFormatter): Expense -> Row {
    (x: Expense) => [Str(format(x.date).GetOr("")), Str(x.category), Str(x.description), Str(x.vendor),
                     Number(x.amount), Str(x.status)]
  }

  /**
   * `exportExpensesToExcel(expenses)`: once the xlsx module has loaded and no date fails
   * to format, a workbook with one "Expenses" sheet saved as `expenses-data-<stamp>.xlsx`;
   * otherwise (the import is rejected, or `format` throws) nothing is written.
   */
  function ExportExpensesToExcel(expenses: seq<Expense>, xlsxLoaded: bool, format: DateFormatter, isoNow: string)
    : (r: Option<SavedFile>)
    ensures r.Some? <==> xlsxLoaded && AllFormattable(expenses, ExpenseDate, format)
    ensures r.Some? ==>
      && r.value.filename == StampedFileName("expenses-data-", isoNow)
      && |r.value.sheets| == 1 && r.value.sheets[0].name == "Expenses"
      && |r.value.sheets[0].rows| == 1 + |expenses| && r.value.sheets[0].rows[0] == Header
      && Rectangular(r.value.sheets[0].rows)
      && forall i :: 0 <= i < |expenses| ==>
           r.value.sheets[0].rows[i + 1] == [Str(format(expenses[i].date).value), Str(expenses[i].category),
             Str(expenses[i].description), Str(expenses[i].vendor), Number(expenses[i].amount), Str(expenses[i].status)]
  {
    if xlsxLoaded && AllFormattable(expenses, ExpenseDate, format) then
      TableIsRectangular(Header, expenses, ExpenseCells(format));
      var table := Table(Header, expenses, ExpenseCells(format));
      assert forall i :: 0 <= i < |expenses| ==> format(ExpenseDate(expenses[i])).Some?;
      Some(SavedFile(StampedFileName("expenses-data-", isoNow), [Sheet("Expenses", table)]))
    else None
  }

  /** `expenses && expenses.length > 0`: the list has arrived and is not empty. */
  predicate HasData(expenses: Option<seq<Expense>>) {
    expenses.Some? && |expenses.value| > 0
  }

  /**
   * `handleExport`: the exporter runs only for a loaded, non-empty list, so a written
   * file always holds at least one data row.
   */
  function HandleExport(expenses: Option<seq<Expense>>, xlsxLoaded: bool, format: DateFormatter, isoNow: string)
    : (r: Option<SavedFile>)
    ensures !HasData(expenses) ==> r.None?
    ensures HasData(expenses) ==> r == ExportExpensesToExcel(expenses.value, xlsxLoaded, format, isoNow)
    ensures r.Some? ==> |r.value.sheets[0].rows| >= 2
  {
    if HasData(expenses) then ExportExpensesToExcel(expenses.value, xlsxLoaded, format, isoNow) else None
  }

  /** The export button is enabled exactly when `handleExport` would call the exporter. */
  predicate ExportButtonEnabled(expenses: Option<seq<Expense>>) {
    !(expenses.None? || |expenses.value| == 0)
  }

  lemma ExportButtonMatchesHandler(expenses: Option<seq<Expense>>)
    ensures ExportButtonEnabled(expenses) <==> HasData(expenses)
    ensures !ExportButtonEnabled(expenses) ==>
      forall loaded, format, isoNow :: HandleExport(expenses, loaded, format, isoNow).None?
  {
  }

  /** The dialog's form fields. */
  datatype ExpenseForm = ExpenseForm(
    date: string, category: string, description: string, vendor: string, amount: int, status: string)

  /**
   * `initialFormData`, fixed when the module loads: the date part of that moment's ISO
   * timestamp, empty text fields, amount 0 and status "unpaid".
   */
  function InitialForm(loadTimeIso: string): (r: ExpenseForm)
    ensures r.date <= loadTimeIso && 'T' !in r.date
    ensures |r.date| < |loadTimeIso| ==> loadTimeIso[|r.date|] == 'T'
    ensures r.category == "" && r.description == "" && r.vendor == ""
    ensures r.amount == 0 && r.status == "unpaid"
  {
    ExpenseForm(BeforeFirst(loadTimeIso, 'T'), "", "", "", 0, "unpaid")
  }

  function FormOf(x: Expense): ExpenseForm {
    ExpenseForm(x.date, x.category, x.description, x.vendor, x.amount, x.status)
  }

  /** The mutation `handleSubmit` issues. */
  datatype SaveRequest = Create(form: ExpenseForm) | Update(id: Id, form: ExpenseForm)

  /** The page state: the dialog, the expense being edited (if any) and the form. */
  class PageState {
    var isDialogOpen: bool
    var editing: Option<Id>
    var formData: ExpenseForm
    const initialForm: ExpenseForm

    constructor (loadTimeIso: string)
      ensures initialForm == InitialForm(loadTimeIso)
      ensures !isDialogOpen && editing.None? && formData == initialForm
    {
      initialForm := InitialForm(loadTimeIso);
      isDialogOpen := false;
      editing := None;
      formData := InitialForm(loadTimeIso);
    }

    /** `handleEdit`: edit this expense, with all six of its fields in the form. */
    method HandleEdit(id: Id, x: Expense)
      modifies this
      ensures editing == Some(id) && formData == FormOf(x) && isDialogOpen
    {
      editing := Some(id);
      formData := FormOf(x);
      isDialogOpen := true;
    }

    /** `handleAddNew`: a fresh form in a newly opened dialog. */
    method HandleAddNew()
      modifies this
      ensures editing.None? && formData == initialForm && isDialogOpen
    {
      editing := None;
      formData := initialForm;
      isDialogOpen := true;
    }

    /**
     * The amount input: `parseFloat(text) || 0`, so text that does not parse (or parses
     * to NaN) sets the amount to 0. Nothing else in the form changes.
     */
    method SetAmountInput(text: string, parseFloat: string -> JsValue)
      modifies this
      ensures formData == old(formData).(amount := OrZero(parseFloat(text)))
      ensures !parseFloat(text).Num? ==> formData.amount == 0
      ensures isDialogOpen == old(isDialogOpen) && editing == old(editing)
    {
      formData := formData.(amount := OrZero(parseFloat(text)));
    }

    /**
     * `handleSubmit`: an update of the edited expense with the whole form, or a creation.
     * When the mutation succeeds the dialog closes and the form is reset; when it fails
     * nothing changes.
     */
    method HandleSubmit(succeeded: bool) returns (request: SaveRequest)
      modifies this
      ensures old(editing).Some? ==> request == Update(old(editing).value, old(formData))
      ensures old(editing).None? ==> request == Create(old(formData))
      ensures succeeded ==> !isDialogOpen && editing.None? && formData == initialForm
      ensures !succeeded ==>
        isDialogOpen == old(isDialogOpen) && editing == old(editing) && formData == old(formData)
    {
      if editing.Some? {
        request := Update(editing.value, formData);
      } else {
        request := Create(formData);
      }
      if succeeded {
        isDialogOpen := false;
        editing := None;
        formData := initialForm;
      }
    }
  }

  /** The expense a submitted form describes. */
  function ExpenseOf(f: ExpenseForm): Expense {
    Expense(f.date, f.category, f.description, f.vendor, f.amount, f.status)
  }

  /**
   * The edit form carries every field of the expense: submitting it unchanged describes
   * the same expense, and each form is the edit form of the expense it describes.
   */
  lemma EditFormRoundTrip(x: Expense, f: ExpenseForm)
    ensures ExpenseOf(FormOf(x)) == x
    ensures FormOf(ExpenseOf(f)) == f
  {
  }
}
