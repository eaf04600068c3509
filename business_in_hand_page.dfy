/**
 * The business-in-hand page (client/src/pages/business-in-hand.tsx): its one-sheet Excel
 * export, the type and status labels it shows, and the form state behind the add and
 * edit dialog.
 */
module BusinessInHandPage {
  import opened Wrappers
  import opened Records
  import opened CurrencyUtils
  import opened Spreadsheet

  const Header: Row := [Str("Type"), Str("Description"), Str("Amount (PKR)"), Str("Expected Date"), Str("Status"), Str("Currency")]

  function ExpectedDate(b: BusinessInHandRecord): string { b.expectedDate }

  /** A data row: the stored fields in header order, the date formatted, the currency defaulted. */
  function RecordCells(format: DateFormatter): BusinessInHandRecord -> Row {
    (b: BusinessInHandRecord) => [Str(b.kind), Str(b.description), Number(b.amount),
                                  Str(format(b.expectedDate).GetOr("")), Str(b.status), Str(OrElse(b.currency, "PKR"))]
  }

  /**
   * `exportBusinessInHandToExcel(records)`: once xlsx has loaded and every expected date
   * formats, one "Business in Hand" sheet saved as `business-in-hand-data-<stamp>.xlsx`.
   */
  function ExportBusinessInHandToExcel(records: seq<BusinessInHandRecord>, xlsxLoaded: bool, format: DateFormatter,
                                       isoNow: string): (r: Option<SavedFile>)
    ensures r.Some? <==> xlsxLoaded && AllFormattable(records, ExpectedDate, format)
    ensures r.Some? ==>
      && r.value.filename == StampedFileName("business-in-hand-data-", isoNow)
      && |r.value.sheets| == 1 && r.value.sheets[0].name == "Business in Hand"
      && |r.value.sheets[0].rows| == 1 + |records| && r.value.sheets[0].rows[0] == Header
      && Rectangular(r.value.sheets[0].rows)
      && forall i :: 0 <= i < |records| ==>
           r.value.sheets[0].rows[i + 1] == [Str(records[i].kind), Str(records[i].description), Number(records[i].amount),
             Str(format(records[i].expectedDate).value), Str(records[i].status), Str(OrElse(records[i].currency, "PKR"))]
  {
    if xlsxLoaded && AllFormattable(records, ExpectedDate, format) then
      TableIsRectangular(Header, records, RecordCells(format));
      assert forall i :: 0 <= i < |records| ==> format(ExpectedDate(records[i])).Some?;
      Some(SavedFile(StampedFileName("business-in-hand-data-", isoNow),
                     [Sheet("Business in Hand", Table(Header, records, RecordCells(format)))]))
    else None
  }

  /** The Currency column: the record's currency where it is set, "PKR" otherwise. */
  lemma CurrencyColumn(records: seq<BusinessInHandRecord>, format: DateFormatter, isoNow: string, i: nat)
    requires i < |records| && AllFormattable(records, ExpectedDate, format)
    ensures var rows := ExportBusinessInHandToExcel(records, true, format, isoNow).value.sheets[0].rows;
      && (Truthy(records[i].currency) ==> rows[i + 1][5] == Str(records[i].currency.value))
      && (!Truthy(records[i].currency) ==> rows[i + 1][5] == Str("PKR"))
  {
  }

  /** `allBusiness && allBusiness.length > 0`. */
  predicate HasData(records: Option<seq<BusinessInHandRecord>>) {
    records.Some? && |records.value| > 0
  }

  /** `handleExport`: the exporter runs only for a loaded, non-empty list. */
  function HandleExport(records: Option<seq<BusinessInHandRecord>>, xlsxLoaded: bool, format: DateFormatter,
                        isoNow: string): (r: Option<SavedFile>)
    ensures !HasData(records) ==> r.None?
    ensures HasData(records) ==> r == ExportBusinessInHandToExcel(records.value, xlsxLoaded, format, isoNow)
    ensures r.Some? ==> |r.value.sheets[0].rows| >= 2
  {
    if HasData(records) then ExportBusinessInHandToExcel(records.value, xlsxLoaded, format, isoNow) else None
  }

  /** `getTypeBadge`'s label map; an unknown type has no label (`undefined`). */
  function TypeLabel(kind: string): (r: Option<string>)
    ensures r.Some? <==> kind in {"po_in_hand", "pending_invoice", "expected_revenue"}
  {
    if kind == "po_in_hand" then Some("PO in Hand")
    else if kind == "pending_invoice" then Some("Pending Invoice")
    else if kind == "expected_revenue" then Some("Expected Revenue")
    else None
  }

  /** The three labels the badge shows, and no label for any other type. */
  lemma TypeLabelTexts(kind: string)
    ensures TypeLabel("po_in_hand") == Some("PO in Hand")
    ensures TypeLabel("pending_invoice") == Some("Pending Invoice")
    ensures TypeLabel("expected_revenue") == Some("Expected Revenue")
    ensures kind !in {"po_in_hand", "pending_invoice", "expected_revenue"} ==> TypeLabel(kind) == None
  {
  }

  /** Different types never share a label. */
  lemma TypeLabelsDistinct(a: string, b: string)
    requires TypeLabel(a).Some? && TypeLabel(a) == TypeLabel(b)
    ensures a == b
  {
  }

  /** `toUpperCase` on one character, for the ASCII letters. */
  function UpperAscii(c: char): char {
    if 'a' <= c <= 'z' then (c as int - 'a' as int + 'A' as int) as char else c
  }

  /** `s.charAt(0).toUpperCase() + s.slice(1)`. */
  function Capitalize(s: string): (r: string)
    ensures |r| == |s|
    ensures |s| > 0 ==> r[0] == UpperAscii(s[0]) && r[1..] == s[1..]
    ensures |s| > 0 && 'a' <= s[0] <= 'z' ==> 'A' <= r[0] <= 'Z'
  {
    if s == [] then [] else [UpperAscii(s[0])] + s[1..]
  }

  lemma CapitalizeIdempotent(s: string)
    ensures Capitalize(Capitalize(s)) == Capitalize(s)
  {
  }

  /**
   * `getStatusBadge`: the capitalised status for the three configured statuses; any
   * other status has no configuration and the badge throws, shown here as `None`.
   */
  function StatusBadge(status: string): (r: Option<string>)
    ensures r.Some? <==> status in {"pending", "confirmed", "received"}
    ensures r.Some? ==> r.value == Capitalize(status)
  {
    if status in {"pending", "confirmed", "received"} then Some(Capitalize(status)) else None
  }

  lemma StatusBadgeTexts()
    ensures StatusBadge("pending") == Some("Pending")
    ensures StatusBadge("confirmed") == Some("Confirmed")
    ensures StatusBadge("received") == Some("Received")
  {
    assert UpperAscii('p') == 'P' && UpperAscii('c') == 'C' && UpperAscii('r') == 'R';
    assert Capitalize("pending") == ['P'] + "ending" == "Pending";
    assert Capitalize("confirmed") == ['C'] + "onfirmed" == "Confirmed";
    assert Capitalize("received") == ['R'] + "eceived" == "Received";
  }

  /** The dialog's form fields: everything but the currency. */
  datatype BusinessForm = BusinessForm(kind: string, description: string, amount: int, expectedDate: string, status: string)

  /** `initialFormData`. */
  const InitialForm := BusinessForm("po_in_hand", "", 0, "", "pending")

  /** The five fields `handleEdit` copies. */
  function FormOf(b: BusinessInHandRecord): (f: BusinessForm)
    ensures f.kind == b.kind && f.description == b.description && f.amount == b.amount
    ensures f.expectedDate == b.expectedDate && f.status == b.status
  {
    BusinessForm(b.kind, b.description, b.amount, b.expectedDate, b.status)
  }

  /** Only the currency is lost between a record and its edit form. */
  lemma EditFormKeepsAllButCurrency(a: BusinessInHandRecord, b: BusinessInHandRecord)
    ensures FormOf(a) == FormOf(b) <==> a.(currency := b.currency) == b
  {
  }

  datatype SaveRequest = Create(form: BusinessForm) | Update(id: Id, form: BusinessForm)

  /** The page state: the dialog, the record being edited (if any) and the form. */
  class PageState {
    var isDialogOpen: bool
    var editing: Option<Id>
    var formData: BusinessForm

    constructor ()
      ensures !isDialogOpen && editing.None? && formData == InitialForm
    {
      isDialogOpen := false;
      editing := None;
      formData := InitialForm;
    }

    /** `handleEdit`: edit this record, with its five form fields copied in. */
    method HandleEdit(id: Id, b: BusinessInHandRecord)
      modifies this
      ensures editing == Some(id) && formData == FormOf(b) && isDialogOpen
    {
      editing := Some(id);
      formData := FormOf(b);
      isDialogOpen := true;
    }

    /**
     * The "Add Business Record" button: its click handler clears the edited record and
     * resets the form, and the dialog trigger around it opens the dialog.
     */
    method HandleAddNew()
      modifies this
      ensures editing.None? && formData == InitialForm && isDialogOpen
    {
      editing := None;
      formData := InitialForm;
      isDialogOpen := true;
    }

    /** The amount input: `parseFloat(text) || 0`. */
    method SetAmountInput(text: string, parseFloat: string -> JsValue)
      modifies this
      ensures formData == old(formData).(amount := OrZero(parseFloat(text)))
      ensures !parseFloat(text).Num? ==> formData.amount == 0
      ensures isDialogOpen == old(isDialogOpen) && editing == old(editing)
    {
      formData := formData.(amount := OrZero(parseFloat(text)));
    }

    /**
     * `handleSubmit`: an update of the edited record with the five form fields, or a
     * creation; on success the dialog closes and the form is reset, on failure nothing changes.
     */
    method HandleSubmit(succeeded: bool) returns (request: SaveRequest)
      modifies this
      ensures old(editing).Some? ==> request == Update(old(editing).value, old(formData))
      ensures old(editing).None? ==> request == Create(old(formData))
      ensures succeeded ==> !isDialogOpen && editing.None? && formData == InitialForm
      ensures !succeeded ==>
        isDialogOpen == old(isDialogOpen) && editing == old(editing) && formData == old(formData)
    {
      if editing.Some? {
        request := Update(editing.value, formData);
      } else {
        request := Create(formData);
      }
      if succeeded {
        isDialogOpen := false;
        editing := None;
        formData := InitialForm;
      }
    }
  }
}
