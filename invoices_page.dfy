/**
 * The invoice list and editor page (frontend/src/pages/Invoices.jsx): the
 * search and status filter over the listed invoices, which invoices may be
 * edited or paid, how the editor's items become the saved payload, adding
 * and removing editor rows, and the phone number handed to WhatsApp.
 * Statuses are the strings the API returns; the numeric coercions
 * (`Number(x) || 0`) and the totals shown are left out.
 */
module InvoicesPage {
  import opened Common
  import PhoneInput

  /** An invoice as the list endpoint returns it. */
  datatype Listed = Listed(id: nat, number: string, clientName: string, status: string,
                           clientPhone: string, sentAt: Option<int>)

  // ---------------------------------------------------------------------------
  // List filter

  predicate MatchesSearch(inv: Listed, term: string)
  {
    IncludesIgnoringCase(inv.number, term) || IncludesIgnoringCase(inv.clientName, term)
  }

  predicate MatchesStatus(inv: Listed, statusFilter: string)
  {
    statusFilter == "all" || inv.status == statusFilter
  }

  /** `filteredInvoices`: nothing before the list loads, then the invoices matching both the search and the status. */
  function FilteredInvoices(invoices: Option<seq<Listed>>, term: string, statusFilter: string): (r: seq<Listed>)
    ensures invoices.None? ==> r == []
    ensures invoices.Some? ==>
              forall inv :: inv in r <==> inv in invoices.value && MatchesSearch(inv, term) && MatchesStatus(inv, statusFilter)
  {
    if invoices.None? then []
    else Filter(invoices.value, (inv: Listed) => MatchesSearch(inv, term) && MatchesStatus(inv, statusFilter))
  }

  /** With an empty search and the "all" filter every loaded invoice is listed, in order. */
  lemma {:induction false} NoFilterListsAll(invoices: seq<Listed>)
    ensures FilteredInvoices(Some(invoices), "", "all") == invoices
  {
    if |invoices| > 0 {
      ContainsEmpty(Lower(invoices[0].number));
      NoFilterListsAll(invoices[1..]);
    }
  }

  /** A status filter lists only invoices of that status. */
  lemma StatusFilterExact(invoices: seq<Listed>, term: string, status: string)
    requires status != "all"
    ensures forall inv :: inv in FilteredInvoices(Some(invoices), term, status) ==> inv.status == status
  {
  }

  // ---------------------------------------------------------------------------
  // Edit and payment guards

  /** `handleEdit` opens only drafts. */
  predicate CanEdit(status: string) { status == "draft" }

  /** The payment button acts only for sent, viewed and overdue invoices. */
  predicate CanPay(status: string)
    ensures CanPay(status) ==> !CanEdit(status) && status != "paid" && status != "cancelled" && status != "finalized"
    ensures status == "sent" || status == "viewed" || status == "overdue" ==> CanPay(status)
  {
    status in {"sent", "viewed", "overdue"}
  }

  /** No invoice is both editable and payable; paid and cancelled invoices are neither. */
  lemma GuardsExclusive(status: string)
    ensures !(CanEdit(status) && CanPay(status))
    ensures status == "paid" || status == "cancelled" ==> !CanEdit(status) && !CanPay(status)
  {
  }

  // ---------------------------------------------------------------------------
  // Editor rows

  /** A row of the editor. */
  datatype FormItem = FormItem(description: string, quantity: real, unitPrice: real, taxRate: real,
                               unit: string, product: Option<nat>)

  /** The row `addItem` appends and a new form starts with. */
  const NewItem := FormItem("", 1.0, 0.0, 18.0, "ədəd", None)

  /** The row an edited invoice without items starts with (its unit is written "pcs"). */
  const EmptyEditItem := FormItem("", 1.0, 0.0, 18.0, "pcs", None)

  datatype EditOpen = NotDraft | Opened(items: seq<FormItem>)

  /** `handleEdit`: refused for non-drafts; otherwise the invoice's rows, or one empty row. */
  function HandleEdit(status: string, items: seq<FormItem>): (r: EditOpen)
    ensures r.NotDraft? <==> !CanEdit(status)
    ensures r.Opened? ==> (|items| > 0 ==> r.items == items) && (|items| == 0 ==> r.items == [EmptyEditItem])
  {
    if !CanEdit(status) then NotDraft
    else Opened(if |items| > 0 then items else [EmptyEditItem])
  }

  /** `addItem`. */
  function AddItem(items: seq<FormItem>): (r: seq<FormItem>)
    ensures |r| == |items| + 1 && r[..|items|] == items && r[|items|] == NewItem
  {
    items + [NewItem]
  }

  /** `removeItem`: `items.filter((_, i) => i !== index)`. */
  function RemoveItem(items: seq<FormItem>, index: int): (r: seq<FormItem>)
    ensures 0 <= index < |items| ==>
              (|r| == |items| - 1 &&
               (forall k :: 0 <= k < index ==> r[k] == items[k]) &&
               (forall k :: index <= k < |r| ==> r[k] == items[k + 1]))
    ensures !(0 <= index < |items|) ==> r == items
  {
    if 0 <= index < |items| then items[..index] + items[index + 1..] else items
  }

  /** Removing the row just added gives the rows back. */
  lemma RemoveUndoesAdd(items: seq<FormItem>)
    ensures RemoveItem(AddItem(items), |items|) == items
  {
  }

  // ---------------------------------------------------------------------------
  // Saving

  /** The whitespace characters modelled of those `String.prototype.trim` removes. */
  predicate IsWhite(c: char)
  {
    c == ' ' || c == '\t' || c == '\n' || c == '\r' || c == '\U{000B}' || c == '\U{000C}' || c == '\U{00A0}'
  }

  /** `item.description.trim() !== ''`. */
  predicate Filled(it: FormItem) { exists i :: 0 <= i < |it.description| && !IsWhite(it.description[i]) }

  datatype PayloadItem = PayloadItem(description: string, quantity: real, unitPrice: real, taxRate: real,
                                     unit: string, product: Option<nat>, order: nat)

  datatype Payload = Payload(id: Option<nat>, client: string, invoiceDate: string, dueDate: string,
                             notes: string, status: string, items: seq<PayloadItem>)

  datatype SaveOutcome = Busy | NoClient | NoItems | Create(data: Payload) | Update(data: Payload)

  /** The editor's state: the chosen client ("" when none) and the other fields. */
  datatype Form = Form(client: string, invoiceDate: string, dueDate: string, notes: string, items: seq<FormItem>)

  /** The invoice being edited, when there is one. */
  datatype Editing = Editing(id: nat, status: string)

  /** The editor row a payload row was made from: every field but the position. */
  function Unnumbered(p: PayloadItem): FormItem
  {
    FormItem(p.description, p.quantity, p.unitPrice, p.taxRate, p.unit, p.product)
  }

  /** The rows as sent: every field of the editor row, and its position as `order`. */
  function Numbered(items: seq<FormItem>): (r: seq<PayloadItem>)
    ensures |r| == |items|
    ensures forall k :: 0 <= k < |r| ==> r[k].order == k && Unnumbered(r[k]) == items[k]
  {
    seq(|items|, k requires 0 <= k < |items| =>
      PayloadItem(items[k].description, items[k].quantity, items[k].unitPrice, items[k].taxRate,
                  items[k].unit, items[k].product, k))
  }

  /**
   * `handleSave`: the guards in order, then the payload of the filled rows,
   * numbered from 0. A save goes out only with a client and a filled row; the
   * saved rows are exactly the filled rows in order, each numbered by its
   * position; an edit keeps the invoice's status, and a new invoice saved for
   * sending is stored as a draft.
   */
  function HandleSave(pending: bool, form: Form, editing: Option<Editing>, status: string, triggerSend: bool)
    : (r: SaveOutcome)
    ensures r.Busy? <==> pending
    ensures r.NoClient? <==> !pending && form.client == ""
    ensures r.NoItems? <==> !pending && form.client != "" && forall it :: it in form.items ==> !Filled(it)
    ensures r.Create? ==> editing.None?
    ensures r.Update? ==> editing.Some? && r.data.id == Some(editing.value.id)
    ensures r.Create? || r.Update? ==>
              var items := r.data.items;
              var valid := Filter(form.items, Filled);
              |items| == |valid| > 0 &&
              forall k :: 0 <= k < |items| ==> items[k].order == k && Unnumbered(items[k]) == valid[k]
    ensures r.Create? || r.Update? ==>
              r.data.client == form.client && r.data.invoiceDate == form.invoiceDate && r.data.notes == form.notes &&
              (form.dueDate != "" ==> r.data.dueDate == form.dueDate) &&
              (form.dueDate == "" ==> r.data.dueDate == form.invoiceDate)
    ensures r.Update? ==> r.data.status == editing.value.status
    ensures r.Create? ==> r.data.id.None? && r.data.status == (if triggerSend then "draft" else status)
  {
    if pending then Busy
    else if form.client == "" then NoClient
    else
      var valid := Filter(form.items, Filled);
      if |valid| == 0 then NoItems
      else
        assert valid[0] in valid;
        var data := Payload(if editing.Some? then Some(editing.value.id) else None,
                            form.client, form.invoiceDate,
                            if form.dueDate != "" then form.dueDate else form.invoiceDate,
                            form.notes,
                            if editing.Some? then editing.value.status else if triggerSend then "draft" else status,
                            Numbered(valid));
        if editing.Some? then Update(data) else Create(data)
  }

  /** A blank row among filled ones is dropped and the later rows move up one place. */
  lemma BlankRowDropped(a: FormItem, blank: FormItem, b: FormItem)
    requires Filled(a) && Filled(b) && !Filled(blank)
    ensures var r := HandleSave(false, Form("c", "d", "", "", [a, blank, b]), None, "draft", false);
            r.Create? && r.data.items == [PayloadItem(a.description, a.quantity, a.unitPrice, a.taxRate, a.unit, a.product, 0),
                                          PayloadItem(b.description, b.quantity, b.unitPrice, b.taxRate, b.unit, b.product, 1)]
            && r.data.dueDate == "d"
  {
    assert [a, blank, b][1..] == [blank, b];
    assert [blank, b][1..] == [b];
    assert Filter([a, blank, b], Filled) == [a, b];
  }

  // ---------------------------------------------------------------------------
  // WhatsApp

  /** The number `handleWhatsApp` puts in the link: digits only, a leading 0 becomes 994, nine digits get 994 in front. */
  function WhatsAppNumber(phone: string): (n: string)
    ensures AllDigits(n)
  {
    var d := DigitsOnly(phone);
    var d1 := if StartsWith(d, "0") then "994" + d[1..] else d;
    if |d1| == 9 then "994" + d1 else d1
  }

  datatype WhatsApp = NoPhone | Open(number: string, markSent: bool)

  /** `handleWhatsApp`: refused without a phone; otherwise the link, marking the invoice sent if it never was. */
  function HandleWhatsApp(inv: Listed): (r: WhatsApp)
    ensures r.NoPhone? <==> inv.clientPhone == ""
    ensures r.Open? ==> r.number == WhatsAppNumber(inv.clientPhone) && (r.markSent <==> inv.sentAt.None?)
  {
    if inv.clientPhone == "" then NoPhone else Open(WhatsAppNumber(inv.clientPhone), inv.sentAt.None?)
  }

  /** The national form 0XXXXXXXXX and the bare nine digits XXXXXXXXX both become 994XXXXXXXXX. */
  lemma NationalFormsAgree(nine: string)
    requires AllDigits(nine) && |nine| == 9 && nine[0] != '0'
    ensures WhatsAppNumber("0" + nine) == "994" + nine
    ensures WhatsAppNumber(nine) == "994" + nine
  {
    DigitsOnlyAppend("0", nine);
    DigitsOnlyOfDigits(nine);
    assert DigitsOnly("0") == "0";
    assert ("0" + nine)[1..] == nine;
  }

  /** A number already written internationally, "+994 …" with nine digits after the code, is kept as it is. */
  lemma InternationalKept(nine: string)
    requires AllDigits(nine) && |nine| == 9
    ensures WhatsAppNumber("+994" + nine) == "994" + nine
  {
    var d := "994" + nine;
    assert "+994" + nine == "+" + d;
    DigitsOnlyAppend("+", d);
    assert DigitsOnly("+") == "" by { assert "+"[1..] == ""; }
    assert AllDigits(d) by {
      forall i | 0 <= i < |d|
        ensures IsDigit(d[i])
      {
        if i >= 3 {
          assert d[i] == nine[i - 3];
        }
      }
    }
    DigitsOnlyOfDigits(d);
    assert DigitsOnly("+994" + nine) == d by { assert "" + d == d; }
    assert !StartsWith(d, "0") by { assert d[..1][0] == '9'; }
  }

  /** A value emitted by the phone field with a full seven-digit number goes to WhatsApp as 994, operator, number. */
  lemma PhoneFieldValueAccepted(op: string, number: string)
    requires op in PhoneInput.Operators && AllDigits(number) && |number| == 7
    ensures WhatsAppNumber(PhoneInput.Emit(op, number)) == "994" + op[1..] + number
  {
    PhoneInput.EmittedDigits(op, number);
    PhoneInput.OperatorsShape();
  }

  /** A short national number is prefixed twice: "0123456" becomes 994994123456. */
  lemma ShortNationalPrefixedTwice()
    ensures WhatsAppNumber("0123456") == "994994123456"
  {
    assert AllDigits("0123456");
    DigitsOnlyOfDigits("0123456");
    assert "0123456"[1..] == "123456";
  }
}
