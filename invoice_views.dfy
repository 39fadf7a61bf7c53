/**
 * The invoice, expense and payment endpoints of backend/invoices/views.py:
 * the quota gate in front of creation, the tenant-scoped listings, and the
 * actions that move an invoice through its life (duplicate, mark as sent,
 * the public view and payment pages, and the status part of sending by
 * e-mail). Clock readings are passed in as `now`; PDF rendering and e-mail
 * delivery are outcomes passed in as booleans.
 */
module InvoiceViews {
  import opened Common
  import opened InvoiceModel
  import PlanLimits
  import InvoiceSerializers

  // ---------------------------------------------------------------------------
  // Creation behind the quota

  /** Why a create was refused; `PlanLimitReached` is the `plan_limit` payload. */
  datatype Denial =
    | ActiveBusinessRequired
    | PlanLimitReached(code: string, limit: Option<nat>, current: nat, upgradeRequired: bool)

  datatype CreateOutcome = Saved(business: nat) | Denied(denial: Denial)

  /** The refusal built from a failed quota check. */
  function PlanLimitDenial(c: PlanLimits.LimitCheck): (d: Denial)
    ensures d.PlanLimitReached? && d.code == "plan_limit" && d.upgradeRequired
    ensures d.limit == c.limit && d.current == c.current
  {
    PlanLimitReached("plan_limit", c.limit, c.current, true)
  }

  /**
   * `InvoiceViewSet.perform_create`: without a resolved business, or over the
   * monthly quota, nothing is written; otherwise the invoice is stored for the
   * resolved business in the current month.
   */
  function PerformCreateInvoice(user: PlanLimits.User, active: Option<nat>, invoices: seq<PlanLimits.InvoiceRow>,
                                now: PlanLimits.YearMonth): (r: (CreateOutcome, seq<PlanLimits.InvoiceRow>))
    ensures active.None? ==> r == (Denied(ActiveBusinessRequired), invoices)
    ensures r.0.Saved? <==> active.Some? && PlanLimits.CheckInvoiceLimit(user, active.value, invoices, now).allowed
    ensures r.0.Saved? ==> r.0.business == active.value && r.1 == invoices + [PlanLimits.InvoiceRow(active.value, now)]
    ensures r.0.Denied? ==> r.1 == invoices
    ensures active.Some? && r.0.Denied? ==>
              r.0.denial == PlanLimitDenial(PlanLimits.CheckInvoiceLimit(user, active.value, invoices, now))
  {
    if active.None? then (Denied(ActiveBusinessRequired), invoices)
    else
      var c := PlanLimits.CheckInvoiceLimit(user, active.value, invoices, now);
      if !c.allowed then (Denied(PlanLimitDenial(c)), invoices)
      else (Saved(active.value), invoices + [PlanLimits.InvoiceRow(active.value, now)])
  }

  /** `ExpenseViewSet.perform_create`: the same gate with the monthly expense quota. */
  function PerformCreateExpense(user: PlanLimits.User, active: Option<nat>, expenses: seq<PlanLimits.ExpenseRow>,
                                date: PlanLimits.YearMonth): (r: (CreateOutcome, seq<PlanLimits.ExpenseRow>))
    ensures active.None? ==> r == (Denied(ActiveBusinessRequired), expenses)
    ensures r.0.Saved? <==> active.Some? && PlanLimits.CheckExpenseLimit(user, active.value, expenses, date).allowed
    ensures r.0.Saved? ==> r.0.business == active.value && r.1 == expenses + [PlanLimits.ExpenseRow(active.value, date)]
    ensures r.0.Denied? ==> r.1 == expenses
    ensures active.Some? && r.0.Denied? ==>
              r.0.denial == PlanLimitDenial(PlanLimits.CheckExpenseLimit(user, active.value, expenses, date))
  {
    if active.None? then (Denied(ActiveBusinessRequired), expenses)
    else
      var c := PlanLimits.CheckExpenseLimit(user, active.value, expenses, date);
      if !c.allowed then (Denied(PlanLimitDenial(c)), expenses)
      else (Saved(active.value), expenses + [PlanLimits.ExpenseRow(active.value, date)])
  }

  /**
   * The gate keeps the quota: starting at or below the monthly limit, a
   * create through the view never takes the month's count past it.
   */
  lemma InvoiceQuotaNeverExceeded(user: PlanLimits.User, b: nat, invoices: seq<PlanLimits.InvoiceRow>,
                                  now: PlanLimits.YearMonth)
    requires PlanLimits.GetPlanLimits(user.membership).invoicesPerMonth.Some?
    requires |PlanLimits.InvoicesInMonth(invoices, b, now)| <= PlanLimits.GetPlanLimits(user.membership).invoicesPerMonth.value
    ensures |PlanLimits.InvoicesInMonth(PerformCreateInvoice(user, Some(b), invoices, now).1, b, now)|
            <= PlanLimits.GetPlanLimits(user.membership).invoicesPerMonth.value
  {
    var r := PerformCreateInvoice(user, Some(b), invoices, now);
    if r.0.Saved? {
      var row := PlanLimits.InvoiceRow(b, now);
      FilterAppend(invoices, [row], (x: PlanLimits.InvoiceRow) => x.business == b && x.createdAt == now);
      assert PlanLimits.InvoicesInMonth([row], b, now) == [row];
    }
  }

  /** The same for expenses. */
  lemma ExpenseQuotaNeverExceeded(user: PlanLimits.User, b: nat, expenses: seq<PlanLimits.ExpenseRow>,
                                  date: PlanLimits.YearMonth)
    requires PlanLimits.GetPlanLimits(user.membership).expensesPerMonth.Some?
    requires |PlanLimits.ExpensesInMonth(expenses, b, date)| <= PlanLimits.GetPlanLimits(user.membership).expensesPerMonth.value
    ensures |PlanLimits.ExpensesInMonth(PerformCreateExpense(user, Some(b), expenses, date).1, b, date)|
            <= PlanLimits.GetPlanLimits(user.membership).expensesPerMonth.value
  {
    var r := PerformCreateExpense(user, Some(b), expenses, date);
    if r.0.Saved? {
      var row := PlanLimits.ExpenseRow(b, date);
      FilterAppend(expenses, [row], (x: PlanLimits.ExpenseRow) => x.business == b && x.date == date);
      assert PlanLimits.ExpensesInMonth([row], b, date) == [row];
    }
  }

  // ---------------------------------------------------------------------------
  // Listings

  datatype InvoiceRef = InvoiceRef(id: nat, business: nat)
  datatype PaymentRow = PaymentRow(id: nat, invoice: InvoiceRef, amount: real)

  /** `PaymentViewSet.get_queryset`: the payments whose invoice belongs to the active business; none without one. */
  function PaymentQueryset(active: Option<nat>, payments: seq<PaymentRow>): (r: seq<PaymentRow>)
    ensures active.None? ==> r == []
    ensures active.Some? ==> forall p :: p in r <==> p in payments && p.invoice.business == active.value
  {
    if active.None? then [] else Filter(payments, (p: PaymentRow) => p.invoice.business == active.value)
  }

  /** `InvoiceViewSet.get_queryset`: the invoices of the active business; none without one. */
  function InvoiceQueryset(active: Option<nat>, invoices: seq<InvoiceRef>): (r: seq<InvoiceRef>)
    ensures active.None? ==> r == []
    ensures active.Some? ==> forall i :: i in r <==> i in invoices && i.business == active.value
  {
    if active.None? then [] else Filter(invoices, (i: InvoiceRef) => i.business == active.value)
  }

  /** A payment listed under one business is never listed under another. */
  lemma PaymentListingsAreDisjoint(a: nat, b: nat, payments: seq<PaymentRow>, p: PaymentRow)
    requires a != b && p in PaymentQueryset(Some(a), payments)
    ensures p !in PaymentQueryset(Some(b), payments)
  {
  }

  // ---------------------------------------------------------------------------
  // Status moves

  /** The status `mark_as_sent` leaves: draft and finalized become sent, any other status stays. */
  function AfterMarkSent(s: Status): (r: Status)
    ensures r == Sent <==> s == Draft || s == Finalized || s == Sent
    ensures r != Sent ==> r == s
  {
    if s == Draft || s == Finalized then Sent else s
  }

  /**
   * Marking as sent always records `sent_at`, so it locks the invoice for
   * editing exactly when the resulting status is sent, viewed or paid;
   * overdue and cancelled invoices stay editable.
   */
  lemma MarkSentLocks(s: Status, now: int)
    ensures InvoiceSerializers.Locked(AfterMarkSent(s), Some(now)) <==> s != Overdue && s != Cancelled
  {
  }

  /** `mark_as_sent`: `sent_at` is always (re)set; the status moves as `AfterMarkSent` says. */
  method MarkAsSent(inv: Invoice, now: int)
    modifies inv`sentAt, inv`status
    ensures inv.sentAt == Some(now)
    ensures inv.status == AfterMarkSent(old(inv.status))
  {
    inv.sentAt := Some(now);
    if inv.status == Draft || inv.status == Finalized {
      inv.status := Sent;
    }
  }

  /**
   * The public page's tracking: sent and finalized become viewed, and the
   * first view time is kept.
   */
  function PublicViewState(status: Status, viewedAt: Option<int>, now: int): (r: (Status, Option<int>))
    ensures r.0 == Viewed <==> status == Sent || status == Finalized || status == Viewed
    ensures r.0 != Viewed ==> r.0 == status
    ensures r.1.Some?
    ensures viewedAt.Some? ==> r.1 == viewedAt
  {
    (if status == Sent || status == Finalized then Viewed else status,
     if viewedAt.None? then Some(now) else viewedAt)
  }

  /** Opening the public page again, at any later time, changes nothing. */
  lemma PublicViewIdempotent(status: Status, viewedAt: Option<int>, now: int, later: int)
    ensures var r := PublicViewState(status, viewedAt, now);
            PublicViewState(r.0, r.1, later) == r
  {
  }

  /** The first share token in the table equal to `token`, by position. */
  function FindByToken(tokens: seq<nat>, token: nat): (r: Option<nat>)
    ensures r.None? <==> token !in tokens
    ensures r.Some? ==> r.value < |tokens| && tokens[r.value] == token &&
                        forall j :: 0 <= j < r.value ==> tokens[j] != token
  {
    if |tokens| == 0 then None
    else if tokens[0] == token then Some(0)
    else match FindByToken(tokens[1..], token)
      case None => None
      case Some(k) => Some(k + 1)
  }

  /** `public_view` on the invoice the token found. */
  method PublicView(inv: Invoice, now: int)
    modifies inv`status, inv`viewedAt
    ensures (inv.status, inv.viewedAt) == PublicViewState(old(inv.status), old(inv.viewedAt), now)
  {
    if inv.status == Sent || inv.status == Finalized {
      inv.status := Viewed;
    }
    if inv.viewedAt.None? {
      inv.viewedAt := Some(now);
    }
  }

  /**
   * `public_pay` on the invoice the token found: a paid invoice gets no
   * payment; any other gets one payment of the full total (not the balance
   * still owed), and the payment signal updates the status.
   */
  method PublicPay(inv: Invoice, now: int) returns (created: bool)
    modifies inv`payments, inv`paidAmount, inv`status, inv`paidAt
    ensures created <==> old(inv.status) != Paid
    ensures !created ==> unchanged(inv)
    ensures created ==> inv.payments == old(inv.payments) + [inv.total]
    ensures created ==> inv.paidAmount == SumReals(old(inv.payments)) + inv.total
    ensures created ==> (inv.status, inv.paidAt) ==
                        PaymentTransition(old(inv.status), old(inv.paidAt), inv.paidAmount, inv.total, now)
  {
    if inv.status == Paid {
      return false;
    }
    inv.RecordPayment(inv.total, now);
    created := true;
  }

  /** A public payment of a positive total settles the invoice when nothing negative was paid before. */
  lemma PublicPaySettles(status: Status, paidAt: Option<int>, before: real, total: real, now: int)
    requires total > 0.0 && before >= 0.0
    ensures PaymentTransition(status, paidAt, before + total, total, now).0 == Paid
    ensures PaymentTransition(status, paidAt, before + total, total, now).1.Some?
  {
  }

  /**
   * `duplicate` as the view is written: `get_object` fetched the invoice
   * through a queryset that prefetches `payments`, and clearing the primary
   * key and saving keep that cache on the instance. The copy is numbered, its
   * items are copied and saved, and `calculate_totals` then sums the
   * ORIGINAL's payments, although no payment row points at the copy.
   */
  method DuplicateAsWritten(inv: Invoice, prior: seq<string>, token: nat, now: int) returns (copy: Invoice)
    ensures fresh(copy)
    ensures copy.business == inv.business && copy.client == inv.client && copy.shareToken == token
    ensures copy.discount == inv.discount && copy.dueDate == inv.dueDate
    ensures copy.number == NextNumber(prior)
    ensures copy.items == InvoiceSerializers.SaveItems(inv.items)
    ensures copy.total == SumGross(copy.items) - copy.discount
    ensures copy.payments == inv.payments && copy.paidAmount == SumReals(inv.payments)
    ensures (copy.status, copy.paidAt) == PaymentTransition(Draft, inv.paidAt, SumReals(inv.payments), copy.total, now)
    ensures copy.sentAt == inv.sentAt && copy.viewedAt == inv.viewedAt
  {
    var items := InvoiceSerializers.SaveItems(inv.items);
    copy := CopyFields(inv, token);
    Populate(copy, items, prior, now);
  }

  /**
   * An original whose payments cover its positive total gives, as written, a
   * copy that is paid with the original's paid amount, and so locked for
   * editing; an original paid 40 of 100 gives a draft that claims 40 paid.
   */
  lemma CoveredOriginalGivesLockedCopy(paidAt: Option<int>, sentAt: Option<int>, now: int)
    ensures var r := PaymentTransition(Draft, paidAt, SumReals([100.0]), 100.0, now);
            r.0 == Paid && r.1.Some? && InvoiceSerializers.Locked(r.0, sentAt)
    ensures PaymentTransition(Draft, paidAt, SumReals([40.0]), 100.0, now) == (Draft, paidAt) && SumReals([40.0]) == 40.0
  {
  }

  /**
   * `duplicate` as intended: the same steps over a copy that owns no payment
   * (its payment list read afresh rather than from the original's cache), so
   * the copy is a numbered draft with a new token, copied items, recomputed
   * totals and nothing paid. Every other field is copied as it was, `sent_at`,
   * `viewed_at` and `paid_at` included. The original is not touched.
   */
  method Duplicate(inv: Invoice, prior: seq<string>, token: nat, now: int) returns (copy: Invoice)
    ensures fresh(copy)
    ensures copy.business == inv.business && copy.client == inv.client && copy.shareToken == token
    ensures copy.discount == inv.discount && copy.dueDate == inv.dueDate
    ensures copy.number == NextNumber(prior)
    ensures copy.status == Draft && copy.payments == [] && copy.paidAmount == 0.0
    ensures copy.items == InvoiceSerializers.SaveItems(inv.items)
    ensures copy.total == SumGross(copy.items) - copy.discount
    ensures copy.sentAt == inv.sentAt && copy.viewedAt == inv.viewedAt && copy.paidAt == inv.paidAt
  {
    var items := InvoiceSerializers.SaveItems(inv.items);
    copy := CopyFields(inv, token);
    copy.payments := [];
    Populate(copy, items, prior, now);
  }

  /**
   * The copy's first save (numbering), its items, and `calculate_totals`:
   * totals from the items, the paid amount from whatever payments the
   * instance reads, and the status from the payment rule applied to a draft.
   */
  method Populate(copy: Invoice, items: seq<Item>, prior: seq<string>, now: int)
    requires copy.number == "" && copy.status == Draft
    modifies copy`number, copy`items, copy`subtotal, copy`taxAmount, copy`total, copy`paidAmount, copy`status, copy`paidAt
    ensures copy.number == NextNumber(prior)
    ensures copy.items == items
    ensures copy.total == SumGross(items) - copy.discount
    ensures copy.paidAmount == SumReals(copy.payments)
    ensures (copy.status, copy.paidAt) == PaymentTransition(Draft, old(copy.paidAt), SumReals(copy.payments), copy.total, now)
  {
    copy.Save(prior);
    copy.items := items;
    copy.CalculateTotals(prior, now);
  }

  /**
   * The unsaved copy `duplicate` starts from: the same instance with a new
   * token, status draft and no number; every other field, and the payments
   * and items the instance has already fetched, stay as they were.
   */
  method CopyFields(inv: Invoice, token: nat) returns (copy: Invoice)
    ensures fresh(copy)
    ensures copy.business == inv.business && copy.client == inv.client && copy.shareToken == token
    ensures copy.discount == inv.discount && copy.dueDate == inv.dueDate && copy.number == ""
    ensures copy.status == Draft
    ensures copy.subtotal == inv.subtotal && copy.taxAmount == inv.taxAmount && copy.total == inv.total
    ensures copy.paidAmount == inv.paidAmount && copy.payments == inv.payments && copy.items == inv.items
    ensures copy.sentAt == inv.sentAt && copy.viewedAt == inv.viewedAt && copy.paidAt == inv.paidAt
  {
    copy := new Invoice(inv.business, inv.client, token, Draft, inv.discount, inv.dueDate);
    copy.subtotal, copy.taxAmount, copy.total, copy.paidAmount := inv.subtotal, inv.taxAmount, inv.total, inv.paidAmount;
    copy.payments, copy.items := inv.payments, inv.items;
    copy.sentAt, copy.viewedAt, copy.paidAt := inv.sentAt, inv.viewedAt, inv.paidAt;
  }

  /**
   * The intended duplicate owns no payment, so `calculate_totals` leaves it a
   * draft with its `paid_at` as copied, whatever its total, and a draft is
   * never locked for editing.
   */
  lemma DuplicateIsEditable(paidAt: Option<int>, total: real, sentAt: Option<int>, now: int)
    ensures var r := PaymentTransition(Draft, paidAt, SumReals([]), total, now);
            r == (Draft, paidAt) && !InvoiceSerializers.Locked(r.0, sentAt)
  {
  }

  datatype SendOutcome = MissingEmail | PdfFailed | DeliveryFailed | Delivered

  /**
   * `send_email`: a client without an e-mail address is refused before
   * anything happens; otherwise the PDF step recomputes the totals and the
   * payment status, and only a delivered message then moves a draft or
   * finalized invoice to sent with `sent_at` recorded.
   */
  method SendEmail(inv: Invoice, clientEmail: string, pdfOk: bool, deliveryOk: bool, prior: seq<string>, now: int)
    returns (r: SendOutcome)
    modifies inv`subtotal, inv`taxAmount, inv`total, inv`paidAmount, inv`status, inv`paidAt, inv`number, inv`sentAt
    ensures r == MissingEmail <==> clientEmail == ""
    ensures r == Delivered <==> clientEmail != "" && pdfOk && deliveryOk
    ensures r == MissingEmail ==> unchanged(inv)
    ensures r != MissingEmail ==> inv.subtotal == SumAmounts(inv.items) && inv.taxAmount == SumTax(inv.items) &&
                                  inv.total == SumGross(inv.items) - inv.discount &&
                                  inv.paidAmount == SumReals(inv.payments)
    ensures r != MissingEmail ==>
              inv.paidAt == PaymentTransition(old(inv.status), old(inv.paidAt), SumReals(inv.payments), inv.total, now).1
    ensures r != MissingEmail ==> inv.number == if old(inv.number) != "" then old(inv.number) else NextNumber(prior)
    ensures r != MissingEmail ==>
              var settled := PaymentTransition(old(inv.status), old(inv.paidAt), SumReals(inv.payments), inv.total, now).0;
              if r == Delivered && settled in {Draft, Finalized} then inv.status == Sent && inv.sentAt == Some(now)
              else inv.status == settled && inv.sentAt == old(inv.sentAt)
  {
    if clientEmail == "" {
      return MissingEmail;
    }
    inv.CalculateTotals(prior, now);
    if !pdfOk {
      return PdfFailed;
    }
    if !deliveryOk {
      return DeliveryFailed;
    }
    if inv.status == Draft || inv.status == Finalized {
      inv.status := Sent;
      inv.sentAt := Some(now);
    }
    r := Delivered;
  }
}
