/**
 * The invoice and payment serializers of backend/invoices/serializers.py:
 * the two `validate` checks (tenant of the referenced invoice or client, and
 * the sales-rep assignment rule), and `create`/`update`, which write the
 * invoice, replace its items and recompute its totals. The request markers
 * are those of the role gate; `active` is the id of the resolved business.
 */
module InvoiceSerializers {
  import opened Common
  import opened InvoiceModel
  import Permissions

  datatype ValidationError = InvoiceOfOtherBusiness | ClientOfOtherBusiness | ClientNotAssigned | EditLocked

  /** The client a request names: its business and the user it is assigned to, if any. */
  datatype ClientRef = ClientRef(business: nat, assignedTo: Option<nat>)

  /**
   * `PaymentSerializer.validate`: with a request and an invoice in the data,
   * an invoice of a business other than the active one is refused; with no
   * active business nothing is checked.
   */
  function ValidatePayment(hasRequest: bool, invoiceBusiness: Option<nat>, active: Option<nat>)
    : (r: Option<ValidationError>)
    ensures r.Some? <==> hasRequest && invoiceBusiness.Some? && active.Some? && invoiceBusiness.value != active.value
    ensures r.Some? ==> r.value == InvoiceOfOtherBusiness
  {
    if hasRequest && invoiceBusiness.Some? && active.Some? && invoiceBusiness.value != active.value
    then Some(InvoiceOfOtherBusiness)
    else None
  }

  /** The role the invoice serializer assumes: OWNER unless the request is marked as a team member. */
  function SerializerRole(m: Permissions.Markers): (role: string)
    ensures !Permissions.MarkedTeamMember(m) ==> role == "OWNER"
    ensures Permissions.MarkedTeamMember(m) && m.teamRole.None? ==> role == "SALES_REP"
    ensures Permissions.MarkedTeamMember(m) && m.teamRole.Some? ==> role == m.teamRole.value
  {
    if Permissions.MarkedTeamMember(m) then Permissions.EffectiveRole(m) else "OWNER"
  }

  /**
   * `InvoiceSerializer.validate`: with a request and a client in the data, a
   * client of another business than the active one is refused first; then a
   * sales rep may only use a client assigned to the requesting user.
   */
  function ValidateInvoice(hasRequest: bool, client: Option<ClientRef>, active: Option<nat>,
                           m: Permissions.Markers, user: nat): (r: Option<ValidationError>)
    ensures r == Some(ClientOfOtherBusiness) <==>
              hasRequest && client.Some? && active.Some? && client.value.business != active.value
    ensures r == Some(ClientNotAssigned) <==>
              hasRequest && client.Some? && !(active.Some? && client.value.business != active.value) &&
              SerializerRole(m) == "SALES_REP" && client.value.assignedTo != Some(user)
    ensures r != Some(InvoiceOfOtherBusiness) && r != Some(EditLocked)
  {
    if !hasRequest || client.None? then None
    else if active.Some? && client.value.business != active.value then Some(ClientOfOtherBusiness)
    else if SerializerRole(m) == "SALES_REP" && client.value.assignedTo != Some(user) then Some(ClientNotAssigned)
    else None
  }

  /** Whatever the resolver leaves on the request, the serializer sees an owner. */
  lemma RoleIsOwnerAfterResolution(resolved: bool)
    ensures SerializerRole(Permissions.MarkersAfterResolution(resolved)) == "OWNER"
  {
  }

  /** So on every request the resolver has seen, the assignment rule never refuses a client. */
  lemma AssignmentRuleNeverFiresAfterResolution(resolved: bool, client: Option<ClientRef>, active: Option<nat>, user: nat)
    ensures ValidateInvoice(true, client, active, Permissions.MarkersAfterResolution(resolved), user) != Some(ClientNotAssigned)
  {
  }

  /** A marked sales rep naming an unassigned client of the active business is refused. */
  lemma SalesRepNeedsAssignedClient(m: Permissions.Markers, c: ClientRef, user: nat)
    requires Permissions.MarkedTeamMember(m) && (m.teamRole.None? || m.teamRole == Some("SALES_REP"))
    requires c.assignedTo != Some(user)
    ensures ValidateInvoice(true, Some(c), Some(c.business), m, user) == Some(ClientNotAssigned)
  {
  }

  // ---------------------------------------------------------------------------
  // Writing

  /** Each item written through `InvoiceItem.objects.create`, whose save recomputes the amount. */
  function SaveItems(items: seq<Item>): (r: seq<Item>)
    ensures |r| == |items|
  {
    if |items| == 0 then [] else SaveItems(items[..|items| - 1]) + [SaveItem(items[|items| - 1])]
  }

  /** The `k`-th created item is the `k`-th one supplied, saved: same fields, amount = quantity × unit price. */
  lemma {:induction false} SavedItemAt(items: seq<Item>, k: nat)
    requires k < |items|
    ensures SaveItems(items)[k] == SaveItem(items[k])
    ensures var r := SaveItems(items)[k];
            AmountConsistent(r) && r.description == items[k].description && r.quantity == items[k].quantity &&
            r.unitPrice == items[k].unitPrice && r.taxRate == items[k].taxRate
  {
    var init := items[..|items| - 1];
    if k < |init| {
      SavedItemAt(init, k);
      assert SaveItems(items)[k] == SaveItems(init)[k];
    }
  }

  /**
   * The edit lock of `update`: viewed and paid invoices, and sent invoices
   * that were actually delivered (a `sent_at` is recorded), are locked.
   */
  predicate Locked(status: Status, sentAt: Option<int>)
  {
    status == Viewed || status == Paid || (status == Sent && sentAt.Some?)
  }

  /** An invoice marked sent but never delivered stays editable; drafts are never locked. */
  lemma SentButUndeliveredIsEditable()
    ensures !Locked(Sent, None) && !Locked(Draft, None)
    ensures forall t: int :: Locked(Sent, Some(t))
  {
  }

  /**
   * An update request: the modelled fields it may write (`None` is a field
   * the request leaves out) and whether it is partial (PATCH) or full (PUT).
   * `business`, `invoice_number`, `share_token`, `paid_amount` and `paid_at`
   * are read-only, so a request cannot carry them; `sent_at` and `viewed_at`
   * are writable, and may be written as null. `subtotal`, `tax_amount` and
   * `total` are writable too, but `calculate_totals` overwrites them.
   */
  datatype InvoicePatch = InvoicePatch(partial: bool, client: Option<nat>, status: Option<Status>,
                                       discount: Option<real>, dueDate: Option<int>,
                                       sentAt: Option<Option<int>>, viewedAt: Option<Option<int>>)

  function Patched<T>(given: Option<T>, current: T): (v: T)
    ensures given.Some? ==> v == given.value
    ensures given.None? ==> v == current
  {
    if given.Some? then given.value else current
  }

  /**
   * `create`: the invoice is created (and numbered) for the business the view
   * supplies, then each item is created, then totals and payment status are
   * computed. A new invoice has no payments.
   */
  method Create(business: nat, client: nat, shareToken: nat, status: Status, discount: real, dueDate: int,
                itemsData: seq<Item>, prior: seq<string>, now: int) returns (inv: Invoice)
    ensures fresh(inv)
    ensures inv.business == business && inv.client == client && inv.shareToken == shareToken
    ensures inv.number == NextNumber(prior)
    ensures inv.items == SaveItems(itemsData) && inv.payments == []
    ensures inv.total == SumGross(inv.items) - discount && inv.paidAmount == 0.0
    ensures (inv.status, inv.paidAt) == PaymentTransition(status, None, 0.0, inv.total, now)
  {
    inv := new Invoice(business, client, shareToken, status, discount, dueDate);
    inv.Save(prior);
    inv.items := SaveItems(itemsData);
    inv.CalculateTotals(prior, now);
  }

  /**
   * `update`: a locked invoice is refused untouched. Otherwise the supplied
   * fields are written, the items are replaced only when a non-empty list is
   * supplied, and totals and payment status are always recomputed.
   */
  method Update(inv: Invoice, patch: InvoicePatch, itemsData: seq<Item>, prior: seq<string>, now: int)
    returns (r: Option<ValidationError>)
    modifies inv
    ensures r.Some? <==> old(Locked(inv.status, inv.sentAt))
    ensures r.Some? ==> r.value == EditLocked && unchanged(inv)
    ensures r.None? ==>
              inv.business == old(inv.business) && inv.shareToken == old(inv.shareToken) &&
              inv.number == (if old(inv.number) != "" then old(inv.number) else NextNumber(prior)) &&
              inv.client == Patched(patch.client, old(inv.client)) &&
              inv.discount == Patched(patch.discount, old(inv.discount)) &&
              inv.dueDate == Patched(patch.dueDate, old(inv.dueDate)) &&
              inv.sentAt == Patched(patch.sentAt, old(inv.sentAt)) && inv.viewedAt == Patched(patch.viewedAt, old(inv.viewedAt)) &&
              inv.items == (if itemsData != [] then SaveItems(itemsData) else old(inv.items)) &&
              inv.payments == old(inv.payments) &&
              inv.subtotal == SumAmounts(inv.items) && inv.taxAmount == SumTax(inv.items) &&
              inv.total == SumGross(inv.items) - inv.discount &&
              inv.paidAmount == SumReals(inv.payments) &&
              (inv.status, inv.paidAt) ==
                PaymentTransition(Patched(patch.status, if patch.partial then old(inv.status) else Draft), old(inv.paidAt), inv.paidAmount, inv.total, now)
  {
    if Locked(inv.status, inv.sentAt) {
      return Some(EditLocked);
    }
    r := None;
    Write(inv, patch, itemsData, prior, now);
  }

  /** The unlocked path of `update`: the supplied fields, the save, the items, the totals. */
  method Write(inv: Invoice, patch: InvoicePatch, itemsData: seq<Item>, prior: seq<string>, now: int)
    modifies inv`client, inv`status, inv`discount, inv`dueDate, inv`sentAt, inv`viewedAt, inv`number, inv`items
    modifies inv`subtotal, inv`taxAmount, inv`total, inv`paidAmount, inv`paidAt
    ensures inv.business == old(inv.business) && inv.shareToken == old(inv.shareToken) &&
              inv.number == (if old(inv.number) != "" then old(inv.number) else NextNumber(prior)) &&
              inv.client == Patched(patch.client, old(inv.client)) &&
              inv.discount == Patched(patch.discount, old(inv.discount)) &&
              inv.dueDate == Patched(patch.dueDate, old(inv.dueDate)) &&
              inv.sentAt == Patched(patch.sentAt, old(inv.sentAt)) && inv.viewedAt == Patched(patch.viewedAt, old(inv.viewedAt)) &&
              inv.items == (if itemsData != [] then SaveItems(itemsData) else old(inv.items)) &&
              inv.payments == old(inv.payments) &&
              inv.subtotal == SumAmounts(inv.items) && inv.taxAmount == SumTax(inv.items) &&
              inv.total == SumGross(inv.items) - inv.discount &&
              inv.paidAmount == SumReals(inv.payments) &&
              (inv.status, inv.paidAt) ==
                PaymentTransition(Patched(patch.status, if patch.partial then old(inv.status) else Draft), old(inv.paidAt), inv.paidAmount, inv.total, now)
  {
    ApplyPatch(inv, patch);
    SaveWithItems(inv, itemsData, prior, now);
  }

  /**
   * The fields an update writes: those the request supplies. On a full
   * update an omitted status takes the serializer field's default, draft;
   * on a partial one it keeps its value.
   */
  method ApplyPatch(inv: Invoice, patch: InvoicePatch)
    modifies inv`client, inv`status, inv`discount, inv`dueDate, inv`sentAt, inv`viewedAt
    ensures inv.client == Patched(patch.client, old(inv.client))
    ensures inv.status == Patched(patch.status, if patch.partial then old(inv.status) else Draft)
    ensures inv.discount == Patched(patch.discount, old(inv.discount)) && inv.dueDate == Patched(patch.dueDate, old(inv.dueDate))
    ensures inv.sentAt == Patched(patch.sentAt, old(inv.sentAt)) && inv.viewedAt == Patched(patch.viewedAt, old(inv.viewedAt))
  {
    inv.client := Patched(patch.client, inv.client);
    inv.status := Patched(patch.status, if patch.partial then inv.status else Draft);
    inv.discount := Patched(patch.discount, inv.discount);
    inv.dueDate := Patched(patch.dueDate, inv.dueDate);
    inv.sentAt := Patched(patch.sentAt, inv.sentAt);
    inv.viewedAt := Patched(patch.viewedAt, inv.viewedAt);
  }

  /** The save, the replacement of the items by a non-empty list, and `calculate_totals`. */
  method SaveWithItems(inv: Invoice, itemsData: seq<Item>, prior: seq<string>, now: int)
    modifies inv`number, inv`items, inv`subtotal, inv`taxAmount, inv`total, inv`paidAmount, inv`status, inv`paidAt
    ensures inv.number == (if old(inv.number) != "" then old(inv.number) else NextNumber(prior))
    ensures inv.items == (if itemsData != [] then SaveItems(itemsData) else old(inv.items))
    ensures inv.subtotal == SumAmounts(inv.items) && inv.taxAmount == SumTax(inv.items)
    ensures inv.total == SumGross(inv.items) - inv.discount
    ensures inv.paidAmount == SumReals(inv.payments)
    ensures (inv.status, inv.paidAt) == PaymentTransition(old(inv.status), old(inv.paidAt), inv.paidAmount, inv.total, now)
  {
    inv.Save(prior);
    if itemsData != [] {
      inv.items := SaveItems(itemsData);
    }
    inv.CalculateTotals(prior, now);
  }

  /**
   * A status written by a request cannot fake payment: whatever status the
   * patch sets, the recomputed status is paid only when the payments cover
   * the total.
   */
  lemma PatchedPaidNeedsPayments(requested: Status, paidAt: Option<int>, paid: real, total: real, now: int)
    ensures PaymentTransition(requested, paidAt, paid, total, now).0 == Paid ==> paid >= total
    ensures requested == Paid && paid < total ==> PaymentTransition(requested, paidAt, paid, total, now) == (Sent, None)
  {
  }

  /**
   * A request that writes `sent_at` on a sent invoice its payments do not
   * cover leaves it sent with a delivery time, so locked for later edits.
   */
  lemma WrittenSentAtLocks(paidAt: Option<int>, paid: real, total: real, now: int, t: int)
    requires !(paid >= total && total > 0.0)
    ensures var r := PaymentTransition(Sent, paidAt, paid, total, now);
            r == (Sent, paidAt) && Locked(r.0, Some(t))
  {
  }

  /**
   * A full update that omits the status reopens an editable invoice as a
   * draft, unless its payments cover a positive total.
   */
  lemma FullUpdateWithoutStatusIsDraft(patch: InvoicePatch, current: Status, paidAt: Option<int>, paid: real, total: real, now: int)
    requires !patch.partial && patch.status.None? && !(paid >= total && total > 0.0)
    ensures PaymentTransition(Patched(patch.status, if patch.partial then current else Draft), paidAt, paid, total, now) == (Draft, paidAt)
  {
  }
}
