# InvoiceAz core in Dafny

This project models the core of InvoiceAz, an invoicing and bookkeeping service for small
businesses in Azerbaijan. It has a Django REST backend and a React frontend, and the project
states and proves the rules those parts follow. Each core source file becomes one Dafny module in
one file. `common.dfy` holds the shared vocabulary: `Option`, decimal digits, lower-casing,
substring search and a sequence filter with its lemmas.

Backend modules:

- `Rbac`, `Permissions`, `BusinessContext`: the team role table, the role gate, and the
  resolution of the active business that scopes every tenant query and every created row.
- `PlanLimits`: the subscription quotas per membership tier and the counted usage.
- `SoftDelete`: soft-deletable rows with their managers, and restore and hard delete.
- `InvoiceModel`: invoice numbering, line amounts, totals, the payment status that follows the
  payments, and the monthly budget warning on expenses.
- `InvoiceSerializers`, `InvoiceViews`: tenant checks, the sales-rep rule, create and update with
  their totals, the quota gate, duplicate, mark as sent, and the public view and payment pages.
- `StockSignals`: the stock ledger kept by the invoice-line signals.
- `InventoryImport`: the spreadsheet import that folds rows by SKU, and the stock summary.
- `DueInvoices`, `LegacyCategories`: the two management commands (due-date sweep, and
  categorising old notifications).
- `Analytics`: the payment, problem-invoice, forecast, churn and tax reports.
- `UserViews`, `UserSignals`: business list and creation, two-factor setup, sessions, the default
  business of a new user, and the referral reward.

Frontend modules:

- `PlanLimitsClient`: the quota hook.
- `TranslateErrors`: error-to-text translation.
- `BusinessSwitch`: the active-business provider.
- `ExpensesPage`: pagination and search on the expenses page.
- `RegisterPage`: the password meter and registration errors.
- `InvoicesPage`: the invoice list filter, the editor and WhatsApp sharing.
- `NotificationsPage`: role filtering, tabs, time labels and date groups.
- `PhoneInput`: the Azerbaijani phone field.

Conventions:

- Money is an exact `real`.
- Dates are whole days as `int`; the notifications page uses milliseconds.
- A clock reading is a `now` or `today` parameter, and a random token or code is a parameter.
- An outcome the code cannot see (a TOTP check, PDF rendering, e-mail delivery) is a boolean or
  oracle parameter.
- Where the source updates an object in place, the model has a `class`; each method states its new
  state through a specification function, and lemmas prove the properties of that function.
- Loops are methods whose invariants tie them to a prefix of their input.

## Model

| member | source | states |
|---|---|---|
| Rbac.RolePermissions | backend/users/rbac.py:11-42 | exactly the four delegated roles have an entry; only MANAGER has `can_access_all`, with an empty model table |
| Rbac.Entry | backend/users/rbac.py:16-41 | a per-model entry exists only for a delegated role other than MANAGER |
| Rbac.VisibleRows | backend/users/rbac.py:5-9 | a row is visible exactly when the role's filter type (`all`, `assigned_only`, `own_or_assigned`, missing = none) admits it |
| Rbac.ManagerEntry | backend/users/rbac.py:12-15 | MANAGER may use every verb on every model |
| Rbac.AccountantEntries | backend/users/rbac.py:16-25 | ACCOUNTANT: full verbs on Invoice, Expense, Payment; read-only Client and Product |
| Rbac.InventoryManagerEntries | backend/users/rbac.py:26-33 | INVENTORY_MANAGER: full verbs on Product, InventoryTransaction, Category |
| Rbac.SalesRepEntries | backend/users/rbac.py:34-41 | SALES_REP edits assigned clients and own-or-assigned invoices without DELETE, and only reads products |
| Rbac.MissingModelSeesNothing | backend/users/rbac.py:9 | a model missing from a role's table grants no verb and shows no row |
| Rbac.NoOwnerEntry | backend/users/rbac.py:11-42 | OWNER has no entry, so the table grants it nothing |
| Permissions.EffectiveRole | backend/users/permissions.py:19 | an unset role is read as SALES_REP |
| Permissions.HasPermission | backend/users/permissions.py:9-53 | a denial happens only past both early exits, on a view with a model, for a role other than MANAGER; there the verdict is exactly the per-role rule |
| Permissions.OwnerAlwaysAllowed | backend/users/permissions.py:11-12 | a resolved business without the team-member marker is always allowed |
| Permissions.UnmarkedAlwaysAllowed | backend/users/permissions.py:16-17 | without the team-member attribute every request is allowed |
| Permissions.MissingRoleIsSalesRep | backend/users/permissions.py:19 | a marked member with no recorded role is judged exactly as SALES_REP |
| Permissions.UnknownRoleDenied | backend/users/permissions.py:53 | any role outside the four is denied on every view with a model |
| Permissions.MarkersAfterResolution | backend/users/mixins.py:9-26 | the resolver sets `_active_business` exactly on success and never sets the team attributes |
| Permissions.GateNeverDeniesWithoutTeamMarker | backend/users/permissions.py:11-17 | with no team attribute on the request, before or after the business is resolved, the gate allows every model and verb |
| Permissions.GateVersusTable | backend/users/permissions.py:29-53 | the gate and the role table of `rbac.py` differ exactly on the listed verb and model cases |
| Permissions.AccountantProductDisagreement | backend/users/permissions.py:32-35 | the table lets an accountant read products but the gate refuses it |
| Permissions.SalesRepDeleteDisagreement | backend/users/permissions.py:47-51 | the table forbids a sales rep DELETE on clients and invoices but the gate allows it |
| BusinessContext.ClaimedId | backend/users/mixins.py:14-16 | the header wins when non-empty, else the query parameter; empty only when both are |
| BusinessContext.FindOwnedActive | backend/users/mixins.py:21-26 | once the claimed id is an integer: a found business has that primary key, belongs to the caller and is active; none means no row qualifies |
| BusinessContext.Resolve | backend/users/mixins.py:14-26 | a claimed id that Python's `int()` cannot read is the uncaught `ValueError` (a server error); otherwise a business resolves exactly when an id is claimed and an owned active business has that integer key |
| BusinessContext.PaddedIdResolvesAlike | backend/users/mixins.py:22 | whitespace around the id and leading zeros select the same business as the plain number: `007` resolves to business 7 |
| BusinessContext.SameIntResolvesAlike | backend/users/mixins.py:22 | two non-empty ids that `int()` reads as the same value (or both rejects) resolve to the same outcome |
| BusinessContext.NoBreakSpaceIdResolvesAlike | backend/users/mixins.py:22 | a no-break space before the id is stripped as `int()` strips it: `\xa07` resolves as `7` does |
| BusinessContext.NonNumericIdIsServerError | backend/users/mixins.py:21-26 | an id holding a letter or other symbol is a server error, not "no business" |
| BusinessContext.ScopedTo | backend/users/mixins.py:36-39 | the queryset holds exactly the rows of the resolved business |
| BusinessContext.UpdateName | backend/users/mixins.py:28-40 | a row outside the visible queryset gives 404 and leaves the table unchanged; otherwise the row with that key takes the new name; other rows never change |
| BusinessContext.RequestContext.constructor | backend/users/mixins.py:11 | a request starts with nothing cached |
| BusinessContext.RequestContext.GetActiveBusiness | backend/users/mixins.py:9-26 | a cached business is returned as is; otherwise the resolution, cached only on success |
| BusinessContext.RequestContext.GetQueryset | backend/users/mixins.py:28-40 | empty for schema generation or anonymous callers; otherwise the resolved business's rows, nothing when none resolves, a server error on a malformed id; the cache follows the resolution |
| BusinessContext.RequestContext.PerformCreate | backend/users/mixins.py:42-50 | without a business the create is refused, a malformed id is a server error; otherwise the row is saved under the resolved business; a success is cached, a failure leaves the cache empty |
| BusinessContext.ResolvedIsOwnAndActive | backend/users/mixins.py:22 | a resolved business is always the caller's own and active |
| BusinessContext.HeaderTakesPrecedence | backend/users/mixins.py:14-16 | with a header present the query parameter is ignored |
| BusinessContext.ResolveIsTheRowWithThatId | backend/users/mixins.py:22-26 | with unique ids the result is the one row with the claimed id, if the caller may use it |
| BusinessContext.TenantIsolation | backend/users/mixins.py:36-39 | a row of another business is never in the narrowed queryset |
| BusinessContext.CrossTenantUpdateIsNotFound | backend/users/mixins.py:36-40 | patching another business's row by id is a 404 and changes nothing |
| BusinessContext.ResolveTwiceIsStable | backend/users/mixins.py:11-12 | a second resolution on the same request returns the cached success |
| PlanLimits.PlanName | backend/users/plan_limits.py:149 | the reported plan is the membership, or `free` when it is empty |
| PlanLimits.GetPlanLimits | backend/users/plan_limits.py:11-54 | `pro` and `premium` get their rows; every other membership gets the free row |
| PlanLimits.CheckAgainst | backend/users/plan_limits.py:62-77 | no limit means allowed with count 0; otherwise allowed exactly when the count is below the limit |
| PlanLimits.InvoicesInMonth | backend/users/plan_limits.py:67-71 | exactly the business's invoices created in the current month |
| PlanLimits.ExpensesInMonth | backend/users/plan_limits.py:111-115 | exactly the business's expenses dated in the current month |
| PlanLimits.CheckInvoiceLimit | backend/users/plan_limits.py:57-77 | the monthly invoice quota, counted in the one business |
| PlanLimits.CheckClientLimit | backend/users/plan_limits.py:80-98 | the client quota, counted across all the user's businesses |
| PlanLimits.CheckExpenseLimit | backend/users/plan_limits.py:101-121 | the monthly expense quota, counted by expense date in the one business |
| PlanLimits.OwnedBusinesses | backend/users/plan_limits.py:133 | exactly the businesses the user owns |
| PlanLimits.CheckBusinessLimit | backend/users/plan_limits.py:124-139 | the business quota, counted over the owned businesses |
| PlanLimits.FullPlanStatus | backend/users/plan_limits.py:142-194 | the plan, its limits and usage; monthly usage spans all owned businesses and is 0 for a user without one |
| PlanLimits.PremiumNeverBlocks | backend/users/plan_limits.py:36-47 | premium is never refused any counted resource |
| PlanLimits.FreeUserHasOneBusiness | backend/users/plan_limits.py:16 | a free user who owns a business cannot create another |
| PlanLimits.AllowedIsDownwardClosed | backend/users/plan_limits.py:73-77 | lower usage never turns an allowed check into a refused one |
| PlanLimits.StatusCoversPerBusinessCount | backend/users/plan_limits.py:159-164 | the status's monthly invoice usage is never below the per-business count used at creation |
| SoftDelete.MarkDeleted | backend/utils/models.py:5-6 | the selected rows get `is_deleted` and the timestamp; every other row is unchanged |
| SoftDelete.MarkRestored | backend/utils/models.py:11-12 | the selected rows have both deletion fields cleared; every other row is unchanged |
| SoftDelete.Removed | backend/utils/models.py:8-9 | exactly the rows not selected remain |
| SoftDelete.Live | backend/utils/models.py:15-16 | the default manager shows exactly the rows not marked deleted |
| SoftDelete.DeletedOnly | backend/utils/models.py:21-22 | `deleted_only` shows exactly the rows marked deleted |
| SoftDelete.Table.constructor | backend/utils/models.py:24-29 | a table starts with the given rows |
| SoftDelete.Table.Objects | backend/utils/models.py:28 | `objects` shows the live rows of the table |
| SoftDelete.Table.AllObjects | backend/utils/models.py:18-19 | `all_objects` shows every row |
| SoftDelete.Table.Delete | backend/utils/models.py:34-40 | the row and each row the related-objects hook returns are marked deleted, one after another, with the timestamp passed in; every other row is unchanged |
| SoftDelete.Table.Restore | backend/utils/models.py:46-49 | the row's deletion fields are cleared |
| SoftDelete.Table.HardDelete | backend/utils/models.py:51-52 | the row is really removed |
| SoftDelete.Table.QuerySetDelete | backend/utils/models.py:5-6 | every selected row is marked in one update; the result is the number of rows matched |
| SoftDelete.Table.QuerySetRestore | backend/utils/models.py:11-12 | every selected row is cleared in one update; the result is the number of rows matched |
| SoftDelete.Table.QuerySetHardDelete | backend/utils/models.py:8-9 | the selected rows are removed |
| SoftDelete.MarkDeletedTwice | backend/utils/models.py:34-40 | two marking steps at the same instant equal marking their union |
| SoftDelete.SoftDeleteKeepsRows | backend/utils/models.py:5-6 | a soft delete keeps every row, its key and the order, so keys stay unique |
| SoftDelete.DeletedIsHiddenButKept | backend/utils/models.py:14-22 | a deleted row is in `deleted_only` and absent from the default manager |
| SoftDelete.RestoreUndoesDelete | backend/utils/models.py:46-49 | restoring after deleting equals restoring alone, and the rows are live again |
| SoftDelete.LiveAndDeletedPartition | backend/utils/models.py:14-22 | live and deleted rows together account for every row |
| SoftDelete.DeleteShrinksLive | backend/utils/models.py:15-16 | deleting never adds a live row |
| InvoiceModel.SuffixShape | backend/invoices/models.py:87 | `split('-')[-1]` is a dash-free suffix of the input, preceded by a dash whenever shorter than it |
| Common.ParseNatDigits | backend/invoices/models.py:88 | reading a suffix as a number succeeds exactly on a non-empty run of digits, and gives their decimal value |
| InvoiceModel.InvoiceNumber | backend/invoices/models.py:89 | the number `INV-` followed by at least four digits |
| InvoiceModel.InvoiceNumberShape | backend/invoices/models.py:89 | every generated number is `INV-` followed by digits only |
| InvoiceModel.NextNumber | backend/invoices/models.py:75-95 | the next number has the full `INV-dddd` length in every branch |
| InvoiceModel.NextAfter | backend/invoices/models.py:84-93 | the number after an existing last invoice has the full `INV-dddd` length, whether its suffix parses or not |
| InvoiceModel.NextFromSuffix | backend/invoices/models.py:84-89 | when the last number's suffix parses to `n`, the next number is INV-(n + 1) |
| InvoiceModel.SuffixAfterDash | backend/invoices/models.py:87 | the suffix after the last dash is recovered exactly |
| InvoiceModel.InvoiceNumberSuffix | backend/invoices/models.py:87-89 | the suffix of a generated number parses back to its value |
| InvoiceModel.FirstNumber | backend/invoices/models.py:94-95 | a business's first invoice is INV-1001 |
| InvoiceModel.NextAfterGenerated | backend/invoices/models.py:84-89 | after a generated number the next is its successor |
| InvoiceModel.FallbackNumber | backend/invoices/models.py:90-93 | an unparsable last number falls back to count + 1001 |
| InvoiceModel.InvoiceNumberInjective | backend/invoices/models.py:89 | distinct values give distinct numbers |
| InvoiceModel.Sequential | backend/invoices/models.py:75-95 | a run of `k` creations from scratch yields `k` numbers |
| InvoiceModel.SequentialAt | backend/invoices/models.py:75-95 | the `i`-th number of such a run is INV-(1001 + i) |
| InvoiceModel.FirstSequential | backend/invoices/models.py:94-95 | numbering from scratch starts at INV-1001 |
| InvoiceModel.LaterSequential | backend/invoices/models.py:84-89 | after `k` numbers the next is INV-(1001 + k) |
| InvoiceModel.Run | backend/invoices/models.py:74-95 | `k` saves in a row, each numbered from the ones before, hand out `k` numbers |
| InvoiceModel.RunIsSequential | backend/invoices/models.py:74-95 | those numbers are exactly INV-1001 … INV-(1000 + k) |
| InvoiceModel.RunStep | backend/invoices/models.py:84-89 | one more save after such a run continues it with the next number |
| InvoiceModel.SequentialValue | backend/invoices/models.py:87-88 | the `i`-th number of such a run reads back as 1001 + i |
| InvoiceModel.NotInSequential | backend/invoices/models.py:84-89 | the next number after a run of `k` is not already in it |
| InvoiceModel.NotInNumberedRun | backend/invoices/models.py:87-88 | a run whose `i`-th number reads back as 1001 + i holds no number reading back as the next value |
| InvoiceModel.SequentialNext | backend/invoices/models.py:75-95 | for every `k`, the next number after a run is INV-(1001 + k) |
| InvoiceModel.NumbersOf | backend/invoices/models.py:80-82 | only numbers of the given business's invoices are listed |
| InvoiceModel.CreateAsWritten | backend/invoices/models.py:45 | the create fails exactly when the business's next number is held by any invoice of any business |
| InvoiceModel.SecondBusinessFirstInvoiceFails | backend/invoices/models.py:45 | a second business's first invoice collides with the first business's INV-1001 |
| InvoiceModel.CreateScoped | backend/invoices/models.py:75-95 | with per-business uniqueness the create fails only on a clash inside the business |
| InvoiceModel.NumbersOfComplete | backend/invoices/models.py:80-82 | every number of the business's invoices is listed |
| InvoiceModel.ScopedNumberingNeverCollides | backend/invoices/models.py:75-95 | with per-business uniqueness, a business whose invoices were all numbered by `save` from scratch always gets INV-(1001 + k), whatever other businesses hold |
| InvoiceModel.NextNotInRun | backend/invoices/models.py:80-89 | a business holding INV-1001 … INV-(1000 + k) does not hold INV-(1001 + k) |
| InvoiceModel.SaveItem | backend/invoices/models.py:139-141 | a saved item's amount is quantity × unit price, and no other field changes |
| InvoiceModel.SubtotalPlusTaxIsGross | backend/invoices/models.py:101-105 | subtotal plus tax equals the sum of each line's amount plus its own tax |
| InvoiceModel.PaymentTransition | backend/invoices/models.py:109-120 | paid exactly when payments cover a positive total, or it was paid and stays covered; a paid invoice short of its total reverts to sent with no payment date; the first payment date is kept |
| InvoiceModel.PaymentTransitionIdempotent | backend/invoices/models.py:109-120 | applying the status update again with the same amounts changes nothing |
| InvoiceModel.ZeroTotalPaidStaysPaid | backend/invoices/models.py:113-118 | a paid invoice with a non-positive total never reverts |
| InvoiceModel.InvoiceTotal | backend/invoices/models.py:105 | the total is the sum of gross line amounts minus the discount |
| InvoiceModel.Invoice.constructor | backend/invoices/models.py:12-65 | a new invoice has no number, items, payments or dates, and zero money fields |
| InvoiceModel.Invoice.Save | backend/invoices/models.py:74-99 | a missing number is assigned from the business's numbers; an existing one is kept |
| InvoiceModel.Invoice.UpdatePaymentStatus | backend/invoices/models.py:109-123 | the paid amount is the sum of payments and the status follows the transition |
| InvoiceModel.Invoice.CalculateTotals | backend/invoices/models.py:101-107 | subtotal, tax, total, paid amount, status and number are recomputed from items and payments |
| InvoiceModel.Invoice.RecordPayment | backend/invoices/models.py:200-203 | a saved payment is appended and the status is updated |
| InvoiceModel.Invoice.DeletePayment | backend/invoices/models.py:200-203 | a deleted payment is removed and the status is updated |
| InvoiceModel.PayThenRefund | backend/invoices/models.py:113-120 | paying in full and then deleting that payment leaves the invoice sent with no payment date |
| InvoiceModel.BudgetWarning | backend/invoices/models.py:205-218 | a warning is due only for a newly created expense, and exactly when the month's total strictly exceeds the limit |
| InvoiceModel.OtherExpensesIgnored | backend/invoices/models.py:212-216 | expenses of another business or month never change the monthly total |
| InvoiceModel.BudgetBoundary | backend/invoices/models.py:218 | spending exactly the limit raises no warning; one cent more does |
| InvoiceSerializers.ValidatePayment | backend/invoices/serializers.py:27-38 | a payment is refused exactly when a request names an invoice of a business other than the resolved one |
| InvoiceSerializers.SerializerRole | backend/invoices/serializers.py:65-66 | OWNER unless the request is marked as a team member; SALES_REP when no role is recorded |
| InvoiceSerializers.ValidateInvoice | backend/invoices/serializers.py:55-73 | a client of another business is refused; a sales rep naming a client not assigned to them is refused; nothing else is |
| InvoiceSerializers.RoleIsOwnerAfterResolution | backend/invoices/serializers.py:65-66 | after the owner-only resolver the serializer always sees OWNER |
| InvoiceSerializers.AssignmentRuleNeverFiresAfterResolution | backend/invoices/serializers.py:68-71 | so the assignment rule never refuses on a request the resolver has seen |
| InvoiceSerializers.SalesRepNeedsAssignedClient | backend/invoices/serializers.py:68-71 | a marked sales rep naming an unassigned client is refused |
| InvoiceSerializers.SaveItems | backend/invoices/serializers.py:80-81 | one item is created per supplied item |
| InvoiceSerializers.SavedItemAt | backend/invoices/serializers.py:80-81 | the `k`-th created item is the `k`-th supplied one, saved: same description, quantity, unit price and tax rate, amount = quantity × unit price |
| InvoiceSerializers.SentButUndeliveredIsEditable | backend/invoices/serializers.py:86-89 | a sent invoice without `sent_at` and a draft are editable; a delivered one is locked |
| InvoiceSerializers.Create | backend/invoices/serializers.py:75-83 | the new invoice is numbered, holds the saved items and no payments, and its totals and status are computed |
| InvoiceSerializers.Update | backend/invoices/serializers.py:85-107 | a locked invoice is refused untouched; otherwise the given fields, `sent_at` and `viewed_at` included, are written, an omitted status becomes draft on a full update, items are replaced only by a non-empty list, and totals and status are recomputed |
| InvoiceSerializers.Write | backend/invoices/serializers.py:92-107 | the given fields, `sent_at` and `viewed_at` included, are written, the number kept or assigned, items replaced only by a non-empty list, totals recomputed, and the status follows the payment rule from the written status (draft when a full update omits it); nothing else changes |
| InvoiceSerializers.ApplyPatch | backend/invoices/serializers.py:95-97 | each field the request gives is written, `sent_at` and `viewed_at` included; an omitted field keeps its value, except the status of a full update, which takes its default, draft |
| InvoiceSerializers.SaveWithItems | backend/invoices/serializers.py:98-106 | the number is kept or assigned, a non-empty item list replaces the items, and totals, paid amount and status are recomputed |
| InvoiceSerializers.PatchedPaidNeedsPayments | backend/invoices/serializers.py:48 | a status written by a request becomes paid only when payments cover the total |
| InvoiceSerializers.WrittenSentAtLocks | backend/invoices/serializers.py:51-53 | a request writing `sent_at` on a sent invoice its payments do not cover leaves it sent and delivered, so locked for later edits |
| InvoiceSerializers.FullUpdateWithoutStatusIsDraft | backend/invoices/serializers.py:48 | a full update omitting the status reopens the invoice as a draft unless payments cover a positive total |
| InvoiceViews.PlanLimitDenial | backend/invoices/views.py:80-87 | the refusal carries code `plan_limit`, `upgrade_required` and the check's limit and current count |
| InvoiceViews.PerformCreateInvoice | backend/invoices/views.py:74-89 | no business: refused; otherwise saved under it exactly when the monthly invoice check allows, refused with that check's figures otherwise; a refusal adds no row |
| InvoiceViews.PerformCreateExpense | backend/invoices/views.py:19-34 | the same gate with the monthly expense check |
| InvoiceViews.InvoiceQuotaNeverExceeded | backend/invoices/views.py:79-89 | starting at or below the monthly limit, a create never takes the month's invoice count past it |
| InvoiceViews.ExpenseQuotaNeverExceeded | backend/invoices/views.py:24-34 | starting at or below the monthly limit, a create never takes the month's expense count past it |
| InvoiceViews.PaymentQueryset | backend/invoices/views.py:43-47 | exactly the payments whose invoice belongs to the active business; none without one |
| InvoiceViews.InvoiceQueryset | backend/invoices/views.py:64-72 | exactly the invoices of the active business; none without one |
| InvoiceViews.PaymentListingsAreDisjoint | backend/invoices/views.py:43-47 | a payment listed under one business is never listed under another |
| InvoiceViews.AfterMarkSent | backend/invoices/views.py:302-303 | draft and finalized become sent; every other status is kept |
| InvoiceViews.MarkSentLocks | backend/invoices/views.py:298-304 | marking as sent locks the invoice for editing unless it is overdue or cancelled |
| InvoiceViews.MarkAsSent | backend/invoices/views.py:298-305 | `sent_at` is always set to now and the status moves as above |
| InvoiceViews.PublicViewState | backend/invoices/views.py:314-318 | sent and finalized become viewed, other statuses stay; the first view time is kept, else now |
| InvoiceViews.PublicViewIdempotent | backend/invoices/views.py:314-320 | opening the public page again changes nothing |
| InvoiceViews.FindByToken | backend/invoices/views.py:311 | the lookup finds the first invoice holding the token, and fails exactly when no invoice holds it |
| InvoiceViews.PublicView | backend/invoices/views.py:308-322 | the found invoice's status and view time follow the rule above |
| InvoiceViews.PublicPay | backend/invoices/views.py:327-344 | a paid invoice gets no payment; any other gets one payment of the full total and its status is updated |
| InvoiceViews.PublicPaySettles | backend/invoices/views.py:336-342 | that payment always settles a positive total, with a payment date recorded |
| InvoiceViews.DuplicateAsWritten | backend/invoices/views.py:91-112 | as written: the copy is numbered, gets the saved copies of the items and its total from them, but keeps the original's prefetched payments, so its paid amount is theirs and its status follows the payment rule from draft |
| InvoiceViews.CoveredOriginalGivesLockedCopy | backend/invoices/views.py:91-112 | as written, an original paid 100 of 100 gives a paid copy, locked for editing; one paid 40 of 100 gives a draft claiming 40 paid |
| InvoiceViews.Duplicate | backend/invoices/views.py:91-112 | as intended: the copy is a numbered draft with a new token, the saved copies of the items, no payments, nothing paid and recomputed totals; the dates are copied as they were |
| InvoiceViews.CopyFields | backend/invoices/views.py:93-101 | the unsaved copy is the original with a new token, no number and status draft; every other field, `paid_amount` and the fetched payments and items included, is kept |
| InvoiceViews.Populate | backend/invoices/views.py:102-110 | the copy gets the next number, the given items and its total from them; its paid amount is the sum of the payments it reads, and its status and payment date follow the payment rule from draft |
| InvoiceViews.DuplicateIsEditable | backend/invoices/views.py:101-110 | a copy without payments stays a draft after `calculate_totals`, whatever its total, and so is never locked for editing |
| InvoiceViews.SendEmail | backend/invoices/views.py:251-295 | no e-mail address: refused, invoice untouched; otherwise `calculate_totals` runs (subtotal, tax, total and paid amount from the items and payments, `paid_at` by the payment rule, the number kept or assigned), only a delivered message moves draft or finalized to sent with `sent_at`, and no other field changes |
| StockSignals.Adjust | backend/inventory/stock_signals.py:42-44 | only the named product's stock moves, by the delta; no product means nothing moves |
| StockSignals.CapturedOld | backend/inventory/stock_signals.py:6-25 | a stored line's previous state is captured; a new or missing line counts as quantity 0, no product, not deleted |
| StockSignals.StockAfterSave | backend/inventory/stock_signals.py:27-80 | a created line takes what it holds; any other save gives back what the old line held and takes what the new one holds, across all four cases |
| StockSignals.StockAfterHardDelete | backend/inventory/stock_signals.py:82-91 | a physically deleted active line gives its quantity back to its product |
| StockSignals.CommittedAppend | backend/inventory/stock_signals.py:27-45 | a new line adds its own holding to a product's committed stock |
| StockSignals.CommittedUpdate | backend/inventory/stock_signals.py:47-80 | replacing a line changes a product's committed stock by the difference of the two lines |
| StockSignals.Inventory.constructor | backend/inventory/stock_signals.py:27-91 | with no lines, current stock equals initial stock |
| StockSignals.Inventory.Create | backend/inventory/stock_signals.py:39-45 | the new line is stored; stock follows the created-line rule; stock plus committed stock stays equal to the initial stock |
| StockSignals.Inventory.Save | backend/inventory/stock_signals.py:6-80 | the line is replaced; stock follows the update rule; the conservation invariant is kept |
| StockSignals.Inventory.HardDelete | backend/inventory/stock_signals.py:82-91 | the line is removed; stock follows the hard-delete rule; the conservation invariant is kept |
| StockSignals.CreateReducesStock | backend/inventory/stock_signals.py:40-44 | a line of 3 on stock 10 leaves 7 |
| StockSignals.UpdateAdjustsStock | backend/inventory/stock_signals.py:75-80 | raising a line from 2 to 5 takes 3 more; lowering it to 1 gives 4 back |
| StockSignals.DeleteRestoresStock | backend/inventory/stock_signals.py:87-91 | deleting a line of 4 brings the stock back to 10 |
| StockSignals.SoftDeleteThenRestoreIsNeutral | backend/inventory/stock_signals.py:47-61 | soft deleting then restoring an unchanged line leaves every product's stock as it was |
| InventoryImport.Amount | backend/inventory/views.py:57-60 | `Decimal(str(x or 0))`: an empty, zero or empty-text cell reads as 0, a number cell as itself, text as `Decimal` reads it, or not at all |
| InventoryImport.DecimalWhole | backend/inventory/views.py:57-60 | a whole number written as text reads as its value |
| InventoryImport.DecimalNumeral | backend/inventory/views.py:57-60 | digits, a point and digits read as the whole part plus the fraction |
| InventoryImport.DecimalOfNegated | backend/inventory/views.py:57-60 | text that reads as a value reads as its negation behind a minus sign |
| InventoryImport.DecimalRejects | backend/inventory/views.py:57-60 | text with a character that is no digit, whitespace, sign or point cannot be read |
| InventoryImport.UnreadablePrice | backend/inventory/views.py:57-60 | a named row whose price text holds a letter is unreadable (its `Decimal` conversion raises) |
| InventoryImport.SkipIsNameless | backend/inventory/views.py:40-47 | a row is skipped exactly when it has no name |
| InventoryImport.Key | backend/inventory/views.py:50 | the key is the SKU cell's text or number when it is true in Python's sense, else the text `NO-SKU-` plus the name |
| InventoryImport.FromRow | backend/inventory/views.py:52-61 | a row's entry copies its name, description and SKU cell, reads its amounts as `Decimal` does, and turns an empty unit into `pcs` |
| InventoryImport.AggregateKeys | backend/inventory/views.py:38-69 | a key is in the dictionary exactly when some read row carries it |
| InventoryImport.AggregateStock | backend/inventory/views.py:62-64 | the stock recorded for a key is the sum of its rows' stock cells |
| InventoryImport.StockForAbsent | backend/inventory/views.py:62-64 | a key no row carries sums to 0 |
| InventoryImport.LastRowWins | backend/inventory/views.py:65-69 | the last row under a key sets its name, description, price, unit and minimum level |
| InventoryImport.KeyOrderIsKeys | backend/inventory/views.py:52-61 | the insertion order lists each key once, and exactly the dictionary's keys |
| InventoryImport.AddRow | backend/inventory/views.py:39-69 | one row updates the dictionary as the fold step says, and appends its key to the order only when new and not skipped |
| InventoryImport.CollectRows | backend/inventory/views.py:38-69 | the loop over the rows builds exactly the folded dictionary and the key order |
| InventoryImport.BuildProducts | backend/inventory/views.py:80-97 | one product per key, in order, each built from its entry and the database stock |
| InventoryImport.PrefixStep | backend/inventory/views.py:38-69 | one more row moves the fold and the key order by one step |
| InventoryImport.DbStock | backend/inventory/views.py:75-85 | stock already in the database counts only for a real SKU that exists there; otherwise 0 |
| InventoryImport.ToProduct | backend/inventory/views.py:81-96 | the product gets the database stock plus the file's summed stock, and the entry's other fields |
| InventoryImport.UploadExcel | backend/inventory/views.py:22-110 | no business: refused; an amount `Decimal` cannot read: the 400 of the `except`; no named row: refused; a number SKU key: the 400 (`startswith` on a number); otherwise one product per key, in insertion order, each built from its entry and the database stock |
| InventoryImport.RealSkus | backend/inventory/views.py:75 | the keys without the `NO-SKU-` prefix, and a failure exactly when some key is a number |
| InventoryImport.NumberSkuKey | backend/inventory/views.py:50 | a named row with a non-zero number SKU puts a number key in the dictionary |
| InventoryImport.MergeStock | backend/inventory/views.py:83-94 | an existing real SKU adds the file's stock to the database stock; any other key takes the file's stock |
| InventoryImport.StockStats | backend/inventory/views.py:127-149 | the product count, the stock value (price × stock summed, 0 without products), the count at or below zero, and the count above zero and at or below the minimum level |
| InventoryImport.StockValueAppend | backend/inventory/views.py:137-140 | the stock value of two groups of products is the sum of their values |
| InventoryImport.EmptyStockHasNoValue | backend/inventory/views.py:137-140 | products without stock have no stock value |
| InventoryImport.StatsDisjoint | backend/inventory/views.py:142-143 | out-of-stock and low-stock never overlap, so together they never exceed the product count |
| DueInvoices.AfterSweep | backend/invoices/management/commands/check_due_invoices.py:40-49 | an open invoice due today becomes overdue; every other invoice is untouched |
| DueInvoices.Swept | backend/invoices/management/commands/check_due_invoices.py:40-49 | the sweep applies that rule to every invoice and keeps the table's length and order |
| DueInvoices.CountStep | backend/invoices/management/commands/check_due_invoices.py:37 | the counter grows by one exactly for each selected invoice |
| DueInvoices.NotesConcernSelected | backend/invoices/management/commands/check_due_invoices.py:21-36 | every notification concerns one of the invoices swept so far, of the pass's kind, and one that pass selects |
| DueInvoices.NotesCount | backend/invoices/management/commands/check_due_invoices.py:21-36 | each selected invoice gives one notification for its owner and at most one for its assignee: between one and two per selected invoice |
| DueInvoices.RemindedInvoicesUnchanged | backend/invoices/management/commands/check_due_invoices.py:12-17 | an invoice reminded about is never changed by the overdue pass the same day |
| DueInvoices.SweepIdempotent | backend/invoices/management/commands/check_due_invoices.py:40-49 | running the sweep again the same day changes nothing and selects nothing |
| DueInvoices.OthersUntouched | backend/invoices/management/commands/check_due_invoices.py:40-43 | invoices in any other status, or due on another day, keep their status |
| DueInvoices.NotifyAll | backend/invoices/management/commands/check_due_invoices.py:15-37 | one pass returns the count of selected invoices and their notifications for the owner, then the assignee |
| DueInvoices.Handle | backend/invoices/management/commands/check_due_invoices.py:10-70 | the table after the command is the swept table; both counts and both notification lists are those of the original table |
| LegacyCategories.MatchesFinance | backend/notifications/management/commands/categorize_legacy_notifications.py:36-40 | the keyword loop finds a match exactly when some finance keyword occurs in the lower-cased title |
| LegacyCategories.Categorised | backend/notifications/management/commands/categorize_legacy_notifications.py:7-47 | a categorised notification is unchanged; an uncategorised one whose title holds `stok` or `limit` becomes inventory, else finance on a finance keyword, else it stays uncategorised |
| LegacyCategories.AfterFirst | backend/notifications/management/commands/categorize_legacy_notifications.py:10-24 | after the first pass a notification is uncategorised exactly when it was and its title has no inventory keyword |
| LegacyCategories.HitsStep | backend/notifications/management/commands/categorize_legacy_notifications.py:24 | the counter grows by one exactly for each selected notification |
| LegacyCategories.InventoryStep | backend/notifications/management/commands/categorize_legacy_notifications.py:14-24 | one notification of the first pass: marked inventory and counted exactly when uncategorised with an inventory title, untouched otherwise |
| LegacyCategories.FinanceStep | backend/notifications/management/commands/categorize_legacy_notifications.py:34-45 | one notification of the second pass: it ends as `Categorised` says, and is counted exactly when the finance rule changes it |
| LegacyCategories.InventoryAt | backend/notifications/management/commands/categorize_legacy_notifications.py:14-24 | the notification at one index is replaced by its first-pass result, and reported as a hit exactly when the first rule marks it; every other index is unchanged |
| LegacyCategories.FinanceAt | backend/notifications/management/commands/categorize_legacy_notifications.py:34-45 | the notification at one index ends categorised, and is reported as a hit exactly when the finance rule marks it; every other index is unchanged |
| LegacyCategories.InventoryPass | backend/notifications/management/commands/categorize_legacy_notifications.py:10-24 | the pass categorises each notification by the first rule and counts those it changed |
| LegacyCategories.FinancePass | backend/notifications/management/commands/categorize_legacy_notifications.py:30-45 | over what the first pass left, the table ends fully categorised and the finance changes are counted |
| LegacyCategories.Handle | backend/notifications/management/commands/categorize_legacy_notifications.py:7-47 | each notification ends as `Categorised` says; both counts are of the original table |
| LegacyCategories.InventoryTakesPrecedence | backend/notifications/management/commands/categorize_legacy_notifications.py:18-30 | a title matching both tests ends in inventory |
| LegacyCategories.MessageIgnored | backend/notifications/management/commands/categorize_legacy_notifications.py:15 | the message never affects the category |
| LegacyCategories.CategorisedIdempotent | backend/notifications/management/commands/categorize_legacy_notifications.py:10 | running the command again changes nothing |
| LegacyCategories.UpperCaseStock | backend/notifications/management/commands/categorize_legacy_notifications.py:14-18 | an upper-case `STOK` title is an inventory title |
| LegacyCategories.UpperCasePayment | backend/notifications/management/commands/categorize_legacy_notifications.py:29-38 | a capitalised `Ödəniş` title is a finance title |
| UserViews.ListBusinesses | backend/users/views.py:11-12 | exactly the requester's own businesses |
| UserViews.BusinessListsAreDisjoint | backend/users/views.py:11-12 | two different users never see a common business |
| UserViews.PerformCreateBusiness | backend/users/views.py:14-22 | refused with code `plan_limit` and the plan's limit exactly when the business check fails; otherwise stored, owned by the requester and active |
| UserViews.BusinessQuotaNeverExceeded | backend/users/views.py:14-22 | creation never takes a user past the business quota of their plan |
| UserViews.Generate | backend/users/views.py:179-183 | a secret is drawn only when the user has none; an existing one is kept |
| UserViews.Enable | backend/users/views.py:199-220 | no secret, a wrong code and a code used in the last 60 seconds are each refused and change nothing; otherwise 2FA is enabled and the code is blocked for 60 seconds |
| UserViews.Disable | backend/users/views.py:225-230 | the flag and the secret are both cleared |
| UserViews.GenerateIsStable | backend/users/views.py:181-183 | generating again keeps the secret the first call drew |
| UserViews.ReplayRejected | backend/users/views.py:207-214 | a valid code enables 2FA once; the same code again within 60 seconds is refused |
| UserViews.ReplayWindowExpires | backend/users/views.py:214 | after 60 seconds the same valid code is accepted again |
| UserViews.DisableThenEnableNeedsSecret | backend/users/views.py:203-204 | after disabling, enabling first needs a new secret |
| UserViews.Account.constructor | backend/users/views.py:176-230 | a user starts with no secret, 2FA off and no blocked codes |
| UserViews.Account.Generate2FA | backend/users/views.py:179-194 | the user's state moves as `Generate` says and the stored secret is shown |
| UserViews.Account.Enable2FA | backend/users/views.py:199-220 | the outcome and the new state are those of `Enable` |
| UserViews.Account.Disable2FA | backend/users/views.py:225-230 | the new state is that of `Disable` |
| UserViews.ActiveSessions | backend/users/views.py:143-150 | exactly the caller's outstanding tokens that are not blacklisted |
| UserViews.Revoke | backend/users/views.py:166-172 | a token of the caller is blacklisted; any other id is not found and changes nothing |
| UserViews.RevokeOnlyTouchesCaller | backend/users/views.py:166-172 | revoking removes exactly that session from the caller's list, leaves other users' lists alone, and repeating it changes nothing |
| UserSignals.LocalPart | backend/users/signals.py:20 | the text before the first `@`, or the whole address without one |
| UserSignals.DefaultName | backend/users/signals.py:20 | the first name, or else the e-mail's local part, followed by `'s Business` |
| UserSignals.AutoCreateBusiness | backend/users/signals.py:8-22 | only a newly created user who owns no business gets one active business with the default name |
| UserSignals.NewUserOwnsOneBusiness | backend/users/signals.py:13-22 | after creation the user owns a business; one who owned none owns exactly the new one |
| UserSignals.HandleProUpgrade | backend/users/signals.py:26-66 | only a referred, unrewarded user on pro or premium is rewarded: a 10% coupon for them, a 20% coupon for the referrer, the referrer's count raised by one and the user's flag set |
| UserSignals.SaveAsWritten | backend/users/signals.py:61-66 | the filtered updates leave the caller's instance as it was, still unrewarded |
| UserSignals.StaleInstanceRewardsTwice | backend/users/signals.py:64-66 | saving that stale instance again rewards a second time: four coupons and two referrals counted |
| UserSignals.Save | backend/users/signals.py:26-66 | the intended save: a rewarded instance is marked rewarded as the row is |
| UserSignals.RewardOnlyOnce | backend/users/signals.py:34-35 | with the refreshed instance a second save issues no coupon and leaves the referrer's count alone |
| UserSignals.RewardCoupons | backend/users/signals.py:42-57 | a reward issues exactly one 10% coupon to the user and one 20% coupon to the referrer |
| UserSignals.Accounts.constructor | backend/users/signals.py:7-66 | no users, businesses or coupons at first |
| UserSignals.Accounts.SaveUser | backend/users/signals.py:7-66 | the tables and the caller's instance after a save are those of `Save` |
| Analytics.GetBusiness | backend/invoices/analytics_views.py:18-23 | the report refuses (PermissionDenied) exactly when no active business resolved, and otherwise runs on that business |
| Analytics.SortBy | backend/invoices/analytics_views.py:157 | `list.sort(key=...)`: the result is ordered by ascending key and is a permutation of the input |
| Analytics.Take | backend/invoices/analytics_views.py:168 | `s[:n]`: the first min(n, len) elements, a prefix of the input |
| Analytics.TakeKeepsOrder | backend/invoices/analytics_views.py:168 | cutting a sorted list keeps it sorted and keeps only its own elements |
| Analytics.BehaviourSplit | backend/invoices/analytics_views.py:34-36 | on-time payments are those paid on or before the due date; on-time plus late is the payment count |
| Analytics.LateMeansAfterDue | backend/invoices/analytics_views.py:36-42 | the late count (total minus on-time) is exactly the number of payments made after the due date, the set the average overdue delay is taken over |
| Analytics.SpeedBucket | backend/invoices/analytics_views.py:89-96 | days from invoice to payment: bucket 0-7 iff at most 7, 8-14 iff 8..14, 15-30 iff 15..30, 30+ otherwise |
| Analytics.SpeedBuckets | backend/invoices/analytics_views.py:77-96 | the loop's four counters equal the number of payments whose days-taken fall in each bucket |
| Analytics.SpeedBucketsCoverAll | backend/invoices/analytics_views.py:98 | every payment is counted in exactly one bucket, so the four counts sum to the payment count |
| Analytics.Rating | backend/invoices/analytics_views.py:129-145 | grade A iff average delay at most 3, B iff over 3 up to 10, C iff over 10 up to 20, D beyond 20 |
| Analytics.RatingMonotone | backend/invoices/analytics_views.py:129-145 | a larger average delay never earns a better grade |
| Analytics.DelaysByClientSpec | backend/invoices/analytics_views.py:112-122 | a client has an entry exactly when it appears in the first-payment order; each entry is exactly the delays of that client's payments, in payment order (never empty); a client without an entry has no payments |
| Analytics.ClientsAnalytics | backend/invoices/analytics_views.py:112-122 | the loop builds exactly the per-client delay lists and their insertion order |
| Analytics.Ratings | backend/invoices/analytics_views.py:125-154 | one rating per client in dictionary order; its average is the mean of exactly that client's payment delays, and its grade is the one that average earns |
| Analytics.CustomerRatings | backend/invoices/analytics_views.py:156-168 | the ten ratings (all of them when fewer) with the smallest average delays: exactly min(10, clients) ratings, drawn from the clients' ratings, sorted ascending, and no rating left out has a smaller average than one kept |
| Analytics.OverdueInvoices | backend/invoices/analytics_views.py:180-183 | exactly the invoices past due that are not draft, paid or cancelled |
| Analytics.CriticalInvoices | backend/invoices/analytics_views.py:189-191 | exactly the overdue invoices whose due date is more than 90 days back |
| Analytics.OverdueDays | backend/invoices/analytics_views.py:180-191 | every overdue invoice is at least one day overdue, every critical one at least 91 |
| Analytics.Remainings | backend/invoices/analytics_views.py:186 | the unpaid part (total minus paid) of each invoice, one per invoice |
| Analytics.AgingBucket | backend/invoices/analytics_views.py:203-213 | days overdue: bucket 1-30 iff at most 30, 31-60 iff 31..60, 61-90 iff 61..90, 90+ otherwise |
| Analytics.Aging | backend/invoices/analytics_views.py:195-213 | the loop's four amounts equal the unpaid debt of the overdue invoices in each bucket |
| Analytics.AgingCoversTotal | backend/invoices/analytics_views.py:186-213 | the four aging amounts add up to the total overdue amount |
| Analytics.CriticalDebtIsOldestBucket | backend/invoices/analytics_views.py:189-192 | the critical debt equals the 90+ aging bucket |
| Analytics.DebtorKeys | backend/invoices/analytics_views.py:220-232 | the debtors are exactly the clients with an overdue invoice, each once in insertion order |
| Analytics.DebtorRow | backend/invoices/analytics_views.py:234-238 | a debtor's total debt sums the unpaid amounts of exactly that client's overdue invoices and its count is their number |
| Analytics.DebtorMaxDays | backend/invoices/analytics_views.py:235-240 | a debtor's max overdue days bounds every one of its invoices and is 0 or attained by one |
| Analytics.Debtors | backend/invoices/analytics_views.py:220-240 | the loop builds exactly the debtor rows and their insertion order |
| Analytics.DebtorRows | backend/invoices/analytics_views.py:242 | the rows of the map, one per debtor, in insertion order |
| Analytics.DebtorsList | backend/invoices/analytics_views.py:242-243 | the debtor rows sorted by descending total debt, a permutation of the rows |
| Analytics.MonthsBack | backend/invoices/analytics_views.py:309-313 | the wrap-around loop yields a month in 1..12 exactly i months before the current one |
| Analytics.MonthsAhead | backend/invoices/analytics_views.py:355-359 | the wrap-around loop yields a month in 1..12 exactly i months after the current one |
| Analytics.Growth | backend/invoices/analytics_views.py:293-294 | the relative change times 100 over a positive base; over a non-positive base 100 for any revenue and 0 for none |
| Analytics.GrowthSign | backend/invoices/analytics_views.py:293-294 | growth is positive iff revenue rose over a positive base (or appeared over none), and zero over a positive base iff revenue is unchanged |
| Analytics.TaxBase | backend/invoices/analytics_views.py:509 | the tax base is non-negative, at least the profit, and equal to 0 or the profit |
| Analytics.TaxBaseIsLeast | backend/invoices/analytics_views.py:509 | the tax base is the least non-negative bound of the profit, i.e. max(0, profit) |
| Analytics.ParseYear | backend/invoices/analytics_views.py:469-473 | an absent, empty or unreadable year parameter falls back to the current year; a decimal one is read as its value |
| Analytics.ParseYearRoundTrip | backend/invoices/analytics_views.py:469-473 | a year written out in decimal is read back as that year |
| Analytics.Latest | backend/invoices/analytics_views.py:436 | the latest invoice date is one of the dates and no date is later |
| Analytics.ChurnSound | backend/invoices/analytics_views.py:429-444 | every churn entry is a client with invoices whose latest is more than 90 days old, inactive for today minus that date |
| Analytics.ChurnComplete | backend/invoices/analytics_views.py:435-444 | every such at-risk client has its entry |
| Analytics.ChurnRisk | backend/invoices/analytics_views.py:433-444 | the loop over the clients collects exactly the churn candidates, in client order |
| Analytics.ChurnList | backend/invoices/analytics_views.py:447-458 | the five candidates (all of them when fewer) longest inactive: exactly min(5, candidates) entries, drawn from the candidates, sorted by descending days inactive, and no candidate left out has been inactive longer than one kept |
| Analytics.MostInactive | backend/invoices/analytics_views.py:447-458 | the sort by descending days inactive and the cut to five, on any candidate list: the same selection property |
| PlanLimitsClient.ResourceEntry | frontend/src/hooks/usePlanLimits.js:27-46 | a limit and a usage are read exactly for the four resource names invoices, clients, expenses and businesses |
| PlanLimitsClient.CheckLimit | frontend/src/hooks/usePlanLimits.js:18-57 | unrestricted before the status loads and for an unknown resource; a null limit is allowed with the real usage; otherwise allowed iff usage is below the limit, with remaining = limit - usage |
| PlanLimitsClient.IsFeatureLocked | frontend/src/hooks/usePlanLimits.js:59-74 | never locked before the status loads or for an unknown name; forecast, csv_export, premium_pdf and custom_themes are locked iff the plan's flag is off |
| PlanLimitsClient.UsePlanLimits | frontend/src/hooks/usePlanLimits.js:76-93 | the demo account is shown as pro with themes; otherwise the plan name (free when empty), isPro iff the plan is pro or premium, themes iff the plan allows them |
| PlanLimitsClient.HookCheckLimit | frontend/src/hooks/usePlanLimits.js:83-86 | the demo account is always unrestricted; everyone else gets checkLimit |
| PlanLimitsClient.HookIsFeatureLocked | frontend/src/hooks/usePlanLimits.js:87-90 | the demo account is never locked; everyone else gets isFeatureLocked |
| PlanLimitsClient.ClientCheckAgreesWithBackend | frontend/src/hooks/usePlanLimits.js:32-43 | with a status fresh from the backend, the hook and the backend agree on whether one more client or business is allowed |
| PlanLimitsClient.InvoiceCheckIsStricter | frontend/src/hooks/usePlanLimits.js:28-31 | the hook's invoice usage counts every business of the user, so whatever it allows the backend's per-business check allows too |
| PlanLimitsClient.ForecastPageNeverLockedAsWritten | frontend/src/pages/ForecastAnalytics.jsx:23 | the page asks for "forecast_analytics", a name the hook does not know, so it is never locked even on the free plan, which has no forecast analytics |
| PlanLimitsClient.ForecastPageLocked | frontend/src/hooks/usePlanLimits.js:63-64 | the intended lock: locked iff the loaded plan lacks forecast analytics, never for the demo account or before loading |
| PlanLimitsClient.ForecastLockFollowsPlan | frontend/src/hooks/usePlanLimits.js:63-64 | with the intended lock, the forecast page is locked iff the user's membership is neither pro nor premium |
| TranslateErrors.Lookup | frontend/src/api/translateErrors.js:17-35 | `translations[msg]`: absent iff no entry has that English text, otherwise an entry's translation |
| TranslateErrors.Finish | frontend/src/api/translateErrors.js:48 | a known message becomes its translation, an unknown non-empty one stays, an empty one becomes the fallback |
| TranslateErrors.DataDetail | frontend/src/api/translateErrors.js:7-8 | a non-empty detail is the string under the body's "detail" key |
| TranslateErrors.EntryDetail | frontend/src/api/translateErrors.js:7-8 | a non-empty detail is a string stored under a "detail" key |
| TranslateErrors.Values | frontend/src/api/translateErrors.js:41 | `Object.values`: the values of the body's entries, in key order |
| TranslateErrors.Message | frontend/src/api/translateErrors.js:5-15 | a string error is its own message; otherwise the response detail, the detail, the message or the fallback, the response detail first, and never empty unless the fallback is |
| TranslateErrors.FieldError | frontend/src/api/translateErrors.js:38-45 | a field error is found only in an object body, and is a string among its flattened values |
| TranslateErrors.TranslateError | frontend/src/api/translateErrors.js:1-49 | a falsy error or an empty string yields the fallback; a string error is translated, kept, or replaced by the fallback |
| TranslateErrors.TableKeysDistinct | frontend/src/api/translateErrors.js:17-35 | no English text appears twice in the table |
| TranslateErrors.KnownMessagesTranslated | frontend/src/api/translateErrors.js:17-48 | every listed English message is shown as its Azerbaijani text |
| TranslateErrors.LookupListed | frontend/src/api/translateErrors.js:17-35 | with distinct keys, looking up an entry's English text yields that entry's translation |
| TranslateErrors.UnknownTextPassesThrough | frontend/src/api/translateErrors.js:48 | a non-empty string the table does not know is shown unchanged |
| TranslateErrors.SourcePriority | frontend/src/api/translateErrors.js:4-15 | without a string field error, the message is the response detail, else the error's detail, else its message, else the fallback, then translated |
| TranslateErrors.FieldErrorWins | frontend/src/api/translateErrors.js:38-46 | a string field error in the body wins over every other source, translated when known |
| TranslateErrors.TranslationsNonEmpty | frontend/src/api/translateErrors.js:17-35 | every English text and every translation in the table is non-empty |
| TranslateErrors.FirstFieldMessage | frontend/src/api/translateErrors.js:38-43 | Django REST framework's `{field: [msg, ...]}` body yields its first message |
| TranslateErrors.EmptyFieldSkipped | frontend/src/api/translateErrors.js:41 | an empty array adds nothing to the flattened values, so a later field's message is found |
| TranslateErrors.ResultNeverEmpty | frontend/src/api/translateErrors.js:1-49 | with a non-empty fallback the text shown is never empty, unless the first field error is itself the empty string |
| TranslateErrors.EmptyFieldErrorShownEmpty | frontend/src/api/translateErrors.js:42-43 | an empty string as the first field error is returned as the empty text, whatever the fallback |
| TranslateErrors.FinishNonEmpty | frontend/src/api/translateErrors.js:48 | with a non-empty fallback the final lookup never yields the empty text |
| TranslateErrors.ResultProvenance | frontend/src/api/translateErrors.js:1-49 | the text shown is the fallback, a translation from the table, the error string, or one of the error's own detail, message, response detail or field error |
| BusinessSwitch.Switch | frontend/src/context/BusinessContext.jsx:45-60 | switching selects and stores the business and purges exactly the cached queries whose key lacks "business"; switching to null clears the selection and purges nothing |
| BusinessSwitch.FindById | frontend/src/context/BusinessContext.jsx:67 | `find` by id: absent iff no listed business has the id, otherwise the first one that does |
| BusinessSwitch.FindByIdAt | frontend/src/context/BusinessContext.jsx:67 | the first listed business with an id is the one found for that id |
| BusinessSwitch.FindByRole | frontend/src/context/BusinessContext.jsx:80 | `find` by role: absent iff no listed business has the role, otherwise the first listed business that has it |
| BusinessSwitch.Preferred | frontend/src/context/BusinessContext.jsx:80-81 | `ownedBusiness \|\| businesses[0]`: the first owned business when the list holds one, otherwise the first business |
| BusinessSwitch.TokenChanged | frontend/src/context/BusinessContext.jsx:33-41 | without a token the selection and its stored copy are cleared and the cache is left alone; with one nothing changes |
| BusinessSwitch.StorageFollowsActive | frontend/src/context/BusinessContext.jsx:45-96 | switching, sign-out and auto-selection all keep local storage equal to the active business |
| BusinessSwitch.AutoSelect | frontend/src/context/BusinessContext.jsx:63-96 | while loading or without a list nothing changes; once the list has loaded the active business is a listed one or none, and one is active exactly when the list is non-empty; the cache is either untouched or purged down to the business-list queries |
| BusinessSwitch.ListedActiveRefreshed | frontend/src/context/BusinessContext.jsx:67-74 | an active business still listed is replaced by the list's copy of it and nothing is purged |
| BusinessSwitch.VanishedActiveReplaced | frontend/src/context/BusinessContext.jsx:75-86 | a vanished active business is replaced by an owned one when the list has one, purging the other queries, and is cleared when the list is empty |
| BusinessSwitch.NothingActivePicksOwned | frontend/src/context/BusinessContext.jsx:89-94 | with nothing active and a non-empty list the preferred (owned first) business is chosen |
| BusinessSwitch.AutoSelectSettles | frontend/src/context/BusinessContext.jsx:63-96 | with distinct ids, running the effect again on its own result changes nothing, so the effect does not loop |
| BusinessSwitch.PurgeIdempotent | frontend/src/context/BusinessContext.jsx:51-56 | a second switch purges nothing more than the first did |
| BusinessSwitch.Provider.constructor | frontend/src/context/BusinessContext.jsx:15-19 | the provider starts from the business saved in local storage, stored and active alike |
| BusinessSwitch.Provider.SwitchBusiness | frontend/src/context/BusinessContext.jsx:45-60 | the provider's new state is the switched state |
| BusinessSwitch.Provider.OnTokenChange | frontend/src/context/BusinessContext.jsx:33-41 | the provider's new state is the sign-out step applied to the old one |
| BusinessSwitch.Provider.OnBusinessesLoaded | frontend/src/context/BusinessContext.jsx:63-96 | the provider's new state is the auto-select step applied to the old one |
| ExpensesPage.TotalCount | frontend/src/pages/Expenses.jsx:93 | the server's count when non-zero, otherwise the number of loaded expenses |
| ExpensesPage.TotalPages | frontend/src/pages/Expenses.jsx:94 | the number of pages of 50: zero iff there are no expenses, otherwise the least page count that holds them all |
| ExpensesPage.ButtonCount | frontend/src/pages/Expenses.jsx:387 | at most five buttons, and exactly five unless there are fewer pages |
| ExpensesPage.PageNumber | frontend/src/pages/Expenses.jsx:388-392 | for a current page in range, every shown button's number lies within 1..totalPages |
| ExpensesPage.PageWindow | frontend/src/pages/Expenses.jsx:387-392 | one page number per shown button |
| ExpensesPage.WindowWellFormed | frontend/src/pages/Expenses.jsx:387-392 | for a current page in range the buttons show consecutive page numbers within 1..totalPages, the current page among them, and in the middle away from both ends |
| ExpensesPage.WindowEnds | frontend/src/pages/Expenses.jsx:389-391 | the window starts at page 1 near the front and ends at the last page near the end |
| ExpensesPage.Previous | frontend/src/pages/Expenses.jsx:380 | one page back, never below page 1 |
| ExpensesPage.Next | frontend/src/pages/Expenses.jsx:406 | one page on, never beyond the last page |
| ExpensesPage.StepsStayInRange | frontend/src/pages/Expenses.jsx:380-407 | previous and next keep a page within 1..totalPages, stop at the ends, and next then previous returns to the page |
| ExpensesPage.FilteredExpenses | frontend/src/pages/Expenses.jsx:195-197 | exactly the expenses in the response's `results` whose description contains the search term, ignoring case |
| ExpensesPage.EmptySearchKeepsAll | frontend/src/pages/Expenses.jsx:195-197 | an empty search keeps every expense of the response's `results`, in order |
| ExpensesPage.SearchIgnoresTermCase | frontend/src/pages/Expenses.jsx:195-197 | searching for the lower-cased term gives the same list as the term itself |
| ExpensesPage.Pager.constructor | frontend/src/pages/Expenses.jsx:25-30 | the page starts at page 1 with an empty search |
| ExpensesPage.Pager.SearchChange | frontend/src/pages/Expenses.jsx:96-99 | a new search term always starts again from page 1 |
| ExpensesPage.Pager.PreviousPage | frontend/src/pages/Expenses.jsx:380 | the page becomes the previous page of the old one |
| ExpensesPage.Pager.NextPage | frontend/src/pages/Expenses.jsx:406 | the page becomes the next page of the old one |
| ExpensesPage.Pager.GoTo | frontend/src/pages/Expenses.jsx:397 | a page button sets the page to the number that button shows |
| RegisterPage.Criteria | frontend/src/pages/Register.jsx:58-62 | the number of criteria met is at most five |
| RegisterPage.Strength | frontend/src/pages/Register.jsx:54-64 | the strength is 0 for an empty password and otherwise the number of criteria met, capped at 4 |
| RegisterPage.Scan | frontend/src/pages/Register.jsx:60-62 | the scan finds an upper-case letter, a digit and a symbol exactly when the password has one |
| RegisterPage.PasswordStrength | frontend/src/pages/Register.jsx:54-64 | the step-by-step score equals the strength |
| RegisterPage.StrengthMonotone | frontend/src/pages/Register.jsx:54-64 | typing one more character never lowers the strength |
| RegisterPage.LabelIndexInRange | frontend/src/pages/Register.jsx:213-216 | whenever a label is shown, strength - 1 indexes one of the four labels and colours |
| RegisterPage.StrengthExamples | frontend/src/pages/Register.jsx:54-64 | a short lower-case word scores 0 and a long password with capitals, digits and symbols scores 4 |
| RegisterPage.HandleSubmit | frontend/src/pages/Register.jsx:25-29 | the submission stops before any request iff the two passwords differ, and otherwise sends the common password |
| RegisterPage.RegisterError | frontend/src/pages/Register.jsx:35-48 | without a body or field the fixed text; otherwise the first message of a list, the string itself, or the value rendered as JSON, except that a duplicate e-mail in either language becomes the sign-in hint; an empty message list yields no text |
| RegisterPage.DuplicateEmailHinted | frontend/src/pages/Register.jsx:43-44 | both spellings of the duplicate e-mail error lead to the same hint |
| NotificationsPage.Upper | frontend/src/pages/Notifications.jsx:43 | `toUpperCase`: the same length, each ASCII letter upper-cased and everything else kept |
| NotificationsPage.Role | frontend/src/pages/Notifications.jsx:42-43 | a missing or empty role counts as OWNER; any other role is upper-cased |
| NotificationsPage.RoleFiltered | frontend/src/pages/Notifications.jsx:45-52 | sales representatives and accountants see exactly the notifications not about stock (category inventory, or a title containing "stok"); every other role sees all of them, in order |
| NotificationsPage.OwnerSeesAll | frontend/src/pages/Notifications.jsx:42-52 | an absent, empty, owner or manager role sees every notification, in order |
| NotificationsPage.SalesRepSeesNoStock | frontend/src/pages/Notifications.jsx:45-52 | a sales representative, whatever the case of the stored role, never sees an inventory notification or one whose title mentions stock |
| NotificationsPage.TabFiltered | frontend/src/pages/Notifications.jsx:54-58 | the unread tab shows the unread notifications, the read tab the read ones, any other tab all of them |
| NotificationsPage.UnreadCount | frontend/src/pages/Notifications.jsx:60 | the unread count never exceeds the number of notifications |
| NotificationsPage.TabsPartition | frontend/src/pages/Notifications.jsx:138-140 | the unread and read tabs split the list, so the read badge, total minus unread, is the size of the read tab |
| NotificationsPage.FormatDate | frontend/src/pages/Notifications.jsx:62-76 | with the elapsed milliseconds floored to whole minutes, hours and days: "just now" iff under one minute; "n minutes ago" iff 1 to 59 minutes, with n the minutes; "n hours ago" iff at least 60 minutes and under 24 hours, with n the hours; "n days ago" iff at least 24 hours and under 7 days, with n the days; the date itself iff 7 days or more |
| NotificationsPage.LabelNumbersInRange | frontend/src/pages/Notifications.jsx:70-73 | every number shown is in its unit's range: 1-59 minutes, 1-23 hours, 1-6 days |
| NotificationsPage.GroupOf | frontend/src/pages/Notifications.jsx:83-90 | today iff 0 whole days old, yesterday iff 1, this month iff 7 to 29, earlier iff 30 or more |
| NotificationsPage.FutureIsThisWeek | frontend/src/pages/Notifications.jsx:83-88 | a notification dated in the future has a negative age and lands in "this week" |
| NotificationsPage.LabelMatchesGroup | frontend/src/pages/Notifications.jsx:62-90 | the time label and the group agree: minutes and hours are today, one day is yesterday, two to six days this week, a date this month or earlier |
| NotificationsPage.MembersSnoc | frontend/src/pages/Notifications.jsx:92-93 | appending a notification adds it to its own group only |
| NotificationsPage.GroupByDate | frontend/src/pages/Notifications.jsx:78-96 | a group is present iff some notification has that age, and it holds exactly those notifications, in list order |
| NotificationsPage.GroupsPartition | frontend/src/pages/Notifications.jsx:78-96 | every notification is shown in exactly one group: the group sizes add up to the list's length |
| PhoneInput.OperatorsShape | frontend/src/components/common/PhoneInput.jsx:4-14 | every listed operator code is three digits starting with 0 |
| PhoneInput.From | frontend/src/components/common/PhoneInput.jsx:26 | `substring(i)`: the rest of the string from i, empty past the end |
| PhoneInput.Slice | frontend/src/components/common/PhoneInput.jsx:61-63 | `substring(i, j)`: the part between i and j clamped to the string, empty past the end |
| PhoneInput.FirstPrefixing | frontend/src/components/common/PhoneInput.jsx:25 | the first operator code the cleaned number starts with, none earlier in the list, or none at all |
| PhoneInput.FindOperator | frontend/src/components/common/PhoneInput.jsx:25 | a listed code the cleaned number starts with, when there is one; 050 when none matches |
| PhoneInput.Clean | frontend/src/components/common/PhoneInput.jsx:21-23 | the cleaned national form is all digits, non-empty and starts with 0 |
| PhoneInput.Parse | frontend/src/components/common/PhoneInput.jsx:18-28 | an empty value gives operator 050 and no number; otherwise the operator found in the cleaned form (050 when none) and the digits after it |
| PhoneInput.TypedNumber | frontend/src/components/common/PhoneInput.jsx:40 | the typed number keeps only digits, at most the first seven |
| PhoneInput.Emit | frontend/src/components/common/PhoneInput.jsx:44 | the value emitted is "+994", the operator without its leading 0, then the number |
| PhoneInput.NumberChange | frontend/src/components/common/PhoneInput.jsx:39-46 | typing keeps the operator, stores the cleaned number and emits the value built from them |
| PhoneInput.OperatorSelect | frontend/src/components/common/PhoneInput.jsx:48-55 | picking an operator keeps the number and emits the value built from the new operator |
| PhoneInput.EmittedDigits | frontend/src/components/common/PhoneInput.jsx:44 | the digits of an emitted value are 994, the operator's last two digits, then the number |
| PhoneInput.CleanEmitted | frontend/src/components/common/PhoneInput.jsx:21-23 | cleaning an emitted value restores the national form, operator then number |
| PhoneInput.FindListedOperator | frontend/src/components/common/PhoneInput.jsx:25 | a string that starts with a listed operator code is attributed to that operator |
| PhoneInput.RoundTrip | frontend/src/components/common/PhoneInput.jsx:18-55 | parsing an emitted value gives back the operator and the number that produced it |
| PhoneInput.RemoveSpaces | frontend/src/components/common/PhoneInput.jsx:58-65 | the display with its spaces removed holds no space |
| PhoneInput.RemoveSpacesAppend | frontend/src/components/common/PhoneInput.jsx:58-65 | removing spaces distributes over concatenation |
| PhoneInput.RemoveSpacesOfDigits | frontend/src/components/common/PhoneInput.jsx:58-65 | a digit string has no spaces to remove |
| PhoneInput.FormatDisplay | frontend/src/components/common/PhoneInput.jsx:58-65 | up to three digits are shown as they are, four or five as XXX XX, six or more as XXX XX XX with digits past the seventh dropped |
| PhoneInput.RemoveSpaceBetween | frontend/src/components/common/PhoneInput.jsx:62-63 | removing spaces around a single separating space joins the two sides' spaceless forms |
| PhoneInput.RemoveTwoSpaces | frontend/src/components/common/PhoneInput.jsx:61-63 | removing the spaces of three digit groups joined by single spaces gives the groups back, concatenated |
| PhoneInput.FormatDisplayRoundTrip | frontend/src/components/common/PhoneInput.jsx:58-65 | deleting the spaces of the display gives the number back, for up to seven digits |
| PhoneInput.FullNumberLayout | frontend/src/components/common/PhoneInput.jsx:58-65 | a full seven-digit number is shown as XXX XX XX |
| InvoicesPage.FilteredInvoices | frontend/src/pages/Invoices.jsx:81-92 | nothing before the list loads; then exactly the invoices whose number or client name contains the search term ignoring case and whose status matches the filter ("all" matches every status) |
| InvoicesPage.NoFilterListsAll | frontend/src/pages/Invoices.jsx:81-92 | with an empty search and the "all" filter every loaded invoice is listed, in order |
| InvoicesPage.StatusFilterExact | frontend/src/pages/Invoices.jsx:88 | with a status filter other than "all", every listed invoice has that status |
| InvoicesPage.CanPay | frontend/src/pages/Invoices.jsx:546 | the payment button acts for sent, viewed and overdue invoices, and never for a draft, finalized, paid or cancelled one |
| InvoicesPage.GuardsExclusive | frontend/src/pages/Invoices.jsx:188-192 | no status is both editable (draft) and payable (sent, viewed, overdue); paid and cancelled invoices are neither |
| InvoicesPage.HandleEdit | frontend/src/pages/Invoices.jsx:188-205 | editing is refused iff the invoice is not a draft; otherwise the editor gets exactly the invoice's rows, or exactly the one empty row (unit "pcs") when it has none |
| InvoicesPage.AddItem | frontend/src/pages/Invoices.jsx:254 | one new empty row is appended and the existing rows are kept |
| InvoicesPage.RemoveItem | frontend/src/pages/Invoices.jsx:255 | the row at the index is removed and the later rows move up one place; an index out of range changes nothing |
| InvoicesPage.RemoveUndoesAdd | frontend/src/pages/Invoices.jsx:254-255 | removing the row just added gives the rows back |
| InvoicesPage.Numbered | frontend/src/pages/Invoices.jsx:236-244 | one payload row per editor row, in order: each carries every field of its editor row and its position as the order |
| InvoicesPage.HandleSave | frontend/src/pages/Invoices.jsx:217-252 | busy while a save is pending; refused iff no client is chosen, then iff no row has a description; otherwise an update exactly when an invoice is being edited (with its id and status) and a creation otherwise (stored as a draft when saved for sending, with the chosen status when not); the saved rows are exactly the rows with a description, in order, every field kept and each numbered by its position; client, invoice date and notes are copied, and an empty due date becomes the invoice date |
| InvoicesPage.BlankRowDropped | frontend/src/pages/Invoices.jsx:222-244 | a blank row between two filled ones is dropped and the later row takes its place in the numbering |
| InvoicesPage.WhatsAppNumber | frontend/src/pages/Invoices.jsx:303-305 | the number in the link is digits only |
| InvoicesPage.HandleWhatsApp | frontend/src/pages/Invoices.jsx:289-309 | refused iff the client has no phone; otherwise the link uses the cleaned number and marks the invoice sent iff it never was |
| InvoicesPage.NationalFormsAgree | frontend/src/pages/Invoices.jsx:303-305 | the national form 0XXXXXXXXX and the bare nine digits both become 994XXXXXXXXX |
| InvoicesPage.InternationalKept | frontend/src/pages/Invoices.jsx:303-305 | a number written as +994 followed by nine digits is kept as 994 and those digits |
| InvoicesPage.PhoneFieldValueAccepted | frontend/src/pages/Invoices.jsx:303-305 | a value emitted by the phone field with a full seven-digit number goes to WhatsApp as 994, operator, number |
| InvoicesPage.ShortNationalPrefixedTwice | frontend/src/pages/Invoices.jsx:303-305 | a short national number is prefixed twice: 0123456 becomes 994994123456 |

## Left out

- PDF rendering, QR codes and e-mail delivery are not modelled. `InvoiceViews` receives their outcome as a boolean.
- Random values are parameters: share tokens, TOTP secrets and backup codes. Coupon codes keep only their fixed prefix (`NEW-10-`, `REF-20-`).
- TOTP verification is an oracle `codeValid`. The replay cache is a map from code to expiry second; cache eviction by the cache backend is not modelled.
- Database transactions, `select_for_update` and concurrent requests are not modelled. Each operation runs alone and in full.
- Team delegation is not modelled. The business-context resolver (backend/users/mixins.py) never marks a team member, so only its owner-only behaviour is modelled. The gate runs before the view resolves the business; it is proved never to deny without a team marker, whether the business has been resolved yet or not.
- Decimal quantisation to two places on save is not modelled, nor are float conversions (`float(...)`) and `round(..., 1)` in the reports. Money is exact.
- Analytics.CustomerRatings: sorts by the unrounded average delay. The source sorts by the value rounded to one decimal, so ties after rounding may order differently.
- Analytics.SortBy: states sortedness and permutation, not the stability of Python's sort.
- Percentages, linear-regression forecasts and the cash-flow projection of the analytics views are not modelled (floating point). Of the forecast view, only the month arithmetic and the growth rates are modelled.
- InvoiceModel.NextAfter: the last number's suffix is read as plain decimal digits only. A sign, surrounding whitespace or underscores, which Python's `int()` accepts, send it to the fallback here. Numbers that `save` itself hands out are plain digits.
- BusinessContext.Resolve: reads the claimed id as `int()` does for a sign, surrounding whitespace (every character `str.isspace()` accepts) and ASCII digits. Underscores between digits and non-ASCII digits, which `int()` also accepts, count as malformed here.
- Analytics.ParseYear: reads only plain decimal digits. The sign, surrounding whitespace and underscores that Python's `int()` accepts are not modelled.
- Spreadsheet reading (openpyxl) is not modelled. A row arrives padded to seven cells. The SKU, price, stock and minimum-level cells may each be empty, text or a number; name, description and unit arrive as text, and file-level parse errors are left out.
- InventoryImport.Amount: reads text as a sign, digits and at most one point. The exponents, `Infinity`, `NaN` and underscores that `Decimal` also accepts are treated as unreadable.
- InventoryImport.Key: a name cell holding a number is not modelled. The name is always text, so `NO-SKU-` plus a number's rendering does not arise.
- Lower-casing covers ASCII and the Azerbaijani capitals Ə, Ö, Ü, Ç, Ş, Ğ, not full Unicode case folding. Upper-casing of role names covers ASCII only.
- `String.prototype.trim` covers the listed whitespace characters only.
- SoftDelete.Table.Delete: takes one timestamp for the whole call, where each related row's own `delete` reads the clock again, so the related rows' times may be later. It marks only the rows the hook returns, one level deep: rows whose own hook would return further rows are not followed.
- NotificationsPage.FormatDate: the calendar rendering of dates older than a week (day, month name, year) is the date value itself.
- Object key order of the groups, local storage JSON encoding and React's render and effect scheduling are not modelled. Each effect is one method call.
- The auto-select effect compares the found business with the active one by value, where the source compares their `JSON.stringify` texts.
- TranslateErrors.TranslateError: a `detail` that is not a string is treated as absent. Inherited `Object.prototype` keys in the translations lookup are not modelled.
- `updateItem` of frontend/src/pages/Invoices.jsx is not modelled. It mutates a shallow copy's shared row objects, so its aliasing would need a heap model of rows.
- The client-side totals of the invoice editor and the `Number(x) || 0` coercions are not modelled (floating point).
- InvoicesPage.HandleWhatsApp: takes the target invoice directly. The early return when neither a row nor an edited invoice is given, and the message text with its link, are not modelled.
- RegisterPage.RegisterError: the first key is given as present or absent. An empty-string first key, which JavaScript treats as absent, is not distinguished.
- Password lengths count characters, where JavaScript counts UTF-16 code units.
- UserSignals.SaveAsWritten: states only that the caller's instance comes back unchanged. The database effect is pinned down by the lemmas beside it.
- StockSignals: assumes that invoice lines carry an `is_deleted` mark and an `all_objects` manager, as the handlers read them (backend/inventory/stock_signals.py:14-87). `InvoiceItem` (backend/invoices/models.py:128-141) is a plain model without them, so as written the handlers raise `AttributeError` on the first line saved, if they are connected at all. The model follows the handlers.

## Findings

| source | as written | input that shows it | evidently intended | confidence | as-written member | corrected member |
|---|---|---|---|---|---|---|
| backend/invoices/models.py:45-95 | `invoice_number` is unique across the whole table, but `save` numbers each business's invoices on its own, from INV-1001 | business 1 holds INV-1001, and business 2 saves its first invoice, numbered INV-1001: the unique constraint rejects it | numbers unique within a business, so every business can number from INV-1001 | high, not executed | InvoiceModel.SecondBusinessFirstInvoiceFails | InvoiceModel.ScopedNumberingNeverCollides |
| backend/users/signals.py:61-66 | the reward sets `referral_rewarded` with a queryset `update`, so the saved instance still says not rewarded | a referred user upgraded to pro is saved twice through the same instance: the second save writes the stale flag back and rewards again (four coupons, two referrals counted) | each referral rewarded once, as with a refreshed instance | medium, not executed | UserSignals.StaleInstanceRewardsTwice | UserSignals.RewardOnlyOnce |
| frontend/src/pages/ForecastAnalytics.jsx:23 | the page asks `isFeatureLocked('forecast_analytics')`, a name the hook does not handle, so the result is always false | a free-plan user opens the forecast page: it is not locked, although the free plan has no forecast analytics | `isFeatureLocked('forecast')`, locked exactly for plans without forecast analytics | high, not executed | PlanLimitsClient.ForecastPageNeverLockedAsWritten | PlanLimitsClient.ForecastLockFollowsPlan |
| backend/invoices/views.py:91-112 | `duplicate` reads the invoice through a queryset that prefetches `payments`; clearing the primary key and saving keep that cache, so `calculate_totals` on the copy sums the original's payments | an original with total 100 and one payment of 100 is duplicated: the copy comes back paid with 100 paid, owns no payment row, and is locked for editing | a fresh draft with nothing paid, as the explicit `status = 'draft'` asks | medium, not executed | InvoiceViews.CoveredOriginalGivesLockedCopy | InvoiceViews.Duplicate |
