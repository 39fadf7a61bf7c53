/**
 * Subscription quotas (backend/users/plan_limits.py): a membership tier picks
 * a row of limits, and a resource may be created while the counted usage is
 * strictly below its limit; a null limit means unlimited. Each resource is
 * counted over its own scope, given here as the rows a query would see.
 */
module PlanLimits {
  import opened Common

  /** One row of `PLAN_LIMITS`; `None` is Python's `None` (no limit). */
  datatype Limits = Limits(
    invoicesPerMonth: Option<nat>,
    clients: Option<nat>,
    expensesPerMonth: Option<nat>,
    businesses: Option<nat>,
    forecastAnalytics: bool,
    csvExport: bool,
    premiumPdf: bool,
    apiAccess: bool,
    teamMembers: Option<nat>,
    customThemes: bool)

  const Free := Limits(Some(5), Some(10), Some(20), Some(1), false, false, false, false, Some(0), false)
  const Pro := Limits(Some(100), None, None, Some(5), true, true, true, false, Some(0), false)
  const Premium := Limits(None, None, None, None, true, true, true, true, None, true)

  /** `membership or 'free'`: the plan name reported back to the client. */
  function PlanName(membership: string): (plan: string)
    ensures plan != ""
    ensures membership != "" ==> plan == membership
  {
    if membership == "" then "free" else membership
  }

  /** `get_plan_limits`: the row for the plan, with `free` for an empty or unknown membership. */
  function GetPlanLimits(membership: string): (l: Limits)
    ensures membership == "pro" ==> l == Pro
    ensures membership == "premium" ==> l == Premium
    ensures membership != "pro" && membership != "premium" ==> l == Free
  {
    var plan := PlanName(membership);
    if plan == "pro" then Pro
    else if plan == "premium" then Premium
    else Free
  }

  /** The dictionary a `check_*_limit` returns. */
  datatype LimitCheck = LimitCheck(allowed: bool, current: nat, limit: Option<nat>)

  /**
   * The shared shape of every `check_*_limit`: an unlimited resource is allowed
   * and reports usage 0 whatever the real count; otherwise the count is
   * reported and the resource is allowed iff it is strictly below the limit.
   */
  function CheckAgainst(limit: Option<nat>, count: nat): (r: LimitCheck)
    ensures limit.None? ==> r == LimitCheck(true, 0, None)
    ensures limit.Some? ==> r.current == count && r.limit == limit && (r.allowed <==> count < limit.value)
  {
    if limit.None? then LimitCheck(true, 0, None)
    else LimitCheck(count < limit.value, count, limit)
  }

  // ---------------------------------------------------------------------------
  // The rows the counting queries run over

  type BusinessId = nat
  type UserId = nat

  datatype YearMonth = YearMonth(year: int, month: int)

  datatype BusinessRow = BusinessRow(id: BusinessId, owner: UserId)
  datatype InvoiceRow = InvoiceRow(business: BusinessId, createdAt: YearMonth)
  datatype ExpenseRow = ExpenseRow(business: BusinessId, date: YearMonth)
  datatype ClientRow = ClientRow(business: BusinessId)

  datatype User = User(id: UserId, membership: string)

  /** `business__user=user`: the row's business is one of the user's. */
  predicate OwnedBy(businesses: seq<BusinessRow>, b: BusinessId, user: User)
  {
    exists k | 0 <= k < |businesses| :: businesses[k].id == b && businesses[k].owner == user.id
  }

  /** Invoices of one business created in the given calendar month. */
  function InvoicesInMonth(invoices: seq<InvoiceRow>, b: BusinessId, now: YearMonth): (r: seq<InvoiceRow>)
    ensures forall x :: x in r <==> x in invoices && x.business == b && x.createdAt == now
  {
    Filter(invoices, (x: InvoiceRow) => x.business == b && x.createdAt == now)
  }

  /** Expenses of one business dated in the given calendar month. */
  function ExpensesInMonth(expenses: seq<ExpenseRow>, b: BusinessId, now: YearMonth): (r: seq<ExpenseRow>)
    ensures forall x :: x in r <==> x in expenses && x.business == b && x.date == now
  {
    Filter(expenses, (x: ExpenseRow) => x.business == b && x.date == now)
  }

  /** `check_invoice_limit`: the monthly quota, counted within the one business. */
  function CheckInvoiceLimit(user: User, b: BusinessId, invoices: seq<InvoiceRow>, now: YearMonth): (r: LimitCheck)
    ensures GetPlanLimits(user.membership).invoicesPerMonth.None? ==> r == LimitCheck(true, 0, None)
    ensures GetPlanLimits(user.membership).invoicesPerMonth.Some? ==>
              r.current == |InvoicesInMonth(invoices, b, now)| &&
              r.limit == GetPlanLimits(user.membership).invoicesPerMonth &&
              (r.allowed <==> r.current < r.limit.value)
  {
    var limit := GetPlanLimits(user.membership).invoicesPerMonth;
    if limit.None? then LimitCheck(true, 0, None)
    else CheckAgainst(limit, |InvoicesInMonth(invoices, b, now)|)
  }

  /** `check_client_limit`: clients counted across every business the user owns. */
  function CheckClientLimit(user: User, businesses: seq<BusinessRow>, clients: seq<ClientRow>): (r: LimitCheck)
    ensures GetPlanLimits(user.membership).clients.None? ==> r == LimitCheck(true, 0, None)
    ensures GetPlanLimits(user.membership).clients.Some? ==>
              r.current == |Filter(clients, (c: ClientRow) => OwnedBy(businesses, c.business, user))| &&
              r.limit == GetPlanLimits(user.membership).clients &&
              (r.allowed <==> r.current < r.limit.value)
  {
    var limit := GetPlanLimits(user.membership).clients;
    if limit.None? then LimitCheck(true, 0, None)
    else CheckAgainst(limit, |Filter(clients, (c: ClientRow) => OwnedBy(businesses, c.business, user))|)
  }

  /** `check_expense_limit`: the monthly quota, by expense date, within the one business. */
  function CheckExpenseLimit(user: User, b: BusinessId, expenses: seq<ExpenseRow>, now: YearMonth): (r: LimitCheck)
    ensures GetPlanLimits(user.membership).expensesPerMonth.None? ==> r == LimitCheck(true, 0, None)
    ensures GetPlanLimits(user.membership).expensesPerMonth.Some? ==>
              r.current == |ExpensesInMonth(expenses, b, now)| &&
              r.limit == GetPlanLimits(user.membership).expensesPerMonth &&
              (r.allowed <==> r.current < r.limit.value)
  {
    var limit := GetPlanLimits(user.membership).expensesPerMonth;
    if limit.None? then LimitCheck(true, 0, None)
    else CheckAgainst(limit, |ExpensesInMonth(expenses, b, now)|)
  }

  /** The businesses the user owns, active or not. */
  function OwnedBusinesses(businesses: seq<BusinessRow>, user: User): (r: seq<BusinessRow>)
    ensures forall x :: x in r <==> x in businesses && x.owner == user.id
  {
    Filter(businesses, (x: BusinessRow) => x.owner == user.id)
  }

  /** `check_business_limit`: the number of businesses the user owns. */
  function CheckBusinessLimit(user: User, businesses: seq<BusinessRow>): (r: LimitCheck)
    ensures GetPlanLimits(user.membership).businesses.None? ==> r == LimitCheck(true, 0, None)
    ensures GetPlanLimits(user.membership).businesses.Some? ==>
              r.current == |OwnedBusinesses(businesses, user)| &&
              r.limit == GetPlanLimits(user.membership).businesses &&
              (r.allowed <==> r.current < r.limit.value)
  {
    var limit := GetPlanLimits(user.membership).businesses;
    if limit.None? then LimitCheck(true, 0, None)
    else CheckAgainst(limit, |OwnedBusinesses(businesses, user)|)
  }

  datatype Usage = Usage(invoicesThisMonth: nat, clients: nat, expensesThisMonth: nat, businesses: nat)

  datatype PlanStatus = PlanStatus(plan: string, limits: Limits, usage: Usage)

  /**
   * `get_full_plan_status`: the plan name, the full limits row and usage. The
   * monthly counts span every business the user owns and stay 0 when the user
   * owns none; clients and businesses are always counted.
   */
  function FullPlanStatus(user: User, businesses: seq<BusinessRow>, invoices: seq<InvoiceRow>,
                          expenses: seq<ExpenseRow>, clients: seq<ClientRow>, now: YearMonth): (s: PlanStatus)
    ensures s.plan == PlanName(user.membership) && s.limits == GetPlanLimits(user.membership)
    ensures s.usage.businesses == |OwnedBusinesses(businesses, user)|
    ensures s.usage.clients == |Filter(clients, (c: ClientRow) => OwnedBy(businesses, c.business, user))|
    ensures OwnedBusinesses(businesses, user) == [] ==> s.usage.invoicesThisMonth == 0 && s.usage.expensesThisMonth == 0
    ensures OwnedBusinesses(businesses, user) != [] ==>
              s.usage.invoicesThisMonth == |Filter(invoices, (x: InvoiceRow) => OwnedBy(businesses, x.business, user) && x.createdAt == now)| &&
              s.usage.expensesThisMonth == |Filter(expenses, (x: ExpenseRow) => OwnedBy(businesses, x.business, user) && x.date == now)|
  {
    var owned := OwnedBusinesses(businesses, user);
    var inv := if owned != [] then |Filter(invoices, (x: InvoiceRow) => OwnedBy(businesses, x.business, user) && x.createdAt == now)| else 0;
    var exp := if owned != [] then |Filter(expenses, (x: ExpenseRow) => OwnedBy(businesses, x.business, user) && x.date == now)| else 0;
    PlanStatus(PlanName(user.membership), GetPlanLimits(user.membership),
               Usage(inv, |Filter(clients, (c: ClientRow) => OwnedBy(businesses, c.business, user))|, exp, |owned|))
  }

  // ---------------------------------------------------------------------------
  // Consequences

  /** Premium never blocks any counted resource, whatever the usage. */
  lemma PremiumNeverBlocks(user: User, b: BusinessId, businesses: seq<BusinessRow>, invoices: seq<InvoiceRow>,
                           expenses: seq<ExpenseRow>, clients: seq<ClientRow>, now: YearMonth)
    requires user.membership == "premium"
    ensures CheckInvoiceLimit(user, b, invoices, now).allowed
    ensures CheckClientLimit(user, businesses, clients).allowed
    ensures CheckExpenseLimit(user, b, expenses, now).allowed
    ensures CheckBusinessLimit(user, businesses).allowed
  {
  }

  /** A free user already owning a business cannot create another. */
  lemma FreeUserHasOneBusiness(user: User, businesses: seq<BusinessRow>, k: nat)
    requires user.membership == "" || user.membership == "free"
    requires k < |businesses| && businesses[k].owner == user.id
    ensures !CheckBusinessLimit(user, businesses).allowed
  {
    assert businesses[k] in OwnedBusinesses(businesses, user);
  }

  /** Being allowed is downward closed in usage: removing rows never turns a yes into a no. */
  lemma AllowedIsDownwardClosed(limit: Option<nat>, c1: nat, c2: nat)
    requires c1 <= c2 && CheckAgainst(limit, c2).allowed
    ensures CheckAgainst(limit, c1).allowed
  {
  }

  /**
   * The monthly invoice usage shown in the full status covers every owned
   * business, so it is never below the count the creation check uses for
   * one of them.
   */
  lemma {:induction false} StatusCoversPerBusinessCount(user: User, b: BusinessId, businesses: seq<BusinessRow>,
                                                        invoices: seq<InvoiceRow>, now: YearMonth)
    requires OwnedBy(businesses, b, user)
    ensures |InvoicesInMonth(invoices, b, now)| <=
            |Filter(invoices, (x: InvoiceRow) => OwnedBy(businesses, x.business, user) && x.createdAt == now)|
  {
    FilterMonotone(invoices, (x: InvoiceRow) => x.business == b && x.createdAt == now,
                   (x: InvoiceRow) => OwnedBy(businesses, x.business, user) && x.createdAt == now);
  }
}
