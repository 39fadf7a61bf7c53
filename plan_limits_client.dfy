/**
 * The client-side quota hook (frontend/src/hooks/usePlanLimits.js). It reads
 * the plan status the backend reports (the same plan name, limits row and
 * usage as `get_full_plan_status`), answers "may I create one more of this
 * resource" and "is this feature locked", and overrides everything for the
 * demo account. `None` for the status is a status not loaded yet.
 */
module PlanLimitsClient {
  import opened Common
  import opened PlanLimits

  /** The object `checkLimit` returns; `remaining` is present only for a finite limit. */
  datatype ClientCheck = ClientCheck(allowed: bool, limit: Option<nat>, current: nat, remaining: Option<int>)

  const Unrestricted := ClientCheck(true, None, 0, None)

  /** The limit and usage `checkLimit` reads for a resource name it knows. */
  function ResourceEntry(st: PlanStatus, resource: string): (r: Option<(Option<nat>, nat)>)
    ensures r.Some? <==> resource in {"invoices", "clients", "expenses", "businesses"}
  {
    if resource == "invoices" then Some((st.limits.invoicesPerMonth, st.usage.invoicesThisMonth))
    else if resource == "clients" then Some((st.limits.clients, st.usage.clients))
    else if resource == "expenses" then Some((st.limits.expensesPerMonth, st.usage.expensesThisMonth))
    else if resource == "businesses" then Some((st.limits.businesses, st.usage.businesses))
    else None
  }

  /**
   * `checkLimit` without the demo override: everything is allowed before the
   * status loads and for unknown names; a null limit is allowed and keeps the
   * real usage; otherwise allowed iff usage is below the limit.
   */
  function CheckLimit(status: Option<PlanStatus>, resource: string): (r: ClientCheck)
    ensures status.None? ==> r == Unrestricted
    ensures status.Some? && ResourceEntry(status.value, resource).None? ==> r == Unrestricted
    ensures status.Some? && ResourceEntry(status.value, resource).Some? ==>
              var (limit, current) := ResourceEntry(status.value, resource).value;
              r.limit == limit && r.current == current &&
              (limit.None? ==> r.allowed && r.remaining.None?) &&
              (limit.Some? ==> (r.allowed <==> current < limit.value) && r.remaining == Some(limit.value - current))
  {
    if status.None? then Unrestricted
    else match ResourceEntry(status.value, resource)
      case None => Unrestricted
      case Some((limit, current)) =>
        if limit.None? then ClientCheck(true, None, current, None)
        else ClientCheck(current < limit.value, limit, current, Some(limit.value - current))
  }

  /** `isFeatureLocked` without the demo override: only the four known names can be locked. */
  function IsFeatureLocked(status: Option<PlanStatus>, feature: string): (locked: bool)
    ensures status.None? ==> !locked
    ensures feature !in {"forecast", "csv_export", "premium_pdf", "custom_themes"} ==> !locked
    ensures status.Some? && feature == "forecast" ==> (locked <==> !status.value.limits.forecastAnalytics)
    ensures status.Some? && feature == "csv_export" ==> (locked <==> !status.value.limits.csvExport)
    ensures status.Some? && feature == "premium_pdf" ==> (locked <==> !status.value.limits.premiumPdf)
    ensures status.Some? && feature == "custom_themes" ==> (locked <==> !status.value.limits.customThemes)
  {
    if status.None? then false
    else if feature == "forecast" then !status.value.limits.forecastAnalytics
    else if feature == "csv_export" then !status.value.limits.csvExport
    else if feature == "premium_pdf" then !status.value.limits.premiumPdf
    else if feature == "custom_themes" then !status.value.limits.customThemes
    else false
  }

  const DemoEmail := "demo_user@invoice.az"

  /** What the hook returns: the demo account is always allowed, never locked and shown as pro. */
  datatype Hook = Hook(plan: string, isPro: bool, canUseThemes: bool)

  function UsePlanLimits(status: Option<PlanStatus>, email: Option<string>): (h: Hook)
    ensures email == Some(DemoEmail) ==> h == Hook("pro", true, true)
    ensures email != Some(DemoEmail) && status.None? ==> h == Hook("free", false, false)
    ensures email != Some(DemoEmail) && status.Some? ==>
              h.plan == (if status.value.plan == "" then "free" else status.value.plan) &&
              (h.isPro <==> status.value.plan in {"pro", "premium"}) &&
              h.canUseThemes == status.value.limits.customThemes
  {
    if email == Some(DemoEmail) then Hook("pro", true, true)
    else if status.None? then Hook("free", false, false)
    else Hook(if status.value.plan == "" then "free" else status.value.plan,
              status.value.plan in {"pro", "premium"}, status.value.limits.customThemes)
  }

  /** The hook's `checkLimit`, with the demo override. */
  function HookCheckLimit(status: Option<PlanStatus>, email: Option<string>, resource: string): (r: ClientCheck)
    ensures email == Some(DemoEmail) ==> r == Unrestricted
    ensures email != Some(DemoEmail) ==> r == CheckLimit(status, resource)
  {
    if email == Some(DemoEmail) then Unrestricted else CheckLimit(status, resource)
  }

  /** The hook's `isFeatureLocked`, with the demo override. */
  function HookIsFeatureLocked(status: Option<PlanStatus>, email: Option<string>, feature: string): (locked: bool)
    ensures email == Some(DemoEmail) ==> !locked
    ensures email != Some(DemoEmail) ==> locked == IsFeatureLocked(status, feature)
  {
    if email == Some(DemoEmail) then false else IsFeatureLocked(status, feature)
  }

  // ---------------------------------------------------------------------------
  // Agreement with the backend

  /**
   * For clients the hook and the backend count the same rows, so with a
   * status fresh from the backend they agree on whether one more is allowed.
   */
  lemma ClientCheckAgreesWithBackend(user: User, businesses: seq<BusinessRow>, invoices: seq<InvoiceRow>,
                                     expenses: seq<ExpenseRow>, clients: seq<ClientRow>, now: YearMonth)
    ensures var st := FullPlanStatus(user, businesses, invoices, expenses, clients, now);
            CheckLimit(Some(st), "clients").allowed == CheckClientLimit(user, businesses, clients).allowed
    ensures var st := FullPlanStatus(user, businesses, invoices, expenses, clients, now);
            CheckLimit(Some(st), "businesses").allowed == CheckBusinessLimit(user, businesses).allowed
  {
  }

  /**
   * For invoices the hook counts the month's invoices of all the user's
   * businesses, the backend only those of the active one: whatever the hook
   * allows, the backend allows too.
   */
  lemma InvoiceCheckIsStricter(user: User, b: BusinessId, businesses: seq<BusinessRow>, invoices: seq<InvoiceRow>,
                               expenses: seq<ExpenseRow>, clients: seq<ClientRow>, now: YearMonth)
    requires OwnedBy(businesses, b, user)
    requires CheckLimit(Some(FullPlanStatus(user, businesses, invoices, expenses, clients, now)), "invoices").allowed
    ensures CheckInvoiceLimit(user, b, invoices, now).allowed
  {
    StatusCoversPerBusinessCount(user, b, businesses, invoices, now);
    assert OwnedBusinesses(businesses, user) != [] by {
      var k :| 0 <= k < |businesses| && businesses[k].id == b && businesses[k].owner == user.id;
      assert businesses[k] in OwnedBusinesses(businesses, user);
    }
  }

  // ---------------------------------------------------------------------------
  // The forecast page's lock

  /**
   * The forecast page as written asks for the feature "forecast_analytics",
   * a name the hook does not know, so the page is never locked, even on the
   * free plan, whose limits row has no forecast analytics.
   */
  lemma ForecastPageNeverLockedAsWritten(st: PlanStatus, email: Option<string>)
    requires st.limits == Free
    ensures !Free.forecastAnalytics
    ensures !HookIsFeatureLocked(Some(st), email, "forecast_analytics")
  {
  }

  /** The forecast page's lock as intended: the hook's "forecast" feature. */
  function ForecastPageLocked(status: Option<PlanStatus>, email: Option<string>): (locked: bool)
    ensures email != Some(DemoEmail) && status.Some? ==> (locked <==> !status.value.limits.forecastAnalytics)
    ensures email == Some(DemoEmail) || status.None? ==> !locked
  {
    HookIsFeatureLocked(status, email, "forecast")
  }

  /** With the intended lock, a free plan is locked out of the forecast and pro and premium are not. */
  lemma ForecastLockFollowsPlan(user: User, businesses: seq<BusinessRow>, invoices: seq<InvoiceRow>,
                                expenses: seq<ExpenseRow>, clients: seq<ClientRow>, now: YearMonth, email: Option<string>)
    requires email != Some(DemoEmail)
    ensures var st := FullPlanStatus(user, businesses, invoices, expenses, clients, now);
            ForecastPageLocked(Some(st), email) <==> user.membership != "pro" && user.membership != "premium"
  {
  }
}
