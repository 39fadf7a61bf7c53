/**
 * The static role table of backend/users/rbac.py: for each delegated team
 * role, whether it may access everything and, per model name, the HTTP verbs
 * it may use and the row filter that narrows what it sees. Keys are the same
 * strings the table uses.
 */
module Rbac {
  import opened Common

  /** The `filter_type` values of an entry. */
  datatype FilterType = All | AssignedOnly | OwnOrAssigned

  /** One `models` entry: allowed verbs and the row filter. */
  datatype ModelAccess = ModelAccess(methods: set<string>, filter: FilterType)

  /** One role's entry: `can_access_all` and the per-model table. */
  datatype RoleEntry = RoleEntry(canAccessAll: bool, models: map<string, ModelAccess>)

  const FullVerbs: set<string> := {"GET", "POST", "PUT", "PATCH", "DELETE"}
  const ReadVerbs: set<string> := {"GET", "OPTIONS", "HEAD"}
  const EditVerbs: set<string> := {"GET", "POST", "PUT", "PATCH"}

  const DelegatedRoles: set<string> := {"MANAGER", "ACCOUNTANT", "INVENTORY_MANAGER", "SALES_REP"}

  /** `ROLE_PERMISSIONS.get(role)`: the entry of one of the four delegated roles, nothing otherwise. */
  function RolePermissions(role: string): (e: Option<RoleEntry>)
    ensures e.Some? <==> role in DelegatedRoles
    ensures e.Some? ==> (e.value.canAccessAll <==> role == "MANAGER")
    ensures e.Some? && e.value.canAccessAll ==> e.value.models == map[]
  {
    if role == "MANAGER" then
      Some(RoleEntry(true, map[]))
    else if role == "ACCOUNTANT" then
      Some(RoleEntry(false, map[
        "Invoice" := ModelAccess(FullVerbs, All),
        "Expense" := ModelAccess(FullVerbs, All),
        "Payment" := ModelAccess(FullVerbs, All),
        "Client" := ModelAccess(ReadVerbs, All),
        "Product" := ModelAccess(ReadVerbs, All)]))
    else if role == "INVENTORY_MANAGER" then
      Some(RoleEntry(false, map[
        "Product" := ModelAccess(FullVerbs, All),
        "InventoryTransaction" := ModelAccess(FullVerbs, All),
        "Category" := ModelAccess(FullVerbs, All)]))
    else if role == "SALES_REP" then
      Some(RoleEntry(false, map[
        "Client" := ModelAccess(EditVerbs, AssignedOnly),
        "Invoice" := ModelAccess(EditVerbs, OwnOrAssigned),
        "Product" := ModelAccess(ReadVerbs, All)]))
    else
      None
  }

  /** The entry of `model` for `role`; missing means filter `none` (no access). */
  function Entry(role: string, model: string): (a: Option<ModelAccess>)
    ensures a.Some? ==> role in DelegatedRoles && role != "MANAGER"
  {
    match RolePermissions(role)
    case None => None
    case Some(e) => if model in e.models then Some(e.models[model]) else None
  }

  /** The table's verdict on a verb: everything for `can_access_all`, else the listed verbs. */
  predicate TableAllows(role: string, model: string, verb: string)
  {
    match RolePermissions(role)
    case None => false
    case Some(e) => e.canAccessAll || (model in e.models && verb in e.models[model].methods)
  }

  /** A row as the filters see it: its assignee, its creator, and the assignee of its client. */
  datatype Record = Record(assignedTo: int, createdBy: int, clientAssignee: int)

  /**
   * Whether `user` in `role` sees `rec` of `model`, by the documented filter
   * meanings: `all` sees everything, `assigned_only` rows assigned to the user,
   * `own_or_assigned` rows the user created or whose client is assigned to
   * the user; a missing entry sees nothing. `can_access_all` sees everything.
   */
  predicate Sees(role: string, model: string, user: int, rec: Record)
  {
    match RolePermissions(role)
    case None => false
    case Some(e) =>
      e.canAccessAll ||
      (model in e.models &&
       match e.models[model].filter
       case All => true
       case AssignedOnly => rec.assignedTo == user
       case OwnOrAssigned => rec.createdBy == user || rec.clientAssignee == user)
  }

  /** The rows of `model` visible to `user` in `role`. */
  function VisibleRows(role: string, model: string, user: int, rows: seq<Record>): (r: seq<Record>)
    ensures forall x :: x in r <==> x in rows && Sees(role, model, user, x)
  {
    if |rows| == 0 then []
    else if Sees(role, model, user, rows[0]) then [rows[0]] + VisibleRows(role, model, user, rows[1..])
    else VisibleRows(role, model, user, rows[1..])
  }

  // ---------------------------------------------------------------------------
  // Facts about the table

  lemma ManagerEntry()
    ensures RolePermissions("MANAGER") == Some(RoleEntry(true, map[]))
    ensures forall m, v :: TableAllows("MANAGER", m, v)
  {
  }

  lemma AccountantEntries()
    ensures forall m :: m in {"Invoice", "Expense", "Payment"} ==>
              Entry("ACCOUNTANT", m) == Some(ModelAccess(FullVerbs, All))
    ensures Entry("ACCOUNTANT", "Client") == Some(ModelAccess(ReadVerbs, All))
    ensures Entry("ACCOUNTANT", "Product") == Some(ModelAccess(ReadVerbs, All))
  {
  }

  lemma InventoryManagerEntries()
    ensures forall m :: m in {"Product", "InventoryTransaction", "Category"} ==>
              Entry("INVENTORY_MANAGER", m) == Some(ModelAccess(FullVerbs, All))
  {
  }

  /** Sales reps never delete clients or invoices, and only read products. */
  lemma SalesRepEntries()
    ensures Entry("SALES_REP", "Client") == Some(ModelAccess(EditVerbs, AssignedOnly))
    ensures Entry("SALES_REP", "Invoice") == Some(ModelAccess(EditVerbs, OwnOrAssigned))
    ensures Entry("SALES_REP", "Product") == Some(ModelAccess(ReadVerbs, All))
    ensures !TableAllows("SALES_REP", "Client", "DELETE") && !TableAllows("SALES_REP", "Invoice", "DELETE")
  {
  }

  /** A model missing from a role's table is filter `none`: no verb and no row. */
  lemma MissingModelSeesNothing(role: string, model: string, user: int, rows: seq<Record>, verb: string)
    requires role != "MANAGER" && Entry(role, model).None?
    ensures VisibleRows(role, model, user, rows) == []
    ensures !TableAllows(role, model, verb)
  {
  }

  /** There is no OWNER entry: owners are not governed by this table at all. */
  lemma NoOwnerEntry(model: string, verb: string)
    ensures RolePermissions("OWNER").None?
    ensures !TableAllows("OWNER", model, verb)
  {
  }
}
