/**
 * The role gate of backend/users/permissions.py (`IsRoleAuthorized`): a pure
 * decision over the markers the business-context resolver may have left on
 * the request, the role, the model behind the view's serializer and the HTTP
 * verb. Beside it, its comparison with the role table of backend/users/rbac.py
 * and with what the resolver of backend/users/mixins.py actually sets.
 */
module Permissions {
  import opened Common
  import Rbac

  /**
   * The request attributes the gate reads. `None` stands for an attribute
   * that was never set: `hasattr` is false and `getattr` yields its default.
   */
  datatype Markers = Markers(
    activeBusiness: bool,
    isTeamMember: Option<bool>,
    teamRole: Option<string>)

  const SafeMethods: set<string> := {"GET", "HEAD", "OPTIONS"}

  /** `getattr(request, '_team_role', 'SALES_REP')`. */
  function EffectiveRole(m: Markers): (role: string)
    ensures m.teamRole.None? ==> role == "SALES_REP"
    ensures m.teamRole.Some? ==> role == m.teamRole.value
  {
    if m.teamRole.Some? then m.teamRole.value else "SALES_REP"
  }

  /** `getattr(request, '_is_team_member', False)`. */
  predicate MarkedTeamMember(m: Markers)
  {
    m.isTeamMember.Some? && m.isTeamMember.value
  }

  /**
   * The requests that get past the two early exits of the gate: the
   * team-member attribute is set, and either it is true or no business was
   * resolved (an attribute set to false without a resolved business still
   * reaches the role rules).
   */
  predicate ReachesRoleRules(m: Markers)
  {
    m.isTeamMember.Some? && (MarkedTeamMember(m) || !m.activeBusiness)
  }

  /**
   * `has_permission`: `model` is the serializer model's name, "" when the view
   * has none. Only a request that reaches the role rules, on a view with a
   * model, under a role other than MANAGER, can ever be denied; there the
   * verdict is the per-role rule.
   */
  function HasPermission(m: Markers, model: string, verb: string): (allowed: bool)
    ensures !allowed ==> ReachesRoleRules(m) && model != "" && EffectiveRole(m) != "MANAGER"
    ensures ReachesRoleRules(m) && model != "" ==>
              (allowed <==> RoleAllows(EffectiveRole(m), model, verb))
  {
    if m.activeBusiness && !MarkedTeamMember(m) then true
    else if m.isTeamMember.None? then true
    else
      var role := EffectiveRole(m);
      if model == "" then true
      else if role == "MANAGER" then true
      else if role == "ACCOUNTANT" then
        if model !in ["Invoice", "Expense", "Payment", "Client"] then false
        else if model == "Client" && verb !in SafeMethods then false
        else true
      else if role == "INVENTORY_MANAGER" then
        model in ["Product", "InventoryTransaction", "Category"]
      else if role == "SALES_REP" then
        model in ["Client", "Invoice"]
      else false
  }

  /**
   * The per-role rule the gate applies to a marked team member, stated as
   * sets: MANAGER everything; ACCOUNTANT the finance models, Client read-only;
   * INVENTORY_MANAGER the stock models; SALES_REP clients and invoices with any
   * verb; every other role string nothing.
   */
  predicate RoleAllows(role: string, model: string, verb: string)
  {
    match role
    case "MANAGER" => true
    case "ACCOUNTANT" =>
      model in {"Invoice", "Expense", "Payment"} || (model == "Client" && verb in SafeMethods)
    case "INVENTORY_MANAGER" => model in {"Product", "InventoryTransaction", "Category"}
    case "SALES_REP" => model in {"Client", "Invoice"}
    case _ => false
  }

  // ---------------------------------------------------------------------------
  // The gate's own cases

  /** An owner (a resolved business, not marked as team member) is always allowed. */
  lemma OwnerAlwaysAllowed(m: Markers, model: string, verb: string)
    requires m.activeBusiness && !MarkedTeamMember(m)
    ensures HasPermission(m, model, verb)
  {
  }

  /** Without the team-member marker the gate allows, whatever the model or verb. */
  lemma UnmarkedAlwaysAllowed(m: Markers, model: string, verb: string)
    requires m.isTeamMember.None?
    ensures HasPermission(m, model, verb)
  {
  }

  /** A marked member whose role was never recorded is judged as SALES_REP. */
  lemma MissingRoleIsSalesRep(m: Markers, model: string, verb: string)
    requires MarkedTeamMember(m) && m.teamRole.None?
    ensures HasPermission(m, model, verb) == HasPermission(m.(teamRole := Some("SALES_REP")), model, verb)
  {
  }

  /** Any role string outside the four is denied on every view with a model. */
  lemma UnknownRoleDenied(m: Markers, model: string, verb: string)
    requires MarkedTeamMember(m) && model != ""
    requires EffectiveRole(m) !in Rbac.DelegatedRoles
    ensures !HasPermission(m, model, verb)
  {
  }

  // ---------------------------------------------------------------------------
  // What the resolver actually leaves on the request

  /**
   * The markers after `get_active_business`: `_active_business` exists exactly
   * when a business resolved, and the team attributes are never set.
   */
  function MarkersAfterResolution(resolved: bool): (m: Markers)
    ensures m.activeBusiness == resolved
    ensures m.isTeamMember.None? && m.teamRole.None?
  {
    Markers(resolved, None, None)
  }

  /**
   * Consequence of the owner-only resolver: nothing sets the team attributes,
   * so whether the gate runs before the business is resolved (the framework
   * checks permissions before the view builds its queryset) or after, it
   * allows every model and every verb, and no role rule ever applies.
   */
  lemma GateNeverDeniesWithoutTeamMarker(resolved: bool, model: string, verb: string)
    ensures HasPermission(MarkersAfterResolution(resolved), model, verb)
  {
  }

  // ---------------------------------------------------------------------------
  // Gate against the role table

  /**
   * The exact places where the gate and the table disagree for a marked team
   * member with one of the four roles: the gate ignores verbs for whole-model
   * grants (so HEAD and OPTIONS pass where the table lists only five verbs,
   * and DELETE passes for a sales rep), it refuses the read-only Product
   * entries of ACCOUNTANT and SALES_REP, and it lets a view without a model
   * through.
   */
  predicate Disagree(role: string, model: string, verb: string)
  {
    (model == "" && role != "MANAGER") ||
    (role == "ACCOUNTANT" && model in {"Invoice", "Expense", "Payment"} && verb !in Rbac.FullVerbs) ||
    (role == "ACCOUNTANT" && model == "Product" && verb in Rbac.ReadVerbs) ||
    (role == "INVENTORY_MANAGER" && model in {"Product", "InventoryTransaction", "Category"} && verb !in Rbac.FullVerbs) ||
    (role == "SALES_REP" && model in {"Client", "Invoice"} && verb !in Rbac.EditVerbs) ||
    (role == "SALES_REP" && model == "Product" && verb in Rbac.ReadVerbs)
  }

  /** The gate's verdict equals the table's except exactly where `Disagree` says. */
  lemma GateVersusTable(m: Markers, model: string, verb: string)
    requires ReachesRoleRules(m) && EffectiveRole(m) in Rbac.DelegatedRoles
    ensures HasPermission(m, model, verb) != Rbac.TableAllows(EffectiveRole(m), model, verb)
            <==> Disagree(EffectiveRole(m), model, verb)
  {
  }

  /** An accountant may read products by the table, but the gate refuses it. */
  lemma AccountantProductDisagreement(m: Markers)
    requires MarkedTeamMember(m) && m.teamRole == Some("ACCOUNTANT")
    ensures Rbac.TableAllows("ACCOUNTANT", "Product", "GET")
    ensures !HasPermission(m, "Product", "GET")
  {
  }

  /** A sales rep may not delete clients or invoices by the table, but the gate lets it. */
  lemma SalesRepDeleteDisagreement(m: Markers, model: string)
    requires MarkedTeamMember(m) && m.teamRole == Some("SALES_REP")
    requires model == "Client" || model == "Invoice"
    ensures !Rbac.TableAllows("SALES_REP", model, "DELETE")
    ensures HasPermission(m, model, "DELETE")
  {
  }
}
