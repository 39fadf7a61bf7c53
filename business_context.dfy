/**
 * The business-context resolution that every tenant-scoped view mixes in
 * (backend/users/mixins.py): read the claimed business id from the
 * `X-Business-ID` header or the `business_id` query parameter, accept it only
 * for an active business owned by the caller, cache a success on the request,
 * narrow every queryset to that business and attach it to every created row.
 *
 * The resolver has no team-delegation path: it never marks a request as a
 * team member and never records a team role.
 */
module BusinessContext {
  import opened Common

  type UserId = nat

  /** A business row: its integer primary key, its owner, its active flag. */
  datatype Business = Business(id: nat, owner: UserId, isActive: bool)

  datatype User = User(id: UserId, isAuthenticated: bool)

  /** A tenant-scoped row (a client, an invoice, ...) with the primary key of the business it belongs to. */
  datatype Row = Row(id: nat, business: nat, name: string)

  /**
   * What `get_active_business` yields: no business (nothing claimed, or no
   * row qualifies), the business found, or the `ValueError` that the id
   * lookup raises on text that is not an integer. That exception is not the
   * `DoesNotExist` the resolver catches, so it escapes the view: a server error.
   */
  datatype Resolution = NoBusiness | Found(business: Business) | MalformedId

  datatype CreateError = NoBusinessSelected

  datatype CreateResult = Created(row: Row) | Rejected(error: CreateError) | CreateServerError

  datatype Listing = Listed(rows: seq<Row>) | ListServerError

  datatype UpdateResult = Updated | NotFound

  /** Primary keys are unique in the business table. */
  predicate UniqueIds(db: seq<Business>)
  {
    forall i, j :: 0 <= i < j < |db| ==> db[i].id != db[j].id
  }

  /** The id the request claims: the header if it is non-empty, else the query parameter. */
  function ClaimedId(header: string, query: string): (id: string)
    ensures id == (if header != "" then header else query)
    ensures id == "" <==> header == "" && query == ""
  {
    if header != "" then header else query
  }

  /** A business the given user may operate on under the claimed primary key. */
  predicate Eligible(b: Business, id: int, user: User)
  {
    b.id == id && b.owner == user.id && b.isActive
  }

  /** `Business.objects.get(id=..., user=..., is_active=True)` over the table, once the id is an integer. */
  function FindOwnedActive(db: seq<Business>, id: int, user: User): (r: Option<Business>)
    ensures r.Some? ==> r.value in db && Eligible(r.value, id, user)
    ensures r.None? ==> forall b :: b in db ==> !Eligible(b, id, user)
  {
    if |db| == 0 then None
    else if Eligible(db[0], id, user) then Some(db[0])
    else FindOwnedActive(db[1..], id, user)
  }

  /**
   * What `get_active_business` resolves on a request with nothing cached:
   * nothing when no id is claimed; the lookup's conversion error when the
   * claimed text is not an integer as Python's `int()` reads it; otherwise
   * the business with that primary key, provided the caller owns it and it is
   * active, else nothing.
   */
  function Resolve(user: User, header: string, query: string, db: seq<Business>): (r: Resolution)
    requires UniqueIds(db)
    ensures r.MalformedId? <==> ClaimedId(header, query) != "" && PyInt(ClaimedId(header, query)).None?
    ensures r.Found? <==> ClaimedId(header, query) != "" && PyInt(ClaimedId(header, query)).Some? &&
                          exists b :: b in db && Eligible(b, PyInt(ClaimedId(header, query)).value, user)
    ensures r.Found? ==> r.business in db && Eligible(r.business, PyInt(ClaimedId(header, query)).value, user)
  {
    var id := ClaimedId(header, query);
    if id == "" then NoBusiness
    else match PyInt(id)
      case None => MalformedId
      case Some(n) =>
        match FindOwnedActive(db, n, user)
        case None => NoBusiness
        case Some(b) => Found(b)
  }

  /** The resolution a request sees: the cached business if there is one, else a fresh resolution. */
  function Current(cached: Option<Business>, user: User, header: string, query: string, db: seq<Business>): Resolution
    requires UniqueIds(db)
  {
    if cached.Some? then Found(cached.value) else Resolve(user, header, query, db)
  }

  /** The cache after a resolution: only a business found is kept. */
  function CacheAfter(r: Resolution): Option<Business>
  {
    if r.Found? then Some(r.business) else None
  }

  /** The rows of `rows` that belong to business `b`, in their original order. */
  function ScopedTo(rows: seq<Row>, b: Business): (r: seq<Row>)
    ensures forall x :: x in r <==> x in rows && x.business == b.id
    ensures |r| <= |rows|
  {
    if |rows| == 0 then []
    else if rows[0].business == b.id then [rows[0]] + ScopedTo(rows[1..], b)
    else ScopedTo(rows[1..], b)
  }

  /**
   * An update through a viewset: the row is looked up by primary key in the
   * visible queryset; a row outside it is a 404 and the table is unchanged,
   * and otherwise the row with that key takes the new name.
   */
  function UpdateName(rows: seq<Row>, visible: seq<Row>, id: nat, name: string): (r: (UpdateResult, seq<Row>))
    ensures r.0 == NotFound <==> forall x :: x in visible ==> x.id != id
    ensures r.0 == NotFound ==> r.1 == rows
    ensures |r.1| == |rows|
    ensures forall i :: 0 <= i < |rows| && rows[i].id != id ==> r.1[i] == rows[i]
    ensures r.0 == Updated ==> forall i :: 0 <= i < |rows| && rows[i].id == id ==> r.1[i] == rows[i].(name := name)
  {
    if forall x :: x in visible ==> x.id != id then (NotFound, rows)
    else (Updated, seq(|rows|, i requires 0 <= i < |rows| =>
                         if rows[i].id == id then rows[i].(name := name) else rows[i]))
  }

  /** One request as the mixin sees it. `cached` is the `_active_business` attribute. */
  class RequestContext {
    const user: User
    const header: string
    const query: string
    var cached: Option<Business>

    constructor (user: User, header: string, query: string)
      ensures this.user == user && this.header == header && this.query == query
      ensures cached == None
    {
      this.user := user;
      this.header := header;
      this.query := query;
      cached := None;
    }

    /**
     * `get_active_business`: a cached business is returned unchanged; otherwise
     * the claimed id is resolved and only a success is cached.
     */
    method GetActiveBusiness(db: seq<Business>) returns (r: Resolution)
      requires UniqueIds(db)
      modifies this
      ensures r == Current(old(cached), user, header, query, db)
      ensures cached == (if old(cached).Some? then old(cached) else CacheAfter(r))
    {
      if cached.Some? {
        return Found(cached.value);
      }
      var id := if header != "" then header else query;
      if id == "" {
        return NoBusiness;
      }
      var n := PyInt(id);
      if n.None? {
        return MalformedId;
      }
      var b := FindOwnedActive(db, n.value, user);
      if b.None? {
        return NoBusiness;
      }
      cached := b;
      r := Found(b.value);
    }

    /**
     * `get_queryset`: nothing for schema generation or an unauthenticated
     * caller; otherwise the rows of the resolved business, nothing when none
     * resolves, and the server error of a malformed id.
     */
    method GetQueryset(db: seq<Business>, rows: seq<Row>, schemaOnly: bool) returns (res: Listing)
      requires UniqueIds(db)
      modifies this
      ensures schemaOnly || !user.isAuthenticated ==> res == Listed([]) && cached == old(cached)
      ensures !schemaOnly && user.isAuthenticated ==>
                var b := Current(old(cached), user, header, query, db);
                res == (match b
                        case Found(x) => Listed(ScopedTo(rows, x))
                        case NoBusiness => Listed([])
                        case MalformedId => ListServerError) &&
                cached == (if old(cached).Some? then old(cached) else CacheAfter(b))
    {
      if schemaOnly || !user.isAuthenticated {
        return Listed([]);
      }
      var b := GetActiveBusiness(db);
      match b
      case Found(x) => res := Listed(ScopedTo(rows, x));
      case NoBusiness => res := Listed([]);
      case MalformedId => res := ListServerError;
    }

    /**
     * `perform_create`: refused without a resolved business, a server error on
     * a malformed id, else saved under the business, which stays cached.
     */
    method PerformCreate(db: seq<Business>, row: Row) returns (res: CreateResult)
      requires UniqueIds(db)
      modifies this
      ensures var b := Current(old(cached), user, header, query, db);
              res == (match b
                      case Found(x) => Created(row.(business := x.id))
                      case NoBusiness => Rejected(NoBusinessSelected)
                      case MalformedId => CreateServerError) &&
              cached == (if old(cached).Some? then old(cached) else CacheAfter(b))
    {
      var b := GetActiveBusiness(db);
      match b
      case Found(x) => res := Created(row.(business := x.id));
      case NoBusiness => res := Rejected(NoBusinessSelected);
      case MalformedId => res := CreateServerError;
    }
  }

  // ---------------------------------------------------------------------------
  // Consequences

  /** A resolution never crosses owners: the resolved business is the caller's own. */
  lemma ResolvedIsOwnAndActive(user: User, header: string, query: string, db: seq<Business>)
    requires UniqueIds(db)
    requires Resolve(user, header, query, db).Found?
    ensures Resolve(user, header, query, db).business.owner == user.id
    ensures Resolve(user, header, query, db).business.isActive
  {
  }

  /** The header wins over the query parameter whenever it is present. */
  lemma HeaderTakesPrecedence(user: User, header: string, query: string, db: seq<Business>)
    requires UniqueIds(db)
    requires header != ""
    ensures Resolve(user, header, query, db) == Resolve(user, header, "", db)
  {
  }

  /** Ids are unique, so the resolution of an id read as `db[k]`'s key is that one row. */
  lemma {:induction false} ResolveIsTheRowWithThatId(user: User, header: string, query: string, db: seq<Business>, k: nat)
    requires UniqueIds(db)
    requires k < |db| && ClaimedId(header, query) != "" && PyInt(ClaimedId(header, query)) == Some(db[k].id as int)
    ensures Resolve(user, header, query, db) == (if Eligible(db[k], db[k].id, user) then Found(db[k]) else NoBusiness)
  {
    var r := Resolve(user, header, query, db);
    if r.Found? {
      var j :| 0 <= j < |db| && db[j] == r.business;
      assert db[j].id == db[k].id;
      assert j == k;
    } else {
      assert db[k] in db;
    }
  }

  /**
   * The id is converted to an integer before the lookup, so whitespace around
   * it and leading zeros select the same business as its plain decimal form:
   * `X-Business-ID: 007` resolves to business 7.
   */
  lemma PaddedIdResolvesAlike(user: User, a: string, z: string, n: nat, b: string, query: string, db: seq<Business>)
    requires UniqueIds(db)
    requires forall i :: 0 <= i < |a| ==> IsSpace(a[i])
    requires forall i :: 0 <= i < |b| ==> IsSpace(b[i])
    requires forall i :: 0 <= i < |z| ==> z[i] == '0'
    ensures Resolve(user, a + z + NatToDecimal(n) + b, query, db) == Resolve(user, NatToDecimal(n), query, db)
  {
    var d := NatToDecimal(n);
    PyIntNumeral(a, z, n, b);
    PyIntNumeral("", "", n, "");
    assert "" + "" + d + "" == d;
    assert |a + z + d + b| >= |d| > 0;
    SameIntResolvesAlike(user, a + z + d + b, d, query, db);
  }

  /** Two non-empty header ids that `int()` reads alike resolve alike. */
  lemma SameIntResolvesAlike(user: User, h: string, h': string, query: string, db: seq<Business>)
    requires UniqueIds(db) && h != "" && h' != "" && PyInt(h) == PyInt(h')
    ensures Resolve(user, h, query, db) == Resolve(user, h', query, db)
  {
  }

  /** A no-break space before the id is stripped as `int()` strips it: it resolves as `7` does. */
  lemma NoBreakSpaceIdResolvesAlike(user: User, query: string, db: seq<Business>)
    requires UniqueIds(db)
    ensures Resolve(user, "\U{00A0}7", query, db) == Resolve(user, "7", query, db)
  {
    assert NatToDecimal(7) == "7";
    PaddedIdResolvesAlike(user, "\U{00A0}", "", 7, "", query, db);
    assert "\U{00A0}" + "" + "7" + "" == "\U{00A0}7";
  }

  /** A claimed id holding a letter or other symbol is a server error, not "no business". */
  lemma NonNumericIdIsServerError(user: User, header: string, query: string, db: seq<Business>, i: nat)
    requires UniqueIds(db)
    requires i < |ClaimedId(header, query)|
    requires var c := ClaimedId(header, query)[i]; !IsDigit(c) && !IsSpace(c) && c != '+' && c != '-'
    ensures Resolve(user, header, query, db) == MalformedId
  {
    PyIntRejects(ClaimedId(header, query), i);
  }

  /**
   * Tenant isolation: rows of any other business are never in the queryset
   * narrowed to the resolved business.
   */
  lemma TenantIsolation(rows: seq<Row>, b: Business, x: Row)
    requires x in rows && x.business != b.id
    ensures x !in ScopedTo(rows, b)
  {
  }

  /**
   * Owner B, resolved to business B, patches a client of business A by id: the
   * client is outside B's queryset, so the update is a 404 and A's row keeps
   * its name.
   */
  lemma {:induction false} CrossTenantUpdateIsNotFound(rows: seq<Row>, a: Business, b: Business, k: nat, name: string)
    requires a.id != b.id
    requires k < |rows| && rows[k].business == a.id
    requires forall i, j :: 0 <= i < j < |rows| ==> rows[i].id != rows[j].id
    ensures UpdateName(rows, ScopedTo(rows, b), rows[k].id, name) == (NotFound, rows)
  {
    var visible := ScopedTo(rows, b);
    forall x | x in visible ensures x.id != rows[k].id {
      var i :| 0 <= i < |rows| && rows[i] == x;
      assert x.business == b.id;
      if i != k {
        if i < k { assert rows[i].id != rows[k].id; } else { assert rows[k].id != rows[i].id; }
      }
    }
  }

  /** Resolving twice on the same request performs one lookup and yields the same business. */
  method ResolveTwiceIsStable(ctx: RequestContext, db: seq<Business>, db2: seq<Business>)
    returns (first: Resolution, second: Resolution)
    requires UniqueIds(db) && UniqueIds(db2)
    requires ctx.cached.None?
    modifies ctx
    ensures first == Resolve(ctx.user, ctx.header, ctx.query, db)
    ensures first.Found? ==> second == first
    ensures !first.Found? ==> second == Resolve(ctx.user, ctx.header, ctx.query, db2)
  {
    first := ctx.GetActiveBusiness(db);
    second := ctx.GetActiveBusiness(db2);
  }
}
