/**
 * The client's active-business state (frontend/src/context/BusinessContext.jsx):
 * the active business, its copy in local storage, and the query cache. The
 * provider switches businesses (purging every cached query not about the
 * business list), clears the selection on sign-out, and, each time the
 * business list arrives, re-validates the active business against it.
 * React's scheduling is left out: each effect is one method call.
 */
module BusinessSwitch {
  import opened Common

  /** A business as the list endpoint returns it; `rest` stands for the fields the provider only copies. */
  datatype Business = Business(id: nat, userRole: string, rest: string)

  /** A cached query's key, e.g. ["business", token] or ["invoices", 3]. */
  type QueryKey = seq<string>

  datatype Ctx = Ctx(active: Option<Business>, stored: Option<Business>, cache: seq<QueryKey>)

  predicate AboutBusinesses(key: QueryKey) { "business" in key }

  /** `switchBusiness`: select, store, and purge every query whose key lacks "business"; `null` only unselects. */
  function Switch(c: Ctx, b: Option<Business>): (r: Ctx)
    ensures r.active == b && r.stored == b
    ensures b.Some? ==> forall q :: q in r.cache <==> q in c.cache && AboutBusinesses(q)
    ensures b.None? ==> r.cache == c.cache
  {
    if b.Some? then Ctx(b, b, Filter(c.cache, AboutBusinesses)) else Ctx(None, None, c.cache)
  }

  /** `businesses.find(b => b.id === id)`. */
  function FindById(list: seq<Business>, id: nat): (r: Option<Business>)
    ensures r.None? <==> forall k :: 0 <= k < |list| ==> list[k].id != id
    ensures r.Some? ==> exists k :: 0 <= k < |list| && list[k] == r.value &&
                                    forall j :: 0 <= j < k ==> list[j].id != id
  {
    if |list| == 0 then None
    else if list[0].id == id then Some(list[0])
    else
      var r := FindById(list[1..], id);
      if r.Some? then
        assert exists k :: 0 <= k < |list| - 1 && list[1..][k] == r.value && forall j :: 0 <= j < k ==> list[1..][j].id != id;
        var k :| 0 <= k < |list| - 1 && list[1..][k] == r.value && forall j :: 0 <= j < k ==> list[1..][j].id != id;
        assert list[k + 1] == r.value;
        r
      else r
  }

  lemma {:induction false} FindByIdAt(list: seq<Business>, k: nat)
    requires k < |list| && forall j :: 0 <= j < k ==> list[j].id != list[k].id
    ensures FindById(list, list[k].id) == Some(list[k])
  {
    if k > 0 {
      FindByIdAt(list[1..], k - 1);
    }
  }

  /** The first business with the given role, if any. */
  function FindByRole(list: seq<Business>, role: string): (r: Option<Business>)
    ensures r.None? <==> forall k :: 0 <= k < |list| ==> list[k].userRole != role
    ensures r.Some? ==> exists k :: 0 <= k < |list| && list[k] == r.value && r.value.userRole == role &&
                                    forall j :: 0 <= j < k ==> list[j].userRole != role
  {
    if |list| == 0 then None
    else if list[0].userRole == role then Some(list[0])
    else
      var r := FindByRole(list[1..], role);
      if r.Some? then
        var k :| 0 <= k < |list| - 1 && list[1..][k] == r.value && r.value.userRole == role &&
                 forall j :: 0 <= j < k ==> list[1..][j].userRole != role;
        assert list[k + 1] == r.value;
        r
      else r
  }

  /** `ownedBusiness || businesses[0]`: the first owned business, else the first business. */
  function Preferred(list: seq<Business>): (b: Business)
    requires |list| > 0
    ensures b in list
    ensures (exists k :: 0 <= k < |list| && list[k].userRole == "OWNER") <==> b.userRole == "OWNER"
    ensures (exists k :: 0 <= k < |list| && list[k].userRole == "OWNER") ==>
              exists k :: 0 <= k < |list| && list[k] == b && forall j :: 0 <= j < k ==> list[j].userRole != "OWNER"
    ensures (forall k :: 0 <= k < |list| ==> list[k].userRole != "OWNER") ==> b == list[0]
  {
    var owned := FindByRole(list, "OWNER");
    if owned.Some? then owned.value else list[0]
  }

  /** The sign-out effect: without a token the selection and its stored copy are cleared. */
  function TokenChanged(c: Ctx, token: string): (r: Ctx)
    ensures token == "" ==> r.active.None? && r.stored.None? && r.cache == c.cache
    ensures token != "" ==> r == c
  {
    if token == "" then Ctx(None, None, c.cache) else c
  }

  /**
   * The auto-select effect, once the list has loaded: a listed active
   * business is refreshed from the list (no purge); a vanished one is
   * replaced by the preferred business, or cleared when the list is empty;
   * with nothing active the preferred business is chosen.
   */
  function AutoSelect(c: Ctx, businesses: Option<seq<Business>>, isLoading: bool): (r: Ctx)
    ensures isLoading || businesses.None? ==> r == c
    ensures !isLoading && businesses.Some? ==> r.active.None? || r.active.value in businesses.value
    ensures !isLoading && businesses.Some? ==> (r.active.Some? <==> |businesses.value| > 0)
    ensures r.cache == c.cache || forall q :: q in r.cache <==> q in c.cache && AboutBusinesses(q)
  {
    if isLoading || businesses.None? then c
    else
      var list := businesses.value;
      if c.active.Some? then
        var found := FindById(list, c.active.value.id);
        if found.Some? then
          if found != c.active then Ctx(found, found, c.cache) else c
        else if |list| > 0 then Switch(c, Some(Preferred(list)))
        else Switch(c, None)
      else if |list| > 0 then Switch(c, Some(Preferred(list)))
      else c
  }

  // ---------------------------------------------------------------------------
  // Properties

  predicate Synced(c: Ctx) { c.stored == c.active }

  /** Local storage always holds the active business, if every step starts from a synced state. */
  lemma StorageFollowsActive(c: Ctx, b: Option<Business>, token: string, businesses: Option<seq<Business>>, isLoading: bool)
    requires Synced(c)
    ensures Synced(Switch(c, b)) && Synced(TokenChanged(c, token)) && Synced(AutoSelect(c, businesses, isLoading))
  {
  }

  /** A business still in the list keeps its place, is replaced by the list's copy and purges nothing. */
  lemma ListedActiveRefreshed(c: Ctx, list: seq<Business>, k: nat)
    requires c.active.Some? && k < |list| && list[k].id == c.active.value.id
    requires forall j :: 0 <= j < k ==> list[j].id != c.active.value.id
    ensures AutoSelect(c, Some(list), false).active == Some(list[k])
    ensures AutoSelect(c, Some(list), false).cache == c.cache
  {
    FindByIdAt(list, k);
  }

  /**
   * A vanished business is replaced by an owned one whenever the list has
   * one, and the switch purges the other queries; with an empty list the
   * selection is cleared.
   */
  lemma VanishedActiveReplaced(c: Ctx, list: seq<Business>)
    requires c.active.Some? && forall k :: 0 <= k < |list| ==> list[k].id != c.active.value.id
    ensures |list| == 0 ==> AutoSelect(c, Some(list), false).active.None?
    ensures (exists k :: 0 <= k < |list| && list[k].userRole == "OWNER") ==>
              AutoSelect(c, Some(list), false).active.value.userRole == "OWNER"
    ensures |list| > 0 ==>
              forall q :: q in AutoSelect(c, Some(list), false).cache <==> q in c.cache && AboutBusinesses(q)
  {
  }

  /** With no active business, the same rule picks an owned business first. */
  lemma NothingActivePicksOwned(c: Ctx, list: seq<Business>)
    requires c.active.None? && |list| > 0
    ensures AutoSelect(c, Some(list), false).active == Some(Preferred(list))
  {
  }

  predicate UniqueIds(list: seq<Business>)
  {
    forall i, j :: 0 <= i < j < |list| ==> list[i].id != list[j].id
  }

  /**
   * With distinct ids the effect settles in one run: running it again on the
   * state it produced changes nothing, so it does not loop.
   */
  lemma AutoSelectSettles(c: Ctx, list: seq<Business>)
    requires UniqueIds(list)
    ensures var r := AutoSelect(c, Some(list), false);
            AutoSelect(r, Some(list), false) == r
  {
    var r := AutoSelect(c, Some(list), false);
    if r.active.Some? {
      var b := r.active.value;
      assert b in list;
      var k :| 0 <= k < |list| && list[k] == b;
      FindByIdAt(list, k);
    }
  }

  /** Purging keeps exactly the business-list queries and is idempotent. */
  lemma PurgeIdempotent(c: Ctx, b: Business, b2: Business)
    ensures Switch(Switch(c, Some(b)), Some(b2)).cache == Switch(c, Some(b)).cache
  {
    FilterTwice(c.cache, AboutBusinesses);
  }

  lemma {:induction false} FilterTwice<T(!new)>(s: seq<T>, p: T -> bool)
    ensures Filter(Filter(s, p), p) == Filter(s, p)
  {
    if |s| > 0 {
      FilterTwice(s[1..], p);
      assert Filter(s, p) == (if p(s[0]) then [s[0]] else []) + Filter(s[1..], p);
    }
  }

  /** The provider's state, as the effects and `switchBusiness` update it. */
  class Provider {
    var active: Option<Business>
    var stored: Option<Business>
    var cache: seq<QueryKey>

    function State(): Ctx
      reads this
    {
      Ctx(active, stored, cache)
    }

    /** The initial state restores the active business from local storage. */
    constructor (saved: Option<Business>, cached: seq<QueryKey>)
      ensures State() == Ctx(saved, saved, cached) && Synced(State())
    {
      active, stored, cache := saved, saved, cached;
    }

    method SwitchBusiness(b: Option<Business>)
      modifies this
      ensures State() == Switch(old(State()), b)
    {
      active := b;
      if b.Some? {
        stored := b;
        cache := Filter(cache, AboutBusinesses);
      } else {
        stored := None;
      }
    }

    method OnTokenChange(token: string)
      modifies this
      ensures State() == TokenChanged(old(State()), token)
    {
      if token == "" {
        active := None;
        stored := None;
      }
    }

    method OnBusinessesLoaded(businesses: Option<seq<Business>>, isLoading: bool)
      modifies this
      ensures State() == AutoSelect(old(State()), businesses, isLoading)
    {
      if !isLoading && businesses.Some? {
        var list := businesses.value;
        if active.Some? {
          var found := FindById(list, active.value.id);
          if found.Some? {
            if found != active {
              active := found;
              stored := found;
            }
          } else if |list| > 0 {
            SwitchBusiness(Some(Preferred(list)));
          } else {
            SwitchBusiness(None);
          }
        } else if |list| > 0 {
          SwitchBusiness(Some(Preferred(list)));
        }
      }
    }
  }
}
