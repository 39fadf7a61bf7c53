/**
 * The account endpoints of backend/users/views.py that hold logic: the
 * business list and business creation behind the plan quota, the
 * two-factor setup state (generate, enable with replay protection, disable)
 * and the session list and revocation over the token tables. The TOTP check
 * itself is an oracle (`codeValid`), the random secret a parameter, and the
 * cache a map from code to expiry second.
 */
module UserViews {
  import opened Common
  import opened PlanLimits

  // ---------------------------------------------------------------------------
  // Businesses

  /** `BusinessViewSet.get_queryset`: the requester's own businesses. */
  function ListBusinesses(businesses: seq<BusinessRow>, user: User): (r: seq<BusinessRow>)
    ensures forall x :: x in r <==> x in businesses && x.owner == user.id
  {
    OwnedBusinesses(businesses, user)
  }

  /** Two different users never see a common business. */
  lemma BusinessListsAreDisjoint(businesses: seq<BusinessRow>, a: User, b: User)
    requires a.id != b.id
    ensures forall x :: x in ListBusinesses(businesses, a) ==> x !in ListBusinesses(businesses, b)
  {
  }

  datatype BusinessCreate =
    | PlanLimitRefused(code: string, limit: nat)
    | BusinessCreated(row: BusinessRow, isActive: bool)

  /**
   * `BusinessViewSet.perform_create`: over the business quota the request is
   * refused with code `plan_limit` and the limit; otherwise the business is
   * stored owned by the requester and active.
   */
  function PerformCreateBusiness(user: User, businesses: seq<BusinessRow>, newId: BusinessId)
    : (r: (BusinessCreate, seq<BusinessRow>))
    ensures !CheckBusinessLimit(user, businesses).allowed <==> r.0.PlanLimitRefused?
    ensures r.0.PlanLimitRefused? ==>
              r.1 == businesses && r.0.code == "plan_limit" &&
              Some(r.0.limit) == GetPlanLimits(user.membership).businesses
    ensures r.0.BusinessCreated? ==>
              r.0.row == BusinessRow(newId, user.id) && r.0.isActive && r.1 == businesses + [r.0.row]
  {
    var check := CheckBusinessLimit(user, businesses);
    if !check.allowed then (PlanLimitRefused("plan_limit", check.limit.value), businesses)
    else (BusinessCreated(BusinessRow(newId, user.id), true), businesses + [BusinessRow(newId, user.id)])
  }

  /** Creation through this endpoint never takes a user past the business quota of their plan. */
  lemma BusinessQuotaNeverExceeded(user: User, businesses: seq<BusinessRow>, newId: BusinessId)
    requires GetPlanLimits(user.membership).businesses.Some?
    requires |OwnedBusinesses(businesses, user)| <= GetPlanLimits(user.membership).businesses.value
    ensures |OwnedBusinesses(PerformCreateBusiness(user, businesses, newId).1, user)| <=
            GetPlanLimits(user.membership).businesses.value
  {
    FilterAppend(businesses, [BusinessRow(newId, user.id)], (x: BusinessRow) => x.owner == user.id);
  }

  // ---------------------------------------------------------------------------
  // Two-factor authentication

  datatype EnableOutcome = NoSecret | CodeReused | Enabled | WrongCode

  /** How long a used code stays blocked, in seconds. */
  const ReplayWindow := 60

  /** The user's 2FA fields and the replay cache entries for that user. */
  datatype TwoFactor = TwoFactor(secret: string, enabled: bool, used: map<string, int>)

  /** A cache entry is present until its expiry second. */
  predicate InCache(used: map<string, int>, code: string, now: int)
  {
    code in used && now < used[code]
  }

  /** `Generate2FAView.post`: a secret is drawn only when the user has none. */
  function Generate(s: TwoFactor, randomSecret: string): (r: TwoFactor)
    ensures s.secret != "" ==> r == s
    ensures s.secret == "" ==> r == s.(secret := randomSecret)
  {
    if s.secret == "" then s.(secret := randomSecret) else s
  }

  /**
   * `Enable2FAView.post`: refused without a secret; a code the oracle rejects
   * is wrong; a valid code still in the cache is a replay; otherwise the code
   * is blocked for sixty seconds and 2FA is enabled.
   */
  function Enable(s: TwoFactor, code: string, codeValid: bool, now: int): (r: (EnableOutcome, TwoFactor))
    ensures r.0 == NoSecret <==> s.secret == ""
    ensures r.0 == WrongCode <==> s.secret != "" && !codeValid
    ensures r.0 == CodeReused <==> s.secret != "" && codeValid && InCache(s.used, code, now)
    ensures r.0 != Enabled ==> r.1 == s
    ensures r.0 == Enabled ==> r.1 == TwoFactor(s.secret, true, s.used[code := now + ReplayWindow])
  {
    if s.secret == "" then (NoSecret, s)
    else if !codeValid then (WrongCode, s)
    else if InCache(s.used, code, now) then (CodeReused, s)
    else (Enabled, TwoFactor(s.secret, true, s.used[code := now + ReplayWindow]))
  }

  /** `Disable2FAView.post`: both the flag and the secret are cleared. */
  function Disable(s: TwoFactor): (r: TwoFactor)
    ensures !r.enabled && r.secret == "" && r.used == s.used
  {
    TwoFactor("", false, s.used)
  }

  /** Generating again keeps the secret the first call drew. */
  lemma GenerateIsStable(s: TwoFactor, first: string, second: string)
    requires first != ""
    ensures Generate(Generate(s, first), second) == Generate(s, first)
  {
  }

  /** A valid code used once enables 2FA; the same code again within sixty seconds is refused. */
  lemma ReplayRejected(s: TwoFactor, code: string, now: int, later: int)
    requires s.secret != "" && !InCache(s.used, code, now)
    requires now <= later < now + ReplayWindow
    ensures Enable(s, code, true, now).0 == Enabled
    ensures Enable(Enable(s, code, true, now).1, code, true, later).0 == CodeReused
  {
  }

  /** Once the sixty seconds have passed, the same valid code is accepted again. */
  lemma ReplayWindowExpires(s: TwoFactor, code: string, now: int, later: int)
    requires s.secret != "" && !InCache(s.used, code, now)
    requires later >= now + ReplayWindow
    ensures Enable(Enable(s, code, true, now).1, code, true, later).0 == Enabled
  {
  }

  /** After disabling, enabling needs a new secret first. */
  lemma DisableThenEnableNeedsSecret(s: TwoFactor, code: string, codeValid: bool, now: int)
    ensures Enable(Disable(s), code, codeValid, now).0 == NoSecret
  {
  }

  /** A user's 2FA state as the views update it. */
  class Account {
    var secret: string
    var enabled: bool
    var used: map<string, int>

    function State(): TwoFactor
      reads this
    {
      TwoFactor(secret, enabled, used)
    }

    constructor ()
      ensures State() == TwoFactor("", false, map[])
    {
      secret, enabled, used := "", false, map[];
    }

    method Generate2FA(randomSecret: string) returns (shown: string)
      modifies this`secret
      ensures State() == Generate(old(State()), randomSecret)
      ensures shown == secret
    {
      if secret == "" {
        secret := randomSecret;
      }
      shown := secret;
    }

    method Enable2FA(code: string, codeValid: bool, now: int) returns (outcome: EnableOutcome)
      modifies this`enabled, this`used
      ensures (outcome, State()) == Enable(old(State()), code, codeValid, now)
    {
      if secret == "" {
        return NoSecret;
      }
      if !codeValid {
        return WrongCode;
      }
      if code in used && now < used[code] {
        return CodeReused;
      }
      used := used[code := now + ReplayWindow];
      enabled := true;
      outcome := Enabled;
    }

    method Disable2FA()
      modifies this`enabled, this`secret
      ensures State() == Disable(old(State()))
    {
      enabled := false;
      secret := "";
    }
  }

  // ---------------------------------------------------------------------------
  // Sessions

  /**
   * `SessionListView.get`: the outstanding refresh tokens of the user (a map
   * from token id to owner) whose id is not blacklisted.
   */
  function ActiveSessions(outstanding: map<nat, UserId>, blacklisted: set<nat>, user: UserId): (r: set<nat>)
    ensures forall t :: t in r <==> t in outstanding && outstanding[t] == user && t !in blacklisted
  {
    set t | t in outstanding && outstanding[t] == user && t !in blacklisted
  }

  datatype RevokeOutcome = Revoked | SessionNotFound

  /** `RevokeSessionView.post`: blacklist the token if it is the caller's, else not found. */
  function Revoke(outstanding: map<nat, UserId>, blacklisted: set<nat>, user: UserId, pk: nat)
    : (r: (RevokeOutcome, set<nat>))
    ensures r.0 == Revoked <==> pk in outstanding && outstanding[pk] == user
    ensures r.0 == Revoked ==> r.1 == blacklisted + {pk}
    ensures r.0 == SessionNotFound ==> r.1 == blacklisted
  {
    if pk in outstanding && outstanding[pk] == user then (Revoked, blacklisted + {pk})
    else (SessionNotFound, blacklisted)
  }

  /**
   * Revoking removes exactly that session from the caller's list, leaves
   * every other user's list as it was, and revoking again changes nothing.
   */
  lemma RevokeOnlyTouchesCaller(outstanding: map<nat, UserId>, blacklisted: set<nat>, user: UserId, pk: nat, other: UserId)
    requires other != user
    ensures ActiveSessions(outstanding, Revoke(outstanding, blacklisted, user, pk).1, other) ==
            ActiveSessions(outstanding, blacklisted, other)
    ensures ActiveSessions(outstanding, Revoke(outstanding, blacklisted, user, pk).1, user) ==
            ActiveSessions(outstanding, blacklisted, user) - {pk}
    ensures Revoke(outstanding, Revoke(outstanding, blacklisted, user, pk).1, user, pk).1 ==
            Revoke(outstanding, blacklisted, user, pk).1
  {
  }
}
