/**
 * The two post-save handlers on users in backend/users/signals.py: a default
 * business for a newly created user who owns none, and the one-time referral
 * reward when a referred user reaches a paid plan. Saving a user writes every
 * field of the in-memory instance to its row and then runs both handlers
 * with that instance. Coupon codes carry a random suffix, which is left out;
 * a coupon keeps its fixed prefix.
 */
module UserSignals {
  import opened Common

  type UserId = nat

  /** The user fields the handlers read or write. */
  datatype UserRow = UserRow(firstName: string, email: string, membership: string,
                             referredBy: Option<UserId>, rewarded: bool, referralCount: nat)

  datatype Biz = Biz(owner: UserId, name: string, isActive: bool)

  datatype Reason = NewUserBonus | ReferrerBonus

  datatype Coupon = Coupon(user: UserId, prefix: string, percent: nat, reason: Reason)

  /** The tables the handlers touch. */
  datatype Db = Db(users: map<UserId, UserRow>, businesses: seq<Biz>, coupons: seq<Coupon>)

  // ---------------------------------------------------------------------------
  // Default business

  /** `email.split('@')[0]`: the text before the first `@`, or all of it. */
  function LocalPart(email: string): (r: string)
    ensures '@' !in r && |r| <= |email| && r == email[..|r|]
    ensures |r| < |email| ==> email[|r|] == '@'
  {
    if |email| == 0 || email[0] == '@' then ""
    else [email[0]] + LocalPart(email[1..])
  }

  /** The default name: the first name or the e-mail's local part, then "'s Business". */
  function DefaultName(u: UserRow): (name: string)
    ensures u.firstName != "" ==> name == u.firstName + "'s Business"
    ensures u.firstName == "" ==> name == LocalPart(u.email) + "'s Business"
  {
    (if u.firstName != "" then u.firstName else LocalPart(u.email)) + "'s Business"
  }

  predicate OwnsAny(businesses: seq<Biz>, id: UserId)
  {
    exists k :: 0 <= k < |businesses| && businesses[k].owner == id
  }

  /** `auto_create_business_for_new_user`: only on creation, and only for a user owning no business. */
  function AutoCreateBusiness(businesses: seq<Biz>, id: UserId, u: UserRow, created: bool): (r: seq<Biz>)
    ensures created && !OwnsAny(businesses, id) ==> r == businesses + [Biz(id, DefaultName(u), true)]
    ensures !(created && !OwnsAny(businesses, id)) ==> r == businesses
  {
    if created && !OwnsAny(businesses, id) then businesses + [Biz(id, DefaultName(u), true)] else businesses
  }

  /** A newly created user ends up owning exactly one business when they owned none, and otherwise keeps theirs. */
  lemma {:induction false} NewUserOwnsOneBusiness(businesses: seq<Biz>, id: UserId, u: UserRow)
    ensures OwnsAny(AutoCreateBusiness(businesses, id, u, true), id)
    ensures !OwnsAny(businesses, id) ==>
              |Filter(AutoCreateBusiness(businesses, id, u, true), (b: Biz) => b.owner == id)| == 1
  {
    var r := AutoCreateBusiness(businesses, id, u, true);
    if !OwnsAny(businesses, id) {
      assert r[|businesses|].owner == id;
      FilterSnoc(businesses, Biz(id, DefaultName(u), true), (b: Biz) => b.owner == id);
      FilterNone(businesses, (b: Biz) => b.owner == id);
    } else {
      var k :| 0 <= k < |businesses| && businesses[k].owner == id;
      assert r[k] == businesses[k];
    }
  }

  // ---------------------------------------------------------------------------
  // Referral reward

  predicate PaidPlan(membership: string) { membership == "pro" || membership == "premium" }

  /** The reward is due for a referred user on a paid plan who has not been rewarded yet. */
  predicate RewardDue(u: UserRow)
  {
    PaidPlan(u.membership) && !u.rewarded && u.referredBy.Some?
  }

  /**
   * `handle_pro_upgrade`: a 10% coupon for the user and a 20% coupon for the
   * referrer; the referrer's `referral_count` and the user's
   * `referral_rewarded` are then written by filtered updates, which change
   * nothing for a missing row.
   */
  function HandleProUpgrade(db: Db, id: UserId, u: UserRow): (r: Db)
    ensures !RewardDue(u) ==> r == db
    ensures RewardDue(u) ==>
              r.coupons == db.coupons + [Coupon(id, "NEW-10-", 10, NewUserBonus),
                                         Coupon(u.referredBy.value, "REF-20-", 20, ReferrerBonus)] &&
              r.businesses == db.businesses && r.users.Keys == db.users.Keys
    ensures RewardDue(u) && u.referredBy.value != id && u.referredBy.value in db.users ==>
              r.users[u.referredBy.value].referralCount == db.users[u.referredBy.value].referralCount + 1
    ensures RewardDue(u) && id in db.users ==> r.users[id].rewarded
  {
    if !RewardDue(u) then db
    else
      var ref := u.referredBy.value;
      var coupons := db.coupons + [Coupon(id, "NEW-10-", 10, NewUserBonus), Coupon(ref, "REF-20-", 20, ReferrerBonus)];
      var users1 := if ref in db.users then db.users[ref := db.users[ref].(referralCount := db.users[ref].referralCount + 1)]
                    else db.users;
      var users2 := if id in users1 then users1[id := users1[id].(rewarded := true)] else users1;
      Db(users2, db.businesses, coupons)
  }

  /**
   * `user.save()` as written: the instance's fields are written to its row,
   * then both handlers run with the instance. The instance itself is not
   * refreshed, so it still says "not rewarded" after a reward.
   */
  function SaveAsWritten(db: Db, id: UserId, inst: UserRow, created: bool): (r: (Db, UserRow))
    ensures r.1 == inst
  {
    var written := Db(db.users[id := inst], AutoCreateBusiness(db.businesses, id, inst, created), db.coupons);
    (HandleProUpgrade(written, id, inst), inst)
  }

  /**
   * A referred user upgraded to pro, then saved a second time through the same
   * instance: the second save writes the stale flag back and rewards again,
   * so four coupons exist and the referrer counts two referrals.
   */
  lemma StaleInstanceRewardsTwice()
    ensures var db := Db(map[1 := UserRow("", "r@x", "free", None, false, 0)], [], []);
            var inst := UserRow("", "u@x", "pro", Some(1), false, 0);
            var (db1, inst1) := SaveAsWritten(db, 2, inst, false);
            var (db2, _) := SaveAsWritten(db1, 2, inst1, false);
            |db2.coupons| == 4 && db2.users[1].referralCount == 2
  {
  }

  /**
   * The intended save: the handler also marks the instance rewarded, as a
   * refreshed instance would be, so a later save of it cannot reward again.
   */
  function Save(db: Db, id: UserId, inst: UserRow, created: bool): (r: (Db, UserRow))
    ensures RewardDue(inst) ==> r.1 == inst.(rewarded := true)
    ensures !RewardDue(inst) ==> r.1 == inst
  {
    var written := Db(db.users[id := inst], AutoCreateBusiness(db.businesses, id, inst, created), db.coupons);
    (HandleProUpgrade(written, id, inst), if RewardDue(inst) then inst.(rewarded := true) else inst)
  }

  /**
   * With the refreshed instance, saving again issues no coupon and leaves the
   * referrer's count alone: each referral is rewarded once.
   */
  lemma RewardOnlyOnce(db: Db, id: UserId, inst: UserRow, created: bool, created2: bool)
    requires inst.referredBy != Some(id)
    ensures var (db1, inst1) := Save(db, id, inst, created);
            var (db2, _) := Save(db1, id, inst1, created2);
            db2.coupons == db1.coupons &&
            (inst.referredBy.Some? && inst.referredBy.value in db1.users ==>
               db2.users[inst.referredBy.value] == db1.users[inst.referredBy.value])
  {
  }

  /** A reward issues exactly one 10% coupon to the user and one 20% coupon to the referrer. */
  lemma RewardCoupons(db: Db, id: UserId, inst: UserRow, created: bool)
    requires RewardDue(inst)
    ensures var db1 := Save(db, id, inst, created).0;
            db1.coupons[|db.coupons|..] == [Coupon(id, "NEW-10-", 10, NewUserBonus),
                                            Coupon(inst.referredBy.value, "REF-20-", 20, ReferrerBonus)]
  {
  }

  /** Users, businesses and coupons as the handlers update them. */
  class Accounts {
    var users: map<UserId, UserRow>
    var businesses: seq<Biz>
    var coupons: seq<Coupon>

    function State(): Db
      reads this
    {
      Db(users, businesses, coupons)
    }

    constructor ()
      ensures State() == Db(map[], [], [])
    {
      users, businesses, coupons := map[], [], [];
    }

    /** Saves the instance and runs both handlers; returns the instance as the caller then holds it. */
    method SaveUser(id: UserId, inst: UserRow, created: bool) returns (after: UserRow)
      modifies this
      ensures (State(), after) == Save(old(State()), id, inst, created)
    {
      users := users[id := inst];
      if created && !OwnsAny(businesses, id) {
        businesses := businesses + [Biz(id, DefaultName(inst), true)];
      }
      after := inst;
      if PaidPlan(inst.membership) && !inst.rewarded && inst.referredBy.Some? {
        var ref := inst.referredBy.value;
        coupons := coupons + [Coupon(id, "NEW-10-", 10, NewUserBonus), Coupon(ref, "REF-20-", 20, ReferrerBonus)];
        if ref in users {
          users := users[ref := users[ref].(referralCount := users[ref].referralCount + 1)];
        }
        if id in users {
          users := users[id := users[id].(rewarded := true)];
        }
        after := inst.(rewarded := true);
      }
    }
  }
}
