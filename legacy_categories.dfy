/**
 * The one-off categorisation of notifications stored before categories
 * existed (backend/notifications/management/commands/categorize_legacy_notifications.py).
 * Two passes over the uncategorised notifications: the first marks titles
 * mentioning "stok" or "limit" as inventory, the second marks the remaining
 * titles mentioning a finance keyword as finance. Only the title is read;
 * a missing title is the empty string.
 */
module LegacyCategories {
  import opened Common

  datatype Category = Inventory | Finance | Other(name: string)

  datatype Notif = Notif(title: string, message: string, category: Option<Category>)

  const FinanceKeywords: seq<string> := ["faktura", "ödəniş", "xərc", "invoice", "payment", "expense"]

  /** The first pass's test on the lower-cased title. */
  predicate InventoryTitle(title: string)
  {
    Contains(Lower(title), "stok") || Contains(Lower(title), "limit")
  }

  /** The second pass's test: some finance keyword occurs in the lower-cased title. */
  predicate FinanceTitle(title: string)
  {
    exists k :: 0 <= k < |FinanceKeywords| && Contains(Lower(title), FinanceKeywords[k])
  }

  /** The keyword loop of the second pass, which stops at the first match. */
  method MatchesFinance(title: string) returns (found: bool)
    ensures found <==> FinanceTitle(title)
  {
    var lower := Lower(title);
    found := false;
    var k := 0;
    while k < |FinanceKeywords|
      invariant 0 <= k <= |FinanceKeywords|
      invariant !(exists j :: 0 <= j < k && Contains(lower, FinanceKeywords[j]))
    {
      if Contains(lower, FinanceKeywords[k]) {
        found := true;
        return;
      }
      k := k + 1;
    }
  }

  /** What both passes together do to one notification. */
  function Categorised(n: Notif): (r: Notif)
    ensures r.title == n.title && r.message == n.message
    ensures n.category.Some? ==> r == n
    ensures n.category.None? && InventoryTitle(n.title) ==> r.category == Some(Inventory)
    ensures n.category.None? && !InventoryTitle(n.title) && FinanceTitle(n.title) ==> r.category == Some(Finance)
    ensures n.category.None? && !InventoryTitle(n.title) && !FinanceTitle(n.title) ==> r == n
  {
    if n.category.Some? then n
    else if InventoryTitle(n.title) then n.(category := Some(Inventory))
    else if FinanceTitle(n.title) then n.(category := Some(Finance))
    else n
  }

  predicate FirstPassHit(n: Notif) { n.category.None? && InventoryTitle(n.title) }

  predicate SecondPassHit(n: Notif) { n.category.None? && !InventoryTitle(n.title) && FinanceTitle(n.title) }

  /** A notification after the inventory pass. */
  function AfterFirst(n: Notif): (r: Notif)
    ensures r.category.None? <==> n.category.None? && !InventoryTitle(n.title)
  {
    if FirstPassHit(n) then n.(category := Some(Inventory)) else n
  }

  /** How many of the first `k` notifications a pass selects. */
  function Hits(s: seq<Notif>, k: nat, p: Notif -> bool): nat
    requires k <= |s|
  {
    |Filter(s[..k], p)|
  }

  lemma HitsStep(s: seq<Notif>, k: nat, p: Notif -> bool, hit: bool)
    requires k < |s| && hit == p(s[k])
    ensures Hits(s, k + 1, p) == Hits(s, k, p) + (if hit then 1 else 0)
  {
    assert s[..k + 1] == s[..k] + [s[k]];
    FilterSnoc(s[..k], s[k], p);
  }

  /** The first pass on one notification: an uncategorised inventory title is marked, and only then saved. */
  method InventoryStep(n: Notif) returns (r: Notif, hit: bool)
    ensures r == AfterFirst(n) && hit == FirstPassHit(n)
    ensures !hit ==> r == n
  {
    r, hit := n, false;
    if n.category.None? && InventoryTitle(n.title) {
      r, hit := n.(category := Some(Inventory)), true;
    }
  }

  /** The second pass on one notification `n`, the first pass's result for `b`. */
  method FinanceStep(ghost b: Notif, n: Notif) returns (r: Notif, hit: bool)
    requires n == AfterFirst(b)
    ensures r == Categorised(b) && hit == SecondPassHit(b)
    ensures !hit ==> r == n
  {
    r, hit := n, false;
    if n.category.None? {
      var isFinance := MatchesFinance(n.title);
      if isFinance {
        r, hit := n.(category := Some(Finance)), true;
      }
    }
  }

  lemma HitsAll(s: seq<Notif>, p: Notif -> bool)
    ensures Hits(s, |s|, p) == |Filter(s, p)|
  {
    assert s[..|s|] == s;
  }

  /** The inventory pass. */
  method InventoryPass(notifs: array<Notif>, ghost before: seq<Notif>) returns (count: nat)
    requires notifs[..] == before
    modifies notifs
    ensures forall k :: 0 <= k < notifs.Length ==> notifs[k] == AfterFirst(before[k])
    ensures count == |Filter(before, FirstPassHit)|
  {
    count := 0;
    var k := 0;
    while k < notifs.Length
      invariant 0 <= k <= notifs.Length
      invariant forall j :: 0 <= j < k ==> notifs[j] == AfterFirst(before[j])
      invariant forall j :: k <= j < notifs.Length ==> notifs[j] == before[j]
      invariant count == Hits(before, k, FirstPassHit)
    {
      var hit := InventoryAt(notifs, k, before[k]);
      HitsStep(before, k, FirstPassHit, hit);
      if hit {
        count := count + 1;
      }
      k := k + 1;
    }
    HitsAll(before, FirstPassHit);
  }

  /** The first pass on the notification at index `k`, saved only when it is marked. */
  method InventoryAt(notifs: array<Notif>, k: nat, ghost b: Notif) returns (hit: bool)
    requires k < notifs.Length && notifs[k] == b
    modifies notifs
    ensures notifs[k] == AfterFirst(b) && hit == FirstPassHit(b)
    ensures forall j :: 0 <= j < notifs.Length && j != k ==> notifs[j] == old(notifs[j])
  {
    var r;
    r, hit := InventoryStep(notifs[k]);
    if hit {
      notifs[k] := r;
    }
  }

  /** The finance pass, over the table the inventory pass left (`before` is the table before that). */
  method FinancePass(notifs: array<Notif>, ghost before: seq<Notif>) returns (countFin: nat)
    requires |before| == notifs.Length
    requires forall k :: 0 <= k < notifs.Length ==> notifs[k] == AfterFirst(before[k])
    modifies notifs
    ensures forall k :: 0 <= k < notifs.Length ==> notifs[k] == Categorised(before[k])
    ensures countFin == |Filter(before, SecondPassHit)|
  {
    countFin := 0;
    var k := 0;
    while k < notifs.Length
      invariant 0 <= k <= notifs.Length
      invariant forall j :: 0 <= j < k ==> notifs[j] == Categorised(before[j])
      invariant forall j :: k <= j < notifs.Length ==> notifs[j] == AfterFirst(before[j])
      invariant countFin == Hits(before, k, SecondPassHit)
    {
      var hit := FinanceAt(notifs, k, before[k]);
      HitsStep(before, k, SecondPassHit, hit);
      if hit {
        countFin := countFin + 1;
      }
      k := k + 1;
    }
    HitsAll(before, SecondPassHit);
  }

  /** The second pass on the notification at index `k`, saved only when it is marked. */
  method FinanceAt(notifs: array<Notif>, k: nat, ghost b: Notif) returns (hit: bool)
    requires k < notifs.Length && notifs[k] == AfterFirst(b)
    modifies notifs
    ensures notifs[k] == Categorised(b) && hit == SecondPassHit(b)
    ensures forall j :: 0 <= j < notifs.Length && j != k ==> notifs[j] == old(notifs[j])
  {
    var r;
    r, hit := FinanceStep(b, notifs[k]);
    if hit {
      notifs[k] := r;
    }
  }

  /** `Command.handle`: the inventory pass, then the finance pass over what is still uncategorised. */
  method Handle(notifs: array<Notif>) returns (count: nat, countFin: nat)
    modifies notifs
    ensures forall k :: 0 <= k < notifs.Length ==> notifs[k] == Categorised(old(notifs[k]))
    ensures count == |Filter(old(notifs[..]), FirstPassHit)|
    ensures countFin == |Filter(old(notifs[..]), SecondPassHit)|
  {
    ghost var before := notifs[..];
    count := InventoryPass(notifs, before);
    countFin := FinancePass(notifs, before);
  }

  /** A title matching both tests ends up in inventory. */
  lemma InventoryTakesPrecedence(title: string, message: string)
    requires InventoryTitle(title) && FinanceTitle(title)
    ensures Categorised(Notif(title, message, None)).category == Some(Inventory)
  {
  }

  /** The message is never consulted. */
  lemma MessageIgnored(n: Notif, m: string)
    ensures Categorised(n.(message := m)) == Categorised(n).(message := m)
  {
  }

  /** Running the command again changes nothing. */
  lemma CategorisedIdempotent(n: Notif)
    ensures Categorised(Categorised(n)) == Categorised(n)
  {
  }

  /** Upper-case titles are matched too: "STOK" is an inventory title. */
  lemma UpperCaseStock()
    ensures InventoryTitle("STOK")
  {
    assert Lower("STOK") == "stok";
    assert OccursAt(Lower("STOK"), "stok", 0);
  }

  /** "Ödəniş" is a finance title and not an inventory one. */
  lemma UpperCasePayment()
    ensures FinanceTitle("Ödəniş")
  {
    assert Lower("Ödəniş") == "ödəniş";
    assert OccursAt(Lower("Ödəniş"), FinanceKeywords[1], 0);
  }
}
