/**
 * The integer and bucketing parts of the analytics endpoints in
 * backend/invoices/analytics_views.py: the business guard, the payment
 * behaviour split, the payment-speed buckets, customer ratings, the
 * overdue/critical selection with its aging buckets and debtor list, the
 * month stepping of the forecast, the growth and tax-base formulas, the
 * year parameter and the churn list. Dates are day numbers; money is `real`.
 * Percentages, rounding and the revenue regression are not modelled.
 */
module Analytics {
  import opened Common
  import opened InvoiceModel

  // ---------------------------------------------------------------------------
  // Guard

  datatype Guarded = PermissionDenied | Business(id: nat)

  /** `get_business`: the resolved business, or a refusal when nothing resolved. */
  function GetBusiness(active: Option<nat>): (r: Guarded)
    ensures r.PermissionDenied? <==> active.None?
    ensures r.Business? ==> r.id == active.value
  {
    if active.None? then PermissionDenied else Business(active.value)
  }

  // ---------------------------------------------------------------------------
  // Sorting by a real key (Python's `list.sort(key=...)`)

  predicate SortedBy<T>(s: seq<T>, key: T -> real)
  {
    forall i, j :: 0 <= i < j < |s| ==> key(s[i]) <= key(s[j])
  }

  /** `x` placed after every element whose key is not larger. */
  function Insert<T>(x: T, s: seq<T>, key: T -> real): (r: seq<T>)
    ensures multiset(r) == multiset(s) + multiset{x}
    ensures |r| == |s| + 1
  {
    if |s| == 0 then [x]
    else if key(x) < key(s[0]) then [x] + s
    else
      assert s == [s[0]] + s[1..];
      [s[0]] + Insert(x, s[1..], key)
  }

  lemma {:induction false} InsertSorted<T>(x: T, s: seq<T>, key: T -> real)
    requires SortedBy(s, key)
    ensures SortedBy(Insert(x, s, key), key)
  {
    if |s| > 0 && key(x) >= key(s[0]) {
      var rest := Insert(x, s[1..], key);
      InsertSorted(x, s[1..], key);
      forall y | y in rest
        ensures key(s[0]) <= key(y)
      {
        assert y in multiset(rest);
        if y != x {
          assert y in multiset(s[1..]);
        }
      }
    }
  }

  /** The elements of `s` ordered by ascending key. */
  function SortBy<T>(s: seq<T>, key: T -> real): (r: seq<T>)
    ensures SortedBy(r, key)
    ensures multiset(r) == multiset(s)
    ensures |r| == |s|
  {
    if |s| == 0 then []
    else
      assert s == s[..|s| - 1] + [s[|s| - 1]];
      InsertSorted(s[|s| - 1], SortBy(s[..|s| - 1], key), key);
      Insert(s[|s| - 1], SortBy(s[..|s| - 1], key), key)
  }

  /** `s[:n]`. */
  function Take<T>(s: seq<T>, n: nat): (r: seq<T>)
    ensures |r| == if |s| <= n then |s| else n
    ensures r == s[..|r|]
  {
    if |s| <= n then s else s[..n]
  }

  lemma TakeKeepsOrder<T>(s: seq<T>, n: nat, key: T -> real)
    requires SortedBy(s, key)
    ensures SortedBy(Take(s, n), key)
    ensures forall x :: x in Take(s, n) ==> x in s
  {
  }

  // ---------------------------------------------------------------------------
  // Payment behaviour

  /** A payment with its client, its date, and its invoice's date and due date. */
  datatype Payment = Payment(client: nat, paymentDate: int, invoiceDate: int, dueDate: int)

  predicate PaidOnTime(p: Payment) { p.paymentDate <= p.dueDate }

  /** `on_time_payments` and `late_payments = total - on_time`. */
  function BehaviourSplit(ps: seq<Payment>): (r: (nat, nat))
    ensures r.0 == |Filter(ps, (p: Payment) => PaidOnTime(p))|
    ensures r.0 + r.1 == |ps|
  {
    var onTime := |Filter(ps, (p: Payment) => PaidOnTime(p))|;
    (onTime, |ps| - onTime)
  }

  /** The late count is exactly the number of payments made after the due date. */
  lemma {:induction false} LateMeansAfterDue(ps: seq<Payment>)
    ensures BehaviourSplit(ps).1 == |Filter(ps, (p: Payment) => p.paymentDate > p.dueDate)|
  {
    if |ps| > 0 {
      LateMeansAfterDue(ps[1..]);
    }
  }

  // ---------------------------------------------------------------------------
  // Payment speed

  /** Days from the invoice date to the payment date. */
  function DaysTaken(p: Payment): int { p.paymentDate - p.invoiceDate }

  /** The speed bucket: 0 for at most 7 days, 1 up to 14, 2 up to 30, 3 beyond. */
  function SpeedBucket(days: int): (b: nat)
    ensures b < 4
    ensures b == 0 <==> days <= 7
    ensures b == 1 <==> 7 < days <= 14
    ensures b == 2 <==> 14 < days <= 30
    ensures b == 3 <==> 30 < days
  {
    if days <= 7 then 0 else if days <= 14 then 1 else if days <= 30 then 2 else 3
  }

  function SpeedCount(ps: seq<Payment>, b: nat): nat
  {
    |Filter(ps, (p: Payment) => SpeedBucket(DaysTaken(p)) == b)|
  }

  /** The loop over payments that fills `speed_buckets`. */
  method SpeedBuckets(ps: seq<Payment>) returns (counts: seq<nat>)
    ensures |counts| == 4
    ensures forall b :: 0 <= b < 4 ==> counts[b] == SpeedCount(ps, b)
  {
    counts := [0, 0, 0, 0];
    var i := 0;
    while i < |ps|
      invariant 0 <= i <= |ps| && |counts| == 4
      invariant forall b :: 0 <= b < 4 ==> counts[b] == SpeedCount(ps[..i], b)
    {
      var k := SpeedBucket(DaysTaken(ps[i]));
      assert ps[..i + 1] == ps[..i] + [ps[i]];
      forall b | 0 <= b < 4
        ensures SpeedCount(ps[..i + 1], b) == SpeedCount(ps[..i], b) + (if b == k then 1 else 0)
      {
        FilterAppend(ps[..i], [ps[i]], (p: Payment) => SpeedBucket(DaysTaken(p)) == b);
      }
      counts := counts[k := counts[k] + 1];
      i := i + 1;
    }
    assert ps[..|ps|] == ps;
  }

  /** Every payment lands in exactly one bucket, so the four counts sum to the number of payments. */
  lemma {:induction false} SpeedBucketsCoverAll(ps: seq<Payment>)
    ensures SpeedCount(ps, 0) + SpeedCount(ps, 1) + SpeedCount(ps, 2) + SpeedCount(ps, 3) == |ps|
  {
    if |ps| > 0 {
      SpeedBucketsCoverAll(ps[1..]);
    }
  }

  // ---------------------------------------------------------------------------
  // Customer ratings

  datatype Grade = A | B | C | D

  function GradeRank(g: Grade): nat
  {
    match g
    case A => 0
    case B => 1
    case C => 2
    case D => 3
  }

  /** The rating thresholds on the average delay: at most 3 days A, 10 B, 20 C, beyond D. */
  function Rating(avgDelay: real): (g: Grade)
    ensures g == A <==> avgDelay <= 3.0
    ensures g == B <==> 3.0 < avgDelay <= 10.0
    ensures g == C <==> 10.0 < avgDelay <= 20.0
    ensures g == D <==> 20.0 < avgDelay
  {
    if avgDelay <= 3.0 then A else if avgDelay <= 10.0 then B else if avgDelay <= 20.0 then C else D
  }

  /** A longer average delay never earns a better grade. */
  lemma RatingMonotone(x: real, y: real)
    requires x <= y
    ensures GradeRank(Rating(x)) <= GradeRank(Rating(y))
  {
  }

  /** Days from the due date to the payment date; negative when paid early. */
  function Delay(p: Payment): int { p.paymentDate - p.dueDate }

  /** One step of the `clients_analytics` loop: append the payment's delay under its client. */
  function DelayStep(m: map<nat, seq<int>>, p: Payment): map<nat, seq<int>>
  {
    if p.client !in m then m[p.client := [Delay(p)]] else m[p.client := m[p.client] + [Delay(p)]]
  }

  function DelaysByClient(ps: seq<Payment>): map<nat, seq<int>>
  {
    if |ps| == 0 then map[] else DelayStep(DelaysByClient(ps[..|ps| - 1]), ps[|ps| - 1])
  }

  /** The clients in order of first payment (the dictionary's insertion order). */
  function ClientOrder(ps: seq<Payment>): seq<nat>
  {
    if |ps| == 0 then []
    else if ps[|ps| - 1].client in DelaysByClient(ps[..|ps| - 1]) then ClientOrder(ps[..|ps| - 1])
    else ClientOrder(ps[..|ps| - 1]) + [ps[|ps| - 1].client]
  }

  /** The delays of client `c`'s payments, in payment order: the reference the dictionary is checked against. */
  function DelaysOf(ps: seq<Payment>, c: nat): seq<int>
  {
    if |ps| == 0 then []
    else DelaysOf(ps[..|ps| - 1], c) + (if ps[|ps| - 1].client == c then [Delay(ps[|ps| - 1])] else [])
  }

  /**
   * Each client's list holds exactly the delays of that client's payments, in
   * payment order, so it is never empty; a client without payments has no
   * list; the order lists exactly the clients with a list.
   */
  lemma {:induction false} DelaysByClientSpec(ps: seq<Payment>)
    ensures forall c :: c in ClientOrder(ps) <==> c in DelaysByClient(ps)
    ensures forall c :: c in DelaysByClient(ps) ==> DelaysByClient(ps)[c] == DelaysOf(ps, c) != []
    ensures forall c :: c !in DelaysByClient(ps) ==> DelaysOf(ps, c) == []
  {
    if |ps| > 0 {
      DelaysByClientSpec(ps[..|ps| - 1]);
    }
  }

  function SumInts(s: seq<int>): int
  {
    if |s| == 0 then 0 else SumInts(s[..|s| - 1]) + s[|s| - 1]
  }

  /** `sum(delays) / len(delays)`. */
  function Mean(d: seq<int>): real
    requires |d| > 0
  {
    (SumInts(d) as real) / (|d| as real)
  }

  datatype Rated = Rated(client: nat, avgDelay: real, grade: Grade)

  function RatedDelay(r: Rated): real { r.avgDelay }

  /** One rating per client, in first-payment order: the mean of the client's delays and its grade. */
  function Ratings(ps: seq<Payment>): (r: seq<Rated>)
    ensures |r| == |ClientOrder(ps)|
    ensures forall k :: 0 <= k < |r| ==>
              r[k].client == ClientOrder(ps)[k] && DelaysOf(ps, r[k].client) != [] &&
              r[k].avgDelay == Mean(DelaysOf(ps, r[k].client)) && r[k].grade == Rating(r[k].avgDelay)
  {
    DelaysByClientSpec(ps);
    var m := DelaysByClient(ps);
    var order := ClientOrder(ps);
    seq(|order|, k requires 0 <= k < |order| =>
      var avg := Mean(m[order[k]]);
      Rated(order[k], avg, Rating(avg)))
  }

  /** Cutting a sorted list to `n` keeps the smallest keys: nothing left out has a smaller key than anything kept. */
  lemma TakeSmallest<T>(s: seq<T>, n: nat, key: T -> real)
    ensures var r := Take(SortBy(s, key), n);
            multiset(r) <= multiset(s) &&
            forall x, y :: x in r && y in multiset(s) - multiset(r) ==> key(x) <= key(y)
  {
    var sorted := SortBy(s, key);
    var r := Take(sorted, n);
    var rest := sorted[|r|..];
    assert sorted == r + rest;
    assert multiset(s) == multiset(r) + multiset(rest);
    forall x, y | x in r && y in multiset(s) - multiset(r)
      ensures key(x) <= key(y)
    {
      assert y in multiset(rest);
      var i :| 0 <= i < |r| && r[i] == x;
      var j :| 0 <= j < |rest| && rest[j] == y;
      assert sorted[i] == x && sorted[|r| + j] == y;
    }
  }

  /**
   * `customer_ratings`, sorted by ascending average delay and cut to ten: the
   * ten ratings (or all, when fewer) with the smallest averages.
   */
  function CustomerRatings(ps: seq<Payment>): (r: seq<Rated>)
    ensures |r| == if |Ratings(ps)| <= 10 then |Ratings(ps)| else 10
    ensures SortedBy(r, RatedDelay)
    ensures multiset(r) <= multiset(Ratings(ps))
    ensures forall x, y :: x in r && y in multiset(Ratings(ps)) - multiset(r) ==> x.avgDelay <= y.avgDelay
  {
    var sorted := SortBy(Ratings(ps), RatedDelay);
    TakeKeepsOrder(sorted, 10, RatedDelay);
    TakeSmallest(Ratings(ps), 10, RatedDelay);
    Take(sorted, 10)
  }

  /** The `clients_analytics` loop: each payment's delay appended under its client. */
  method ClientsAnalytics(ps: seq<Payment>) returns (m: map<nat, seq<int>>, order: seq<nat>)
    ensures m == DelaysByClient(ps) && order == ClientOrder(ps)
  {
    m, order := map[], [];
    var i := 0;
    while i < |ps|
      invariant 0 <= i <= |ps|
      invariant m == DelaysByClient(ps[..i]) && order == ClientOrder(ps[..i])
    {
      assert ps[..i + 1][..i] == ps[..i];
      var p := ps[i];
      if p.client !in m {
        order := order + [p.client];
        m := m[p.client := [Delay(p)]];
      } else {
        m := m[p.client := m[p.client] + [Delay(p)]];
      }
      i := i + 1;
    }
    assert ps[..|ps|] == ps;
  }

  // ---------------------------------------------------------------------------
  // Problematic invoices

  /** What the problem report reads of an invoice. */
  datatype Inv = Inv(client: nat, dueDate: int, status: Status, total: real, paidAmount: real)

  /** Past due and neither a draft, paid nor cancelled. */
  predicate Overdue(i: Inv, today: int)
  {
    i.dueDate < today && i.status != Draft && i.status != Paid && i.status != Cancelled
  }

  /** Overdue by more than ninety days. */
  predicate Critical(i: Inv, today: int)
  {
    i.dueDate < today - 90
  }

  function OverdueInvoices(invs: seq<Inv>, today: int): (r: seq<Inv>)
    ensures forall i :: i in r <==> i in invs && Overdue(i, today)
  {
    Filter(invs, (i: Inv) => Overdue(i, today))
  }

  function CriticalInvoices(ov: seq<Inv>, today: int): (r: seq<Inv>)
    ensures forall i :: i in r <==> i in ov && Critical(i, today)
  {
    Filter(ov, (i: Inv) => Critical(i, today))
  }

  /** The unpaid part of each invoice. */
  function Remainings(s: seq<Inv>): (r: seq<real>)
    ensures |r| == |s| && forall k :: 0 <= k < |s| ==> r[k] == s[k].total - s[k].paidAmount
  {
    seq(|s|, k requires 0 <= k < |s| => s[k].total - s[k].paidAmount)
  }

  /** The amount still owed on a list of invoices. */
  function Debt(s: seq<Inv>): real
  {
    SumReals(Remainings(s))
  }

  lemma DebtCons(x: Inv, s: seq<Inv>)
    ensures Debt([x] + s) == (x.total - x.paidAmount) + Debt(s)
  {
    assert Remainings([x] + s) == [x.total - x.paidAmount] + Remainings(s);
    SumRealsAppend([x.total - x.paidAmount], Remainings(s));
    assert [x.total - x.paidAmount][..0] == [];
  }

  lemma DebtSnoc(s: seq<Inv>, x: Inv)
    ensures Debt(s + [x]) == Debt(s) + (x.total - x.paidAmount)
  {
    assert Remainings(s + [x])[..|s|] == Remainings(s);
  }

  /** The aging bucket by days overdue: 0 up to 30, 1 up to 60, 2 up to 90, 3 beyond. */
  function AgingBucket(days: int): (b: nat)
    ensures b < 4
    ensures b == 0 <==> days <= 30
    ensures b == 1 <==> 30 < days <= 60
    ensures b == 2 <==> 60 < days <= 90
    ensures b == 3 <==> 90 < days
  {
    if days <= 30 then 0 else if days <= 60 then 1 else if days <= 90 then 2 else 3
  }

  /** The debt in aging bucket `b`. */
  function AgingAmount(ov: seq<Inv>, today: int, b: nat): real
  {
    Debt(Filter(ov, (y: Inv) => AgingBucket(today - y.dueDate) == b))
  }

  /** The loop that fills the `aging` dictionary. */
  method Aging(ov: seq<Inv>, today: int) returns (aging: seq<real>)
    ensures |aging| == 4
    ensures forall b :: 0 <= b < 4 ==> aging[b] == AgingAmount(ov, today, b)
  {
    aging := [0.0, 0.0, 0.0, 0.0];
    var i := 0;
    while i < |ov|
      invariant 0 <= i <= |ov| && |aging| == 4
      invariant forall b :: 0 <= b < 4 ==> aging[b] == AgingAmount(ov[..i], today, b)
    {
      var x := ov[i];
      var k := AgingBucket(today - x.dueDate);
      assert ov[..i + 1] == ov[..i] + [x];
      forall b | 0 <= b < 4
        ensures AgingAmount(ov[..i + 1], today, b) ==
                AgingAmount(ov[..i], today, b) + (if b == k then x.total - x.paidAmount else 0.0)
      {
        FilterSnoc(ov[..i], x, (y: Inv) => AgingBucket(today - y.dueDate) == b);
        DebtSnoc(Filter(ov[..i], (y: Inv) => AgingBucket(today - y.dueDate) == b), x);
      }
      aging := aging[k := aging[k] + (x.total - x.paidAmount)];
      i := i + 1;
    }
    assert ov[..|ov|] == ov;
  }

  /** The four aging buckets add up to the total overdue amount. */
  lemma {:induction false} AgingCoversTotal(ov: seq<Inv>, today: int)
    ensures AgingAmount(ov, today, 0) + AgingAmount(ov, today, 1) +
            AgingAmount(ov, today, 2) + AgingAmount(ov, today, 3) == Debt(ov)
  {
    if |ov| > 0 {
      var x, rest := ov[0], ov[1..];
      AgingCoversTotal(rest, today);
      assert ov == [x] + rest;
      DebtCons(x, rest);
      AgingAmountCons(x, rest, today, 0);
      AgingAmountCons(x, rest, today, 1);
      AgingAmountCons(x, rest, today, 2);
      AgingAmountCons(x, rest, today, 3);
    }
  }

  /** An invoice in front adds its remaining amount to its own bucket only. */
  lemma AgingAmountCons(x: Inv, s: seq<Inv>, today: int, b: nat)
    ensures AgingAmount([x] + s, today, b) ==
            (if AgingBucket(today - x.dueDate) == b then x.total - x.paidAmount else 0.0) + AgingAmount(s, today, b)
  {
    var p := (y: Inv) => AgingBucket(today - y.dueDate) == b;
    assert ([x] + s)[1..] == s;
    if p(x) {
      assert Filter([x] + s, p) == [x] + Filter(s, p);
      DebtCons(x, Filter(s, p));
    } else {
      assert Filter([x] + s, p) == Filter(s, p);
    }
  }

  /** The critical debt is exactly the 90+ bucket. */
  lemma CriticalDebtIsOldestBucket(ov: seq<Inv>, today: int)
    ensures Debt(CriticalInvoices(ov, today)) == AgingAmount(ov, today, 3)
  {
    FilterSame(ov, (i: Inv) => Critical(i, today), (y: Inv) => AgingBucket(today - y.dueDate) == 3);
  }

  /** Every critical invoice is overdue by at least 91 days, every overdue one by at least 1. */
  lemma OverdueDays(invs: seq<Inv>, today: int)
    ensures forall i :: i in OverdueInvoices(invs, today) ==> today - i.dueDate >= 1
    ensures forall i :: i in CriticalInvoices(OverdueInvoices(invs, today), today) ==> today - i.dueDate >= 91
  {
  }

  /** One row of the debtors list. */
  datatype Debtor = Debtor(client: nat, totalDebt: real, count: nat, maxDays: int)

  /** One step of the `debtors_map` loop. */
  function DebtorStep(m: map<nat, Debtor>, x: Inv, today: int): map<nat, Debtor>
  {
    var d := if x.client in m then m[x.client] else Debtor(x.client, 0.0, 0, 0);
    var days := today - x.dueDate;
    m[x.client := Debtor(x.client, d.totalDebt + (x.total - x.paidAmount), d.count + 1,
                         if days > d.maxDays then days else d.maxDays)]
  }

  function DebtorMap(ov: seq<Inv>, today: int): map<nat, Debtor>
  {
    if |ov| == 0 then map[] else DebtorStep(DebtorMap(ov[..|ov| - 1], today), ov[|ov| - 1], today)
  }

  /** The debtors in order of their first overdue invoice (the dictionary's insertion order). */
  function DebtorOrder(ov: seq<Inv>, today: int): seq<nat>
  {
    if |ov| == 0 then []
    else if ov[|ov| - 1].client in DebtorMap(ov[..|ov| - 1], today) then DebtorOrder(ov[..|ov| - 1], today)
    else DebtorOrder(ov[..|ov| - 1], today) + [ov[|ov| - 1].client]
  }

  /** The debtors are exactly the clients with an overdue invoice, each listed once in the order. */
  lemma {:induction false} DebtorKeys(ov: seq<Inv>, today: int)
    ensures forall c :: c in DebtorMap(ov, today) <==> c in DebtorOrder(ov, today)
    ensures forall i :: i in ov ==> i.client in DebtorMap(ov, today)
    ensures forall c :: c !in DebtorMap(ov, today) ==> Filter(ov, (y: Inv) => y.client == c) == []
  {
    if |ov| > 0 {
      var n := |ov| - 1;
      DebtorKeys(ov[..n], today);
      assert ov == ov[..n] + [ov[n]];
      forall c | c !in DebtorMap(ov, today)
        ensures Filter(ov, (y: Inv) => y.client == c) == []
      {
        FilterSnoc(ov[..n], ov[n], (y: Inv) => y.client == c);
      }
    }
  }

  /**
   * A debtor's row sums the unpaid amounts of exactly that client's overdue
   * invoices and counts them.
   */
  lemma {:induction false} DebtorRow(ov: seq<Inv>, today: int, c: nat)
    requires c in DebtorMap(ov, today)
    ensures DebtorMap(ov, today)[c].client == c
    ensures DebtorMap(ov, today)[c].count == |Filter(ov, (y: Inv) => y.client == c)|
    ensures DebtorMap(ov, today)[c].totalDebt == Debt(Filter(ov, (y: Inv) => y.client == c))
  {
    var n := |ov| - 1;
    var x := ov[n];
    assert ov == ov[..n] + [x];
    FilterSnoc(ov[..n], x, (y: Inv) => y.client == c);
    if c in DebtorMap(ov[..n], today) {
      DebtorRow(ov[..n], today, c);
    } else {
      DebtorKeys(ov[..n], today);
    }
    if c == x.client {
      DebtSnoc(Filter(ov[..n], (y: Inv) => y.client == c), x);
    }
  }

  /** A debtor's `max_overdue_days` bounds every one of its invoices and is 0 or reached by one. */
  lemma {:induction false} DebtorMaxDays(ov: seq<Inv>, today: int)
    ensures forall i :: i in ov ==>
              i.client in DebtorMap(ov, today) && today - i.dueDate <= DebtorMap(ov, today)[i.client].maxDays
    ensures forall c :: c in DebtorMap(ov, today) ==>
              DebtorMap(ov, today)[c].maxDays == 0 ||
              exists i :: i in ov && i.client == c && today - i.dueDate == DebtorMap(ov, today)[c].maxDays
  {
    if |ov| > 0 {
      var n := |ov| - 1;
      DebtorMaxDays(ov[..n], today);
      assert ov == ov[..n] + [ov[n]];
      assert forall i :: i in ov <==> i in ov[..n] || i == ov[n];
    }
  }

  /** The `debtors_map` loop. */
  method Debtors(ov: seq<Inv>, today: int) returns (m: map<nat, Debtor>, order: seq<nat>)
    ensures m == DebtorMap(ov, today) && order == DebtorOrder(ov, today)
  {
    m, order := map[], [];
    var i := 0;
    while i < |ov|
      invariant 0 <= i <= |ov|
      invariant m == DebtorMap(ov[..i], today) && order == DebtorOrder(ov[..i], today)
    {
      assert ov[..i + 1][..i] == ov[..i];
      var x := ov[i];
      if x.client !in m {
        order := order + [x.client];
        m := m[x.client := Debtor(x.client, 0.0, 0, 0)];
      }
      var d := m[x.client];
      var days := today - x.dueDate;
      m := m[x.client := Debtor(x.client, d.totalDebt + (x.total - x.paidAmount), d.count + 1,
                                if days > d.maxDays then days else d.maxDays)];
      i := i + 1;
    }
    assert ov[..|ov|] == ov;
  }

  function NegDebt(d: Debtor): real { -d.totalDebt }

  /** The rows of the debtors map in insertion order. */
  function DebtorRows(ov: seq<Inv>, today: int): (r: seq<Debtor>)
    ensures |r| == |DebtorOrder(ov, today)|
    ensures forall k :: 0 <= k < |r| ==>
              DebtorOrder(ov, today)[k] in DebtorMap(ov, today) && r[k] == DebtorMap(ov, today)[DebtorOrder(ov, today)[k]]
  {
    DebtorKeys(ov, today);
    var m := DebtorMap(ov, today);
    var order := DebtorOrder(ov, today);
    seq(|order|, k requires 0 <= k < |order| => m[order[k]])
  }

  /** `debtors_list`: the rows sorted by descending total debt. */
  function DebtorsList(ov: seq<Inv>, today: int): (r: seq<Debtor>)
    ensures multiset(r) == multiset(DebtorRows(ov, today))
    ensures forall i, j :: 0 <= i < j < |r| ==> r[i].totalDebt >= r[j].totalDebt
  {
    var sorted := SortBy(DebtorRows(ov, today), NegDebt);
    assert forall i, j :: 0 <= i < j < |sorted| ==> NegDebt(sorted[i]) <= NegDebt(sorted[j]);
    sorted
  }

  // ---------------------------------------------------------------------------
  // Forecast

  /** The month `i` months before (`year`, `month`), by the forecast's wrap-around loop. */
  method MonthsBack(year: int, month: int, i: nat) returns (y: int, m: int)
    requires 1 <= month <= 12
    ensures 1 <= m <= 12
    ensures y * 12 + m == year * 12 + month - i
  {
    y, m := year, month - i;
    while m <= 0
      invariant m <= 12 && y * 12 + m == year * 12 + month - i
      decreases -m
    {
      m := m + 12;
      y := y - 1;
    }
  }

  /** The month `i` months after (`year`, `month`), by the forecast's wrap-around loop. */
  method MonthsAhead(year: int, month: int, i: nat) returns (y: int, m: int)
    requires 1 <= month <= 12
    ensures 1 <= m <= 12
    ensures y * 12 + m == year * 12 + month + i
  {
    y, m := year, month + i;
    while m > 12
      invariant m >= 1 && y * 12 + m == year * 12 + month + i
      decreases m
    {
      m := m - 12;
      y := y + 1;
    }
  }

  /**
   * Month-over-month and year-over-year growth in percent: the relative change
   * when the base is positive, otherwise 100 for any revenue and 0 for none.
   */
  function Growth(current: real, base: real): (g: real)
    ensures base > 0.0 ==> g * base == (current - base) * 100.0
    ensures base <= 0.0 ==> g == (if current > 0.0 then 100.0 else 0.0)
  {
    if base > 0.0 then (current - base) / base * 100.0
    else if current > 0.0 then 100.0 else 0.0
  }

  /** Growth is positive exactly when revenue rose over a positive base, or appeared over none. */
  lemma GrowthSign(current: real, base: real)
    ensures Growth(current, base) > 0.0 <==> (if base > 0.0 then current > base else current > 0.0)
    ensures base > 0.0 ==> (Growth(current, base) == 0.0 <==> current == base)
  {
    if base > 0.0 {
      var g := Growth(current, base);
      assert g * base == (current - base) * 100.0;
      if g > 0.0 { assert g * base > 0.0; }
      if current > base { assert g * base > 0.0; }
    }
  }

  // ---------------------------------------------------------------------------
  // Tax

  /** The income-tax base: revenue less expenses, never below zero. */
  function TaxBase(revenue: real, expenses: real): (t: real)
    ensures t >= 0.0 && t >= revenue - expenses
    ensures t == 0.0 || t == revenue - expenses
  {
    if revenue - expenses > 0.0 then revenue - expenses else 0.0
  }

  /** The tax base is the least non-negative bound of the profit. */
  lemma TaxBaseIsLeast(revenue: real, expenses: real, t: real)
    requires t >= 0.0 && t >= revenue - expenses
    ensures TaxBase(revenue, expenses) <= t
  {
  }

  /** The `year` query parameter: absent, empty or unparsable falls back to the current year. */
  function ParseYear(param: Option<string>, currentYear: int): (y: int)
    ensures param.None? || param == Some("") ==> y == currentYear
    ensures param.Some? && ParseNat(param.value).None? ==> y == currentYear
    ensures param.Some? && ParseNat(param.value).Some? ==> y == ParseNat(param.value).value
  {
    if param.None? || param.value == "" then currentYear
    else match ParseNat(param.value)
      case None => currentYear
      case Some(v) => v
  }

  /** A year written out in decimal is read back as that year. */
  lemma ParseYearRoundTrip(year: nat, currentYear: int)
    ensures ParseYear(Some(NatToDecimal(year)), currentYear) == year
  {
    DecimalRoundTrip(year);
    ParseNatDigits(NatToDecimal(year));
  }

  // ---------------------------------------------------------------------------
  // Churn risk

  /** A client and the dates of its invoices. */
  datatype ClientHistory = ClientHistory(id: nat, invoiceDates: seq<int>)

  /** The latest of a non-empty list of dates (`order_by('-invoice_date').first()`). */
  function Latest(ds: seq<int>): (d: int)
    requires |ds| > 0
    ensures d in ds && forall e :: e in ds ==> e <= d
  {
    if |ds| == 1 then ds[0]
    else
      var rest := Latest(ds[1..]);
      assert forall e :: e in ds ==> e == ds[0] || e in ds[1..];
      if ds[0] >= rest then ds[0] else rest
  }

  datatype ChurnEntry = ChurnEntry(client: nat, lastSeen: int, daysInactive: int)

  /** A client with invoices whose latest one is more than ninety days old. */
  predicate AtRisk(c: ClientHistory, today: int)
  {
    |c.invoiceDates| > 0 && Latest(c.invoiceDates) < today - 90
  }

  function ChurnCandidates(cs: seq<ClientHistory>, today: int): (r: seq<ChurnEntry>)
  {
    if |cs| == 0 then []
    else
      var c := cs[|cs| - 1];
      ChurnCandidates(cs[..|cs| - 1], today) +
      (if AtRisk(c, today) then [ChurnEntry(c.id, Latest(c.invoiceDates), today - Latest(c.invoiceDates))] else [])
  }

  /** Every entry belongs to an at-risk client, with its last invoice date, inactive for over ninety days. */
  lemma {:induction false} ChurnSound(cs: seq<ClientHistory>, today: int)
    ensures forall e :: e in ChurnCandidates(cs, today) ==>
              e.daysInactive > 90 && e.daysInactive == today - e.lastSeen &&
              exists c :: c in cs && c.id == e.client && AtRisk(c, today) && e.lastSeen == Latest(c.invoiceDates)
  {
    if |cs| > 0 {
      var n := |cs| - 1;
      ChurnSound(cs[..n], today);
      forall e | e in ChurnCandidates(cs, today)
        ensures exists c :: c in cs && c.id == e.client && AtRisk(c, today) && e.lastSeen == Latest(c.invoiceDates)
      {
        if e in ChurnCandidates(cs[..n], today) {
          var c :| c in cs[..n] && c.id == e.client && AtRisk(c, today) && e.lastSeen == Latest(c.invoiceDates);
          assert c in cs;
        } else {
          assert cs[n] in cs;
        }
      }
    }
  }

  /** Every at-risk client gets its entry. */
  lemma {:induction false} ChurnComplete(cs: seq<ClientHistory>, today: int)
    ensures forall c :: c in cs && AtRisk(c, today) ==>
              ChurnEntry(c.id, Latest(c.invoiceDates), today - Latest(c.invoiceDates)) in ChurnCandidates(cs, today)
  {
    if |cs| > 0 {
      var n := |cs| - 1;
      var init := cs[..n];
      ChurnComplete(init, today);
      assert cs == init + [cs[n]];
      forall c | c in cs && AtRisk(c, today)
        ensures ChurnEntry(c.id, Latest(c.invoiceDates), today - Latest(c.invoiceDates)) in ChurnCandidates(cs, today)
      {
        assert c in init || c == cs[n];
      }
    }
  }

  /** The loop over the business's clients that collects `churn_risk_clients`. */
  method ChurnRisk(cs: seq<ClientHistory>, today: int) returns (r: seq<ChurnEntry>)
    ensures r == ChurnCandidates(cs, today)
  {
    r := [];
    var k := 0;
    while k < |cs|
      invariant 0 <= k <= |cs| && r == ChurnCandidates(cs[..k], today)
    {
      assert cs[..k + 1][..k] == cs[..k];
      var c := cs[k];
      if |c.invoiceDates| > 0 {
        var last := Latest(c.invoiceDates);
        if last < today - 90 {
          r := r + [ChurnEntry(c.id, last, today - last)];
        }
      }
      k := k + 1;
    }
    assert cs[..|cs|] == cs;
  }

  function NegInactive(e: ChurnEntry): real { -(e.daysInactive as real) }

  /**
   * `churn_list`: the candidates sorted by descending days inactive and cut to
   * five: the five (or all, when fewer) longest inactive, longest first.
   */
  function ChurnList(cs: seq<ClientHistory>, today: int): (r: seq<ChurnEntry>)
    ensures var c := ChurnCandidates(cs, today); |r| == if |c| <= 5 then |c| else 5
    ensures forall i, j :: 0 <= i < j < |r| ==> r[i].daysInactive >= r[j].daysInactive
    ensures multiset(r) <= multiset(ChurnCandidates(cs, today))
    ensures forall x, y :: x in r && y in multiset(ChurnCandidates(cs, today)) - multiset(r) ==>
              x.daysInactive >= y.daysInactive
  {
    MostInactive(ChurnCandidates(cs, today))
  }

  /** The sort by `NegInactive` and the cut to five, on the candidate list. */
  function MostInactive(c: seq<ChurnEntry>): (r: seq<ChurnEntry>)
    ensures |r| == if |c| <= 5 then |c| else 5
    ensures forall i, j :: 0 <= i < j < |r| ==> r[i].daysInactive >= r[j].daysInactive
    ensures multiset(r) <= multiset(c)
    ensures forall x, y :: x in r && y in multiset(c) - multiset(r) ==> x.daysInactive >= y.daysInactive
  {
    MostInactiveSpec(c);
    Take(SortBy(c, NegInactive), 5)
  }

  /** The four facts of `MostInactive`, gathered for the cut sorted list. */
  lemma MostInactiveSpec(c: seq<ChurnEntry>)
    ensures var r := Take(SortBy(c, NegInactive), 5);
            && |r| == (if |c| <= 5 then |c| else 5)
            && (forall i, j :: 0 <= i < j < |r| ==> r[i].daysInactive >= r[j].daysInactive)
            && multiset(r) <= multiset(c)
            && (forall x, y :: x in r && y in multiset(c) - multiset(r) ==> x.daysInactive >= y.daysInactive)
  {
    LongestFirst(c);
    LongestKept(c);
  }

  /** Sorting by `NegInactive` and cutting to five puts the longest inactive first. */
  lemma LongestFirst(c: seq<ChurnEntry>)
    ensures var r := Take(SortBy(c, NegInactive), 5);
            forall i, j :: 0 <= i < j < |r| ==> r[i].daysInactive >= r[j].daysInactive
  {
    var r := Take(SortBy(c, NegInactive), 5);
    TakeKeepsOrder(SortBy(c, NegInactive), 5, NegInactive);
    forall i, j | 0 <= i < j < |r|
      ensures r[i].daysInactive >= r[j].daysInactive
    {
      assert NegInactive(r[i]) <= NegInactive(r[j]);
    }
  }

  /** Sorting by `NegInactive` and cutting to five keeps the five longest inactive. */
  lemma LongestKept(c: seq<ChurnEntry>)
    ensures var r := Take(SortBy(c, NegInactive), 5);
            multiset(r) <= multiset(c) &&
            forall x, y :: x in r && y in multiset(c) - multiset(r) ==> x.daysInactive >= y.daysInactive
  {
    var r := Take(SortBy(c, NegInactive), 5);
    TakeSmallest(c, 5, NegInactive);
    forall x, y | x in r && y in multiset(c) - multiset(r)
      ensures x.daysInactive >= y.daysInactive
    {
      assert NegInactive(x) <= NegInactive(y);
    }
  }
}
