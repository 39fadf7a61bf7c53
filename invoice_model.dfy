/**
 * The invoice record of backend/invoices/models.py: automatic numbering on
 * first save, line-item amounts, the money totals, the paid/sent payment
 * status kept in step with the recorded payments, and the monthly budget
 * warning raised when an expense is created. Money is an exact `real`;
 * timestamps are integers passed in as `now`.
 */
module InvoiceModel {
  import opened Common

  datatype Status = Draft | Finalized | Sent | Viewed | Paid | Overdue | Cancelled

  // ---------------------------------------------------------------------------
  // Numbering

  /** `s.split('-')[-1]`: the longest suffix of `s` without a dash. */
  function Suffix(s: string): string
  {
    if |s| == 0 then ""
    else if s[|s| - 1] == '-' then ""
    else Suffix(s[..|s| - 1]) + [s[|s| - 1]]
  }

  /** The suffix is a dash-free tail of the string, preceded by a dash whenever it is not all of it. */
  lemma {:induction false} SuffixShape(s: string)
    ensures var r := Suffix(s);
            |r| <= |s| && s[|s| - |r|..] == r &&
            (forall i :: 0 <= i < |r| ==> r[i] != '-') &&
            (|r| < |s| ==> s[|s| - |r| - 1] == '-')
  {
    if |s| > 0 && s[|s| - 1] != '-' {
      var init := s[..|s| - 1];
      SuffixShape(init);
      var r := Suffix(s);
      assert r == Suffix(init) + [s[|s| - 1]];
      assert s == init + [s[|s| - 1]];
    }
  }

  /** `f"INV-{n:04d}"`. */
  function InvoiceNumber(n: nat): (s: string)
    ensures |s| >= 8
  {
    "INV-" + ZeroPad(NatToDecimal(n), 4)
  }

  /** Every generated number carries the `INV-` prefix followed by digits only. */
  lemma InvoiceNumberShape(n: nat)
    ensures StartsWith(InvoiceNumber(n), "INV-")
    ensures AllDigits(InvoiceNumber(n)[4..])
  {
    var d := ZeroPad(NatToDecimal(n), 4);
    assert InvoiceNumber(n)[..4] == "INV-";
    assert InvoiceNumber(n)[4..] == d;
    PaddedDecimalRoundTrip(n, 4);
  }

  /**
   * The number `save` gives an invoice that has none. `prior` holds the
   * numbers of the business's invoices in id order: none gives INV-1001; a
   * parsable suffix of the last one gives that value plus one; otherwise the
   * count of prior invoices plus 1001.
   */
  function NextNumber(prior: seq<string>): (r: string)
    ensures |r| >= 8
  {
    if |prior| == 0 then "INV-1001" else NextAfter(prior[|prior| - 1], |prior|)
  }

  /** The number after `last`, the newest of `count` numbers: its parsed suffix plus one, else count + 1001. */
  function NextAfter(last: string, count: nat): (r: string)
    ensures |r| >= 8
  {
    match ParseNat(Suffix(last))
    case Some(n) => InvoiceNumber(n + 1)
    case None => InvoiceNumber(count + 1001)
  }

  lemma {:induction false} SuffixAfterDash(p: string, d: string)
    requires forall i :: 0 <= i < |d| ==> d[i] != '-'
    ensures Suffix(p + "-" + d) == d
  {
    if |d| > 0 {
      var s := p + "-" + d;
      assert s[..|s| - 1] == p + "-" + d[..|d| - 1];
      SuffixAfterDash(p, d[..|d| - 1]);
      assert d == d[..|d| - 1] + [d[|d| - 1]];
    } else {
      assert p + "-" + d == p + "-";
    }
  }

  /** The suffix of a generated number parses back to the value it was made from. */
  lemma InvoiceNumberSuffix(n: nat)
    ensures ParseNat(Suffix(InvoiceNumber(n))) == Some(n)
  {
    var d := ZeroPad(NatToDecimal(n), 4);
    assert InvoiceNumber(n) == "INV" + "-" + d;
    assert AllDigits(d) by {
      PaddedDecimalRoundTrip(n, 4);
    }
    SuffixAfterDash("INV", d);
    PaddedDecimalRoundTrip(n, 4);
  }

  /** The first invoice of a business is INV-1001. */
  lemma FirstNumber()
    ensures NextNumber([]) == "INV-1001"
    ensures InvoiceNumber(1001) == "INV-1001"
  {
    Decimal1001();
    assert ZeroPad("1001", 4) == "1001";
  }

  lemma Decimal1001()
    ensures NatToDecimal(1001) == "1001"
  {
    assert DigitChar(0) == '0' && DigitChar(1) == '1';
    var one := NatToDecimal(1);
    assert one == "1";
    var ten := NatToDecimal(10);
    assert ten == one + [DigitChar(0)];
    var hundred := NatToDecimal(100);
    assert hundred == ten + [DigitChar(0)];
    assert NatToDecimal(1001) == hundred + [DigitChar(1)];
  }

  /** After a generated number the next one is its successor. */
  lemma NextAfterGenerated(prior: seq<string>, n: nat)
    ensures NextNumber(prior + [InvoiceNumber(n)]) == InvoiceNumber(n + 1)
  {
    var p := prior + [InvoiceNumber(n)];
    assert |p| > 0 && p[|p| - 1] == InvoiceNumber(n);
    InvoiceNumberSuffix(n);
    NextFromSuffix(p, n);
  }

  /** A last number whose suffix reads as `n` is followed by INV-(n + 1). */
  lemma NextFromSuffix(p: seq<string>, n: nat)
    requires |p| > 0 && ParseNat(Suffix(p[|p| - 1])) == Some(n)
    ensures NextNumber(p) == InvoiceNumber(n + 1)
  {
    var last := p[|p| - 1];
    assert NextNumber(p) == NextAfter(last, |p|);
  }

  /** A last number whose suffix is not a digit string falls back to count + 1001. */
  lemma FallbackNumber(prior: seq<string>)
    requires |prior| > 0 && ParseNat(Suffix(prior[|prior| - 1])).None?
    ensures NextNumber(prior) == InvoiceNumber(|prior| + 1001)
  {
  }

  /** Generated numbers are distinct for distinct values. */
  lemma InvoiceNumberInjective(a: nat, b: nat)
    requires InvoiceNumber(a) == InvoiceNumber(b)
    ensures a == b
  {
    InvoiceNumberSuffix(a);
    InvoiceNumberSuffix(b);
  }

  /** The numbers a business receives when it creates `k` invoices from scratch. */
  function Sequential(k: nat): (r: seq<string>)
    ensures |r| == k
  {
    if k == 0 then [] else Sequential(k - 1) + [InvoiceNumber(1000 + k)]
  }

  /** The `i`-th number of a run from scratch is INV-(1001 + i). */
  lemma {:induction false} SequentialAt(k: nat, i: nat)
    requires i < k
    ensures Sequential(k)[i] == InvoiceNumber(1001 + i)
  {
    var prev := Sequential(k - 1);
    assert Sequential(k) == prev + [InvoiceNumber(1000 + k)];
    if i < k - 1 {
      SequentialAt(k - 1, i);
      assert Sequential(k)[i] == prev[i];
    } else {
      assert 1000 + k == 1001 + i;
    }
  }

  lemma FirstSequential()
    ensures NextNumber(Sequential(0)) == InvoiceNumber(1001)
  {
    assert Sequential(0) == [];
    FirstNumber();
  }

  lemma LaterSequential(k: nat)
    requires k > 0
    ensures NextNumber(Sequential(k)) == InvoiceNumber(1001 + k)
  {
    var m: nat := 1000 + k;
    assert Sequential(k) == Sequential(k - 1) + [InvoiceNumber(m)];
    NextAfterGenerated(Sequential(k - 1), m);
  }

  /** Numbering from scratch continues the run: the next number is INV-(1001 + k). */
  lemma SequentialNext(k: nat)
    ensures NextNumber(Sequential(k)) == InvoiceNumber(1001 + k)
  {
    if k == 0 {
      FirstSequential();
    } else {
      LaterSequential(k);
    }
  }

  /** The numbers `save` hands out when a business creates `k` invoices one after another, starting from none. */
  function Run(k: nat): (r: seq<string>)
    ensures |r| == k
  {
    if k == 0 then [] else Run(k - 1) + [NextNumber(Run(k - 1))]
  }

  /** Those numbers are INV-1001, INV-1002, …, INV-(1000 + k). */
  lemma {:induction false} RunIsSequential(k: nat)
    ensures Run(k) == Sequential(k)
  {
    if k > 0 {
      RunIsSequential(k - 1);
      RunStep(k);
    }
  }

  /** One more creation after a run from scratch continues the run. */
  lemma RunStep(k: nat)
    requires k > 0 && Run(k - 1) == Sequential(k - 1)
    ensures Run(k) == Sequential(k)
  {
    var n: nat := 1000 + k;
    var j: nat := k - 1;
    assert 1001 + j == n;
    SequentialNext(j);
    assert NextNumber(Run(k - 1)) == InvoiceNumber(n);
  }

  // ---------------------------------------------------------------------------
  // Numbering against the table-wide uniqueness of `invoice_number`

  datatype InvoiceKey = InvoiceKey(business: nat, number: string)

  /** The numbers of one business's invoices, in id order. */
  function NumbersOf(table: seq<InvoiceKey>, b: nat): (r: seq<string>)
    ensures |r| <= |table|
    ensures forall x :: x in r ==> exists k :: 0 <= k < |table| && table[k] == InvoiceKey(b, x)
  {
    if |table| == 0 then []
    else
      var rest := NumbersOf(table[..|table| - 1], b);
      if table[|table| - 1].business == b then rest + [table[|table| - 1].number] else rest
  }

  predicate NumberUsed(table: seq<InvoiceKey>, number: string)
  {
    exists k | 0 <= k < |table| :: table[k].number == number
  }

  /**
   * Creating an invoice as written: the number is computed from the
   * business's own invoices, but the column is unique over every business,
   * so a number already held by any invoice fails the insert (`None`).
   */
  function CreateAsWritten(table: seq<InvoiceKey>, b: nat): (r: Option<string>)
    ensures r.Some? ==> r.value == NextNumber(NumbersOf(table, b)) && !NumberUsed(table, r.value)
    ensures r.None? <==> NumberUsed(table, NextNumber(NumbersOf(table, b)))
  {
    var n := NextNumber(NumbersOf(table, b));
    if NumberUsed(table, n) then None else Some(n)
  }

  /** The first invoice of a second business collides with the first business's INV-1001. */
  lemma SecondBusinessFirstInvoiceFails()
    ensures CreateAsWritten([InvoiceKey(1, "INV-1001")], 2).None?
  {
    var t := [InvoiceKey(1, "INV-1001")];
    assert NumbersOf(t, 2) == [] by {
      assert t[..0] == [];
    }
    assert t[0].number == "INV-1001";
  }

  /** Uniqueness scoped to the business, which per-business numbering needs. */
  predicate NumberUsedIn(table: seq<InvoiceKey>, b: nat, number: string)
  {
    exists k | 0 <= k < |table| :: table[k] == InvoiceKey(b, number)
  }

  /** Creating an invoice when the number is unique within its business only. */
  function CreateScoped(table: seq<InvoiceKey>, b: nat): (r: Option<string>)
    ensures r.Some? ==> r.value == NextNumber(NumbersOf(table, b)) && !NumberUsedIn(table, b, r.value)
    ensures r.None? <==> NumberUsedIn(table, b, NextNumber(NumbersOf(table, b)))
  {
    var n := NextNumber(NumbersOf(table, b));
    if NumberUsedIn(table, b, n) then None else Some(n)
  }

  lemma {:induction false} NumbersOfComplete(table: seq<InvoiceKey>, b: nat, k: nat)
    requires k < |table| && table[k].business == b
    ensures table[k].number in NumbersOf(table, b)
  {
    if k < |table| - 1 {
      NumbersOfComplete(table[..|table| - 1], b, k);
    }
  }

  /**
   * With uniqueness per business, a business whose invoices were all numbered
   * from scratch can always create the next one, whatever other businesses hold.
   */
  lemma ScopedNumberingNeverCollides(table: seq<InvoiceKey>, b: nat, k: nat)
    requires NumbersOf(table, b) == Run(k)
    ensures CreateScoped(table, b) == Some(InvoiceNumber(1001 + k))
  {
    RunIsSequential(k);
    SequentialNext(k);
    NextNotInRun(table, b, k);
  }

  lemma NextNotInRun(table: seq<InvoiceKey>, b: nat, k: nat)
    requires NumbersOf(table, b) == Sequential(k)
    ensures !NumberUsedIn(table, b, InvoiceNumber(1001 + k))
  {
    if NumberUsedIn(table, b, InvoiceNumber(1001 + k)) {
      var j :| 0 <= j < |table| && table[j] == InvoiceKey(b, InvoiceNumber(1001 + k));
      NumbersOfComplete(table, b, j);
      NotInSequential(k);
    }
  }

  /** The `i`-th number of a run from scratch reads back as 1001 + i. */
  lemma SequentialValue(k: nat, i: nat)
    requires i < k
    ensures ParseNat(Suffix(Sequential(k)[i])) == Some(1001 + i)
  {
    SequentialAt(k, i);
    InvoiceNumberSuffix(1001 + i);
  }

  /** A run from scratch never holds its own successor. */
  lemma NotInSequential(k: nat)
    ensures InvoiceNumber(1001 + k) !in Sequential(k)
  {
    var run := Sequential(k);
    forall i | 0 <= i < |run|
      ensures ParseNat(Suffix(run[i])) == Some(1001 + i)
    {
      SequentialValue(k, i);
    }
    InvoiceNumberSuffix(1001 + k);
    NotInNumberedRun(run, InvoiceNumber(1001 + k));
  }

  /** A run whose `i`-th number reads back as 1001 + i cannot hold a number reading back as the next value. */
  lemma NotInNumberedRun(run: seq<string>, x: string)
    requires forall i :: 0 <= i < |run| ==> ParseNat(Suffix(run[i])) == Some(1001 + i)
    requires ParseNat(Suffix(x)) == Some(1001 + |run|)
    ensures x !in run
  {
    forall i | 0 <= i < |run|
      ensures run[i] != x
    {
    }
  }

  // ---------------------------------------------------------------------------
  // Items, totals and payment status

  datatype Item = Item(description: string, quantity: real, unitPrice: real, taxRate: real, amount: real)

  /** The invariant `InvoiceItem.save` establishes. */
  predicate AmountConsistent(it: Item)
  {
    it.amount == it.quantity * it.unitPrice
  }

  /** `InvoiceItem.save`: recompute the amount; nothing else about the item changes. */
  function SaveItem(it: Item): (r: Item)
    ensures AmountConsistent(r)
    ensures r.description == it.description && r.quantity == it.quantity &&
            r.unitPrice == it.unitPrice && r.taxRate == it.taxRate
  {
    it.(amount := it.quantity * it.unitPrice)
  }

  function SumAmounts(items: seq<Item>): real
  {
    if |items| == 0 then 0.0 else SumAmounts(items[..|items| - 1]) + items[|items| - 1].amount
  }

  function SumTax(items: seq<Item>): real
  {
    if |items| == 0 then 0.0
    else SumTax(items[..|items| - 1]) + items[|items| - 1].amount * (items[|items| - 1].taxRate / 100.0)
  }

  function SumReals(xs: seq<real>): real
  {
    if |xs| == 0 then 0.0 else SumReals(xs[..|xs| - 1]) + xs[|xs| - 1]
  }

  /** Each line's gross amount, its amount plus its own tax. */
  function Gross(it: Item): real
  {
    it.amount * (1.0 + it.taxRate / 100.0)
  }

  function SumGross(items: seq<Item>): real
  {
    if |items| == 0 then 0.0 else SumGross(items[..|items| - 1]) + Gross(items[|items| - 1])
  }

  /** Subtotal plus tax is the sum of the lines' gross amounts. */
  lemma {:induction false} SubtotalPlusTaxIsGross(items: seq<Item>)
    ensures SumAmounts(items) + SumTax(items) == SumGross(items)
  {
    if |items| > 0 {
      SubtotalPlusTaxIsGross(items[..|items| - 1]);
    }
  }

  /** Sums over concatenations split. */
  lemma {:induction false} SumRealsAppend(a: seq<real>, b: seq<real>)
    ensures SumReals(a + b) == SumReals(a) + SumReals(b)
    decreases |b|
  {
    if |b| == 0 {
      assert a + b == a;
    } else {
      assert (a + b)[..|a + b| - 1] == a + b[..|b| - 1];
      SumRealsAppend(a, b[..|b| - 1]);
    }
  }

  /**
   * `update_payment_status` on the status and `paid_at` fields: fully paid
   * (with a positive total) becomes paid and keeps an existing `paid_at`;
   * a paid invoice that is no longer covered reverts to sent and loses
   * `paid_at`; anything else is left as it was.
   */
  function PaymentTransition(status: Status, paidAt: Option<int>, paid: real, total: real, now: int)
    : (r: (Status, Option<int>))
    ensures r.0 == Paid <==> (paid >= total && total > 0.0) || (status == Paid && paid >= total)
    ensures r.0 == Paid && paidAt.Some? ==> r.1 == paidAt
    ensures paid >= total && total > 0.0 ==> r.1.Some?
    ensures r.0 != Paid ==> r.0 == (if status == Paid then Sent else status)
    ensures status == Paid && paid < total ==> r == (Sent, None)
    ensures status != Paid && !(paid >= total && total > 0.0) ==> r == (status, paidAt)
  {
    if paid >= total && total > 0.0 then (Paid, if paidAt.Some? then paidAt else Some(now))
    else if status == Paid && paid < total then (Sent, None)
    else (status, paidAt)
  }

  /** Applying the transition again with the same amounts changes nothing. */
  lemma PaymentTransitionIdempotent(status: Status, paidAt: Option<int>, paid: real, total: real, now: int, later: int)
    ensures var r := PaymentTransition(status, paidAt, paid, total, now);
            PaymentTransition(r.0, r.1, paid, total, later) == r
  {
  }

  /** A paid invoice with a non-positive total stays paid whatever is paid. */
  lemma ZeroTotalPaidStaysPaid(paidAt: Option<int>, paid: real, total: real, now: int)
    requires total <= 0.0 && paid >= total
    ensures PaymentTransition(Paid, paidAt, paid, total, now) == (Paid, paidAt)
  {
  }

  /** `total = subtotal + tax - discount`. */
  function InvoiceTotal(items: seq<Item>, discount: real): (t: real)
    ensures t == SumGross(items) - discount
  {
    SubtotalPlusTaxIsGross(items);
    SumAmounts(items) + SumTax(items) - discount
  }

  class Invoice {
    var business: nat
    var client: nat
    var number: string
    /** The public link token (a UUID in the source). */
    var shareToken: nat
    var status: Status
    var subtotal: real
    var taxAmount: real
    var discount: real
    var total: real
    var paidAmount: real
    var sentAt: Option<int>
    var viewedAt: Option<int>
    var paidAt: Option<int>
    var dueDate: int
    /** `self.items.all()`. */
    var items: seq<Item>
    /** The amounts of `self.payments.all()`. */
    var payments: seq<real>

    constructor (business: nat, client: nat, shareToken: nat, status: Status, discount: real, dueDate: int)
      ensures this.business == business && this.client == client && this.shareToken == shareToken
      ensures this.status == status && this.discount == discount
      ensures this.dueDate == dueDate && number == "" && items == [] && payments == []
      ensures subtotal == 0.0 && taxAmount == 0.0 && total == 0.0 && paidAmount == 0.0
      ensures sentAt.None? && viewedAt.None? && paidAt.None?
    {
      this.business := business;
      this.client := client;
      this.shareToken := shareToken;
      this.status := status;
      this.discount := discount;
      this.dueDate := dueDate;
      number := "";
      items := [];
      payments := [];
      subtotal, taxAmount, total, paidAmount := 0.0, 0.0, 0.0, 0.0;
      sentAt, viewedAt, paidAt := None, None, None;
    }

    /**
     * `save`: an invoice without a number gets the next one for its business
     * (`prior` are that business's numbers in id order); a number is never replaced.
     */
    method Save(prior: seq<string>)
      modifies this`number
      ensures old(number) != "" ==> number == old(number)
      ensures old(number) == "" ==> number == NextNumber(prior)
    {
      if number == "" {
        number := NextNumber(prior);
      }
    }

    /** `update_payment_status`: re-sum the payments, then apply the transition. */
    method UpdatePaymentStatus(now: int)
      modifies this`paidAmount, this`status, this`paidAt
      ensures paidAmount == SumReals(payments)
      ensures (status, paidAt) == PaymentTransition(old(status), old(paidAt), SumReals(payments), total, now)
    {
      paidAmount := SumReals(payments);
      if paidAmount >= total && total > 0.0 {
        status := Paid;
        if paidAt.None? {
          paidAt := Some(now);
        }
      } else if status == Paid && paidAmount < total {
        status := Sent;
        paidAt := None;
      }
    }

    /** `calculate_totals`: recompute the money fields from the items, the status from the payments, then save. */
    method CalculateTotals(prior: seq<string>, now: int)
      modifies this`subtotal, this`taxAmount, this`total, this`paidAmount, this`status, this`paidAt, this`number
      ensures subtotal == SumAmounts(items) && taxAmount == SumTax(items)
      ensures total == SumGross(items) - discount
      ensures paidAmount == SumReals(payments)
      ensures (status, paidAt) == PaymentTransition(old(status), old(paidAt), SumReals(payments), total, now)
      ensures number == if old(number) != "" then old(number) else NextNumber(prior)
    {
      subtotal := SumAmounts(items);
      taxAmount := SumTax(items);
      total := subtotal + taxAmount - discount;
      SubtotalPlusTaxIsGross(items);
      UpdatePaymentStatus(now);
      Save(prior);
    }

    /** A payment saved against this invoice: the post-save signal updates the status. */
    method RecordPayment(amount: real, now: int)
      modifies this`payments, this`paidAmount, this`status, this`paidAt
      ensures payments == old(payments) + [amount]
      ensures paidAmount == SumReals(old(payments)) + amount
      ensures (status, paidAt) == PaymentTransition(old(status), old(paidAt), paidAmount, total, now)
    {
      payments := payments + [amount];
      assert payments[..|payments| - 1] == old(payments);
      UpdatePaymentStatus(now);
    }

    /** A payment deleted: the post-delete signal updates the status. */
    method DeletePayment(k: nat, now: int)
      requires k < |payments|
      modifies this`payments, this`paidAmount, this`status, this`paidAt
      ensures payments == old(payments[..k] + payments[k + 1..])
      ensures paidAmount == SumReals(payments)
      ensures (status, paidAt) == PaymentTransition(old(status), old(paidAt), paidAmount, total, now)
    {
      payments := payments[..k] + payments[k + 1..];
      UpdatePaymentStatus(now);
    }
  }

  /**
   * Paying an invoice in full and then deleting that payment leaves it sent,
   * with no payment date, when nothing else was paid.
   */
  method PayThenRefund(inv: Invoice, now: int, later: int)
    requires inv.total > 0.0 && inv.payments == [] && inv.status == Sent
    modifies inv
    ensures inv.status == Sent && inv.paidAt.None? && inv.payments == []
  {
    inv.RecordPayment(inv.total, now);
    assert inv.status == Paid;
    inv.DeletePayment(0, later);
  }

  // ---------------------------------------------------------------------------
  // Budget warning

  datatype ExpenseEntry = ExpenseEntry(business: nat, year: int, month: int, amount: real)

  /** The month's expense total of one business, `0` when there are none. */
  function MonthlyExpenseTotal(expenses: seq<ExpenseEntry>, b: nat, year: int, month: int): real
  {
    if |expenses| == 0 then 0.0
    else
      var e := expenses[|expenses| - 1];
      MonthlyExpenseTotal(expenses[..|expenses| - 1], b, year, month) +
        (if e.business == b && e.year == year && e.month == month then e.amount else 0.0)
  }

  /**
   * `check_budget_limit`: only a newly created expense is considered, and a
   * warning is due exactly when the month's total strictly exceeds the limit.
   */
  function BudgetWarning(created: bool, expenses: seq<ExpenseEntry>, b: nat, year: int, month: int, budgetLimit: real)
    : (warn: bool)
    ensures warn <==> created && MonthlyExpenseTotal(expenses, b, year, month) > budgetLimit
  {
    created && MonthlyExpenseTotal(expenses, b, year, month) > budgetLimit
  }

  /** Expenses of other businesses or other months never count toward the warning. */
  lemma {:induction false} OtherExpensesIgnored(expenses: seq<ExpenseEntry>, e: ExpenseEntry, b: nat, year: int, month: int)
    requires e.business != b || e.year != year || e.month != month
    ensures MonthlyExpenseTotal(expenses + [e], b, year, month) == MonthlyExpenseTotal(expenses, b, year, month)
  {
    assert (expenses + [e])[..|expenses + [e]| - 1] == expenses;
  }

  /** Spending exactly the budget raises no warning; one more unit does. */
  lemma BudgetBoundary(b: nat, year: int, month: int)
    ensures !BudgetWarning(true, [ExpenseEntry(b, year, month, 1000.0)], b, year, month, 1000.0)
    ensures BudgetWarning(true, [ExpenseEntry(b, year, month, 1000.0), ExpenseEntry(b, year, month, 0.01)], b, year, month, 1000.0)
  {
    var one := [ExpenseEntry(b, year, month, 1000.0)];
    var two := one + [ExpenseEntry(b, year, month, 0.01)];
    assert one[..0] == [];
    assert MonthlyExpenseTotal(one, b, year, month) == 1000.0;
    assert two[..1] == one;
    assert MonthlyExpenseTotal(two, b, year, month) == 1000.0 + 0.01;
  }
}
