/**
 * The daily due-date sweep of
 * backend/invoices/management/commands/check_due_invoices.py. Invoices due in
 * exactly three days that are sent or viewed get a reminder for the business
 * owner (and for the client's assigned user, if any); invoices due exactly
 * today that are sent or viewed become overdue and get an alert likewise.
 * The invoice table is an array updated in place; notifications are
 * returned in the order they are created.
 */
module DueInvoices {
  import opened Common
  import opened InvoiceModel

  /** What the sweep reads of an invoice: the owner, the client's assigned user, the due date and status. */
  datatype DueInv = DueInv(owner: nat, assignee: Option<nat>, dueDate: int, status: Status)

  datatype Kind = Reminder | OverdueAlert

  /** A notification for `user` about the invoice at index `invoice`. */
  datatype Note = Note(user: nat, invoice: nat, kind: Kind)

  predicate Open(x: DueInv) { x.status == Sent || x.status == Viewed }

  /** Selected for a reminder: due in exactly three days and still open. */
  predicate Upcoming(x: DueInv, today: int) { x.dueDate == today + 3 && Open(x) }

  /** Selected for the overdue transition: due exactly today and still open. */
  predicate DueToday(x: DueInv, today: int) { x.dueDate == today && Open(x) }

  predicate Selected(x: DueInv, today: int, kind: Kind)
  {
    if kind == Reminder then Upcoming(x, today) else DueToday(x, today)
  }

  /** An invoice after the sweep: overdue when it was due today and open, untouched otherwise. */
  function AfterSweep(x: DueInv, today: int): (y: DueInv)
    ensures DueToday(x, today) ==> y == x.(status := Overdue)
    ensures !DueToday(x, today) ==> y == x
  {
    if DueToday(x, today) then x.(status := Overdue) else x
  }

  function Swept(s: seq<DueInv>, today: int): (r: seq<DueInv>)
    ensures |r| == |s| && forall k :: 0 <= k < |s| ==> r[k] == AfterSweep(s[k], today)
  {
    seq(|s|, k requires 0 <= k < |s| => AfterSweep(s[k], today))
  }

  /** The notifications for the selected invoices among the first `n`: the owner's, then the assignee's. */
  function Notes(s: seq<DueInv>, n: nat, today: int, kind: Kind): seq<Note>
    requires n <= |s|
  {
    if n == 0 then []
    else
      var x := s[n - 1];
      Notes(s, n - 1, today, kind) +
      (if Selected(x, today, kind)
       then [Note(x.owner, n - 1, kind)] + (if x.assignee.Some? then [Note(x.assignee.value, n - 1, kind)] else [])
       else [])
  }

  /** The number of selected invoices among the first `n`. */
  function CountSelected(s: seq<DueInv>, n: nat, today: int, kind: Kind): nat
    requires n <= |s|
  {
    |Filter(s[..n], (x: DueInv) => Selected(x, today, kind))|
  }

  lemma CountStep(s: seq<DueInv>, n: nat, today: int, kind: Kind)
    requires n < |s|
    ensures CountSelected(s, n + 1, today, kind) ==
            CountSelected(s, n, today, kind) + (if Selected(s[n], today, kind) then 1 else 0)
  {
    assert s[..n + 1] == s[..n] + [s[n]];
    FilterSnoc(s[..n], s[n], (x: DueInv) => Selected(x, today, kind));
  }

  /** Every notification concerns one of the first `n` invoices, and a selected one. */
  lemma {:induction false} NotesConcernSelected(s: seq<DueInv>, n: nat, today: int, kind: Kind)
    requires n <= |s|
    ensures forall note :: note in Notes(s, n, today, kind) ==>
              note.invoice < n && note.kind == kind && Selected(s[note.invoice], today, kind)
  {
    if n > 0 {
      NotesConcernSelected(s, n - 1, today, kind);
    }
  }

  /**
   * Each selected invoice yields one note for its owner and at most one for
   * its assignee, so there are between one and two notes per selected invoice.
   */
  lemma {:induction false} NotesCount(s: seq<DueInv>, n: nat, today: int, kind: Kind)
    requires n <= |s|
    ensures CountSelected(s, n, today, kind) <= |Notes(s, n, today, kind)| <= 2 * CountSelected(s, n, today, kind)
  {
    if n > 0 {
      NotesCount(s, n - 1, today, kind);
      CountStep(s, n - 1, today, kind);
    }
  }

  /** A reminder never concerns an invoice the sweep changes: it is due on another day. */
  lemma RemindedInvoicesUnchanged(x: DueInv, today: int)
    requires Upcoming(x, today)
    ensures AfterSweep(x, today) == x
  {
  }

  /** Running the sweep again the same day changes nothing and selects nothing more. */
  lemma SweepIdempotent(s: seq<DueInv>, today: int)
    ensures Swept(Swept(s, today), today) == Swept(s, today)
    ensures forall x :: x in Swept(s, today) ==> !DueToday(x, today)
  {
  }

  /** Invoices in any other status, or due on any other day, keep their status. */
  lemma OthersUntouched(x: DueInv, today: int)
    requires x.dueDate != today || !Open(x)
    ensures AfterSweep(x, today).status == x.status
  {
  }

  /** One pass over the table creating the notifications for `kind`; statuses are not changed. */
  method NotifyAll(invs: array<DueInv>, today: int, kind: Kind) returns (count: nat, notes: seq<Note>)
    ensures count == CountSelected(invs[..], |invs[..]|, today, kind)
    ensures notes == Notes(invs[..], invs.Length, today, kind)
  {
    count, notes := 0, [];
    var k := 0;
    while k < invs.Length
      invariant 0 <= k <= invs.Length
      invariant count == CountSelected(invs[..], k, today, kind)
      invariant notes == Notes(invs[..], k, today, kind)
    {
      var x := invs[k];
      CountStep(invs[..], k, today, kind);
      if Selected(x, today, kind) {
        notes := notes + [Note(x.owner, k, kind)];
        if x.assignee.Some? {
          notes := notes + [Note(x.assignee.value, k, kind)];
        }
        count := count + 1;
      }
      k := k + 1;
    }
  }

  /**
   * `Command.handle`: the reminder pass over the unchanged table, then the
   * overdue pass, which sets the status of each invoice due today and
   * notifies. The two counts are the sizes of the two selections.
   */
  method Handle(invs: array<DueInv>, today: int)
    returns (countUpcoming: nat, countOverdue: nat, reminders: seq<Note>, alerts: seq<Note>)
    modifies invs
    ensures invs[..] == Swept(old(invs[..]), today)
    ensures countUpcoming == CountSelected(old(invs[..]), invs.Length, today, Reminder)
    ensures countOverdue == CountSelected(old(invs[..]), invs.Length, today, OverdueAlert)
    ensures reminders == Notes(old(invs[..]), invs.Length, today, Reminder)
    ensures alerts == Notes(old(invs[..]), invs.Length, today, OverdueAlert)
  {
    countUpcoming, reminders := NotifyAll(invs, today, Reminder);
    ghost var before := invs[..];
    countOverdue, alerts := 0, [];
    var k := 0;
    while k < invs.Length
      invariant 0 <= k <= invs.Length
      invariant forall j :: 0 <= j < k ==> invs[j] == AfterSweep(before[j], today)
      invariant forall j :: k <= j < invs.Length ==> invs[j] == before[j]
      invariant countOverdue == CountSelected(before, k, today, OverdueAlert)
      invariant alerts == Notes(before, k, today, OverdueAlert)
    {
      var x := invs[k];
      CountStep(before, k, today, OverdueAlert);
      if x.dueDate == today && (x.status == Sent || x.status == Viewed) {
        invs[k] := x.(status := Overdue);
        alerts := alerts + [Note(x.owner, k, OverdueAlert)];
        if x.assignee.Some? {
          alerts := alerts + [Note(x.assignee.value, k, OverdueAlert)];
        }
        countOverdue := countOverdue + 1;
      }
      k := k + 1;
    }
  }
}
