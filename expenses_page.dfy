/**
 * The list logic of the expenses page (frontend/src/pages/Expenses.jsx): the
 * page count for pages of 50, the window of at most five page buttons, the
 * previous/next buttons, the reset to page 1 on a new search, and the
 * description filter over the loaded page.
 */
module ExpensesPage {
  import opened Common

  const PageSize := 50

  /** `expenses?.count || expensesData.length || 0`: a zero count falls back to the loaded length. */
  function TotalCount(count: nat, loaded: nat): (n: nat)
    ensures count > 0 ==> n == count
    ensures count == 0 ==> n == loaded
  {
    if count > 0 then count else loaded
  }

  /** `Math.ceil(totalCount / 50)`. */
  function TotalPages(totalCount: nat): (pages: nat)
    ensures pages == 0 <==> totalCount == 0
    ensures totalCount > 0 ==> (pages - 1) * PageSize < totalCount <= pages * PageSize
  {
    (totalCount + PageSize - 1) / PageSize
  }

  /** `Math.min(5, totalPages)`: how many page buttons are shown. */
  function ButtonCount(totalPages: nat): (n: nat)
    ensures n <= 5 && n <= totalPages && (n == 5 || n == totalPages)
  {
    if totalPages < 5 then totalPages else 5
  }

  /** The number on the `i`-th page button. */
  function PageNumber(page: int, totalPages: nat, i: nat): (n: int)
    ensures 1 <= page <= totalPages && i < ButtonCount(totalPages) ==> 1 <= n <= totalPages
  {
    if totalPages <= 5 then i + 1
    else if page <= 3 then i + 1
    else if page >= totalPages - 2 then totalPages - 4 + i
    else page - 2 + i
  }

  function PageWindow(page: int, totalPages: nat): (w: seq<int>)
    ensures |w| == ButtonCount(totalPages)
  {
    seq(ButtonCount(totalPages), i requires 0 <= i => PageNumber(page, totalPages, i))
  }

  /**
   * For a current page in range, the buttons show consecutive page numbers,
   * all in 1..totalPages, among them the current page; away from both ends
   * the current page is the middle button.
   */
  lemma WindowWellFormed(page: int, totalPages: nat)
    requires 1 <= page <= totalPages
    ensures var w := PageWindow(page, totalPages);
            (forall k :: 0 <= k < |w| ==> 1 <= w[k] <= totalPages) &&
            (forall k :: 0 < k < |w| ==> w[k] == w[k - 1] + 1) &&
            page in w
    ensures 5 < totalPages && 3 < page < totalPages - 2 ==> PageWindow(page, totalPages)[2] == page
  {
    var w := PageWindow(page, totalPages);
    var k := if totalPages <= 5 || page <= 3 then page - 1
             else if page >= totalPages - 2 then page - totalPages + 4
             else 2;
    assert w[k] == page;
  }

  /** The window starts at 1 near the front and ends at the last page near the end. */
  lemma WindowEnds(page: int, totalPages: nat)
    requires 1 <= page <= totalPages
    ensures page <= 3 ==> PageWindow(page, totalPages)[0] == 1
    ensures totalPages <= 5 || page >= totalPages - 2 ==>
              PageWindow(page, totalPages)[ButtonCount(totalPages) - 1] == totalPages
  {
  }

  /** `Math.max(1, p - 1)`. */
  function Previous(page: int): (p: int)
    ensures p >= 1 && (page > 1 ==> p == page - 1) && (page <= 1 ==> p == 1)
  {
    if page - 1 < 1 then 1 else page - 1
  }

  /** `Math.min(totalPages, p + 1)`. */
  function Next(page: int, totalPages: nat): (p: int)
    ensures p <= totalPages && (page < totalPages ==> p == page + 1) && (page >= totalPages ==> p == totalPages)
  {
    if totalPages < page + 1 then totalPages else page + 1
  }

  /** Previous and next keep a page in 1..totalPages there, and stop at the ends. */
  lemma StepsStayInRange(page: int, totalPages: nat)
    requires 1 <= page <= totalPages
    ensures 1 <= Previous(page) <= totalPages && 1 <= Next(page, totalPages) <= totalPages
    ensures Previous(1) == 1 && Next(totalPages, totalPages) == totalPages
    ensures page < totalPages ==> Previous(Next(page, totalPages)) == page
  {
  }

  // ---------------------------------------------------------------------------
  // Description filter

  datatype Expense = Expense(description: string, category: string)

  /** `filteredExpenses`: the expenses in the response's `results` whose description contains the search term, ignoring case. */
  function FilteredExpenses(results: seq<Expense>, term: string): (r: seq<Expense>)
    ensures forall e :: e in r <==> e in results && IncludesIgnoringCase(e.description, term)
  {
    Filter(results, (e: Expense) => IncludesIgnoringCase(e.description, term))
  }

  /** An empty search keeps every loaded expense in order. */
  lemma {:induction false} EmptySearchKeepsAll(results: seq<Expense>)
    ensures FilteredExpenses(results, "") == results
  {
    if |results| > 0 {
      ContainsEmpty(Lower(results[0].description));
      EmptySearchKeepsAll(results[1..]);
    }
  }

  /** Searching is insensitive to the case of the term. */
  lemma SearchIgnoresTermCase(results: seq<Expense>, term: string)
    ensures FilteredExpenses(results, Lower(term)) == FilteredExpenses(results, term)
  {
    LowerIdempotent(term);
    FilterSame(results, (e: Expense) => IncludesIgnoringCase(e.description, Lower(term)),
                        (e: Expense) => IncludesIgnoringCase(e.description, term));
  }

  // ---------------------------------------------------------------------------
  // Page state

  /** The page's `page` and `searchTerm` state. */
  class Pager {
    var page: int
    var searchTerm: string

    constructor ()
      ensures page == 1 && searchTerm == ""
    {
      page, searchTerm := 1, "";
    }

    /** `handleSearchChange`: a new term always starts again from page 1. */
    method SearchChange(val: string)
      modifies this
      ensures searchTerm == val && page == 1
    {
      searchTerm := val;
      page := 1;
    }

    method PreviousPage()
      modifies this`page
      ensures page == Previous(old(page))
    {
      page := if page - 1 < 1 then 1 else page - 1;
    }

    method NextPage(totalPages: nat)
      modifies this`page
      ensures page == Next(old(page), totalPages)
    {
      page := if totalPages < page + 1 then totalPages else page + 1;
    }

    /** A page button sets the page to its number. */
    method GoTo(totalPages: nat, i: nat)
      requires i < ButtonCount(totalPages)
      modifies this`page
      ensures page == PageWindow(old(page), totalPages)[i]
    {
      page := PageNumber(page, totalPages, i);
    }
  }
}
