// The dashboard figures, computed from one snapshot of the four stores.

module DashboardView {
  import opened Wrappers
  import opened Models
  import Lists
  import Lending

  function TotalCopies(b: Book): int { b.totalCopies }

  /** The fine a loan contributes to the revenue: `if (issue.fineAmount)` skips a missing fine and a zero one alike. */
  function FineContribution(loan: BookIssue): int { loan.fineAmount.GetOr(0) }

  /** The revenue: every recorded fine, added up. */
  function Revenue(loans: seq<BookIssue>): int {
    Lists.Sum(loans, FineContribution)
  }

  /**
   * `getDashboardData` for one emission of the four stores, with `now` the clock reading
   * `getOverdueBooks` takes.
   */
  method GetDashboardData(books: seq<Book>, users: seq<User>, employees: seq<Employee>, loans: seq<BookIssue>, now: int)
    returns (d: Dashboard)
    ensures d.totalBooks == Lists.Sum(books, TotalCopies)
    ensures d.totalUsers == |users| && d.totalEmployees == |employees|
    ensures d.booksIssued == Lists.Count(loans, Lending.IsIssued) && d.activeLoans == d.booksIssued
    ensures d.booksOverdue == |Lending.OverdueLoans(loans, now)| <= d.booksIssued <= |loans|
    ensures d.revenue == Revenue(loans)
  {
    var totalBooks := Lists.Sum(books, TotalCopies);
    var booksIssued := Lists.Count(loans, Lending.IsIssued);
    var booksOverdue := |Lending.OverdueLoans(loans, now)|;
    var activeLoans := Lists.Count(loans, Lending.IsIssued);
    Lending.OverdueAtMostIssued(loans, now);

    var revenue := 0;
    var i := 0;
    while i < |loans|
      invariant 0 <= i <= |loans|
      invariant revenue == Revenue(loans[..i])
    {
      var issue := loans[i];
      Lists.SumConcat(loans[..i], [issue], FineContribution);
      assert loans[..i + 1] == loans[..i] + [issue];
      if issue.fineAmount.Some? && issue.fineAmount.value != 0 {
        revenue := revenue + issue.fineAmount.value;
      }
      i := i + 1;
    }
    assert loans[..i] == loans;

    d := Dashboard(totalBooks, |users|, |employees|, booksIssued, booksOverdue, revenue, activeLoans);
  }

  // ---------------------------------------------------------------- properties

  /** The revenue of two batches of loans is the sum of their revenues. */
  lemma RevenueConcat(a: seq<BookIssue>, b: seq<BookIssue>)
    ensures Revenue(a + b) == Revenue(a) + Revenue(b)
  {
    Lists.SumConcat(a, b, FineContribution);
  }

  /** With no negative fine recorded the revenue is never negative; with no fine at all it is zero. */
  lemma {:induction false} RevenueSign(loans: seq<BookIssue>)
    requires forall i :: 0 <= i < |loans| ==> loans[i].fineAmount.GetOr(0) >= 0
    ensures Revenue(loans) >= 0
    ensures (forall i :: 0 <= i < |loans| ==> loans[i].fineAmount.GetOr(0) == 0) ==> Revenue(loans) == 0
  {
    if loans != [] {
      RevenueSign(loans[1..]);
    }
  }

  /** With no negative copy count the total is never negative, and it is at least the copies of any one title. */
  lemma {:induction false} TotalBooksBounds(books: seq<Book>)
    requires forall i :: 0 <= i < |books| ==> books[i].totalCopies >= 0
    ensures Lists.Sum(books, TotalCopies) >= 0
    ensures forall i :: 0 <= i < |books| ==> books[i].totalCopies <= Lists.Sum(books, TotalCopies)
  {
    if books != [] {
      TotalBooksBounds(books[1..]);
      assert forall i :: 1 <= i < |books| ==> books[i] == books[1..][i - 1];
    }
  }
}
