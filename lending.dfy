// The lending engine: issuing and returning books across the catalog, the patrons and the
// loan list. `now` stands for `new Date()` and `freshId` for `Date.now().toString()`.

module Lending {
  import opened Wrappers
  import opened Models
  import Store
  import Lists
  import Inventory
  import Users
  import ValidationUtils

  const MsPerDay := 1000 * 60 * 60 * 24
  const LoanDays := 14
  const FinePerDay := 10

  const CannotIssue := "Cannot issue book: Book not available or user not found"
  const IssueNotFound := "Book issue not found"

  function IssueKey(loan: BookIssue): string { loan.id }

  /** The three lists the engine reads and writes. */
  datatype Library = Library(books: seq<Book>, users: seq<User>, loans: seq<BookIssue>)

  /**
   * The private `calculateFine`: nothing up to the due instant, then ten for every full day
   * (`Math.floor` of a positive quotient) past it.
   */
  function LoanFine(dueDate: int, now: int): (fine: int)
    ensures fine >= 0 && fine % FinePerDay == 0
    ensures fine == 0 <==> now < dueDate + MsPerDay
  {
    if now <= dueDate then 0 else ((now - dueDate) / MsPerDay) * FinePerDay
  }

  /** The partial record `{ borrowedBooks: [...u.borrowedBooks, bookId], totalBooksBorrowed: u.totalBooksBorrowed + 1 }`. */
  function BorrowPatch(u: User, bookId: string): (p: UserPatch)
    ensures p.id.None?
  {
    NoUserChange.(borrowedBooks := Some(u.borrowedBooks + [bookId]), totalBooksBorrowed := Some(u.totalBooksBorrowed + 1))
  }

  /** The callback `(bid) => bid !== bookId`. */
  function OtherBook(bookId: string): string -> bool {
    bid => bid != bookId
  }

  /** The partial record `{ borrowedBooks: u.borrowedBooks.filter((bid) => bid !== bookId) }`. */
  function ReleasePatch(u: User, bookId: string): (p: UserPatch)
    ensures p.id.None?
  {
    NoUserChange.(borrowedBooks := Some(Lists.Filter(u.borrowedBooks, OtherBook(bookId))))
  }

  /** The loan `issueBook` records. */
  function NewLoan(freshId: string, bookId: string, userId: string, issuedBy: string, now: int): BookIssue {
    BookIssue(freshId, bookId, userId, now, now + LoanDays * MsPerDay, None, Issued, issuedBy, None)
  }

  /** `issueBook(bookId, userId, issuedBy)`: the outcome and the three lists afterwards. */
  function IssueResult(lib: Library, bookId: string, userId: string, issuedBy: string, now: int, freshId: string): (Outcome, Library) {
    var book := Store.Lookup(lib.books, Inventory.BookKey, bookId);
    var user := Store.Lookup(lib.users, Users.UserKey, userId);
    if book.None? || user.None? || book.value.availableCopies == 0 then (Fail(CannotIssue), lib)
    else
      (Pass, Library(
        Inventory.AfterDecrease(lib.books, bookId),
        Users.AfterUpdate(lib.users, userId, BorrowPatch(user.value, bookId)),
        lib.loans + [NewLoan(freshId, bookId, userId, issuedBy, now)]))
  }

  /** The loan as `returnBook` rewrites it. */
  function Closed(loan: BookIssue, now: int): BookIssue {
    loan.(returnDate := Some(now), status := Returned, fineAmount := Some(LoanFine(loan.dueDate, now)))
  }

  /** The callback that puts the closed loan at the loan's index. */
  function CloseWith(closed: BookIssue): BookIssue -> BookIssue {
    _ => closed
  }

  /** The patrons after the book leaves the borrowed list of the patron with the id, if there is one. */
  function ReleasedUsers(users: seq<User>, userId: string, bookId: string): seq<User> {
    match Store.Lookup(users, Users.UserKey, userId)
    case Some(u) => Users.AfterUpdate(users, userId, ReleasePatch(u, bookId))
    case None => users
  }

  /** `returnBook(issueId)`: the outcome and the three lists afterwards. */
  function ReturnResult(lib: Library, issueId: string, now: int): (Outcome, Library) {
    match Store.Lookup(lib.loans, IssueKey, issueId)
    case None => (Fail(IssueNotFound), lib)
    case Some(loan) =>
      (Pass, Library(
        Inventory.AfterIncrease(lib.books, loan.bookId),
        ReleasedUsers(lib.users, loan.userId, loan.bookId),
        Store.Replace(lib.loans, IssueKey, issueId, CloseWith(Closed(loan, now)))))
  }

  /** The callback `(issue) => issue.status === 'issued' && issue.dueDate < today`. */
  function OverdueAt(now: int): BookIssue -> bool {
    (loan: BookIssue) => loan.status == Issued && loan.dueDate < now
  }

  /** `getOverdueBooks()` */
  function OverdueLoans(loans: seq<BookIssue>, now: int): seq<BookIssue> {
    Lists.Filter(loans, OverdueAt(now))
  }

  class BookIssueService {
    var issues: seq<BookIssue>
    const inventory: Inventory.InventoryService
    const patrons: Users.UserService

    constructor(initial: seq<BookIssue>, inventory: Inventory.InventoryService, patrons: Users.UserService)
      ensures issues == initial && this.inventory == inventory && this.patrons == patrons
    {
      issues := initial;
      this.inventory := inventory;
      this.patrons := patrons;
    }

    /** The three lists as the engine sees them. */
    function State(): Library
      reads this, inventory, patrons
    {
      Library(inventory.books, patrons.users, issues)
    }

    method GetBookIssueById(id: string) returns (loan: Option<BookIssue>)
      ensures loan == Store.Lookup(issues, IssueKey, id)
    {
      loan := Store.Lookup(issues, IssueKey, id);
    }

    /** `issueBook`; a thrown error is the `Fail` outcome. */
    method IssueBook(bookId: string, userId: string, issuedBy: string, now: int, freshId: string) returns (outcome: Outcome)
      modifies this, inventory, patrons
      ensures (outcome, State()) == IssueResult(old(State()), bookId, userId, issuedBy, now, freshId)
    {
      var book := inventory.GetBookById(bookId);
      var user := patrons.GetUserById(userId);
      if book.None? || user.None? || book.value.availableCopies == 0 {
        return Fail(CannotIssue);
      }
      issues := issues + [NewLoan(freshId, bookId, userId, issuedBy, now)];
      inventory.DecreaseAvailableCopies(bookId);
      patrons.UpdateUser(userId, BorrowPatch(user.value, bookId));
      outcome := Pass;
    }

    /** `returnBook`; a thrown error is the `Fail` outcome. */
    method ReturnBook(issueId: string, now: int) returns (outcome: Outcome)
      modifies this, inventory, patrons
      ensures (outcome, State()) == ReturnResult(old(State()), issueId, now)
    {
      var loan := GetBookIssueById(issueId);
      if loan.None? {
        return Fail(IssueNotFound);
      }
      var closed := Closed(loan.value, now);
      issues := Store.Replace(issues, IssueKey, issueId, CloseWith(closed));
      ReleaseBook(loan.value.userId, loan.value.bookId);
      inventory.IncreaseAvailableCopies(loan.value.bookId);
      outcome := Pass;
    }

    /** The patron step of `returnBook`: the book leaves the patron's list, if the patron still exists. */
    method ReleaseBook(userId: string, bookId: string)
      modifies patrons
      ensures patrons.users == ReleasedUsers(old(patrons.users), userId, bookId)
    {
      var user := patrons.GetUserById(userId);
      if user.Some? {
        patrons.UpdateUser(userId, ReleasePatch(user.value, bookId));
      }
    }

    method GetOverdueBooks(now: int) returns (overdue: seq<BookIssue>)
      ensures overdue == OverdueLoans(issues, now)
    {
      overdue := Lists.Filter(issues, OverdueAt(now));
    }
  }

  // ---------------------------------------------------------------- fines

  /** Less than one full day late costs nothing; each further full day costs ten more. */
  lemma FineSteps(dueDate: int, now: int)
    ensures now < dueDate + MsPerDay ==> LoanFine(dueDate, now) == 0
    ensures now >= dueDate ==> LoanFine(dueDate, now + MsPerDay) == LoanFine(dueDate, now) + FinePerDay
  {
    if now >= dueDate && now > dueDate {
      assert (now + MsPerDay - dueDate) / MsPerDay == (now - dueDate) / MsPerDay + 1;
    }
  }

  /** The loan fine is `calculateFine` of the whole days late at the default rate of 10. */
  lemma FineAgreesWithCalculateFine(dueDate: int, now: int)
    ensures LoanFine(dueDate, now) == ValidationUtils.CalculateFine((now - dueDate) / MsPerDay, 10)
  {
    if now <= dueDate {
      assert (now - dueDate) / MsPerDay <= 0;
    }
  }

  /** The later the return, the larger (or equal) the fine. */
  lemma FineMonotone(dueDate: int, now: int, later: int)
    requires now <= later
    ensures LoanFine(dueDate, now) <= LoanFine(dueDate, later)
  {
    if now > dueDate {
      assert (now - dueDate) / MsPerDay <= (later - dueDate) / MsPerDay;
    }
  }

  // ---------------------------------------------------------------- issuing

  /**
   * Issuing fails exactly when the book or the patron is missing or no copy is left, and then
   * changes nothing. The patron's status plays no part.
   */
  lemma IssueRefusal(lib: Library, bookId: string, userId: string, issuedBy: string, now: int, freshId: string)
    ensures var (outcome, after) := IssueResult(lib, bookId, userId, issuedBy, now, freshId);
      && (outcome.Fail? <==>
            || Store.Lookup(lib.books, Inventory.BookKey, bookId).None?
            || Store.Lookup(lib.users, Users.UserKey, userId).None?
            || Store.Lookup(lib.books, Inventory.BookKey, bookId).value.availableCopies == 0)
      && (outcome.Fail? ==> after == lib && outcome.message == CannotIssue)
  {
  }

  /**
   * A successful issue records exactly one new loan, due fourteen days later; takes one copy of
   * the book off the shelf; appends the book to the patron's list and counts it. Every other
   * book and patron is left alone.
   */
  lemma IssueEffect(lib: Library, bookId: string, userId: string, issuedBy: string, now: int, freshId: string)
    requires IssueResult(lib, bookId, userId, issuedBy, now, freshId).0.Pass?
    ensures var after := IssueResult(lib, bookId, userId, issuedBy, now, freshId).1;
      var u := Store.Lookup(lib.users, Users.UserKey, userId).value;
      var ui := Store.Position(lib.users, Users.UserKey, userId);
      && after.loans == lib.loans + [after.loans[|lib.loans|]]
      && (var loan := after.loans[|lib.loans|];
          loan.id == freshId && loan.bookId == bookId && loan.userId == userId && loan.issuedBy == issuedBy && loan.issueDate == now
          && loan.status == Issued && loan.dueDate == now + 14 * MsPerDay && loan.returnDate.None? && loan.fineAmount.None?)
      && |after.users| == |lib.users|
      && after.users[ui] == u.(borrowedBooks := u.borrowedBooks + [bookId], totalBooksBorrowed := u.totalBooksBorrowed + 1)
      && (forall j :: 0 <= j < |lib.users| && j != ui ==> after.users[j] == lib.users[j])
      && after.books == Inventory.AfterDecrease(lib.books, bookId)
  {
  }

  /**
   * Issuing a book and returning the new loan within a day of its due date closes it without a
   * fine and puts the shelf back as it was. The counter must lie within its bounds: a counter
   * below zero is not decremented by the issue, and the return would then add one.
   */
  lemma IssueThenReturn(lib: Library, bookId: string, userId: string, issuedBy: string, now: int, freshId: string, later: int)
    requires IssueResult(lib, bookId, userId, issuedBy, now, freshId).0.Pass?
    requires Store.Lookup(lib.loans, IssueKey, freshId).None?
    requires var b := Store.Lookup(lib.books, Inventory.BookKey, bookId); b.Some? ==> 0 <= b.value.availableCopies <= b.value.totalCopies
    requires later < now + (LoanDays + 1) * MsPerDay
    ensures var issued := IssueResult(lib, bookId, userId, issuedBy, now, freshId).1;
      var returned := ReturnResult(issued, freshId, later);
      && returned.0 == Pass
      && returned.1.books == lib.books
      && |returned.1.loans| == |lib.loans| + 1
      && returned.1.loans[|lib.loans|].status == Returned
      && returned.1.loans[|lib.loans|].fineAmount == Some(0)
  {
    var issued := IssueResult(lib, bookId, userId, issuedBy, now, freshId).1;
    IssueEffect(lib, bookId, userId, issuedBy, now, freshId);
    var loan := issued.loans[|lib.loans|];
    Store.LookupAfterAppend(lib.loans, loan, IssueKey, freshId);
    assert Store.Lookup(issued.loans, IssueKey, freshId) == Some(loan);
    assert Store.Position(issued.loans, IssueKey, freshId) == |lib.loans|;
    ReturnClosesLoan(issued, freshId, later);
    Inventory.DecreaseThenIncrease(lib.books, bookId);
  }

  /** A patron who is suspended borrows like anybody else. */
  lemma SuspendedPatronCanBorrow(lib: Library, bookId: string, userId: string, issuedBy: string, now: int, freshId: string)
    requires Store.Lookup(lib.users, Users.UserKey, userId).Some?
    requires Store.Lookup(lib.users, Users.UserKey, userId).value.status == UserSuspended
    requires Store.Lookup(lib.books, Inventory.BookKey, bookId).Some?
    requires Store.Lookup(lib.books, Inventory.BookKey, bookId).value.availableCopies > 0
    ensures IssueResult(lib, bookId, userId, issuedBy, now, freshId).0 == Pass
  {
  }

  /**
   * A book whose counter is already below zero passes the `=== 0` test: the loan is recorded
   * while the counter, refused by the decrement, stays as it was.
   */
  lemma NegativeCounterStillIssues(lib: Library, bookId: string, userId: string, issuedBy: string, now: int, freshId: string)
    requires Store.Lookup(lib.users, Users.UserKey, userId).Some?
    requires Store.Lookup(lib.books, Inventory.BookKey, bookId).Some?
    requires Store.Lookup(lib.books, Inventory.BookKey, bookId).value.availableCopies < 0
    ensures var (outcome, after) := IssueResult(lib, bookId, userId, issuedBy, now, freshId);
      outcome == Pass && after.books == lib.books && |after.loans| == |lib.loans| + 1
  {
  }

  // ---------------------------------------------------------------- returning

  /** Returning fails exactly when no loan has the id, and then changes nothing. */
  lemma ReturnRefusal(lib: Library, issueId: string, now: int)
    ensures var (outcome, after) := ReturnResult(lib, issueId, now);
      && (outcome.Fail? <==> Store.Lookup(lib.loans, IssueKey, issueId).None?)
      && (outcome.Fail? ==> after == lib && outcome.message == IssueNotFound)
  {
  }

  /**
   * A successful return closes the first loan with the id (whatever its status was, an
   * already returned loan included) with the return instant and the fine, leaves every other
   * loan alone, and puts a copy back within the book's total.
   */
  lemma ReturnClosesLoan(lib: Library, issueId: string, now: int)
    requires Store.Lookup(lib.loans, IssueKey, issueId).Some?
    ensures var after := ReturnResult(lib, issueId, now).1;
      var loan := Store.Lookup(lib.loans, IssueKey, issueId).value;
      var k := Store.Position(lib.loans, IssueKey, issueId);
      && |after.loans| == |lib.loans|
      && after.loans[k] == loan.(returnDate := Some(now), status := Returned, fineAmount := Some(LoanFine(loan.dueDate, now)))
      && (forall j :: 0 <= j < |lib.loans| && j != k ==> after.loans[j] == lib.loans[j])
      && after.books == Inventory.AfterIncrease(lib.books, loan.bookId)
  {
  }

  /**
   * The patron of a returned loan loses every occurrence of the book from the borrowed list,
   * even when another open loan of the same book remains; the other entries stay in order and
   * the borrowing total is untouched. A patron who was deleted is skipped.
   */
  lemma ReturnReleasesBook(lib: Library, issueId: string, now: int)
    requires Store.Lookup(lib.loans, IssueKey, issueId).Some?
    ensures var after := ReturnResult(lib, issueId, now).1;
      var loan := Store.Lookup(lib.loans, IssueKey, issueId).value;
      match Store.Lookup(lib.users, Users.UserKey, loan.userId)
      case None => after.users == lib.users
      case Some(u) =>
        var ui := Store.Position(lib.users, Users.UserKey, loan.userId);
        var kept := after.users[ui].borrowedBooks;
        && |after.users| == |lib.users|
        && after.users[ui] == u.(borrowedBooks := kept)
        && kept == Lists.Filter(u.borrowedBooks, OtherBook(loan.bookId))
        && loan.bookId !in kept
        && (forall b :: b in u.borrowedBooks && b != loan.bookId ==> b in kept)
        && (forall b :: b in kept ==> b in u.borrowedBooks)
        && (forall j :: 0 <= j < |lib.users| && j != ui ==> after.users[j] == lib.users[j])
  {
    var loan := Store.Lookup(lib.loans, IssueKey, issueId).value;
    var user := Store.Lookup(lib.users, Users.UserKey, loan.userId);
    if user.Some? {
      DropBook(user.value.borrowedBooks, loan.bookId);
    }
  }

  /** Filtering a book out of a borrowed list drops each of its occurrences and keeps everything else. */
  lemma DropBook(books: seq<string>, bookId: string)
    ensures var kept := Lists.Filter(books, OtherBook(bookId));
      && bookId !in kept
      && (forall b :: b in books && b != bookId ==> b in kept)
      && (forall b :: b in kept ==> b in books)
  {
    var kept := Lists.Filter(books, OtherBook(bookId));
    Lists.FilterMembership(books, OtherBook(bookId));
    forall b | b in kept ensures b != bookId && b in books {
      var j :| 0 <= j < |kept| && kept[j] == b;
    }
    forall b | b in books && b != bookId ensures b in kept {
      var j :| 0 <= j < |books| && books[j] == b;
    }
  }

  // ---------------------------------------------------------------- overdue loans

  /**
   * The overdue list holds exactly the loans still marked `issued` whose due instant has
   * passed, in list order; loans stored as `overdue` or `returned` are not on it.
   */
  lemma OverdueMembership(loans: seq<BookIssue>, now: int)
    ensures forall x :: x in OverdueLoans(loans, now) <==> x in loans && x.status == Issued && x.dueDate < now
  {
    Lists.FilterMembership(loans, OverdueAt(now));
    forall x | x in loans && x.status == Issued && x.dueDate < now ensures x in OverdueLoans(loans, now) {
      var j :| 0 <= j < |loans| && loans[j] == x;
    }
    forall x | x in OverdueLoans(loans, now) ensures x in loans && x.status == Issued && x.dueDate < now {
      var j :| 0 <= j < |OverdueLoans(loans, now)| && OverdueLoans(loans, now)[j] == x;
    }
  }

  /** The callback `(issue) => issue.status === 'issued'`. */
  function IsIssued(loan: BookIssue): bool { loan.status == Issued }

  /** There are never more overdue loans than issued ones. */
  lemma OverdueAtMostIssued(loans: seq<BookIssue>, now: int)
    ensures |OverdueLoans(loans, now)| <= Lists.Count(loans, IsIssued)
  {
    Lists.CountMonotone(loans, OverdueAt(now), IsIssued);
  }
}
