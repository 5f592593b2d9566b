// The records of the library back office and their status enumerations.
// Dates are instants in integer milliseconds; every `number` field is an integer.
// `Partial<T>` arguments of the stores' update operations are patches: one optional
// value per field, where `None` stands for a key absent from the object literal.

module Models {
  import opened Wrappers

  // ---------------------------------------------------------------- users

  datatype UserStatus = UserActive | UserInactive | UserSuspended

  datatype User = User(
    id: string,
    username: string,
    email: string,
    phone: string,
    address: string,
    membershipDate: int,
    status: UserStatus,
    borrowedBooks: seq<string>,
    totalBooksBorrowed: int)

  datatype UserPatch = UserPatch(
    id: Option<string>,
    username: Option<string>,
    email: Option<string>,
    phone: Option<string>,
    address: Option<string>,
    membershipDate: Option<int>,
    status: Option<UserStatus>,
    borrowedBooks: Option<seq<string>>,
    totalBooksBorrowed: Option<int>)

  const NoUserChange := UserPatch(None, None, None, None, None, None, None, None, None)

  /** `{ ...u, ...p }`: every field the patch carries overrides the record's field. */
  function MergeUser(u: User, p: UserPatch): (r: User)
    ensures p.id.None? ==> r.id == u.id
    ensures p.status.Some? ==> r.status == p.status.value
  {
    User(
      p.id.GetOr(u.id),
      p.username.GetOr(u.username),
      p.email.GetOr(u.email),
      p.phone.GetOr(u.phone),
      p.address.GetOr(u.address),
      p.membershipDate.GetOr(u.membershipDate),
      p.status.GetOr(u.status),
      p.borrowedBooks.GetOr(u.borrowedBooks),
      p.totalBooksBorrowed.GetOr(u.totalBooksBorrowed))
  }

  /** `{ ...p, ...q }` on two partial records. */
  function ThenUser(p: UserPatch, q: UserPatch): UserPatch {
    UserPatch(
      Or(q.id, p.id), Or(q.username, p.username), Or(q.email, p.email), Or(q.phone, p.phone),
      Or(q.address, p.address), Or(q.membershipDate, p.membershipDate), Or(q.status, p.status),
      Or(q.borrowedBooks, p.borrowedBooks), Or(q.totalBooksBorrowed, p.totalBooksBorrowed))
  }

  /** The empty patch changes nothing, a patch applied twice acts once, and two merges in a row are one merge. */
  lemma MergeUserLaws(u: User, p: UserPatch, q: UserPatch)
    ensures MergeUser(u, NoUserChange) == u
    ensures MergeUser(MergeUser(u, p), p) == MergeUser(u, p)
    ensures MergeUser(MergeUser(u, p), q) == MergeUser(u, ThenUser(p, q))
  {
  }

  // ---------------------------------------------------------------- employees

  datatype Role = Admin | Librarian | Staff

  datatype EmployeeStatus = EmployeeActive | EmployeeInactive

  datatype Employee = Employee(
    id: string,
    name: string,
    email: string,
    phone: string,
    employeeId: string,
    role: Role,
    department: string,
    joinDate: int,
    salary: int,
    status: EmployeeStatus,
    password: string)

  datatype EmployeePatch = EmployeePatch(
    id: Option<string>,
    name: Option<string>,
    email: Option<string>,
    phone: Option<string>,
    employeeId: Option<string>,
    role: Option<Role>,
    department: Option<string>,
    joinDate: Option<int>,
    salary: Option<int>,
    status: Option<EmployeeStatus>,
    password: Option<string>)

  const NoEmployeeChange := EmployeePatch(None, None, None, None, None, None, None, None, None, None, None)

  /** `{ ...e, ...p }` */
  function MergeEmployee(e: Employee, p: EmployeePatch): (r: Employee)
    ensures p.id.None? ==> r.id == e.id
    ensures p.status.Some? ==> r.status == p.status.value
  {
    Employee(
      p.id.GetOr(e.id),
      p.name.GetOr(e.name),
      p.email.GetOr(e.email),
      p.phone.GetOr(e.phone),
      p.employeeId.GetOr(e.employeeId),
      p.role.GetOr(e.role),
      p.department.GetOr(e.department),
      p.joinDate.GetOr(e.joinDate),
      p.salary.GetOr(e.salary),
      p.status.GetOr(e.status),
      p.password.GetOr(e.password))
  }

  function ThenEmployee(p: EmployeePatch, q: EmployeePatch): EmployeePatch {
    EmployeePatch(
      Or(q.id, p.id), Or(q.name, p.name), Or(q.email, p.email), Or(q.phone, p.phone),
      Or(q.employeeId, p.employeeId), Or(q.role, p.role), Or(q.department, p.department),
      Or(q.joinDate, p.joinDate), Or(q.salary, p.salary), Or(q.status, p.status),
      Or(q.password, p.password))
  }

  lemma MergeEmployeeLaws(e: Employee, p: EmployeePatch, q: EmployeePatch)
    ensures MergeEmployee(e, NoEmployeeChange) == e
    ensures MergeEmployee(MergeEmployee(e, p), p) == MergeEmployee(e, p)
    ensures MergeEmployee(MergeEmployee(e, p), q) == MergeEmployee(e, ThenEmployee(p, q))
  {
  }

  // ---------------------------------------------------------------- books

  /** The copy counters are plain numbers: nothing in the record bounds them. */
  datatype Book = Book(
    id: string,
    isbn: string,
    title: string,
    author: string,
    publisher: string,
    publishYear: int,
    category: string,
    totalCopies: int,
    availableCopies: int,
    shelfLocation: string,
    description: string,
    price: int)

  datatype BookPatch = BookPatch(
    id: Option<string>,
    isbn: Option<string>,
    title: Option<string>,
    author: Option<string>,
    publisher: Option<string>,
    publishYear: Option<int>,
    category: Option<string>,
    totalCopies: Option<int>,
    availableCopies: Option<int>,
    shelfLocation: Option<string>,
    description: Option<string>,
    price: Option<int>)

  const NoBookChange := BookPatch(None, None, None, None, None, None, None, None, None, None, None, None)

  /** `{ ...b, ...p }` */
  function MergeBook(b: Book, p: BookPatch): (r: Book)
    ensures p.id.None? ==> r.id == b.id
    ensures p.totalCopies.None? ==> r.totalCopies == b.totalCopies
    ensures p.availableCopies.Some? ==> r.availableCopies == p.availableCopies.value
  {
    Book(
      p.id.GetOr(b.id),
      p.isbn.GetOr(b.isbn),
      p.title.GetOr(b.title),
      p.author.GetOr(b.author),
      p.publisher.GetOr(b.publisher),
      p.publishYear.GetOr(b.publishYear),
      p.category.GetOr(b.category),
      p.totalCopies.GetOr(b.totalCopies),
      p.availableCopies.GetOr(b.availableCopies),
      p.shelfLocation.GetOr(b.shelfLocation),
      p.description.GetOr(b.description),
      p.price.GetOr(b.price))
  }

  function ThenBook(p: BookPatch, q: BookPatch): BookPatch {
    BookPatch(
      Or(q.id, p.id), Or(q.isbn, p.isbn), Or(q.title, p.title), Or(q.author, p.author),
      Or(q.publisher, p.publisher), Or(q.publishYear, p.publishYear), Or(q.category, p.category),
      Or(q.totalCopies, p.totalCopies), Or(q.availableCopies, p.availableCopies),
      Or(q.shelfLocation, p.shelfLocation), Or(q.description, p.description), Or(q.price, p.price))
  }

  lemma MergeBookLaws(b: Book, p: BookPatch, q: BookPatch)
    ensures MergeBook(b, NoBookChange) == b
    ensures MergeBook(MergeBook(b, p), p) == MergeBook(b, p)
    ensures MergeBook(MergeBook(b, p), q) == MergeBook(b, ThenBook(p, q))
  {
  }

  // ---------------------------------------------------------------- loans

  datatype IssueStatus = Issued | Returned | Overdue

  /** A loan; `returnDate` and `fineAmount` are optional keys. */
  datatype BookIssue = BookIssue(
    id: string,
    bookId: string,
    userId: string,
    issueDate: int,
    dueDate: int,
    returnDate: Option<int>,
    status: IssueStatus,
    issuedBy: string,
    fineAmount: Option<int>)

  // ---------------------------------------------------------------- pull requests

  datatype PrStatus = Pending | Approved | Rejected

  datatype PullRequest = PullRequest(
    id: string,
    title: string,
    description: string,
    branch: string,
    author: string,
    status: PrStatus,
    lintScore: int,
    testsPassed: bool,
    codeReviewComments: seq<string>,
    createdAt: int,
    updatedAt: int)

  // ---------------------------------------------------------------- dashboard

  datatype Dashboard = Dashboard(
    totalBooks: int,
    totalUsers: int,
    totalEmployees: int,
    booksIssued: int,
    booksOverdue: int,
    revenue: int,
    activeLoans: int)

  /** The value of the later object literal wins over the earlier one. */
  function Or<T>(later: Option<T>, earlier: Option<T>): (r: Option<T>)
    ensures r.None? <==> later.None? && earlier.None?
  {
    if later.Some? then later else earlier
  }
}
