# Library management and review tooling, modelled in Dafny

The repository is an Angular library-management application with a set of Node review scripts.
This project models both halves in Dafny and proves properties of the models.

The application side:
- The record types.
- The validation helpers.
- The four in-memory stores: books, patrons, staff and pull requests. Each is a class over a list that its methods change in place.
- The lending engine that ties books and patrons together.
- The dashboard aggregation.

The scripts side:
- The security audit analysis.
- The pull-request metadata analyzer.
- The code analyzer: security patterns, brace-matched function complexity, file size, duplicated blocks and the issue counters.
- The metrics report: the blank / comment / code line classifier and the quality grade.

Time is an integer (milliseconds, or calendar fields for `daysBetween`). The clock reading and fresh ids are parameters. Regular expressions whose match sets are not modelled become inputs: the outcomes of the security patterns, the function matches and the decision-point count.

Files:
- `wrappers.dfy`: Option.
- `lists.dfy`: find, filter, count, sum, map.
- `text.dfy`: trim, split, join, starts/ends with, includes, decimal rendering.
- `models.dfy`: records and object-spread merges.
- `store.dfy`: the find / findIndex / filter idiom of the stores.
- `inventory.dfy`, `users.dfy`, `employees.dfy`, `lending.dfy`, `prreview.dfy`, `dashboard.dfy`: the services.
- `validation.dfy`: the validation helpers.
- `security_scanner.dfy`, `pr_analyzer.dfy`, `code_analyzer.dfy`, `metrics_report.dfy`: the scripts.

## Model

| member | source | states |
|---|---|---|
| Models.MergeUser | src/app/services/user.service.ts:73 | a patch without an id keeps the user's id, and a patch carrying a status sets it (the fields `suspendUser` and `activateUser` pass) |
| Models.MergeUserLaws | src/app/models/index.ts:1-11 | the empty patch changes nothing, a patch applied twice acts once, two merges in a row are one merge of the combined patch |
| Models.MergeEmployee | src/app/services/employee.service.ts:79 | a patch without an id keeps the employee's id, and a patch carrying a status sets it (the fields the status operations pass) |
| Models.MergeEmployeeLaws | src/app/models/index.ts:13-25 | identity, idempotence and composition of employee merges |
| Models.MergeBook | src/app/services/inventory.service.ts:110 | a patch without an id keeps the book's id, one without a total keeps the total, and one carrying a counter sets it (the field the copy operations pass) |
| Models.MergeBookLaws | src/app/models/index.ts:27-40 | identity, idempotence and composition of book merges |
| Store.Position | src/app/services/inventory.service.ts:108 | `findIndex`: -1 when no record has the id, else the first index whose record has it |
| Store.Lookup | src/app/services/inventory.service.ts:94-96 | `find`: the record at `Position`, None exactly when no record has the id |
| Store.Replace | src/app/services/inventory.service.ts:107-113 | only the first record with the id is changed; no match leaves the list as it was |
| Store.Remove | src/app/services/inventory.service.ts:115-118 | `filter(r => r.id !== id)`: no record with the id survives, the others stay in order |
| Store.RemoveKeepsOthers | src/app/services/user.service.ts:78-81 | every survivor is from the list, and every record with another id survives |
| Store.RemoveIdempotent | src/app/services/employee.service.ts:84-87 | deleting twice is deleting once |
| Store.LookupAfterRemove | src/app/services/user.service.ts:78-81 | after a delete the id is not found and every other id is found as before |
| Store.LookupAfterAppend | src/app/services/inventory.service.ts:98-105 | after a push the new record is found under its id unless an earlier record has that id |
| Store.LookupAfterReplace | src/app/services/inventory.service.ts:107-113 | an id-keeping update leaves `f` of the old record under that id |
| Store.LookupOtherAfterReplace | src/app/services/inventory.service.ts:107-113 | an id-keeping update leaves every other id's record alone |
| Store.ReplaceIdempotent | src/app/services/user.service.ts:70-76 | updating twice with an idempotent patch is updating once |
| Store.LookupCons | src/app/services/inventory.service.ts:94-96 | the lookup in a list with one more record in front finds that record first when it has the id |
| Store.RemoveConcat | src/app/services/inventory.service.ts:115-118 | deleting from two lists joined is deleting from each |
| Store.RemoveOrder | src/app/services/inventory.service.ts:116 | the survivor at index i lands at index the length of Remove(s[..i]) of the result, ahead of every later survivor |
| Inventory.InventoryService.GetBookById | src/app/services/inventory.service.ts:94-96 | the first book with the id, if any |
| Inventory.InventoryService.AddBook | src/app/services/inventory.service.ts:98-105 | the list gains the book under the fresh id at its end |
| Inventory.InventoryService.UpdateBook | src/app/services/inventory.service.ts:107-113 | the first book with the id is merged with the patch |
| Inventory.InventoryService.DeleteBook | src/app/services/inventory.service.ts:115-118 | every book with the id is removed |
| Inventory.InventoryService.DecreaseAvailableCopies | src/app/services/inventory.service.ts:120-125 | the list becomes `AfterDecrease` |
| Inventory.InventoryService.IncreaseAvailableCopies | src/app/services/inventory.service.ts:127-132 | the list becomes `AfterIncrease` |
| Inventory.DecreaseEffect | src/app/services/inventory.service.ts:120-125 | one copy fewer on the first book with the id when it has one on the shelf, nothing else changed; otherwise nothing changed |
| Inventory.IncreaseEffect | src/app/services/inventory.service.ts:127-132 | one copy more on the first book with the id while fewer than its total are on the shelf, nothing else changed |
| Inventory.DecreaseThenIncrease | src/app/services/inventory.service.ts:120-132 | taking a copy and putting it back restores the books exactly, when the counter was above 0 and at most the total |
| Inventory.CopyOperationsKeepBounds | src/app/services/inventory.service.ts:120-132 | both copy operations keep every book between 0 and its total |
| Inventory.AddDeleteBounds | src/app/services/inventory.service.ts:98-118 | deleting keeps the bounds; adding keeps them exactly when the new book is within them |
| Inventory.DecreaseKeepsRange | src/app/services/inventory.service.ts:120-125 | a decrease keeps the length, and keeps every book at or above 0 and at or below its total if it was |
| Inventory.IncreaseKeepsRange | src/app/services/inventory.service.ts:127-132 | an increase keeps the length, and keeps every book at or above 0 and at or below its total if it was |
| Inventory.UpdateMayBreakBounds | src/app/services/inventory.service.ts:107-113 | an update can set the counter above the total: the store does not guard the bounds |
| Users.UserService.GetUserById | src/app/services/user.service.ts:57-59 | the first user with the id, if any |
| Users.UserService.AddUser | src/app/services/user.service.ts:61-68 | the list gains the user under the fresh id at its end |
| Users.UserService.UpdateUser | src/app/services/user.service.ts:70-76 | the first user with the id is merged with the patch |
| Users.UserService.DeleteUser | src/app/services/user.service.ts:78-81 | every user with the id is removed |
| Users.UserService.SuspendUser | src/app/services/user.service.ts:83-85 | an update with the status `suspended` |
| Users.UserService.ActivateUser | src/app/services/user.service.ts:87-89 | an update with the status `active` |
| Users.SetStatusEffect | src/app/services/user.service.ts:83-89 | the first user with the id gets the status and nothing else changes |
| Users.SetStatusIdempotent | src/app/services/user.service.ts:83-89 | suspending or activating twice is doing it once |
| Users.NeverInactive | src/app/services/user.service.ts:78-89 | suspend, activate and delete never produce an `inactive` user |
| Users.UpdateFindsMerged | src/app/services/user.service.ts:70-76 | after an update without an id the lookup finds the merged user |
| Employees.EmployeeService.GetEmployeeById | src/app/services/employee.service.ts:63-65 | the first employee with the id, if any |
| Employees.EmployeeService.AddEmployee | src/app/services/employee.service.ts:67-74 | the list gains the employee under the fresh id at its end |
| Employees.EmployeeService.UpdateEmployee | src/app/services/employee.service.ts:76-82 | the first employee with the id is merged with the patch |
| Employees.EmployeeService.DeleteEmployee | src/app/services/employee.service.ts:84-87 | every employee with the id is removed |
| Employees.EmployeeService.DeactivateEmployee | src/app/services/employee.service.ts:89-91 | an update with the status `inactive` |
| Employees.EmployeeService.ActivateEmployee | src/app/services/employee.service.ts:93-95 | an update with the status `active` |
| Employees.SetStatusEffect | src/app/services/employee.service.ts:89-95 | the first employee with the id gets the status and nothing else changes |
| Employees.SetStatusIdempotent | src/app/services/employee.service.ts:89-95 | deactivating or activating twice is doing it once |
| Employees.DeleteEffect | src/app/services/employee.service.ts:84-87 | the id is no longer found, every other id is found as before, and the survivors keep their order: the one at index i moves to index the length of Remove(staff[..i]), ahead of every later survivor |
| Lending.LoanFine | src/app/services/book-issue.service.ts:124-134 | never negative and a multiple of ten; zero exactly when less than one full day late |
| Lending.FineSteps | src/app/services/book-issue.service.ts:124-134 | the fine after d full days late is 10·d |
| Lending.FineMonotone | src/app/services/book-issue.service.ts:124-134 | a later return never costs less |
| Lending.FineAgreesWithCalculateFine | src/app/services/book-issue.service.ts:124-134 | the loan fine is `calculateFine` of the whole days late at the rate of 10 |
| Lending.BookIssueService.GetBookIssueById | src/app/services/book-issue.service.ts:58-60 | the first loan with the id, if any |
| Lending.BookIssueService.IssueBook | src/app/services/book-issue.service.ts:62-91 | the outcome and the books, patrons and loans afterwards are those of `IssueResult` |
| Lending.BookIssueService.ReturnBook | src/app/services/book-issue.service.ts:93-122 | the outcome and the three lists afterwards are those of `ReturnResult` |
| Lending.BookIssueService.GetOverdueBooks | src/app/services/book-issue.service.ts:136-141 | the loans still `issued` whose due instant has passed, in order |
| Lending.IssueRefusal | src/app/services/book-issue.service.ts:62-68 | issuing fails exactly when the book or patron is missing or the counter is 0, and then nothing changes |
| Lending.IssueEffect | src/app/services/book-issue.service.ts:70-91 | one new loan at the end: the fresh id, the book, the patron, the issuer, issued now, due 14 days later, `issued`, no return date and no fine; one copy off the shelf; the book appended to the patron's list and counted; no other patron changed |
| Lending.IssueThenReturn | src/app/services/book-issue.service.ts:62-134 | issuing a book and returning the new loan before a day past its due date succeeds, closes the loan with a fine of 0 and leaves the shelf as before the issue, provided the fresh id is unused and the counter lies between 0 and the total |
| Lending.SuspendedPatronCanBorrow | src/app/services/book-issue.service.ts:62-68 | a suspended patron is not refused |
| Lending.NegativeCounterStillIssues | src/app/services/book-issue.service.ts:66 | a counter below zero passes the `=== 0` test: the loan is recorded and the counter stays |
| Lending.ReturnRefusal | src/app/services/book-issue.service.ts:93-97 | returning fails exactly when no loan has the id, and then nothing changes |
| Lending.ReturnClosesLoan | src/app/services/book-issue.service.ts:99-110 | the first loan with the id is closed with the return instant and fine, already-returned loans included; a copy goes back within the total |
| Lending.ReturnReleasesBook | src/app/services/book-issue.service.ts:112-118 | the patron becomes the same record with its list filtered by `bid !== bookId`: every occurrence of the book gone, every other entry kept (in order, by `Lists.FilterOrder`), the borrowing total untouched; other patrons unchanged; a deleted patron is skipped |
| Lending.DropBook | src/app/services/book-issue.service.ts:114 | the filter drops every occurrence of the book and keeps every other entry |
| Lending.OverdueMembership | src/app/services/book-issue.service.ts:136-141 | a loan is overdue exactly when it is in the list, `issued` and past due |
| Lending.OverdueAtMostIssued | src/app/services/book-issue.service.ts:136-141 | never more overdue loans than issued ones |
| PrReview.LintReason | src/app/services/pr-review.service.ts:111 | the lint reason starts with `Lint score ` |
| PrReview.Evaluate | src/app/services/pr-review.service.ts:103-133 | approval exactly when lint ≥ 90 and tests pass; a lint failure is reported first; the approval reason accompanies approval |
| PrReview.FallbackUnreachable | src/app/services/pr-review.service.ts:129-132 | the last branch's reason is never given |
| PrReview.PrReviewService.GetPullRequestById | src/app/services/pr-review.service.ts:63-65 | the first request with the id, if any |
| PrReview.PrReviewService.SubmitPullRequest | src/app/services/pr-review.service.ts:67-78 | the list becomes `AfterSubmit`: push the pending request, then auto-review the id |
| PrReview.PrReviewService.AutoReviewAndUpdatePr | src/app/services/pr-review.service.ts:80-101 | the first request with the id gets the verdict's status and reason as a comment |
| PrReview.PrReviewService.ManualReview | src/app/services/pr-review.service.ts:135-154 | the first request with the id gets the decision's status and the comment |
| PrReview.PrReviewService.GetPendingReviews | src/app/services/pr-review.service.ts:156-158 | the pending requests in order |
| PrReview.PrReviewService.GetApprovedPrs | src/app/services/pr-review.service.ts:160-162 | the approved requests in order |
| PrReview.PrReviewService.GetRejectedPrs | src/app/services/pr-review.service.ts:164-166 | the rejected requests in order |
| PrReview.SubmitResolves | src/app/services/pr-review.service.ts:67-101 | with an unused id the new request is last, approved or rejected (never pending), with the verdict's reason as its one new comment; earlier requests unchanged |
| PrReview.SubmitCollision | src/app/services/pr-review.service.ts:70-76 | with a taken id the older request is reviewed again and the new one stays pending |
| PrReview.ManualReviewEffect | src/app/services/pr-review.service.ts:135-154 | an unknown id changes nothing; otherwise the status follows the decision, the comment is appended, no other request changes |
| PrReview.ReviewsOnlyAddComments | src/app/services/pr-review.service.ts:80-154 | reviews only append comments |
| PrReview.SubmitOnlyAddsComments | src/app/services/pr-review.service.ts:67-78 | submitting keeps every earlier request's comments as a prefix |
| PrReview.StatusListsPartition | src/app/services/pr-review.service.ts:156-166 | the three status lists together hold every request once |
| PrReview.StatusListsDisjoint | src/app/services/pr-review.service.ts:156-166 | no request is on two of the lists |
| PrReview.FixedReasonsDistinct | src/app/services/pr-review.service.ts:115-132 | the fallback reason differs from the tests-failing and approval reasons |
| DashboardView.GetDashboardData | src/app/services/dashboard.service.ts:27-48 | total copies, patron and staff counts, issued and overdue loans (overdue ≤ issued), revenue as the sum of recorded fines |
| DashboardView.RevenueConcat | src/app/services/dashboard.service.ts:33-38 | the revenue of two batches is the sum of their revenues |
| DashboardView.RevenueSign | src/app/services/dashboard.service.ts:33-38 | no negative fine gives a non-negative revenue; no fine gives zero |
| DashboardView.TotalBooksBounds | src/app/services/dashboard.service.ts:28 | with no negative counts the total is at least each title's copies |
| ValidationUtils.IsbnCharacterisation | src/app/utils/validation.utils.ts:8-17 | valid exactly when the input holds only digits and hyphens and has 10 or 13 digits; empty is invalid |
| ValidationUtils.ValidateIsbn | src/app/utils/validation.utils.ts:8-17 | an accepted ISBN has at least ten characters |
| ValidationUtils.IsbnIgnoresHyphen | src/app/utils/validation.utils.ts:13 | a hyphen anywhere does not change the verdict |
| ValidationUtils.IsbnTooShort | src/app/utils/validation.utils.ts:14 | fewer than ten characters is never valid |
| ValidationUtils.HyphenatedIsbn | src/app/utils/validation.utils.spec.ts:25-27 | digit groups joined by hyphens are valid when the digits number 10 or 13 |
| ValidationUtils.IsbnShortExamples | src/app/utils/validation.utils.spec.ts:29-32 | `12345` and the empty string are rejected |
| ValidationUtils.RemoveHyphensShape | src/app/utils/validation.utils.ts:13 | removing hyphens drops exactly the hyphens, and leaves only digits exactly when the input held only digits and hyphens |
| ValidationUtils.IsbnOfDigits | src/app/utils/validation.utils.ts:8-17 | ten or thirteen bare digits are a valid ISBN |
| ValidationUtils.IsbnDigitExamples | src/app/utils/validation.utils.spec.ts:17-23 | `1234567890` and `1234567890123` are accepted |
| ValidationUtils.IsbnHyphenExample | src/app/utils/validation.utils.spec.ts:25-27 | `123-456-789-0` is accepted |
| ValidationUtils.EmailCharacterisation | src/app/utils/validation.utils.ts:22-29 | valid exactly when there is no white space, exactly one `@` with something before it, and a `.` after it with a character on each side |
| ValidationUtils.ValidateEmail | src/app/utils/validation.utils.ts:22-29 | an accepted address holds an `@` and at least five characters |
| ValidationUtils.EmailValidHasShape | src/app/utils/validation.utils.ts:22-29 | every accepted address has the shape: one `@`, no white space, a dot with a character on each side after the `@` |
| ValidationUtils.EmailShapeIsValid | src/app/utils/validation.utils.ts:22-29 | every address of that shape is accepted |
| ValidationUtils.EmailAccepted | src/app/utils/validation.utils.spec.ts:36-38 | `test@example.com` is accepted |
| ValidationUtils.EmailRejected | src/app/utils/validation.utils.spec.ts:40-43 | `invalid-email` and the empty string are rejected |
| ValidationUtils.InsertFormatting | src/app/utils/validation.utils.ts:39 | inserting non-digits anywhere does not change the phone verdict |
| ValidationUtils.ValidatePhone | src/app/utils/validation.utils.ts:34-41 | an accepted number has at least ten characters |
| ValidationUtils.FormattedPhone | src/app/utils/validation.utils.spec.ts:51-53 | `(area) exchange-line` with ten digits is accepted |
| ValidationUtils.PhoneRejectedExamples | src/app/utils/validation.utils.spec.ts:55-58 | `123` and the empty string are rejected |
| ValidationUtils.NoDigits | src/app/utils/validation.utils.ts:39 | a string without digits keeps nothing once the non-digits are stripped |
| ValidationUtils.PhoneDigitsExample | src/app/utils/validation.utils.spec.ts:47-49 | `1234567890` is accepted |
| ValidationUtils.PublishYearStaysValid | src/app/utils/validation.utils.ts:46-49 | a year accepted now stays accepted in every later calendar year |
| ValidationUtils.ValidatePublishYear | src/app/utils/validation.utils.ts:46-49 | no year is accepted before the calendar reaches 1000, and no year after the current one |
| ValidationUtils.PublishYearExamples | src/app/utils/validation.utils.spec.ts:61-71 | in the years 2020 to 2099, 2020 and 1950 are accepted, 999 and 2100 rejected |
| ValidationUtils.CalculateFine | src/app/utils/validation.utils.ts:64-70 | no delay costs nothing, and a non-negative rate never gives a negative fine |
| ValidationUtils.FineStep | src/app/utils/validation.utils.ts:64-70 | each further day overdue adds one day's rate; with the first ensures this fixes the fine at days times rate |
| ValidationUtils.FineMonotone | src/app/utils/validation.utils.ts:64-70 | with a non-negative rate the fine is non-negative and grows with the delay |
| ValidationUtils.FineExamples | src/app/utils/validation.utils.spec.ts:81-85 | 5 days at 10 is 50; 0 and -1 days cost nothing |
| ValidationUtils.PastStaysPast | src/app/utils/validation.utils.ts:93-95 | a past date stays past as the clock advances; a date at or after a later reading is not past |
| ValidationUtils.IsDateInPast | src/app/utils/validation.utils.ts:93-95 | the present instant is not in the past; a past date is at least one millisecond before now |
| ValidationUtils.DaysBetweenLaws | src/app/utils/validation.utils.ts:100-106 | zero on equal dates, antisymmetric, additive over consecutive intervals |
| ValidationUtils.DaysBetweenIgnoresTime | src/app/utils/validation.utils.ts:102-103 | the time of day plays no part |
| ValidationUtils.DaysBetween | src/app/utils/validation.utils.ts:100-106 | the whole days from the first date to the second; within one month, the difference of the days of the month |
| ValidationUtils.UtcYear | src/app/utils/validation.utils.ts:102-103 | `Date.UTC` reads the years 0 to 99 as 1900 to 1999 and leaves every other year alone |
| ValidationUtils.Epoch | src/app/utils/validation.utils.ts:100-106 | day 0 is 1970-01-01 |
| ValidationUtils.NextMonth | src/app/utils/validation.utils.ts:100-106 | the last day of a month and the first of the next are one day apart |
| ValidationUtils.MarchFollowsFebruary | src/app/utils/validation.utils.ts:100-106 | the last day of February, 28 or 29 by the leap rule, is followed by 1 March |
| ValidationUtils.NextYear | src/app/utils/validation.utils.ts:100-106 | 31 December and the next 1 January are one day apart |
| ValidationUtils.TwoDigitYears | src/app/utils/validation.utils.ts:102-105 | from 0099-12-31 to 0100-01-01 the count is -693959 days, because year 99 is read as 1999; 1999-12-31 to 2000-01-01 is one day |
| ValidationUtils.DaysBetweenExample | src/app/utils/validation.utils.spec.ts:117-121 | ten days apart gives 10 |
| ValidationUtils.SanitizeShape | src/app/utils/validation.utils.ts:75-81 | the result has no white space at either end and only single spaces inside |
| ValidationUtils.SanitizeString | src/app/utils/validation.utils.ts:75-81 | never longer than the input, and empty exactly when the input is empty or all white space |
| ValidationUtils.CollapseWhitespace | src/app/utils/validation.utils.ts:80 | `replace(/\s+/g, ' ')`: never longer than the input |
| ValidationUtils.SanitizeIdempotent | src/app/utils/validation.utils.ts:75-81 | sanitising twice is sanitising once |
| ValidationUtils.SanitizeTwoWords | src/app/utils/validation.utils.spec.ts:89-92 | two words padded with white space come out joined by one space |
| ValidationUtils.CollapseShape | src/app/utils/validation.utils.ts:80 | after collapsing, white space is a single space and never two in a row; the ends keep their kind |
| ValidationUtils.CollapseFixed | src/app/utils/validation.utils.ts:80 | collapsing leaves an already collapsed string alone |
| ValidationUtils.CollapsePrefix | src/app/utils/validation.utils.ts:80 | a prefix without white space passes through collapsing unchanged |
| ValidationUtils.TrimPadded | src/app/utils/validation.utils.ts:80 | trimming removes exactly the white-space padding around a core that starts and ends with other characters |
| ValidationUtils.CollapseGap | src/app/utils/validation.utils.ts:80 | a run of white space between two words becomes one space |
| ValidationUtils.CollapseRun | src/app/utils/validation.utils.ts:80 | a leading run of white space becomes one space |
| SecurityScanner.Weight | scripts/ai-review/security-scanner.js:12-17 | the weights 100, 50, 10, 5 |
| SecurityScanner.Threshold | scripts/ai-review/security-scanner.js:12-17 | the thresholds 0, 0, 3, 10 |
| SecurityScanner.CountOf | scripts/ai-review/security-scanner.js:80 | the count under the name, 0 when absent |
| SecurityScanner.CheckSeverities | scripts/ai-review/security-scanner.js:79-96 | the loop's verdict, impact and issues are `WithinAll`, `Penalty` and `SeverityIssues` of the severities |
| SecurityScanner.CheckPackages | scripts/ai-review/security-scanner.js:99-109 | the loop appends `PackageIssues` of the packages |
| SecurityScanner.CheckSeverity | scripts/ai-review/security-scanner.js:80-95 | one severity: the verdict, impact and issues change exactly when its count exceeds the threshold, by the excess times the weight |
| SecurityScanner.IssuesStep | scripts/ai-review/security-scanner.js:88-94 | the severity issues of one more severity add its issue when exceeded |
| SecurityScanner.PenaltyStep | scripts/ai-review/security-scanner.js:83-87 | the penalty of one more severity adds its weighted excess when exceeded |
| SecurityScanner.WithinStep | scripts/ai-review/security-scanner.js:81-82 | one more severity keeps the verdict only when it is not exceeded |
| SecurityScanner.PackageStep | scripts/ai-review/security-scanner.js:99-109 | one more package adds its error when critical or high |
| SecurityScanner.AnalyzeAuditResults | scripts/ai-review/security-scanner.js:72-121 | passed, negated impact, counts, total, issues and message of the audit |
| SecurityScanner.PenaltySign | scripts/ai-review/security-scanner.js:83-87 | the penalty is never negative and is zero exactly when no severity exceeds its threshold |
| SecurityScanner.ScoreImpactSign | scripts/ai-review/security-scanner.js:111-113 | the reported impact is ≤ 0, and 0 exactly when the audit passes |
| SecurityScanner.PassedThresholds | scripts/ai-review/security-scanner.js:79-96 | the audit passes exactly when there are no critical or high findings, at most 3 moderate and at most 10 low |
| SecurityScanner.WithinThresholds | scripts/ai-review/security-scanner.js:12-17 | within every threshold exactly when there are no critical or high findings, at most 3 moderate and at most 10 low |
| SecurityScanner.SeverityIssueCount | scripts/ai-review/security-scanner.js:88-94 | one severity issue per exceeding severity, errors exactly for critical and high |
| SecurityScanner.SeverityIssuesExact | scripts/ai-review/security-scanner.js:88-94 | the severity issues are the exceeding severities' issues in visiting order |
| SecurityScanner.PackageIssuesShape | scripts/ai-review/security-scanner.js:99-109 | one error per critical or high package |
| PrAnalyzer.Then | scripts/ai-review/pr-analyzer.js:50-73 | appending a step's issues adds their counts |
| PrAnalyzer.Report | scripts/ai-review/pr-analyzer.js:97-104 | a push keeps the earlier issues and adds the new one last |
| PrAnalyzer.BlankIsTrimmedEmpty | scripts/ai-review/pr-analyzer.js:96 | the blank test (missing, or nothing left after trimming) holds exactly of missing or all-white-space strings |
| PrAnalyzer.AnalyzeTitle | scripts/ai-review/pr-analyzer.js:92-158 | the issues and impact are `TitleCheck` |
| PrAnalyzer.AnalyzeDescription | scripts/ai-review/pr-analyzer.js:163-233 | the issues and impact are `DescriptionCheck` |
| PrAnalyzer.AnalyzeBranch | scripts/ai-review/pr-analyzer.js:238-277 | the issues and impact are `BranchCheck` |
| PrAnalyzer.CountCommits | scripts/ai-review/pr-analyzer.js:293-310 | the conventional and non-descriptive commits are counted |
| PrAnalyzer.AnalyzeCommits | scripts/ai-review/pr-analyzer.js:282-344 | the issues and impact are `CommitCheck` |
| PrAnalyzer.AnalyzePrSize | scripts/ai-review/pr-analyzer.js:349-393 | the issues and impact are `SizeCheck` |
| PrAnalyzer.Clamp | scripts/ai-review/pr-analyzer.js:76 | the score is in [0, 100] and unchanged inside it |
| PrAnalyzer.Analyze | scripts/ai-review/pr-analyzer.js:44-87 | the score is 100 plus every step's impact, clamped; the issues are every step's issues in order; the metadata is copied |
| PrAnalyzer.TitleCheckShape | scripts/ai-review/pr-analyzer.js:92-158 | a blank title is one error costing 20; otherwise 2 or 3 title issues worth -15 to +5, the case hint exactly for a lower-case non-conventional title |
| PrAnalyzer.DescriptionCheckShape | scripts/ai-review/pr-analyzer.js:163-233 | a blank description is one error costing 20; otherwise -15 to +13, with the breaking-change warning exactly when mentioned |
| PrAnalyzer.DescriptionSteps | scripts/ai-review/pr-analyzer.js:177-230 | what each description step may add |
| PrAnalyzer.BreakingWarningSteps | scripts/ai-review/pr-analyzer.js:224-230 | only the last description step adds the breaking-change warning, exactly when the text mentions one |
| PrAnalyzer.BranchCheckShape | scripts/ai-review/pr-analyzer.js:238-277 | nothing for a missing or empty name; else 1 or 2 branch issues worth 3, 0, -5 or -8 |
| PrAnalyzer.RatioMonotone | scripts/ai-review/pr-analyzer.js:313-333 | more conventional commits never lower the ratio bonus |
| PrAnalyzer.CommitCheckShape | scripts/ai-review/pr-analyzer.js:282-344 | the ratio bonus less 2 per non-descriptive commit, between -3-2n and +5 |
| PrAnalyzer.CleanCommits | scripts/ai-review/pr-analyzer.js:313-320 | all conventional and descriptive: one approving line and +5 |
| PrAnalyzer.SizeMissingIsZero | scripts/ai-review/pr-analyzer.js:351-353 | a missing count reads as zero |
| PrAnalyzer.SizeCheckShape | scripts/ai-review/pr-analyzer.js:349-393 | one or two size issues worth -15 to +3 |
| PrAnalyzer.SizeCheckMonotone | scripts/ai-review/pr-analyzer.js:359-390 | a bigger change never scores better on size |
| PrAnalyzer.AllChecksBounds | scripts/ai-review/pr-analyzer.js:44-87 | the total impact lies between -63 and +24 without commits; with commits, between -66-2n and +29; without commits the score is at least 37 |
| PrAnalyzer.StepImpacts | scripts/ai-review/pr-analyzer.js:92-393 | the title step is worth -20 to +5, description -20 to +13, branch -8 to +3, size -15 to +3 |
| PrAnalyzer.NonBlankTitle | scripts/ai-review/pr-analyzer.js:96 | a title starting with a letter is not blank |
| PrAnalyzer.ConventionalExamples | scripts/ai-review/pr-analyzer.js:129-131 | `fix: correct typo` is conventional, `Fix typo` and `update readme` are not |
| PrAnalyzer.ConventionalTitleExample | scripts/ai-review/pr-analyzer.js:106-146 | a conventional title of ordinary length gets the format bonus and nothing else |
| PrAnalyzer.LowercaseTitleExample | scripts/ai-review/pr-analyzer.js:129-156 | a lower-case non-conventional title loses the format and case points |
| CodeAnalyzer.Clamp | scripts/ai-review/code-analyzer.js:508 | the report's score is in [0, 100] and unchanged inside it |
| CodeAnalyzer.Analyzer.constructor | scripts/ai-review/code-analyzer.js:12-22 | no issues, score 100, zero counters |
| CodeAnalyzer.Analyzer.AddIssue | scripts/ai-review/code-analyzer.js:495-501 | the issue is appended and its severity's counter bumped; the counters keep matching the issues |
| CodeAnalyzer.Analyzer.CheckSecurity | scripts/ai-review/code-analyzer.js:128-205 | appends `SecurityIssues` and takes `SecurityPenalty` off the score |
| CodeAnalyzer.Analyzer.MatchPatterns | scripts/ai-review/code-analyzer.js:174-179 | the pattern loop appends the hit patterns' issues in table order and takes their impacts |
| CodeAnalyzer.SecurityPenaltyBounds | scripts/ai-review/code-analyzer.js:129-204 | the security penalty is between 0 and 180, with at most nine issues |
| CodeAnalyzer.PatternIssueCount | scripts/ai-review/code-analyzer.js:174-179 | one issue per hit pattern |
| CodeAnalyzer.PatternPenaltyBounds | scripts/ai-review/code-analyzer.js:174-179 | the pattern penalty lies between 0 and the table's full penalty |
| CodeAnalyzer.PatternsStep | scripts/ai-review/code-analyzer.js:174-179 | one more pattern adds its issue when hit, and counts it |
| CodeAnalyzer.Analyzer.ReportPattern | scripts/ai-review/code-analyzer.js:175-178 | a hit pattern appends its issue, counts it and takes its impact; a miss changes nothing |
| CodeAnalyzer.Analyzer.RaiseIf | scripts/ai-review/code-analyzer.js:182-204 | a met condition appends the issue, counts it and takes the penalty; otherwise nothing changes |
| CodeAnalyzer.FunctionEnd | scripts/ai-review/code-analyzer.js:222-229 | the brace loop stops where `MatchEnd` says |
| CodeAnalyzer.MatchEnd | scripts/ai-review/code-analyzer.js:218-229 | the end is the start when no brace closes, else a `}` |
| CodeAnalyzer.MatchEndBalanced | scripts/ai-review/code-analyzer.js:218-229 | the end is the first point where the depth returns to zero: the body is balanced, the depth stays positive before it, and any closing point is found |
| CodeAnalyzer.FirstClose | scripts/ai-review/code-analyzer.js:222-229 | the scan ends at the start or on a character inside the content |
| CodeAnalyzer.FirstCloseSpec | scripts/ai-review/code-analyzer.js:222-229 | the scan stops at the first closing point after the start, or returns the start when there is none |
| CodeAnalyzer.DepthBalance | scripts/ai-review/code-analyzer.js:223-226 | the depth after a stretch is one plus its brace balance |
| CodeAnalyzer.DepthPositive | scripts/ai-review/code-analyzer.js:227-228 | before the first closing point the depth stays at least one |
| CodeAnalyzer.ComplexityFinding | scripts/ai-review/code-analyzer.js:244-260 | at most one complexity issue for the file, an error or a warning; the deduction is 15 for an error, 8 for a warning and 0 without an issue |
| CodeAnalyzer.LengthFinding | scripts/ai-review/code-analyzer.js:263-272 | an issue exactly above 50 lines: a warning naming the function and its line count, costing 5 |
| CodeAnalyzer.FileSizeFinding | scripts/ai-review/code-analyzer.js:276-284 | an issue exactly above 500 lines: a warning carrying the line count in its message, costing 5 |
| CodeAnalyzer.ComplexityFindings | scripts/ai-review/code-analyzer.js:210-285 | nothing unless the file ends in `.ts`; at most two issues and 20 points per function plus one issue and 5 points for the file; every issue names the file; the file-size warning comes last exactly when a `.ts` file is over 500 lines |
| CodeAnalyzer.FunctionFindings | scripts/ai-review/code-analyzer.js:241-272 | at most two issues and a penalty between 0 and 20 for one function, each a complexity issue of the file |
| CodeAnalyzer.AllFunctionFindings | scripts/ai-review/code-analyzer.js:217-273 | at most two issues and 20 points per matched function, each a complexity issue of the file |
| CodeAnalyzer.FindingsStep | scripts/ai-review/code-analyzer.js:217-273 | one more function adds its findings and its penalty |
| CodeAnalyzer.Measured | scripts/ai-review/code-analyzer.js:218-272 | one matched function, its body cut at the closing brace: at most two complexity issues of the file and 0 to 20 points |
| CodeAnalyzer.ComplexityThresholds | scripts/ai-review/code-analyzer.js:244-260 | the complexity penalty is 0, 8 or 15 by threshold |
| CodeAnalyzer.ComplexityPenaltyMonotone | scripts/ai-review/code-analyzer.js:244-260 | a higher complexity never costs less |
| CodeAnalyzer.SplitLineCount | scripts/ai-review/code-analyzer.js:263 | the number of lines is the number of newlines plus one |
| CodeAnalyzer.Analyzer.CheckComplexity | scripts/ai-review/code-analyzer.js:210-285 | appends `ComplexityFindings` (including the 5-point file-size warning with the line count) and takes its penalty; the score never rises |
| CodeAnalyzer.Analyzer.CheckFileSize | scripts/ai-review/code-analyzer.js:276-284 | appends `FileSizeFinding` and takes its 5 points; the counters keep matching the issues |
| CodeAnalyzer.Analyzer.MeasureFunctions | scripts/ai-review/code-analyzer.js:217-273 | the function loop appends every matched function's findings in match order |
| CodeAnalyzer.Analyzer.MeasureFunction | scripts/ai-review/code-analyzer.js:218-272 | one function's complexity and length findings |
| CodeAnalyzer.Analyzer.ReportComplexity | scripts/ai-review/code-analyzer.js:244-260 | appends the complexity finding, counts it and takes its penalty |
| CodeAnalyzer.Analyzer.ReportLength | scripts/ai-review/code-analyzer.js:263-272 | appends the length finding, counts it and takes its penalty |
| CodeAnalyzer.SignificantLines | scripts/ai-review/code-analyzer.js:470-472 | every kept line is non-blank, not a `//` comment, and holds no newline |
| CodeAnalyzer.ScanBlocks | scripts/ai-review/code-analyzer.js:473-482 | found exactly when a five-line block starting before the bound repeats an earlier one |
| CodeAnalyzer.Blocks | scripts/ai-review/code-analyzer.js:474-481 | the set holds exactly the blocks starting before the bound |
| CodeAnalyzer.BlockEquality | scripts/ai-review/code-analyzer.js:478 | two joined blocks are equal exactly when their five lines are equal |
| CodeAnalyzer.JoinInjective | scripts/ai-review/code-analyzer.js:477 | joining equally many newline-free lines is injective |
| CodeAnalyzer.SplitAtSeparator | scripts/ai-review/code-analyzer.js:477 | two strings joined at a separator neither holds split back uniquely |
| CodeAnalyzer.DuplicationMeaning | scripts/ai-review/code-analyzer.js:469-490 | the corrected check flags a file exactly when two different positions start equal runs of five significant lines |
| CodeAnalyzer.Analyzer.CheckDuplication | scripts/ai-review/code-analyzer.js:469-490 | one duplication warning and -10 exactly when `Duplicated` |
| CodeAnalyzer.Analyzer.CheckDuplicationAsWritten | scripts/ai-review/code-analyzer.js:476 | the same check with the loop bound as written |
| CodeAnalyzer.DuplicationMissedAsWritten | scripts/ai-review/code-analyzer.js:476 | a ten-line file of one block repeated is missed as written and found by the corrected bound |
| CodeAnalyzer.CorrectedScanFindsMore | scripts/ai-review/code-analyzer.js:476 | whatever the written bound finds, the corrected bound finds too |
| CodeAnalyzer.ShortFilesNeverFlagged | scripts/ai-review/code-analyzer.js:473-482 | at most five significant lines are never flagged by the corrected bound, at most six by the bound as written |
| CodeAnalyzer.ShortestFlagged | scripts/ai-review/code-analyzer.js:473-482 | those bounds are tight: six equal lines are flagged by the corrected bound and not as written; seven are flagged as written |
| CodeAnalyzer.Analyzer.AnalyzeFile | scripts/ai-review/code-analyzer.js:34-46 | counts the file and its lines, then appends `FileIssues` and takes `FilePenalty` (with the corrected duplication bound); the counters keep matching the issues |
| CodeAnalyzer.FilePenaltyNonNegative | scripts/ai-review/code-analyzer.js:128-490 | the checks only take points off |
| CodeAnalyzer.Analyzer.GenerateReport | scripts/ai-review/code-analyzer.js:506-513 | the clamped score, the issues and the counters |
| CodeAnalyzer.TallyAllCounts | scripts/ai-review/code-analyzer.js:495-501 | after a batch each counter is the number of issues of its severity |
| CodeAnalyzer.FreshCounters | scripts/ai-review/code-analyzer.js:12-22 | the counters add up to the number of issues |
| CodeAnalyzer.TallyCounts | scripts/ai-review/code-analyzer.js:495-501 | counting one more issue keeps the counters matching the issues |
| CodeAnalyzer.TallyAllConcat | scripts/ai-review/code-analyzer.js:495-501 | counting two batches is counting one after the other |
| CodeAnalyzer.TallyAllKeepsSizes | scripts/ai-review/code-analyzer.js:495-501 | counting issues leaves the file and line counters alone |
| CodeAnalyzer.CountersSum | scripts/ai-review/code-analyzer.js:495-501 | matching counters add up to the number of issues |
| CodeAnalyzer.SeveritiesPartition | scripts/ai-review/code-analyzer.js:495-501 | every issue has exactly one of the three severities |
| MetricsReport.KindOf | scripts/metrics-report.js:73-94 | blank exactly for an empty trimmed line; code only outside a block comment; every non-blank line inside one is a comment |
| MetricsReport.FlagAfter | scripts/metrics-report.js:73-88 | blank and `//` lines keep the flag; `/*` sets it even when the line ends in `*/`; only a closing line clears it; only an opening line sets it |
| MetricsReport.ShapeMeaning | scripts/metrics-report.js:73-88 | the line shapes are the source's tests: opening, closing and blank lines |
| MetricsReport.ClassifyLines | scripts/metrics-report.js:67-95 | the three counts are those of `Scan`, the flag starting closed, and add up to the number of lines |
| MetricsReport.ClassifyLine | scripts/metrics-report.js:70-94 | one round of the loop is one step of `Scan` |
| MetricsReport.Metrics.AnalyzeFile | scripts/metrics-report.js:57-98 | one more file, its lines added to each counter; the total keeps equalling the three counters' sum |
| MetricsReport.ScanTotal | scripts/metrics-report.js:69-95 | every line lands in exactly one counter |
| MetricsReport.FlagMeaning | scripts/metrics-report.js:79-88 | the flag is set exactly when an earlier line opened a block comment that no later line closed |
| MetricsReport.InsideCommentIsComment | scripts/metrics-report.js:83-87 | inside a block comment a non-blank line is a comment, never code |
| MetricsReport.IssuePoints | scripts/metrics-report.js:254-258 | between 0 and 5, and 0 exactly when every condition is met |
| MetricsReport.QualityGrade | scripts/metrics-report.js:253-264 | A for at most 1 point, B for 2, C for 3, D above 3 |
| MetricsReport.GradeMonotone | scripts/metrics-report.js:253-264 | worse counts never earn a better grade |
| Text.Split | scripts/ai-review/code-analyzer.js:35 | at least one piece, none containing the separator |
| Text.JoinSplit | scripts/ai-review/code-analyzer.js:35 | joining the pieces with the separator gives the input back |
| Text.TrimEmptyIffAllWhitespace | scripts/ai-review/pr-analyzer.js:96 | the trimmed string is empty exactly when the input is all white space |
| Text.Trim | scripts/ai-review/pr-analyzer.js:96 | the result starts and ends with something other than white space |
| Text.TrimStart | scripts/ai-review/pr-analyzer.js:96 | a suffix of the input, what was removed being white space, and not starting with white space |
| Text.TrimEnd | scripts/ai-review/pr-analyzer.js:96 | a prefix of the input, what was removed being white space, and not ending with white space |
| Text.NatToString | scripts/ai-review/security-scanner.js:91 | digits only, at least one, and no leading zero |
| Text.ParseNatToString | scripts/ai-review/security-scanner.js:91 | reading the rendered number back gives the number |
| Lists.FilterMembership | src/app/services/pr-review.service.ts:156-166 | an element is kept exactly when it is in the list and passes the test |
| Lists.FilterOrder | src/app/services/book-issue.service.ts:114 | a kept element at index i lands at index the length of Filter(s[..i]) of the result, ahead of every later kept element |
| Lists.CountExtremes | scripts/ai-review/pr-analyzer.js:293-310 | the count is 0 when nothing passes and the length when everything does |
| Lists.FindIndex | src/app/services/inventory.service.ts:108 | `findIndex`: -1 when nothing passes, else the first index that passes |
| Lists.Find | src/app/services/inventory.service.ts:95 | `find`: None when nothing passes, else the first element that passes |
| Lists.FindAtFindIndex | src/app/services/inventory.service.ts:94-113 | `find` returns the element at `findIndex` |
| Lists.Filter | src/app/services/inventory.service.ts:116 | `filter`: no longer than the input and every kept element passes |
| Lists.FilterConcat | src/app/services/inventory.service.ts:116 | filtering two lists joined is filtering each |
| Lists.FilterSubMultiset | src/app/services/inventory.service.ts:116 | the kept elements are drawn from the input |
| Lists.FilterIdempotent | src/app/services/inventory.service.ts:116 | filtering twice is filtering once |
| Lists.FilterAll | src/app/services/inventory.service.ts:116 | a list whose every element passes is kept whole |
| Lists.CountMonotone | scripts/ai-review/pr-analyzer.js:293-310 | a weaker test never counts fewer |
| Lists.CountSplit | src/app/services/pr-review.service.ts:156-166 | a test and its negation together count every element |
| Lists.UpdateFirstFrame | src/app/services/inventory.service.ts:107-113 | only the first passing element is changed |
| Lists.SumConcat | src/app/services/dashboard.service.ts:28 | the sum over two lists joined is the sum of the sums |
| Lists.SumNonNegative | src/app/services/dashboard.service.ts:28 | a sum of non-negative terms is non-negative |
| Lists.Map | src/app/services/dashboard.service.ts:33-38 | `map`: the same length, each element transformed |
| Lists.MapConcat | src/app/services/dashboard.service.ts:33-38 | mapping two lists joined is mapping each |

## Left out

- RxJS subjects and observables: the stores are modelled as the list after each operation, not the notifications. The dashboard takes one emission of the four lists.
- DashboardView.GetDashboardData: the overdue count is taken over the emitted loan list, while the source asks the lending service for its live list (dashboard.service.ts:30). The two differ on the emissions fired in the middle of `returnBook`: the loan is closed in the live list (book-issue.service.ts:107-110) before `updateUser` and `increaseAvailableCopies` emit the patrons and the books (user.service.ts:74, inventory.service.ts:111), while the last emitted loan list still shows it `issued`. So while an overdue loan is being returned, the model counts it and the source does not, until the loan list itself is emitted (book-issue.service.ts:121). In `issueBook` the loan pushed before the books are emitted is not yet due, so both counts agree there.
- The clock and id generation (`new Date()`, `Date.now()`, `Math.random()`): the reading and the fresh id are parameters. Two ids made in the same millisecond may collide in the source; the model keeps that, as `SubmitCollision` shows.
- Local-time calendar arithmetic (`setDate(+14)`, daylight saving): a loan is due 14 days of milliseconds later.
- `formatCurrency` and `generateId`: a locale library and randomness.
- String lengths are counted in characters, not UTF-16 code units. Case handling is ASCII only (`toUpperCase`, the `/i` flag).
- PrAnalyzer.RatioCheck: the float ratio `c / n` is compared in integers (`5·c >= 4·n` for 0.8, `2·c >= n` for 0.5). The messages carry the two counts.
- Commits are modelled by their messages. The other fields of a commit object play no part in the checks.
- The auth service, Angular components, routes, guard and UI: navigation and presentation.
- `scripts/quality-gate.js`, `scripts/security-scan.js`, `scripts/sonar-check.js` and `coverage-analyzer.js`: file-system walkers and float coverage.
- The security scanner's `scan` and `scanFiles`: child processes and file I/O.
- CodeAnalyzer checkTypeScript, checkCodeSmells, checkBestPractices and checkPerformance: regex scans not modelled; AnalyzeFile runs the three modelled checks in the source's order.
- AnalyzeFile: uses the corrected duplication bound (see Findings). A file whose only repeated block is the last five-line window gets a duplication warning and -10 here; the program as written reports neither. CheckDuplicationAsWritten models the loop as written.
- CodeAnalyzer.Analyzer.CheckSecurity: the seven pattern regexes are not evaluated. Their outcomes are the `hits` input; `SELECT`, `${`, `Math.random()`, `crypto` and `security` are plain substring tests.
- CodeAnalyzer.Analyzer.CheckComplexity: the function regex is not evaluated; its matches (start, header length, name) are an input. The decision-point regex count is a function parameter.
- `analyzeFiles`' file list, `fs.existsSync` and `readFileSync`: the content of each file is a parameter. The report's timestamp is left out.
- MetricsReport: `walkDir`, `analyzeStructure`, `checkComplexity` and the printed report are left out. The comment density band is a boolean input to the grade, because the density is a rounded float.
- `parseInt` producing NaN and other non-integer JavaScript numbers: counts and scores are integers.

## Findings

| source | as written | input that shows it | evidently intended | confidence | as-written member | corrected member |
|---|---|---|---|---|---|---|
| scripts/ai-review/code-analyzer.js:476 | the block loop runs while `i < lines.length - 5`, so the last five-line window is never compared | ten significant lines `a b c d e a b c d e`: the repeat starts at index 5, which the loop never reaches | every five-line window, `i <= lines.length - 5` | not executed | CodeAnalyzer.Analyzer.CheckDuplicationAsWritten, CodeAnalyzer.DuplicationMissedAsWritten | CodeAnalyzer.Analyzer.CheckDuplication, CodeAnalyzer.DuplicationMeaning |
