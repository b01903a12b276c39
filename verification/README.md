# Expense approval rules of rinde2, in Dafny

rinde2 is a Flask/SQLAlchemy web application for expense claims. An employee submits an
expense with a receipt photo and a client company. Their supervisor, or an administrator,
approves or rejects it. An administrator also approves or rejects the client companies that
employees register, and reports aggregate the expenses a manager may see.

The application is mostly database plumbing around a small set of decisions. This project
models those decisions as pure functions over an in-memory store. The store holds one map
from id to record per table, plus the approval rows in insertion order. The model covers:

- the records and their defaults: users, areas, clients, categories, expenses and approvals;
- who may approve, read, edit or delete an expense, and which expenses each role sees;
- the state transitions of an expense and of a client, including the cascade from a
  rejected client to its pending expenses;
- the Chilean RUT (tax id) cleaner, formatter and modulo-11 check digit, and the e-mail check;
- the client registration pipeline;
- the REST handlers, the web handlers and the reports;
- the exception hierarchy, its error codes and HTTP statuses, and `to_dict`;
- the error handlers, including the integrity-error message classifier;
- the upload checks and the receipt keyword and confidence rules.

A handler returns `(new store, outcome)`. Every refusal (a redirect with a flash message, or
a JSON error) leaves the store unchanged. A few things become parameters:

- clock readings;
- the text the OCR engine read from the photo;
- the file name `secure_filename` produced;
- the MIME type `python-magic` sniffed;
- the outcome of decoding the image with PIL;
- whether a file has the executable bit.

Modules follow the source files. `Models` holds the records, `Authorization` the role
predicates and scopes, and `Lifecycle` the decision update shared by both approval paths.
Each route file has its own module: `Approvals`, `Admin`, `Clients`, `Api`, `Reports` and
`ExpenseRoutes`. `Validators`, `FileValidators`, `Ocr`, `Exceptions` and `ErrorHandlers` model
the utility and service files. `Wrappers`, `Strings`, `Listing` and `Aggregates` are
supporting definitions:

- `Wrappers`: the option and result types;
- `Strings`: Python string semantics;
- `Listing`: newest-first listings;
- `Aggregates`: counts and sums over sets of expenses.

Some source behaviour is surprising. It is modelled as written and shown by a lemma:

- The REST approve and reject handlers check only the caller's role. An admin can approve
  their own expense there (`Api.SelfApprovalThroughApi`), though the web handler forbids it.
- The REST scope of a supervisor includes their own expenses; the web and report scopes do
  not (`Authorization.OwnExpenseOnlyInApiScope`).
- `chart_data` has no role check, so a plain user gets the subordinate scope
  (`Reports.ChartScopeForPlainUser`).
- The date pattern of the receipt reader contains the character class `[/-.]`. That is a
  reversed range, so the pattern does not compile. Every non-empty receipt text therefore
  raises, and no OCR data is ever stored with an expense (`Ocr.DatePatternsRejected`,
  `Ocr.ProcessReceipt`, `ExpenseRoutes.NoOcrEverKept`).
- The malware scan lower-cases the content before searching. The pattern `%PDF-` contains
  capitals, so it can never match (`FileValidators.PdfPatternNeverMatches`).
- `RateLimitError` passes `error_code` twice to its parent constructor, so constructing one
  raises a `TypeError` (`Exceptions.RateLimitError`).
- The database-error handler calls `getattr` with four arguments, so it raises a `TypeError`
  itself (`ErrorHandlers.Dispatch`).

## Model

| member | source | states |
|---|---|---|
| `Models.NewUser` | models/user.py:10-19 | A user built without a role gets role 'user'; the account is active, has no password hash and no last login, and keeps the given e-mail, area and supervisor. |
| `Models.PasswordCheck` | models/user.py:26-30 | After `set_password(p)`, `check_password(q)` holds exactly when `q == p`, whatever the account held before; e-mail and role are untouched. |
| `Models.FullNameSplits` | models/user.py:32-34 | The full name is the first name, one space, the last name: when the first name has no space, the first space of the full name sits right after it and the rest is the last name. |
| `Models.NewCompany` | models/company.py:15-25 | A client built without an explicit status is 'active' and enabled, with the given RUT and creator. |
| `Models.NewCategory` | models/company.py:29-36 | A category is built requiring no client and active. |
| `Models.StatusNameInjective` | models/expense.py:18 | The four expense statuses are stored as four different texts, so a status filter selects exactly one status. |
| `Models.DecisionStatus` | models/approval.py:10 | An approval row's action is either approved or rejected, never pending. |
| `Models.FreshId` | models/expense.py:7 | A new row gets an id no existing row has. |
| `Authorization.Subordinates` | routes/approvals.py:54-55 | The subordinates of a supervisor are exactly the stored users whose `supervisor_id` is that supervisor. |
| `Authorization.ExpensesOf` | routes/api.py:93-95 | The expenses of a set of owners are exactly the stored expenses whose `user_id` is one of them. |
| `Authorization.CanApproveExpense` | routes/approvals.py:12-31 | Approval is refused to the expense's owner whatever the role; otherwise an admin may approve, a supervisor may approve iff the owner's `supervisor_id` is theirs, and nobody else may. |
| `Authorization.ApiScope` | routes/api.py:88-95 | The REST scope is every expense for an admin, the supervisor's own plus their direct reports' for a supervisor, and the caller's own for anyone else. |
| `Authorization.TeamScope` | routes/reports.py:34-42 | The web and report scope is every expense for an admin and the direct reports' expenses for anyone else. |
| `Authorization.ApiScopeIsTeamPlusOwn` | routes/api.py:91-93 | For a supervisor the REST scope is the team scope plus their own expenses. |
| `Authorization.TeamScopeExcludesOwn` | routes/approvals.py:53-59 | A supervisor's own expense is in their team scope only if the supervisor is recorded as their own supervisor. |
| `Authorization.OwnExpenseOnlyInApiScope` | routes/api.py:92 | There is a supervisor whose own expense is in the REST scope but not in the team scope. |
| `Authorization.TeamScopeApprovable` | routes/approvals.py:19-29 | Inside a supervisor's team scope, approval is allowed exactly for the expenses that are not the supervisor's own. |
| `Authorization.DetailImpliesRead` | routes/approvals.py:181 | Whoever may open the approval detail page may also read the expense through the REST API. |
| `Authorization.ReadBeyondTeam` | routes/api.py:126-127 | A supervisor may read through the REST API an expense outside their team, which the detail page would refuse. |
| `Lifecycle.ApplyDecision` | routes/approvals.py:111-123 | A decision sets the expense's status to approved or rejected and refreshes `updated_at`. It appends exactly one approval row naming the approver, the action and the comments, and changes nothing else. |
| `Approvals.Decide` | routes/approvals.py:90-169 | The web approve and reject handlers check, in order: the expense exists, the caller may approve it, it is pending, and a rejection has a reason. A success records the decision; every refusal changes nothing. |
| `Approvals.SecondDecisionRefused` | routes/approvals.py:104-106 | Once decided, an expense cannot be decided again by anyone either way, and the attempt changes nothing. |
| `Approvals.AdminDecides` | routes/approvals.py:22-23 | An admin decides any pending expense of someone else; a rejection succeeds iff it carries comments. |
| `Approvals.PendingList` | routes/approvals.py:34-66 | The pending list is refused to callers below supervisor. Otherwise it lists each pending, approvable expense of the team scope once, and nothing else, newest first. |
| `Approvals.PendingFilterForSupervisor` | routes/approvals.py:66 | For a supervisor the approvability filter removes only the supervisor's own pending expenses. |
| `Approvals.History` | routes/approvals.py:73-87 | The history is refused to callers below supervisor. Otherwise it lists exactly the approval rows the caller wrote, newest first. |
| `Approvals.AllExpenses` | routes/approvals.py:188-219 | The team-wide listing is refused to callers below supervisor. Otherwise it lists each expense of the team scope whose status text equals the filter (any status for 'all') once, newest first. |
| `Approvals.UnknownFilterListsNothing` | routes/approvals.py:214-215 | A status filter naming no status lists nothing. |
| `Approvals.Detail` | routes/approvals.py:172-185 | The detail page of a stored expense is shown exactly to its owner or to someone who may approve it, and shows that expense. |
| `Clients.RegisterClient` | routes/clients.py:11-48 | Registration checks, in order: the RUT is valid, a given contact e-mail is valid, and no client has the formatted RUT; then a missing name fails the insert. Each refusal happens exactly when the checks before it passed and its own fails, and changes nothing. A client is registered exactly when every check passes: one client is added under a fresh id with the formatted RUT, the name and e-mail, status pending, disabled and created by the caller, and nothing else changes. |
| `Clients.RegisterKeepsRutsUnique` | routes/clients.py:33-38 | Registration keeps stored RUTs unique. |
| `Clients.StoredRutCanonical` | routes/clients.py:24 | A stored client RUT is valid and already in formatted form. |
| `Clients.SpellingsCollide` | routes/clients.py:34-35 | Two spellings of the same RUT (with or without dots, dash, lower-case k) collide: the second registration is refused as existing. |
| `Admin.PendingOfClient` | routes/admin.py:133 | The pending expenses of a client are exactly the stored expenses with that client and status pending. |
| `Admin.ExpensesOfClient` | routes/admin.py:116 | The expenses of a client are exactly the stored expenses with that client, whatever their status. |
| `Admin.ClientsApprove` | routes/admin.py:124-143 | Approving a client is refused to non-admins and fails for an unknown client. Otherwise it applies in any state: the stored store equals the old one with only that client made active and enabled, and the count of its pending expenses is reported. |
| `Admin.ClientsReject` | routes/admin.py:145-170 | Rejecting a client is refused to non-admins and fails for an unknown client. Otherwise it applies in any state: the client becomes rejected and disabled, each of its pending expenses becomes rejected, and no other table or expense changes. No approval row is written, and the number of expenses rejected is reported. |
| `Admin.ClientsApprovals` | routes/admin.py:107-122 | The client approval page is admin-only. It lists exactly the pending clients, each with the count of all its expenses. |
| `Admin.ApprovedClientLeavesApprovals` | routes/admin.py:107-143 | After approving a client, the approval page no longer lists it and lists every other pending client with the same expense count. |
| `Admin.RejectedClientLeavesApprovals` | routes/admin.py:107-170 | After rejecting a client, the approval page no longer lists it; the cascade changes statuses only, so every other pending client keeps its expense count. |
| `Admin.RejectThenApprove` | routes/admin.py:124-170 | Neither transition checks the client's status: a rejected client can be approved again, while the expenses the rejection cascaded stay rejected. |
| `Admin.UsersNew` | routes/admin.py:28-49 | Creating a user is admin-only and refused when the e-mail is taken; it fails with nothing stored exactly when the e-mail, a name or the password is missing. Otherwise it adds exactly one user under a fresh id and changes nothing else. The user has the form's e-mail, names, area and role ('user' when none is given), no supervisor, a password that checks exactly for the given one, is active, created now and never logged in. |
| `Admin.UsersNewKeepsEmailsUnique` | routes/admin.py:39-40 | Creating a user keeps stored e-mails unique. |
| `Api.ApiResponse` | routes/api.py:15-28 | `success` is false iff an error is given; `data` is present iff given; `message` and `error` are present iff truthy, and then carry the given text. |
| `Api.SuccessIffNoError` | routes/api.py:15-28 | For any arguments, an envelope reports success exactly when it carries no error text. |
| `Api.ListedIds` | routes/api.py:97-103 | The expense list is the REST scope narrowed by a truthy status and category filter, and by a non-zero `user_id` only for supervisors and admins. |
| `Api.UserFilterIgnoredForUsers` | routes/api.py:102 | For a plain user, the `user_id` filter is ignored and they still see only their own expenses. |
| `Api.GetExpenses` | routes/api.py:74-116 | The list holds each matching expense once, newest first, and reports their number as the total. |
| `Api.GetStatsSummary` | routes/api.py:381-409 | The summary counts the REST scope, its pending, approved and rejected expenses, and sums its amounts; the three status counts never exceed the total. |
| `Api.GetExpense` | routes/api.py:119-129 | An unknown id is a 404. A stored expense is forbidden (403) exactly when the caller has role 'user' and does not own it; otherwise the reply is 200 with that expense. |
| `Api.MissingField` | routes/api.py:141-144 | A body is complete iff it has the keys amount, category, reason and receipt image (a null value counts as present); otherwise the first absent one in that order is named. |
| `Api.CreateExpense` | routes/api.py:132-171 | An incomplete body gets 400 naming the missing key. A complete body succeeds (201) iff the amount converts, category, reason, receipt and client are not null, any latitude or longitude converts to a number, and a sent date converts; otherwise it is a 500 and nothing is stored. A success adds, under a fresh id, a pending expense owned by the caller with the body's amount, client, category, reason, receipt, converted coordinates and address, dated as sent (today when absent), and changes nothing else. |
| `Api.Get` | routes/api.py:153-156 | `data.get` gives a value exactly for a key present with a non-null value, and then that value. |
| `Api.CreatedIsReadable` | routes/api.py:132-171 | A created expense is in the creator's REST scope, the creator may modify it, and reading it back gives exactly the stored record. |
| `Api.Patched` | routes/api.py:190-200 | An update sets amount, category, reason and client to the values sent and keeps the others; every other field except `updated_at`, which becomes now, is unchanged. |
| `Api.UpdateExpense` | routes/api.py:174-207 | An unknown id is a 404, then owner or admin is required (403), then a pending expense (400). A null or unconvertible amount raises; a null category, reason or client fails the commit (500). The update succeeds (200) exactly when none of these applies: only that expense is rewritten with the patch, it stays pending and keeps its owner, and the reply carries it. Any other outcome changes nothing. |
| `Api.UpdateThenRead` | routes/api.py:174-207 | After a successful update, reading the expense gives the patched record. |
| `Api.DeleteExpense` | routes/api.py:210-230 | An unknown id is a 404, then owner or admin is required (403), then a pending expense (400). Otherwise the store is the old one less exactly that expense, with a success reply; any refusal changes nothing. |
| `Api.DeleteThenGone` | routes/api.py:119-230 | After a successful delete, anyone reading the expense gets a 404, a second delete gets a 404, and it is in nobody's REST scope. |
| `Api.ApiDecide` | routes/api.py:235-311 | The REST approve and reject handlers require only the supervisor or admin role (403), then a stored expense (404, raised by the lookup), then a pending one (400), and for a rejection truthy comments (400). A success records the decision like the web handler, with the comments as sent: '' when absent, none when null. Every failure changes nothing. |
| `Api.CommentsOf` | routes/api.py:247-248 | `data.get('comments', '')`: '' for an absent key, no value for null, the text otherwise. |
| `Api.NullComments` | routes/api.py:247-289 | An approval with null comments succeeds and records no comment; a rejection with null comments is refused for lack of a reason and changes nothing. |
| `Api.WebDecisionImpliesApi` | routes/api.py:239-245 | Whatever the web handler would decide, the REST handler decides the same way. |
| `Api.SelfApprovalThroughApi` | routes/api.py:239-262 | An admin can approve their own expense through the REST API although `can_approve_expense` refuses it. |
| `Api.GetUser` | routes/api.py:327-335 | A user record is readable by an admin or by that user, and refused (403) to anyone else. |
| `Api.MissingUserField` | routes/api.py:346-350 | A user body is complete iff it has the keys e-mail, first name, last name, password and role (a null value counts as present); otherwise the first absent one is named. |
| `Api.CreateUser` | routes/api.py:338-376 | Creating a user is admin-only (403), then refuses an incomplete body or a taken e-mail (400); a null e-mail, name or password fails the insert (500). It succeeds (201) exactly when none of these applies, adding one user under a fresh id and nothing else. The user has the body's e-mail, names, area and supervisor, the given role ('user' for null), a password that checks exactly for the given one, is active, created now and never logged in. |
| `Api.NullRoleStoredAsUser` | routes/api.py:356-364 | A body with a null role passes the presence check and creates a user with role 'user'. |
| `Api.CreatedUserReadable` | routes/api.py:327-376 | A created user can be read back, as stored, by an admin or by that user. |
| `Api.CreateUserKeepsEmailsUnique` | routes/api.py:352-353 | Creating a user through the API keeps stored e-mails unique. |
| `Reports.RequireSupervisorOrAdmin` | routes/reports.py:15-20 | Reports are refused, with their message, to every role other than supervisor and admin. |
| `Reports.Dashboard` | routes/reports.py:23-108 | The dashboard is refused to callers below supervisor. Over the team scope it shows the counts, totals, month figures and category groups. The status counts add up to at most the total. Top users appear only for an admin, as the five largest spenders. The recent list holds the ten newest expenses of the scope (all when fewer), each once, newest first, and none left out is newer than the last shown. |
| `Reports.TopUsers` | routes/reports.py:75-83 | The top-users rows are the five users with expenses (fewer if fewer exist) with their names, expense count and total, largest total first; no user left out has a larger total than the last row. |
| `Reports.Newest` | routes/reports.py:95 | The recent expenses are the `n` newest in scope, newest first, with no older one kept over a newer one. |
| `Reports.ByPeriod` | routes/reports.py:111-175 | The period report is refused to callers below supervisor. It keeps the team-scope expenses of the year (and month, when a non-zero month is given) and reports their count and sum. Monthly rows, each with its month number and English month name, appear only without a month. The available years are the non-zero expense years, in strictly ascending order. |
| `Reports.YearsAscending` | routes/reports.py:162-166 | The available years are exactly the distinct non-zero years of all expenses, in strictly ascending order. |
| `Reports.MonthlyRowsCoverYear` | routes/reports.py:143-160 | The twelve monthly rows add up to the year's count and total. |
| `Reports.ByCategory` | routes/reports.py:178-209 | The category report is refused to callers below supervisor, and otherwise groups exactly the team-scope expenses by category with count and sum. |
| `Reports.BudgetUsage` | routes/reports.py:247 | Budget usage is total / budget · 100 when the budget is truthy, and 0 otherwise. |
| `Reports.AreaRowFor` | routes/reports.py:222-247 | One area's row counts the area's users and their expenses, sums them, counts the pending and approved ones (together at most the count) and gives the budget share. |
| `Reports.ByArea` | routes/reports.py:212-250 | The area report is admin-only. It has one row per active area over the expenses of the area's users, and pending plus approved never exceeds the count. |
| `Reports.ChartData` | routes/reports.py:253-308 | Chart data has no role check. It returns monthly sums per requested month, sums per category, or counts per status, over the team scope; any other type gives no series. |
| `Reports.ChartScopeForPlainUser` | routes/reports.py:261-266 | A plain user, refused by every other report, gets chart data over the expenses of users who name them as supervisor. |
| `ExpenseRoutes.AllowedFile` | routes/expenses.py:14-16 | A name is allowed iff it has a '.' and the lower-cased text after the last '.' is an allowed extension. |
| `ExpenseRoutes.UpperCaseExtensionAllowed` | routes/expenses.py:16 | 'boleta.JPG' is allowed: the extension is lower-cased before the lookup. |
| `ExpenseRoutes.DotlessNameRefused` | routes/expenses.py:16 | A name without a '.' ('boleta') is refused. |
| `ExpenseRoutes.PdfRefused` | routes/expenses.py:16 | 'boleta.pdf' is refused: pdf is not an allowed extension. |
| `ExpenseRoutes.ReceiptName` | routes/expenses.py:42-45 | The stored receipt name is the timestamp, '_', then the sanitised name. |
| `ExpenseRoutes.KeptOcr` | routes/expenses.py:51-61 | Only a successful receipt analysis is kept; a raised error is swallowed. |
| `ExpenseRoutes.NoOcrEverKept` | routes/expenses.py:51-55 | Because the receipt reader always raises or fails, no expense is ever stored with OCR data. |
| `ExpenseRoutes.NewExpense` | routes/expenses.py:18-93 | Submission aborts, in order, on a missing receipt part, a missing latitude or longitude, an empty file name, and a disallowed extension. It then fails on an amount or coordinate that does not convert, or a missing client, category or reason. Each outcome happens exactly when the checks before it passed and its own fails; a failure adds no record. A success adds, under a fresh id, the submission record and nothing else. |
| `ExpenseRoutes.SavedReceipt` | routes/expenses.py:41-48 | The receipt is written to the upload folder exactly when the request passes the receipt, geolocation, file-name and extension checks, under its timestamped stored name. |
| `ExpenseRoutes.SavedBeforeInsert` | routes/expenses.py:41-93 | The receipt is saved before the insert: a failed insert leaves the saved file with no record naming it, and a submitted record names the saved file. |
| `ExpenseRoutes.Submission` | routes/expenses.py:63-76 | The stored expense is the caller's and pending, with the form's amount, client, category and reason, the stored receipt name, the coordinates as the numeric columns convert them, no address, dated today and created now. |
| `ExpenseRoutes.ValidatedUploadAllowed` | routes/expenses.py:14-16 | A sanitised name that the upload validator accepts under the configured extensions is also accepted by this route's extension check. |
| `ExpenseRoutes.SubmittedIsOwnAndEditable` | routes/expenses.py:64-79 | A submitted expense belongs to the submitter, is pending, and may be edited by them. |
| `ExpenseRoutes.MyExpenses` | routes/expenses.py:98-112 | The caller's list holds each of their expenses once, newest first, and nobody else's. |
| `Validators.KeepRutChars` | utils/validators.py:14 | Cleaning keeps only digits and k/K, never lengthens, and leaves a clean text unchanged. |
| `Validators.KeepRutCharsAppend` | utils/validators.py:14 | Cleaning a concatenation is concatenating the cleaned parts. |
| `Validators.CleanRut` | utils/validators.py:7-14 | `clean_rut` gives '' for a missing or empty value and otherwise the value with everything but digits and k/K removed. |
| `Validators.CleanRutIdempotent` | utils/validators.py:14 | Cleaning a cleaned RUT changes nothing. |
| `Validators.Group3Prepend` | utils/validators.py:30-34 | Adding a digit on the left adds a dot after it exactly when the digits to its right form complete groups of three. |
| `Validators.Group3Length` | utils/validators.py:30-36 | Grouping `n` digits adds `(n - 1) / 3` dots. |
| `Validators.Group3Clean` | utils/validators.py:30-36 | Cleaning removes exactly the dots grouping added. |
| `Validators.DotGroups` | utils/validators.py:30-34 | The formatting loop puts a dot before every third digit counted from the right, and cleaning its output gives back the digits. |
| `Validators.FormatRut` | utils/validators.py:17-36 | The formatted text is empty exactly when nothing survives cleaning. Otherwise it ends in '-' and the upper-cased check character, and the part before it cleans to the body. |
| `Validators.FormatRutRoundTrip` | utils/validators.py:17-36 | Cleaning a formatted RUT gives the cleaned input with its check character upper-cased. |
| `Validators.CleanFormatted` | utils/validators.py:36 | Cleaning 'grouped digits, dash, check character' gives the digits followed by the character. |
| `Validators.FormatRutIdempotent` | utils/validators.py:17-36 | Formatting a formatted RUT changes nothing. |
| `Validators.CalculateRutDv` | utils/validators.py:39-58 | The check character is a digit or K, and it brings the weighted sum (weights 2..7 from the right) to a multiple of 11. |
| `Validators.CheckDigitUnique` | utils/validators.py:51-58 | Exactly one check character completes a given weighted sum, namely the computed one. |
| `Validators.CheckDigitExample` | tests/test_validators.py:59-61 | The check digit of 12345678 is 5. |
| `Validators.ValidateRut` | utils/validators.py:61-95 | Validation fails with 'required' exactly on a missing or empty value; with 'too short' exactly when the cleaned value has under two characters; with 'bad format' exactly when the part before the last character is not all digits; with 'bad length' exactly when that part is not 7 or 8 digits; with 'bad check digit', naming the computed character, exactly when the last character differs from it. It passes iff the cleaned value is 7 or 8 digits followed by the computed check character, in either case for K. |
| `Validators.BadCheckDigitNamesExpected` | utils/validators.py:88-93 | A check-digit failure happens when the given character does not complete the weighted sum, and its message names the computed one. |
| `Validators.FormatRutPreservesValidity` | utils/validators.py:17-95 | A RUT is valid iff its formatted form is. |
| `Validators.DigitsThenCheck` | utils/validators.py:68-93 | Seven or eight digits and one check character pass exactly when the upper-cased character is the computed one; otherwise the failure names the computed one. |
| `Validators.LowerKAccepted` | utils/validators.py:82-92 | A lower-case k check character is accepted like K. |
| `Validators.ValidationExample` | tests/test_validators.py:14-34 | 12.345.678-5 is valid; with check digit 9 it is refused, naming 5. |
| `Validators.MatchesEmailIffShape` | utils/validators.py:105 | The scan that decides e-mails accepts exactly the language `[a-zA-Z0-9._%+-]+@[a-zA-Z0-9.-]+\.[a-zA-Z]{2,}`. |
| `Validators.ValidateEmail` | utils/validators.py:98-109 | E-mail validation fails with 'required' exactly on a missing or empty value. It passes iff the value, or the value less one trailing newline, is in the e-mail language. |
| `Validators.NoAtRejected` | tests/test_validators.py:86-89 | An address without '@' is refused as badly formed. |
| `FileValidators.ExtensionOf` | utils/file_validators.py:126-129 | A name has an extension iff it has a '.'; the extension is the dot-free text after the last '.'. |
| `FileValidators.ExtensionOfSuffix` | utils/file_validators.py:127 | The extension of `prefix + "." + ext` is `ext` when `ext` has no dot. |
| `FileValidators.ValidateFileUpload` | utils/file_validators.py:14-107 | The checks run in order: presence, extension of the sanitised name, size, sniffed type among four image types, then decoding. Each error arises exactly when the checks before it passed and its own fails, and carries what the source puts in its message: the allowed extensions, the limit in MB, the detected type, or the sniffer's or decoder's reason. A success reports the sanitised name, the size, the sniffed type and the decoded dimensions. |
| `FileValidators.MoreExtensionsStillAccept` | utils/file_validators.py:33-45 | Allowing more extensions never refuses an upload that was accepted, and describes it the same way. |
| `FileValidators.DefaultLimitIsTenMegabytes` | utils/file_validators.py:36-57 | The default limit is 10 MB: exactly 10·2^20 bytes pass the size check and one byte more fails it. |
| `FileValidators.GenerateUniqueFilename` | utils/file_validators.py:109-138 | The unique name is the name before the last '.', '_', the timestamp, then '_' and the user id exactly when the id is truthy, then '.' and the extension when that is non-empty. |
| `FileValidators.UserSuffix` | utils/file_validators.py:133 | The user suffix is empty exactly for a missing or zero id; otherwise it is '_' followed by digits that read back as the id. |
| `FileValidators.UniqueNameSeparatesUsers` | utils/file_validators.py:125-136 | For the same file and timestamp, two calls give the same name exactly when they carry the same user id (a missing id counting as 0): different users never collide. |
| `FileValidators.UniqueNameKeepsExtension` | utils/file_validators.py:126-136 | A non-empty extension is kept by the unique name. |
| `FileValidators.UniqueNameWithoutDot` | utils/file_validators.py:129-136 | A name without a '.' gets a unique name without one. |
| `FileValidators.TrailingDotDropped` | utils/file_validators.py:133-136 | A dot-free name followed by a final '.' loses the dot and has no extension: 'photo.' with user 7 becomes 'photo_<stamp>_7'. |
| `FileValidators.ScanFileForMalware` | utils/file_validators.py:140-182 | A scan is clean iff no pattern occurs in the lower-cased first 1024 bytes and the file passes the platform's check (no executable suffix on Windows, no executable bit elsewhere). A detection names the first pattern in list order that occurs; a pattern-free executable gets the platform's message; a read error reports not clean. |
| `FileValidators.PdfPatternNeverMatches` | utils/file_validators.py:162-166 | The pattern '%PDF-' is never found in lower-cased content. |
| `Ocr.ExtractKeywords` | services/ocr_service.py:103-123 | A category is reported iff one of its keywords occurs in the lower-cased text; only catalogue names are reported, each once, in catalogue order. |
| `Ocr.FirstReversed` | services/ocr_service.py:58 | The first reversed range of a class, if any; there is none iff no member is a range whose bounds are reversed. |
| `Ocr.Compile` | services/ocr_service.py:57-63 | A pattern compiles iff none of its character classes holds a reversed range; otherwise the error names such a range. |
| `Ocr.RangeRule` | services/ocr_service.py:58 | A class holding the single range `lo-hi` compiles exactly when `lo` does not come after `hi`. |
| `Ocr.DatePatternsRejected` | services/ocr_service.py:57-60 | Both date patterns read `[/-.]` as the range '/' to '.', which is reversed, so both fail with 'bad character range /-.'. |
| `Ocr.ConfidenceFor` | services/ocr_service.py:149-154 | Confidence is high iff amounts and a date were found, medium iff exactly one was, and low otherwise. |
| `Ocr.ConfidenceCountsFindings` | services/ocr_service.py:149-154 | The confidence level is the number of kinds of data found (amounts, a date), so finding more never lowers it. |
| `Ocr.ExtractDate` | services/ocr_service.py:57-63 | The date search always fails with the compiler's error 'bad character range /-.', whatever the text. |
| `Ocr.ProcessReceipt` | services/ocr_service.py:126-165 | Empty text gives the failed, low-confidence result with nothing found; any other text raises. |
| `Exceptions.Parent` | utils/exceptions.py:87-235 | A subclass has the same error code and status as the class it extends. |
| `Exceptions.CodeStatusTable` | utils/exceptions.py:28-129 | The code and status of each class: VALIDATION_ERROR 400, AUTH_ERROR 401, AUTHZ_ERROR 403, NOT_FOUND 404, CONFLICT 409, BUSINESS_RULE_ERROR 422, FILE_UPLOAD_ERROR 400. |
| `Exceptions.BaseDict` | utils/exceptions.py:15-24 | The base dictionary has `error`, `error_code` and `success`, with the message and false unless the payload overrides them. Every payload key is merged in, and no other key appears. |
| `Exceptions.ToDict` | utils/exceptions.py:35-228 | A class's own fields are added after the payload merge and win over it; all other keys come from the base dictionary. |
| `Exceptions.ClassFieldsWinOverPayload` | utils/exceptions.py:61-64 | A payload cannot override `resource`, `field` or `value` of a not-found or duplicate error. |
| `Exceptions.PayloadOverridesSuccess` | utils/exceptions.py:20-22 | Any payload that sets `success` to true makes the error dictionary report success true: the payload is merged over the base keys. |
| `Exceptions.OptionalFieldsOnlyWhenPresent` | utils/exceptions.py:35-39 | A validation error's `field` appears iff it is truthy. |
| `Exceptions.IntegrityFields` | utils/exceptions.py:176-187 | An integrity error's own fields are the parent's operation label INTEGRITY_CHECK and, only when truthy, the constraint. |
| `Exceptions.IntegrityCarriesOperation` | utils/exceptions.py:176-187 | An integrity error reports DATABASE_ERROR, operation INTEGRITY_CHECK and its constraint when truthy. |
| `Exceptions.ValidationError` | utils/exceptions.py:28-39 | A validation error keeps its message and field, with code VALIDATION_ERROR and status 400. Its dictionary has a `field` entry, holding the field, exactly when the field is non-empty. |
| `Exceptions.AuthenticationError` | utils/exceptions.py:41-45 | Default message 'Credenciales inválidas', status 401. |
| `Exceptions.AuthorizationError` | utils/exceptions.py:47-51 | Default message 'Permisos insuficientes', status 403. |
| `Exceptions.ResourceNotFoundError` | utils/exceptions.py:53-58 | The message is the resource (default 'Recurso') followed by ' no encontrado'. |
| `Exceptions.DuplicateResourceError` | utils/exceptions.py:104-109 | The message names the resource, the field and the quoted value, then ' ya existe'; status 409. |
| `Exceptions.IntegrityError` | utils/exceptions.py:176-181 | An integrity error is a database error with operation INTEGRITY_CHECK and status 500 unless given. |
| `Exceptions.ServiceSubclassError` | utils/exceptions.py:203-213 | OCR and e-mail errors are external-service errors naming 'OCR' or 'EMAIL', with status 500, code EXTERNAL_SERVICE_ERROR and the service name in their dictionary. |
| `Exceptions.NewApiError` | utils/exceptions.py:217-222 | Constructing an API error raises iff `error_code` is passed through; otherwise it has code API_ERROR and status 500 unless given. |
| `Exceptions.RateLimitError` | utils/exceptions.py:230-235 | Constructing a rate-limit error always raises. |
| `ErrorHandlers.IntegrityMessage` | utils/error_handlers.py:92-106 | On the lower-cased text: 'unique' with 'email' gives the e-mail message; else 'unique' with 'rut' the RUT message; else 'unique' the duplicate message; else 'foreign key', else 'not null', else the generic message. |
| `ErrorHandlers.IntegrityMessageIgnoresCase` | utils/error_handlers.py:92 | The classification does not depend on letter case. |
| `ErrorHandlers.IntegrityErrorFor` | utils/error_handlers.py:108-112 | The classified error keeps the original text as its constraint and reports DATABASE_ERROR, 500. |
| `ErrorHandlers.HandleAppException` | utils/error_handlers.py:12-41 | A path under '/api/' gets the error's dictionary as JSON; any other path gets an HTML page with the message. Both carry the error's status. |
| `ErrorHandlers.HandleHttpException` | utils/error_handlers.py:116-145 | An HTTP error on an '/api/' path gives JSON with `success` false, `status_code` the code, `error` the error's name and `message` its description; both forms carry the code. |
| `ErrorHandlers.GenericError` | utils/error_handlers.py:147-174 | An unhandled error becomes INTERNAL_ERROR 500. In production the message is the fixed text, whatever the cause; otherwise it is 'Error no manejado: ' followed by the cause's text. |
| `ErrorHandlers.ProductionHidesCause` | utils/error_handlers.py:165-168 | In production two different causes give the same response. |
| `ErrorHandlers.Dispatch` | utils/error_handlers.py:178-199 | Which handler an error reaches: application errors, integrity errors, HTTP errors and all others each go to their handler; HTTP 500 goes to the generic handler; other database errors make the handler itself fail. |
| `ErrorHandlers.DispatchStatus` | utils/error_handlers.py:12-174 | A handled error's response carries the error's own status, 500 for integrity and unknown errors, and the HTTP code for HTTP errors. |
| `ErrorHandlers.IntegrityJsonBody` | utils/error_handlers.py:76-114 | An integrity error on an '/api/' path answers 500 with the classified message, DATABASE_ERROR, success false, the constraint and operation INTEGRITY_CHECK. |

## Left out

- Flask routing, templates, `flash`, `redirect`, request parsing and `paginate`: listings are
  whole sequences, not pages, and a redirect is a refusal outcome.
- SQLAlchemy sessions and commit/rollback: a failed insert is an outcome that leaves the store
  unchanged. Storage-layer constraints are stated as invariants (`EmailsUnique`,
  `RutsUnique`) that the handlers keep; they are not enforced by the store.
- Concurrency: requests are applied one at a time.
- Clocks: timestamps are abstract numbers and every clock reading is a parameter.
- Amounts are integers: the `Numeric(10, 2)` columns and the `float` conversions in the
  serialisers are not modelled, and neither is ISO date formatting.
- `Reports.ByCategory`: the ORDER BY on the sum, and the average, minimum and maximum columns,
  are not modelled.
- `Reports.ByPeriod`: the ORDER BY on the expense date is not modelled. The month names are
  those of `calendar.month_name` in the default C locale; another locale gives other names.
- `ExpenseRoutes.NewExpense`: the store is the database only. The file the handler saves to
  the upload folder before the insert is stated by `ExpenseRoutes.SavedReceipt`. It is not
  removed when the insert fails. Its bytes, the folder path and a failing write are not
  modelled.
- `Exceptions.NewApiError` and `Exceptions.RateLimitError`: the `TypeError` text is the one
  Python 3.9 and later give when the module is imported as `utils.exceptions`. Earlier
  interpreters name the function only as `__init__()`.
- `Reports.ChartData`: the month labels, the float conversion, and how the twelve month
  windows are derived from the clock are not modelled; the windows are a parameter.
- `Reports.ByArea`: the monthly budget is taken as an integer and usage is stated over the reals.
- `Api.DeleteExpense`: a failed commit of the delete (500) is not modelled. Only pending
  expenses are deleted, and no approval row refers to a pending expense, so no constraint
  can fail.
- `Api.GetExpenses`: page metadata (`pages`, `current_page`, `per_page`) is not modelled.
- The serialised dictionaries (`serialize_expense`, `serialize_user`) are replaced by the
  record itself.
- `get_users`, `get_clients`, `get_categories` and `health_check` in routes/api.py:
  unconditional listings with no decision in them.
- The admin dashboard, `users_list`, `users_edit` and the area pages in routes/admin.py:
  unconditional reads and writes of form fields behind the admin check.
- The OCR engine call (`extract_text_from_image`), `extract_amounts` and `extract_rut`: the
  text the engine read is a parameter. No amount or RUT is ever observable anyway, because
  `process_receipt` raises on every non-empty text.
- `secure_filename`, python-magic, PIL and `os.access` are foreign code: their results are
  parameters of `FileValidators.ValidateFileUpload` and `FileValidators.ScanFileForMalware`.
  `os.name` is the `onWindows` flag.
- `FileValidators.ScanFileForMalware`: the content is a string, not bytes; the byte-level
  `lower()` is modelled on ASCII letters.
- `Strings.Lower` models Python's `str.lower` on ASCII and Latin-1 capitals only.
- `ExpenseLimitError` and `FileSizeError` format floats in their messages. Their kinds, codes
  and fields are modelled, but their message texts are left free.
- Keyword arguments other than a forwarded `error_code` are not modelled for the exception
  constructors.
- JSON key order in the response bodies is not modelled.
- The application factory in app.py does not register the REST blueprint (routes/api.py) and
  never installs the error handlers of utils/error_handlers.py. The `Api` and
  `ErrorHandlers` modules model that code as written, so their behaviour, including
  `Api.SelfApprovalThroughApi`, is not reachable in the application as assembled.
- `Ocr.DATE_PATTERN_ERROR`: Python's message for the date pattern also ends in " at position
  10". The model keeps only the part naming the range, because the position is only printed.
- Coordinates: the precision and range of the `Numeric(10, 8)` and `Numeric(11, 8)` columns
  are not modelled. Whether a value converts to a number is a parameter of the form and the
  body.
- What Flask does after `handle_database_error` itself raises is not modelled.
- `handle_validation_error` only delegates to the application-error handler; it is covered by
  `ErrorHandlers.Dispatch` on application errors.
- Logging (`log_request_info`, `setup_error_middleware`, utils/logging_config.py).
- Login, password hashing and configuration loading: a stored hash is abstract and distinct
  passwords have distinct hashes.
- A JSON body that is not an object (`request.get_json()` giving `None`) is not modelled:
  every REST body is a record of keys, each absent, null or given.
- Migration and seed scripts.
