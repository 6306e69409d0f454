# Budget ledger — a Dafny model

This project models the core of a shared household budgeting ledger. The ledger is a Next.js
application over a relational store.

A workspace is owned and shared by members who are owners, editors or viewers. It holds
months. Each month has budget types, and each type has budget items, some of them marked as
savings. Expenses are recorded against a month. Each expense has line items charged to
budget items, and a line can ask to be reimbursed. Its reimbursement then goes through the
statuses NONE, PENDING, APPROVED and REJECTED.

The model covers:

- **Server routes** (`app/api/...`):
  - the schema checks on request bodies;
  - the rows each route inserts;
  - the filters, orders and reshaping of its listings;
  - how each `catch` block maps an error to a 400, 401 or 500 response.
- **Client pages**:
  - the new-expense form, with its line-item editing, submit checks and payload;
  - the budget editor, with its totals, filtered item list, create and update requests, and the savings-toggle confirmation dialog;
  - the dashboard's totals, sections and progress bars;
  - the reimbursements page, with its query string, owner-only actions and pending total.
- **The session middleware's** redirect decision.
- **Client against server.** Lemmas connect what a page sends with what the route it calls accepts.

Modules:

| module | models |
|---|---|
| `Common`, `Seqs`, `Text`, `Schema` | options, JSON numbers, `parseFloat` results; filter/map/sum/sort on sequences; whitespace and UTF-16 length; the zod checks used |
| `Http` | the shared error-to-response rule of the route handlers |
| `Ledger` | the stored `expense_items` row and the role and status enumerations |
| `ExpensesRoute`, `MonthsRoute`, `WorkspacesRoute`, `BudgetItemsRoute`, `BudgetTypesRoute`, `ReimbursementsRoute` | the API routes |
| `NewExpensePage`, `BudgetPage`, `DashboardPage`, `ProgressBar`, `ReimbursementsPage`, `Middleware` | the pages, the progress bar component and the middleware |
| `ClientServer` | what pages send against what routes accept, including the two findings below |

The store, the network and the session are inputs:

- `hasUser`/`user` stand for the session;
- `dbError` and `failure` stand for an error a query returns;
- `newId` stands for the key the store assigns;
- `parse` stands for `parseFloat`, `isUrl` for zod's URL check, and `ilike` for the store's text match.

Pages whose component state changes step by step are classes:

- `NewExpensePage.NewExpenseForm`;
- `BudgetPage.SavingToggle`;
- `ReimbursementsPage.ReimbursementsView`.

The expense tables that the POST route appends to are the class `ExpensesRoute.ExpenseTables`. Requests a page sends are recorded in a sequence field (`sent`, `requests`).

## Model

| member | source | states |
|---|---|---|
| Common.ToJson | app/expense/new/page.tsx:148 | a parsed number becomes a JSON number with the same value; NaN becomes JSON `null`, never a number |
| Common.OptionalToJson | app/expense/new/page.tsx:150 | an `undefined` field is absent from the JSON body, and only then |
| Text.Utf16Length | app/api/workspaces/route.ts:65 | the length zod measures lies between the number of characters and twice that number |
| Schema.OrderOrZero | app/api/budget-items/route.ts:25 | `validated.order \|\| 0`: an absent order is stored as 0, a given integer as itself |
| Seqs.SortDesc | app/api/months/route.ts:16-17 | the store's descending `order`: the result is sorted by the key and is a permutation of the input |
| Seqs.Filter | app/api/expenses/route.ts:166-173 | `Array.filter`: keeps exactly the elements satisfying the test, never adds any (multiset inclusion) |
| Seqs.FilterKeepsOrder | app/api/reimbursements/route.ts:44-48 | filtering a sorted listing leaves it sorted |
| Http.StatusOf | app/api/expenses/route.ts:94-104 | 400 exactly for a validation error, 401 exactly for the message `Unauthorized`, 500 for every other error |
| Http.MessageOf | app/api/expenses/route.ts:94-104 | `Invalid input` for a validation error, otherwise the error's message, or the route's fallback when that is empty |
| Http.Failure | app/api/expenses/route.ts:94-104 | a `catch` block always answers with a failure: 400 exactly for a validation error, 401 exactly for `Unauthorized`, 500 for any other error; an error's own message is kept, and the message is never empty when the route has a fallback |
| Http.DatabaseErrorResponse | app/api/months/route.ts:32-36 | a database error gives 401 only for the message `Unauthorized`, else 500; an empty message is replaced by the fallback |
| Http.Listing | app/api/months/route.ts:7-38 | a listing handler answers 401 without a session, rethrows a database error, and otherwise returns its rows |
| ExpensesRoute.ValidCreateExpense | app/api/expenses/route.ts:6-29 | `createExpenseSchema`: UUID month, `dddd-dd-dd` date, a name, a non-negative total, at least one valid line, and URL attachments (a definition; its consequences are the next row) |
| ExpensesRoute.CreateRejectedUnlessWellFormed | app/api/expenses/route.ts:6-29 | an accepted body has a valid date, a non-empty name, a non-negative total and at least one line, each named with a non-negative amount |
| ExpensesRoute.StoredNote | app/api/expenses/route.ts:44 | an empty or absent note is stored as null, any other note as given |
| ExpensesRoute.NewExpenseRow | app/api/expenses/route.ts:38-49 | the expense row carries the body's month, date, name and total and the creating user |
| ExpensesRoute.ItemRow | app/api/expenses/route.ts:54-66 | a line's reimbursement amount is set iff it needs reimbursing, defaulting to its amount; `reimburse_to` is kept only for a reimbursable line |
| ExpensesRoute.ItemRows | app/api/expenses/route.ts:54-66 | one row per submitted line, in order, each linked to the new expense |
| ExpensesRoute.StoredItemsWellFormed | app/api/expenses/route.ts:54-66 | every stored line has a non-negative amount and a non-negative reimbursement amount exactly when it needs reimbursing |
| ExpensesRoute.ReimbursementNotBoundedByAmount | app/api/expenses/route.ts:18 | the server accepts and stores any non-negative reimbursement amount, even one above the line's amount |
| ExpensesRoute.AttachmentRow | app/api/expenses/route.ts:76-81 | an attachment keeps its URL and file name; a missing or zero size is stored as null |
| ExpensesRoute.AttachmentRows | app/api/expenses/route.ts:74-81 | no attachments list gives no rows; otherwise one row per attachment, in order |
| ExpensesRoute.ExpenseTables.Create | app/api/expenses/route.ts:31-106 | the POST handler: 401 or 400 change nothing; each insert that fails stops the later ones and answers with its error; success appends the expense, its lines and its attachments and returns the expense row |
| ExpensesRoute.HasLine | app/api/expenses/route.ts:169-171 | `items.some(p)`: true iff some line satisfies the test |
| ExpensesRoute.KeptByStatus | app/api/expenses/route.ts:165-173 | the status filter on one expense (a definition, characterised by `StatusRules`) |
| ExpensesRoute.StatusRules | app/api/expenses/route.ts:165-173 | status `POSTED` keeps an expense iff one of its lines is not reimbursable; any other status keeps it iff one of its lines is in that status |
| ExpensesRoute.Formatted | app/api/expenses/route.ts:177-183 | a listed expense carries the stored expense unchanged, with its creator's details added |
| ExpensesRoute.Fetched | app/api/expenses/route.ts:147-158 | the query returns exactly the non-deleted expenses of the month matching the text search, newest date first |
| ExpensesRoute.StatusFiltered | app/api/expenses/route.ts:162-174 | no status keeps every expense; a status keeps exactly those passing the status rule, in the same order |
| ExpensesRoute.FormatAll | app/api/expenses/route.ts:176-184 | formatting maps each expense to its listed form, one for one and in order |
| ExpensesRoute.KeptRows | app/api/expenses/route.ts:147-174 | the expenses left after the query and the status filter are exactly the stored ones passing every filter, with dates never increasing |
| ExpensesRoute.ListExpenses | app/api/expenses/route.ts:147-184 | every listed expense is stored, not deleted, in the requested month, matches the text search and passes the status rule; every stored expense passing all of these is listed; dates never increase |
| ExpensesRoute.GetExpenses | app/api/expenses/route.ts:109-196 | 401 without a session; a database error is answered as the `catch` block answers it (401 or 500, its message or `Failed to fetch expenses`); with a session and no error, always success with exactly the listing |
| MonthsRoute.MonthKey | app/api/months/route.ts:16-17 | the two-column order `year` then `month` as one key (a definition, characterised by the next row) |
| MonthsRoute.MonthKeyIsCalendarOrder | app/api/months/route.ts:16-17 | the sort key orders months by year, then by month |
| MonthsRoute.ListMonths | app/api/months/route.ts:13-22 | the listing is a permutation of the workspace's months (of all months when none is given), in descending key order |
| MonthsRoute.FilterAll | app/api/months/route.ts:20-22 | a filter every row passes leaves the rows unchanged |
| MonthsRoute.ListedNewestFirst | app/api/months/route.ts:16-17 | the listing is in descending order of year, then month |
| MonthsRoute.GetMonths | app/api/months/route.ts:7-38 | 401 without a session; a database error is answered as the `catch` block answers it (401 or 500, its message or `Failed to fetch months`); with a session and no error, always success with exactly the listing |
| MonthsRoute.ValidCreateMonth | app/api/months/route.ts:41-48 | `createMonthSchema`: UUID workspace, integer year in 2000..2100 and month in 1..12, non-negative income and optional carry-over (a definition; `NewMonthRow` states what an accepted body stores) |
| MonthsRoute.NewMonthRow | app/api/months/route.ts:61-73 | the inserted month has a year in 2000..2100, a month in 1..12, a non-negative income, a carry-over defaulting to 0, and a title only when one was given |
| MonthsRoute.CreateMonth | app/api/months/route.ts:50-99 | 401 without a session; 400 for a body that fails the schema; a database error passes through; success iff all pass, returning the new row |
| MonthsRoute.CreatedMonthIsListed | app/api/months/route.ts:61-73 | a created month appears in its workspace's listing |
| WorkspacesRoute.Flattened | app/api/workspaces/route.ts:39-47 | a membership becomes its workspace's id, name and creation time with the member's role |
| WorkspacesRoute.FlattenAll | app/api/workspaces/route.ts:39-47 | one listed workspace per membership, in order |
| WorkspacesRoute.PresentFlattened | app/api/workspaces/route.ts:37-47 | memberships without a workspace are dropped; every other one is flattened |
| WorkspacesRoute.ListWorkspaces | app/api/workspaces/route.ts:29-48 | no memberships gives an empty list; otherwise a permutation of the flattened memberships that have a workspace, newest first |
| WorkspacesRoute.ListedRoleIsMembershipRole | app/api/workspaces/route.ts:39-47 | each listed workspace's role is the role of a membership in that workspace |
| WorkspacesRoute.GetWorkspaces | app/api/workspaces/route.ts:6-61 | 401 without a session; a database error is answered as the `catch` block answers it (401 or 500, its message or `Failed to fetch workspaces`); with a session and no error, always success with exactly the listing |
| WorkspacesRoute.ValidWorkspaceName | app/api/workspaces/route.ts:64-66 | `createWorkspaceSchema`: 1 to 100 UTF-16 code units (a definition, bounded by the next row) |
| WorkspacesRoute.WorkspaceNameBounds | app/api/workspaces/route.ts:64-66 | an empty name or one longer than 100 characters is refused; 1 to 50 characters are always accepted |
| WorkspacesRoute.CreateWorkspace | app/api/workspaces/route.ts:68-103 | 401 without a session; 400 for an invalid name; a database error passes through; success iff all pass |
| BudgetItemsRoute.ValidCreateItem | app/api/budget-items/route.ts:5-11 | `createItemSchema`: UUID type, a name, a non-negative amount and an optional integer order (a definition, characterised by `CreatedItemWellFormed` and `ClientServer.ItemRequestBody`) |
| BudgetItemsRoute.NewItemRow | app/api/budget-items/route.ts:19-27 | the inserted item has a non-negative amount, order defaulting to 0, and is a saving iff `isSaving` was true |
| BudgetItemsRoute.CreateItem | app/api/budget-items/route.ts:13-49 | 401 without a session; 400 for a body that fails the schema; a database error passes through; success iff all pass, returning the new row |
| BudgetItemsRoute.CreatedItemWellFormed | app/api/budget-items/route.ts:5-11 | a created item never has a negative amount; a fractional order is refused with 400 |
| BudgetTypesRoute.ValidCreateType | app/api/budget-types/route.ts:5-9 | `createTypeSchema`: UUID month, a name and an optional integer order (a definition) |
| BudgetTypesRoute.NewTypeRow | app/api/budget-types/route.ts:17-23 | the inserted type keeps the month and name, with order defaulting to 0 |
| BudgetTypesRoute.CreateType | app/api/budget-types/route.ts:11-45 | 401 without a session; 400 for a body that fails the schema; a database error passes through; success iff all pass, returning the new row |
| ReimbursementsRoute.EffectiveStatus | app/api/reimbursements/route.ts:9 | an absent or empty status means PENDING; any other is used as given |
| ReimbursementsRoute.ByStatus | app/api/reimbursements/route.ts:34-36 | `ALL` keeps every line; any other status keeps the lines in that status |
| ReimbursementsRoute.ByMonth | app/api/reimbursements/route.ts:42-48 | a month keeps the lines whose expense is in that month; none keeps all |
| ReimbursementsRoute.ListReimbursements | app/api/reimbursements/route.ts:12-48 | a line is listed iff it needs reimbursing, is in the effective status (unless `ALL`) and its expense is in the requested month |
| ReimbursementsRoute.AbsentStatusMeansPending | app/api/reimbursements/route.ts:9 | omitting the status or sending an empty one lists the same as asking for PENDING |
| ReimbursementsRoute.IsStatusName | types/database.ts:295 | the values of the `reimburse_status` enum (a definition) |
| ReimbursementsRoute.StatusNamesAreTheEnum | types/database.ts:295 | a text is an enum value iff it is the name of a status |
| ReimbursementsRoute.StatusAccepted | app/api/reimbursements/route.ts:34-36 | the status the query can compare with the enum column: `ALL` (no comparison) or an enum value (a definition) |
| ReimbursementsRoute.EnumCastMessage | app/api/reimbursements/route.ts:35-40 | the store's error for a text that is no enum value: never empty and never `Unauthorized`, so it is answered with 500 |
| ReimbursementsRoute.QueryError | app/api/reimbursements/route.ts:34-40 | the query fails with the store's own error if any; otherwise it fails iff the status is not accepted, with the enum cast message |
| ReimbursementsRoute.ListingKeepsOrder | app/api/reimbursements/route.ts:31-48 | the filters keep the store's order and take nothing twice |
| ReimbursementsRoute.GetReimbursements | app/api/reimbursements/route.ts:4-60 | 401 without a session; a database error is answered as the `catch` block answers it (`Failed to fetch reimbursements` as fallback); a status that is neither `ALL` nor an enum value gives 500 with the enum cast message; success iff there is a session, no database error and an accepted status, and then exactly the listing |
| ReimbursementsRoute.UnknownStatusIsServerError | app/api/reimbursements/route.ts:34-58 | `?status=FOO` and `?status=POSTED` are answered with 500 |
| NewExpensePage.WithLineAdded | app/expense/new/page.tsx:81-86 | adding appends one blank line and keeps the others |
| NewExpensePage.WithoutLine | app/expense/new/page.tsx:88-90 | removing drops exactly the line at that index; an index outside the list changes nothing |
| NewExpensePage.RemoveTakesOutOneLine | app/expense/new/page.tsx:88-90 | removal shortens the list by one, keeps the lines before the index and shifts the ones after |
| NewExpensePage.RemoveUndoesAdd | app/expense/new/page.tsx:81-90 | removing the line just added gives back the original lines |
| NewExpensePage.RemoveKeepsALine | app/expense/new/page.tsx:320 | since the remove control appears only with two or more lines, at least one line always remains |
| NewExpensePage.Updated | app/expense/new/page.tsx:92-106 | an edit changes only its field; switching reimbursement on pre-fills the amount, switching it off clears it |
| NewExpensePage.FlagEditSetsDefault | app/expense/new/page.tsx:96-103 | the reimbursement flag edit sets the flag and the default reimbursement amount |
| NewExpensePage.Incomplete | app/expense/new/page.tsx:121 | a complete line has a non-empty name, budget item and amount |
| NewExpensePage.ReimbursementRefused | app/expense/new/page.tsx:127-136 | a line that is not reimbursable is never refused; a reimbursable line that passes has a parsed reimbursement between 0 and its amount (when that parses) |
| NewExpensePage.CheckReimbursements | app/expense/new/page.tsx:126-136 | the loop passes iff no reimbursable line has a missing, negative or larger-than-amount reimbursement |
| NewExpensePage.AcceptedReimbursementBounded | app/expense/new/page.tsx:127-135 | a reimbursable line that passes has a reimbursement between 0 and its amount |
| NewExpensePage.PayloadItemOf | app/expense/new/page.tsx:145-151 | a payload line carries the parsed amount, and a reimbursement amount exactly when reimbursable |
| NewExpensePage.PayloadOf | app/expense/new/page.tsx:140-151 | the payload keeps month, date and name, drops an empty note, and has one item per line in order |
| NewExpensePage.NewExpenseForm.constructor | app/expense/new/page.tsx:29-41 | the form starts with no month, today's date, empty fields and one blank line |
| NewExpensePage.NewExpenseForm.WorkspaceChanged | app/expense/new/page.tsx:53-65 | a new workspace clears the month, the budget items and the form back to one blank line; no workspace changes nothing |
| NewExpensePage.NewExpenseForm.AddLineItem | app/expense/new/page.tsx:81-86 | the lines become `WithLineAdded` of the old lines; nothing else changes |
| NewExpensePage.NewExpenseForm.RemoveLineItem | app/expense/new/page.tsx:88-90 | the lines become `WithoutLine` of the old lines; nothing else changes |
| NewExpensePage.NewExpenseForm.UpdateLineItem | app/expense/new/page.tsx:92-106 | only the edited line changes, to `Updated`; nothing else changes |
| NewExpensePage.NewExpenseForm.Submit | app/expense/new/page.tsx:108-152 | refuses for no month, else for a blank name, else for an incomplete line, else for a bad reimbursement, each iff its condition; otherwise posts `PayloadOf` the form |
| NewExpensePage.PostedPayloadChecked | app/expense/new/page.tsx:111-151 | a posted payload has at least one line and every reimbursable line's reimbursement is a number between 0 and its amount |
| BudgetPage.CanEdit | app/budget/page.tsx:48 | editing is allowed iff the member's role is known and is not viewer |
| BudgetPage.TypeTotal | app/budget/page.tsx:290-294 | a type with no items totals 0; a total is never negative when no amount is |
| BudgetPage.TypeTotalCons | app/budget/page.tsx:290-294 | a type's total grows by an item's amount exactly when the item belongs to it |
| BudgetPage.GrandTotal | app/budget/page.tsx:405 | the grand total is never negative when no amount is |
| BudgetPage.GrandTotalCons | app/budget/page.tsx:405 | adding an item adds its share to the grand total |
| BudgetPage.ShareOfForeignItem | app/budget/page.tsx:405 | an item of no listed type adds nothing to the grand total |
| BudgetPage.ShareOfListedItem | app/budget/page.tsx:405 | an item of a listed type (ids distinct) is counted exactly once |
| BudgetPage.GrandTotalCountsEveryItem | app/budget/page.tsx:405 | with distinct type ids and every item typed, the grand total is the sum of all item amounts |
| BudgetPage.ZeroTotals | app/budget/page.tsx:405 | with no items the grand total is 0 |
| BudgetPage.SelectedTypeItems | app/budget/page.tsx:281-287 | an item is shown iff it belongs to the selected type and, with the savings filter on, is a saving |
| BudgetPage.SavingsFilterOnlyRemoves | app/budget/page.tsx:281-287 | the savings filter only hides items; without it the list is the type's items in order |
| BudgetPage.FilterSameTest | app/budget/page.tsx:281-287 | two filters with the same test give the same list |
| BudgetPage.NewItemOrder | app/budget/page.tsx:181 | a new item's order is at most the number of items |
| BudgetPage.NewItemOrderCounts | app/budget/page.tsx:181 | the order counts the items of the type: one more for each further item of it |
| BudgetPage.AmountRefused | app/budget/page.tsx:170-171 | an amount is accepted iff it parses to a non-negative number |
| BudgetPage.CreateType | app/budget/page.tsx:122-136 | nothing is sent for a blank name or no month; otherwise the type goes at order = number of types |
| BudgetPage.CreateItem | app/budget/page.tsx:167-191 | nothing is sent for a blank name or no type; a NaN or negative amount is refused; otherwise the item is sent with the parsed amount at order = items of the type |
| BudgetPage.UpdateItem | app/budget/page.tsx:193-216 | nothing is sent for a blank name; a NaN or negative amount is refused; otherwise the new name, amount and savings flag are sent |
| BudgetPage.SavingToggle.constructor | app/budget/page.tsx:73-77 | no dialog and nothing sent at the start |
| BudgetPage.SavingToggle.ToggleSavingDirect | app/budget/page.tsx:243-253 | sends exactly one savings update; nothing else changes |
| BudgetPage.SavingToggle.HandleToggleSaving | app/budget/page.tsx:218-241 | an unknown item changes nothing; turning off a saving that has expenses opens the dialog with the preview and sends nothing; any other toggle is sent at once |
| BudgetPage.SavingToggle.HandleConfirmToggle | app/budget/page.tsx:255-262 | closes the dialog and sends the pending update iff one is pending |
| BudgetPage.SavingToggle.HandleCancelToggle | app/budget/page.tsx:264-268 | closes the dialog and sends nothing |
| BudgetPage.ConfirmedToggleMatchesDirect | app/budget/page.tsx:218-262 | toggling off a saving with expenses and then confirming sends the same single update as a direct toggle |
| BudgetPage.CancelledToggleSendsNothing | app/budget/page.tsx:218-268 | toggling off and cancelling leaves the dialog closed and sends nothing |
| DashboardPage.TotalBudget | app/page.tsx:56 | the items' budget amounts added up (a definition) |
| DashboardPage.TotalPosted | app/page.tsx:57 | the items' posted spend added up (a definition) |
| DashboardPage.TotalApprovedReimbursed | app/page.tsx:58 | the items' approved reimbursed spend added up (a definition) |
| DashboardPage.TotalRemaining | app/page.tsx:59 | the total budget less both spend totals (a definition, characterised by the next row) |
| DashboardPage.TotalRemainingIsSumOfItems | app/page.tsx:56-59 | total remaining equals the sum over items of budget less posted less approved reimbursed spend |
| DashboardPage.RemainingNegativeOnlyWhenOverspent | app/page.tsx:99 | remaining is never shown negative when no item is overspent, and is when every item is |
| DashboardPage.SumNegative | app/page.tsx:99 | a sum of negative parts is negative |
| DashboardPage.Sections | app/page.tsx:117-122 | at most one section per budget type |
| DashboardPage.SectionsSound | app/page.tsx:117-122 | every section belongs to a listed type and holds exactly that type's items, in order, and never none |
| DashboardPage.SectionsFollowTypes | app/page.tsx:117-122 | the sections are, in order, the sections of the types that have items, taken in the order of the types |
| DashboardPage.SectionsComplete | app/page.tsx:117-122 | every listed type that has items gets its section; types without items are skipped |
| DashboardPage.ItemDrawnUnderItsType | app/page.tsx:117-122 | every item of a listed type appears in its type's section |
| DashboardPage.ItemBar | app/page.tsx:140-152 | an item's bar is red iff it shows the over-budget badge; yellow only past 80% of its budget |
| ProgressBar.Percentage | components/ProgressBar.tsx:8 | 0 for a non-positive total; otherwise the spent share in percent, capped at 100 |
| ProgressBar.FullBarMeansBudgetReached | components/ProgressBar.tsx:8 | the bar is full iff spending has reached the budget |
| ProgressBar.IsWarning | components/ProgressBar.tsx:9 | above 80 percent and not over budget (a definition, used by `BarColour`) |
| ProgressBar.BarColour | components/ProgressBar.tsx:9-20 | red iff over budget; else yellow iff above 80%; else green |
| ProgressBar.ColourTracksSpending | components/ProgressBar.tsx:8-20 | yellow means spending above four fifths of a positive budget; green means at most that |
| Middleware.IsPublicRoute | middleware.ts:38-43 | every path under `/api/auth` is public (a prefix test, so `/api/authx` too); any other `/api/` path is not |
| Middleware.Decide | middleware.ts:38-58 | no session on a private path redirects to login; a session on the login page redirects home; everything else passes |
| Middleware.RedirectTargets | middleware.ts:45-56 | redirects only ever go to the login page or home |
| Middleware.LoginPageOpenWithoutSession | middleware.ts:38-49 | the login page is reachable without a session |
| Middleware.NoRedirectLoop | middleware.ts:38-56 | following a redirect is never redirected again |
| Middleware.RedirectReasons | middleware.ts:38-56 | public paths pass without a session; a signed-in user is redirected only from the login page |
| ReimbursementsPage.ParamValue | app/api/reimbursements/route.ts:9-10 | reading a query parameter finds it iff it was appended, with an appended value |
| ReimbursementsPage.QueryParams | app/reimbursements/page.tsx:58-64 | the query carries the status unless the filter is ALL, and the month when one is selected |
| ReimbursementsPage.IsOwner | app/reimbursements/page.tsx:35 | only a known OWNER role is an owner; editors, viewers and an unknown role are not |
| ReimbursementsPage.RowActionFor | app/reimbursements/page.tsx:227-248 | a PENDING line shows approve/reject to owners and an owner-only note to others; other lines show nothing |
| ReimbursementsPage.PendingSummary | app/reimbursements/page.tsx:150-158 | the pending total is shown iff the filter is PENDING and there are lines |
| ReimbursementsPage.PendingTotalNonNegative | app/reimbursements/page.tsx:150-158 | the pending total is never negative when amounts are not |
| ReimbursementsPage.PendingTotalOfOneLine | app/reimbursements/page.tsx:150-158 | one line's pending total is its reimbursement amount (0 when unset) |
| ReimbursementsPage.PendingTotalGrows | app/reimbursements/page.tsx:150-158 | each further line adds its reimbursement (0 when unset) to the pending total |
| ReimbursementsPage.ReimbursementsView.constructor | app/reimbursements/page.tsx:30-33 | the page starts on the PENDING filter with no month and no lines |
| ReimbursementsPage.ReimbursementsView.WorkspaceChanged | app/reimbursements/page.tsx:37-53 | lines are always cleared; a set workspace also clears the month and resets the filter to PENDING |
| ReimbursementsPage.ReimbursementsView.HandleApprove | app/reimbursements/page.tsx:75-88 | an owner sends an approval; anyone else gets an alert and nothing is sent |
| ReimbursementsPage.ReimbursementsView.HandleReject | app/reimbursements/page.tsx:90-103 | an owner sends a rejection; anyone else gets an alert and nothing is sent |
| ReimbursementsPage.NonOwnerSendsNothing | app/reimbursements/page.tsx:75-103 | a non-owner never sends a review request |
| ClientServer.LineAccepted | app/api/expenses/route.ts:13-20 | what the item schema asks of a posted line: a name, a UUID budget item, a non-negative amount, a reimbursement left out or non-negative (a definition) |
| ClientServer.ServerItem | app/expense/new/page.tsx:145-151 | the item schema accepts a posted line iff it is acceptable (a NaN amount arrives as `null` and is refused); no `reimburseTo` is sent |
| ClientServer.ToServerInput | app/expense/new/page.tsx:140-151 | the posted body has no `totalAmount` and no attachments, and each of its lines passes iff acceptable |
| ClientServer.FormExpenseAlwaysRefused | app/api/expenses/route.ts:11 | as written, no body the form posts passes the server schema |
| ClientServer.TotalOf | app/api/expenses/route.ts:11 | the corrected total is a number iff every line amount is, and then it is the sum of the amounts (non-negative when they all are) |
| ClientServer.CorrectedServerInput | app/api/expenses/route.ts:11 | the corrected body carries `totalAmount` iff every line amount parsed, as their sum; every other field is the posted body's |
| ClientServer.PayloadAccepted | app/api/expenses/route.ts:6-29 | what the expense schema asks of the form's payload once the total is sent (a definition) |
| ClientServer.CorrectedBodyAcceptedIff | app/api/expenses/route.ts:6-29 | with the total sent, the server accepts the body iff the payload is acceptable |
| ClientServer.CorrectedFormExpenseAccepted | app/api/expenses/route.ts:6-29 | with the total sent, a form that passes its own checks (and carries UUID ids and non-negative amounts) passes the server schema |
| ClientServer.ItemRequestBody | app/budget/page.tsx:177-183 | the route's schema accepts the editor's item request iff its type id is a UUID, its name is non-empty and its amount non-negative |
| ClientServer.ItemRequestStoredAsSent | app/api/budget-items/route.ts:19-27 | an accepted item request is stored with exactly the fields the editor sent |
| ClientServer.EditorItemAccepted | app/api/budget-items/route.ts:5-27 | an item the editor sends passes the route schema and is stored with the editor's order and savings flag |
| ClientServer.EditorTypeAccepted | app/api/budget-types/route.ts:5-23 | a type the editor sends passes the route schema and is stored at order = number of types |
| ClientServer.AllFilterListsOnlyPending | app/reimbursements/page.tsx:58-64 | as written, the ALL filter lists the same as PENDING: only pending lines |
| ClientServer.AllFilterHidesApprovedLine | app/api/reimbursements/route.ts:9 | as written, an approved reimbursable line is not listed under ALL |
| ClientServer.IntendedQueryParams | app/reimbursements/page.tsx:58-64 | the corrected query always carries the filter's status, ALL included |
| ClientServer.IntendedAllListsEveryStatus | app/api/reimbursements/route.ts:34-36 | corrected, ALL lists every reimbursable line of the month whatever its status |
| ClientServer.IntendedOtherFiltersUnchanged | app/reimbursements/page.tsx:58-64 | the correction changes nothing for the PENDING, APPROVED and REJECTED filters |
| ClientServer.PendingSummaryCountsPendingLines | app/reimbursements/page.tsx:150-158 | the lines under the pending total are all pending and reimbursable |

## Left out

- The network, the session and the store are not modelled as such: a session is `hasUser`/`user`, a store error is `dbError`/`failure`, a new key is `newId`, and rows read back are given lists.
- Request bodies are typed: malformed JSON and fields of the wrong JSON type are not modelled. Only absent, null and numeric values of number fields are.
- zod's URL check (`isUrl`), `parseFloat` (`parse`) and the store's `ilike` match (`ilike`) are parameters. Infinity, partial parses and floating-point rounding are not modelled; amounts are exact reals.
- The UUID check is the 8-4-4-4-12 hexadecimal shape; zod's version and variant digits are not checked.
- Dates read back from the store are day numbers. The inserted expense date stays the text the client sent. `new Date()` is the `today` parameter.
- Seqs.SortDesc: the store's order for equal keys (stability) is not specified.
- ExpensesRoute.KeptByStatus: a status that is not a `reimburse_status` name matches no line. The expense route filters by status in JavaScript, so no error is raised for it.
- ReimbursementsRoute.ByStatus: for a status that is neither `ALL` nor an enum value it keeps no line. The route never lists in that case: `GetReimbursements` answers 500 first.
- ReimbursementsRoute.ListReimbursements: for a status that is neither `ALL` nor an enum value it lists nothing. `GetReimbursements` answers 500 in that case, so this listing is never returned.
- ExpensesRoute.GetExpenses: a `monthId` that is not UUID text, or a search text that breaks the store's `or` filter syntax, makes the store refuse the query. The model takes that refusal as the `dbError` input rather than deriving it.
- MonthsRoute.GetMonths: a `workspaceId` that is not UUID text makes the store refuse the query. The model takes that refusal as the `dbError` input.
- WorkspacesRoute.ListWorkspaces: the order of workspaces created at the same instant is not stated.
- ExpensesRoute.ExpenseTables.Create: the three inserts are not a transaction, as in the code. Generated columns (ids, timestamps, default statuses) are not stored.
- The dashboard's per-item `posted_spend`, `approved_reimbursed_spend`, `remaining` and `overBudget`, and the savings-toggle preview, are computed by the store. Here they are inputs.
- The approve and reject database functions, workspace creation's database function and the budget page's delete and rename actions are not part of this model; only the requests sent are recorded.
- The reload after a mutation (`loadBudget`, `loadReimbursements`), loading flags, navigation, rendering, `toFixed` formatting, and alerts other than the owner-only ones are left out.
- The budget page's workspace-reset and first-type auto-selection effects are not modelled.
- NewExpensePage.NewExpenseForm.UpdateLineItem: requires an index inside the list. The page only edits rendered lines, and JavaScript's sparse-array behaviour for other indices is not modelled.
- ProgressBar.BarColour: `overBudget` is a boolean; an omitted prop is taken as false.
- The middleware's route matcher configuration and its cookie refresh are left out. `Decide` starts from whether a user is present.

## Findings

| source | as written | input that shows it | evidently intended | confidence | as-written member | corrected member |
|---|---|---|---|---|---|---|
| app/api/expenses/route.ts:11 | the route requires `totalAmount`, but the new-expense page's body (app/expense/new/page.tsx:140-151) never includes it | any form submission, e.g. one line "Lunch" of amount "12" | the page sends the sum of its line amounts as `totalAmount` | not executed | ClientServer.FormExpenseAlwaysRefused | ClientServer.CorrectedFormExpenseAccepted |
| app/reimbursements/page.tsx:59-61 | the ALL filter sends no `status`, and the route then defaults to PENDING (app/api/reimbursements/route.ts:9) | filter ALL with one APPROVED reimbursable line: the line is not listed | ALL sends `status=ALL`, which lists every status | not executed | ClientServer.AllFilterListsOnlyPending | ClientServer.IntendedAllListsEveryStatus |
