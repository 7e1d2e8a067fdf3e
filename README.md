# Budget tracker client: a Dafny model of its list and record rules

The application is a React client for a school budget sheet. Its projects have an id, a name, a
group, an owner, a budget, an amount spent, a category and a status (Active, Closed or
Warning). The client shows totals and charts over them, lets an admin add, edit and delete
projects and record expenses, and keeps a log of sign-in attempts. A Google Apps Script web
app behind it stores the data.

This project models the rules the client applies to that data, with the gateway's answers
passed in as parameters:

- **App** (`app.dfy`). The session state of the root component is the class `App.Session`,
  and its handlers are methods. The list updates handed to `setProjects` are functions:
  update, append, delete, and the expense update with its Warning rule. The file also holds
  the role gating of the navigation and of the rendered page.
- **Reconcile** (`reconcile.dfy`). The merge of the sheet's projects with the fallback
  catalog. The sheet decides which projects exist, their order and what they spent. The
  catalog fills in an empty name, group or category, and a budget of zero or below.
- **Totals** (`totals.dfy`). The shared reduces and filters: the budget and spent sums, the
  guarded percentage, and `getStats`.
- **BudgetDashboard** (`budget_dashboard.dfy`). The three id-range cards and the group filter.
- **Home** (`home.dfy`). The pie chart. Its reduce is the method `Home.PieChartData`, which
  updates an accumulator step by step and then sorts it. It is proved equal to the
  specification `Home.PieSpec`.
- **ReportExport** (`report_export.dfy`). The report rows, the overview box and the footer.
- **ProjectManager** (`project_manager.dfy`). The add/edit form (class `ProjectForm`), the
  id of a new project, the numeric parse, and the progress bar.
- **RecordExpense** (`record_expense.dfy`). The parse gate in front of recording, the handling
  of the answer (class `ExpenseForm`), and the dropdown filter.
- **Login** (`login.dfy`). The classification of the trimmed credentials and the calls made
  to record the attempt and sign in.
- **ChangePasswordModal** (`change_password.dfy`). The ordered guards and the result message
  (class `PasswordForm`).
- **AccessLogs** (`access_logs.dfy`). The newest-first copy of the log.
- **Text** (`text.dfy`). `trim`, `parseInt` and the decimal rendering of integers, which the
  forms rely on.
- **Types** (`types.dfy`). The records and enumerations of `types.ts`.

Money is an unbounded `int`, percentages are `real`, and timestamps are integers
(milliseconds).

## Model

| member | source | states |
|---|---|---|
| Text.Trim | components/Login.tsx:30-31 | the result is the input with exactly its leading and its trailing white space cut off: everything cut is white space, and neither end of what is left is |
| Text.TrimIdempotent | components/Login.tsx:30-31 | trimming twice is trimming once |
| Text.ParseInt | components/RecordExpense.tsx:31-32 | parseInt gives a number exactly when the text, after leading white space, starts with an optional sign and a digit |
| Text.ToDecimal | components/ProjectManager.tsx:52 | toString of an integer is non-empty and has no white space at either end |
| Text.ParseIntIgnoresTail | components/RecordExpense.tsx:31-32 | parseInt stops at the first non-digit: a rendered integer followed by any text not starting with a digit still reads as that integer (so "12abc" passes the gate as 12) |
| Text.ParseIntToDecimal | components/ProjectManager.tsx:52-55 | parseInt reads back every integer that toString renders |
| Totals.Filter | components/BudgetDashboard.tsx:37 | the filtered list is no longer than the input and every element passes the predicate |
| Totals.FilterCounts | components/BudgetDashboard.tsx:37 | filter keeps exactly the accepted projects, each as often as it occurs |
| Totals.FilterConcat | components/BudgetDashboard.tsx:37 | filter distributes over concatenation, so the kept projects keep their relative order |
| Totals.SumsConcat | components/BudgetDashboard.tsx:17-18 | the budget and spent sums of a concatenation are the sums of the parts |
| Totals.SumsIgnoreOrder | components/BudgetDashboard.tsx:17-18 | two lists with the same projects, in any order, have the same sums |
| Totals.FilterSplitsSums | components/BudgetDashboard.tsx:17-18 | a filter and its complement split the sums between them |
| Totals.Percent | components/BudgetDashboard.tsx:20 | with a positive budget, percent × budget = spent × 100; otherwise 0; between 0 and 100 when 0 ≤ spent ≤ budget |
| Totals.Summarize | components/BudgetDashboard.tsx:16-22 | getStats: the budget and spent sums, remaining = budget − spent (possibly negative), the guarded percent, and all zeros for an empty list (Home and the report's overview use the same rules) |
| Totals.SummarizeIgnoresOrder | components/BudgetDashboard.tsx:16-22 | the summary does not depend on the order of the projects |
| Reconcile.FirstIndex | App.tsx:44 | the index of the first catalog entry with the id, or the length when there is none |
| Reconcile.FindById | App.tsx:44 | no match exactly when no catalog entry has the id; a match is the first entry with the id |
| Reconcile.Merge | App.tsx:41-71 | an empty sheet gives the catalog; otherwise one entry per sheet entry in order; an unmatched entry is passed through; id, owner, status and spent come from the sheet; a matched entry takes name, group and category from the catalog when the sheet's are empty, and budget when the sheet's is not positive |
| Reconcile.MergeKeepsSpent | App.tsx:57 | the merged list's total spent is the sheet's |
| Reconcile.MergeIdempotent | App.tsx:42-62 | merging a merged list again against the same catalog changes nothing |
| App.UpdateById | App.tsx:131 | same length; every entry with the id is replaced, the others are kept in place |
| App.Append | App.tsx:136 | the old list followed by the new project |
| App.DeleteById | App.tsx:141 | no remaining entry has the id; every other project is kept as often as it occurred |
| App.DeleteKeepsOrder | App.tsx:141 | deletion distributes over concatenation, so the rest keep their order |
| App.DeleteUndoesAppend | App.tsx:135-143 | adding a project under an unused id and deleting that id gives the list back |
| App.DeleteMissing | App.tsx:141 | deleting an id nobody has changes nothing |
| App.UpdateLeavesOthers | App.tsx:131 | after an update, the projects with other ids are exactly as before, in order |
| App.WithExpense | App.tsx:153-158 | spent grows by the amount; the status becomes Warning exactly when the new spent exceeds the budget, stays otherwise, and is never cleared; nothing else changes |
| App.ApplyExpense | App.tsx:152-161 | every project with the id records the expense; the others are unchanged |
| App.ApplyExpenseTotals | App.tsx:152-161 | total spent grows by the amount once per project with the id; total budget is unchanged |
| App.NavItems | App.tsx:112-123 | a 'user' sees only HOME and DASHBOARD, never an admin-only page; any other role sees all six items |
| App.Render | App.tsx:174-213 | the spinner while loading; an admin-only page shows Home to a non-admin; otherwise the page itself |
| App.NavItemsRenderThemselves | App.tsx:121-123 | every page in a signed-in role's navigation renders as itself |
| App.Session.constructor | App.tsx:18-25 | keeps the fallback catalog for good; signed out with no role, on HOME, not loading, showing the catalog and the seed log |
| App.Session.Screen | App.tsx:216-217 | the login form exactly while signed out, the rendered page otherwise |
| App.Session.Login | App.tsx:86-90 | signed in with the role and name, so a role is set; page, projects and logs unchanged |
| App.Session.BeginFetch | App.tsx:27-31 | once signed in, the fetch turns loading on, and the screen shows the loading view |
| App.Session.Refresh | App.tsx:32-84 | projects become the merge of the sheet with the catalog the session was built with (that catalog itself on an empty answer); logs are replaced only by a non-empty answer; loading ends false; still signed in with a role |
| App.Session.RecordLog | App.tsx:92-102 | the new entry goes in front of the old log |
| App.Session.Logout | App.tsx:104-109 | authentication, role and user name cleared together, page reset to HOME, projects and logs untouched |
| App.Session.NavClick | App.tsx:125-128 | the page becomes the one clicked |
| App.Session.UpdateProject | App.tsx:130-133 | projects become UpdateById of the old list |
| App.Session.AddProject | App.tsx:135-138 | projects become the old list with the project appended |
| App.Session.DeleteProject | App.tsx:140-143 | projects become DeleteById of the old list |
| App.Session.RecordExpense | App.tsx:146-167 | true exactly on an explicit "success"; then ApplyExpense of the old list; otherwise the projects are unchanged |
| BudgetDashboard.RangesOf | components/BudgetDashboard.tsx:25-27 | the three ranges are pairwise disjoint and an id below 100 is in none |
| BudgetDashboard.RangeSums | components/BudgetDashboard.tsx:24-27 | the three ranges plus the ids below 100 make up the total budget and spent |
| BudgetDashboard.DashboardCards | components/BudgetDashboard.tsx:24-27 | the total card is getStats of every project, and each range card getStats of the projects its id filter keeps |
| BudgetDashboard.CardsAddUp | components/BudgetDashboard.tsx:24-27 | when every id is at least 100, the three cards' budget, spent and remaining add up to the total card's |
| BudgetDashboard.FilterGroup | components/BudgetDashboard.tsx:35-37 | 'all' gives the list itself; otherwise exactly the projects of that group, each as often as it occurs |
| BudgetDashboard.FilterGroupKeepsOrder | components/BudgetDashboard.tsx:35-37 | the group filter distributes over concatenation, so the table keeps the projects in list order |
| Home.PieCategory | components/Home.tsx:28-36 | 300 and up is PJ3, 200 to 299 is PJ2, everything else (ids below 100 included) is PJ1 |
| Home.PieSpec | components/Home.tsx:27-49 | at most three entries, in strictly increasing PJ1, PJ2, PJ3 order, each the budget sum of its series |
| Home.PieShowsSeries | components/Home.tsx:27-45 | a series has an entry exactly when some project's id falls in it |
| Home.PieTotalIsTotalBudget | components/Home.tsx:17 | the pie values add up to totalBudget |
| Home.SeriesBudgetsAddUp | components/Home.tsx:27-45 | the three series' budget sums add up to the total budget |
| Home.FindSlice | components/Home.tsx:38 | the index of the first accumulator entry of the series, or the length when there is none |
| Home.SortBySeries | components/Home.tsx:48-49 | the sort is a permutation of the accumulator in PJ1, PJ2, PJ3 order |
| Home.PieChartData | components/Home.tsx:27-49 | the in-place reduce followed by the sort yields exactly PieSpec |
| ReportExport.ReportRows | components/ReportExport.tsx:21-23 | with 'all', exactly the projects with spent > 0; with a project number, exactly the projects with that id; each as often as it occurs |
| ReportExport.ReportRowsKeepOrder | components/ReportExport.tsx:21-23 | the rows keep the projects' order |
| ReportExport.RemainingAddsUp | components/ReportExport.tsx:190-192 | the sum of the rows' remaining equals their budget sum minus their spent sum |
| ReportExport.FooterOf | components/ReportExport.tsx:190-192 | the footer holds the budget and spent sums of the rows, and its remaining is their difference |
| ReportExport.ReportOf | components/ReportExport.tsx:21-29 | the overview is getStats of all projects: remaining = budget − spent, and percent is the guarded Percent(spent, budget), so 0 when the budget is not positive; rows and footer as above |
| ReportExport.OverviewPercentage | components/ReportExport.tsx:29 | with a positive total budget, the overview's percent × budget equals spent × 100 |
| ReportExport.OverviewIgnoresSelection | components/ReportExport.tsx:26-29 | the overview does not depend on the dropdown |
| ReportExport.SpendingRowsCarrySpending | components/ReportExport.tsx:22 | with no negative spent, the projects with spent > 0 carry all the spending |
| ReportExport.AllRowsCarryAllSpending | components/ReportExport.tsx:22-27 | with 'all' and no negative spent, the footer's spent equals the overview's |
| ProjectManager.Change | components/ProjectManager.tsx:60-66 | the named field takes the value and every other field is unchanged |
| ProjectManager.EditPrefill | components/ProjectManager.tsx:45-56 | name, owner and status copied; an empty group or category becomes the default; budget and spent rendered so that they parse back to the project's numbers |
| ProjectManager.NumberOrZero | components/ProjectManager.tsx:72-73 | the number read, or 0 when the text does not parse |
| ProjectManager.MaxId | components/ProjectManager.tsx:93 | the largest id of a non-empty list |
| ProjectManager.NewId | components/ProjectManager.tsx:93 | 101 for an empty list, otherwise the largest id + 1; larger than every existing id |
| ProjectManager.SubmitOf | components/ProjectManager.tsx:68-98 | an update exactly in edit mode, keeping the edited id; otherwise an add under a fresh id; unparseable money becomes 0; the text fields and status come from the form |
| ProjectManager.EditRoundTrip | components/ProjectManager.tsx:45-90 | editing a project with non-empty group and category and saving it untouched gives an update with the project itself |
| ProjectManager.DefaultFormAddsEmptyProject | components/ProjectManager.tsx:29-37 | saving the default form adds an Active project with budget and spent 0 under the new id |
| ProjectManager.ProgressWidth | components/ProjectManager.tsx:179 | 0 when the budget is not positive; otherwise the percentage capped at 100 |
| ProjectManager.ProjectForm.constructor | components/ProjectManager.tsx:14-26 | the modal closed, nothing under edit, the default form |
| ProjectManager.ProjectForm.AddClick | components/ProjectManager.tsx:39-43 | nothing under edit, the default form, the modal open |
| ProjectManager.ProjectForm.EditClick | components/ProjectManager.tsx:45-58 | the project under edit, its prefilled form, the modal open |
| ProjectManager.ProjectForm.ChangeField | components/ProjectManager.tsx:60-66 | the form becomes Change of the old form |
| ProjectManager.ProjectForm.Submit | components/ProjectManager.tsx:68-100 | the submission for the current form and edit mode; the modal closes |
| RecordExpense.Gate | components/RecordExpense.tsx:31-34 | a request exactly when both texts parse and the project id is positive, carrying the parsed numbers |
| RecordExpense.GateAcceptsAnyAmount | components/RecordExpense.tsx:34 | any integer amount, zero or negative included, passes with a positive project id |
| RecordExpense.GateRejectsNonPositiveId | components/RecordExpense.tsx:34 | a project id of zero or below never passes |
| RecordExpense.SelectableProjects | components/RecordExpense.tsx:91 | exactly the projects that are not Closed, each as often as it occurs |
| RecordExpense.SelectableKeepsOrder | components/RecordExpense.tsx:91 | the dropdown distributes over concatenation, so it offers the open projects in list order |
| RecordExpense.ExpenseForm.constructor | components/RecordExpense.tsx:13-21 | empty fields with today's date, no notice, not saving |
| RecordExpense.ExpenseForm.Begin | components/RecordExpense.tsx:28-37 | the request is the gate's; saving starts only when it passes; a failing gate changes nothing |
| RecordExpense.ExpenseForm.Finish | components/RecordExpense.tsx:38-57 | saving stops; a success shows the notice and empties the form with a fresh date; a failure keeps the form |
| RecordExpense.ExpenseForm.DismissNotice | components/RecordExpense.tsx:43 | the notice is hidden |
| Login.ClassifyTrimmed | components/Login.tsx:33-49 | the admin pair is checked first; a listed user with the shared password signs in under their name; anything else is rejected |
| Login.Classify | components/Login.tsx:30-49 | on the trimmed inputs: admin exactly for the admin pair, a user under the trimmed name exactly for a listed name with the shared password when it is not the admin pair, rejected otherwise |
| Login.ClassifyIgnoresPadding | components/Login.tsx:30-31 | white space around either input never changes the outcome |
| Login.LoginCalls | components/Login.tsx:26-50 | exactly one log call first, for the trimmed name, with the outcome's role and status; a sign-in call after it exactly when accepted, as admin or as 'คุณ' + name |
| Login.AdminNeverSignsInAsUser | components/Login.tsx:11-44 | the admin name is not a listed user, so it never signs in with the user role |
| Login.LoginForm.constructor | components/Login.tsx:22-24 | empty fields and no error |
| Login.LoginForm.Submit | components/Login.tsx:26-50 | the calls of LoginCalls; the error is set exactly when rejected |
| ChangePasswordModal.PasswordForm.constructor | components/ChangePasswordModal.tsx:14-18 | empty fields, not loading, no message |
| ChangePasswordModal.PasswordForm.Submit | components/ChangePasswordModal.tsx:22-37 | a mismatch is reported first, then a password shorter than 4; no request and loading unchanged on either; otherwise the request (user, old, new) with loading on and no message |
| ChangePasswordModal.PasswordForm.Complete | components/ChangePasswordModal.tsx:38-51 | loading off; the success text on success, otherwise the gateway's message, or the default text when it is empty |
| ChangePasswordModal.PasswordForm.ClearAfterSuccess | components/ChangePasswordModal.tsx:42-48 | the three fields and the message are cleared |
| AccessLogs.Insert | components/AccessLogs.tsx:13-15 | inserting into a newest-first log keeps it newest first and adds exactly the entry |
| AccessLogs.SortedLogs | components/AccessLogs.tsx:13-15 | same length, same entries as often as they occur, newest first; the input is a value and is not changed |
| AccessLogs.SortKeepsSortedLog | components/AccessLogs.tsx:13-15 | a log already newest first comes back unchanged |
| AccessLogs.SortIdempotent | components/AccessLogs.tsx:13-15 | sorting the sorted copy again changes nothing |
| AccessLogs.ShowsPlaceholder | components/AccessLogs.tsx:77-83 | the placeholder row shows exactly when the log is empty |

Ids below 100 fall in no dashboard card (components/BudgetDashboard.tsx:25-27) but in PJ1 on the
pie chart (components/Home.tsx:30-36); both are modelled as written.

## Left out

- The client keeps no expense list and has no monthly bucketing; Home's bar chart plots the fixed table CHART_DATA_MONTHLY (components/Home.tsx:168), which is not part of this model.
- The HTTP gateway (`services/api.ts`), JSON decoding and the Apps Script endpoint are left out. Each call's answer is a method parameter: the fetched lists of `Session.Refresh`, the reply of `Session.RecordExpense` and `PasswordForm.Complete`, and the boolean of `ExpenseForm.Finish`. The gateway already turns a failed fetch into an empty list or an error reply, so no exception path is modelled.
- async/await, the fire-and-forget writes and `setTimeout` are left out because they are event-loop concurrency. Handlers are sequential steps. The awaited submits are split in two methods, before and after the answer. The timeouts are separate methods (`ExpenseForm.DismissNotice`, `PasswordForm.ClearAfterSuccess`).
- Rendering is not modelled: JSX, the recharts charts, `Card`, number and date formatting, `window.confirm`, `alert`, `scrollTo`, and the page title lookup (`getPageTitle`). The default branch of `renderContent` cannot be reached with the six pages.
- The seed data in constants.ts is not part of this model. The fallback catalog and the seed log are parameters of the Session constructor.
- Session.RecordLog: the entry's id and timestamp both come from one clock reading passed in as `now` (milliseconds). The ISO timestamp text is not modelled.
- AccessLogs.SortedLogs: timestamps are integers. Date parsing and the unordered result for an unparseable timestamp (NaN comparisons) are not modelled. The sort is a stable insertion sort, as Array.prototype.sort is stable, but stability is not stated in the contract.
- ProjectManager.NumberOrZero: `parseFloat` is modelled as `parseInt` on integer money, so fractions and exponents in the budget and spent fields are not modelled.
- Text.ParseInt: leading white space is skipped with the same ten characters as Text.Trim, so text that starts with another Unicode space separator (for example U+3000) reads as no number, where JavaScript would skip it; RecordExpense.Gate and ProjectManager.NumberOrZero inherit this.
- Text.Trim: only the common white-space characters are trimmed (space, tab, line feed, carriage return, vertical tab, form feed, no-break space, byte-order mark, and the line and paragraph separators). The other Unicode space separators that JavaScript also trims are not included.
- ChangePasswordModal.PasswordForm.Submit: the length check counts characters, while JavaScript's `.length` counts UTF-16 code units. They differ only for characters outside the Basic Multilingual Plane.
- Remote fields that are null or missing are not modelled. An absent name, group or category is modelled as the empty string, and an absent number as a value that is not positive.
- The project card's other displays are not modelled: colours, labels and the over-budget highlight.
- The report's date inputs and report-type select are not modelled: they do not affect the rows.
- Security of the fixed credentials in components/Login.tsx is out of scope. They are constants of the model only.
