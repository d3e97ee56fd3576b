# yishan-admin core, modelled in Dafny

This project models the core of the yishan-admin back-office UI, a Next.js
and React application. It covers:

- The request gate that sends visitors without the admin cookie to the login
  page (`Middleware`).
- The admin shell's page title and breadcrumb trail (`AdminLayout`).
- The page-number window of the table pager (`Pagination`) and the pager
  built on it (`PagerView`).
- The positions data table: its actions column and its empty-body
  placeholder (`DataTable`).
- The column-driven search form (`SearchForm`). It derives search fields
  from column descriptors, sorted stably by `order`. It builds a schema and
  default values from the fields, lays them out on a 24-unit grid, shows the
  first fields while collapsed, and hands cleaned criteria to the page on
  submit.
- The column sets of the positions, roles, departments and users tables
  (`PositionColumns`, `RoleColumns`, `DepartmentColumns`, `UserColumns`):
  their cells and row actions, and the search fields each one yields.
- The positions page (`PositionsPage`): filtering by criteria, delete,
  disable and enable with their user-count guards, add and edit from the
  dialog, and the statistics.
- The four form dialogs (`PositionForm`, `RoleForm`, `DepartmentForm`,
  `UserForm`): validation, the values each dialog loads, the record each one
  builds on submit, and the form state its handlers overwrite.
- The real-time alerts page (`AlertsPage`): filters, status transitions and
  counters.

## Form of the model

Pure logic is modelled as functions, and the properties are lemmas about
those functions. `JsPrelude` holds the JavaScript semantics the code relies
on:

- truthiness and `||` defaults;
- `%`, which truncates toward zero;
- `slice` with a negative end;
- `filter`;
- ASCII `toLowerCase`;
- the characters `trim` removes.

React state and react-hook-form state are classes whose methods reassign
fields:

- `PositionsPageState`, `AlertsPageState`, `SearchFormState` and
  `TableState`;
- `Pager`, which holds the pagination state of the table library;
- the four dialog classes. In each of them `reset()` restores the `defaults`
  field.

Each method's `ensures` ties the new state to a specification function, and
the lemmas about that function state what the page promises.

The remaining loops are methods with loop invariants, proved against the
functions that specify them:

- `createFormSchema` and `getDefaultValues`;
- the `reduce` in `handleSubmit`;
- `generateBreadcrumbs`.

Clock values, `Date.now()` ids and the email grammar of the validation
library are parameters.

A failure of `role!` or `department!` in edit mode without a record is
modelled as `None`. The source catches that error, so nothing is saved.

## Model

| member | source | states |
|---|---|---|
| Middleware.GateSpec | middleware.ts:4-23 | A request is redirected, to /admin/login, exactly when its path starts with /admin, is neither / nor /admin/login, and the admin-auth cookie is not "true"; every path outside /admin passes |
| Middleware.RedirectNeverLoops | middleware.ts:8-10 | The redirect target is always let through, whatever the cookie holds, so a redirect never loops |
| Middleware.PrefixGatesLookalikes | middleware.ts:13-18 | The gate is a plain prefix test and an exact cookie test: /administrator is gated, cookie "TRUE" is not logged in, "/" passes |
| AdminLayout.Split | app/admin/layout.tsx:49 | `split('/')` always yields at least one piece |
| AdminLayout.SplitJoin | app/admin/layout.tsx:49 | Joining the pieces of `split('/')` with "/" gives back the path, and no piece holds a slash |
| AdminLayout.SplitLeadingSlash | app/admin/layout.tsx:49 | A leading slash adds exactly one empty piece in front |
| AdminLayout.SplitConcat | app/admin/layout.tsx:49 | Splitting `s + "/" + t` splits each side separately |
| AdminLayout.SplitSlashFree | app/admin/layout.tsx:49 | A slash-free string is a single piece |
| AdminLayout.SegmentsSpec | app/admin/layout.tsx:49 | Every segment of `split('/').filter(Boolean)` is non-empty and slash-free, and leading or trailing slashes change nothing |
| AdminLayout.SegmentsOfTwo | app/admin/layout.tsx:49 | "/a/b" with non-empty, slash-free a and b has exactly the segments [a, b] |
| AdminLayout.PageTitleSpec | app/admin/layout.tsx:21-45 | A mapped path gets its title from the six-entry map, any other path gets 管理系统, and the title is never empty |
| AdminLayout.PathOfIsSlashJoin | app/admin/layout.tsx:52-55 | The path accumulated over the first segments is "/" followed by those segments joined with "/" |
| AdminLayout.GenerateBreadcrumbs | app/admin/layout.tsx:48-74 | The loop builds exactly the specified trail |
| AdminLayout.BreadcrumbsSpec | app/admin/layout.tsx:48-74 | There is one crumb per segment. The first crumb is 管理系统 linking to /admin, crumb i links to the path of the first i+1 segments with that path's title, and exactly the last crumb is current |
| AdminLayout.SeparatorsBetweenCrumbs | app/admin/layout.tsx:103 | A separator follows every crumb except the last |
| AdminLayout.Layout | app/admin/layout.tsx:37-77 | /admin/login renders bare and every other path renders inside the shell |
| AdminLayout.SecondLevelPage | app/admin/layout.tsx:48-77 | For a two-segment path: 管理系统 links to /admin, then the page itself is the current crumb, titled as the heading is |
| AdminLayout.UsersPageShell | app/admin/layout.tsx:21-114 | /admin/users renders the shell with the trail 管理系统 › 用户管理 and the title 用户管理 |
| Pagination.Run | lib/pagination.ts:24-41 | `Array.from` yields len consecutive pages starting at first |
| Pagination.PaginationRange | lib/pagination.ts:1-46 | For more pages than fit, the window has 2·siblingCount+5 entries |
| Pagination.SmallTotalShowsEveryPage | lib/pagination.ts:8-10 | When every page fits, the window is exactly pages 1..total without markers |
| Pagination.DotsFollowSiblingBounds | lib/pagination.ts:12-45 | The left "..." appears iff the sibling window starts after page 2, and the right one iff it ends before total-2 |
| Pagination.RightDotsWindow | lib/pagination.ts:21-25 | With the current page near the start, the window is 1..3+2s, "...", total, and it is well formed |
| Pagination.LeftDotsWindow | lib/pagination.ts:27-34 | With the current page near the end, the window is 1, "...", then the last 3+2s pages, and it is well formed |
| Pagination.BothDotsWindow | lib/pagination.ts:36-45 | With the current page in the middle, the window is 1, "...", current-s..current+s, "...", total, and it is well formed |
| Pagination.BothDotsShape | lib/pagination.ts:36-45 | A two-marker window is increasing, stays within 1..total, and each marker hides at least one page |
| Pagination.LargeTotalWindowShape | lib/pagination.ts:12-45 | Whatever the current page, a large window starts at page 1, ends at total and has 2s+5 entries |
| Pagination.WindowIsWellFormed | lib/pagination.ts:1-46 | For all inputs, pages are strictly increasing, lie within 1..total, and every "..." hides at least one page |
| Pagination.CurrentPageIsShown | lib/pagination.ts:1-46 | Any current page between 1 and total appears in the window |
| Pagination.Examples | lib/pagination.ts:1-46 | Concrete windows for 10 pages seen from page 5, 1 and 10; 7 pages; 0 pages |
| PagerView.Entries | components/ui/data-table-pagination.tsx:48-70 | There is one rendered entry per window item |
| PagerView.ExactlyOneHighlighted | components/ui/data-table-pagination.tsx:26-56 | For a valid page index exactly one entry is highlighted, and it is the button of page index+1 |
| PagerView.ClickHighlightsClickedPage | components/ui/data-table-pagination.tsx:49-59 | A click on a page button sets the page index that highlights that button; "..." is not clickable |
| PagerView.Pager.PageCount | components/ui/data-table-pagination.tsx:28 | The page count is ceil(rowCount / pageSize) |
| PagerView.Pager.constructor | app/admin/positions/data-table.tsx:81-98 | The table starts on the first page with ten rows a page |
| PagerView.Pager.ClickPage | components/ui/data-table-pagination.tsx:59 | Clicking a shown page moves to it, keeps the index on an existing page, and highlights that page |
| PagerView.Pager.ClickPrevious | components/ui/data-table-pagination.tsx:41-42 | Moves back one page exactly when a previous page exists, and otherwise does nothing |
| PagerView.Pager.ClickNext | components/ui/data-table-pagination.tsx:76-77 | Moves forward one page exactly when a next page exists, and otherwise does nothing |
| PagerView.Pager.ChoosePageSize | components/ui/data-table-pagination.tsx:84-94 | Sets one of the sizes 10, 20, 25, 30, 40, 50. The new page holds the row that was first on the old page |
| DataTable.Dispatch | app/admin/positions/columns.tsx:185-203 | `action?.[name]?.(record)` calls the named handler with the row's record iff that handler is supplied |
| DataTable.Descriptors | app/admin/positions/page.tsx:276-277 | The search form receives the column descriptors in column order |
| DataTable.ColumnsWithActions | app/admin/positions/data-table.tsx:58-79 | Only the column with id "actions" changes, and only in its cell; every other column is passed through unchanged |
| DataTable.ActionsCellRendersRecord | app/admin/positions/data-table.tsx:63-74 | The actions cell calls the column's render with null, the row's record, the row index and the handler bag |
| DataTable.BodyRows | app/admin/positions/data-table.tsx:123-148 | There is one body row per model row, or a single 暂无数据 placeholder spanning every column when there are none |
| DataTable.BodyIsNeverEmpty | app/admin/positions/data-table.tsx:123-148 | The body is never empty, and it holds a placeholder iff there are no rows |
| DataTable.TableState.constructor | app/admin/positions/data-table.tsx:49-55 | Sorting, filters, visibility and selection start empty |
| DataTable.TableState.SetSorting | app/admin/positions/data-table.tsx:84 | The sorting slot is replaced |
| DataTable.TableState.SetColumnFilters | app/admin/positions/data-table.tsx:85 | The filter slot is replaced |
| DataTable.TableState.SetColumnVisibility | app/admin/positions/data-table.tsx:90 | The visibility slot is replaced |
| DataTable.TableState.SetRowSelection | app/admin/positions/data-table.tsx:91 | The selection slot is replaced |
| SearchForm.Candidates | components/ui/table-search-form.tsx:147-218 | Filter-then-map yields no more fields than there are columns |
| SearchForm.InsertByOrder | components/ui/table-search-form.tsx:220 | A sort step's insertion adds exactly the inserted field |
| SearchForm.SortByOrder | components/ui/table-search-form.tsx:220 | The sort is a permutation of its input |
| SearchForm.InsertKeepsOrder | components/ui/table-search-form.tsx:220 | Insertion keeps a non-increasing order |
| SearchForm.InsertIsStable | components/ui/table-search-form.tsx:220 | Insertion keeps, for every order value, the relative order of the fields with that value |
| SearchForm.SortIsStableAndOrdered | components/ui/table-search-form.tsx:220 | `sort((a, b) => b.order - a.order)` yields a non-increasing order and is stable among equal orders |
| SearchForm.CandidateMembership | components/ui/table-search-form.tsx:147-218 | A field is a candidate iff some column passes the filter and maps to it |
| SearchForm.CandidatesAreDerivedShape | components/ui/table-search-form.tsx:196-218 | Derived fields are never required, carry no validator, and have a non-zero colSize |
| SearchForm.DeriveFieldsSpec | components/ui/table-search-form.tsx:147-221 | generateSearchFieldsFromColumns yields a field iff some column passes the filter; the result is a permutation of the candidates, sorted by non-increasing order and stable, and never required |
| SearchForm.ToFieldSpec | components/ui/table-search-form.tsx:162-218 | The key is accessorKey, else dataIndex. The label is the string title, else the string header, else the key. A valueEnum gives a select with one option per entry. dateTime and dateRange become dates and unknown types text. colSize defaults to 1 and order is copied |
| SearchForm.CandidatesOfSearchable | components/ui/table-search-form.tsx:147-218 | When every column passes the filter, each column becomes its field in place |
| SearchForm.CandidatesAppend | components/ui/table-search-form.tsx:147-218 | The candidates of a concatenation are the concatenated candidates |
| SearchForm.CandidatesCons | components/ui/table-search-form.tsx:147-218 | The candidates of a list are the head's field, if it is kept, followed by the candidates of the rest |
| SearchForm.FieldKeys | components/ui/table-search-form.tsx:162 | The keys of the fields, position by position |
| SearchForm.UnorderedColumnsKeepOrder | components/ui/table-search-form.tsx:205-220 | Columns that leave `order` unset keep their column order |
| SearchForm.OrderedIsFixed | components/ui/table-search-form.tsx:220 | The sort leaves a list that is already non-increasing as it is |
| SearchForm.DeriveFieldsExample | components/ui/table-search-form.tsx:147-221 | Orders [5, 1, 1, 3] come out as positions [0, 3, 1, 2] |
| SearchForm.SortByOrderExample | components/ui/table-search-form.tsx:220 | The same example stated on fields |
| SearchForm.InsertStops | components/ui/table-search-form.tsx:220 | A field goes last behind a last field of at least its order |
| SearchForm.SortSnoc | components/ui/table-search-form.tsx:220 | Sorting one more field inserts it into the sorted rest |
| SearchForm.ExcludedColumns | components/ui/table-search-form.tsx:147-159 | These columns never become fields: hidden ones, `search: false`, select and actions, "option", and unbound ones |
| SearchForm.CreateFormSchema | components/ui/table-search-form.tsx:227-239 | The forEach loop builds exactly the specified schema, with one rule per field key |
| SearchForm.SchemaKeys | components/ui/table-search-form.tsx:227-239 | The schema's keys are exactly the field keys |
| SearchForm.SchemaLastFieldWins | components/ui/table-search-form.tsx:227-239 | A key's rule comes from the last field with that key |
| SearchForm.DerivedSchemaIsOptional | components/ui/table-search-form.tsx:196-239 | Every rule of a schema built from derived fields is the optional string |
| SearchForm.GetDefaultValues | components/ui/table-search-form.tsx:245-251 | The loop maps every field key, and only those, to "" |
| SearchForm.DefaultsOf | components/ui/table-search-form.tsx:245-251 | The defaults cover exactly the field keys |
| SearchForm.LayoutBreakpoints | components/ui/table-search-form.tsx:259-320 | The vertical layout takes 24 units. The horizontal layout takes 6 units from width 1352, 8 units from 702, and 24 at or below 701. There are 1, 3 or 4 fields per row, filling 24 units. Widths at or below 701 switch to vertical |
| SearchForm.CollapsedCountSpec | components/ui/table-search-form.tsx:283-327 | The collapsed count is a truthy defaultColsNumber minus 1, and otherwise max(1, perRow-1), which is between 1 and 3. Collapsed shows at most that many fields and expanded shows all. The toggle shows iff some field is hidden |
| SearchForm.ActionSpanFillsRow | components/ui/table-search-form.tsx:629-642 | Horizontally, the action span counts fields, not grid units. The last row's field count times the column span, plus the action span, is 24, and after a full row the action group takes a row of its own. This fills the row only when every visible field has colSize 1 |
| SearchForm.UnitFieldTakesOneColumn | components/ui/table-search-form.tsx:613 | A field with colSize 1 spans exactly one column |
| SearchForm.UnitFieldsSpanSum | components/ui/table-search-form.tsx:608-618 | Visible fields that all have colSize 1 take one column span each |
| SearchForm.UnitFieldsEndRow | components/ui/table-search-form.tsx:608-642 | When every visible field has colSize 1, the fields and the action group together end exactly at the end of a 24-unit grid row |
| SearchForm.CollapsedScenario | components/ui/table-search-form.tsx:283-608 | With five ordered fields at width 1400 there are four per row; the three of highest order show while collapsed, and the toggle shows |
| SearchForm.Cleaned | components/ui/table-search-form.tsx:343-353 | Exactly the truthy, non-blank values are passed on, unchanged |
| SearchForm.CleanCriteria | components/ui/table-search-form.tsx:343-353 | The reduce keeps exactly the truthy, non-blank entries with their values |
| SearchForm.CleanedIsIdempotent | components/ui/table-search-form.tsx:343-353 | Cleaning twice is the same as cleaning once |
| SearchForm.SubmitExamples | components/ui/table-search-form.tsx:343-353 | An all-empty form submits {}, and blank and empty values are dropped |
| SearchForm.SearchFormState.constructor | components/ui/table-search-form.tsx:138-251 | Starts from defaultCollapsed, width 1200, and every field "" |
| SearchForm.SearchFormState.Resize | components/ui/table-search-form.tsx:330-341 | The measured width becomes the layout width |
| SearchForm.SearchFormState.SetValue | components/ui/table-search-form.tsx:343 | One field changes and the others stay |
| SearchForm.SearchFormState.ToggleCollapse | components/ui/table-search-form.tsx:667-678 | The displayed state flips. The internal flag follows only when uncontrolled. The new state always goes to onCollapse when it is given |
| SearchForm.SearchFormState.Submit | components/ui/table-search-form.tsx:227-353 | onSearch gets the cleaned values iff every field passes its rule, and otherwise submission is blocked |
| SearchForm.SearchFormState.Reset | components/ui/table-search-form.tsx:355-358 | Every field goes back to "", and onReset is called iff it is given |
| SearchForm.DefaultsSubmitNothing | components/ui/table-search-form.tsx:245-353 | Reset followed by submit searches with no criteria |
| PositionColumns.RenderLevel | app/admin/positions/columns.tsx:118-134 | The column's `render`: a configured level renders as a badge, and any other level as its raw text. The positions table does not call it (see Left out) |
| PositionColumns.LevelCells | app/admin/positions/columns.tsx:119-133 | The label and variant of each of the seven levels |
| PositionColumns.RenderStatus | app/admin/positions/columns.tsx:154-157 | The column's `render`: the variant is default iff the status is 正常, otherwise secondary; the text is the status. The positions table does not call it (see Left out) |
| PositionColumns.Actions | app/admin/positions/columns.tsx:179-239 | A row has five actions |
| PositionColumns.ActionsSpec | app/admin/positions/columns.tsx:179-239 | Disable is offered iff the status is 正常 and enable iff it is not. View, edit, delete and view-users are always offered. Each action calls its handler with the row iff that handler is given |
| PositionColumns.CandidatesOfColumns | app/admin/positions/columns.tsx:77-178 | No column sets an order, and the kept columns are the six searchable ones |
| PositionColumns.SearchableColumns | app/admin/positions/columns.tsx:77-178 | The search form keeps name, code, department, level, status and description, in column order |
| PositionColumns.KeptColumnFields | app/admin/positions/columns.tsx:77-164 | Name, code and description are text inputs; department, level and status are selects with 6, 7 and 2 options |
| PositionColumns.DerivedSearchFields | app/admin/positions/columns.tsx:77-178 | The derived fields are those six, with their kinds and option counts |
| RoleColumns.RenderStatus | app/admin/roles/columns.tsx:101-107 | The cell value 正常 gives a green secondary 正常 badge; anything else gives a red destructive 禁用 badge |
| RoleColumns.PermissionBadgesSpec | app/admin/roles/columns.tsx:128-144 | The first min(3, n) permissions show in order, and a "+k" badge appears iff n > 3 with shown + k = n. A missing list shows nothing |
| RoleColumns.ActionsSpec | app/admin/roles/columns.tsx:170-223 | Five actions (view, edit, delete, permissions, assign users), each calling its handler with the row iff that handler is given |
| RoleColumns.CandidatesOfColumns | app/admin/roles/columns.tsx:75-169 | No column sets an order, and name, code and status are kept |
| RoleColumns.SearchableColumns | app/admin/roles/columns.tsx:75-169 | The search form keeps name, code and status, in column order |
| RoleColumns.DerivedSearchFields | app/admin/roles/columns.tsx:75-169 | Name and code are inputs; status is a select offering 正常 and 禁用 |
| DepartmentColumns.RenderStatus | app/admin/departments/columns.tsx:126-132 | The status 正常 gives a secondary 正常 badge; any other status gives a destructive 禁用 badge |
| DepartmentColumns.Actions | app/admin/departments/columns.tsx:160-220 | A row has six actions |
| DepartmentColumns.ActionsSpec | app/admin/departments/columns.tsx:160-220 | Disable is offered iff the status is 正常 and enable iff it is not. View, edit, delete, add-sub-department and view-users are always offered. Each action calls its handler with the row iff that handler is given |
| DepartmentColumns.CandidatesOfColumns | app/admin/departments/columns.tsx:76-159 | No column sets an order, and name, code, parent, leader and status are kept |
| DepartmentColumns.SearchableColumns | app/admin/departments/columns.tsx:76-159 | The search form keeps name, code, parent, leader and status, in column order |
| DepartmentColumns.DerivedSearchFields | app/admin/departments/columns.tsx:94-124 | parent is a select with no options. status offers 正常→normal and 禁用→disabled, so neither option value equals a status a record stores |
| UserColumns.KeyedColumn | app/admin/users/columns.tsx:37-134 | A keyed column's search key is its key, its label is its caption, and its order is kept |
| UserColumns.DerivedSearchFields | app/admin/users/columns.tsx:37-134 | By non-increasing order the fields are email, status, username, name, department, role. status offers 启用/active and 禁用/inactive; department is a select without options |
| PositionsPage.FilterSpec | app/admin/positions/page.tsx:193-220 | A position is shown iff every truthy criterion passes. The shown list keeps the list's order. No truthy criterion shows every position |
| PositionsPage.NameSearchIgnoresCase | app/admin/positions/page.tsx:203-204 | "fe" finds "FE工程师" |
| PositionsPage.SearchFindsSubstrings | app/admin/positions/page.tsx:199-217 | Typing part of a name, code, department or description, in the field's own letter case, finds the position. Status must match exactly. A criterion with any other key never hides a position |
| PositionsPage.QueryCaseDoesNotMatter | app/admin/positions/page.tsx:199-217 | For name, code, department and description the letter case of the query never changes the outcome: queries equal once lower-cased find the same positions |
| PositionsPage.LevelMatchesExactly | app/admin/positions/page.tsx:209-210 | Level is compared by equality, not containment |
| PositionsPage.WithoutIdSpec | app/admin/positions/page.tsx:109 | Removal keeps exactly the positions with another id, in order |
| PositionsPage.WithStatus | app/admin/positions/page.tsx:130-143 | Only positions with that id change, and only in their status |
| PositionsPage.DisableThenEnableRestores | app/admin/positions/page.tsx:124-146 | Disabling 正常 positions and enabling them again restores the list |
| PositionsPage.Merge | app/admin/positions/page.tsx:161-166 | An edit keeps id, userCount and createTime and takes every form field |
| PositionsPage.WithEdit | app/admin/positions/page.tsx:158-168 | Only the edited position changes, by the merge |
| PositionsPage.NewPosition | app/admin/positions/page.tsx:173-178 | An added position has the fresh id, no users, the creation time and the form fields |
| PositionsPage.UnchangedEditIsIdentity | app/admin/positions/page.tsx:156-169 | Submitting a position's own fields leaves the list unchanged |
| PositionsPage.StatisticsOf | app/admin/positions/page.tsx:223-225 | The total is the shown count, and the active count is at most the total |
| PositionsPage.UsersNonNegative | app/admin/positions/page.tsx:225 | With no negative userCount, the user total is non-negative |
| PositionsPage.RemovingEmptyPositionsKeepsUsers | app/admin/positions/page.tsx:103-225 | Deleting a position without users leaves the user total unchanged |
| PositionsPage.PositionsPageState.constructor | app/admin/positions/page.tsx:90-94 | Starts with the initial list, no criteria, nothing edited, and the dialog closed |
| PositionsPage.PositionsPageState.Delete | app/admin/positions/page.tsx:103-111 | Refused, with nothing changed, while the position has users; otherwise every position with its id is removed |
| PositionsPage.PositionsPageState.Disable | app/admin/positions/page.tsx:124-136 | Refused while the position has users; otherwise its status becomes 禁用 |
| PositionsPage.PositionsPageState.Enable | app/admin/positions/page.tsx:139-146 | The status becomes 正常, with no guard |
| PositionsPage.PositionsPageState.EditPosition | app/admin/positions/page.tsx:97-100 | The position goes into the dialog, and the dialog opens |
| PositionsPage.PositionsPageState.DialogOpenChange | app/admin/positions/page.tsx:307-311 | Closing the dialog forgets the edited position |
| PositionsPage.PositionsPageState.FormSubmit | app/admin/positions/page.tsx:149-190 | An edit merges into the edited position and an add puts the new position first. Either way the dialog closes and the edit is cleared |
| PositionsPage.PositionsPageState.Search | app/admin/positions/page.tsx:278 | The criteria replace the old ones |
| PositionsPage.PositionsPageState.ResetSearch | app/admin/positions/page.tsx:279 | No criteria remain, so every position shows |
| PositionsPage.AddShowsFirst | app/admin/positions/page.tsx:173-196 | After an add with no criteria, the new position is shown first |
| PositionForm.ValidityRule | app/admin/positions/position-form-dialog.tsx:35-43 | Valid iff name, code, department, level and status are non-empty. Description and requirements never fail. Each of the five missing fields is reported under its own key with its message |
| PositionForm.ValuesOf | app/admin/positions/position-form-dialog.tsx:108-116 | The dialog loads the seven editable fields of the position |
| PositionForm.Title | app/admin/positions/position-form-dialog.tsx:89-139 | 编辑岗位 iff a position is given, else 新增岗位 |
| PositionForm.LevelChoicesHaveBadges | app/admin/positions/position-form-dialog.tsx:56-81 | 8 departments, 7 levels and 2 statuses are offered. Every level choice is a level the table renders as a badge with the same label |
| PositionForm.PositionDialog.constructor | app/admin/positions/position-form-dialog.tsx:91-103 | The form starts blank with status 正常 |
| PositionForm.PositionDialog.OpenEffect | app/admin/positions/position-form-dialog.tsx:105-129 | On open it loads the position, or the blank form; on close nothing changes |
| PositionForm.PositionDialog.Input | app/admin/positions/position-form-dialog.tsx:91 | Typing replaces the values |
| PositionForm.PositionDialog.Submit | app/admin/positions/position-form-dialog.tsx:131-133 | Valid values go to onSubmit unchanged, and invalid ones are held back |
| PositionForm.LoadedPositionSubmits | app/admin/positions/position-form-dialog.tsx:35-116 | A position with its required fields set is submittable unchanged |
| PositionForm.BlankFormErrors | app/admin/positions/position-form-dialog.tsx:35-126 | The blank form fails on name, code, department and level, but not on status |
| RoleForm.ValidityRule | app/admin/roles/role-form-dialog.tsx:36-42 | Valid iff name and status are non-empty, the code matches `^[a-zA-Z0-9_]+$`, and a permission is chosen. An empty code fails both of its checks |
| RoleForm.CodePatternExamples | app/admin/roles/role-form-dialog.tsx:38 | Concrete codes accepted and rejected by the pattern |
| RoleForm.ToggleSpec | app/admin/roles/role-form-dialog.tsx:258-266 | Checking appends the label and checks the box. Unchecking removes every copy of the label, keeps the rest in order, and unchecks the box |
| RoleForm.CheckThenUncheckRestores | app/admin/roles/role-form-dialog.tsx:258-266 | Checking an unchecked box and unchecking it again restores the list |
| RoleForm.IdsLeaveBoxesUnchecked | app/admin/roles/role-form-dialog.tsx:55-258 | The boxes test labels, so a list of permission ids checks no box |
| RoleForm.LoadValues | app/admin/roles/role-form-dialog.tsx:87-105 | Edit mode with a role loads its fields, with "" for a missing description and [] for missing permissions; otherwise the blank form |
| RoleForm.RoleRecordSpec | app/admin/roles/role-form-dialog.tsx:107-123 | The record carries the values. Edit keeps id, userCount and createTime; add uses a fresh id, 0 users and the current time. Edit without a role saves nothing |
| RoleForm.UnchangedEditKeepsRole | app/admin/roles/role-form-dialog.tsx:87-123 | Saving a loaded role unchanged stores the same role |
| RoleForm.CaptionsByMode | app/admin/roles/role-form-dialog.tsx:153-294 | The title says 编辑角色 iff in edit mode. The submit caption is 保存中... while saving, else 更新 or 创建. The code is editable iff adding |
| RoleForm.RoleDialog.constructor | app/admin/roles/role-form-dialog.tsx:73-84 | The form starts blank and not loading |
| RoleForm.RoleDialog.ResetEffect | app/admin/roles/role-form-dialog.tsx:87-105 | The form and its defaults become the loaded values |
| RoleForm.RoleDialog.Input | app/admin/roles/role-form-dialog.tsx:184-188 | Typing replaces the values, except that the code is kept in edit mode, where its input is disabled |
| RoleForm.EditKeepsCode | app/admin/roles/role-form-dialog.tsx:184-188 | Whatever is typed, an edited role is saved under its own code and id |
| RoleForm.RoleDialog.ClickPermission | app/admin/roles/role-form-dialog.tsx:259-266 | Only the permission list changes, by the toggle |
| RoleForm.RoleDialog.StartSubmit | app/admin/roles/role-form-dialog.tsx:107-108 | Only reachable while no save runs, because the submit button is disabled then. Valid values start a save and set loading; invalid ones are held back and loading stays off |
| RoleForm.RoleDialog.CompleteSubmit | app/admin/roles/role-form-dialog.tsx:109-136 | The record goes to onSuccess and close is requested iff a record was built. The form resets only after an add. Loading ends |
| RoleForm.RoleDialog.HandleOpenChange | app/admin/roles/role-form-dialog.tsx:138-146 | A close request is passed on and resets the form iff not loading; an open request is ignored |
| DepartmentForm.ValidityRule | app/admin/departments/department-form-dialog.tsx:35-42 | Valid iff name, code, leader and status are non-empty. Parent and description never fail. A missing leader is reported |
| DepartmentForm.ValuesOf | app/admin/departments/department-form-dialog.tsx:79-109 | The dialog loads the six editable fields of the department |
| DepartmentForm.LoadValuesPrecedence | app/admin/departments/department-form-dialog.tsx:79-109 | An edited department wins over a parent, which only fills the parent field of the blank form; otherwise the blank form |
| DepartmentForm.OrDash | app/admin/departments/department-form-dialog.tsx:121-125 | The stored text is the value, or "-" when the value is empty, so it is never empty |
| DepartmentForm.DepartmentRecordSpec | app/admin/departments/department-form-dialog.tsx:111-137 | Nothing is saved iff editing without a department. The record carries the values, with "-" for an empty parent or description. Edit keeps id, userCount and createTime; add uses a fresh id, 0 users and now |
| DepartmentForm.UnchangedEditKeepsDepartment | app/admin/departments/department-form-dialog.tsx:79-137 | Saving a loaded department that has a parent and a description, unchanged, stores the same department |
| DepartmentForm.TitleSpec | app/admin/departments/department-form-dialog.tsx:158-205 | 编辑部门 iff in edit mode. Adding under a parent names it in the title and locks the parent select; adding without a parent gives 添加部门 |
| DepartmentForm.DepartmentDialog.constructor | app/admin/departments/department-form-dialog.tsx:66-76 | The form starts blank and not loading |
| DepartmentForm.DepartmentDialog.ResetEffect | app/admin/departments/department-form-dialog.tsx:79-109 | The form and its defaults become the loaded values |
| DepartmentForm.DepartmentDialog.Input | app/admin/departments/department-form-dialog.tsx:196-205 | Typing replaces the values, except that the parent is kept when a parent department is given, because its select is disabled then |
| DepartmentForm.SubDepartmentKeepsParent | app/admin/departments/department-form-dialog.tsx:196-205 | Whatever is typed, a sub-department added under a parent is saved under that parent's name |
| DepartmentForm.DepartmentDialog.StartSubmit | app/admin/departments/department-form-dialog.tsx:111-112 | Only reachable while no save runs, because the submit button is disabled then. Valid values start a save and set loading; invalid ones are held back and loading stays off |
| DepartmentForm.DepartmentDialog.CompleteSubmit | app/admin/departments/department-form-dialog.tsx:113-137 | The record goes to onSuccess iff built. On success the dialog asks to close and the form resets in either mode. Loading ends |
| DepartmentForm.DepartmentDialog.Cancel | app/admin/departments/department-form-dialog.tsx:139-142 | Only reachable while no save runs, because the button is disabled then. Asks to close and resets the form to its defaults |
| UserForm.ValidityRule | app/admin/users/user-form-dialog.tsx:34-42 | Valid iff the six required fields are non-empty and the email passes the email check. A rejected email is reported with its message |
| UserForm.ValuesOf | app/admin/users/user-form-dialog.tsx:78-100 | The dialog loads the seven editable fields of the user |
| UserForm.DatePart | app/admin/users/user-form-dialog.tsx:111 | `split('T')[0]` is a prefix of the timestamp |
| UserForm.DatePartSpec | app/admin/users/user-form-dialog.tsx:111 | The date part is the longest prefix without a 'T' |
| UserForm.DatePartOfTimestamp | app/admin/users/user-form-dialog.tsx:111 | The date part of "date" + "T" + "time" is the date |
| UserForm.UserRecordSpec | app/admin/users/user-form-dialog.tsx:102-112 | The record carries exactly the values. Editing a user keeps its id and createTime; otherwise the fresh id and the 'T'-free date part of now are used |
| UserForm.EditWithoutUserIsAdd | app/admin/users/user-form-dialog.tsx:78-112 | Edit mode without a user loads and saves as add mode does |
| UserForm.UnchangedEditKeepsUser | app/admin/users/user-form-dialog.tsx:78-112 | Saving a loaded user unchanged stores the same user |
| UserForm.CaptionsByMode | app/admin/users/user-form-dialog.tsx:131-150 | The title says 编辑用户 iff in edit mode and 添加用户 iff adding. The username is editable iff adding |
| UserForm.UserDialog.constructor | app/admin/users/user-form-dialog.tsx:64-76 | The form starts blank and not loading |
| UserForm.UserDialog.ResetEffect | app/admin/users/user-form-dialog.tsx:78-100 | The form and its defaults become the loaded values |
| UserForm.UserDialog.Input | app/admin/users/user-form-dialog.tsx:150 | Typing replaces the values, except the username in edit mode |
| UserForm.UserDialog.StartSubmit | app/admin/users/user-form-dialog.tsx:102-103 | Only reachable while no save runs, because the submit button is disabled then. Valid values start a save and set loading; invalid ones are held back and loading stays off |
| UserForm.UserDialog.CompleteSubmit | app/admin/users/user-form-dialog.tsx:104-125 | The record goes to onSuccess and close is requested. The form resets only after an add. Loading ends |
| UserForm.EditKeepsUsername | app/admin/users/user-form-dialog.tsx:108-150 | An edited user is saved under its own username and id, whatever was typed |
| AlertsPage.FilterAlertsSpec | app/admin/dashboard/alerts/page.tsx:105-109 | An alert is shown iff its level and status pass their filters, where 'all' passes everything. The order is kept. all/all shows every alert |
| AlertsPage.ExactlyOneFilterButtonHighlighted | app/admin/dashboard/alerts/page.tsx:247-309 | Whatever the filters, exactly one button in each row is highlighted |
| AlertsPage.BadgesAreDistinct | app/admin/dashboard/alerts/page.tsx:111-142 | Each level has its own icon and badge, and each status its own badge, with the listed texts |
| AlertsPage.WithStatus | app/admin/dashboard/alerts/page.tsx:144-154 | Only alerts with that id change, and only in their status |
| AlertsPage.OfferedActions | app/admin/dashboard/alerts/page.tsx:355-388 | Archive is always offered |
| AlertsPage.OfferedActionsSpec | app/admin/dashboard/alerts/page.tsx:355-382 | Acknowledge is offered iff the alert is active, and resolve iff it is not resolved |
| AlertsPage.ActionsOnlyMoveForward | app/admin/dashboard/alerts/page.tsx:144-388 | An offered action changes that alert's status and nothing else, never to an earlier one, and every action but archive moves it strictly forward |
| AlertsPage.CountsBounded | app/admin/dashboard/alerts/page.tsx:156-157 | critical-active ≤ active ≤ all |
| AlertsPage.LeavingActiveLowersCount | app/admin/dashboard/alerts/page.tsx:144-157 | Acknowledging or resolving never raises the active count, and lowers it when the id names an active alert |
| AlertsPage.AlertsPageState.constructor | app/admin/dashboard/alerts/page.tsx:101-103 | Both filters start at 'all', so every alert shows |
| AlertsPage.AlertsPageState.SetFilterLevel | app/admin/dashboard/alerts/page.tsx:251-272 | The level filter is set |
| AlertsPage.AlertsPageState.SetFilterStatus | app/admin/dashboard/alerts/page.tsx:285-306 | The status filter is set |
| AlertsPage.AlertsPageState.Acknowledge | app/admin/dashboard/alerts/page.tsx:144-148 | The alerts with that id become acknowledged, and the active count does not grow |
| AlertsPage.AlertsPageState.Resolve | app/admin/dashboard/alerts/page.tsx:150-154 | The alerts with that id become resolved, and the active count does not grow |
| FormRules.Required | app/admin/positions/position-form-dialog.tsx:36 | `z.string().min(1, message)` fails, with that field and message, iff the value is empty |
| JsPrelude.JsRem | components/ui/table-search-form.tsx:632 | JavaScript `%` with a positive divisor: equals Dafny's remainder for a non-negative dividend, and lies in (-b, 0] for a negative one |
| JsPrelude.SliceTo | app/admin/roles/columns.tsx:132 | `slice(0, end)` is a prefix of length min(end, n), or n+end for a negative end |
| JsPrelude.ToLower | app/admin/positions/page.tsx:204 | `toLowerCase` keeps the length and lowers each ASCII letter |
| JsPrelude.Count | app/admin/dashboard/alerts/page.tsx:156 | `filter(p).length` counts the elements that pass, at most n |
| JsPrelude.ContainsIgnoresCase | app/admin/positions/page.tsx:204 | An occurrence of the needle survives lower-casing both sides |
| JsPrelude.FilterMembership | app/admin/positions/page.tsx:198 | An element survives `filter(p)` iff it is in the list and passes |
| JsPrelude.FilterIsSubsequence | app/admin/positions/page.tsx:198 | `filter` keeps the list's order |

## Left out

- The DOM width measurement is left out. The container width is a parameter of `SearchFormState.Resize`.
- `getActionOffset` (components/ui/table-search-form.tsx:296-317) is left out. It is never called.
- zod and react-hook-form internals are left out: error objects, field registration, and the `zodResolver` round trip. Each dialog schema is a list of field errors. The email grammar (app/admin/users/user-form-dialog.tsx:37) is a parameter.
- `fieldProps` extras and render-time placeholders (components/ui/table-search-form.tsx:207-217) are left out. They only decorate inputs.
- The table library's sorted, filtered and paginated row models (app/admin/positions/data-table.tsx:81-98) are left out. `DataTable` keeps the four state slots, and `Pager` models the pagination state.
- Toasts, `console.error`, the simulated one-second API delay and the 200 ms reset delay are left out. In the role, department and user dialogs a save is split into a start and a completion, and the delayed reset in `RoleDialog.HandleOpenChange` is modelled as immediate. `PositionsPageState.FormSubmit` (app/admin/positions/page.tsx:149-160) is one atomic step instead. The page's `loading` flag is not modelled, and neither is a delete, disable or edit made while that save is pending. The flag only disables the position dialog's buttons (position-form-dialog.tsx:289,293).
- `Date.now()`, `new Date()` and locale time formatting are left out. The fresh id and the time are parameters.
- `avgUsersPerPosition` (app/admin/positions/page.tsx:226) is left out because it is floating point.
- `toLowerCase` and `trim` are modelled for ASCII letters and ECMAScript white space only. Unicode case mapping is left out.
- Integer widths are not modelled. Counts and page numbers are unbounded integers, which does not change behaviour at the sizes the UI handles.
- The middleware `matcher` (middleware.ts:25-27) is left out. Which requests reach the gate is the framework's concern.
- The alerts mock data, the header buttons and the archive button are left out. The archive button has no handler, and it is modelled as changing nothing.
- The breadcrumb map is a Dafny map. JavaScript prototype keys such as "constructor" are not modelled as entries.
- The static pages, the login form, the sidebar and the dashboard and monitor pages are left out. They hold no logic of the modelled core.
- The users, roles and departments pages themselves are left out. Their column sets and dialogs are modelled. `UserColumns` serves only as input to the search-form derivation.
- View, view-users, permissions and assign-users handlers are left out. They only show toasts. The row actions are modelled as the calls they dispatch.
- The page index after a page-size change is the table library's `floor(pageSize * pageIndex / newSize)`, taken from its documented behaviour, since that code is not part of this model.
- PositionColumns.RenderLevel and PositionColumns.RenderStatus model the columns' `render` functions as written. The positions table (app/admin/positions/data-table.tsx:58-79) reads a column's `cell`, and only the actions column gets a `cell` that calls `render`. The level and status columns have an `accessorKey` and no `cell`, so the table library's default cell shows their raw values as plain text, not these badges. Levels named after Object.prototype members, such as "constructor", are not modelled either: the source's truthy lookup into a plain object finds the inherited member and renders an empty badge, where the model renders the raw text.
- The search form's `loading` prop (components/ui/table-search-form.tsx:114,134), which disables the submit and reset buttons (lines 648 and 659), is left out. No page passes it, so it is always false.
