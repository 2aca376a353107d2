# Task dashboard front end: a verified model of its logic

This project models the parts of the administrative dashboard's front end that
carry logic, and proves properties about them in Dafny. It covers three
components.

- **Task table** (`src/components/Tasks/user/columns.jsx`). The three
  lookups map a task's type, status and priority to an icon or a class string.
  Each lookup exists twice: once at module level and once inside its column
  cell. The row's "actions" cell holds two state hooks, `isViewOpen` and
  `taskDetails`. The "View" handler and the detail dialog change them.
  Module `TaskDisplay` holds the lookups, the cells and the detail view.
  Module `TaskRow` holds the action cell: a pure state machine (`ViewState`,
  `AfterView`, `AfterOpenChange`, `Run`) and the class `RowActionCell`, whose
  methods are proved against that state machine.
- **User creation dialog** (`src/components/Users/add-user-dialog.jsx`).
  Module `UserForm` holds the form schema (`Validate`) and the enabling of the
  confirmation input. It also holds the two visibility toggles and the submit
  handler, with its request body, its success path (reset, close, reload) and
  its failure message. `FormState` with its transition functions is the
  specification. The class `AddUserDialog` is the component.
- **Search dialog** (`src/components/dashboard/SearchDialog.jsx`). Module
  `Search` holds the filter over the five fixed destinations, the "No results
  found." state and the route derived from a name. It also holds the class
  `SearchCommand`, with its `open`, `searchQuery` and navigation history.

Module `Text` models the two string operations these components use:
`toLowerCase`, for ASCII only, and `includes`. Module `Wrappers` holds `Option`.

Network requests, `localStorage`, toasts and the page reload are not executed
in the model. Each request's outcome is a parameter: `FetchOutcome` for the task
GET and `PostOutcome` for the registration POST. Toasts, posted bodies and
navigations are recorded as sequences in the component state. The reload is a
flag. The e-mail check of the schema library is a parameter
`isEmail: string -> bool`.

Two behaviours of the code are worth stating up front:

- Closing the detail dialog only sets `isViewOpen` to false. `taskDetails`
  keeps the last task, so the dialog stays mounted, closed
  (`TaskRow.AfterOpenChange`, `TaskRow.RunKeepsMounted`). A response whose
  body carries no task is stored unchecked: it clears the details and leaves
  `isViewOpen` true with no dialog mounted (`TaskRow.EmptyResponseUnmounts`).
- The form renders no element that displays the messages of the issues
  `UserForm.Validate` computes; in the model they only block submission.
  The form field wrappers are not part of this model.

## Model

| member | source | states |
|---|---|---|
| `TaskDisplay.TypeIcon` | src/components/Tasks/user/columns.jsx:33-44 | an icon is returned exactly for "Bug", "Feature" and "Documentation"; every other type gets null |
| `TaskDisplay.TypeIconMatchesTable` | src/components/Tasks/user/columns.jsx:33-44 | on every input, getTypeIcon equals the table Bug→red AlertCircle, Feature→blue Wrench, Documentation→yellow FileText, with null as default |
| `TaskDisplay.TypeIconsDistinct` | src/components/Tasks/user/columns.jsx:33-44 | the three known types get three different glyphs |
| `TaskDisplay.StatusColor` | src/components/Tasks/user/columns.jsx:46-61 | the result is the grey fallback exactly when the status is not one of the five known statuses |
| `TaskDisplay.StatusColorMatchesTable` | src/components/Tasks/user/columns.jsx:46-61 | on every input, getStatusColor equals the five-row status table with "bg-gray-500/15 border border-gray-300 text-gray-300" as default |
| `TaskDisplay.StatusColorsDistinct` | src/components/Tasks/user/columns.jsx:46-61 | two different known statuses get two different classes |
| `TaskDisplay.PriorityColor` | src/components/Tasks/user/columns.jsx:63-74 | the result is "text-gray-500" exactly when the priority is not HIGH, MEDIUM or LOW |
| `TaskDisplay.PriorityColorMatchesTable` | src/components/Tasks/user/columns.jsx:63-74 | on every input, getPriorityColor equals HIGH→"text-red-500", MEDIUM→"text-yellow-500", LOW→"text-green-500", default "text-gray-500" |
| `TaskDisplay.PriorityColorsDistinct` | src/components/Tasks/user/columns.jsx:63-74 | two different known priorities get two different classes |
| `TaskDisplay.LowerCaseFallsThrough` | src/components/Tasks/user/columns.jsx:47-73 | matching is case-sensitive: the lower-case spelling of any known name ("done", "high", "bug", ...) falls through to the default of all three lookups |
| `TaskDisplay.CellTypeIcon` | src/components/Tasks/user/columns.jsx:113-124 | the type cell's own copy of the lookup returns an icon exactly for "Bug", "Feature" and "Documentation" |
| `TaskDisplay.CellStatusColor` | src/components/Tasks/user/columns.jsx:138-153 | the status cell's own copy returns the grey fallback exactly for a status outside the five known ones |
| `TaskDisplay.CellPriorityColor` | src/components/Tasks/user/columns.jsx:167-178 | the priority cell's own copy returns "text-gray-500" exactly for a priority other than HIGH, MEDIUM and LOW |
| `TaskDisplay.InlineCopiesAgree` | src/components/Tasks/user/columns.jsx:113-178 | the copies of the three lookups inside the type, status and priority cells agree with the module-level helpers on every input |
| `TaskDisplay.TypeCell` | src/components/Tasks/user/columns.jsx:111-131 | the type cell shows the raw type text and the icon the module-level `getTypeIcon` gives |
| `TaskDisplay.StatusCell` | src/components/Tasks/user/columns.jsx:136-160 | the status cell is a badge with the status text and the module-level `getStatusColor` class plus " px-1.5 py-0.5 text-xs" |
| `TaskDisplay.PriorityCell` | src/components/Tasks/user/columns.jsx:165-185 | the priority cell shows the priority text with "font-medium " followed by the module-level `getPriorityColor` class |
| `TaskDisplay.Detail` | src/components/Tasks/user/columns.jsx:233-286 | the detail view has a type icon exactly for a known type; it shows the task's own title, team, message, status and priority text |
| `TaskDisplay.DetailMatchesCells` | src/components/Tasks/user/columns.jsx:242-274 | the detail view renders type, priority and status exactly as the table cells do |
| `TaskDisplay.BugTodoHighDetail` | src/components/Tasks/user/columns.jsx:242-274 | a Bug/TODO/HIGH task shows the red bug icon, the yellow TODO badge and red priority text |
| `TaskRow.AfterView` | src/components/Tasks/user/columns.jsx:193-208 | a response carrying a task stores it and shows the dialog; a response without one clears the details and leaves `isViewOpen` true with nothing mounted; a failed fetch changes nothing; consistency is preserved except by a response without a task |
| `TaskRow.EmptyResponseUnmounts` | src/components/Tasks/user/columns.jsx:203-204 | from any state, a response without a task leaves the row open, with no details and no dialog shown |
| `TaskRow.AfterOpenChange` | src/components/Tasks/user/columns.jsx:229-230 | the dialog's callback sets only `isViewOpen`; `taskDetails` is kept, so the dialog stays mounted |
| `TaskRow.RunKeepsConsistent` | src/components/Tasks/user/columns.jsx:190-230 | from a consistent state, every sequence of views and open/close events keeps "open implies details present", provided every response carries a task |
| `TaskRow.RunKeepsMounted` | src/components/Tasks/user/columns.jsx:193-230 | once details are fetched, no sequence of events whose responses carry a task clears them |
| `TaskRow.RunShowsLastFetched` | src/components/Tasks/user/columns.jsx:193-230 | the details kept are those of the last response, whatever failures and open/close events follow |
| `TaskRow.CloseThenFailedView` | src/components/Tasks/user/columns.jsx:203-230 | closing and then a failed "View" leaves the old task stored with the dialog closed |
| `TaskRow.RowActionCell.constructor` | src/components/Tasks/user/columns.jsx:190-191 | the cell starts closed with no details |
| `TaskRow.RowActionCell.HandleView` | src/components/Tasks/user/columns.jsx:193-208 | `handleView` moves the state exactly as `AfterView` says |
| `TaskRow.RowActionCell.OnOpenChange` | src/components/Tasks/user/columns.jsx:229-230 | `onOpenChange` moves the state exactly as `AfterOpenChange` says |
| `TaskRow.RowActionCell.Render` | src/components/Tasks/user/columns.jsx:229-290 | a dialog is rendered exactly when `taskDetails` is present; its `open` is `isViewOpen` and its content is the task's detail view |
| `UserForm.Validate` | src/components/Users/add-user-dialog.jsx:35-43 | no issue exactly when username has at least 3 characters, the email is well formed, the password has at least 8 and equals the confirmation; each rule's issue is reported exactly when it fails, the mismatch as "Passwords don't match" on `confirmPassword` |
| `UserForm.RequestBody` | src/components/Users/add-user-dialog.jsx:65-69 | the body holds the draft's username, email and password |
| `UserForm.RequestBodyIgnoresConfirmation` | src/components/Users/add-user-dialog.jsx:65-69 | the confirmation never reaches the request: changing it leaves the body unchanged |
| `UserForm.ErrorDescription` | src/components/Users/add-user-dialog.jsx:89 | the server's message when present and non-empty, otherwise "Failed to create user. Please try again."; never empty |
| `UserForm.ErrorToast` | src/components/Users/add-user-dialog.jsx:87-91 | the failure notification is the destructive "Error!" toast; its description is never empty and is the server's message when that is present and non-empty; it never equals the success toast |
| `UserForm.Edit` | src/components/Users/add-user-dialog.jsx:95-98 | the edited field takes the typed value and every other field, flag, toast and post stays; `isPasswordFilled` then matches a non-empty password, so the confirmation is disabled exactly when the password is empty |
| `UserForm.TogglePassword` | src/components/Users/add-user-dialog.jsx:169 | flips `showPassword` and changes nothing else |
| `UserForm.ToggleConfirmPassword` | src/components/Users/add-user-dialog.jsx:204-205 | flips `showConfirmPassword` and changes nothing else; it is only reachable while the confirmation is enabled |
| `UserForm.TogglesAreIndependentInvolutions` | src/components/Users/add-user-dialog.jsx:47-48 | toggling either visibility twice restores the state; neither toggle touches the other |
| `UserForm.Submit` | src/components/Users/add-user-dialog.jsx:61-93 | a draft the schema rejects changes nothing and posts nothing; an accepted one posts its body; success resets to the four empty strings, closes, reloads and adds the success toast; failure keeps the values and adds the error toast |
| `UserForm.MismatchNeverPosted` | src/components/Users/add-user-dialog.jsx:40-43 | a draft whose passwords differ is reported as "Passwords don't match" and never posted |
| `UserForm.OneNotificationPerPost` | src/components/Users/add-user-dialog.jsx:75-91 | each submit posts at most once and adds exactly as many notifications as requests |
| `UserForm.RejectedWithServerMessage` | src/components/Users/add-user-dialog.jsx:85-91 | a rejection carrying "Email taken" shows exactly that text and keeps the typed values |
| `UserForm.AddUserDialog.constructor` | src/components/Users/add-user-dialog.jsx:47-59 | the dialog mounts with empty values, both toggles off and the confirmation disabled; the invariant `Valid` (`isPasswordFilled` in step with the password) holds |
| `UserForm.AddUserDialog.OnChange` | src/components/Users/add-user-dialog.jsx:95-98 | an input change followed by the password effect moves the state as `Edit` says and establishes `Valid` |
| `UserForm.AddUserDialog.OnTogglePassword` | src/components/Users/add-user-dialog.jsx:169 | moves the state as `TogglePassword` says and keeps `Valid` |
| `UserForm.AddUserDialog.OnToggleConfirmPassword` | src/components/Users/add-user-dialog.jsx:204-205 | moves the state as `ToggleConfirmPassword` says and keeps `Valid` |
| `UserForm.AddUserDialog.OnSubmit` | src/components/Users/add-user-dialog.jsx:61-93 | `handleSubmit(onSubmit)` moves the state as `Submit` says and keeps `Valid` |
| `UserForm.AddUserDialog.ConfirmInputDisabled` | src/components/Users/add-user-dialog.jsx:194-196 | in every state satisfying `Valid`, the confirmation input is disabled exactly when the password is empty |
| `Text.ContainsIff` | src/components/dashboard/SearchDialog.jsx:13 | `includes` holds exactly when the needle occurs at some index of the string |
| `Search.Filter` | src/components/dashboard/SearchDialog.jsx:13 | an item is in the result exactly when it is in the list and its lower-cased name includes the lower-cased query, and each matching item appears as often as in the list |
| `Search.FilterIsSubsequence` | src/components/dashboard/SearchDialog.jsx:13 | the result keeps the list's order: it is a subsequence of the items |
| `Search.EmptyQueryKeepsAll` | src/components/dashboard/SearchDialog.jsx:13 | the empty query returns every item, in the original order |
| `Search.FilterCaseInsensitive` | src/components/dashboard/SearchDialog.jsx:13 | two queries with the same lower-case form give the same result |
| `Search.FilterIgnoresQueryCase` | src/components/dashboard/SearchDialog.jsx:13 | a query and its lower-case form give the same result |
| `Search.TaSelectsOnlyTasks` | src/components/dashboard/SearchDialog.jsx:77-93 | over the five destinations, every query that lower-cases to "ta" selects only "Tasks" |
| `Search.TaQueriesLowerToTa` | src/components/dashboard/SearchDialog.jsx:13 | "ta" and "TA" both lower-case to "ta", and over the five destinations each of them selects exactly ["Tasks"] |
| `Search.EmptyIffNoneMatch` | src/components/dashboard/SearchDialog.jsx:13 | the filter is empty exactly when no item matches the query |
| `Search.View` | src/components/dashboard/SearchDialog.jsx:45-68 | "No results found." is shown exactly when no item matches; otherwise the non-empty filtered list is shown |
| `Search.RouteOf` | src/components/dashboard/SearchDialog.jsx:57 | the route is "/" followed by the lower-cased name |
| `Search.ItemRoutes` | src/components/dashboard/SearchDialog.jsx:57 | the five routes are /dashboard, /tasks, /users, /profile and /account |
| `Search.ItemRoutesDistinct` | src/components/dashboard/SearchDialog.jsx:57 | no two destinations share a route |
| `Search.Select` | src/components/dashboard/SearchDialog.jsx:54-57 | clicking a listed item closes the dialog, clears the query and appends the item's route to the navigations; the next view lists all items |
| `Search.SearchCommand.constructor` | src/components/dashboard/SearchDialog.jsx:10-11 | the dialog starts closed with an empty query |
| `Search.SearchCommand.FilteredItems` | src/components/dashboard/SearchDialog.jsx:13 | the listed items are exactly the items matching the current query |
| `Search.SearchCommand.OnSearchClick` | src/components/dashboard/SearchDialog.jsx:20 | the search button opens the dialog and changes nothing else |
| `Search.SearchCommand.OnOpenChange` | src/components/dashboard/SearchDialog.jsx:25 | `onOpenChange` sets `open` only; closing keeps the query |
| `Search.SearchCommand.OnQueryChange` | src/components/dashboard/SearchDialog.jsx:38 | typing sets the query only |
| `Search.SearchCommand.OnItemClick` | src/components/dashboard/SearchDialog.jsx:54-57 | an item click moves the state as `Select` says |

## Left out

- Row selection (`toggleAllPageRowsSelected`, `toggleSelected`): its state lives in the table library, which is not part of this model.
- The HTTP calls: `axios`, the bearer token from `localStorage`, the base URL from the environment, the request path and headers. Only each request's outcome is modelled, as an input: for the task GET, a response with a task, a response without one, or an error.
- `console.error` on the two failure paths, and the toast machinery. Toasts are recorded as values.
- `window.location.reload`: recorded as a flag. The fresh page it leads to is not modelled.
- The zod e-mail regex: it is the parameter `isEmail`.
- react-hook-form internals: `watch`, the resolver and the effect scheduling. The `isPasswordFilled` effect is modelled as running right after each change. The one render in which it is stale is not modelled.
- `new Date(...).toLocaleString()` for the two timestamps: locale- and time-dependent. The detail view keeps the raw strings.
- Rendering, class names beyond the lookup results, and the dialog, dropdown, badge and card components.
- `src/layout/navbar.jsx`: static markup and a theme choice of logo, with no logic to verify.
- Concurrency: each fetch and each POST settles as one atomic step. Races between overlapping requests and updates after unmount are not modelled.
- `Text.Lower`: lower-cases ASCII letters only, not the full Unicode mapping of `toLowerCase`.
- `UserForm.Validate`: lengths are counted in characters, not in the UTF-16 code units JavaScript counts.
