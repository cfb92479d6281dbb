# Tutoring front end: a Dafny model of its client-side rules

The system is the web front end of a university tutoring service (students,
tutors, administrators and checkers; tutoring sessions and schedules). Data and
business rules live behind a remote HTTP API. This project models the rules
the front end enforces itself, and proves properties of them:

- **Api** (`lib/api.ts`): the API base URL, the bearer-token headers, how a
  request is composed, the error message chosen for a response that is not OK,
  and the endpoint table. The table gives each endpoint's path, method, body and
  `includeAuth` flag. `fetch` is an abstract `FetchResult`.
- **Auth** (`lib/auth-context.tsx`): the session provider as a class. Its fields
  are the token and user in memory and local storage (a map) with the two keys
  `auth_token` and `auth_user`. It covers the start-up restore, `login`, `logout`
  and the `useAuth` guard. The stored user is written with `JSON.stringify` and
  read back with `JSON.parse`, and the two form a proved round trip.
- **DataTable** (`components/data-table.tsx`): the generic table. It has a
  case-insensitive search over every field of every row and pages of ten rows.
  It has previous and next buttons. It renders cells, the empty state and the
  pager label. Its state (`search`, `currentPage`) lives in a class.
- **Sidebar** (`components/app-sidebar.tsx`): the navigation table, filtered by
  the user's role, and the active entry.
- **Dashboard** (`app/dashboard/page.tsx`): the five counts fetched together,
  the stat cards for each role, and the quick links for each role.
- **Profile** (`app/perfil/page.tsx`): the password-change form. Its checks run
  in order and stop before any call.
- **Reports** (`app/reportes/page.tsx`): the report form for four kinds, the
  report shown as a field/value table, and its export.
- **NewUser** (`app/usuarios/nuevo/page.tsx`): the administrator's form for new
  users. Submitting it makes the registration call for the chosen role, with a
  body built from the form.
- **RegisterStudent** (`app/register/estudiante/page.tsx`): student
  self-registration with a password-confirmation check.
- Support modules:
  - **Builtins**: the JavaScript built-ins the rules use. These are
    `toLowerCase`, `includes`, `slice`, `filter`, `String(n)`, `replace(/_/g, …)`
    and `s || fallback`.
  - **Json**: JSON values with truthiness, `String(v)`, `obj[key]`, object
    spread, `JSON.stringify` and a parser for flat objects of strings.
  - **Effects**: what a page does that the model records instead of performing.
    Each page keeps a `trace` of API calls, router navigations, toasts, changes
    to its loading flag and downloads.
  - **Wrappers**: `Option` and `Result`.

Each page is a class. Its fields are the page's React state plus its `trace`. Each
handler is a method that takes the outcome of its API call as a parameter, a
`Result<Json, string>` whose error is the thrown message. The method states the
new state and exactly which events it appends to the trace.

Two details of the table's behaviour:
- An empty search does not keep every row. A row with no fields is dropped,
  because `some` over no values is false (`DataTable.EmptySearchMatches`).
- A cell whose key is missing reads `undefined`, not an empty string
  (`DataTable.RenderCell`).

## Model

| member | source | states |
|---|---|---|
| Builtins.ToLower | components/data-table.tsx:37-38 | lowercasing keeps the length, and maps each character to itself or, for `A`–`Z`, to its lower-case letter |
| Builtins.ToLowerIdempotent | components/data-table.tsx:37-38 | lowercasing twice gives the same string as lowercasing once |
| Builtins.ContainsIffOccurs | components/data-table.tsx:38 | `includes` holds exactly when the needle occurs at some offset of the string |
| Builtins.ContainsEmpty | components/data-table.tsx:38 | every string includes the empty string |
| Builtins.Slice | components/data-table.tsx:44 | `slice` never returns more items than its input has |
| Builtins.SliceWindow | components/data-table.tsx:44 | `slice(start, start + k)` from a non-negative start is `s[start..min(start + k, n))`, or empty past the end, and holds at most `k` items |
| Builtins.Filter | components/data-table.tsx:36-39 | `filter` returns no more items than it got, and only items that are in its input and pass the test |
| Builtins.FilterMembership | components/data-table.tsx:36-39 | an item is kept iff it is in the input and passes the test |
| Builtins.FilterIsSubsequence | components/data-table.tsx:36-39 | the kept items are a subsequence of the input, in the input's order |
| Builtins.FilterConcat | components/data-table.tsx:36-39 | filtering a concatenation is the concatenation of the filtered parts |
| Builtins.FilterKeepsAll | components/data-table.tsx:36-39 | when every item passes, the result is the input itself |
| Builtins.NatToString | app/dashboard/page.tsx:63 | the decimal text of a count is non-empty, all digits, and has no leading zero |
| Builtins.NatToStringRoundTrip | app/dashboard/page.tsx:63 | reading back the digits of `String(n)` gives `n` |
| Builtins.IntToStringInjective | lib/api.ts:48 | two integers with the same decimal text are equal |
| Builtins.ReplaceAll | app/reportes/page.tsx:247 | `replace(/a/g, b)` keeps the length and replaces exactly the occurrences of `a` |
| Builtins.OrElse | app/perfil/page.tsx:64 | `s \|\| fallback` is `s` when `s` is non-empty and `fallback` when it is empty |
| Json.Lookup | components/data-table.tsx:97 | `obj[key]` is defined iff some member has that key, and then it is the value of such a member |
| Json.LookupAt | components/data-table.tsx:97 | when no earlier member has the key, `obj[key]` is the value of the first member that does |
| Json.Assign | app/register/estudiante/page.tsx:27-32 | `{...obj, [key]: v}` reads `v` at `key` and leaves every other key's value unchanged |
| Json.AssignKeys | app/register/estudiante/page.tsx:27-32 | after `{...obj, [key]: v}` an existing key keeps its place and a new key is appended at the end |
| Json.AssignKeepsKeyPrefix | app/register/estudiante/page.tsx:27-32 | `{...obj, [key]: v}` never moves the keys already in front |
| Json.FlatObjectRoundTrip | lib/auth-context.tsx:43 | `JSON.parse(JSON.stringify(o))` gives back `o`, members in order, for every object whose values are strings (an object's keys are distinct) |
| Json.FromPairs | lib/auth-context.tsx:32 | the object `JSON.parse` builds from parsed pairs of strings holds only strings |
| Json.FromPairsDistinct | lib/auth-context.tsx:32 | pairs with distinct keys build exactly the object they list, in order |
| Json.LastPairWins | lib/auth-context.tsx:32 | when a key is repeated, the object `JSON.parse` builds holds the key's last value |
| Api.ApiBase | lib/api.ts:1-2 | the configured base when it is set and non-empty, else the built-in default address |
| Api.GetToken | lib/api.ts:7-10 | a token is returned iff the code runs in a browser and `auth_token` is stored, and it is the stored value |
| Api.BuildHeaders | lib/api.ts:15-29 | without auth the headers are only the JSON content type; with auth a missing or empty token is the error "No authentication token found", and otherwise `Authorization` is `Bearer <token>` |
| Api.Compose | lib/api.ts:34-45 | the request fails iff the headers fail; its URL is the base followed by the endpoint, its body is the caller's, and the caller's headers override the defaults, which fill in the rest |
| Api.ErrorMessageChoice | lib/api.ts:47-53 | the message for a response that is not OK is the body's `message` when the body parses and that value is truthy, else `HTTP <status>` |
| Api.ServerMessageShown | lib/api.ts:47-53 | a body whose `message` is a non-empty string is shown as that exact string |
| Api.StatusMessagesDistinct | lib/api.ts:47-53 | when neither body parses, different statuses give different messages |
| Api.Outcome | lib/api.ts:39-56 | a network failure rejects with its message; a response that is not OK rejects with the chosen message; an OK response resolves to its parsed body or rejects with the parse error |
| Api.Invoke | lib/api.ts:34-57 | a call that sends nothing rejects with the missing-token error; a call that sends resolves as its response does |
| Api.PublicIffNoAuth | lib/api.ts:62-124 | exactly login, recover, resetPassword, verifyEmail and the four registrations pass `includeAuth = false`, and every other endpoint keeps the default `true` |
| Api.PublicRequestsNeedNoToken | lib/api.ts:15-45 | a public endpoint always sends its request, without an `Authorization` header |
| Api.ProtectedRequestsCarryToken | lib/api.ts:15-45 | a protected endpoint sends nothing iff no non-empty token is stored; otherwise it sends `Bearer <token>` to the base URL followed by its path |
| Reports.ReportPathsDistinct | lib/api.ts:196-206 | the four report calls go to four pairwise different paths, whatever their arguments |
| DataTable.FilteredMembership | components/data-table.tsx:36-39 | a row is shown iff it is in the data and one of its fields, as text and lowercased, contains the lowercased search |
| DataTable.FilteredKeepsOrder | components/data-table.tsx:36-39 | the shown rows are a subsequence of the data, in order |
| DataTable.FilteredConcat | components/data-table.tsx:36-39 | the search decides row by row: searching a concatenation concatenates the results |
| DataTable.EmptySearchMatches | components/data-table.tsx:36-39 | with no search text a row matches iff it has at least one field |
| DataTable.EmptySearchKeepsAll | components/data-table.tsx:36-39 | with no search text and every row having a field, all rows are shown in order |
| DataTable.EmptyRowNeverShown | components/data-table.tsx:36-39 | a row without fields is never shown, whatever the search |
| DataTable.PageCount | components/data-table.tsx:42 | the page count is zero iff there are no rows, and otherwise is the least `k` with `10 k >= n` |
| DataTable.PageWindow | components/data-table.tsx:43-44 | page `p >= 1` shows `filtered[(p-1)*10 .. min(p*10, n))`, or nothing past the end, and never more than ten rows |
| DataTable.PagesUpToPrefix | components/data-table.tsx:42-44 | pages 1 to `k`, read in order, are the first `min(10 k, n)` filtered rows |
| DataTable.PagesReassemble | components/data-table.tsx:42-44 | pages 1 to `totalPages`, read in order, are exactly the filtered rows |
| DataTable.NavigationStaysInRange | components/data-table.tsx:120-135 | from a page in `[1, totalPages]` both handlers stay in that range; an enabled button moves by exactly one page, and a button is disabled exactly where its handler would not move |
| DataTable.RenderCell | components/data-table.tsx:97 | a function accessor gives its result for the row; a key gives `String(row[key])`, which is `undefined` for a missing key |
| DataTable.RenderRow | components/data-table.tsx:95-99 | a row renders one cell per column, in column order |
| DataTable.RenderBody | components/data-table.tsx:78-101 | the empty-state row appears iff the current page has no rows; otherwise there is one rendered row per shown record |
| DataTable.RenderPager | components/data-table.tsx:107-115 | the pager appears iff there is more than one page; its label runs from `startIndex + 1` to `min(startIndex + 10, n)` of `n`, and on a page in range it counts exactly the rows shown |
| DataTable.EmptyStateIffNothingMatches | components/data-table.tsx:78-87 | on a page in range the empty state appears iff no row matches the search |
| DataTable.Table.constructor | components/data-table.tsx:31-32 | a new table has an empty search and is on page 1 |
| DataTable.Table.SetSearch | components/data-table.tsx:54-57 | typing sets the search text and always returns to page 1, which is in range |
| DataTable.Table.ClickPrevious | components/data-table.tsx:107-121 | the page moves to `max(1, p - 1)` only when the pager is shown and the button is enabled, and stays in range |
| DataTable.Table.ClickNext | components/data-table.tsx:107-135 | the page moves to `min(totalPages, p + 1)` only when the pager is shown and the button is enabled, and stays in range |
| DataTable.Table.ClickRow | components/data-table.tsx:93 | clicking the `i`-th shown row hands exactly that row to `onRowClick`, and nothing without a callback |
| DataTable.TwentyFiveRows | components/data-table.tsx:33-44 | 25 rows with no search make three pages of rows 1–10, 11–20 and 21–25, with Anterior disabled on page 1 and Siguiente on page 3 |
| DataTable.SearchAna | components/data-table.tsx:36-39 | searching "an" in Ana and Luis keeps only Ana, because the search ignores case |
| DataTable.NoDataEmptyState | components/data-table.tsx:78-87 | with no data the body is the empty state and there is no pager |
| Sidebar.VisibleItems | components/app-sidebar.tsx:91 | the visible entries are never more than the table's |
| Sidebar.NoUserNoItems | components/app-sidebar.tsx:91 | with no signed-in user no entry is listed |
| Sidebar.VisibleIff | components/app-sidebar.tsx:91 | an entry is listed iff it is in the table and the user's role is among its roles |
| Sidebar.VisibleKeepsOrder | components/app-sidebar.tsx:91 | listed entries keep the table's order |
| Sidebar.VisibleForRole | components/app-sidebar.tsx:42-91 | for a signed-in user the listed entries are the table's entries, in order, that name the user's role |
| Sidebar.AdminSeesAll | components/app-sidebar.tsx:42-91 | ADMIN sees all seven entries |
| Sidebar.StudentItems | components/app-sidebar.tsx:42-91 | STUDENT sees exactly Inicio and Tutorías |
| Sidebar.TutorItems | components/app-sidebar.tsx:42-91 | TUTOR sees exactly Inicio, Estudiantes and Tutorías |
| Sidebar.CheckerItems | components/app-sidebar.tsx:42-91 | CHECKER sees exactly Inicio, Estudiantes, Tutores, Tutorías and Reportes |
| Sidebar.UnknownRoleSeesNothing | components/app-sidebar.tsx:91 | a role outside the four sees nothing |
| Sidebar.HrefsDistinct | components/app-sidebar.tsx:42-85 | the table's targets are pairwise distinct |
| Sidebar.AtMostOneActive | components/app-sidebar.tsx:114 | two listed entries active on the same path are the same entry |
| Auth.UserMembers | lib/auth-context.tsx:43 | the stored form of a user is an object whose values are all strings |
| Auth.UserMembersRead | lib/types.ts:11-18 | reading a user's fields back from its object gives that user, optional fields included |
| Auth.UserRoundTrip | lib/auth-context.tsx:43 | parsing the stored form of a user gives back that user |
| Auth.Restored | lib/auth-context.tsx:27-30 | start-up finds a session iff both keys are stored and non-empty, and then it finds those two values |
| Auth.LoginStore | lib/auth-context.tsx:42-43 | login writes `auth_token` and `auth_user` and leaves every other key as it was |
| Auth.LogoutStore | lib/auth-context.tsx:63-64 | logout removes exactly the two keys |
| Auth.LogoutThenRestartRestoresNothing | lib/auth-context.tsx:25-35 | after a logout a fresh start-up restores nothing |
| Auth.LoginThenRestartRestoresSession | lib/auth-context.tsx:25-43 | after a login with a non-empty token a fresh start-up restores that token and that user; after one with an empty token it restores nothing |
| Auth.AuthProvider.constructor | lib/auth-context.tsx:20-22 | the provider starts with no user and no token, and loading |
| Auth.AuthProvider.RestoreSession | lib/auth-context.tsx:25-35 | with no session stored nothing is set and loading ends; otherwise token and user are set and loading ends; a stored user that does not parse throws after the token is set, before the user, and loading stays on |
| Auth.AuthProvider.Login | lib/auth-context.tsx:37-56 | a failed login call changes nothing and rethrows; otherwise both keys and both in-memory values are set, then `getUser` runs with the stored token, and only when it succeeds does the router go to `/dashboard`; its error is rethrown |
| Auth.AuthProvider.Logout | lib/auth-context.tsx:58-68 | the logout call is made, both keys are removed, token and user are cleared, and the router goes to `/login`, whatever the call's outcome |
| Auth.EmptyTokenFailsAfterStoring | lib/auth-context.tsx:42-49 | with an empty response token, the `getUser` after storing is refused before any request with the missing-token error |
| Auth.UseAuth | lib/auth-context.tsx:73-78 | outside a provider the error "useAuth debe ser usado dentro de un AuthProvider" is thrown; inside one the provider's own context is returned |
| Dashboard.LengthOf | app/dashboard/page.tsx:38-42 | `length` throws exactly on `null`, and an array's length is its number of items |
| Dashboard.ValueOf | app/dashboard/page.tsx:63 | a card shows the stored count when there is one, else the dash |
| Dashboard.AdminCards | app/dashboard/page.tsx:59-85 | ADMIN gets four cards: users, students, tutorias and cronogramas, in that order |
| Dashboard.TutorCards | app/dashboard/page.tsx:87-101 | TUTOR gets tutorias then students |
| Dashboard.StudentCards | app/dashboard/page.tsx:103-111 | STUDENT gets tutorias only |
| Dashboard.OtherRolesNoCards | app/dashboard/page.tsx:113-114 | CHECKER, any other role, and no user get no cards |
| Dashboard.CardsShowFetchedCounts | app/dashboard/page.tsx:57-116 | every card shows the users, students, tutorias or cronogramas count, and no card shows the tutor count |
| Dashboard.ValueTextTellsCountFromDash | app/dashboard/page.tsx:63 | a count's text is never the dash |
| Dashboard.ValueTextInjective | app/dashboard/page.tsx:63 | two card values with the same text are the same value |
| Dashboard.QuickLinksByRole | app/dashboard/page.tsx:155-252 | ADMIN gets /usuarios and /cronograma, TUTOR /tutorias and /estudiantes, CHECKER /reportes and /tutorias, STUDENT /tutorias, and any other role nothing |
| Dashboard.QuickLinksInSidebar | app/dashboard/page.tsx:155-252 | every quick link leads to a page the sidebar also lists for that user |
| Dashboard.DashboardPage.constructor | app/dashboard/page.tsx:13-19 | the page starts with no counts |
| Dashboard.DashboardPage.FetchStats | app/dashboard/page.tsx:21-47 | the five list calls are made; the counts become the five lengths only when every call succeeds and no list is `null`, and otherwise stay as they were |
| Profile.Validate | app/perfil/page.tsx:30-46 | the change may be sent iff the passwords match and the new one has at least 6 characters; any reported error is the mismatch or the length message |
| Profile.MismatchReportedFirst | app/perfil/page.tsx:30-37 | a mismatch is reported even when the password is also too short |
| Profile.TooShortOnlyWhenMatching | app/perfil/page.tsx:39-46 | the length error is reported iff the passwords match and the new one is shorter than 6 |
| Profile.ContactText | app/perfil/page.tsx:121-125 | a missing or empty e-mail or phone reads "No registrado"; any other value is shown as it is |
| Profile.ProfilePage.constructor | app/perfil/page.tsx:20-25 | the three password fields start empty, and the page is not loading |
| Profile.ProfilePage.HandlePasswordChange | app/perfil/page.tsx:27-71 | a failed check toasts its error and changes nothing else, with no call and no loading; otherwise loading turns on, the change is sent with the old and new passwords, success toasts and clears the three fields, failure toasts the error and keeps them, and loading ends |
| Profile.ChangeRequestBody | lib/api.ts:107-111 | the change request carries exactly `old_password` and `new_password`, and is a protected call |
| Reports.PlanFor | app/reportes/page.tsx:32-77 | only the four known kinds ever fetch; any other kind fetches nothing |
| Reports.PlanUsesOwnField | app/reportes/page.tsx:33-75 | each known kind reads only its own field: it is refused iff that field is empty, and otherwise calls the report path built from that field |
| Reports.FieldLabel | app/reportes/page.tsx:247 | a label is the key with every underscore, and nothing else, replaced by a space |
| Reports.FieldLabelIdempotent | app/reportes/page.tsx:247 | a label is its own label |
| Reports.FieldLabelKeepsPlainKeys | app/reportes/page.tsx:247 | a key without underscores is its own label |
| Reports.CellText | app/reportes/page.tsx:249 | `null` reads as the JSON text `null`, and a string reads as itself |
| Reports.ReportRows | app/reportes/page.tsx:245-252 | an object gives one row per member, in order, labelled by the member's key; an array gives one row per item under its index; a string gives one row per character; other values give no rows |
| Reports.ReportsPage.constructor | app/reportes/page.tsx:17-24 | the four fields start empty, with no report and no loading |
| Reports.ReportsPage.HandleGenerateReport | app/reportes/page.tsx:26-93 | loading turns on and the report is cleared; an empty field toasts its message without a call; a known kind calls its report, and the result is kept only on success; loading is off on every path, the early return included |
| Reports.ReportsPage.HandleExport | app/reportes/page.tsx:95-111 | a falsy report exports nothing; otherwise the report is downloaded and a toast confirms it |
| NewUser.Changed | app/usuarios/nuevo/page.tsx:35-42 | the named field takes the typed value, every other field is unchanged, and no field is lost |
| NewUser.RoleId | app/usuarios/nuevo/page.tsx:44-49 | a role id exists exactly for the four roles: STUDENT is `estudiante`, TUTOR `tutor`, ADMIN `administrador` and CHECKER `verificador` |
| NewUser.RegistrationByRole | app/usuarios/nuevo/page.tsx:71-110 | exactly one registration call is made for each of the four roles, the one for that role, and it is public; no call is made for any other role |
| NewUser.RegistrationBody | app/usuarios/nuevo/page.tsx:57-110 | the sent user carries the generated id, its role's id and `active: true`; the role's record carries the same id and the form's code under `<role>_code` |
| NewUser.SpecialtyOnlyForTutor | app/usuarios/nuevo/page.tsx:81-90 | only a tutor's record carries a specialty, and it is the form's |
| NewUser.BodySections | app/usuarios/nuevo/page.tsx:71-110 | the body holds the user object under `user` and the role's record under the role's key |
| NewUser.UserObjectFields | app/usuarios/nuevo/page.tsx:59-69 | the user object's `id`, `role_id` and `active` are the generated id, the mapped role and `true` |
| NewUser.RoleRecordFields | app/usuarios/nuevo/page.tsx:71-110 | the role's record carries `user_id` and its code, and carries `specialty` iff the role is TUTOR |
| NewUser.NewUserPage.constructor | app/usuarios/nuevo/page.tsx:21-32 | the form starts with every declared field empty |
| NewUser.NewUserPage.HandleChange | app/usuarios/nuevo/page.tsx:35-42 | the form after a change is the old form with the named field updated |
| NewUser.NewUserPage.HandleSubmit | app/usuarios/nuevo/page.tsx:52-128 | loading turns on; the role's call is made if there is one; the success toast and `/usuarios` follow unless that call failed, also when no call was made; a failure toasts its error without navigating; loading ends |
| RegisterStudent.RegisterStudentPage.constructor | app/register/estudiante/page.tsx:17-22 | the four fields start empty, in their declared order |
| RegisterStudent.RegisterStudentPage.HandleChange | app/register/estudiante/page.tsx:27-32 | the named field takes the typed value and every other field is unchanged |
| RegisterStudent.RegisterStudentPage.HandleSubmit | app/register/estudiante/page.tsx:34-64 | differing passwords toast the mismatch with no call and no loading; otherwise the whole form is sent, success goes to `/login`, failure toasts the error or the default text without navigating, and loading ends |
| RegisterStudent.DeclaredFieldsStayFirst | app/register/estudiante/page.tsx:27-32 | editing never reorders or drops the four declared fields |
| RegisterStudent.SentBodyCarriesConfirmation | app/register/estudiante/page.tsx:49 | the body sent is the form itself, confirmation included, through a public call |
| RegisterStudent.ConfirmationCheck | app/register/estudiante/page.tsx:37-44 | an untouched form passes the check, and after typing both passwords it fails iff they differ |

## Left out

- Network I/O: `fetch`, the remote API's behaviour and reading a response body are abstract. A response is a `FetchResult`, and a page's call outcome is a `Result`.
- Browser services: local storage is a map. The router, toasts and the export's download are trace events. `crypto.randomUUID()` is a parameter of `NewUser.NewUserPage.HandleSubmit`.
- The export's `Blob`/URL mechanics, the download link, and the date in the file name are not modelled. `Reports.ReportsPage.HandleExport` records the exported value only.
- The 30-second refresh timer of the dashboard is not modelled. `Dashboard.DashboardPage.FetchStats` models one refresh.
- The `console.error` logging in every handler is not modelled. It changes nothing the page shows.
- JSX layout, styling, icons, and the `capitalize` CSS on report labels are not modelled. Only the rendering decisions are.
- Builtins.ToLower: lowercases ASCII letters only, because Unicode case folding is outside the model.
- Profile.Validate: the length check counts characters, not UTF-16 code units; `Dashboard.LengthOf` does the same for a string.
- Json: numbers are integers, because no rule here depends on fractions.
- Json.FlatObjectRoundTrip: `JSON.stringify` escapes only `"` and `\`, because the stored user's strings are the only serialised data read back.
- Reports.CellText: the two-space indentation of `JSON.stringify(value, null, 2)` is not modelled. For nested values the cell is the compact JSON text.
- Json.ParseFlatObject: only the compact text `JSON.stringify` writes for an object of strings is parsed: no whitespace between tokens, and no escapes other than `\"` and `\\`. Other text, valid JSON included, gives `None`. A repeated key keeps its first place and takes its last value, as in `JSON.parse`.
- Auth.AuthProvider.RestoreSession: a stored user is read only from that compact text, as an object of strings with the four required fields. Any other stored value is treated as a parse failure (a throw). The source would also accept other valid JSON as the user.
- Reports.ReportsPage: `null` and `undefined` are both `JNull`. The page treats them alike, since both are falsy.
- DataTable: `data` and `columns` are fixed for a mounted table. The component never re-clamps the current page when they change.
- DataTable: the search and page handlers and the row click are modelled as calls. React's batching of state updates is not modelled.
- NewUser.NewUserPage: the form is a map, because it is only read by key. The student form in RegisterStudent is sent whole, so it is an ordered list of members.
- The remaining pages follow the same pattern: login, recovery, the list pages, and the pages for new sessions and schedules. Each collects fields and makes one call, or only configures table columns, so they are not part of this model.
- `lib/types.ts` has no behaviour. It shapes `Auth.User`.
