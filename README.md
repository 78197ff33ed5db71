# Admin-Quejas: a Dafny model of the complaint console's logic

Admin-Quejas is a browser console for administrators of a citizen-complaint
("queja") service. Every piece of data it shows comes from a remote API. The
logic it runs on its own side is small, and this project models that logic
and proves properties of it:

- **Filter engine** of the dashboard (`Filters`). The visible list is the raw
  list passed through three stages:
  - a case-insensitive text search over `folio`, `tipo` and `description`;
  - an exact category (`tipo`) filter;
  - an exact status (`estatus`) filter.
  The search stage is skipped when the term is empty. The two select filters
  are skipped at the sentinel `'todos'`.
- **Category options** (`Quejas.TiposQuejas`): the distinct `tipo` values, in
  order of first appearance, as `[...new Set(...)]` gives them.
- **Two edit workflows** with an optimistic local patch of the list:
  - the dashboard's dialog (`Dashboard.AdminDashboard`), keyed by `id`,
    writes `estatus` and `description`;
  - the admin panel's editor (`AdminPanel.AdminQuejas`), keyed by `folio`,
    writes `estatus` only.
  The model keeps the two keys apart. It does not assume that `id` and
  `folio` agree.
- **Session flag** (`Session`). It is the `localStorage` entry `isAdmin`.
  Login sets it (`Login.LoginForm.HandleLogin`) and logout removes it
  (`AdminPanel.AdminQuejas.CerrarSesion`).
- **Guard and route table**: the admin panel's mount guard, and the
  application's route table (`Routes`), which maps path and flag to a page
  or a redirect. The application reads the flag once, when it renders
  (`Routes.App`).
- **Status badge** (`StatusBadge`): maps a status to one of five colour
  variants.

Shared pieces:
- `Seqs` holds the JavaScript array operations the code uses, as functions
  with lemmas: `filter`, `map`, and de-duplication through a `Set`.
- `Text` holds ASCII lower-casing and `String.prototype.includes`.

How each kind of source code is modelled:
- State that a React component keeps in `useState` is the fields of a class.
  Each event handler is a method whose `ensures` gives the whole new state.
- Pure list transforms are functions, and their properties are lemmas.
- A remote call is an input to the method that handles its result:
  - the fetched body is present or absent;
  - the update succeeds or fails;
  - the login reply is ok/success or the request throws.

Two details of the code that the model keeps:
- The dashboard compares `id` values as they are. If the chosen record has
  no `id`, every record without an `id` matches (`undefined === undefined`),
  so all of them are patched (`Quejas.PatchById`).
- In the admin panel a save counts as successful as soon as the reply body
  parses as JSON. `fetch` does not reject on an HTTP error status, so a
  non-2xx reply with a JSON body still patches the list and clears the
  selection (`AdminPanel.PutReply`).

## Notes on the code

- **Status values.** `estatus` is an open string: the filters and the badge
  compare it as text. The admin panel's editor offers only three statuses
  ("Rechazada" is missing), but its draft is seeded with whatever status the
  record had.
- **Record identifier.** The dashboard keys its update by `id`; the admin
  panel keys its update by `folio`.
- **Failed login.** A failed login leaves the flag as it was: a flag set by
  an earlier login stays set (`Login.LoginForm.HandleLogin`).
- **Saves in flight.** A save is two steps: the click sends the request,
  and the reply is handled later.
  - The dashboard raises its shared `loading` flag on the click, which
    disables "Editar" and "Guardar Cambios"; the reply lowers it. The handler
    captures the chosen `id`, the draft and the list at the click
    (`Dashboard.PendingSave`), and its success path patches that captured
    list. "Cancelar" stays enabled while the request runs.
  - The dashboard's load runs once, on mount (its effect has no
    dependencies), and "Editar" stays disabled until it ends. So at most one
    save is in flight, and only while `loading` is on
    (`Dashboard.NoSaveInFlightWhenIdle`).
  - "Guardar Cambios" sits inside the dialog, which `handleEdit` opens on a
    record. So the branch of `handleSave` where no record is chosen (reading
    `currentQueja.id` throws) cannot be reached from the page. The model
    keeps that branch because the handler has it.
  - The admin panel has no such flag. "Editar", "Guardar" and "Cancelar"
    stay enabled, so several updates can be in flight
    (`AdminPanel.PendingUpdate`), and their replies can arrive in any order.
    Each JSON reply patches the list as it is when the reply arrives, and
    clears whatever record is selected by then.
- **Route flag.** `App` reads `isAdmin` once, when it renders on page load
  (src/App.js:11); see "Findings".

## Model

| member | source | states |
|---|---|---|
| `Text.LowerChar` | src/AdminDashboard.jsx:45-47 | ASCII upper-case letters map to their lower-case letters; every other character is kept; the result is never an upper-case letter |
| `Text.Lower` | src/AdminDashboard.jsx:45-47 | `toLowerCase` keeps the length and lower-cases each character in place |
| `Text.LowerIdempotent` | src/AdminDashboard.jsx:45-47 | lower-casing an already lower-cased string changes nothing |
| `Text.IncludesIffSubstring` | src/AdminDashboard.jsx:45-47 | `hay.includes(needle)` holds exactly when `needle` occurs at some offset of `hay`, in both directions |
| `Text.Includes` | src/AdminDashboard.jsx:45-47 | `String.prototype.includes`: the empty string is included in everything, and an included string is never longer than the text; `Text.IncludesIffSubstring` gives its full meaning |
| `Seqs.Filter` | src/AdminDashboard.jsx:44 | `filter` never lengthens a list |
| `Seqs.FilterMembership` | src/AdminDashboard.jsx:44-57 | every kept element comes from the input and satisfies the predicate; every input element that satisfies it is kept |
| `Seqs.FilterPositions` | src/AdminDashboard.jsx:44-57 | gives the increasing input positions that spell out the filtered list, all of them satisfying the predicate |
| `Seqs.FilterIsSubsequence` | src/AdminDashboard.jsx:44-57 | the filtered list is a subsequence of its input: nothing fabricated, relative order kept |
| `Seqs.FilterKeepsAll` | src/AdminDashboard.jsx:43-57 | filtering by a predicate that all elements satisfy returns the list unchanged |
| `Seqs.FilterExtensional` | src/AdminDashboard.jsx:44-57 | predicates that agree on every value filter alike |
| `Seqs.FilterFilter` | src/AdminDashboard.jsx:40-57 | two successive filters equal one filter by their conjunction |
| `Seqs.FilterCommutes` | src/AdminDashboard.jsx:40-57 | two filters may be applied in either order |
| `Seqs.Map` | src/AdminDashboard.jsx:80-82 | `map` keeps the length and applies the function at each position |
| `Seqs.FirstIndex` | src/AdminDashboard.jsx:93 | the first position of an element: it holds the element and no earlier position does |
| `Seqs.FirstIndexInPrefix` | src/AdminDashboard.jsx:93 | an element present in a prefix first occurs at the same position in the whole list |
| `Seqs.Distinct` | src/AdminDashboard.jsx:93 | `[...new Set(s)]` holds exactly the elements of `s`, with no duplicates |
| `Seqs.DistinctFirstOccurrenceOrder` | src/AdminDashboard.jsx:93 | the distinct elements come in the order of their first occurrence in the input |
| `Quejas.DescriptionOrEmpty` | src/AdminDashboard.jsx:66 | `description \|\| ''` is the description when present and the empty string when missing |
| `Quejas.ApplyForm` | src/AdminDashboard.jsx:81 | `{ ...q, ...formData }`: the record takes the draft's status and description, and keeps its `id`, `folio`, `tipo`, `fecha` and `texto` |
| `Quejas.PatchById` | src/AdminDashboard.jsx:80-82 | same length; records whose `id` equals the chosen one take the draft's `estatus` and `description` and keep every other field; all other records are unchanged |
| `Quejas.PatchByIdIdempotent` | src/AdminDashboard.jsx:80-82 | applying the same patch twice is the same as applying it once |
| `Quejas.PatchByIdNoMatch` | src/AdminDashboard.jsx:80-82 | when no record has the chosen `id`, the list is unchanged |
| `Quejas.PatchByFolio` | src/components/AdminQuejas.jsx:55-61 | same length; records whose `folio` equals the selected one change only their `estatus`; all other records are unchanged |
| `Quejas.PatchByFolioSameStatus` | src/components/AdminQuejas.jsx:55-61 | re-saving the status the matching records already have leaves the list unchanged |
| `Quejas.Tipos` | src/AdminDashboard.jsx:93 | `quejas.map(q => q.tipo)` lists each record's `tipo` at its position |
| `Quejas.TiposQuejas` | src/AdminDashboard.jsx:93 | the category options hold every `tipo` in the list, and only those, with no duplicates |
| `Quejas.TiposQuejasOrder` | src/AdminDashboard.jsx:93 | the category options follow the order of first occurrence |
| `Filters.MatchesSearch` | src/AdminDashboard.jsx:44-48 | the search predicate: the empty term matches every record; `Filters.MatchesSearchIff` gives its full meaning |
| `Filters.SearchStage` | src/AdminDashboard.jsx:43-49 | the search stage is skipped for the empty term and never lengthens the list; `Filters.StagesAreFilters` gives its full meaning |
| `Filters.TipoStage` | src/AdminDashboard.jsx:51-53 | the category stage is skipped at `'todos'` and never lengthens the list; `Filters.StagesAreFilters` gives its full meaning |
| `Filters.EstatusStage` | src/AdminDashboard.jsx:55-57 | the status stage is skipped at `'todos'` and never lengthens the list; `Filters.StagesAreFilters` gives its full meaning |
| `Filters.Visible` | src/AdminDashboard.jsx:39-60 | the filter effect's result is never longer than the raw list; `Filters.VisibleIsConjunction` gives its full meaning |
| `Filters.StagesAreFilters` | src/AdminDashboard.jsx:43-57 | each stage is a filter by its own predicate; a disabled stage is the predicate "always true" |
| `Filters.VisibleIsConjunction` | src/AdminDashboard.jsx:39-60 | the visible list is the raw list filtered by the conjunction of the three predicates |
| `Filters.VisibleMembership` | src/AdminDashboard.jsx:39-60 | a record is visible exactly when it is in the raw list and passes all three filters |
| `Filters.VisibleIsSubsequence` | src/AdminDashboard.jsx:39-60 | the visible list is a subsequence of the raw list |
| `Filters.ThreeFiltersAnyOrder` | src/AdminDashboard.jsx:40-57 | three successive filters in any of the six orders give one filter by their conjunction |
| `Filters.StageOrderIrrelevant` | src/AdminDashboard.jsx:40-57 | the three stages of the effect give the same list in all six orders |
| `Filters.EmptySearchIsIdentity` | src/AdminDashboard.jsx:43 | an empty search term returns the list unchanged |
| `Filters.TodosIsIdentity` | src/AdminDashboard.jsx:51-57 | `'todos'` in either select filter returns the list unchanged |
| `Filters.TipoStageExact` | src/AdminDashboard.jsx:51-53 | any other category keeps exactly the records whose `tipo` equals it |
| `Filters.EstatusStageExact` | src/AdminDashboard.jsx:55-57 | any other status keeps exactly the records whose `estatus` equals it |
| `Filters.InitialFiltersShowAll` | src/AdminDashboard.jsx:19-21 | with the filters' initial values every record is visible |
| `Filters.MatchesSearchIff` | src/AdminDashboard.jsx:44-48 | a record passes the search iff the lower-cased term occurs in the lower-cased `folio`, or in `tipo`, or in a present, non-empty `description` |
| `Filters.SearchIgnoresCase` | src/AdminDashboard.jsx:45-47 | a term and its lower-cased form select the same records |
| `Filters.SearchExample` | src/AdminDashboard.jsx:46 | searching "RECI" finds a record whose `tipo` is "Recibida" |
| `Dashboard.IdText` | src/AdminDashboard.jsx:74 | a missing `id` is rendered as `undefined` in the update URL |
| `Dashboard.PatchedRecordsVisibleAsSaved` | src/AdminDashboard.jsx:80-84 | after the patch, every visible record with the saved `id` shows the saved status and description |
| `Dashboard.AdminDashboard.Filters` | src/AdminDashboard.jsx:19-21 | the filter inputs are the component's three filter fields |
| `Dashboard.AdminDashboard.Phase` | src/AdminDashboard.jsx:11-12 | the dialog is idle when closed, and otherwise editing the chosen record |
| `Dashboard.AdminDashboard.constructor` | src/AdminDashboard.jsx:7-21 | the initial state: empty lists, loading, no error, dialog closed, default draft, filters off |
| `Dashboard.AdminDashboard.ApplyFilters` | src/AdminDashboard.jsx:39-60 | the effect sets the visible list to the raw list through the current filters |
| `Dashboard.AdminDashboard.FetchResolved` | src/AdminDashboard.jsx:23-37 | the one load of the page: a response replaces the list wholesale; a failure keeps it and shows the load error; loading ends either way and the load is over; the visible list is kept in step |
| `Dashboard.AdminDashboard.SetSearchTerm` | src/AdminDashboard.jsx:119 | only the search term changes, and the visible list is recomputed |
| `Dashboard.AdminDashboard.SetFiltroTipo` | src/AdminDashboard.jsx:126 | only the category filter changes, and the visible list is recomputed |
| `Dashboard.AdminDashboard.SetFiltroEstatus` | src/AdminDashboard.jsx:138 | only the status filter changes, and the visible list is recomputed |
| `Dashboard.AdminDashboard.TiposQuejas` | src/AdminDashboard.jsx:93 | the category options cover every record's `tipo`, with no duplicates |
| `Dashboard.AdminDashboard.HandleEdit` | src/AdminDashboard.jsx:62-69 | the dialog opens on the record; the draft takes its `estatus` and `description \|\| ''`; the lists are untouched |
| `Dashboard.AdminDashboard.SetFormEstatus` | src/AdminDashboard.jsx:203 | only the draft's status changes |
| `Dashboard.AdminDashboard.SetFormDescription` | src/AdminDashboard.jsx:218 | only the draft's description changes |
| `Dashboard.AdminDashboard.HideModal` | src/AdminDashboard.jsx:224 | cancel closes the dialog and changes nothing else |
| `Dashboard.AdminDashboard.Request` | src/AdminDashboard.jsx:74-77 | the update goes to the chosen record's `id` URL and carries exactly the draft |
| `Dashboard.AdminDashboard.HandleSave` | src/AdminDashboard.jsx:71-77 | the click raises loading and adds a save in flight that captures the chosen `id`, the draft and the list; the request sent (`Request`) goes to that `id`'s URL and carries that draft; with no record chosen it shows the error and loading ends at once; the lists and the dialog are untouched |
| `Dashboard.AdminDashboard.SaveResolved` | src/AdminDashboard.jsx:78-91 | the reply removes its save from those in flight. Success: the captured list is patched by the captured `id` with the captured draft, the dialog closes, and the visible copies show the saved values. Failure: the lists and the dialog stay and the error is shown. Loading ends either way |
| `Dashboard.AdminDashboard.SaveSucceeded` | src/AdminDashboard.jsx:80-85 | the success path patches the captured list, closes the dialog and re-derives the visible list |
| `Dashboard.NoSaveInFlightWhenIdle` | src/AdminDashboard.jsx:23-37 | when the dashboard is not loading, its one load has ended and no save is in flight |
| `Dashboard.EditScenario` | src/AdminDashboard.jsx:62-85 | edit, change status, save, successful reply: matching records get the status, others are unchanged, the length is kept, the dialog is closed, no save is left in flight |
| `Session.Storage.constructor` | src/App.js:11 | a store starts with the given entries |
| `Session.Storage.GetItem` | src/App.js:11 | `getItem` gives the stored string, or nothing when the key is absent |
| `Session.Storage.SetItem` | src/components/Login.jsx:23 | `setItem` writes one entry and nothing else |
| `Session.Storage.RemoveItem` | src/components/AdminQuejas.jsx:68 | `removeItem` deletes one entry and nothing else |
| `Session.IsAdmin` | src/App.js:11 | the flag is set exactly when the stored value is the string "true" |
| `Session.StoredIsAdmin` | src/components/AdminQuejas.jsx:16 | the flag read from a store: the `isAdmin` entry exists and is "true" |
| `Routes.RouteElement` | src/App.js:17-40 | `/` redirects to `/login`. `/login` renders the login page whatever the flag. `/admin` renders the admin page iff the flag is set, and otherwise redirects to `/login`. Any other path redirects to `/` |
| `Routes.RouteFromStorage` | src/App.js:11-37 | with the flag decoded from a stored value (as written, the value read when `App` renders), the admin page renders exactly on `/admin` with the value "true" |
| `Routes.App.constructor` | src/App.js:10-11 | the application's flag is the one the store holds when it renders |
| `Routes.App.Element` | src/App.js:13-41 | every route of this rendering uses the flag read at render; `/admin` renders the admin page iff that flag was set |
| `Routes.CurrentElement` | src/App.js:11-37 | corrected route decision: `/admin` renders the admin page iff the store holds the flag when the route is matched, and otherwise redirects to `/login` |
| `Routes.StaleFlagCounterexample` | src/App.js:11-37 | with the value read before login (none), `/admin` redirects to `/login`, although the value stored by login ("true") authorizes |
| `Routes.Follow` | src/App.js:17-40 | a followed chain of redirects ends on a rendered page, within the fuel given |
| `Routes.EveryPathSettles` | src/App.js:17-40 | every path settles within two redirects. The admin page is reached only from `/admin` with the flag set, and every other start ends on `/login`. An unknown path takes exactly two redirects |
| `StatusBadge.Variant` | src/components/StatusBadge.jsx:4-8 | Recibida, En proceso, Resuelta and Rechazada map to warning, primary, success and danger; any other string maps to secondary |
| `StatusBadge.RenderBadge` | src/components/StatusBadge.jsx:10 | the badge's text is the status unchanged and its colour is the status's variant |
| `StatusBadge.KnownStatusesDistinguished` | src/components/StatusBadge.jsx:4-8 | the four known statuses get pairwise distinct variants, none of them secondary |
| `StatusBadge.SecondaryIffUnknown` | src/components/StatusBadge.jsx:4-8 | the fallback variant is used exactly for strings other than the four |
| `Login.ReplyEffect` | src/components/Login.jsx:22-30 | navigation to `/admin` happens iff the reply is ok and says success. Any other reply alerts bad credentials. A thrown request only logs |
| `Login.InputType` | src/components/Login.jsx:46 | the password input's type is "text" iff the password is shown, and "password" otherwise |
| `Login.ToggleTitle` | src/components/Login.jsx:55 | the toggle's tooltip offers to hide a shown password and to show a hidden one |
| `Login.LoginForm.constructor` | src/components/Login.jsx:7-9 | empty credentials, password hidden |
| `Login.LoginForm.SetUsuario` | src/components/Login.jsx:41 | only the user name changes |
| `Login.LoginForm.SetPassword` | src/components/Login.jsx:49 | only the password changes |
| `Login.LoginForm.Request` | src/components/Login.jsx:17 | the login request carries the user name and password as typed |
| `Login.LoginForm.PasswordInputType` | src/components/Login.jsx:46 | the password input's type is "text" exactly when the password is shown, and "password" otherwise |
| `Login.LoginForm.TogglePassword` | src/components/Login.jsx:54 | the visibility flag flips and nothing else changes |
| `Login.LoginForm.HandleLogin` | src/components/Login.jsx:12-31 | the store gains `isAdmin = "true"` exactly on an ok, successful reply; otherwise the store is unchanged and there is no navigation |
| `Login.ToggleTwiceRestores` | src/components/Login.jsx:46-54 | toggling twice restores the flag and the input type |
| `Login.LoginThenAdminAsWritten` | src/components/Login.jsx:22-24 | a successful login stores the flag and navigates to `/admin`; that route renders the admin page only if the flag was already set at page load, and otherwise redirects to `/login` |
| `Login.LoginThenAdminCorrected` | src/components/Login.jsx:22-24 | with the route reading the store when matched, a successful login always lands on the admin page |
| `AdminPanel.GuardRedirect` | src/components/AdminQuejas.jsx:15-20 | the guard redirects to `/login` exactly when the stored value is not "true" |
| `AdminPanel.AdminQuejas.constructor` | src/components/AdminQuejas.jsx:7-9 | empty list, nothing selected, empty draft status |
| `AdminPanel.AdminQuejas.Phase` | src/components/AdminQuejas.jsx:8 | the editor is idle exactly when nothing is selected |
| `AdminPanel.AdminQuejas.GuardOnMount` | src/components/AdminQuejas.jsx:15-20 | on mount the page navigates to `/login` exactly when the stored flag is not "true" |
| `AdminPanel.AdminQuejas.FetchResolved` | src/components/AdminQuejas.jsx:23-28 | a loaded body replaces the list wholesale; a failure leaves everything unchanged |
| `AdminPanel.AdminQuejas.SeleccionarQueja` | src/components/AdminQuejas.jsx:41-44 | the record becomes the selection, and its status seeds the draft status |
| `AdminPanel.AdminQuejas.SetNuevoEstatus` | src/components/AdminQuejas.jsx:127 | only the draft status changes |
| `AdminPanel.AdminQuejas.Request` | src/components/AdminQuejas.jsx:47-50 | the update goes to the selected folio's URL and carries only the new status |
| `AdminPanel.AdminQuejas.ActualizarEstatus` | src/components/AdminQuejas.jsx:46-51 | the click adds an update in flight carrying the selected folio and the draft status, which are the folio of the request's URL and the status in its body (`Request`); nothing else changes |
| `AdminPanel.AdminQuejas.UpdateResolved` | src/components/AdminQuejas.jsx:52-64 | the reply removes its update from those in flight. A JSON reply patches the current list by that update's folio and status and clears the selection, whatever it is by then; a rejected request changes nothing else |
| `AdminPanel.AdminQuejas.Cancelar` | src/components/AdminQuejas.jsx:136 | cancel clears the selection and never touches the list |
| `AdminPanel.AdminQuejas.CerrarSesion` | src/components/AdminQuejas.jsx:67-70 | logout removes the `isAdmin` entry, leaves the other entries alone, and navigates to `/login` |
| `AdminPanel.EditScenario` | src/components/AdminQuejas.jsx:41-62 | select, choose status, save, JSON reply: every record with that folio has the status, the others are unchanged, the length is kept, the editor is idle |
| `AdminPanel.LateReplyClearsNewerSelection` | src/components/AdminQuejas.jsx:41-62 | a reply arriving after another record was selected patches the first record's folio and clears the newer selection |
| `AdminPanel.LogoutThenGuard` | src/components/AdminQuejas.jsx:15-20 | after logout the mount guard sends the admin to `/login` |

## Left out

- HTTP requests (`axios.get`, `axios.put`, `fetch`) and the API's behaviour. Each call's result is an input to the handler that receives it.
- The 10-second polling timer of the admin panel and its cleanup (src/components/AdminQuejas.jsx:31-39): this is timing. Each finished poll is one call of `AdminPanel.AdminQuejas.FetchResolved`, which may come between an update's click and its reply.
- React's stale closures, except in the two save handlers and in `App`'s route flag, where the values they capture are modelled. Every other handler reads the component's current state, as there it makes no difference.
- `Login.LoginForm.HandleLogin`: the login request and its reply are one step. The form's fields may change while the request runs, but the handler's outcome depends only on the reply.
- `AdminPanel.AdminQuejas.FetchResolved`, `Dashboard.AdminDashboard.FetchResolved`: a load's request and its reply are one step; only the reply is an event.
- `Dashboard.AdminDashboard.FetchResolved`: requires that the load has not ended yet, because the mount effect runs once; a second load of the dashboard is not modelled.
- The shape of a fetched body. A JSON reply that is not a list of records (for example an error object) is not modelled. Every loaded body is a list of records.
- JSX markup, react-bootstrap and router components, the loading spinner (src/AdminDashboard.jsx:95-104), `alert` and `console.error`. Login's outcome is named (`Login.LoginEffect`); the admin panel's alert after a save is not.
- `new Date(...).toLocaleString()`: it depends on locale and clock. `fecha` is an uninterpreted string.
- `Text.Lower`: lower-cases ASCII letters only, where `toLowerCase` lower-cases all of Unicode. Non-ASCII letters are left as they are.
- `Routes.RouteElement`: paths are matched exactly. The router's case-insensitive and trailing-slash matching is not modelled.
- `Routes.Follow`: bounded by a fuel argument. Redirect chains longer than the fuel yield no landing, but `Routes.EveryPathSettles` shows that two redirects always suffice.
- `Dashboard.AdminDashboard.HandleSave`: the message of the error thrown when no record is chosen is browser-specific, so it is the `message` parameter.
- `Dashboard.AdminDashboard.HandleEdit`, `Dashboard.AdminDashboard.HandleSave`: they require `!loading` because their buttons are disabled while loading (src/AdminDashboard.jsx:176, 227); a click on a disabled button is not modelled.
- src/api.js: configuration only; it is not part of this model.

## Findings

| source | as written | input that shows it | evidently intended | confidence | as-written member | corrected member |
|---|---|---|---|---|---|---|
| src/App.js:11 | `isAdmin` is read once when `App` renders; `navigate('/admin')` after login changes only the router's location, so the `/admin` element keeps the flag read at page load | open `/login` with no `isAdmin` entry, then log in with a reply that is ok and says success | the `/admin` route honours the flag the login just stored and renders the admin page | medium, not executed | `Login.LoginThenAdminAsWritten` | `Login.LoginThenAdminCorrected` |
