# Electronics inventory front end, modelled in Dafny

The application is a single-page React front end for a small electronics
inventory. A visitor signs in or signs up on the login screen. The browser
then holds a session in `localStorage` (`authToken`, `userType`, `userName`,
`userData`). The router sends the visitor to the dashboard of their role.
The dashboard loads the component list from the inventory service. If that
fails, it falls back to five sample components. It shows four statistics,
a stock badge per row and a search box. Rows can be added, edited and
deleted through a modal editor that validates its form before saving. A
navigation bar offers the role's entries and signs the visitor out.

The model has one module per part of the program:

- `JsValues`, `JsStrings`, `JsNumbers` hold the JavaScript behaviour the
  components rely on. That is truthiness, `NaN` and `undefined` in
  arithmetic and comparisons, `toLowerCase`, `includes`, `trim`,
  `parseInt` and `toString`.
- `InventoryList` covers the dashboard's list as values. It states how
  server records are normalised, the statistics, the stock status, search,
  delete, update, the outcome of loading and the error messages.
- `DashboardState` is the dashboard's state as a class. It holds the list,
  the loading flags, the error text, the edited row, the modal flag and the
  search text, with one method per handler.
- `ItemEditor` is the add/edit dialog: its form, the validation rules and
  error map, prefill and reset, the `parseInt` coercion and the save
  outcome. The `Editor` class holds the dialog's state.
- `Session` is `localStorage` as a map, with a `Store` class for the writes.
- `ProtectedRoute`, `AppRoutes` are the route guard and the route table,
  with redirects followed hop by hop.
- `LoginSignup` is the sign-in / sign-up screen. Its `AuthScreen` class
  holds the form state and the handlers that write the session.
- `Navigation` is the menu entries, the highlighted entry, the mobile menu
  and sign-out.
- `SessionFlows` holds lemmas that connect these screens: how the session
  written at sign-in is read by the router, and what is left after sign-out.

HTTP answers, the user's confirmation and the browser storage are
parameters of the handlers. Each request's outcome is a datatype with one
case per branch the code distinguishes: a response with a status, a request
with no response, or a failure with neither.

Where what the screens appear meant to do differs from their code, the
model follows the code:

- A failed refresh replaces the list with the sample components, even
  when real rows were showing.
- Every failed load, including a 500, shows its message as a banner over
  the samples. The "Unable to Load Electronics" screen is never reached
  once a load has settled (`FetchNeverShowsErrorScreen`).
- Category and supplier are only checked for being non-empty. The
  drop-down lists are not consulted. A stock text without digits parses to
  NaN and passes validation (`UnlistedChoicesPass`).
- A failed delete with no response gets the generic message. Only
  loading and saving have a network message.
- The three role-to-home mappings disagree on roles other than admin,
  technician and user. For such a role, the router's `/` redirects to
  itself forever (`UnknownRoleRootNeverSettles`).
- The menu's Reports, Analytics, Users and Settings entries have no
  route, so they land on the login page (`MenuTargets`).

## Model

| member | source | states |
|---|---|---|
| JsStrings.Lower | src/pages/Dashboard.jsx:194-198 | lower-casing keeps the length, maps each character on its own, and leaves no upper-case ASCII letter |
| JsStrings.LowerIdempotent | src/pages/Dashboard.jsx:194-198 | lower-casing an already lower-cased text changes nothing, so the search query's case cannot matter |
| JsStrings.IncludesEmpty | src/pages/Dashboard.jsx:195 | every text includes the empty query |
| JsStrings.TrimEmptyIffBlank | src/pages/AddElectronics.jsx:99 | a name is empty after `trim` exactly when all its characters are white space or line terminators |
| JsNumbers.ParseInt | src/pages/AddElectronics.jsx:109 | `parseInt` never yields undefined, and yields a negative number only for a text whose first non-space character is '-' |
| JsNumbers.NumText | src/pages/AddElectronics.jsx:53-54 | the prefill text of a number is empty exactly when the number is missing |
| JsNumbers.ParseIntText | src/pages/AddElectronics.jsx:136-140 | parsing the printed text of any whole number, negative ones included, gives the number back |
| JsNumbers.ParseNaNText | src/pages/AddElectronics.jsx:53 | the printed text of NaN parses back to NaN |
| InventoryList.NormaliseAll | src/pages/Dashboard.jsx:87-95 | the mapped list has one item per fetched record, in order, each the normalised record |
| InventoryList.Normalise | src/pages/Dashboard.jsx:87-95 | the mapping of one record; its field-by-field choices are stated by NormaliseFields |
| InventoryList.NormaliseFields | src/pages/Dashboard.jsx:88-94 | the id is `_id` when non-empty, else `id`; the minimum is `min_stock` when truthy, else `minStock`; missing specifications become ''; name, category, stock and supplier are copied |
| InventoryList.ZeroMinimumIsDropped | src/pages/Dashboard.jsx:92 | a record whose only minimum is `min_stock: 0` gets an undefined minimum and is never low on stock |
| InventoryList.Keep | src/pages/Dashboard.jsx:187-191 | `filter` keeps no more rows than it is given, and only rows from the list that pass the test |
| InventoryList.IsLow | src/pages/Dashboard.jsx:187 | the low-stock test `stock <= minStock`, true only when both are numbers; GetStockStatus and LowStockCardMatchesBadges state its uses |
| InventoryList.GetStockStatus | src/pages/Dashboard.jsx:212-217 | the badge reads "Low Stock" exactly when stock <= minimum (both numbers) and "In Stock" otherwise |
| InventoryList.TotalStock | src/pages/Dashboard.jsx:188 | the `reduce` over the stock counts; TotalStockMeaning states its value |
| InventoryList.TotalStockMeaning | src/pages/Dashboard.jsx:188 | the total-stock card is the sum of the stock counts when all are numbers, and NaN as soon as one is NaN or missing |
| InventoryList.StatsOf | src/pages/Dashboard.jsx:186-191 | the component count is the list length, and the low-stock and microcontroller counts never exceed it |
| InventoryList.LowStockCardMatchesBadges | src/pages/Dashboard.jsx:187-217 | the low-stock card counts exactly the rows badged "Low Stock", and with the "In Stock" rows they make up the list |
| InventoryList.Matches | src/pages/Dashboard.jsx:194-198 | the search test on one row; SearchKeepsMatchingInOrder and SearchIgnoresQueryCase state what it selects |
| InventoryList.Search | src/pages/Dashboard.jsx:194-198 | the filtered list; SearchKeepsMatchingInOrder and EmptySearchKeepsAll state its meaning |
| InventoryList.SearchKeepsMatchingInOrder | src/pages/Dashboard.jsx:194-198 | the search result keeps the list's order and holds exactly the rows whose name, category or non-empty specifications include the query, ignoring case |
| InventoryList.EmptySearchKeepsAll | src/pages/Dashboard.jsx:194-198 | an empty search box shows every row |
| InventoryList.SearchIgnoresQueryCase | src/pages/Dashboard.jsx:194-198 | searching for the lower-cased query gives the same rows as the query as typed |
| InventoryList.RemoveId | src/pages/Dashboard.jsx:159 | the list after a delete; RemoveIdMeaning and RemoveAbsentId state its meaning |
| InventoryList.RemoveIdMeaning | src/pages/Dashboard.jsx:159 | a delete keeps, in order, exactly the rows whose id differs, and the count falls by the number of rows carrying the id |
| InventoryList.RemoveAbsentId | src/pages/Dashboard.jsx:159 | deleting an id no row carries leaves the list unchanged |
| InventoryList.Overwrite | src/pages/Dashboard.jsx:136 | one row overwritten by the submitted fields, id kept; UpdateByIdAt and EditUnchangedRoundTrip state its uses |
| InventoryList.UpdateById | src/pages/Dashboard.jsx:134-138 | an update keeps the number of rows and every row's id |
| InventoryList.UpdateByIdAt | src/pages/Dashboard.jsx:134-138 | each row with the edited id takes the submitted fields (minimum from `min_stock`), and every other row stays as it was |
| InventoryList.UpdateByIdIdempotent | src/pages/Dashboard.jsx:134-138 | applying the same update twice gives the same list as applying it once |
| InventoryList.FetchFails | src/pages/Dashboard.jsx:80-118 | the outcomes that reach the `catch` of the load; FetchErrorMessage and FetchedList state what follows from them |
| InventoryList.FetchErrorMessage | src/pages/Dashboard.jsx:101-116 | a load leaves a non-empty error text exactly when it fails: a non-2xx status, a 200 body that is not a list, no response, or a failed request |
| InventoryList.FetchedList | src/pages/Dashboard.jsx:82-118 | after a load the list holds the normalised records on a 200 with a list, the sample components on any failure, and the previous rows on another 2xx |
| InventoryList.ScreenFor | src/pages/Dashboard.jsx:219-286 | the loading screen, the error screen (error with no rows) or the list with an optional banner; FetchNeverShowsErrorScreen states which one follows a load |
| InventoryList.FetchNeverShowsErrorScreen | src/pages/Dashboard.jsx:219-286 | once a load has settled the list screen is shown, and a failure's message appears as its banner |
| InventoryList.DeleteErrorMessage | src/pages/Dashboard.jsx:162-176 | a failed delete always has a message; it is "Component not found." exactly for a 404 and the server-error text exactly for a 500 |
| DashboardState.Dashboard.constructor | src/pages/Dashboard.jsx:10-67 | on mount the list is empty, the loading screen is up and nothing is being edited or searched |
| DashboardState.Dashboard.FetchElectronics | src/pages/Dashboard.jsx:70-123 | a load (on mount, "Try Again", "Refresh" or after an add) sets the list and error text as the load's outcome dictates, clears both loading flags, ends on the list screen, and touches nothing else |
| DashboardState.Dashboard.HandleAddElectronics | src/pages/Dashboard.jsx:131-144 | after a save, an edit overwrites the rows with the edited id and ends the edit; an add reloads the list with the refresh loader |
| DashboardState.Dashboard.HandleDelete | src/pages/Dashboard.jsx:153-178 | nothing is sent or changed unless confirmed; a 200 drops the rows with the id; a failure keeps the list and sets the delete message |
| DashboardState.Dashboard.HandleEdit | src/pages/Dashboard.jsx:147-150 | the editor opens on the chosen row, and the list, error and search stay |
| DashboardState.Dashboard.OpenAddModal | src/pages/Dashboard.jsx:333-338 | the editor opens with no row |
| DashboardState.Dashboard.CloseModal | src/pages/Dashboard.jsx:451-454 | the editor closes and forgets its row |
| DashboardState.Dashboard.DismissError | src/pages/Dashboard.jsx:284 | the banner's × clears the error text only |
| DashboardState.Dashboard.SetSearchTerm | src/pages/Dashboard.jsx:330 | typing sets the search text only |
| ItemEditor.Form.Set | src/pages/AddElectronics.jsx:82-85 | typing in one input changes that field and no other |
| ItemEditor.FieldProblem | src/pages/AddElectronics.jsx:96-122 | the rule for one field; NameRule, StockRule, MinStockRule and OnlyNonEmptinessOfChoices state each rule |
| ItemEditor.ValidationErrors | src/pages/AddElectronics.jsx:96-122 | the error map built field by field; ValidationErrorsMeaning and ValidIffNoErrors state its meaning |
| ItemEditor.ValidationErrorsMeaning | src/pages/AddElectronics.jsx:96-122 | the error map has an entry for exactly the failing fields, each with its rule's message, and none under `submit` |
| ItemEditor.ValidIffNoErrors | src/pages/AddElectronics.jsx:123-124 | the form is valid exactly when the error map is empty |
| ItemEditor.NameRule | src/pages/AddElectronics.jsx:99-101 | a name is refused, with "Component name is required", exactly when it is blank |
| ItemEditor.StockRule | src/pages/AddElectronics.jsx:107-111 | an empty stock is "required"; a non-empty one is refused exactly when it parses to a negative number; a text without digits is accepted |
| ItemEditor.MinStockRule | src/pages/AddElectronics.jsx:113-117 | the minimum stock follows the same two rules with its own messages |
| ItemEditor.OnlyNonEmptinessOfChoices | src/pages/AddElectronics.jsx:103-121 | specifications never affect validation; any non-empty category or supplier passes |
| ItemEditor.UnlistedChoicesPass | src/pages/AddElectronics.jsx:21-45 | a category and supplier absent from the drop-downs, with a stock of "many", make a valid form |
| ItemEditor.MinusOneRefused | src/pages/AddElectronics.jsx:109-110 | a stock of "-1" is refused as "must be positive" |
| ItemEditor.Process | src/pages/AddElectronics.jsx:136-140 | the form with both stock texts run through `parseInt`; EditUnchangedRoundTrip states that it undoes the prefill |
| ItemEditor.PrefillForm | src/pages/AddElectronics.jsx:48-70 | adding opens the empty form; editing prints the minimum from `minStock` when present and from `min_stock` otherwise |
| ItemEditor.EditUnchangedRoundTrip | src/pages/AddElectronics.jsx:50-140 | opening a row with whole-number stocks and saving it unchanged writes back the same row |
| ItemEditor.SaveSucceeds | src/pages/AddElectronics.jsx:156-193 | a save succeeds on 200 for an update and 201 for an add; HandleSubmit states that the parent is told exactly then |
| ItemEditor.SaveErrorMessage | src/pages/AddElectronics.jsx:196-211 | a failed save always has a message: the server's `error` text or "Invalid data provided" on 400, "Component not found" on 404, the server-error text on 500, the network text without a response |
| ItemEditor.Editor.constructor | src/pages/AddElectronics.jsx:8-18 | the dialog starts with an empty form, no errors, not saving |
| ItemEditor.Editor.HandleInputChange | src/pages/AddElectronics.jsx:80-94 | typing sets the field and blanks its error only if one is showing; the key stays |
| ItemEditor.Editor.ValidateForm | src/pages/AddElectronics.jsx:96-125 | the error map is replaced by the validation result, and the answer is true exactly when the form is valid and the map empty |
| ItemEditor.Editor.Prefill | src/pages/AddElectronics.jsx:48-70 | opening or switching rows sets the prefilled form and clears every error |
| ItemEditor.Editor.HandleClose | src/pages/AddElectronics.jsx:224-235 | closing resets the form and the errors |
| ItemEditor.Editor.HandleSubmit | src/pages/AddElectronics.jsx:127-222 | an invalid form sends nothing and shows its field errors; a valid one sends the processed form, ends with only a `submit` entry holding the failure message or '', and tells the parent exactly when the status is 200 (edit) or 201 (add) |
| Session.StoredText | src/pages/LoginSignup.jsx:55 | storing a value keeps its text; storing a missing value stores a non-empty text ("undefined") |
| Session.Store.SetItem | src/pages/LoginSignup.jsx:52-55 | a write sets one key and keeps every other |
| Session.Store.RemoveItem | src/components/Navigation.jsx:23-26 | a removal drops one key and keeps every other |
| ProtectedRoute.Guard | src/route/ProtectedRoute.jsx:4-30 | the guard never renders the page without a non-empty token |
| ProtectedRoute.GuardRendersIff | src/route/ProtectedRoute.jsx:9-29 | the page renders exactly when a token is stored and no role is required or the stored role is the required one |
| ProtectedRoute.GuardRedirects | src/route/ProtectedRoute.jsx:9-26 | without a token the guard goes to '/'; with the wrong role to '/admin' for an admin, '/vet' for 'vet', '/' otherwise |
| AppRoutes.IsAuthenticated | src/App.jsx:7-9 | both the token and the role are stored and non-empty; RouteTable, TokenWithoutRole and SessionFlows.LoginAuthenticatesIff state its uses |
| AppRoutes.DashboardRoute | src/App.jsx:11-23 | each known role has its own home, and '/' is given exactly for any other or missing role |
| AppRoutes.RoutePath | src/App.jsx:27-83 | the form in which a location is compared with the declared paths (letter case ignored, trailing slashes dropped); RoutePathIdempotent states it is a normal form |
| AppRoutes.RoutePathIdempotent | src/App.jsx:27-83 | normalising a normalised location changes nothing |
| AppRoutes.DeclaredPathsArePlain | src/App.jsx:27-83 | every declared path and every redirect target is already in normal form |
| AppRoutes.Route | src/App.jsx:27-83 | the element the router picks for a location; RouteTable states the table |
| AppRoutes.RouteTable | src/App.jsx:27-83 | on the location's normal form (any letter case, any trailing slashes): '/' dispatches on the session, '/login' is open, the four guarded paths show the dashboard exactly when a token is stored, and any other path goes to '/login' |
| AppRoutes.RouteIgnoresCaseAndTrailingSlashes | src/App.jsx:27-83 | a location leads where its normal form leads |
| AppRoutes.OtherSpellingsOfAdmin | src/App.jsx:42-49 | with a token stored, '/Admin' and '/admin/' show the dashboard as '/admin' does |
| AppRoutes.NoTokenEndsOnLogin | src/App.jsx:29-82 | without a token every path ends on the login page within two redirects |
| AppRoutes.KnownRoleRootShowsDashboard | src/App.jsx:29-69 | a signed-in admin, technician or user opening '/' reaches the dashboard after one redirect |
| AppRoutes.UnknownRoleRootNeverSettles | src/App.jsx:11-36 | with a token and any other role, '/' redirects to itself, so no number of redirects settles it |
| AppRoutes.TokenWithoutRole | src/App.jsx:7-79 | a token without a stored role is not signed in for '/', yet every guarded path, in any spelling, shows the dashboard |
| LoginSignup.RedirectTarget | src/pages/LoginSignup.jsx:24-37 | after sign-in an admin goes to '/admin', a technician to '/technician', and every other role to '/dashboard' |
| LoginSignup.LoginUserType | src/pages/LoginSignup.jsx:51 | the server's role, or "user" when it gives none; LoginRole states it is never empty and where it leads |
| LoginSignup.LoginUserName | src/pages/LoginSignup.jsx:52 | the server's name, or the typed one when it gives none; LoginWrites states that it is stored |
| LoginSignup.LoginWrites | src/pages/LoginSignup.jsx:51-55 | an accepted login stores the server's name or the typed one, the server's role or "user", the "true" flag and the token text, and keeps every other key |
| LoginSignup.RegisterWrites | src/pages/LoginSignup.jsx:120-122 | an accepted registration stores the typed name, the role "user" and the token text, and leaves the "userData" flag as it was |
| LoginSignup.LoginToast | src/pages/LoginSignup.jsx:57-92 | the login toast is a welcome exactly on an accepted answer, the server's message or a fixed text on a refusal, and a connection notice when the request threw |
| LoginSignup.RegisterToast | src/pages/LoginSignup.jsx:124-159 | the same three cases for registration, with its own texts |
| LoginSignup.AuthScreen.constructor | src/pages/LoginSignup.jsx:10-21 | the screen opens on the login form with a demo name and masked password, both passwords hidden |
| LoginSignup.AuthScreen.HandleLogin | src/pages/LoginSignup.jsx:39-93 | the login form is sent; an accepted answer stores the session and schedules the role's home; any other outcome stores nothing |
| LoginSignup.AuthScreen.HandleRegister | src/pages/LoginSignup.jsx:95-160 | differing passwords send and store nothing; otherwise the name and password go with role "user", and an accepted answer stores the session and schedules '/dashboard' |
| LoginSignup.AuthScreen.HandleLoginChange | src/pages/LoginSignup.jsx:162-168 | typing changes one login field |
| LoginSignup.AuthScreen.HandleRegisterChange | src/pages/LoginSignup.jsx:170-176 | typing changes one sign-up field |
| LoginSignup.AuthScreen.ToggleAuthMode | src/pages/LoginSignup.jsx:178-183 | switching forms hides both passwords and keeps what was typed |
| LoginSignup.AuthScreen.TogglePasswordVisibility | src/pages/LoginSignup.jsx:185-187 | the eye button flips the password's visibility |
| LoginSignup.AuthScreen.ToggleConfirmPasswordVisibility | src/pages/LoginSignup.jsx:189-191 | the second eye button flips the confirmation's visibility |
| Navigation.DashboardHref | src/components/Navigation.jsx:33 | the Dashboard entry leads to the admin's or technician's home, and to '/dashboard' for every other or missing role |
| Navigation.NavigationItems | src/components/Navigation.jsx:30-67 | the menu has four entries, or six for an admin; the first is the role's dashboard; "Users" appears exactly for an admin; no two entries share a target |
| Navigation.BuildNavigationItems | src/components/Navigation.jsx:30-67 | pushing the admin entries onto the common ones builds that menu |
| Navigation.IsCurrentPath | src/components/Navigation.jsx:69-71 | an entry is highlighted when its target is the location; AtMostOneHighlighted states that at most one is |
| Navigation.AtMostOneHighlighted | src/components/Navigation.jsx:69-71 | at most one menu entry is highlighted, whatever the location |
| Navigation.NavBar.constructor | src/components/Navigation.jsx:17-19 | the mobile menu starts closed |
| Navigation.NavBar.ToggleMobileMenu | src/components/Navigation.jsx:112 | the menu button flips the mobile menu |
| Navigation.NavBar.SelectItem | src/components/Navigation.jsx:133-136 | choosing an entry navigates to it and, from the mobile menu, closes the menu |
| Navigation.NavBar.HandleLogout | src/components/Navigation.jsx:22-28 | sign-out removes exactly the four session keys and navigates to '/login' |
| SessionFlows.KnownRolesAgree | src/App.jsx:11-23 | for admin, technician and user, the router, the sign-in redirect and the menu agree on the home, and it is a guarded path |
| SessionFlows.UnknownRolesDisagree | src/pages/LoginSignup.jsx:32-35 | for any other role the sign-in redirect and the menu use '/dashboard' while the router uses '/' |
| SessionFlows.SignedOutEverywhere | src/components/Navigation.jsx:22-28 | after sign-out the visitor is not signed in, the guard redirects, every path ends on the login page, and other keys are kept |
| SessionFlows.LoginAuthenticatesIff | src/pages/LoginSignup.jsx:51-55 | an accepted login signs the browser in exactly when the stored token text is non-empty; a missing token stores "undefined" and still signs in |
| SessionFlows.LoginLandsOnDashboard | src/pages/LoginSignup.jsx:51-69 | after an accepted login with a non-empty token, the page it navigates to shows the dashboard, whatever the role |
| SessionFlows.RegisterLandsOnDashboard | src/pages/LoginSignup.jsx:118-136 | after an accepted registration with a non-empty token the browser is signed in as "user" and '/dashboard' shows the dashboard |
| SessionFlows.MenuTargets | src/components/Navigation.jsx:30-67 | with a session stored, only the Dashboard and Electronics Inventory entries reach a page; every other entry lands on '/login' |

## Left out

- HTTP requests are not modelled: URLs, headers, JSON bodies and the service itself. Each request's outcome is a parameter of its handler.
- Toast notifications in the dashboard and the editor, and their timers, are left out. The login screen's toast text is modelled, but not its position or duration.
- Console output and icons are left out. So are markup, CSS classes and the "no results" and empty-list texts.
- `window.confirm` is not modelled. The user's answer is a boolean parameter of `HandleDelete`.
- Delayed actions are not modelled as timers. The editor closes 1.5 s after a successful save; the caller then invokes `Editor.HandleClose` and `Dashboard.CloseModal`. Navigation 2 s after sign-in is recorded as `pendingRedirect`.
- React's scheduling is not modelled. Each handler runs to completion against the current state. Overlapping requests, and a component unmounted mid-request, are not modelled.
- The "Refresh" button and the mount effect are not modelled separately. Each is one call of `FetchElectronics` (with and without the refresh loader).
- `src/components/sidebar.jsx` is not part of this model.
- JsNumbers.ParseInt: reads base 10 only. Prefixes such as "0x" and precision limits of large numbers are not modelled.
- JsStrings.Lower: lower-cases ASCII letters only. Other Unicode letters are kept as they are.
- JsStrings.TrimStart: only states that no leading white space remains, not that the result is a suffix of the input.
- JsStrings.TrimEnd: only states that no trailing white space remains, not that the result is a prefix of the input.
- Stock values are whole numbers, NaN or missing. Fractional numbers, numeric strings and `null` from the server are not modelled.
- Names, categories and suppliers of server records are taken to be texts. A record lacking one, which would make the search filter throw, is not modelled.
- A dashboard row handed to the editor is given no `min_stock` key by `EditSourceOf`. A loaded row has none. A row updated in place does gain one, equal to its `minStock`. That `minStock` is never missing, so the editor's fallback to `min_stock` is not reached either way.
- On an add, the server's record passed to `onSubmit` is not carried in `Notice`, because the dashboard reloads the list instead of using it.
- Session.StoredText: a token that is JSON `null` (stored as "null") is not distinguished from a missing one (stored as "undefined").
- Input names other than the six form fields, which would add keys to the form object, are not modelled.
- The `replace` flag of the guard's redirects, and the browser history it affects, are not modelled.
- AppRoutes.Route: letter case and trailing slashes are handled as the router does. Percent-encoded characters in a location are not decoded before matching.
