# DeliveryCOMPANY (ST&L Logistics): a Dafny model of its core

ST&L Logistics is a delivery company's web application. This project models
the part of it that decides who may see and change what, and how money moves.

The React client (`client/st_l/src`):

- the session provider: sign-in, sign-out, the profile fetch, and the two
  tokens kept in `localStorage`;
- the request interceptor that attaches the bearer token;
- the route table with its `ProtectedRoute` guard. There are two versions:
  `App.jsx` and the older `App.js`;
- the role-filtered sidebar menu;
- the list pages: shipments (search), invoices (ownership filter, unpaid
  toggle, outstanding total) and claims (ownership filter, status label);
- the shipment form and the invoice editor, which are list editors;
- the registration payload.

The Django server (`server/`):

- the permission classes and the viewsets that combine them;
- the role-scoped querysets, and the per-action permissions of payments;
- the pricing rule `Shipment.calculate_cost` and its use in `Shipment.save`;
- the nested create of a shipment with its parcels, and the tour guard on
  updates and deletes;
- the invoice amounts (HT, VAT at 19%, TTC);
- the client ledger: creating an invoice raises the client's `balance`, a
  payment lowers it, and deleting an invoice takes its amount back;
- account creation, with the optional client profile.

Modelling choices:

- **Values become datatypes; objects whose fields change become classes.**
  - `LocalStorage`, `AuthProvider`, `RequestConfig`, `ShipmentForm` and
    `PaymentViewSet` are classes, with methods that state their whole new
    state.
  - The database is one `Store` class. Its `Valid()` invariant says every key
    was issued by its table's counter and every profile belongs to a user.
    The invariant is kept by every operation.
- **Types.**
  - Django `Decimal` amounts are exact `real`s.
  - A role the client receives is an `Option<string>`, because JavaScript
    sees whatever JSON the API sent.
  - A role on the server is one of the four enumerated values.
  - `request.user` is missing, anonymous, or a signed-in member.
- **Network results are parameters.** Every network reply a client method
  awaits is a parameter of that method: the data, or a failure.

Three behaviours of the code worth knowing:

- **An unknown truthy role is let through.** App.jsx's guard sends a
  signed-in user whose role is not allowed to `/login`, not to a fallback
  page. It only checks that the role is truthy, so an unknown truthy role
  is rendered on routes without a role list (`AppRoutes.ProtectedRoute`).
- **App.js redirects to `/shipments`.** App.js's guard sends such a user to
  `/shipments` instead (`AppRoutesAlt.ProtectedRoute`).
- **`login` answers true even after a failed profile fetch.** `login` answers
  true as soon as the token exchange succeeds, even when the profile fetch
  that follows fails and logs the user out again
  (`AuthContext.AuthProvider.Login`).

## Model

| member | source | states |
|---|---|---|
| Roles.NameInjective | server/users/models.py:6-10 | the four role strings are pairwise distinct, so a role name identifies its role |
| Roles.IncludesRole | client/st_l/src/App.jsx:38 | `allowedRoles.includes(role)` holds for a role's name exactly when the role is in the list |
| Browser.LocalStorage.constructor | client/st_l/src/context/AuthContext.jsx:47 | the store starts with whatever items an earlier visit left |
| Browser.LocalStorage.GetItem | client/st_l/src/services/api.js:9 | `getItem` answers the stored string exactly when the key is present, and `null` otherwise |
| Browser.LocalStorage.SetItem | client/st_l/src/context/AuthContext.jsx:29-30 | `setItem` overwrites one key and leaves every other item |
| Browser.LocalStorage.RemoveItem | client/st_l/src/context/AuthContext.jsx:41-42 | `removeItem` deletes one key and leaves every other item |
| ApiClient.RequestConfig.constructor | client/st_l/src/services/api.js:8 | a request config holds its verb, URL and headers |
| ApiClient.WithAuthorization | client/st_l/src/services/api.js:8-14 | with a truthy stored access token the headers gain `Authorization: Bearer <token>`; otherwise they are unchanged |
| ApiClient.Intercept | client/st_l/src/services/api.js:8-14 | the interceptor changes only the headers of the config it is given, and returns that same object |
| ApiClient.OnlyAuthorizationChanges | client/st_l/src/services/api.js:10-12 | every header other than `Authorization` keeps its presence and value, and no header is removed |
| ApiClient.NoTokenNoHeader | client/st_l/src/services/api.js:10 | without a stored access token, a request carries no bearer header the caller did not set |
| AuthContext.WithoutTokens | client/st_l/src/context/AuthContext.jsx:40-44 | sign-out removes both tokens and keeps every other stored item unchanged |
| AuthContext.WithoutTokensIdempotent | client/st_l/src/context/AuthContext.jsx:40-44 | removing the tokens twice is the same as once |
| AuthContext.AuthProvider.constructor | client/st_l/src/context/AuthContext.jsx:7-8 | a provider starts with no user and with loading on |
| AuthContext.AuthProvider.SetUser | client/st_l/src/context/AuthContext.jsx:7 | `setUser` replaces the user and leaves loading |
| AuthContext.AuthProvider.Logout | client/st_l/src/context/AuthContext.jsx:40-44 | `logout` removes both tokens, forgets the user, and leaves loading as it was |
| AuthContext.AuthProvider.FetchProfile | client/st_l/src/context/AuthContext.jsx:10-22 | the request carries the current token; success stores the profile as the user; failure logs out; either way loading ends |
| AuthContext.AuthProvider.Login | client/st_l/src/context/AuthContext.jsx:24-38 | answers true exactly when the token exchange succeeds; a failed exchange changes nothing and sends no profile request; after a successful one the profile request carries exactly the new access token, and a failed profile fetch leaves no user and no tokens |
| AuthContext.AuthProvider.Bootstrap | client/st_l/src/context/AuthContext.jsx:46-53 | a profile request is made exactly when a truthy access token is stored; loading ends in every case |
| AuthContext.Mount | client/st_l/src/context/AuthContext.jsx:7-53 | after the first render, loading is off; without a token there is no user; with a rejected token both tokens are gone |
| AuthContext.LogoutTwice | client/st_l/src/context/AuthContext.jsx:40-44 | signing out twice leaves the same state as once |
| AuthContext.LoadingStaysOff | client/st_l/src/context/AuthContext.jsx:19-20 | once loading is off, any sequence of login, logout, profile fetch, mount effect and `setUser` calls leaves it off |
| AuthContext.RequestAfterLogout | client/st_l/src/context/AuthContext.jsx:40-44 | after logout, the next profile request carries no bearer header |
| AuthContext.LoginAuthorisesProfileRequest | client/st_l/src/context/AuthContext.jsx:29-32 | a login with a non-empty access token sends a profile request carrying exactly `Bearer <token>` |
| AppRoutes.ProtectedRoute | client/st_l/src/App.jsx:31-44 | while loading, the placeholder; without a user, `/login`; the children render exactly when the role is truthy and allowed; every redirect goes to `/login` |
| AppRoutes.IncidentDispatcher | client/st_l/src/App.jsx:25-29 | nothing without a user; the report form exactly for a DRIVER; the list for anyone else |
| AppRoutes.Visit | client/st_l/src/App.jsx:51-94 | a protected route shows the loading screen while loading and `/login` without a user; only `/incidents` can render nothing |
| AppRoutes.AccessMatrix | client/st_l/src/App.jsx:54-91 | for every protected route and known role, the page is shown exactly when the route's role list grants the role, and `/login` otherwise |
| AppRoutes.MissingRoleRedirects | client/st_l/src/App.jsx:38-41 | a profile without a truthy role is sent to `/login` on every protected route |
| AppRoutes.FallbackRoutes | client/st_l/src/App.jsx:93-94 | `/` goes to `/login` and every undeclared path to `/dashboard`, whatever the session |
| AppRoutes.IncidentsRouteByRole | client/st_l/src/App.jsx:75-79 | on `/incidents` a DRIVER gets the report form, ADMIN and AGENT the list, a CLIENT `/login` |
| AppRoutesAlt.ProtectedRoute | client/st_l/src/App.js:7-18 | without a user, `/login`; a role outside the list, `/shipments`; otherwise the children render, whatever the role |
| AppRoutesAlt.GuardsCompared | client/st_l/src/App.js:7-18 | whatever App.jsx's guard renders, App.js's renders too; they agree on every truthy role and differ exactly on a missing role |
| AppRoutesAlt.FirstUnbound | client/st_l/src/App.js:1-4 | finds no name exactly when every referenced component is declared; otherwise the first undeclared one |
| AppRoutesAlt.RouteScreen | client/st_l/src/App.js:24-51 | once the element tree exists, the dashboard is shown to a signed-in user exactly when ADMIN or AGENT; `/` goes to `/login`; only undeclared paths match nothing |
| AppRoutesAlt.Render | client/st_l/src/App.js:20-56 | rendering fails with a `ReferenceError` on every path exactly when some component the element tree names is undeclared, and names an undeclared one |
| AppRoutesAlt.Visit | client/st_l/src/App.js:1-56 | App.js as written can only fail with a name it references but does not declare |
| AppRoutesAlt.NothingRenders | client/st_l/src/App.js:44 | every path, `/login` included, fails with `ReferenceError: MainLayout`, since no line of App.js imports it |
| AppRoutesAlt.VisitWithLayout | client/st_l/src/App.js:24-51 | with `MainLayout` imported, no error: `/login` shows the login page, the dashboard is shown exactly to ADMIN and AGENT, `/` goes to `/login` |
| Sidebar.FilteredGroups | client/st_l/src/components/Sidebar.jsx:55-57 | each group keeps its heading and holds exactly its items filtered by role |
| Sidebar.RenderedGroupsSpec | client/st_l/src/components/Sidebar.jsx:55-59 | the rendered menu is the filtered groups minus the empty ones, in declaration order, and no rendered group is empty |
| Sidebar.ItemsForExactly | client/st_l/src/components/Sidebar.jsx:57 | an item is shown exactly when its role list includes the user's role, and items keep their order |
| Sidebar.NoRoleNoMenu | client/st_l/src/components/Sidebar.jsx:57-59 | without a user or role, no group is rendered |
| Sidebar.ItemsForPair | client/st_l/src/components/Sidebar.jsx:57 | a two-item group keeps each item exactly when its roles include the user's role |
| Sidebar.RenderedThree | client/st_l/src/components/Sidebar.jsx:55-59 | three groups render as the three groups rendered one after the other |
| Sidebar.PairForRole | client/st_l/src/components/Sidebar.jsx:57 | for a signed-in role, a two-item group keeps the items whose role list contains that role |
| Sidebar.MenuByGroup | client/st_l/src/components/Sidebar.jsx:21-59 | the menu is the three declared groups, each filtered for the role |
| Sidebar.MenuForRole | client/st_l/src/components/Sidebar.jsx:21-59 | a CLIENT sees Shipments, Invoices and Claims; a DRIVER sees Dashboard, Shipments and Incidents; ADMIN and AGENT see all |
| Sidebar.StaffMenu | client/st_l/src/components/Sidebar.jsx:21-46 | ADMIN and AGENT see every group whole |
| Sidebar.IsActive | client/st_l/src/components/Sidebar.jsx:71 | a link is highlighted on its own path, and only on paths that begin with it |
| Sidebar.ActiveBelowPath | client/st_l/src/components/Sidebar.jsx:71 | every path below an item's path highlights that item |
| Sidebar.Label | client/st_l/src/components/Sidebar.jsx:79 | a link shows its name, except that a DRIVER sees "Assigned Cargo" for Shipments, and only then |
| Sidebar.HandleLogout | client/st_l/src/components/Sidebar.jsx:15-19 | the sidebar's sign-out removes only the access token, keeps the refresh token, clears the user and goes to `/login` |
| Text.Lower | client/st_l/src/pages/ShipmentsList.jsx:42 | `toLowerCase` keeps the length and lowers each capital letter |
| Text.DecimalString | client/st_l/src/pages/ShipmentsList.jsx:41 | `id.toString()` is a non-empty digit string without a leading zero |
| Text.ReplaceFirst | client/st_l/src/pages/ClaimsList.jsx:116 | `replace` with a string pattern changes only the first occurrence, and nothing when there is none |
| Text.ReplaceFirstMultiset | client/st_l/src/pages/ClaimsList.jsx:116 | replacing the first occurrence trades one `from` for one `to`, and leaves a string without `from` as it is |
| ClientScope.OwnRows | client/st_l/src/pages/InvoicesList.jsx:25-30 | anyone but a CLIENT keeps every row; the result is never longer than the input |
| ClientScope.OwnRowsExactly | client/st_l/src/pages/ClaimsList.jsx:41-47 | a CLIENT keeps exactly the rows whose client username is its own |
| ClientScope.OwnRowsInOrder | client/st_l/src/pages/ClaimsList.jsx:43 | the kept rows are in the fetched order |
| ShipmentsList.FilteredShipments | client/st_l/src/pages/ShipmentsList.jsx:40-43 | the search never adds rows |
| ShipmentsList.FilteredExactly | client/st_l/src/pages/ShipmentsList.jsx:40-43 | a row is listed exactly when its id contains the term or its lower-cased username contains the lower-cased term |
| ShipmentsList.FilteredInOrder | client/st_l/src/pages/ShipmentsList.jsx:40 | the listed rows keep the fetched order |
| ShipmentsList.EmptyTermKeepsAll | client/st_l/src/pages/ShipmentsList.jsx:41 | an empty search box lists every shipment |
| ShipmentsList.NoClientOnlyId | client/st_l/src/pages/ShipmentsList.jsx:42 | a shipment without a client username is found only by its id |
| ShipmentsList.IdMatchNeedsDigits | client/st_l/src/pages/ShipmentsList.jsx:41 | a term found in an id consists of digits |
| ShipmentsList.LowerKeepsDigits | client/st_l/src/pages/ShipmentsList.jsx:42 | lower-casing neither makes nor unmakes a digit |
| ShipmentsList.LowerIdempotent | client/st_l/src/pages/ShipmentsList.jsx:42 | lower-casing twice is lower-casing once |
| ShipmentsList.DigitsAreLower | client/st_l/src/pages/ShipmentsList.jsx:42 | a digit string is its own lower case |
| ShipmentsList.IdMatchIgnoresCase | client/st_l/src/pages/ShipmentsList.jsx:41 | the id test gives the same answer for a term and its lower case |
| ShipmentsList.SearchIgnoresCase | client/st_l/src/pages/ShipmentsList.jsx:40-43 | the search is case-insensitive: a term and its lower case find the same rows |
| ShipmentsList.ListedShipments | client/st_l/src/pages/ShipmentsList.jsx:12-27 | nothing is listed without a user or after a failed fetch; otherwise the fetched rows filtered by the term |
| ShipmentsList.StatusStyle | client/st_l/src/pages/ShipmentsList.jsx:30-38 | the default badge is used exactly for a status outside the four known ones |
| ShipmentsList.StatusStylesDistinct | client/st_l/src/pages/ShipmentsList.jsx:30-38 | the four known statuses get four different badges |
| ShipmentsList.ControlsByRole | client/st_l/src/pages/ShipmentsList.jsx:62 | the Client column is shown to every role but CLIENT, and the New Shipment link only to ADMIN and AGENT |
| InvoicesList.VisibleInvoices | client/st_l/src/pages/InvoicesList.jsx:25-30 | a CLIENT keeps exactly its own invoices; every other user keeps the whole list |
| InvoicesList.Loaded | client/st_l/src/pages/InvoicesList.jsx:10 | the page starts with the unpaid filter off |
| InvoicesList.Displayed | client/st_l/src/pages/InvoicesList.jsx:53-55 | with the filter on, exactly the UNPAID invoices are displayed; with it off, all of them |
| InvoicesList.DisplayedInOrder | client/st_l/src/pages/InvoicesList.jsx:53-55 | the displayed invoices keep the stored order |
| InvoicesList.Toggle | client/st_l/src/pages/InvoicesList.jsx:89 | the Quick Filter button flips the filter and keeps the invoices |
| InvoicesList.ToggleTwice | client/st_l/src/pages/InvoicesList.jsx:89 | two clicks restore the page and what it displays |
| InvoicesList.OutstandingIsUnpaidTotal | client/st_l/src/pages/InvoicesList.jsx:84 | the outstanding total is the TTC sum of the invoices whose status is not PAID |
| InvoicesList.OutstandingAppend | client/st_l/src/pages/InvoicesList.jsx:84 | one more invoice adds its TTC to the outstanding total unless it is PAID |
| InvoicesList.ToggleKeepsOutstanding | client/st_l/src/pages/InvoicesList.jsx:84-89 | the unpaid filter does not change the outstanding total |
| InvoicesList.StatusStyle | client/st_l/src/pages/InvoicesList.jsx:44-51 | the default badge is used exactly for a status other than PAID, UNPAID and PARTIAL |
| InvoicesList.ControlsByRole | client/st_l/src/pages/InvoicesList.jsx:68 | the Generate Invoice link is shown exactly to ADMIN and AGENT, and the Client column exactly to ADMIN |
| ClaimsList.VisibleClaims | client/st_l/src/pages/ClaimsList.jsx:41-47 | a CLIENT keeps exactly the claims it filed, in the fetched order (through `ClientScope.OwnRowsInOrder`); anyone else keeps all of them |
| ClaimsList.StatusStyle | client/st_l/src/pages/ClaimsList.jsx:60-68 | the default badge is used exactly for a status outside the four known ones |
| ClaimsList.StatusLabel | client/st_l/src/pages/ClaimsList.jsx:116 | the label has the status's length, and a status without an underscore is shown as it is |
| ClaimsList.StatusLabelOneUnderscore | client/st_l/src/pages/ClaimsList.jsx:116 | only the first underscore becomes a space; every other character stays in place |
| ClaimsList.ControlsByRole | client/st_l/src/pages/ClaimsList.jsx:83 | the New Claim link is shown only to a CLIENT, and the client name only to an ADMIN; never both |
| ShipmentCreate.WithField | client/st_l/src/pages/ShipmentCreate.jsx:42 | setting one field of a parcel changes that field only |
| ShipmentCreate.ShipmentForm.constructor | client/st_l/src/pages/ShipmentCreate.jsx:11-17 | the form starts empty, with STANDARD service and one empty parcel |
| ShipmentCreate.ShipmentForm.AddParcel | client/st_l/src/pages/ShipmentCreate.jsx:28-33 | one empty parcel is appended; nothing else changes |
| ShipmentCreate.ShipmentForm.RemoveParcel | client/st_l/src/pages/ShipmentCreate.jsx:35-38 | the parcel at the index goes and the others keep their order; an index out of range changes nothing |
| ShipmentCreate.ShipmentForm.ClickRemove | client/st_l/src/pages/ShipmentCreate.jsx:142-150 | the trash button, drawn only after the first row, removes one row and never empties the list |
| ShipmentCreate.ShipmentForm.HandleParcelChange | client/st_l/src/pages/ShipmentCreate.jsx:40-44 | only the named field of the named parcel changes |
| ShipmentCreate.ClientOptions | client/st_l/src/pages/ShipmentCreate.jsx:23 | the dropdown never holds more users than were fetched |
| ShipmentCreate.ClientOptionsExactly | client/st_l/src/pages/ShipmentCreate.jsx:23 | the dropdown lists exactly the CLIENT users, in the order the API returned them |
| InvoiceGenerate.AddItem | client/st_l/src/pages/InvoiceGenerate.jsx:9 | one default item is appended after the existing ones |
| InvoiceGenerate.RemoveItem | client/st_l/src/pages/InvoiceGenerate.jsx:11-14 | the item at the index goes; an index out of range changes nothing |
| InvoiceGenerate.RemoveCanEmpty | client/st_l/src/pages/InvoiceGenerate.jsx:7-14 | the only initial item can be removed, leaving an empty list |
| InvoiceGenerate.TotalIsSum | client/st_l/src/pages/InvoiceGenerate.jsx:16-18 | the running total is the sum of quantity times price, and 0 for no items |
| InvoiceGenerate.TotalAfterAdd | client/st_l/src/pages/InvoiceGenerate.jsx:9 | adding the default item leaves the total unchanged |
| InvoiceGenerate.TotalAfterRemove | client/st_l/src/pages/InvoiceGenerate.jsx:11-18 | removing an item subtracts its amount from the total |
| InvoiceGenerate.ItemsAfter | client/st_l/src/pages/InvoiceGenerate.jsx:49-53 | whatever is clicked, every item is the default item, because the inputs are not bound to the items |
| InvoiceGenerate.ZeroPricesZeroTotal | client/st_l/src/pages/InvoiceGenerate.jsx:16-18 | a list whose prices are all 0 totals 0 |
| InvoiceGenerate.TotalAlwaysZero | client/st_l/src/pages/InvoiceGenerate.jsx:7-18 | the displayed total is 0 after any sequence of clicks |
| Register.BuildPayload | client/st_l/src/pages/Register.jsx:20-28 | the payload has exactly username, email, password, role CLIENT and a nested `client_profile` with the company name; no root `company_name` |
| Permissions.PermissionsByRole | server/users/permissions.py:6-7 | a missing or anonymous user fails both role tests; for a member, `IsAdminUser` means ADMIN and `IsAdminOrAgent` means ADMIN or AGENT |
| Permissions.AdminUserIsAdminOrAgent | server/finance/views.py:10-16 | `IsAdminUser` implies `IsAdminOrAgent`, which implies authenticated; the difference is exactly AGENT |
| Permissions.IsOwnerOrAdmin | server/users/permissions.py:12-23 | an ADMIN is always granted; anyone else only as the owner named by `client` or `user` |
| Permissions.ClientCheckedFirst | server/users/permissions.py:18-19 | for a non-admin, an object with `client` is decided by it alone, even when `user` would match |
| Permissions.UserCheckedSecond | server/users/permissions.py:20-21 | without `client`, the `user` attribute decides |
| Permissions.NoOwnerAttributeOnlyAdmin | server/users/permissions.py:23 | an object with neither attribute is refused to everyone but an ADMIN |
| Permissions.NullOwnerOnlyAdmin | server/users/permissions.py:18-19 | an object whose `client` is null is refused to everyone but an ADMIN |
| Permissions.NonAdminRoleIrrelevant | server/users/permissions.py:14-15 | only ADMIN gets a shortcut; the answer for an AGENT, DRIVER or CLIENT does not depend on the role |
| Viewsets.DeclaredClasses | server/shipping/views.py:18 | every endpoint is guarded by at least one permission class; the lemmas below say what each list admits |
| Viewsets.StaffEndpoints | server/logistics/views.py:18-30 | tours, incidents, drivers and vehicles admit a request exactly when the user is ADMIN or AGENT |
| Viewsets.IncidentsRefuseDriversAndClients | server/support/views.py:14-19 | a DRIVER or a CLIENT cannot use the incidents endpoint at all |
| Viewsets.DestinationsNeedLogin | server/logistics/views.py:32-37 | destinations admit exactly the authenticated users |
| Viewsets.OwnedEndpoints | server/finance/views.py:21 | shipments, invoices and claims admit any authenticated user, and an object exactly as `IsOwnerOrAdmin` decides |
| Viewsets.ParcelsOnlyAdminObjects | server/shipping/views.py:50-54 | any authenticated user passes the parcel view test, but only an ADMIN reaches a parcel object |
| Viewsets.RoleScoped | server/shipping/views.py:20-27 | ADMIN and AGENT see every row, a DRIVER none, and the result is never longer than the table |
| Viewsets.RoleScopedClient | server/shipping/views.py:25-26 | a CLIENT sees exactly its own rows, in stored order |
| Viewsets.RoleScopedOwned | server/support/views.py:31-32 | a CLIENT sees every stored row it owns, and only those |
| Viewsets.ShipmentQueryset | server/shipping/views.py:20-27 | a CLIENT gets exactly the stored shipments it owns; ADMIN and AGENT get all; a DRIVER gets none |
| Viewsets.InvoiceQueryset | server/finance/views.py:23-29 | a CLIENT gets exactly the stored invoices it owns; ADMIN and AGENT get all; a DRIVER gets none |
| Viewsets.ClaimQueryset | server/support/views.py:26-33 | a CLIENT gets exactly the stored claims it owns; ADMIN and AGENT get all; a DRIVER gets none |
| Viewsets.PaymentQueryset | server/finance/views.py:40-49 | ADMIN and AGENT see every payment, a DRIVER none |
| Viewsets.PaymentQuerysetClient | server/finance/views.py:45-47 | a CLIENT sees exactly the payments whose invoice is stored and belongs to it |
| Viewsets.PaymentClassesFor | server/finance/views.py:51-60 | update, partial update and destroy need `IsAdminUser`; create needs `IsAdminOrAgent`; list and retrieve keep the declared classes |
| Viewsets.PaymentViewSet.constructor | server/finance/views.py:34-38 | a payment viewset starts with the declared `[IsAuthenticated]` |
| Viewsets.PaymentViewSet.GetPermissions | server/finance/views.py:51-60 | `get_permissions` replaces the instance's classes for writes and returns the classes in place |
| Viewsets.PaymentAccess | server/finance/views.py:38-60 | changing or deleting a payment takes an ADMIN, recording one an ADMIN or AGENT, reading one any signed-in user |
| Viewsets.PaymentClassesStable | server/finance/views.py:54-58 | asking twice gives the same classes |
| Viewsets.PaymentRoles | server/finance/views.py:54-58 | an AGENT records but cannot delete payments; a CLIENT reads but cannot record them |
| Database.Store.constructor | server/shipping/models.py:6-61 | an empty database satisfies the key invariant |
| ShippingModels.NewShipment | server/shipping/models.py:48-59 | a new shipment is PENDING, costs 0, and has no tour and no invoice |
| ShippingModels.VolumeOf | server/shipping/models.py:75 | a parcel's volume in cubic metres is never negative |
| ShippingModels.TotalVolume | server/shipping/models.py:72-79 | the volume total is never negative |
| ShippingModels.ParcelsOf | server/shipping/models.py:106 | a shipment's parcels are exactly the stored parcels pointing to it |
| ShippingModels.CalculateCost | server/shipping/models.py:63-87 | 0 for an unsaved shipment; otherwise base rate plus weight and volume charges of exactly its own parcels |
| ShippingModels.NoParcelsBaseRate | server/shipping/models.py:68-79 | with no parcels both sums are 0 and the cost is the base rate |
| ShippingModels.CostAddParcel | server/shipping/models.py:82-86 | each parcel adds its weight charge and its volume charge |
| ShippingModels.AddParcelNeverCheaper | server/shipping/models.py:82-86 | with non-negative rates and weight, adding a parcel never lowers the cost |
| ShippingModels.CostIgnoresOrder | server/shipping/models.py:68-79 | the cost does not depend on the order of the parcels |
| ShippingModels.CostIgnoresOtherFields | server/shipping/models.py:63-87 | the cost reads only the destination's rates and the parcels, not origin, service, status, tour or invoice |
| FinanceModels.TtcIsHtWithVat | server/finance/models.py:21-52 | VAT is 0.19 times HT, and TTC is 1.19 times HT |
| FinanceModels.NoShipmentsZero | server/finance/models.py:40-43 | an invoice with no linked shipment amounts to 0 |
| FinanceModels.AmountsNonNegative | server/finance/models.py:40-52 | with non-negative shipment costs, HT is non-negative and TTC is at least HT |
| ShippingOps.SaveShipment | server/shipping/models.py:89-98 | the row is stored with the recomputed cost; the cost is written again exactly when it differed; no other table changes |
| ShippingOps.NoRepeatStep | server/shipping/models.py:107 | one more entry without a repeated tracking number extends the repeat-free prefix |
| ShippingOps.RepeatedAtTrackings | server/shipping/models.py:107 | an entry repeats exactly when its tracking number is among the earlier ones |
| ShippingOps.NewParcels | server/shipping/serializers.py:51-52 | one parcel row per entry, in order, with consecutive keys, linked to the shipment and carrying the entry's data |
| ShippingOps.NewParcelsSnoc | server/shipping/serializers.py:51-52 | one more entry adds one more row at the end |
| ShippingOps.TrackingsOfNew | server/shipping/serializers.py:51-52 | the created rows carry exactly the tracking numbers of the entries |
| ShippingOps.TrackingsAppend | server/shipping/models.py:107 | the tracking numbers of two lists of rows are the union of each list's numbers |
| ShippingOps.CreatedShipment | server/shipping/serializers.py:48 | the created row has the field defaults, STANDARD service unless `service_type` was sent, and costs the destination's base rate |
| ShippingOps.InsertShipment | server/shipping/serializers.py:48 | one row is added with the next key, priced while it has no parcels; nothing else changes |
| ShippingOps.InsertParcel | server/shipping/serializers.py:52 | one parcel row is added with the next key; nothing else changes |
| ShippingOps.TrackingsStep | server/shipping/serializers.py:51-52 | storing one more entry adds its tracking number |
| ShippingOps.TrackingsKept | server/shipping/serializers.py:51-52 | the stored tracking numbers stay the earlier ones plus those of the entries stored |
| ShippingOps.StoreEntry | server/shipping/serializers.py:51-52 | storing entry `i` keeps the loop's facts true for `i + 1` |
| ShippingOps.CreateParcels | server/shipping/serializers.py:51-52 | all entries are stored when none repeats an earlier tracking number; otherwise exactly those before the first repeat, and the loop stops there |
| ShippingOps.ParcelChecks | server/shipping/models.py:107-112 | a weight with two decimals passes; a third decimal, a blank tracking number or a six-digit weight is rejected |
| ShippingOps.CreateShipment | server/shipping/serializers.py:45-56 | input that fails validation (an unknown client or destination, a parcel field outside its column, a tracking number already stored) writes nothing; valid input adds the shipment at base rate and its parcels; a repeat stops at the first one and keeps what was written |
| ShippingOps.ParcelsOfNew | server/shipping/models.py:106 | a new shipment's parcels are exactly the rows created for it |
| ShippingOps.CreatedCostGap | server/shipping/models.py:63-87 | the price of a just-created shipment is its base rate plus the charges of its new parcels |
| ShippingOps.CreatedCostCounterexample | server/shipping/serializers.py:45-56 | with base rate 500, 10 per kg and one 2 kg parcel, the stored cost is 500 while the price is 520 |
| ShippingOps.CreateShipmentPriced | server/shipping/serializers.py:45-56 | the intended create stores the shipment priced with all its parcels |
| ShippingOps.SaveNewestAgain | server/shipping/models.py:89-98 | saving the newest shipment after its parcels exist stores their price |
| ShippingOps.Applied | server/shipping/serializers.py:43 | an update sets only the validated fields; key, tour, status, invoice and cost stay read-only |
| ShippingOps.PerformUpdate | server/shipping/views.py:30-35 | a shipment on a tour is refused and nothing changes; otherwise data carrying `parcels` is refused by the default `update` with nothing written, and anything else saves the changed row with its recomputed cost |
| ShippingOps.PerformDestroy | server/shipping/views.py:37-41 | a shipment on a tour is refused and nothing changes; otherwise the row and its parcels go, and nothing else |
| ShippingOps.DestroyedLeavesNoTrace | server/shipping/models.py:106 | after a destroy, no row has that key and no parcel points to it, and every other row stays |
| FinanceOps.Charged | server/finance/models.py:36 | a balance change moves the balance by exactly the amount and keeps the other profile fields |
| FinanceOps.ChargeClient | server/finance/serializers.py:48-50 | only that client's balance moves, by the amount |
| FinanceOps.PutPayment | server/finance/models.py:69 | the payment row is written under its key; nothing else changes |
| FinanceOps.SavePayment | server/finance/models.py:68-72 | the row is written; a missing profile raises after that; otherwise the client's balance drops by the amount on every save |
| FinanceOps.SavePaymentTwice | server/finance/models.py:68-72 | saving the same payment twice stores it once but lowers the balance by twice its amount |
| FinanceOps.SavePaymentOnce | server/finance/models.py:68-72 | the intended save moves the balance by the change in the stored amount |
| FinanceOps.PutStored | server/finance/models.py:69 | after a save, the stored amount under the key is the saved one |
| FinanceOps.SavePaymentOnceTwice | server/finance/models.py:68-72 | with the intended save, saving twice moves the balance once |
| FinanceOps.Unlinked | server/shipping/models.py:46 | deleting an invoice keeps every shipment row |
| FinanceOps.UnlinkedAmounts | server/shipping/models.py:46 | after unlinking, the deleted invoice amounts to 0 and every other invoice keeps its amount |
| FinanceOps.DeleteInvoice | server/finance/models.py:32-38 | the balance drops by the TTC before the delete; with payments it raises and the drop stays; otherwise the row goes and its shipments are unlinked |
| FinanceOps.RemoveInvoice | server/finance/models.py:38 | the invoice row goes and its shipments lose their link; nothing else changes |
| FinanceOps.UnlinkedKeepsValid | server/shipping/models.py:46 | unlinking keeps every shipment key and invoice link within its counter |
| FinanceOps.DeleteInvoiceRetried | server/finance/models.py:32-38 | a refused delete, retried, keeps the invoice yet lowers the balance by twice its TTC |
| FinanceOps.DeleteInvoiceChecked | server/finance/models.py:32-38 | the intended delete refuses an invoice with payments before touching the balance; a refused delete changes nothing |
| FinanceOps.Linked | server/finance/serializers.py:44-45 | linking keeps every shipment row |
| FinanceOps.LinkedExactly | server/finance/serializers.py:44-45 | a shipment is linked exactly when listed, of the invoice's client and not yet invoiced; only its invoice changes |
| FinanceOps.LinkedAmounts | server/finance/serializers.py:44-45 | the new invoice's HT is the cost of the shipments just linked, and every other invoice keeps its amount |
| FinanceOps.LinkedNewAmount | server/finance/serializers.py:44-45 | the new invoice's HT is the cost of the selected shipments |
| FinanceOps.LinkedOtherAmount | server/finance/serializers.py:44-45 | linking does not change the amount of any other invoice |
| FinanceOps.CreatedInvoice | server/finance/models.py:16-19 | the created row has the given client and due date, and is UNPAID by default |
| FinanceOps.CreateInvoice | server/finance/serializers.py:36-52 | a non-CLIENT is refused with nothing written; otherwise the row is added and the selected shipments linked; with a profile the balance rises by exactly 1.19 times their cost; without one it raises after writing |
| FinanceOps.InsertInvoice | server/finance/serializers.py:41 | one invoice row is added with the next key, and no shipment points to it yet |
| FinanceOps.LinkShipments | server/finance/serializers.py:44-45 | only shipments change, and the new invoice then amounts to 1.19 times their cost |
| FinanceOps.LinkedKeepsValid | server/finance/serializers.py:44-45 | linking to an issued invoice keeps every key within its counter |
| FinanceOps.CreateThenDelete | server/finance/models.py:32-38 | creating an invoice and then deleting it restores the client's balance and the invoice table |
| FinanceOps.CreateForProfiledClient | server/finance/serializers.py:36-52 | for a CLIENT with a profile the create succeeds, charges the TTC, and the new row has no payments |
| FinanceOps.DeleteUnpaidInvoice | server/finance/models.py:32-38 | deleting an invoice without payments succeeds, takes back its TTC and removes the row |
| FinanceOps.DeleteNewest | server/finance/models.py:32-38 | deleting the newest invoice from a client charged exactly its TTC restores the profile and drops the last row |
| FinanceOps.FilterDropsNewest | server/finance/models.py:38 | removing the key of the last row drops just that row |
| FinanceOps.ChargedBack | server/finance/models.py:36 | taking back what was charged restores the profile |
| UsersOps.NewProfile | server/users/serializers.py:29-30 | the profile holds the supplied fields and a balance of 0 by default |
| UsersOps.ProfileFor | server/users/serializers.py:29-30 | a profile is created exactly for a CLIENT that supplied profile data |
| UsersOps.NonClientProfileDiscarded | server/users/serializers.py:25-30 | profile data sent for an ADMIN, AGENT or DRIVER is dropped without an error |
| UsersOps.NewUser | server/users/serializers.py:27 | the user row holds the given username, email and role |
| UsersOps.CreateUser | server/users/serializers.py:23-32 | exactly one user is added under a fresh key; a profile is added under the same key exactly when `ProfileFor` gives one; nothing else changes |

## Left out

- HTTP, axios, JWT issuing and refresh are left out. Each network reply is a parameter of the method that awaits it.
- React rendering, navigation and `alert` are left out. The model says which page, redirect or control a state leads to.
- Django's ORM, transactions, DRF routing and `get_object`'s 404 are left out. A lookup of a missing row is a precondition.
- DRF's default permission settings are left out. Only the classes each viewset declares are modelled.
- The analytics view and the tour, incident, driver and vehicle models are left out. Only the permission classes of their viewsets are modelled.
- Decimal rounding to two places and JavaScript floating point (`parseFloat`, `toFixed`, the `/ 1000000.0` volume) are left out. Amounts are exact reals.
- Text.Lower: only ASCII capitals are lowered, while JavaScript's `toLowerCase` also lowers other letters.
- Permissions.IsOwnerOrAdmin: requires `request.user` to be present. The code dereferences it, and DRF always sets it.
- `ShipmentSerializer` defines no `update`, so an update runs DRF's default one. A PUT that omits the required `parcels` is rejected by validation before `perform_update`; that 400 is not modelled. Every update that carries `parcels` ends in `NestedWriteError`, and only a PATCH without `parcels` saves (`PerformUpdate`).
- ShippingOps.CreateShipment: DRF trims surrounding whitespace from `tracking_number` before its checks; the model takes the tracking number as already trimmed. A negative dimension cannot be written, since dimensions are natural numbers.
- Password hashing, and `first_name` and `last_name`, are left out of `CreateUser`. `password` is not a declared field of `UserSerializer`, so validation drops it before `create_user`.
- `PaymentSerializer` does not list `invoice` among its fields, so the API cannot set it. Payments are modelled as rows that already carry their invoice.
- Server validation of the registration payload is left out. The payload carries only `company_name` in `client_profile`, while `ClientProfile` requires `address` and `phone_number`, so the server would reject it.
- `handleParcelChange` mutates the old parcel object in place before copying the list. The aliasing is not modelled, only the resulting values.
- The invoices and claims pages filter mock lists built in the page. The model takes the fetched list as a parameter.
- Concurrency between requests is left out.

## Findings

| source | as written | input that shows it | evidently intended | confidence | as-written member | corrected member |
|---|---|---|---|---|---|---|
| server/shipping/serializers.py:45-56 | the shipment is saved, and so priced, before its parcels exist; nothing saves it again | base rate 500, 10 per kg, one 2 kg parcel: stored `total_cost` 500, price 520 | the stored cost is the price of the shipment with its parcels | high (not executed) | ShippingOps.CreatedCostCounterexample | ShippingOps.CreateShipmentPriced |
| server/finance/models.py:32-38 | the balance is lowered and saved before `super().delete()`, which raises `ProtectedError` when payments exist | an invoice with one payment, deleted twice: the balance drops by twice its TTC and the invoice stays | refuse a protected invoice before touching the balance | high (not executed) | FinanceOps.DeleteInvoiceRetried | FinanceOps.DeleteInvoiceChecked |
| server/finance/models.py:68-72 | every save of a payment lowers the balance by its full amount, including a re-save of a stored payment | saving the same payment twice: one row, balance lowered by twice the amount | move the balance by the change in the stored amount | high (not executed) | FinanceOps.SavePaymentTwice | FinanceOps.SavePaymentOnce |
| client/st_l/src/App.js:44 | `<MainLayout>` is used, but lines 1-4 never import it, so building `App()`'s element tree throws a `ReferenceError` | any render of `App`, for instance of `/login` | import `MainLayout` from `components/MainLayout.jsx` | high (not executed) | AppRoutesAlt.NothingRenders | AppRoutesAlt.VisitWithLayout |
