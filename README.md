# EnsigoTrace dashboard core, modelled in Dafny

EnsigoTrace is a role-based dashboard for a seed supply chain. Collectors
record seed collections, nurseries receive batches and sell seedlings,
partners browse batches and pay for orders through the Flutterwave
gateway, and administrators manage batches, nurseries and analytics. All
state lives in the browser: `localStorage` and `sessionStorage` hold the
session and the stored records, and two shared in-memory lists stand in
for the sales and seed-collection fixtures.

The model follows the program file by file, one Dafny module per source
file:

- Shared modules:
  - `Wrappers`: options, thrown errors and `{ success, data?, error? }` replies.
  - `Text`: JavaScript string operations, padded ids and number parsing.
  - `Seqs`: order-preserving filters, counts and finds.
  - `Models`: the records and their spreads.
  - `Web`: the browser, with storage maps, the router history and alerts.
- Repositories and services are classes over the browser's storage. Each
  class method is proved equal to a pure step function on a snapshot of
  the state, and the lemmas about those step functions state what the
  source promises. This covers the stored sales, the shared seed list,
  sale numbering, merges, validation order and reply shapes.
- Hooks and pages follow the same pattern:
  - the session and the route guard;
  - login, logout and the sidebar;
  - the sale and payment flow, through the gateway payload and callbacks, the checkout pricing and the success page;
  - the list pages with their filters, appends with numbered ids and numeric guards;
  - the analytics histograms;
  - the partner and collector dashboards, the collection form, settings and profile.
- The browser's own form checks (`required`, `type="number"`, `min`,
  `max`) are a predicate per form: `Submittable` on the admin, project and
  collection forms, `ReceiveSubmittable` and `UpdateSubmittable` on the
  inventory, `RateSubmittable`, `OrderSubmittable`, `LoginSubmittable`,
  and `Filled` on the password form. A form the browser holds back changes
  nothing. Where a handler repeats such a check, the handler as written is
  a member of its own (`HandleReceiveStep`, `HandleUpdateStep`,
  `HandleSubmitStep`, `SubmitOrderStep`, `LoginPage.HandleLogin`), and a
  submit is the browser's check followed by it.
- Ids, timestamps, the year and the hour are parameters. Only their use
  is modelled: sale numbers count every stored sale, and numbered ids are
  fresh and distinct.

## Model

| member | source | states |
|---|---|---|
| SalesRepository.GetAllSeedsOrReads | src/repositories/SalesRepository.ts:12-19 | with nothing stored, `getAll` writes the default list under the key and returns it; a stored list is returned as stored; stored text that is not JSON makes `JSON.parse` throw; stored JSON of another record is taken as a throw as well |
| SalesRepository.GetAllByNursery | src/repositories/SalesRepository.ts:20-23 | with a nursery id the result is exactly the stored sales of that nursery, in stored order; without one (or with an empty one) it is every stored sale |
| SalesRepository.CreateAppends | src/repositories/SalesRepository.ts:26-36 | `create` appends exactly one sale at the end, earlier sales unchanged, and the store reads back the longer list |
| SalesRepository.CreateNumbersOverAllSales | src/repositories/SalesRepository.ts:27-33 | the new sale carries the given fields and id, and its number is `SALE-<year>-` followed by the count of ALL stored sales plus one, padded to three digits, whatever the nursery |
| SalesRepository.TwoCreatesOnEmptyStore | src/repositories/SalesRepository.ts:13-28 | on an empty store two creates in a row number their sales `-001` then `-002` |
| SalesRepository.CreateKeepsIdsDistinct | src/repositories/SalesRepository.ts:29-35 | a fresh id keeps the stored ids pairwise distinct |
| SalesRepository.UpdateUnknownId | src/repositories/SalesRepository.ts:43-45 | an id no sale has gives `null` and writes nothing beyond the seeding `getAll` does |
| SalesRepository.UpdateKnownId | src/repositories/SalesRepository.ts:43-48 | a known id merges the updates into the first sale with that id, at its index, keeps every other sale and the length, persists the list and returns the merged sale |
| SalesRepository.GetByIdFindsFirst | src/repositories/SalesRepository.ts:51-54 | `getById` returns the first sale with that id, or `null` when no sale has it |
| SalesRepository.SalesRepository.constructor | src/repositories/SalesRepository.ts:8-10 | the repository starts from the shared default list |
| SalesRepository.SalesRepository.LoadAll | src/repositories/SalesRepository.ts:13-19 | the read `create` and `update` make: the listed sales, whether they are the default list, and the seeded store |
| SalesRepository.SalesRepository.GetAll | src/repositories/SalesRepository.ts:12-24 | result and new store are those of `GetAllStep` |
| SalesRepository.SalesRepository.Save | src/repositories/SalesRepository.ts:34-47 | the list is written under the key, and also becomes the default list when `getAll` handed that out (the shared array is mutated in place) |
| SalesRepository.SalesRepository.Create | src/repositories/SalesRepository.ts:26-37 | result and new store are those of `CreateStep` |
| SalesRepository.SalesRepository.Update | src/repositories/SalesRepository.ts:39-49 | result and new store are those of `UpdateStep` |
| SalesRepository.SalesRepository.GetById | src/repositories/SalesRepository.ts:51-54 | result and new store are those of `GetByIdStep` |
| SalesRepository.FirstSaleNumbers | src/repositories/SalesRepository.ts:28 | the first two sale numbers of a year end in `-001` and `-002` |
| SalesRepository.Listed | src/repositories/SalesRepository.ts:13-17 | the list `getAll` works on: the defaults when nothing truthy is stored, the stored list otherwise, and a throw for stored text that is not JSON (or another record's JSON); `GetAllSeedsOrReads` states each case |
| SalesRepository.GetAllStep | src/repositories/SalesRepository.ts:12-23 | `getAll(nurseryId)` as an answer and the store after it; `GetAllSeedsOrReads` and `GetAllByNursery` state what it returns and what it writes |
| SalesRepository.WriteBack | src/repositories/SalesRepository.ts:34 | `setItem` of the whole list; while unseeded the default list handed out is the list written, so the defaults change with it (`CreateAppends` and `UpdateKnownId` read the store back) |
| SalesRepository.CreateStep | src/repositories/SalesRepository.ts:25-36 | `create(fields)` as an answer and the store after it; `CreateAppends`, `CreateNumbersOverAllSales` and `CreateKeepsIdsDistinct` state its result |
| SalesRepository.UpdateStep | src/repositories/SalesRepository.ts:38-49 | `update(id, updates)`: `null` for an unknown id, otherwise the merged sale written back in place; stated by `UpdateUnknownId` and `UpdateKnownId` |
| SalesRepository.GetByIdStep | src/repositories/SalesRepository.ts:51-54 | `getById(id)`: the first stored sale with the id, or `null`; stated by `GetByIdFindsFirst` |
| SalesRepository.Seeded | src/repositories/SalesRepository.ts:13-19 | the store after `getAll`: the defaults written under the key when nothing truthy was there, otherwise unchanged; stated by `GetAllSeedsOrReads` and `UpdateUnknownId` |
| SalesRepository.ForNursery | src/repositories/SalesRepository.ts:20-23 | the nursery filter, skipped for a falsy id; `GetAllByNursery` states that it keeps exactly that nursery's sales in stored order |
| SalesRepository.SaleNumber | src/repositories/SalesRepository.ts:28 | `SALE-<year>-<n padded to three digits>`; `FirstSaleNumbers` and `CreateNumbersOverAllSales` state the first numbers and that `n` counts every stored sale |
| SalesService.DraftError | src/services/SalesService.ts:18-29 | a draft passes exactly when it has a batch id, a positive quantity and price and all three customer fields; otherwise the message is that of the first failed check, in the service's order |
| SalesService.Priced | src/services/SalesService.ts:31-36 | the stored fields carry total `quantity * pricePerUnit` and status `pending` |
| SalesService.CreateSaleRejects | src/services/SalesService.ts:18-29 | a draft that fails a check is answered with that check's message and the store is untouched |
| SalesService.CreateSaleStores | src/services/SalesService.ts:31-38 | a passing draft is appended to the stored list with its id, and the reply carries the stored sale; every field of that sale is the draft's, priced (`Fields(sale) == Priced(d)`): total `quantity * pricePerUnit` and status `pending` |
| SalesService.UpdatePaymentStatusUnknown | src/services/SalesService.ts:46-49 | an unknown sale is answered with "Sale not found" and the store changes only by the seeding read |
| SalesService.UpdatePaymentStatusFound | src/services/SalesService.ts:51-61 | a found sale gets the new status, its reference becomes the argument when that is non-empty and stays otherwise, and no other sale changes |
| SalesService.StatsBounds | src/services/SalesService.ts:70-76 | pending and paid counts together never exceed the total; the revenue is the sum of every sale's paid amount, and with no negative totals it lies between 0 and the sum of all totals |
| SalesService.StatsOfAppended | src/services/SalesService.ts:71-76 | one more sale adds one to the total and counts it, and its amount, under its status only |
| SalesService.SalesService.constructor | src/services/SalesService.ts:7-9 | the service wraps the given repository |
| SalesService.SalesService.GetAllSales | src/services/SalesService.ts:11-13 | delegates to the repository's `getAll` |
| SalesService.SalesService.CreateSale | src/services/SalesService.ts:15-39 | reply and new store are those of `CreateSaleStep` |
| SalesService.SalesService.UpdatePaymentStatus | src/services/SalesService.ts:41-62 | reply and new store are those of `UpdatePaymentStatusStep`; a failed repository update answers "Failed to update sale" |
| SalesService.SalesService.GetSalesStats | src/services/SalesService.ts:64-84 | the statistics are `Stats` of the list `getAll` returned, and a read that throws is passed on |
| SalesService.CreateSaleStep | src/services/SalesService.ts:15-39 | `createSale(draft)`: the first failed check's message without touching the store, or the stored priced sale; stated by `CreateSaleRejects` and `CreateSaleStores` |
| SalesService.UpdatePaymentStatusStep | src/services/SalesService.ts:41-62 | `updatePaymentStatus`: "Sale not found" for an unknown id, otherwise the sale with the new status and, when truthy, the reference; stated by `UpdatePaymentStatusUnknown` and `UpdatePaymentStatusFound` |
| SalesService.Stats | src/services/SalesService.ts:70-76 | the four statistics of `getSalesStats`; `StatsBounds` and `StatsOfAppended` state how they relate to the sales |
| SalesService.RevenueOfPaid | src/services/SalesService.ts:72-74 | the revenue, the sum over the paid sales, equals the sum over all sales of each one's paid amount (its total when paid, else 0) |
| SalesService.RevenueBounds | src/services/SalesService.ts:72-74 | with no negative totals, the paid amounts sum to at least 0 and at most the sum of all totals |
| SalesService.PaymentUpdates | src/services/SalesService.ts:51-58 | the status update, with the reference only when it is truthy; `UpdatePaymentStatusFound` states what the sale then holds |
| SeedRepository.GetAllIgnoresStorage | src/repositories/SeedRepository.ts:12-15 | `getAll` returns the shared default list whatever storage holds, and writes that list to storage |
| SeedRepository.CreateIsSeenLater | src/repositories/SeedRepository.ts:19-30 | a created record gets the id and the data, and every later `getAll` sees it at the end of the list, because the shared list itself was pushed to |
| SeedRepository.UpdateUnknownId | src/repositories/SeedRepository.ts:36-38 | an id no record has gives `null`, and storage only gets `getAll`'s rewrite |
| SeedRepository.UpdateKnownId | src/repositories/SeedRepository.ts:36-41 | a known id merges the updates into the first record with it, keeps every other record and the length, and the next `getAll` still sees the change |
| SeedRepository.DeleteAnswer | src/repositories/SeedRepository.ts:45-49 | `delete` answers `true` exactly when some record has the id |
| SeedRepository.DeleteDoesNotStick | src/repositories/SeedRepository.ts:12-50 | a successful `delete` writes the filtered list to storage, yet the next `getAll` returns the unchanged default list, the deleted record included |
| SeedRepository.SeedCollectionRepository.constructor | src/repositories/SeedRepository.ts:8-10 | the repository starts from the shared default list |
| SeedRepository.SeedCollectionRepository.GetAll | src/repositories/SeedRepository.ts:12-15 | result and new store are those of `GetAllStep` |
| SeedRepository.SeedCollectionRepository.Create | src/repositories/SeedRepository.ts:19-30 | result and new store are those of `CreateStep` |
| SeedRepository.SeedCollectionRepository.Update | src/repositories/SeedRepository.ts:32-42 | result and new store are those of `UpdateStep` |
| SeedRepository.SeedCollectionRepository.Delete | src/repositories/SeedRepository.ts:44-50 | result and new store are those of `DeleteStep` |
| SeedRepository.GetAllStep | src/repositories/SeedRepository.ts:12-17 | `getAll()`: always the default list, which is also written to storage; stated by `GetAllIgnoresStorage` |
| SeedRepository.CreateStep | src/repositories/SeedRepository.ts:19-30 | `create(data)`: the new collection pushed onto the default list itself; stated by `CreateIsSeenLater` |
| SeedRepository.UpdateStep | src/repositories/SeedRepository.ts:32-42 | `update(id, updates)`: `null` for an unknown id, otherwise the merged collection in the default list; stated by `UpdateUnknownId` and `UpdateKnownId` |
| SeedRepository.DeleteStep | src/repositories/SeedRepository.ts:44-50 | `delete(id)`: whether the id was there, with the filtered copy written to storage only; stated by `DeleteAnswer` and `DeleteDoesNotStick` |
| SeedCollectionService.AddError | src/services/SeedCollection.ts:16-21 | data is accepted exactly when the trimmed mother tree is not empty and the quantity is positive; otherwise the message of the first failed check |
| SeedCollectionService.UpdateError | src/services/SeedCollection.ts:30-32 | an update is refused exactly when it carries a quantity that is not positive |
| SeedCollectionService.AddRejects | src/services/SeedCollection.ts:16-21 | refused data is answered with its message and the store is untouched |
| SeedCollectionService.AddStores | src/services/SeedCollection.ts:22-23 | valid data is created through the repository and the reply carries the created record |
| SeedCollectionService.UpdateChecksOnlyQuantity | src/services/SeedCollection.ts:30-36 | an update with no quantity or a positive one goes to the repository, and an unknown id is answered "Collection not found" |
| SeedCollectionService.DeleteReply | src/services/SeedCollection.ts:40-46 | a repository `false` becomes "Collection not found", a `true` a success without data |
| SeedCollectionService.SeedCollectionService.constructor | src/services/SeedCollection.ts:7-9 | the service wraps the given repository |
| SeedCollectionService.SeedCollectionService.GetAllCollections | src/services/SeedCollection.ts:11-13 | delegates to the repository's `getAll` |
| SeedCollectionService.SeedCollectionService.AddCollection | src/services/SeedCollection.ts:15-24 | reply and new store are those of `AddCollectionStep` |
| SeedCollectionService.SeedCollectionService.UpdateCollection | src/services/SeedCollection.ts:26-38 | reply and new store are those of `UpdateCollectionStep` |
| SeedCollectionService.SeedCollectionService.DeleteCollection | src/services/SeedCollection.ts:40-46 | reply and new store are those of `DeleteCollectionStep` |
| SeedCollectionService.AddCollectionStep | src/services/SeedCollection.ts:15-24 | `addCollection(data)`: the first failed check's message with the store unchanged, or the created collection; stated by `AddRejects` and `AddStores` |
| SeedCollectionService.UpdateCollectionStep | src/services/SeedCollection.ts:26-38 | `updateCollection(id, updates)`: only a given nonpositive quantity is refused; an unknown id is "not found"; stated by `UpdateChecksOnlyQuantity` |
| SeedCollectionService.DeleteCollectionStep | src/services/SeedCollection.ts:40-46 | `deleteCollection(id)`: the repository's answer as a reply; stated by `DeleteReply` |
| AuthRepository.LoginOutcome | src/repositories/AuthRepository.ts:9-23 | sign-in succeeds exactly when the first user whose email matches ignoring case has exactly the given password; the answer is that user without its password plus the token; every failure throws the same "Invalid credentials" message |
| AuthRepository.TokenCarriesId | src/repositories/AuthRepository.ts:22 | the token is `mock-token-`, the user's id, a dash, then the timestamp |
| AuthRepository.Token | src/repositories/AuthRepository.ts:22 | `mock-token-<id>-<timestamp>`; `TokenCarriesId` states its parts: the prefix, the user's id, a dash and the timestamp |
| AuthRepository.Login | src/repositories/AuthRepository.ts:5-24 | `login`: the first account whose email matches ignoring case and whose password matches exactly, without its password and with a token, or the "Invalid" throw; stated by `LoginOutcome` |
| AuthRepository.Logout | src/repositories/AuthRepository.ts:26-30 | `logout()` waits and changes nothing; `AuthService.Logout` states that it never fails |
| AuthRepository.FirstMatch | src/repositories/AuthRepository.ts:9-16 | `k` is the first account whose email matches ignoring case, as `find` picks it; `LoginOutcome` states that login succeeds exactly when that account's password matches |
| AuthService.LoginChecks | src/services/AuthService.ts:11-19 | a blank email throws "Email is required" first, then a blank password throws "Password is required"; otherwise the repository's answer, on the untrimmed credentials |
| AuthService.Logout | src/services/AuthService.ts:21-23 | logout delegates to the repository and never fails |
| AuthService.Login | src/services/AuthService.ts:11-19 | `login`: a blank email, then an empty password, throw; otherwise the repository's answer; stated by `LoginChecks` |
| UseUser.StoredUser | src/hooks/useUser.ts:10-18 | the hook ends with a user exactly when the `user` entry is present and holds a user record, and then it is that record; text that does not parse leaves `null` |
| UseUser.NameOr | app/dashboard/page.tsx:25-30 | the home pages greet with the stored user's name when it is not empty, and with the page's default name otherwise |
| UseUser.UserHook.constructor | src/hooks/useUser.ts:7-8 | the hook starts with no user and loading |
| UseUser.UserHook.Load | src/hooks/useUser.ts:10-20 | the effect sets the stored user when there is one, keeps the old value otherwise, and always ends loading |
| UseUser.Mount | src/hooks/useUser.ts:6-23 | a freshly mounted hook holds the stored user or `null`, and is no longer loading |
| ProtectedRoute.GuardHome | components/auth/protected-route.tsx:36-51 | a user with a role that is not allowed goes to its own home (`/admin`, `/dashboard`, `/nursery`, `/partner`), and any other role to `/login` |
| ProtectedRoute.Render | components/auth/protected-route.tsx:66-81 | the children show exactly when loading is over and the user is authorized; the spinner shows exactly while loading |
| ProtectedRoute.MissingSession | components/auth/protected-route.tsx:26-29 | without a `user` or a `token` entry the guard goes to `/login`, stays unauthorized and keeps loading, because the early return skips the `finally` |
| ProtectedRoute.UnreadableUser | components/auth/protected-route.tsx:31-60 | a stored user that is not JSON goes to `/login`, unauthorized, and loading ends |
| ProtectedRoute.RoleCheck | components/auth/protected-route.tsx:34-60 | a signed-in user is authorized exactly when no roles are given or its role is among them; otherwise it goes to its role's home; loading ends either way |
| ProtectedRoute.TokenContentIgnored | components/auth/protected-route.tsx:24-26 | only the presence of the token matters, never its content |
| ProtectedRoute.Guard.constructor | components/auth/protected-route.tsx:18-19 | the guard starts unauthorized and loading |
| ProtectedRoute.Guard.CheckAuth | components/auth/protected-route.tsx:22-61 | one run pushes the decided redirect, if any, only ever sets the authorization to true, and ends loading when the decision says so |
| ProtectedRoute.MountGuard | components/auth/protected-route.tsx:21-64 | after the first run of a fresh guard the children show exactly when the decision authorizes |
| ProtectedRoute.Decide | components/auth/protected-route.tsx:22-61 | one run of `checkAuth`: redirect, authorization and whether loading ends; `MissingSession`, `UnreadableUser`, `RoleCheck` and `TokenContentIgnored` state its cases |
| LoginPage.LoginHome | app/login/page.tsx:32-47 | the login page sends admins to `/admin`, collectors to `/dashboard`, nurseries to `/nursery`, partners to `/partner`, and any other role to `/dashboard` |
| LoginPage.HomesAgreeOnKnownRoles | app/login/page.tsx:32-47 | the login page and the route guard agree on the four known roles, and disagree on any other: `/dashboard` against `/login` |
| LoginPage.SignedInPassesGuard | app/login/page.tsx:28-29 | after a sign-in with a non-empty token, a guard lets the user in exactly when its role is allowed, and otherwise sends a known role where the login page would have |
| LoginPage.LoginPage.constructor | app/login/page.tsx:14-18 | the page starts with empty fields, no error and not loading |
| LoginPage.LoginPage.HandleLogin | app/login/page.tsx:20-53 | a successful sign-in stores the token and the user, navigates to the role's home and leaves no error; a thrown error is shown as its message and nothing is stored; loading ends either way |
| LoginPage.LoginPage.SubmitLogin | app/login/page.tsx:148-179 | a submit with an empty email or password changes nothing; otherwise it does what `HandleLogin` does |
| LoginPage.LoginSubmittable | app/login/page.tsx:155-179 | both inputs are `required`: the form goes through exactly when neither is empty |
| LoginPage.BlankPasswordPassesBrowser | app/login/page.tsx:179 | a password of spaces passes `required`, and the service then throws "Password is required" |
| LoginPage.SessionAfter | app/login/page.tsx:28-29 | the token and the user's JSON stored under their keys; `SignedInPassesGuard` states that the guard then lets the user in |
| Header.StoredEmail | components/layout/header.tsx:17-18 | stored text that is not JSON throws; a user record gives its email; any other JSON gives the empty string |
| Header.Header.constructor | components/layout/header.tsx:11 | the header starts with an empty email |
| Header.Header.LoadEmail | components/layout/header.tsx:14-20 | with no stored user nothing changes; otherwise the email is read, or the parse error is passed on with the email unchanged |
| Header.Header.HandleLogout | components/layout/header.tsx:22-34 | whatever the service does, the token and the user are removed and the browser goes to `/login` |
| Header.SignedOutIsRedirected | components/layout/header.tsx:30-32 | after sign-out every guard redirects to `/login` |
| Sidebar.Visible | components/layout/sidebar.tsx:87-88 | the sidebar shows exactly the entries whose roles include the user's role (every entry without a user), in declared order |
| Sidebar.NoUserSeesAll | components/layout/sidebar.tsx:88 | without a user every entry shows |
| Sidebar.CommonEntriesLast | components/layout/sidebar.tsx:55-88 | for every known role Profile and Settings show, as the last two entries |
| Sidebar.RoleItemsHaveOneRole | components/layout/sidebar.tsx:33-53 | every role-specific entry lists a single role |
| Sidebar.RoleMenusDisjoint | components/layout/sidebar.tsx:32-58 | two different roles share only Profile and Settings |
| Sidebar.ProfilePageActive | components/layout/sidebar.tsx:91-96 | on `/dashboard/profile` "My Collections" is not active and Profile is |
| Sidebar.PrefixEntryActive | components/layout/sidebar.tsx:94-96 | an entry other than the four section roots is active on its own path and on every path that extends it |
| Sidebar.AllMenuItems | components/layout/sidebar.tsx:32-58 | the role entries, then Profile and Settings; `CommonEntriesLast` and `RoleMenusDisjoint` state its shape |
| Sidebar.Sees | components/layout/sidebar.tsx:88 | `!user || item.roles.includes(user.role)`; `Visible` and `NoUserSeesAll` state which entries a user sees |
| Sidebar.IsActive | components/layout/sidebar.tsx:91-96 | a section root is active on its own path only, any other entry on every path it prefixes; stated by `ProfilePageActive` and `PrefixEntryActive` |
| Sidebar.RoleItems | components/layout/sidebar.tsx:33-53 | the role-specific entries; `RoleItemsHaveOneRole` and `RoleMenusDisjoint` state that each names one role and two roles share none of them |
| SaleHandlers.ValidateSale | src/hooks/useSaleHandlers.ts:25-48 | a form is valid only with a batch of that id, a parsed quantity in (0, batch quantity] and a positive parsed price; "Please select a batch" exactly when no batch has the id; the range message names the batch's quantity |
| SaleHandlers.ValidateSaleOrder | src/hooks/useSaleHandlers.ts:28-47 | the checks run batch, quantity, price, against the first batch with the form's id |
| SaleHandlers.DraftOf | src/hooks/useSaleHandlers.ts:61-74 | the draft takes species and unit from the batch, the nursery from the hook and the rest from the form |
| SaleHandlers.InvalidNeverCallsService | src/hooks/useSaleHandlers.ts:51-55 | invalid input is reported with the check's message, and the service is never called |
| SaleHandlers.StoredSale | src/hooks/useSaleHandlers.ts:61-76 | the stored sale has the given id, the next sale number, the batch's species and unit, the form's quantity, price and customer, total quantity times price, status pending |
| SaleHandlers.ValidSaleIsStored | src/hooks/useSaleHandlers.ts:76 | a valid form with the customer fields filled is appended to the stored sales |
| SaleHandlers.ValidSaleReport | src/hooks/useSaleHandlers.ts:78-83 | a stored non-Flutterwave sale reports success; a Flutterwave sale opens the gateway with that sale's payload, or reports the loading error with the pending sale left stored |
| SaleHandlers.ServiceRefusalPassedOn | src/hooks/useSaleHandlers.ts:84-86 | a form the hook accepts but the service refuses reports the service's message and stores nothing |
| SaleHandlers.PaymentSuccessMarksPaid | src/hooks/useSaleHandlers.ts:92-98 | a successful payment marks the sale paid with the transaction id, or the sale number when there is none, and reports success |
| SaleHandlers.PaymentSuccessIgnoresReply | src/hooks/useSaleHandlers.ts:93-98 | success is reported even when the sale is no longer stored |
| SaleHandlers.PaymentFailureOrClose | src/hooks/useSaleHandlers.ts:100-102 | a failed payment reports the gateway's message and a closed gateway reports nothing; neither touches the sales |
| SaleHandlers.SaleHandlers.constructor | src/hooks/useSaleHandlers.ts:17-23 | the hook closes over its service, batches and nursery |
| SaleHandlers.SaleHandlers.CreateSale | src/hooks/useSaleHandlers.ts:50-87 | result and new store are those of `CreateSaleFlow` |
| SaleHandlers.SaleHandlers.OnGatewayAnswer | src/hooks/useSaleHandlers.ts:89-104 | result and new store are those of `GatewayAnswerStep` |
| SaleHandlers.StartPayment | src/hooks/useSaleHandlers.ts:78-83 | `handleFlutterwavePayment` up to the gateway: the gateway opened on the sale's payload when loaded, else the "not loaded" report; stated by `ValidSaleReport` |
| SaleHandlers.CreateSaleFlow | src/hooks/useSaleHandlers.ts:50-87 | `createSale(formData)`: validation, the stored sale and the payment start; `InvalidNeverCallsService`, `ValidSaleIsStored` and `ServiceRefusalPassedOn` state its outcomes |
| SaleHandlers.GatewayAnswerStep | src/hooks/useSaleHandlers.ts:89-104 | the payment callbacks for one gateway answer; `PaymentSuccessMarksPaid`, `PaymentSuccessIgnoresReply` and `PaymentFailureOrClose` state them |
| SaleHandlers.SaleOfForm | src/hooks/useSaleHandlers.ts:61-76 | the sale a valid form stores, as the hook's draft priced by the service; `StoredSale`, `ValidSaleIsStored` and `ValidSaleReport` state its fields and what happens to it |
| Flutterwave.FoundIffCounted | src/hooks/useFlutterwave.ts:15 | `getElementById` finds an element exactly when some element carries the script's id |
| Flutterwave.CountRemoveAt | src/hooks/useFlutterwave.ts:21-22 | removing one element lowers the count of scripts by one exactly when that element is a script |
| Flutterwave.MountLeavesOne | src/hooks/useFlutterwave.ts:10-17 | mounting leaves exactly one script on a body without one and leaves a body that has one untouched |
| Flutterwave.MountIdempotent | src/hooks/useFlutterwave.ts:15-17 | mounting twice is mounting once |
| Flutterwave.UnmountRemovesOne | src/hooks/useFlutterwave.ts:19-24 | the cleanup removes exactly one script when there is one and changes nothing otherwise |
| Flutterwave.RemountLeavesOne | src/hooks/useFlutterwave.ts:10-25 | on a body without the script the cleanup undoes the mount, and mount, cleanup, mount leaves exactly one script |
| Flutterwave.Document.constructor | src/hooks/useFlutterwave.ts:10 | the document starts with the given body |
| Flutterwave.Document.MountScript | src/hooks/useFlutterwave.ts:11-17 | the new body is `AfterMount` of the old one |
| Flutterwave.Document.UnmountScript | src/hooks/useFlutterwave.ts:19-24 | the new body is `AfterUnmount` of the old one |
| Flutterwave.SalePayload | src/hooks/useFlutterwave.ts:46-66 | the payment is referenced by the sale number, charges the sale's total in UGX, names the sale's customer, carries the sale's id, number and batch, and is titled with a description of the sale's quantity, unit and species and the logo |
| Flutterwave.SalePayloadIdentifiesSale | src/hooks/useFlutterwave.ts:48-66 | two sales with the same payload have the same id, number, total, quantity, unit and species |
| Flutterwave.Dispatch | src/hooks/useFlutterwave.ts:67-76 | closing signals nothing; a callback signals success exactly when its status is "successful", with the gateway's transaction id, and otherwise the fixed failure message |
| Flutterwave.ProcessPayment | src/hooks/useFlutterwave.ts:79-83 | the gateway is opened exactly when it is loaded, with the sale's payload; otherwise the loading error is signalled |
| Flutterwave.Dispatched | src/hooks/useFlutterwave.ts:67-76 | a run of gateway events gives at most one signal per event |
| Flutterwave.PaymentSignals | src/hooks/useFlutterwave.ts:67-83 | without the gateway the only signal is the loading error; with it there is one signal per callback |
| Flutterwave.DispatchedCountsCallbacks | src/hooks/useFlutterwave.ts:67-76 | the signals are exactly as many as the callbacks among the events |
| Flutterwave.AfterMount | src/hooks/useFlutterwave.ts:11-17 | the effect appends the script unless one with its id is there; `MountLeavesOne` and `MountIdempotent` state the count |
| Flutterwave.AfterUnmount | src/hooks/useFlutterwave.ts:19-24 | the cleanup removes the first element with the script's id; `UnmountRemovesOne` states the count |
| Flutterwave.Signals | src/hooks/useFlutterwave.ts:67-83 | every signal one payment produces; `PaymentSignals` states which callbacks fire |
| CheckoutPage.ReadParams | app/partner/checkout/page.tsx:43-47 | the batch id is the query's own value; unit, species and batch number fall back to "kg", "" and ""; the quantity is `parseFloat` of the value, or of "0" when it is missing, with `NaN` taken as 0 |
| CheckoutPage.UnitPrice | app/partner/checkout/page.tsx:55 | the price is positive: 10 per kg, 0.01 per seed for any other unit |
| CheckoutPage.MissingParams | app/partner/checkout/page.tsx:44-58 | without a quantity and a unit the order is 0 kg and the total is the shipping alone |
| CheckoutPage.TotalIsPricePlusShipping | app/partner/checkout/page.tsx:55-58 | the total less the shipping is the quantity times the unit price, and a larger quantity never costs less |
| CheckoutPage.ContactDefaults | app/partner/checkout/page.tsx:33-41 | the form starts with the user's email and name split at spaces (empty without a user), no phone, and country "UG" |
| CheckoutPage.WithField | app/partner/checkout/page.tsx:80-85 | the named field takes the typed value and every other field keeps its own |
| CheckoutPage.OrderOf | app/partner/checkout/page.tsx:101-112 | the stored order has the page's batch, quantity and unit, the unit price, the total (quantity times price plus shipping) and the form's customer |
| CheckoutPage.OrderPayload | app/partner/checkout/page.tsx:115-137 | the payment is referenced "ENSIGO-" and the time, charges the total in UGX, names the form's customer, carries the order in its meta, and is titled with a description of the order's quantity, unit and species and the logo |
| CheckoutPage.PaymentAttempt | app/partner/checkout/page.tsx:87-98 | the payment stops exactly when a contact field or the batch id is missing, with the contact alert first; otherwise the order is stored and the gateway opened exactly when it is loaded |
| CheckoutPage.PayloadMatchesOrder | app/partner/checkout/page.tsx:101-137 | the gateway charges the stored order's total, to its customer, for its batch and quantity, and describes that order's quantity, unit and species |
| CheckoutPage.SuccessRoute | app/partner/checkout/page.tsx:143-145 | the success route always carries both `tx_ref` and `transaction_id`, as the template writes them |
| CheckoutPage.SessionAfterSuccess | app/partner/checkout/page.tsx:141-142 | a successful answer stores the reference as written and the transaction id or "", and keeps every other session entry |
| CheckoutPage.SuccessRouteComplete | app/partner/checkout/page.tsx:143-145 | a parameter of the route is falsy only when the gateway sent it as the empty text; a missing one arrives as "undefined" |
| CheckoutPage.CheckoutPage.constructor | app/partner/checkout/page.tsx:29-47 | the page reads its parameters once and fills the form from the user of the first render |
| CheckoutPage.CheckoutPage.HandlePayment | app/partner/checkout/page.tsx:87-163 | a stopped attempt raises its alert and changes nothing else; an order stores the pending order and then opens the gateway or raises the loading alert and ends loading |
| CheckoutPage.CheckoutPage.OnGatewayEvent | app/partner/checkout/page.tsx:138-155 | closing ends loading; success stores the transaction and goes to the success route; failure drops the pending order, alerts and ends loading |
| CheckoutPage.CheckoutPage.InputChange | app/partner/checkout/page.tsx:80-85 | the form becomes `WithField` of the old form |
| CheckoutPage.Total | app/partner/checkout/page.tsx:56-58 | `subtotal + shipping`; `TotalIsPricePlusShipping` states it |
| CheckoutPage.ContactMissing | app/partner/checkout/page.tsx:88 | an empty email, phone, first or last name; `PaymentAttempt` states that the payment stops on it |
| CheckoutPage.CustomerName | app/partner/checkout/page.tsx:109 | `${firstName} ${lastName}`, the name stored and sent to the gateway; `PayloadMatchesOrder` states that both agree |
| CheckoutSuccess.StoredText | app/partner/checkout/success/page.tsx:40-41 | `getItem` of a transaction key gives text exactly when text is stored under the key |
| CheckoutSuccess.Reference | app/partner/checkout/success/page.tsx:75 | the reference is the first truthy of the stored transaction id, the stored reference and the URL's transaction id, and "" exactly when none is truthy |
| CheckoutSuccess.OrderDraft | app/partner/checkout/success/page.tsx:56-68 | the sale draft copies the stored order's batch, species, quantity, unit, price and customer, is paid by Flutterwave and belongs to the batch's nursery |
| CheckoutSuccess.NeedsBothParams | app/partner/checkout/success/page.tsx:89-91 | without both URL parameters truthy the effect creates nothing |
| CheckoutSuccess.NothingToDo | app/partner/checkout/success/page.tsx:43-53 | nothing happens without a pending order, once the flag is set, or when no batch of the order's id has a nursery |
| CheckoutSuccess.OrderSale | app/partner/checkout/success/page.tsx:56-68 | the new sale has the given id, the order's batch, the batch's nursery, total quantity times price, Flutterwave, pending and no reference |
| CheckoutSuccess.PlacedThenPaid | app/partner/checkout/success/page.tsx:56-83 | an order the service accepts is appended as a sale, marked paid with the reference (absent when it is ""), the three session keys are removed and the flag is set |
| CheckoutSuccess.CreateOrderPlaces | app/partner/checkout/success/page.tsx:39-53 | an order for a known batch with a nursery is placed with the first such batch's nursery and the reference of the fallback chain |
| CheckoutSuccess.CreatedThenPaid | app/partner/checkout/success/page.tsx:38-87 | the whole `createOrder` on an accepted order: the sale is stored as paid, the session cleared and the flag set |
| CheckoutSuccess.ShippingDropped | app/partner/checkout/success/page.tsx:56-68 | the stored sale's total is the checkout total less the shipping, since the service recomputes it |
| CheckoutSuccess.RefusedOrderStays | app/partner/checkout/success/page.tsx:70-83 | an order the service refuses leaves the sales, the session and the flag unchanged |
| CheckoutSuccess.CreatedOnce | app/partner/checkout/success/page.tsx:43 | once the order is created, another run of the effect changes nothing |
| CheckoutSuccess.ReferenceAfterCheckout | app/partner/checkout/success/page.tsx:75 | after the checkout's success callback the sale's reference is the transaction id, or else the `tx_ref` as the route wrote it |
| CheckoutSuccess.SuccessPage.constructor | app/partner/checkout/success/page.tsx:26-28 | the page starts with empty references and the flag unset |
| CheckoutSuccess.SuccessPage.Pay | app/partner/checkout/success/page.tsx:72-82 | the new state is `PayStep` of the old |
| CheckoutSuccess.SuccessPage.PlaceOrder | app/partner/checkout/success/page.tsx:55-86 | the new state is `PlaceOrderStep` of the old |
| CheckoutSuccess.SuccessPage.CreateOrder | app/partner/checkout/success/page.tsx:38-87 | the new state is `CreateOrderStep` of the old |
| CheckoutSuccess.SuccessPage.OnParams | app/partner/checkout/success/page.tsx:30-92 | the new state is `OnParamsStep` of the old, and each shown reference is the URL's value when that is truthy |
| CheckoutSuccess.SuccessPage.FinishOrder | app/partner/checkout/success/page.tsx:77-82 | `orderCreated` is set and the three session keys are removed, the stored sales unchanged |
| CheckoutSuccess.PayStep | app/partner/checkout/success/page.tsx:72-82 | marks the new sale paid with the reference, then clears the order; stated by `PlacedThenPaid` |
| CheckoutSuccess.PlaceOrderStep | app/partner/checkout/success/page.tsx:55-86 | create the sale, then pay it, a throw only logged; stated by `PlacedThenPaid` and `RefusedOrderStays` |
| CheckoutSuccess.CreateOrderStep | app/partner/checkout/success/page.tsx:38-87 | `createOrder()`: nothing without a stored order or its batch, otherwise the placed order; stated by `NothingToDo`, `CreateOrderPlaces` and `CreatedThenPaid` |
| CheckoutSuccess.OnParamsStep | app/partner/checkout/success/page.tsx:30-92 | the effect runs `createOrder` only with both URL parameters truthy; stated by `NeedsBothParams` and `CreatedOnce` |
| CheckoutSuccess.Cleared | app/partner/checkout/success/page.tsx:77-82 | the session without the pending order, the reference and the transaction id; `PlacedThenPaid` and `SuccessPage.FinishOrder` state that the other entries are kept |
| NurserySales.FilteredSales | app/nursery/sales/page.tsx:33-40 | a sale is shown exactly when its species, number or customer contains the search, ignoring case, and its status matches the filter; the order is kept |
| NurserySales.EmptySearchShowsAll | app/nursery/sales/page.tsx:33-40 | with no search and "all" every sale is shown |
| NurserySales.SearchIgnoresCase | app/nursery/sales/page.tsx:35-37 | upper- or lower-casing the search shows the same sales |
| NurserySales.StatusNarrowsSearch | app/nursery/sales/page.tsx:38 | picking one status keeps, in order, exactly the sales of the "all" result with that status |
| NurserySales.LoadShowsNursery | src/hooks/useSales.ts:16-28 | a readable store shows this nursery's sales and the statistics of exactly those sales |
| NurserySales.LoadKeepsScreenOnError | src/hooks/useSales.ts:23-24 | an unreadable store leaves the screen as it was |
| NurserySales.AlertOnlyOnThrow | app/nursery/sales/page.tsx:42-50 | the update alerts exactly when the stored sales cannot be read |
| NurserySales.UnknownSaleIsSilent | app/nursery/sales/page.tsx:42-50 | an unknown sale changes no stored sale, raises no alert and the screen is reloaded |
| NurserySales.FoundSaleUpdated | app/nursery/sales/page.tsx:42-50 | the first sale with the id takes the new status and keeps its reference, and the screen is reloaded from the updated list |
| NurserySales.SalesPage.constructor | src/hooks/useSales.ts:5-14 | no sales, zero statistics, not loading |
| NurserySales.SalesPage.LoadSales | src/hooks/useSales.ts:16-28 | the new state is `LoadStep` of the old, and loading is over |
| NurserySales.SalesPage.UpdateOrderStatus | app/nursery/sales/page.tsx:42-50 | the new state is `UpdateOrderStatusStep` of the old |
| NurserySales.LoadStep | src/hooks/useSales.ts:16-28 | `loadSales()`: the nursery's sales and statistics on screen, or the screen kept on error; stated by `LoadShowsNursery` and `LoadKeepsScreenOnError` |
| NurserySales.UpdateOrderStatusStep | app/nursery/sales/page.tsx:42-50 | `handleUpdateOrderStatus`: the update without a reference, then a reload, alerting only on a throw; stated by `AlertOnlyOnThrow`, `UnknownSaleIsSilent` and `FoundSaleUpdated` |
| Inventory.InitialInventory | app/nursery/inventory/page.tsx:22-24 | the starting inventory is, in order, exactly the bundled batches whose nursery is this nursery |
| Inventory.AvailableBatches | app/nursery/inventory/page.tsx:25-27 | a batch can be received exactly when it is approved and has no (or an empty) nursery id |
| Inventory.HeldNotAvailable | app/nursery/inventory/page.tsx:22-27 | no batch of the starting inventory is also available to receive |
| Inventory.FilteredBatches | app/nursery/inventory/page.tsx:44-50 | a batch is shown exactly when its species or number contains the search, ignoring case, and its status passes the filter; the order is kept |
| Inventory.EmptySearchShowsAll | app/nursery/inventory/page.tsx:44-50 | with no search and "all" the whole inventory is shown |
| Inventory.SpeciesOf | app/nursery/inventory/page.tsx:163 | the species list is the batches' species, position by position |
| Inventory.SummaryBounds | app/nursery/inventory/page.tsx:153-170 | species diversity and low stock count never exceed the total, and a nonempty inventory has a species |
| Inventory.SummaryOfAppended | app/nursery/inventory/page.tsx:153-170 | a received batch adds one to the total, one species only when its species is new, and one low stock when under 500 |
| Inventory.ReceiveMax | app/nursery/inventory/page.tsx:418-425 | the received quantity's bound is at least the batch's quantity, 110% of it for a nonnegative quantity |
| Inventory.UpdateMax | app/nursery/inventory/page.tsx:560-567 | the updated quantity's bound is the larger of twice the batch's quantity and 10000 |
| Inventory.Quantity | app/nursery/inventory/page.tsx:90-119 | the handlers take the parsed number when there is one and it is not negative |
| Inventory.AcceptedInputIsValid | app/nursery/inventory/page.tsx:416-430 | nonempty text the input accepts passes the browser's check and the handler and is within the bound; empty text fails the browser's check and the handler alike |
| Inventory.Received | app/nursery/inventory/page.tsx:98-103 | the received copy keeps the batch's id, species and number, is in this nursery with status "in-nursery" and the entered quantity |
| Inventory.NothingSelected | app/nursery/inventory/page.tsx:85-112 | without a selected batch neither handler changes anything |
| Inventory.ReceiveRejects | app/nursery/inventory/page.tsx:416-430 | with a batch selected, an empty, unparsable, negative or too large quantity is held back by the browser: the state, alerts included, does not change |
| Inventory.ReceiveAppends | app/nursery/inventory/page.tsx:97-107 | a submitted quantity, zero included, appends the received copy after the unchanged inventory, closes the modal and adds no alert |
| Inventory.ReceiveTwice | app/nursery/inventory/page.tsx:25-27 | since the available list never changes, receiving the same batch twice with a valid quantity adds two copies |
| Inventory.UpdateReplaces | app/nursery/inventory/page.tsx:125-139 | a submitted update sets status and quantity on every batch with the selected id and leaves the others and the length alone |
| Inventory.UpdateRejects | app/nursery/inventory/page.tsx:558-572 | a quantity the browser refuses, or a submit while the update modal is closed, changes nothing |
| Inventory.InventoryPage.constructor | app/nursery/inventory/page.tsx:20-42 | the page starts from the nursery's batches and the available ones, nothing selected and both forms empty |
| Inventory.InventoryPage.OpenReceive | app/nursery/inventory/page.tsx:68-75 | the new state is `OpenReceiveStep`: the batch is selected and `show(batch.quantity)` fills the receive form |
| Inventory.InventoryPage.OpenUpdate | app/nursery/inventory/page.tsx:52-60 | the new state is `OpenUpdateStep`: the batch is selected and its status and `show(batch.quantity)` fill the update form |
| Inventory.InventoryPage.CloseReceive | app/nursery/inventory/page.tsx:77-81 | the selection is dropped and the receive form emptied |
| Inventory.InventoryPage.CloseUpdate | app/nursery/inventory/page.tsx:62-66 | the selection is dropped and the update form emptied |
| Inventory.InventoryPage.ReceiveInput | app/nursery/inventory/page.tsx:422-429 | typed text replaces the quantity only when it is empty or a number from 0 to the receive bound |
| Inventory.InventoryPage.UpdateInput | app/nursery/inventory/page.tsx:564-571 | typed text replaces the quantity only when it is empty or a number from 0 to the update bound |
| Inventory.InventoryPage.ReceiveBatch | app/nursery/inventory/page.tsx:83-108 | the new state is `ReceiveStep` of the old (the browser's check, then the handler), and submitting is over |
| Inventory.InventoryPage.SubmitUpdate | app/nursery/inventory/page.tsx:110-140 | the new state is `SubmitUpdateStep` of the old (the browser's check, then the handler), and submitting is over |
| Inventory.Summarize | app/nursery/inventory/page.tsx:153-170 | the page's four summary numbers; `SummaryBounds` and `SummaryOfAppended` state how they relate to the batches |
| Inventory.QuantitySubmittable | app/nursery/inventory/page.tsx:422-427 | the browser's check of a `required` quantity input with `min="0"` and `max`: a number from 0 to the bound; `AcceptedInputIsValid` and `SubmittedQuantityIsValid` relate it to the input guard and the handler |
| Inventory.SubmittedQuantityIsValid | app/nursery/inventory/page.tsx:90-95 | a quantity the browser submits parses in the handler to the same number, so the handler's alert is not reached |
| Inventory.OpenReceiveStep | app/nursery/inventory/page.tsx:68-75 | `handleOpenReceiveModal`: the batch selected and the form prefilled with `show(batch.quantity)`; `PrefilledReceiveTakesWholeBatch` states what submitting it does |
| Inventory.OpenUpdateStep | app/nursery/inventory/page.tsx:52-60 | `handleOpenModal`: the batch selected and the form prefilled with its status and `show(batch.quantity)`; `PrefilledUpdateKeepsBatch` states what saving it does |
| Inventory.ReceiveSubmittable | app/nursery/inventory/page.tsx:396-430 | the receive form exists only for a selected batch and is submitted only with a quantity from 0 to `ReceiveMax` |
| Inventory.UpdateSubmittable | app/nursery/inventory/page.tsx:518-572 | the update form exists only while its modal is open on a batch and is submitted only with a quantity from 0 to `UpdateMax` |
| Inventory.HandleReceiveStep | app/nursery/inventory/page.tsx:83-108 | `handleReceiveBatch` as written, alert included; `HandlersRejectQuantity` states its alert |
| Inventory.ReceiveStep | app/nursery/inventory/page.tsx:83-108 | a submit of the receive form: the browser's check, then the handler; `ReceiveRejects`, `ReceiveAppends` and `HandlersNeverAlert` state its outcomes |
| Inventory.HandleUpdateStep | app/nursery/inventory/page.tsx:110-140 | `handleSubmitUpdate` as written, alert included; `HandlersRejectQuantity` states its alert |
| Inventory.SubmitUpdateStep | app/nursery/inventory/page.tsx:110-140 | a submit of the update form: the browser's check, then the handler; `UpdateRejects`, `UpdateReplaces` and `HandlersNeverAlert` state its outcomes |
| Inventory.HandlersRejectQuantity | app/nursery/inventory/page.tsx:90-123 | called on its own, each handler alerts "valid quantity" on an unparsable, empty or negative quantity and changes nothing else |
| Inventory.HandlersNeverAlert | app/nursery/inventory/page.tsx:90-123 | behind the browser's check neither submit ever adds an alert |
| Inventory.PrefilledReceiveTakesWholeBatch | app/nursery/inventory/page.tsx:68-107 | opening the receive modal and submitting its prefilled quantity, when that text reads back as the quantity, appends the whole batch moved into this nursery |
| Inventory.PrefilledUpdateKeepsBatch | app/nursery/inventory/page.tsx:52-139 | opening the update modal and saving it unchanged sets every batch with the id to the opened batch's status and quantity, and leaves the others and the length alone |
| Inventory.InventoryPage.HandleReceiveBatch | app/nursery/inventory/page.tsx:83-108 | the handler run on its own: the new state is `HandleReceiveStep` of the old |
| Inventory.InventoryPage.HandleSubmitUpdate | app/nursery/inventory/page.tsx:110-140 | the handler run on its own: the new state is `HandleUpdateStep` of the old |
| Inventory.Updated | app/nursery/inventory/page.tsx:125-139 | the `map` that sets status and quantity on every batch with the id; `UpdateReplaces` states that the others and the length are kept |
| Inventory.LowStock | app/nursery/inventory/page.tsx:166 | a batch below 500 units is low stock; `SummaryBounds` and `SummaryOfAppended` state the low-stock count |
| Germination.RecordedBatches | app/nursery/germination/page.tsx:27 | a batch counts as recorded exactly when it has a rate and the rate is not 0 |
| Germination.HighPerformers | app/nursery/germination/page.tsx:32 | the high performers are exactly the recorded batches at 80 or more |
| Germination.LowPerformers | app/nursery/germination/page.tsx:33 | the low performers are exactly the recorded batches under 60 |
| Germination.PerformersPartition | app/nursery/germination/page.tsx:27-33 | high and low performers are disjoint, ordered subsequences of the recorded batches, together no more than them |
| Germination.ValidRate | app/nursery/germination/page.tsx:87-88 | a rate is accepted exactly when it parses to a number from 0 to 100 |
| Germination.NoBatchAlerts | app/nursery/germination/page.tsx:78-81 | without a batch, a rate the browser lets through gets the alert "Please select a batch" and changes nothing else |
| Germination.InvalidRateRejected | app/nursery/germination/page.tsx:330-338 | an empty or unparsable rate, or one outside 0..100, is held back by the browser: nothing changes and no alert is shown |
| Germination.RateRecorded | app/nursery/germination/page.tsx:95-102 | a valid rate is set on the batches with the selected id only, and the modal closes without an alert |
| Germination.ZeroRateUnrecorded | app/nursery/germination/page.tsx:27 | a rate of 0 is stored but leaves the batch out of the recorded list |
| Germination.HighRateIsHigh | app/nursery/germination/page.tsx:32 | a recorded rate of 80 or more puts the batch among the high performers |
| Germination.GerminationPage.constructor | app/nursery/germination/page.tsx:18-25 | the page holds the nursery's batches, nothing selected, no rate typed |
| Germination.GerminationPage.OpenModal | app/nursery/germination/page.tsx:64-68 | the new state is `OpenModalStep`: the given batch (or none) is selected and `show(rate)`, or "" without a rate, fills the input |
| Germination.GerminationPage.CloseModal | app/nursery/germination/page.tsx:70-74 | the selection and the typed rate are cleared |
| Germination.GerminationPage.ChooseBatch | app/nursery/germination/page.tsx:309-313 | the selection becomes the first batch with the picked id, or none |
| Germination.GerminationPage.SubmitGermination | app/nursery/germination/page.tsx:76-103 | the new state is `SubmitStep` of the old (the browser's check, then the handler), and submitting is over |
| Germination.OpenModalStep | app/nursery/germination/page.tsx:64-68 | `handleOpenModal(batch)`: the batch (or none) selected and the input prefilled with `show(rate)`, or "" without a rate; stated by `PrefilledRateResubmits` and `UnratedOpensEmpty` |
| Germination.RateSubmittable | app/nursery/germination/page.tsx:330-338 | the browser's check of the `required` rate input with `min="0"` and `max="100"`; `OnlyBatchAlertPastTheBrowser` states it equals the handler's own test |
| Germination.HandleSubmitStep | app/nursery/germination/page.tsx:76-103 | `handleSubmitGermination` as written, both alerts included; `HandlerRejectsRate` states the rate alert |
| Germination.SubmitStep | app/nursery/germination/page.tsx:76-103 | a submit of the form: the browser's check, then the handler; `NoBatchAlerts`, `InvalidRateRejected` and `RateRecorded` state its outcomes |
| Germination.HandlerRejectsRate | app/nursery/germination/page.tsx:87-92 | called on its own with a batch, the handler alerts on a rate that is not a number from 0 to 100 and changes nothing else |
| Germination.OnlyBatchAlertPastTheBrowser | app/nursery/germination/page.tsx:78-92 | the browser lets through exactly the rates the handler accepts, so a submit adds the "select a batch" alert when there is no batch and no alert otherwise |
| Germination.PrefilledRateResubmits | app/nursery/germination/page.tsx:64-102 | saving a batch's prefilled rate, when that text reads back as the rate, records the same rate again on the batches with its id, without an alert |
| Germination.UnratedOpensEmpty | app/nursery/germination/page.tsx:64-68 | a batch without a rate opens with an empty input, which the browser holds back |
| Germination.GerminationPage.HandleSubmitGermination | app/nursery/germination/page.tsx:76-103 | the handler run on its own: the new state is `HandleSubmitStep` of the old |
| Germination.WithRate | app/nursery/germination/page.tsx:95-102 | the `map` that sets the rate on every batch with the id; `RateRecorded` states that nothing else of any batch changes |
| AdminBatches.FilteredBatches | app/admin/batches/page.tsx:47-54 | a batch is shown exactly when its status passes the filter and its species, number or collector contains the search, ignoring case; the order is kept |
| AdminBatches.EmptySearchShowsAll | app/admin/batches/page.tsx:47-54 | with no search and "all" every batch is shown |
| AdminBatches.NewBatch | app/admin/batches/page.tsx:95-110 | the new batch is numbered after the existing ones, takes every field from the form, the parsed quantity and the coordinates or 0, and has no photo, rate or nursery |
| AdminBatches.CloseStep | app/admin/batches/page.tsx:73-88 | closing keeps the batches, empties the form and closes the modal |
| AdminBatches.Ids | app/admin/batches/page.tsx:96 | the ids of the batches in order, by `Seqs.Map`: the list whose numbering `SubmitKeepsIdsNumbered` keeps |
| AdminBatches.SubmitAppends | app/admin/batches/page.tsx:90-115 | a form the browser lets through is appended as one new batch after the unchanged batches, and the modal closes with an empty form |
| AdminBatches.CoordinatesFallBack | app/admin/batches/page.tsx:106-109 | empty or unparsable coordinates become 0 |
| AdminBatches.SubmitKeepsIdsNumbered | app/admin/batches/page.tsx:96-112 | with ids numbered SB-001, SB-002, ..., the new id is one no batch has and the numbering continues |
| AdminBatches.BatchesPage.constructor | app/admin/batches/page.tsx:17-34 | the page starts with the bundled batches, an empty form and the modal closed |
| AdminBatches.BatchesPage.OpenModal | app/admin/batches/page.tsx:56-71 | the form is reset and the modal opens |
| AdminBatches.BatchesPage.CloseModal | app/admin/batches/page.tsx:73-88 | the new state is `CloseStep` of the old |
| AdminBatches.BatchesPage.Submit | app/admin/batches/page.tsx:90-115 | the new state is `SubmitStep` of the old |
| AdminBatches.Submittable | app/admin/batches/page.tsx:266-404 | the browser's check of the batch form: the required fields filled in and the quantity a number of at least 0 |
| AdminBatches.SubmitStep | app/admin/batches/page.tsx:90-115 | `handleSubmit` behind the browser's check; `SubmitAppends` and `SubmitKeepsIdsNumbered` state its result |
| AdminNurseries.NurseryBatches | app/admin/nurseries/page.tsx:101 | a nursery's card lists, in order, exactly the bundled batches with its id |
| AdminNurseries.NurseryBatchesDisjoint | app/admin/nurseries/page.tsx:101 | no batch is listed under two nurseries |
| AdminNurseries.NewNursery | app/admin/nurseries/page.tsx:58-70 | the new nursery is numbered after the existing ones, takes name, location and operator from the form, `parseInt` of the capacity (`None` for `NaN`), no stock and no batches, and the coordinates or 0 |
| AdminNurseries.Ids | app/admin/nurseries/page.tsx:59 | the ids of the nurseries in order, by `Seqs.Map`: the list whose numbering `SubmitKeepsIdsNumbered` keeps |
| AdminNurseries.SubmitAppends | app/admin/nurseries/page.tsx:53-75 | a form the browser lets through is appended as one new nursery after the unchanged ones, and the modal closes with an empty form |
| AdminNurseries.NewNurseryDefaults | app/admin/nurseries/page.tsx:66-69 | empty or unparsable coordinates become 0 |
| AdminNurseries.CapacityAsTyped | app/admin/nurseries/page.tsx:63 | a capacity the browser lets through, written with a leading digit, is whole and at least 0, so `parseInt` keeps it as typed |
| AdminNurseries.PointCapacityIsNaN | app/admin/nurseries/page.tsx:63 | the browser lets through the capacity `.0`, and `parseInt` stores it as `NaN` |
| AdminNurseries.SubmitKeepsIdsNumbered | app/admin/nurseries/page.tsx:59-72 | with ids numbered NUR-001, NUR-002, ..., the new id is one no nursery has and the numbering continues |
| AdminNurseries.NurseriesPage.constructor | app/admin/nurseries/page.tsx:17-27 | the page starts with the bundled nurseries, an empty form and the modal closed |
| AdminNurseries.NurseriesPage.OpenModal | app/admin/nurseries/page.tsx:29-39 | the form is reset and the modal opens |
| AdminNurseries.NurseriesPage.CloseModal | app/admin/nurseries/page.tsx:41-51 | the form is reset and the modal closes |
| AdminNurseries.NurseriesPage.Submit | app/admin/nurseries/page.tsx:53-75 | the new state is `SubmitStep` of the old |
| AdminNurseries.Submittable | app/admin/nurseries/page.tsx:227-274 | the browser's check of the nursery form: the required fields filled in and the capacity a whole number of at least 0 |
| AdminNurseries.SubmitStep | app/admin/nurseries/page.tsx:53-75 | `handleSubmit` behind the browser's check; `SubmitAppends` and `SubmitKeepsIdsNumbered` state its result |
| Projects.MyProjects | app/partner/projects/page.tsx:41-43 | the partner sees, in order, exactly the projects that are theirs |
| Projects.MineIsCaseInsensitiveMatch | app/partner/projects/page.tsx:41-43 | a project is the partner's exactly when its partner contains the user's name, ignoring case (the exact-match test adds nothing) |
| Projects.NoNameSeesAll | app/partner/projects/page.tsx:42 | without a user name every project is shown |
| Projects.SpeciesAreClean | app/partner/projects/page.tsx:81 | every species of a new project is nonempty, has no comma and no surrounding white space |
| Projects.SpeciesRoundTrip | app/partner/projects/page.tsx:81 | species names that are clean, joined with commas, split back into the same names |
| Projects.PartnerName | app/partner/projects/page.tsx:77 | the new project's partner is the user's name, or "Unknown Partner" when there is none |
| Projects.NewProject | app/partner/projects/page.tsx:74-84 | the new project is numbered after the existing ones, takes the form's fields, `parseInt` of the target (`None` for `NaN`), the cleaned species, no trees planted and the user as partner |
| Projects.OpenStep | app/partner/projects/page.tsx:45-55 | opening keeps the projects, resets the form and opens the modal |
| Projects.CloseStep | app/partner/projects/page.tsx:57-67 | closing keeps the projects, resets the form and closes the modal |
| Projects.Ids | app/partner/projects/page.tsx:75 | the ids of the projects in order, by `Seqs.Map`: the list whose numbering `SubmitKeepsIdsNumbered` keeps |
| Projects.SubmitAppends | app/partner/projects/page.tsx:69-89 | a form the browser lets through is appended as one new project after the unchanged ones, and the modal closes with an empty form |
| Projects.TargetAsTyped | app/partner/projects/page.tsx:79 | a target the browser lets through, written with a leading digit, is whole and at least 0, so `parseInt` keeps it as typed |
| Projects.PointTargetIsNaN | app/partner/projects/page.tsx:79 | the browser lets through the target `.0`, and `parseInt` stores it as `NaN` |
| Projects.UnsubmittableIgnored | app/partner/projects/page.tsx:244-320 | a form the browser holds back changes nothing |
| Projects.SubmitKeepsIdsNumbered | app/partner/projects/page.tsx:75-86 | with ids numbered RP-001, RP-002, ..., the new id is one no project has and the numbering continues |
| Projects.ProjectsPage.constructor | app/partner/projects/page.tsx:19-29 | the page starts with the bundled projects, an empty form and the modal closed |
| Projects.ProjectsPage.OpenModal | app/partner/projects/page.tsx:45-55 | the new state is `OpenStep` of the old |
| Projects.ProjectsPage.CloseModal | app/partner/projects/page.tsx:57-67 | the new state is `CloseStep` of the old |
| Projects.ProjectsPage.Submit | app/partner/projects/page.tsx:69-89 | the new state is `SubmitStep` of the old, and submitting is over |
| Projects.EmptySpeciesList | app/partner/projects/page.tsx:81 | empty species text gives no species, since the one empty part is dropped |
| Projects.TrimAllClean | app/partner/projects/page.tsx:81 | trimming names that are already clean changes none of them |
| Projects.Submittable | app/partner/projects/page.tsx:243-316 | the browser's check of the project form: every field filled in and the target a whole number of at least 0 |
| Projects.SubmitStep | app/partner/projects/page.tsx:69-89 | `handleSubmit` behind the browser's check; `SubmitAppends`, `UnsubmittableIgnored` and `SubmitKeepsIdsNumbered` state its result |
| Projects.Mine | app/partner/projects/page.tsx:41-43 | the partner filter; `MyProjects` and `MineIsCaseInsensitiveMatch` state that it keeps exactly the projects whose partner contains the user's name ignoring case |
| Projects.SpeciesList | app/partner/projects/page.tsx:81 | `split(",").map(trim).filter(Boolean)`; `SpeciesAreClean`, `SpeciesRoundTrip` and `EmptySpeciesList` state that the names are clean, that clean names come back as joined, and that empty text gives none |
| Browse.AvailableBatches | app/partner/browse/page.tsx:28-30 | the batches offered are, in order, exactly those approved or in a nursery |
| Browse.FilteredBatches | app/partner/browse/page.tsx:32-37 | a batch is shown exactly when it is offered and its species or number contains the search, ignoring case; the order is kept |
| Browse.EmptySearchShowsAvailable | app/partner/browse/page.tsx:32-37 | with no search every offered batch is shown |
| Browse.UnavailableNeverShown | app/partner/browse/page.tsx:28-30 | a pending, distributed or planted batch is never shown, whatever the search |
| Browse.OrderQuantity | app/partner/browse/page.tsx:61-62 | the order's quantity is accepted exactly when it parses to a number above 0 and at most what the batch holds |
| Browse.OrderReachesCheckout | app/partner/browse/page.tsx:70-77 | the checkout page reads back exactly the batch, species, unit, number and quantity ordered |
| Browse.CheckoutQuery | app/partner/browse/page.tsx:70-76 | each parameter of the checkout URL reads back as written |
| Browse.CheckoutQueryFront | app/partner/browse/page.tsx:71-73 | the batch id, number and species parameters read back as written |
| Browse.CheckoutQueryBack | app/partner/browse/page.tsx:74-75 | the quantity and unit parameters read back as written |
| Browse.QueryGetSkips | app/partner/browse/page.tsx:70-76 | parameters with other names before the one sought do not change what `get` finds |
| Browse.NoBatchNoOrder | app/partner/browse/page.tsx:56 | without a selected batch neither the handler nor a submit does anything |
| Browse.InvalidQuantityRejected | app/partner/browse/page.tsx:61-66 | called on its own, the handler alerts on an unparsable quantity, one at most 0 or one above the batch's quantity, naming that quantity, and goes nowhere |
| Browse.ValidQuantityNavigates | app/partner/browse/page.tsx:69-77 | a valid quantity passes the browser and adds one navigation, to the checkout for that batch and quantity, and no alert |
| Browse.PrefilledOrderIsWholeBatch | app/partner/browse/page.tsx:39-77 | submitting straight after opening orders the whole batch when it holds something and its quantity's text reads back |
| Browse.OnlyZeroGetsPastTheBrowser | app/partner/browse/page.tsx:61-62 | of what the browser lets through, the handler refuses only a quantity of 0 |
| Browse.BrowsePage.constructor | app/partner/browse/page.tsx:18-26 | nothing selected, an empty form and the modal closed |
| Browse.BrowsePage.OpenOrder | app/partner/browse/page.tsx:39-46 | the new state is `OrderStep` of the old |
| Browse.BrowsePage.CloseOrderModal | app/partner/browse/page.tsx:48-52 | the new state is `CloseStep` of the old |
| Browse.BrowsePage.QuantityInput | app/partner/browse/page.tsx:244-250 | typed text replaces the quantity only when it is empty or a number from 0 to what the batch holds |
| Browse.BrowsePage.SubmitOrder | app/partner/browse/page.tsx:54-78 | the new state is `SubmitStep` of the old: the browser's check, then the handler |
| Browse.CheckoutRoute | app/partner/browse/page.tsx:70-76 | the checkout URL with the batch's fields and the quantity's text; `CheckoutQuery`, `CheckoutQueryFront` and `CheckoutQueryBack` state what it carries |
| Browse.OrderStep | app/partner/browse/page.tsx:39-46 | `handleOrder(batch)`: the modal opened on the batch with its whole quantity as text; stated by `PrefilledOrderIsWholeBatch` |
| Browse.SubmitOrderStep | app/partner/browse/page.tsx:54-78 | `handleSubmitOrder` as written, alert included; `NoBatchNoOrder` and `InvalidQuantityRejected` state its outcomes |
| Browse.CloseStep | app/partner/browse/page.tsx:48-52 | `handleCloseOrderModal`: the selection dropped, the form emptied and the modal closed, nothing else touched; `BrowsePage.CloseOrderModal` is proved equal to it |
| Browse.InputAccepted | app/partner/browse/page.tsx:236-251 | the browser's check of the `required` quantity input with `min="0"` and the batch's quantity as `max`; `OnlyZeroGetsPastTheBrowser` relates it to the handler |
| Browse.OrderSubmittable | app/partner/browse/page.tsx:219-251 | the order form exists only for a selected batch and is submitted only with a quantity that passes the input's check |
| Browse.SubmitStep | app/partner/browse/page.tsx:54-78 | a submit of the order form: the browser's check, then the handler; `RefusedQuantityHeldBack`, `OnlyZeroAlerts` and `ValidQuantityNavigates` state its outcomes |
| Browse.RefusedQuantityHeldBack | app/partner/browse/page.tsx:236-251 | with a batch selected, a quantity the input's check refuses is held back: the state, alerts and history included, does not change; the cleared field, which the `onChange` lets through, is refused |
| Browse.OnlyZeroAlerts | app/partner/browse/page.tsx:61-66 | a submit adds the "valid quantity" alert exactly when the browser lets the quantity through and it is 0, and no alert otherwise |
| Browse.BrowsePage.HandleSubmitOrder | app/partner/browse/page.tsx:54-78 | the handler run on its own: the new state is `SubmitOrderStep` of the old |
| Analytics.Histogram | app/admin/analytics/page.tsx:12-20 | the tallies have exactly the keys that occur, each with the number of its occurrences, never 0 |
| Analytics.TotalOfTally | app/admin/analytics/page.tsx:13-18 | one step of the `reduce` adds one to the sum of the tallies |
| Analytics.HistogramTotal | app/admin/analytics/page.tsx:12-20 | the tallies add up to the number of keys counted |
| Analytics.SpeciesColumn | app/admin/analytics/page.tsx:13 | the species counted are the batches' species, position by position |
| Analytics.StatusColumn | app/admin/analytics/page.tsx:18 | the statuses counted are the batches' statuses, position by position |
| Analytics.SpeciesDistribution | app/admin/analytics/page.tsx:12-15 | a species has a bar exactly when some batch has it, and its count is the number of such batches |
| Analytics.StatusDistribution | app/admin/analytics/page.tsx:17-20 | a status has a bar exactly when some batch has it, and its count is the number of such batches |
| Analytics.DistributionsCountEveryBatch | app/admin/analytics/page.tsx:12-20 | each histogram counts every batch exactly once |
| Analytics.PercentageBounds | app/admin/analytics/page.tsx:163-200 | every bar of either histogram is more than 0 and at most 100 percent wide |
| Analytics.Tally | app/admin/analytics/page.tsx:13-18 | one step of the counting `reduce`; `TotalOfTally` states that it adds exactly one to the total |
| Analytics.Total | app/admin/analytics/page.tsx:12-20 | the sum of a distribution's counts; `HistogramTotal` and `DistributionsCountEveryBatch` state that it is the number of batches |
| Analytics.Percentage | app/admin/analytics/page.tsx:163 | `(count / batches.length) * 100`; `PercentageBounds` states its range |
| Models.WithoutPassword | src/repositories/AuthRepository.ts:17-21 | the user handed out keeps the account's id, email, name, role and region, and has no password |
| Models.UnitName | src/models/Sale.ts:7 | a sale unit reads "kg" exactly for kilograms |
| Models.NewSale | src/repositories/SalesRepository.ts:29-33 | the new sale has the given id and sale number and every other field as handed in |
| Models.MergeSale | src/repositories/SalesRepository.ts:46 | the merged sale keeps its id and sale number, and takes a given payment status or reference over the old one |
| Models.MergeSaleLaws | src/repositories/SalesRepository.ts:46 | an empty update changes nothing, and merging the same update twice is merging it once |
| Models.NewCollection | src/repositories/SeedRepository.ts:23-26 | the new collection has the given id and every other field as handed in |
| Models.MergeCollection | src/repositories/SeedRepository.ts:39 | the merged collection keeps its id and takes a given quantity over the old one |
| Models.MergeFullForm | src/repositories/SeedRepository.ts:25-39 | an update with every key replaces everything but the id, as a new collection with that id would |
| PartnerDashboard.GreetsStoredName | app/partner/page.tsx:16-28 | the greeting is the stored user's name when it has one, "Partner" when no user is stored, and only unreadable text stops the effect |
| PartnerDashboard.MyProjects | app/partner/page.tsx:17-19 | a project is kept exactly when it is listed and its partner is "Green Earth Initiative", in the original order |
| PartnerDashboard.ActiveProjectFirst | app/partner/page.tsx:20-33 | there is an active project to show exactly when the "Active Projects" count is not 0, and it is the earliest active one |
| PartnerDashboard.TreesPlantedAppend | app/partner/page.tsx:38 | the "Trees Planted" sum over two lists is the sum of the two sums |
| PartnerDashboard.TreesPlantedBound | app/partner/page.tsx:38 | with no negative counts the total is at least what any one project planted |
| PartnerDashboard.NoNegativeTrees | app/partner/page.tsx:38 | with no negative counts the total is not negative |
| PartnerDashboard.AllSpecies | app/partner/page.tsx:43 | a species is listed exactly when some project plants it |
| PartnerDashboard.DiversityBound | app/partner/page.tsx:43 | "Species Diversity" counts each species once, is at most the length of all the species lists together, and counts exactly the species some project plants |
| PartnerDashboard.MountName | app/partner/page.tsx:16-28 | the greeting's name from the stored user, none when it is not JSON; stated by `GreetsStoredName` |
| PartnerDashboard.ActiveProject | app/partner/page.tsx:20 | the first active project of the partner; stated by `ActiveProjectFirst` |
| PartnerDashboard.TreesPlanted | app/partner/page.tsx:38 | the sum of planted trees; `TreesPlantedAppend`, `TreesPlantedBound` and `NoNegativeTrees` state its properties |
| PartnerDashboard.SpeciesDiversity | app/partner/page.tsx:43 | the number of distinct species; `AllSpecies` and `DiversityBound` state its properties |
| Dashboard.CountsSplitTotal | app/dashboard/page.tsx:76-78 | the pending count is three quarters of the total rounded down, and the pending and approved cards split the total between them |
| Dashboard.Greeting | app/dashboard/page.tsx:80-85 | "Good Morning" exactly before 12, "Good Afternoon" exactly from 12 to before 18, "Good Evening" exactly from 18 |
| Dashboard.AddShowsNewCollection | app/dashboard/page.tsx:54-68 | adding valid data closes the form, ends loading and shows the stored list with the new collection at the end |
| Dashboard.RefusedAddKeepsForm | app/dashboard/page.tsx:54-74 | data the add refuses leaves the page as it was, with the form still open, and only ends loading |
| Dashboard.EditMergesIntoCollection | app/dashboard/page.tsx:58-68 | while editing, the update merges the form's keys into the first collection with the edited id, and the form closes |
| Dashboard.EditOfMissingKeepsForm | app/dashboard/page.tsx:58-74 | editing a collection that is no longer stored fails: the form, the edited collection and the list stay as they were |
| Dashboard.DashboardPage.constructor | app/dashboard/page.tsx:15-21 | the page starts with no collections, nothing selected, both modals closed, not loading, and the name "Vincent" |
| Dashboard.DashboardPage.LoadCollections | app/dashboard/page.tsx:34-37 | the list shown becomes what the service returns, and the store changes as the service's read changes it |
| Dashboard.DashboardPage.Mount | app/dashboard/page.tsx:25-32 | the name becomes the stored user's name or "Vincent", then the list is loaded; text that is not JSON stops both |
| Dashboard.DashboardPage.ViewCollection | app/dashboard/page.tsx:39-42 | the collection is selected and the details modal opens |
| Dashboard.DashboardPage.Edit | app/dashboard/page.tsx:44-47 | the collection becomes the one edited and the form opens, nothing else changes |
| Dashboard.DashboardPage.Add | app/dashboard/page.tsx:49-52 | nothing is edited and the form opens, nothing else changes |
| Dashboard.DashboardPage.FormSubmit | app/dashboard/page.tsx:54-74 | the new state is the update or add, then on success the closed form and the reloaded list; loading is over either way |
| Dashboard.PendingReviews | app/dashboard/page.tsx:77 | `Math.floor(total * 0.75)`; `CountsSplitTotal` states its bounds |
| Dashboard.Approved | app/dashboard/page.tsx:78 | the collections not pending review; `CountsSplitTotal` states that both counts add up to the total |
| Dashboard.LoadStep | app/dashboard/page.tsx:34-37 | `loadCollections()`: the service's collections on screen |
| Dashboard.MountStep | app/dashboard/page.tsx:25-32 | the mount effect: the name, then the first load, skipped when the stored user is not JSON |
| Dashboard.SaveStep | app/dashboard/page.tsx:56-62 | the service call: an update of the collection being edited, or an add; `EditMergesIntoCollection` and `AddShowsNewCollection` state its effect |
| Dashboard.FormSubmitStep | app/dashboard/page.tsx:54-74 | `handleFormSubmit`; `AddShowsNewCollection`, `RefusedAddKeepsForm`, `EditMergesIntoCollection` and `EditOfMissingKeepsForm` state its outcomes |
| Settings.ProfileFor | app/dashboard/settings/page.tsx:19-33 | the first name has no space and, with the last name, gives back the user's name; the phone is empty and the location is the region or "" |
| Settings.UserEffectStep | app/dashboard/settings/page.tsx:19-33 | a signed-in user's profile replaces the form; without a user the page is unchanged |
| Settings.ProfileSubmitChangesNothing | app/dashboard/settings/page.tsx:48-51 | saving the profile changes nothing on the page |
| Settings.MismatchKeepsFields | app/dashboard/settings/page.tsx:55-58 | new passwords that differ raise one "New passwords do not match" alert and keep every field as typed |
| Settings.MatchClearsFields | app/dashboard/settings/page.tsx:59-64 | matching passwords clear all three fields, with no alert and nothing else changed |
| Settings.PasswordOutcomes | app/dashboard/settings/page.tsx:53-65 | of a filled form, the fields are cleared exactly when no alert is raised, and an alert is raised exactly when the new passwords differ |
| Settings.EmptyFieldBlocks | app/dashboard/settings/page.tsx:158-190 | the browser holds back a submit with an empty required password field, so nothing changes |
| Settings.SettingsPage.constructor | app/dashboard/settings/page.tsx:11-38 | the page starts on the profile tab with empty profile and password forms |
| Settings.SettingsPage.OnUser | app/dashboard/settings/page.tsx:19-33 | the new state is the user effect's step of the old one |
| Settings.SettingsPage.SelectTab | app/dashboard/settings/page.tsx:79-88 | only the tab changes, to the one chosen |
| Settings.SettingsPage.SubmitPassword | app/dashboard/settings/page.tsx:53-65 | the new state, alerts included, is the password submit's step of the old one |
| Settings.ProfileSubmitStep | app/dashboard/settings/page.tsx:48-51 | `handleProfileSubmit`, which saves nothing; stated by `ProfileSubmitChangesNothing` |
| Settings.PasswordSubmitStep | app/dashboard/settings/page.tsx:53-65 | `handlePasswordSubmit`; `MismatchKeepsFields`, `MatchClearsFields` and `PasswordOutcomes` state its outcomes |
| Profile.SetField | app/dashboard/profile/page.tsx:42-44 | the named field takes the typed value, and every other field keeps its value |
| Profile.FormFor | app/dashboard/profile/page.tsx:24-40 | the first name has no space and, with the last name, gives back the user's name; the email and region come from the user; phone and bio are empty |
| Profile.LockedFormIgnoresTyping | app/dashboard/profile/page.tsx:95-150 | while the form is locked its disabled inputs change nothing |
| Profile.CancelKeepsEdits | app/dashboard/profile/page.tsx:165 | "Cancel" locks the form but does not undo an edit: the typed value stays and every other field is as before |
| Profile.SubmitIsCancel | app/dashboard/profile/page.tsx:46-50 | saving and cancelling leave the page in the same state: locked, with the form as typed |
| Profile.NewUserReplacesEdits | app/dashboard/profile/page.tsx:24-40 | a change of user replaces whatever was typed with that user's form |
| Profile.ProfilePage.constructor | app/dashboard/profile/page.tsx:13-22 | the page starts with an empty, locked form |
| Profile.ProfilePage.OnUser | app/dashboard/profile/page.tsx:24-40 | the new state is the user effect's step of the old one |
| Profile.ProfilePage.Change | app/dashboard/profile/page.tsx:42-44 | the new state is the change step: the field's value when editing, nothing otherwise |
| Profile.ProfilePage.Edit | app/dashboard/profile/page.tsx:180 | the form unlocks, nothing else changes |
| Profile.ProfilePage.Cancel | app/dashboard/profile/page.tsx:165 | the form locks, nothing else changes |
| Profile.ProfilePage.Submit | app/dashboard/profile/page.tsx:46-50 | the form locks, nothing else changes |
| Profile.UserEffectStep | app/dashboard/profile/page.tsx:24-40 | the effect on `user`; `NewUserReplacesEdits` states that a user's profile replaces the form |
| Profile.ChangeStep | app/dashboard/profile/page.tsx:42-44 | `handleChange`; `LockedFormIgnoresTyping` states that a locked form ignores it |
| Profile.EditStep | app/dashboard/profile/page.tsx:180 | "Edit Profile" unlocks the form |
| Profile.CancelStep | app/dashboard/profile/page.tsx:165 | "Cancel" locks the form; `CancelKeepsEdits` states the edits stay |
| Profile.SubmitStep | app/dashboard/profile/page.tsx:46-50 | `handleSubmit`; `SubmitIsCancel` states that it only locks |
| CollectionForm.ValidateFile | components/dashboard/collection-form.tsx:65-78 | a file passes exactly when its type is one of the five image types and it is at most 10 MB; the type is checked before the size, each failure with its own message |
| CollectionForm.Previews | components/dashboard/collection-form.tsx:94-95 | one preview URL per kept file, each the one created for the file at the same place |
| CollectionForm.PreviewsAppend | components/dashboard/collection-form.tsx:93-95 | keeping one more file adds its URL at the end of the previews |
| CollectionForm.FilterOneMore | components/dashboard/collection-form.tsx:86-96 | one more file of the input is kept exactly when it passes the check |
| CollectionForm.SelectAddsAcceptable | components/dashboard/collection-form.tsx:80-100 | a selection keeps what was picked and adds exactly the acceptable files, in the order given, with their previews |
| CollectionForm.SelectKeepsPairs | components/dashboard/collection-form.tsx:80-100 | after a selection every preview still belongs to the file at the same place |
| CollectionForm.RemoveKeepsPairs | components/dashboard/collection-form.tsx:126-130 | removing by index drops the same place from both lists, so every preview still belongs to its file |
| CollectionForm.RemoveUndoesSelect | components/dashboard/collection-form.tsx:80-100 | removing the file that was just picked puts the files and previews back as they were |
| CollectionForm.RefusedNeverPicked | components/dashboard/collection-form.tsx:87-91 | a file the check refuses is never added |
| CollectionForm.OrElse | components/dashboard/collection-form.tsx:40-46 | `a \|\| b` on text: a nonempty first text is kept, and the result is empty only when the fallback is |
| CollectionForm.InitialFields | components/dashboard/collection-form.tsx:39-47 | a new form is empty with the unit "KG"; an edit form shows the collection's unit upper-cased, or "KG" |
| CollectionForm.Coordinate | components/dashboard/collection-form.tsx:203-204 | an empty coordinate is left out, and a nonempty one is its parsed number |
| CollectionForm.SubmittedData | components/dashboard/collection-form.tsx:195-206 | the submitted object has the parsed quantity, the unit lower-cased, the texts as typed, the coordinates as parsed and no photos |
| CollectionForm.Submitted | components/dashboard/collection-form.tsx:197-205 | as an update the submitted object carries no photos and the quantity as submitted |
| CollectionForm.EditKeepsPhotos | components/dashboard/collection-form.tsx:197-205 | an edit replaces every field of the collection but its id and its photos |
| CollectionForm.UnitsHaveNoCapitals | components/dashboard/collection-form.tsx:20-24 | the stored units hold no capital letter and are not empty |
| CollectionForm.UnitRoundTrip | components/dashboard/collection-form.tsx:42 | a stored unit shown upper-cased comes back lower-cased as it was |
| CollectionForm.NewFormInKilograms | components/dashboard/collection-form.tsx:42 | a new collection is submitted in "kg" |
| CollectionForm.CoordinateRoundTrip | components/dashboard/collection-form.tsx:45-46 | a coordinate shown as text that reads back is submitted as it was, and a missing one stays missing |
| CollectionForm.EditRoundTrip | components/dashboard/collection-form.tsx:39-47 | opening the form on a collection and submitting it untouched passes the browser's checks and gives the collection back, photos included |
| CollectionForm.Form.constructor | components/dashboard/collection-form.tsx:39-51 | the form starts with the initial fields and no files or previews |
| CollectionForm.Form.SelectFiles | components/dashboard/collection-form.tsx:80-100 | the loop over the input ends with the selection step's files and previews |
| CollectionForm.Form.RemoveFile | components/dashboard/collection-form.tsx:126-130 | the new files and previews are the removal step's |
| CollectionForm.Form.Submit | components/dashboard/collection-form.tsx:195-206 | data is handed on exactly when the browser lets the form through, and it is the submitted object of the fields |
| CollectionForm.SelectStep | components/dashboard/collection-form.tsx:80-100 | `handleFileSelect`; `SelectAddsAcceptable`, `SelectKeepsPairs` and `RefusedNeverPicked` state its result |
| CollectionForm.RemoveStep | components/dashboard/collection-form.tsx:126-130 | `removeFile(index)`; `RemoveKeepsPairs` and `RemoveUndoesSelect` state its result |
| CollectionForm.Submittable | components/dashboard/collection-form.tsx:209-270 | the browser's check of the form: a whole quantity and coordinates that are empty or numbers |
| CollectionForm.ShowOptional | components/dashboard/collection-form.tsx:45-46 | `value?.toString() || ""`; `CoordinateRoundTrip` states that a shown coordinate reads back and a missing one stays missing |
| Text.ToLower | app/nursery/sales/page.tsx:35-37 | `toLowerCase` keeps the length and lower-cases each character in place |
| Text.ToUpper | components/dashboard/collection-form.tsx:42 | `toUpperCase` keeps the length and upper-cases each character in place |
| Text.LowerOfUpper | components/dashboard/collection-form.tsx:42 | lower-casing an upper-cased string without capitals gives it back |
| Text.ContainsIff | app/nursery/sales/page.tsx:35-37 | `includes` holds exactly when the substring occurs at some position |
| Text.ContainsOccurs | app/nursery/sales/page.tsx:35-37 | what `includes` finds occurs at some position |
| Text.OccursContains | app/nursery/sales/page.tsx:35-37 | an occurrence at any position is found by `includes` |
| Text.ContainsEmpty | app/partner/projects/page.tsx:42 | every string includes the empty string |
| Text.ContainsSelf | app/partner/projects/page.tsx:42 | a string includes itself |
| Text.QueryCaseIgnored | app/nursery/sales/page.tsx:35-37 | the case of the search text does not change what a case-insensitive search matches |
| Text.EmptyQueryMatches | app/nursery/sales/page.tsx:35-37 | an empty search matches everything |
| Text.TrimStart | app/partner/projects/page.tsx:81 | the result is a suffix that does not start with whitespace, empty exactly for blank text |
| Text.TrimEnd | app/partner/projects/page.tsx:81 | the result is a prefix that does not end with whitespace |
| Text.TrimProperties | app/partner/projects/page.tsx:81 | `trim` gives a piece of the text that neither starts nor ends with whitespace and holds only its characters |
| Text.TrimEmptyIffBlank | src/services/SeedCollection.ts:16 | `!s.trim()` holds exactly for text that is blank |
| Text.Split | app/partner/projects/page.tsx:81 | `split` on one character gives at least one part and no part holds the separator |
| Text.JoinSplit | app/dashboard/settings/page.tsx:22-24 | joining the parts of a split with the same separator gives the text back |
| Text.SplitJoin | app/dashboard/settings/page.tsx:22-24 | splitting joined parts that hold no separator gives the parts back |
| Text.SplitAfterPart | app/dashboard/settings/page.tsx:22-24 | a part, then the separator: the part comes off first |
| Text.SplitWithoutSeparator | app/dashboard/settings/page.tsx:22-24 | text without the separator splits into itself alone |
| Text.SplitWithSeparator | app/dashboard/settings/page.tsx:22-24 | text holding the separator splits into at least two parts |
| Text.NameSplit | app/dashboard/settings/page.tsx:22-24 | the first name has no space and, with a space and the last name, gives back a name that has a space; a name without one is all first name |
| Text.NatToString | src/repositories/SalesRepository.ts:28 | `String(n)` of a whole number is a nonempty run of digits, one digit exactly below 10 |
| Text.DigitsValueOfNatToString | src/repositories/SalesRepository.ts:28 | the digits of `String(n)` read back as n |
| Text.Pad3Properties | src/repositories/SalesRepository.ts:28 | `padStart(3, "0")` gives at least three digits, exactly three below 1000, the plain text from 1000, and reads back as the number |
| Text.Pad3Injective | src/repositories/SalesRepository.ts:28 | different numbers get different padded texts |
| Text.NumberedId | app/admin/batches/page.tsx:96 | a numbered id starts with its prefix and has at least three more characters |
| Text.NumberedIdInjective | app/admin/nurseries/page.tsx:59 | with one prefix, different numbers give different ids |
| Text.NextIdFresh | app/partner/projects/page.tsx:75 | in a list numbered 1, 2, ... the next number's id is new, and appending it keeps the list numbered |
| Text.ParseInt | app/admin/nurseries/page.tsx:63 | `parseInt` of number text succeeds exactly when the number parses and starts, after an optional minus sign, with a digit; it truncates the number toward zero, and is `None` for `NaN` otherwise |
| Text.ParseIntNeedsLeadingDigit | app/admin/nurseries/page.tsx:63 | text with no digit before the point (`.0`, `-.5`) is a number to `parseFloat` but `NaN` to `parseInt` |
| Text.ParseNatToString | app/admin/nurseries/page.tsx:63 | the decimal text of a whole number parses back to the number |
| Text.ParseEmpty | app/partner/checkout/page.tsx:44 | empty text never parses, and `parseFloat("") \|\| 0` is 0 |
| Web.GetItem | src/hooks/useUser.ts:14 | `getItem` finds a value exactly when the key is stored, and it is the stored value |
| Web.ParseUser | src/hooks/useUser.ts:14 | `JSON.parse` throws exactly on text that is not JSON, and gives no user for JSON of another shape |
| Web.QueryGet | app/partner/checkout/page.tsx:43-47 | `searchParams.get` finds a parameter with that name, and none exactly when no parameter has it |
| Web.Interpolate | app/partner/checkout/page.tsx:144 | a template literal shows a value as itself and a missing one as "undefined" |
| Text.LowerAfterCase | app/nursery/sales/page.tsx:35-37 | lower-casing forgets whether the text was upper- or lower-cased before |
| Text.Trim | app/partner/projects/page.tsx:81 | `s.trim()`; `TrimStart`, `TrimEnd`, `TrimProperties` and `TrimEmptyIffBlank` state what it removes and keeps |
| Text.Join | app/dashboard/settings/page.tsx:24 | `parts.join(d)`; `JoinSplit` and `SplitJoin` state it is the inverse of `Split` |
| Text.Pad3 | src/repositories/SalesRepository.ts:28 | `padStart(3, "0")`; `Pad3Properties` and `Pad3Injective` state its length, value and injectivity |
| Text.ParseNumber | app/nursery/inventory/page.tsx:90 | `parseFloat` on plain decimal text, `None` for `NaN`; `ParseInt`, `ParseNatToString` and `ParseEmpty` state what it reads |
| Text.NumberOrZero | app/admin/batches/page.tsx:106-109 | `parseFloat(s) || 0`; `CoordinatesFallBack` and `ParseEmpty` state that empty or unparsable text gives 0, `CheckoutPage.ReadParams` uses it for the quantity |
| Text.ParseUnsigned | app/nursery/germination/page.tsx:87 | digits with an optional point and fraction, either side of the point possibly empty; `ParseNatToString`, `FractionOnly` and `TrailingPoint` state what it reads |
| Text.FractionOnly | app/nursery/germination/page.tsx:87 | text with digits after the point only reads as that fraction: `parseFloat(".5")` is 0.5 |
| Text.SignedFractionOnly | app/nursery/germination/page.tsx:87 | with a minus sign in front, such text reads as the fraction's negation: `parseFloat("-.5")` is -0.5 |
| Text.TrailingPoint | app/nursery/germination/page.tsx:87 | digits followed by a point read as the whole number: `parseFloat("5.")` is 5 |
| Text.PointAfterDigits | app/nursery/germination/page.tsx:87 | in a run of digits followed by a point, the first point is the one that ends the run |

## Left out

- Rendering: layout, styling, animation and the presentation-only components are not part of this model. Only the state behind each page is modelled.
- Floating point: numbers are Dafny reals. Rounding, `NaN` propagation, `Infinity` and `toFixed`/`toLocaleString` formatting are not modelled.
  - `NaN` appears only where the code tests it, and in the `parseInt` result stored as a nursery's capacity or a project's target. There, an `Option` stands for the number, with `None` for `NaN`.
  - The CO2 estimate on the partner page and the display averages and percentages use float formatting and are left out.
- Number text: `parseFloat` is modelled on plain decimal text with an optional minus sign, where either side of the point may be empty (`.5`, `5.`) but not both. `parseInt` reads the same text and needs a digit first, after an optional minus sign. Exponent notation, leading `+`, leading whitespace and trailing garbage are not modelled, for either function. A number input's value is taken as typed: the browser's sanitizing of text that is not a valid number (such as `5.`) is not modelled.
- `Number.prototype.toString` is a parameter `show`, so wherever a number is shown as text, the text is not computed. The payment descriptions (`Flutterwave.Description`), built by template strings, keep the quantity as a number next to the template's fixed parts.
- Case: `toLowerCase` and `toUpperCase` map the ASCII letters only; other letters are left as they are. `trim` removes JavaScript's whole whitespace and line-terminator set (`Text.IsSpace`), the Unicode spaces included.
- JSON: `JSON.stringify`/`JSON.parse` are modelled by the shape of the stored value. A stored `Raw` value stands for text that is not JSON, and parsing it throws. JSON text of no record's shape (`[]`, `42`, `null`) is not modelled. Where a user is expected, JSON of another record gives no user. Field-level JSON decoding is not modelled.
- SalesRepository.GetAllSeedsOrReads: the JSON of another record stored under `nursery_sales` is modelled as a throw (`SalesRepository.Listed`). The source parses it and hands the value on; it fails only where that value is used as a list of sales. A non-sale value does not fit the modelled list type.
- URLs: query strings are lists of name/value pairs. Percent-encoding is not modelled.
- External effects: `alert` is a recorded message. `console` output is not modelled.
- Object URLs: `URL.createObjectURL` is a parameter `url`, so preview URLs are not shown to be unique. `URL.revokeObjectURL` has no effect in the model.
- Collection form helpers: geolocation (`handleGetLocation`), drag events and the file dialog are not modelled.
- Form setters: the settings page's `handleProfileChange` and `handlePasswordChange` are plain field setters and are not modelled. The equivalent setter on the profile page is `Profile.SetField`.
- Email inputs: the browser's `type="email"` format check and its trimming of the value are not modelled. Those inputs count only as `required`.
- Number inputs: the `step` attribute is not modelled. This affects the inventory and browse quantity inputs, the admin batch quantity, the germination rate and the nursery and batch coordinates. The browser would also hold back values off the step grid, which the model lets through.
- The create-sale modal: the page that shows it is not part of this model, so its `required` and `type="number"` inputs gate nothing here. `SaleHandlers.SaleHandlers.CreateSale` is the hook's handler as written, and its own checks are the ones modelled.
- Flutterwave: the widget and gateway are external code. Only the payload handed to them and the three callback outcomes (success, failure, close) are modelled.
- Checkout script: the checkout page loads the gateway script with its own effect. That effect behaves like the one in `useFlutterwave`, which `Flutterwave.Document` models. The page's copy is not modelled separately: the page takes the gateway's presence as an input.
- Timers: `setTimeout` delays are not modelled. A delayed step runs as the next step.
- React scheduling: effects run once, when an operation calls them. Re-running an effect on a dependency change is a fresh call of the same step. State updates within one handler apply in order.
- Concurrency: there is no concurrency, and no second browser tab writing the same storage.
- Shared lists: the in-memory fixture lists are one shared repository object per list. Module reloading is not modelled.
- Histogram order: the analytics histograms are maps, so the order in which their entries are listed is not modelled.
- Errors outside the handlers: a `JSON.parse` that throws outside a handler's `try` stops that step, and the step changes nothing. What React's error handling does next is not modelled.
- CheckoutPage.ReadParams: a quantity in the query that does not parse is taken as 0. The source keeps `NaN` and shows it in the price and the total.
- SaleHandlers.ValidateSale: refuses a quantity or price that does not parse. In the source, `NaN` passes the `<=` and `>` checks, so it is not refused.
- SalesService.DraftError: takes its numbers as reals. `NaN`, which passes the source's `<= 0` checks, cannot occur.
- Models.MergeCollection: its own contract names only the id and the quantity. `Models.MergeFullForm` and `CollectionForm.EditKeepsPhotos` state the remaining fields.
- Inventory.InventoryPage.UpdateInput: does not model the `step` check on the update input.
