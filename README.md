# Venda-flow core, modelled in Dafny

Venda-flow is a local-first point-of-sale and back-office application for small
businesses. It covers sales at the counter, manual orders, clients, products,
dashboards and settings. This project models its core:

- **The data layer** (`services/database.ts`). A browser store caches every collection
  and settings object. A write queue holds offline mutations, and a drain replays
  them when the browser comes back online. Order codes come from a per-user counter
  (`PED-000001`, …). A completed order lowers the stock of the products it sells.
- **The authentication context** (`contexts/AuthContext.tsx`). It holds the session
  user and the permission test. It resolves the user's company membership with up
  to three timed retries. A short-lived guard keeps a company that was just set by
  hand from being overwritten.
- **The business-intelligence aggregation** (`services/bi.ts`): revenue, growth,
  average ticket, active clients, the per-day, per-payment, per-seller and per-client
  dictionaries, the top-N rankings and the low-stock list.
- **The pages and components that change state**:
  - the point of sale and the manual order form, which share one cart;
  - the order, client and product lists with their searches;
  - the client and product forms;
  - the settings and team forms;
  - the invitation page;
  - the sign-in and sign-up page;
  - the first-company form;
  - the navigation shell (sidebar, bottom bar, routing, online/offline handlers).

Each source file is one module. Stateful screens are classes whose methods are
proved against pure step functions or state their whole new state. Filters,
validators and payload builders are functions. A group of lemmas relates each one to
its partner: an invariant, an inverse, or a reference definition.

The backend, the browser's online flag, timers, random ids, the clock and the CNPJ
registry are never called. Each becomes a parameter: an `Outcome<T>` (the call
returned a value, or threw with a message), a `bool`, or a plain value.

## Model

| member | source | states |
|---|---|---|
| Database.DataLayer.constructor | services/database.ts:16-28 | an empty, well-formed store and an empty queue |
| Database.DataLayer.Clear | contexts/AuthContext.tsx:172 | clearing the browser storage empties both the cached collections and the write queue |
| Database.DataLayer.AddToQueue | services/database.ts:24-28 | exactly one item is appended, earlier items are untouched, and the cache is unchanged |
| Database.DataLayer.SyncPendingData | services/database.ts:32-48 | offline or with an empty queue nothing happens; otherwise the queue becomes `Drained(queue, threw)`, the replays are exactly the replayable items in order, and the cache is unchanged |
| Database.DrainedAppend | services/database.ts:37-47 | draining distributes over concatenation, so kept items keep their relative order |
| Database.DrainedMembers | services/database.ts:37-47 | an item stays queued if and only if its kind is replayable and its replay threw; the queue never grows |
| Database.DrainedAllReturned | services/database.ts:37-47 | when every replay succeeds, the queue ends empty |
| Database.DrainedAllThrew | services/database.ts:37-47 | when every item is replayable and every replay throws, the queue is written back unchanged |
| Database.ReplayedMembers | services/database.ts:39-41 | the backend is called for exactly the CLIENT, PRODUCT and ORDER items; any other kind is dropped without a call |
| Database.Project | services/database.ts:280-289 | picking named fields keeps exactly those present, with their values |
| Database.ClientInsertData | services/database.ts:280-289 | the client's own fields, plus the user id, plus a credit limit that defaults to 0 when the given one is falsy |
| Database.ProductInsertData | services/database.ts:322-331 | the product's own fields plus the user id, nothing else |
| Database.DataLayer.CreateCached | services/database.ts:276-303 | online: the insert's answer or its error; offline and not replaying: the record is cached under a temp_ id and one queue item is appended; replaying: nothing cached or queued |
| Database.CreateFailure | services/database.ts:276-303 | `clients.create` and `products.create` throw if and only if there is no session, or the online insert fails; with a session the message is the insert's |
| Database.DataLayer.CreateClient | services/database.ts:276-303 | without a session it throws "Usuário não autenticado" and changes nothing; otherwise it acts as CreateCached on the clients collection; it throws exactly when CreateFailure says, with its message |
| Database.DataLayer.CreateProduct | services/database.ts:318-345 | the same for the products collection |
| Database.MergeSettings | services/database.ts:157-179 | keys are those of the current settings plus the patch's non-server-owned keys; patched keys take the patch value and the others keep theirs |
| Database.DataLayer.GetSettings | services/database.ts:122-155 | online with a session: the fetched row (cached), or a created default row when none exists; offline or on failure: the cached object; online without a session: null |
| Database.DataLayer.UpdateSettings | services/database.ts:157-179 | without a session it throws; online it upserts and caches the answer or throws the error; offline it merges the patch into the cache |
| Database.DataLayer.GetAll | services/database.ts:265-275 | online with an answer: that answer, which is also cached; otherwise the cached list, or [] when nothing is cached; the queue is untouched |
| Database.NextCode | services/database.ts:364-383 | without a session `PED-000000` and no write; a missing row gives `PED-000001` and inserts 1; a row c gives number c+1 and updates it; any other error gives `PED-000001` and writes nothing |
| Database.FormatOrderCodeRoundTrip | services/database.ts:382 | a code is `PED-` plus at least six digits, and it reads back as its number |
| Database.FormatOrderCodeInjective | services/database.ts:382 | distinct numbers get distinct codes |
| Database.AllocationAdvancesRow | services/database.ts:374-380 | one allocation hands out the number after the stored counter (1 for a missing row) as its code and leaves the row at that number |
| Database.ChainNumbered | services/database.ts:364-383 | any allocator that hands out the code of the number after the row's and leaves the row at that number, called k times in a row, hands out the codes of k consecutive numbers |
| Database.SequentialAllocationsDistinct | services/database.ts:364-383 | k orders created one after the other, each allocation's write landing before the next read, get the `PED-` codes of the k numbers after the stored counter; from a non-negative counter the k codes are pairwise distinct |
| Database.InterleavedAllocationsCollide | services/database.ts:364-383 | two allocations that both read the row before either writes hand out the same code |
| Database.StockAfterLowersByQuantity | services/database.ts:425-432 | after a completed order, each known product's stock drops by the total quantity of its items; the set of products is unchanged |
| Database.DecrementStock | services/database.ts:425-432 | the read–write loop over the items leaves each product at its stock minus the quantity ordered |
| Database.DataLayer.CreateOrder | services/database.ts:385-439 | without a session it throws "Não autenticado"; offline it queues `{order, items}` and answers `offline_temp`; online a failed order or items insert is thrown; a COMPLETED order lowers stock as in DecrementStock |
| Database.ActiveCompanyId | services/database.ts:51-69 | no session gives null; a failed or missing membership gives the user's own id; otherwise the membership's company |
| Database.GetDashboardStats | services/database.ts:465-486 | offline or signed out, all zeros; pending orders are always 0; out-of-stock counts the products with stock ≤ 0 |
| Auth.AdminPermissionsComplete | contexts/AuthContext.tsx:28-31 | the full permission list names every permission |
| Auth.UserFromAuth | contexts/AuthContext.tsx:43-54 | the name is the metadata name, or else the e-mail's local part; the role defaults to ADMIN; the permissions default to all of them |
| Auth.HasPermission | contexts/AuthContext.tsx:175-179 | nobody signed in holds nothing; an OWNER or ADMIN membership holds everything; anyone else holds exactly the permissions listed on them |
| Auth.DefaultUserHoldsEverything | contexts/AuthContext.tsx:52 | a user whose metadata has no permission list holds every permission, whatever the membership |
| Auth.SignUp | contexts/AuthContext.tsx:133-148 | the service's error is thrown with its message; otherwise the answer is true if and only if a user came back without a session |
| Auth.CompanyDisplayName | contexts/AuthContext.tsx:67 | the joined company name, or 'Minha Empresa'; never empty |
| Auth.EnsureCompanyStep | contexts/AuthContext.tsx:56-80 | a first attempt while the guard is set does nothing; otherwise one lookup: a membership sets the company and clears the guard; none schedules retry n+1 while n < 3, else loading ends; a thrown error ends loading |
| Auth.SetAuthenticatedCompanyStep | contexts/AuthContext.tsx:119-126 | sets the guard and the three company fields, ends loading and schedules one guard reset |
| Auth.GuardResetStep | contexts/AuthContext.tsx:125 | the guard clears; nothing else changes |
| Auth.AuthChangeStep | contexts/AuthContext.tsx:101-114 | a session user is refreshed, and a membership attempt follows SIGNED_IN or USER_UPDATED; SIGNED_OUT clears the user, the company and the guard; any other event without a user changes nothing |
| Auth.InitAuthStep | contexts/AuthContext.tsx:83-97 | loading always ends; a session user is set and one first attempt runs |
| Auth.LogoutStep | contexts/AuthContext.tsx:166-173 | clears the user and the company fields and leaves the guard and the pending timers |
| Auth.ChainFromRetry | contexts/AuthContext.tsx:70-75 | a retry chain starting at count k makes at most 4−k lookups and, given enough answers, leaves no retry pending |
| Auth.ResolutionBounded | contexts/AuthContext.tsx:56-80 | one membership resolution makes at most 4 lookups, and after three retries nothing is pending and loading has ended |
| Auth.FoundOnLastRetry | contexts/AuthContext.tsx:64-75 | three empty answers and then a membership resolve the company on the last retry |
| Auth.GuardProtectsManualCompany | contexts/AuthContext.tsx:57 | right after a manual set, a SIGNED_IN event does not replace the company; after the guard resets, it may |
| Auth.FirstTimerClearsSecondGuard | contexts/AuthContext.tsx:120-125 | two manual sets share one flag, so the first set's timer already clears the second set's guard |
| Auth.AuthSession.constructor | contexts/AuthContext.tsx:33-41 | the initial state |
| Auth.AuthSession.EnsureCompany | contexts/AuthContext.tsx:56-80 | the new state is `EnsureCompanyStep` of the old one |
| Auth.AuthSession.FireRetry | contexts/AuthContext.tsx:72 | the oldest pending retry runs with its count |
| Auth.AuthSession.RefreshMembership | contexts/AuthContext.tsx:187-189 | a first attempt, as in `EnsureCompanyStep(_, 0, _)` |
| Auth.AuthSession.SetAuthenticatedCompany | contexts/AuthContext.tsx:119-126 | the new state is `SetAuthenticatedCompanyStep` of the old one |
| Auth.AuthSession.FireGuardReset | contexts/AuthContext.tsx:125 | the new state is `GuardResetStep` of the old one |
| Auth.AuthSession.HandleAuthChange | contexts/AuthContext.tsx:101-114 | the new state is `AuthChangeStep` of the old one |
| Auth.AuthSession.InitAuth | contexts/AuthContext.tsx:83-97 | the new state is `InitAuthStep` of the old one |
| Auth.AuthSession.Logout | contexts/AuthContext.tsx:166-173 | `LogoutStep`, and the browser store and write queue end empty |
| BI.TotalAppend | services/bi.ts:64 | a total over a concatenation is the sum of the totals |
| BI.BumpTotal | services/bi.ts:76 | one update adds its value to the total |
| BI.BumpNames | services/bi.ts:76 | one update adds the key at the end when it is new, and keeps the keys otherwise |
| BI.BumpLookup | services/bi.ts:76 | one update changes only the value under its own key |
| BI.BumpDistinct | services/bi.ts:73-77 | a dictionary never holds a key twice |
| BI.LookupAt | services/bi.ts:78 | with distinct keys, looking up an entry's key gives that entry's value |
| BI.GroupedSnoc | services/bi.ts:74-77 | one more pair updates the dictionary built from the pairs before it |
| BI.GroupedDistinct | services/bi.ts:73-78 | the grouped dictionary has distinct keys |
| BI.GroupedKeys | services/bi.ts:73-78 | its keys are exactly the names among the pairs |
| BI.GroupedSums | services/bi.ts:73-78 | under each key, the sum of that name's values |
| BI.GroupedTotal | services/bi.ts:73-78 | nothing is lost: its total is the pairs' total |
| BI.Accumulate | services/bi.ts:73-78 | the `forEach` loop builds exactly `Grouped(pairs)` |
| BI.LookupAbsent | services/bi.ts:76 | a key that is not present reads as 0 (`map[k] \|\| 0`) |
| BI.BumpRepresented | services/bi.ts:76 | an update on the map plus its key order represents the updated entries |
| BI.Fill | services/bi.ts:73-78 | the loop over a map and its insertion order represents `Grouped(pairs)` |
| BI.Insert | services/bi.ts:97 | insertion adds exactly one element |
| BI.InsertSorted | services/bi.ts:97 | inserting into a descending list keeps it descending |
| BI.SortDesc | services/bi.ts:95-97 | the result is a permutation of its input |
| BI.SortDescSorted | services/bi.ts:97 | the sorted list is in descending order of value |
| BI.SortDescStable | services/bi.ts:97 | the sort is stable: the entries of any one value come out in their input order, which decides ties at the top-5 and top-10 cut |
| BI.TopMeaning | services/bi.ts:95-98 | the top n: min(n, count) entries drawn from the input, in descending order, none smaller than an entry left out |
| BI.TotalsBy | services/bi.ts:101-105 | one pair per order, worth that order's total |
| BI.TotalsByRevenue | services/bi.ts:64-112 | whatever the grouping key, per-order totals add up to the revenue |
| BI.PaymentPairs | services/bi.ts:81-85 | one pair per order, each worth 1 |
| BI.PaymentPairsCount | services/bi.ts:81-85 | the payment dictionary counts every order exactly once |
| BI.ClientIdList | services/bi.ts:70 | never longer than the orders, and no empty id |
| BI.ClientIdListMembers | services/bi.ts:70 | an id is listed if and only if it is non-empty and some order carries it |
| BI.Elements | services/bi.ts:70 | a set of exactly the sequence's elements, never larger than it |
| BI.ActiveClients | services/bi.ts:70 | the number of distinct client ids, never more than the number of orders |
| BI.AverageTicket | services/bi.ts:69 | with no orders 0; otherwise exactly revenue divided by count |
| BI.Growth | services/bi.ts:66 | with no previous revenue 0; otherwise exactly (revenue − previous) / previous × 100 |
| BI.PreviousWindow | services/bi.ts:44-48 | the previous window ends where the current one starts and lasts as long |
| BI.GetDashboardData | services/bi.ts:29-134 | signed out, it throws "Não autenticado"; a failed orders query throws its error; otherwise every figure and series is the one its definition gives |
| BI.LowStockMeaning | services/bi.ts:132 | a product is listed as low on stock if and only if it is in the list and its stock is at or below its minimum |
| BI.LowStockKeepsOrder | services/bi.ts:132 | the low-stock list keeps input order and multiplicity: the list of two halves is the list of each |
| BI.LowStockSingle | services/bi.ts:132 | a single product is listed exactly when it is low |
| Cart.Add | pages/POS.tsx:35-43 | a product already in the cart gains one unit on its own line, and no other line changes; a new one is appended with quantity 1 |
| Cart.Remove | pages/POS.tsx:45 | the product's lines are gone, and every line left was there before |
| Cart.RemoveAppend | pages/POS.tsx:45 | removal keeps the other lines in their order |
| Cart.RemoveKeepsOthers | pages/POS.tsx:45 | a line of another product is never removed |
| Cart.TotalAppend | pages/POS.tsx:47 | the cart total distributes over concatenation |
| Cart.AddWellFormed | pages/POS.tsx:35-43 | adding keeps one line per product with positive quantities |
| Cart.RemoveWellFormed | pages/POS.tsx:45 | removing keeps the cart well formed |
| Cart.TotalAfterAdd | pages/POS.tsx:35-47 | adding raises the total by one unit of the price recorded on the line |
| Cart.TotalAfterRemove | pages/POS.tsx:45-47 | removing lowers the total by exactly what the line was worth |
| Cart.RemoveUndoesAdd | pages/POS.tsx:35-45 | adding a product and then removing it equals removing it alone |
| Cart.RemoveSameIds | pages/POS.tsx:45 | carts that differ only on one product's lines lose the same lines when it is removed |
| Cart.Items | pages/POS.tsx:61-68 | one order item per line, with its product, quantity, unit price and line total |
| Cart.ItemsAddUpToTotal | pages/POS.tsx:47-68 | the item totals add up to the cart total |
| PointOfSale.SaleOrder | pages/POS.tsx:53-59 | a COMPLETED sale by 'Caixa Mobile' to no client, with the chosen payment and the cart's total |
| PointOfSale.PosScreen.constructor | pages/POS.tsx:12-18 | the initial screen state |
| PointOfSale.PosScreen.FetchProducts | pages/POS.tsx:20-33 | without a company nothing changes; otherwise loading ends and the catalogue is the fetched list, or stays as it was on error |
| PointOfSale.PosScreen.AddToCart | pages/POS.tsx:35-43 | a product without stock is refused with an alert; otherwise `Cart.Add`, keeping the cart well formed and raising the total by one unit |
| PointOfSale.PosScreen.RemoveFromCart | pages/POS.tsx:45 | `Cart.Remove`, with the total lowered by the line's worth |
| PointOfSale.PosScreen.FinishSale | pages/POS.tsx:49-80 | an empty cart or a missing company does nothing; otherwise the sale is sent; on success the receipt is kept, and the cart empties and closes; on error an alert shows and the cart stays |
| OrdersPage.FilteredOrders | pages/Orders.tsx:39-42 | exactly the orders whose client name or code contains the term, ignoring ASCII case |
| OrdersPage.FilteredOrdersKeepsOrder | pages/Orders.tsx:39-42 | the search keeps the list's order and multiplicity: searching two halves is searching each |
| OrdersPage.FilteredOrdersSingle | pages/Orders.tsx:39-42 | a single order is shown exactly when its client name or code matches |
| OrdersPage.EmptySearchShowsAll | pages/Orders.tsx:39-42 | an empty search shows every order |
| OrdersPage.SearchIgnoresCase | pages/Orders.tsx:39-42 | a term in ASCII capitals finds the same orders |
| OrdersPage.NarrowingHides | pages/Orders.tsx:39-42 | a longer term only hides orders |
| OrdersPage.OrdersScreen.constructor | pages/Orders.tsx:12-15 | the initial list state |
| OrdersPage.OrdersScreen.Visible | pages/Orders.tsx:39-42 | the rendered orders are exactly the matching ones |
| OrdersPage.OrdersScreen.FetchOrders | pages/Orders.tsx:17-28 | without a company nothing changes; otherwise loading ends with the fetched list, or the old one on error |
| OrdersPage.OrdersScreen.Search | pages/Orders.tsx:12 | the term is set and the view is `FilteredOrders` for it |
| OrdersPage.ManualOrder | pages/Orders.tsx:158-191 | a COMPLETED cash sale by 'Administrador' to the chosen client, for the cart's total |
| OrdersPage.OrderModal.constructor | pages/Orders.tsx:136-141 | the initial form state |
| OrdersPage.OrderModal.LoadData | pages/Orders.tsx:143-154 | both lists arrive together, or neither does |
| OrdersPage.OrderModal.SelectClient | pages/Orders.tsx:216-217 | the empty option means a walk-in customer (no client) |
| OrdersPage.OrderModal.AddProduct | pages/Orders.tsx:229-237 | a product without stock has no effect; otherwise `Cart.Add` |
| OrdersPage.OrderModal.RemoveProduct | pages/Orders.tsx:262 | `Cart.Remove`, with the total lowered by the line's worth |
| OrdersPage.OrderModal.Save | pages/Orders.tsx:158-191 | an empty cart is refused with a message and nothing is sent; otherwise the manual order and its items are sent; success closes and refreshes, and failure shows the error |
| SettingsPage.IsDirty | pages/Settings.tsx:23-29 | clean if and only if theme, language and sidebar mode equal the saved ones |
| SettingsPage.OpenForm | pages/Settings.tsx:15-21 | a freshly opened form is clean and shows no toast |
| SettingsPage.Edit | pages/Settings.tsx:15 | editing back to the saved values makes the form clean |
| SettingsPage.Save | pages/Settings.tsx:31-36 | the local copy becomes the saved one, the form is clean, and the toast shows |
| SettingsPage.ToastExpires | pages/Settings.tsx:35 | the toast hides; nothing else changes |
| SettingsPage.InitialUsers | pages/Settings.tsx:216-229 | the stored list, or else one active main administrator with seven permissions |
| SettingsPage.DeleteUser | pages/Settings.tsx:238-243 | the main administrator is refused with an alert; others are removed only when confirmed; the main administrator is never removed |
| SettingsPage.DeleteKeepsOrder | pages/Settings.tsx:241 | deletion keeps the remaining users in their order |
| SettingsPage.SaveUser | pages/Settings.tsx:245-253 | an edited user replaces the one with its id, in place; a new user is appended under a fresh id; the form closes |
| SettingsPage.SaveUserKeepsIdsUnique | pages/Settings.tsx:245-253 | user ids stay unique, provided the fresh id is not taken |
| SettingsPage.UserFormFor | pages/Settings.tsx:341-348 | the edited user, or an active seller allowed ORDERS and POS |
| SettingsPage.TogglePermission | pages/Settings.tsx:360-367 | the permission is held afterwards if and only if it was not held before; other permissions are unaffected |
| SettingsPage.ToggleTwice | pages/Settings.tsx:360-367 | toggling twice gives back the same set, and the very same list when the permission was absent |
| InvitePage.SignInState | pages/Invite.tsx:35-66 | READY if and only if signed in, else NOT_LOGGED |
| InvitePage.ErrorText | pages/Invite.tsx:209-213 | e-mail mismatch and invalid/expired invitations each get their own text; every other cause gets the generic text |
| InvitePage.AcceptErrorType | pages/Invite.tsx:78-96 | the recorded cause names the mismatch, the expiry, or a generic failure, according to the message |
| InvitePage.InviteScreen.constructor | pages/Invite.tsx:15-19 | loading, with no token, invitation or error |
| InvitePage.InviteScreen.Mount | pages/Invite.tsx:21-33 | without a token the page fails with the token-missing cause and makes no query; otherwise it queries once |
| InvitePage.InviteScreen.CheckInvite | pages/Invite.tsx:43-70 | a failed query gives an error; no pending invitation gives the invalid/expired error; otherwise the invitation is kept and the state follows the sign-in |
| InvitePage.InviteScreen.AuthChanged | pages/Invite.tsx:35-41 | once the invitation is known, the state follows the sign-in; loading, success and error are left alone |
| InvitePage.InviteScreen.Accept | pages/Invite.tsx:72-100 | nothing happens without a token; success when the procedure answers without an error; otherwise an error with its cause; processing always ends |
| InvitePage.InviteScreen.Message | pages/Invite.tsx:209-213 | a missing token shows the generic text |
| LoginPage.SignupError | pages/Login.tsx:83-93 | accepted if and only if the password has at least 6 characters and matches its confirmation; the short-password check comes first |
| LoginPage.ShowConfirmError | pages/Login.tsx:172 | whenever the inline warning shows, the submit check refuses too; a refused form without the warning is short or unconfirmed |
| LoginPage.CnpjReadyIgnoresPunctuation | pages/Login.tsx:171 | a formatted number is ready if and only if its bare digits are |
| LoginPage.FormatPhone | pages/Login.tsx:161 | the area code in brackets, a space, then the rest, three characters longer than the input |
| LoginPage.ApplyCnpj | pages/Login.tsx:158-163 | the legal name, else the trade name, else empty; the phone and e-mail only when the registry has them; nothing else changes |
| LoginPage.LoginScreen.constructor | pages/Login.tsx:12-33 | the initial sign-in state |
| LoginPage.LoginScreen.Prefill | pages/Login.tsx:35-61 | `mode=SIGNUP` opens sign-up, prefilled for an invited address; a signed-in visitor is marked as redirecting |
| LoginPage.LoginScreen.ResetUIStates | pages/Login.tsx:64-68 | loading, the error and the success message are cleared |
| LoginPage.LoginScreen.BackToLogin | pages/Login.tsx:231 | back to sign-in with the messages cleared |
| LoginPage.LoginScreen.ForgotPassword | pages/Login.tsx:267 | the sign-in form's link opens the password-reset form and changes nothing else |
| LoginPage.LoginScreen.OpenSignup | pages/Login.tsx:280 | the sign-in form's button opens the sign-up form with what it held, and changes nothing else |
| LoginPage.LoginScreen.SubmitLogin | pages/Login.tsx:70-81 | failure shows the error's message or a fixed text and ends loading |
| LoginPage.LoginScreen.SubmitSignup | pages/Login.tsx:83-119 | the backend is called if and only if the checks pass; a refused form shows why; once called, loading ends and the page waits for confirmation if and only if the service returned a user without a session; any other answer shows the success message; a thrown error is shown with its message |
| LoginPage.LoginScreen.LookupCnpj | pages/Login.tsx:151-169 | the registry is asked for the bare digits; an answer fills the form as ApplyCnpj says; failure shows "not found" and keeps the form |
| LoginPage.LoginScreen.ConfirmedEmail | pages/Login.tsx:330 | back to sign-in with the sign-up e-mail filled in |
| CompanyCreation.CompanyPatch | components/CreateCompanyModal.tsx:52-57 | both names are the typed name, the document is trimmed of ASCII white space, and no other field is set |
| CompanyCreation.CommercialPatch | components/CreateCompanyModal.tsx:60-66 | no minimum order, auto-approval, the `PED` prefix and six-digit padding |
| CompanyCreation.WriteSettings | services/database.ts:157-179 | a settings write fails if and only if the data layer would throw, and then changes no cache |
| CompanyCreation.WriteStep | components/CreateCompanyModal.tsx:51-66 | a settings step writes the company settings or the default commercial settings; it fails if and only if the data layer would throw, and then changes no cache and never the queue |
| CompanyCreation.CompanyForm.constructor | components/CreateCompanyModal.tsx:14-19 | the initial form state |
| CompanyCreation.CompanyForm.Lookup | components/CreateCompanyModal.tsx:21-36 | only for a CNPJ; fewer or more than 14 digits are refused; an answer sets the name; failure shows an error; searching ends |
| CompanyCreation.CompanyForm.Create | components/CreateCompanyModal.tsx:38-79 | nothing while running; a name that is empty after trimming ASCII white space is refused; otherwise create, write both settings, and hand over to the session; the first failure stops the sequence and shows its message |
| CompanyCreation.CompanyForm.Launch | components/CreateCompanyModal.tsx:44-72 | loading on and the error cleared; a failed company creation ends loading with its message or the fixed text; otherwise the remaining steps run as Proceed states |
| CompanyCreation.CompanyForm.Proceed | components/CreateCompanyModal.tsx:52-72 | the two settings writes and then the hand-over, stopping at the first failure |
| ClientsPage.ClientsScreen.constructor | pages/Clients.tsx:11-14 | the initial list state |
| ClientsPage.ClientsScreen.Visible | pages/Clients.tsx:83 | exactly the clients whose name contains the term, ignoring ASCII case |
| ClientsPage.ClientsScreen.FetchClients | pages/Clients.tsx:16-27 | without a company nothing changes; otherwise the list is what `GetAll` answers, and loading ends |
| ClientsPage.ClientsScreen.Search | pages/Clients.tsx:12 | the term is set and the view follows it |
| ClientsPage.ApplyLookup | pages/Clients.tsx:157-164 | the legal or trade name; the address, e-mail and phone only when the registry has them |
| ClientsPage.SaveError | pages/Clients.tsx:173-180 | a nameless client and an invalid CPF are refused with their own messages; everything else passes |
| ClientsPage.ClientPayload | pages/Clients.tsx:187-196 | the typed fields, the person type, the parsed credit limit (0 when unparsable) and no amount spent |
| ClientsPage.StoredClientRecord | services/database.ts:280-289 | the data layer keeps the person type but drops the amount spent |
| ClientsPage.ClientModal.constructor | pages/Clients.tsx:133-144 | a PJ form with a zero credit limit and no error |
| ClientsPage.ClientModal.Lookup | pages/Clients.tsx:146-170 | only for PJ; fewer or more than 14 digits are refused; an answer fills the form as ApplyLookup says; failure shows "not located" |
| ClientsPage.ClientModal.Save | pages/Clients.tsx:172-204 | as written: the cache and the queue never change, yet offline with a session the form closes without error |
| ClientsPage.ClientModal.SaveAsIntended | pages/Clients.tsx:172-204 | offline with a session, the client is cached under a temp_ id and one CLIENT item is queued |
| ClientsPage.ClientModal.Submit | pages/Clients.tsx:172-204 | a refused form never reaches the data layer; otherwise the payload is created; success closes and refreshes, and failure shows the message or a fixed text |
| ClientsPage.ClientModal.Commit | pages/Clients.tsx:185-203 | the create call on the record: success refreshes and closes, failure shows the message or the fixed text; saving always ends; the cache and queue change exactly as the data layer's create says |
| NameSearch.ByName | pages/Clients.tsx:83 | exactly the rows whose name contains the term, ignoring ASCII case |
| NameSearch.EmptyTermShowsAll | pages/Products.tsx:73 | an empty search shows every row |
| NameSearch.ByNameKeepsOrder | pages/Products.tsx:73 | the search keeps the list's order |
| NameSearch.ByNameIgnoresCase | pages/Products.tsx:73 | a term in ASCII capitals finds the same rows |
| ProductsPage.ProductsScreen.constructor | pages/Products.tsx:10-13 | the initial grid state |
| ProductsPage.ProductsScreen.Visible | pages/Products.tsx:73 | exactly the products whose name contains the term, ignoring ASCII case |
| ProductsPage.ProductsScreen.FetchProducts | pages/Products.tsx:15-26 | without a company nothing changes; otherwise the grid is what `GetAll` answers, and loading ends |
| ProductsPage.ProductsScreen.Search | pages/Products.tsx:12 | the term is set and the view follows it |
| ProductsPage.CompareNum | pages/Products.tsx:83-105 | the number `<` and `<=` read from a field: a number itself, null as 0, and an absent or non-numeric field as NaN |
| ProductsPage.Badges | pages/Products.tsx:83-105 | the overlay shows if and only if stock ≤ 0; amber if and only if stock < minimum; both when out of stock with a positive minimum; null reads as 0 and NaN compares false |
| ProductsPage.NullReadsAsZero | pages/Products.tsx:159-167 | a product saved with a blank minimum and a negative stock is shown low and out of stock; one saved with no stock shows the out-of-stock overlay |
| ProductsPage.SaveError | pages/Products.tsx:149-152 | refused if and only if the name, price or stock is empty |
| ProductsPage.ProductPayload | pages/Products.tsx:159-167 | the typed fields with the SKU in ASCII capitals, and the parsed numbers (null when unparsable) |
| ProductsPage.StoredSkuNormalised | pages/Products.tsx:161 | the stored SKU has no lower-case ASCII letter, and capitalising it again changes nothing |
| ProductsPage.ProductModal.constructor | pages/Products.tsx:136-146 | an empty form with a minimum stock of 5 |
| ProductsPage.ProductModal.Save | pages/Products.tsx:148-175 | as written: the cache and the queue never change, yet offline with a session the form closes without error |
| ProductsPage.ProductModal.SaveAsIntended | pages/Products.tsx:148-175 | offline with a session, the product is cached under a temp_ id and one PRODUCT item is queued |
| ProductsPage.ProductModal.Submit | pages/Products.tsx:148-175 | an incomplete form never reaches the data layer; otherwise the payload is created; success closes and refreshes, and failure shows the prefixed message |
| ProductsPage.ProductModal.Commit | pages/Products.tsx:157-174 | the create call on the record: success refreshes and closes, failure shows the prefixed message; saving always ends; the cache and queue change exactly as the data layer's create says |
| Navigation.VisibleNavItems | components/Layout.tsx:23-25 | exactly the entries that need no permission or whose permission is held, in table order, with the dashboard first |
| Navigation.FullAccessSeesEverything | components/Layout.tsx:23-25 | an owner or administrator sees the whole table |
| Navigation.NoPermissionSeesDashboardOnly | components/Layout.tsx:23-25 | a member with no permissions sees only the dashboard |
| Navigation.BottomNavItems | components/Layout.tsx:27-33 | 1 to 5 entries: the dashboard first, then each other one exactly when its permission is held |
| Navigation.BottomBarWithinSidebar | components/Layout.tsx:23-33 | every bottom-bar entry is also a sidebar entry the same user sees |
| Navigation.HandleTabClick | components/Layout.tsx:35-38 | the clicked value becomes the active tab and the mobile menu closes |
| Navigation.BottomLabel | components/Layout.tsx:156 | a prefix of the translated label, at most eight characters long |
| AppShell.Route | App.tsx:52-75 | a path names a page other than Login, Team or an error page; only '/' needs no permission |
| AppShell.RenderContent | App.tsx:48-75 | signed out: Login; '/': the dashboard; another routed path: its page if and only if the permission is held, and access denied if and only if not; anything else: not found |
| AppShell.NavKeysRenderNotFound | components/Layout.tsx:74 | as written, every sidebar and bottom-bar click renders the not-found page |
| AppShell.HandleNavClick | components/Layout.tsx:35-38 | corrected: the entry's path becomes the active tab, and it names a route guarded by the entry's own permission |
| AppShell.RouteOfNavPath | constants.tsx:13-24 | every table entry but the team's has a route guarded by its own permission; the team path has none |
| AppShell.VisibleItemsReachTheirPages | components/Layout.tsx:23-25 | with the corrected click, every visible entry but the team's opens its page |
| AppShell.TeamEntryNotRouted | App.tsx:52-75 | an owner is offered the team entry, yet '/team' renders the not-found page |
| AppShell.IntendedRoute | App.tsx:52-75 | the written routes, plus '/team' guarded by TEAM |
| AppShell.RenderIntended | App.tsx:52-75 | as RenderContent off '/team'; on '/team', the team page if and only if TEAM is held |
| AppShell.EveryVisibleItemReachable | constants.tsx:13-24 | with the corrected click and route, every visible entry opens a page the user may see |
| AppShell.IntendedItemReachable | constants.tsx:13-24 | one allowed table entry reaches its page under the intended routes |
| AppShell.App.constructor | App.tsx:20-22 | the dashboard tab, the browser's online flag, and no syncing |
| AppShell.App.Mount | App.tsx:38-40 | a drain runs, without the banner, only when already online |
| AppShell.App.HandleOnline | App.tsx:26-31 | online, a drain with the banner up, then the banner down |
| AppShell.App.HandleOffline | App.tsx:32 | offline; nothing else changes |
| AppShell.App.SetActiveTab | App.tsx:20 | the tab changes; nothing else does |
| AppShell.App.Content | App.tsx:48-50 | signed out: Login; on the '/' tab: the dashboard |

## Left out

- The backend (Supabase), the CNPJ registry, `navigator.onLine`, `Date.now()`, `Math.random()` ids and `setTimeout` are not called. Each answer is a parameter of the operation that uses it: an `Outcome`, a `bool`, an id string or a timestamp. A timer firing is a method call.
- `isValidCpf` is the parameter `cpfValid`. `parseFloat` and `parseInt` are the parsed numbers passed in, where "not a number" becomes none (null). `t()` translations are inputs.
- Floating point is not modelled. Amounts are integers (cents), and the average ticket and growth are exact fractions.
- `toLocaleDateString`: the day key of an order is an input string.
- JavaScript objects with integer-like keys enumerate those keys first. The model keeps plain insertion order.
- Where the source falls back with `|| ''` (the order search, pages/Orders.tsx:40-41), an undefined field reads as the empty string. Elsewhere, except in ClientsPage.ApplyLookup (next line), the model takes the strings it is given: an undefined `numero`, `bairro`, `municipio` or `uf` of a registry answer, which the address line prints as "undefined" (pages/Clients.tsx:161), and an undefined item name, which groups under the key "undefined" (services/bi.ts:92), are passed in as that text.
- ClientsPage.ApplyLookup: a registry answer with neither a legal nor a trade name fills the name with "", where pages/Clients.tsx:160 (`razao_social || nome_fantasia`, with no `|| ''`) stores `undefined`; the name check at pages/Clients.tsx:173 refuses both alike. The sign-up form's lookup does fall back to '' (pages/Login.tsx:160).
- The POS catalogue filter (pages/POS.tsx:111) is not modelled; it is the same lower-cased `includes` search as NameSearch.ByName, over the POS page's product list.
- NameSearch.ByName: a row without a string name is read as the empty name, where the list pages would throw on `name.toLowerCase()` (pages/Clients.tsx:83, pages/Products.tsx:73).
- ProductsPage.CompareNum: a string-valued stock field is read as NaN, where JavaScript would convert its text to a number; the backend's stock columns hold numbers or null.
- String length counts characters, not UTF-16 code units.
- Strings.ToLower, Strings.ToUpper and Strings.Trim cover ASCII only: the letters A–Z and a–z change case, and only the ASCII white-space characters are trimmed. JavaScript's `toLowerCase`, `toUpperCase` and `trim` cover all of Unicode, so in the model a non-ASCII letter keeps its case ("JOSÉ" does not contain "josé") and non-ASCII white space (U+00A0, U+FEFF, U+2028) is kept. The lines below name each member this weakens.
- OrdersPage.FilteredOrders: the search ignores ASCII case only; a client name or code that differs from the term only in a non-ASCII letter's case is not found, where pages/Orders.tsx:39-42 finds it.
- OrdersPage.SearchIgnoresCase: proved for ASCII upper-casing of the term only.
- ClientsPage.ClientsScreen.Visible: the name search ignores ASCII case only (pages/Clients.tsx:83 folds all of Unicode).
- NameSearch.ByName: the name match ignores ASCII case only, as Strings.ToLower does.
- NameSearch.ByNameIgnoresCase: proved for ASCII upper-casing of the term only.
- ProductsPage.ProductsScreen.Visible: the name search ignores ASCII case only (pages/Products.tsx:73 folds all of Unicode).
- ProductsPage.ProductPayload: the SKU is upper-cased on ASCII letters only (pages/Products.tsx:161 upper-cases all of Unicode).
- ProductsPage.StoredSkuNormalised: "no lower-case letter" is proved for ASCII letters only; a non-ASCII lower-case letter in the SKU stays lower-case in the model.
- CompanyCreation.CompanyForm.Create: the blank-name check trims ASCII white space only, so a name made only of U+00A0 passes it in the model, where components/CreateCompanyModal.tsx:41-42 refuses it.
- CompanyCreation.CompanyPatch: the document is trimmed of ASCII white space only.
- Concurrent writers of the queue are not modelled (two tabs, or a drain interleaved with a new write). Only the order-code allocator's race is stated, in Database.InterleavedAllocationsCollide.
- Auth.EnsureCompanyStep: one membership lookup is one atomic step. In the source the guard is read (contexts/AuthContext.tsx:57) before the lookup's await (:62), so a company set by hand while a lookup is in flight is then overwritten by that lookup's answer, and the guard is cleared. The model cannot express that interleaving.
- Database.DecrementStock: each item's stock read and write (services/database.ts:425-432) is one step with no other writer in between. Two sales of the same product finishing at once can lose a decrement in the source; the model does not capture that.
- Database.DataLayer.CreateOrder: the allocated code goes into the inserted order row, which the backend's answer stands for; the method does not expose the row it sends, and the allocator is stated on its own in Database.NextCode and Database.SequentialAllocationsDistinct.
- The team list's persistence in `localStorage` is not modelled; the stored list is an input to SettingsPage.InitialUsers.
- `uploadLogo`, `team.getInvitations`, `generateInvitation`, `deleteInvitation`, `getMembership`, `createCompany` and `finance.createTransaction` are not modelled beyond the answers they give to the operations above. They are remote calls with no local state.
- The clients query in `services/bi.ts:58-61` is fetched but never used, so it is not modelled.
- The password-reset and resend-e-mail handlers of the sign-in page are not modelled. Neither are `refreshSession`, `resetPassword` or `resendConfirmation`. They only forward to the backend and show its answer.
- The redirect timeout of the sign-in page, the highlight of the active navigation entry, `getStatusStyle`, avatar initials and the print service are presentation only.
- The behaviour of the not-found and access-denied components is not modelled; the model names which one is shown.
- The pages not named here (Dashboard, Reports, Team, AuthCallback, AuthConfirmed) and the Gemini service are not part of this model.

## Findings

| source | as written | input that shows it | evidently intended | confidence | as-written member | corrected member |
|---|---|---|---|---|---|---|
| pages/Clients.tsx:187-196 | the page passes `companyId` as the second argument of `create(record, isSyncing)`, so every save is treated as a queue replay | offline, signed in, with a company: the save reports success and closes the form, but nothing is cached and nothing is queued, so the record is lost | `isSyncing = false`: cache the record under a temp_ id and queue it for the next drain | not executed; high | ClientsPage.ClientModal.Save | ClientsPage.ClientModal.SaveAsIntended |
| pages/Products.tsx:159-167 | the page passes `companyId` as the second argument of `create(record, isSyncing)`, so every save is treated as a queue replay | offline, signed in, with a company: the save reports success and closes the form, but nothing is cached and nothing is queued, so the record is lost | `isSyncing = false`: cache the record under a temp_ id and queue it for the next drain | not executed; high | ProductsPage.ProductModal.Save | ProductsPage.ProductModal.SaveAsIntended |
| components/Layout.tsx:74 | the sidebar and the bottom bar pass the entry's key (`'orders'`) to `setActiveTab`, but App.tsx routes on paths (`'/orders'`) | any signed-in click on any navigation entry, the dashboard's included: the content area shows the not-found page | pass the entry's path | not executed; high | AppShell.NavKeysRenderNotFound | AppShell.HandleNavClick, AppShell.VisibleItemsReachTheirPages |
| App.tsx:52-75 | `renderContent` has no case for `'/team'`, though the navigation table offers the team entry (constants.tsx:17) | an owner follows the team entry: not found | a team route guarded by the TEAM permission; App.tsx never imports the team page, and the fallback (App.tsx:100-108) reads "Em Desenvolvimento", so the missing route may be a deliberate placeholder | not executed; medium | AppShell.TeamEntryNotRouted | AppShell.RenderIntended, AppShell.EveryVisibleItemReachable |
