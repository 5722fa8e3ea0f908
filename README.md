# Role-based dashboard — a verified Dafny model of its logic

The modelled system is a React/TypeScript finance dashboard with three roles:
customer, salesperson and admin. This project models the parts of it that are
logic rather than markup:

- **Access control.** The `ProtectedRoute` guard, the route table, the three
  single-role portals, the main sidebar's role filter and the role-based
  navigation list.
- **The mock authentication store.** Login by email, signup with sequential
  ids, logout and profile update. Also the signup form's submit handler.
- **The `DataTable` view pipeline.** Search filter, then copy-and-sort, then a
  page window, with the page arithmetic, the view state and its page-reset
  rule, and the render precedence.
- **Small state machines and list updates.** The accessibility settings (a
  saturating font size and four switches, with their stored encoding) and the
  controls' button rules. The provider's mount is modelled as written, where
  an unchecked stored size is held, and corrected (see Findings). Also the notification list, notification
  preferences, user status toggles, business-objective progress, the
  append-only AI insights list and the error boundary.
- **Filters and aggregations.** Transaction filters and income/expense totals,
  user and team searches, product counts by category, and orders bucketed by
  month.

There is one module per source file. Shared pieces live in `base.dfy` (`Option`,
`Result`), `text.dfy` (ASCII lower-casing, substring search, decimal
`toString`), `seqs.dfy` (filter, subsequence, update-in-place-by-predicate,
stable insertion sort) and `arith.dfy` (division facts). Component state that
the source changes step by step is modelled as a class whose methods change
its fields. Pure expressions are functions, and lemmas state their properties.

Where the project's written description and its code differ, the model
follows the code:
- `totalPages` is `Math.ceil(n / itemsPerPage)`, which is 0 for an empty result,
  not at least 1 (`src/components/ui/DataTable.tsx:170`).
- The search filter is applied whatever the `searchable` prop says. The prop
  only hides the search box (`src/components/ui/DataTable.tsx:80-91`, `187`).

## Model

| member | source | states |
|---|---|---|
| ProtectedRoute.Decide | src/components/ProtectedRoute.tsx:16-40 | Exactly one outcome. Loading wins whatever the user. With no user, a redirect to /login that carries the location. If the allow-list is present and lacks the role, a redirect to /unauthorized. Otherwise the page is rendered. Each case is stated in both directions. |
| ProtectedRoute.EmptyAllowListAdmitsNobody | src/components/ProtectedRoute.tsx:26 | An empty allow-list sends every signed-in user to /unauthorized. |
| ProtectedRoute.RenderIsAuthorized | src/components/ProtectedRoute.tsx:16-40 | A rendered page implies not loading, a user, and the role in the allow-list if there is one. |
| Routes.Match | src/routes.tsx:21-51 | A matched page is reached at exactly the path matched. A customer id is one non-empty segment. |
| Routes.Open | src/routes.tsx:25-47 | Public pages always show. A guarded page shows iff not loading and a user is present whose role the guard admits (any role for the any-auth group). With no session it redirects to /login, carrying the requested path as `state.from`. |
| Routes.Navigate | src/routes.tsx:19-52 | Unmatched paths, and only those, redirect to "/". A shown page is the page the path matches. |
| Routes.PublicPages | src/routes.tsx:21-50 | /login, /signup and "/" show for anybody, even while loading. |
| Routes.AnyRolePages | src/routes.tsx:25-30 | /unauthorized, /profile, /notifications and /settings show for every signed-in user. |
| Routes.CustomerProfileForCustomers | src/routes.tsx:33-35 | /customer-profile shows iff the user is a customer, else /unauthorized. |
| Routes.SalesPagesForSalesAndAdmin | src/routes.tsx:38-42 | The customer pages and /transactions show iff the role is salesperson or admin. |
| Routes.AnalyticsForAdmin | src/routes.tsx:45-47 | /analytics shows iff the user is an admin. |
| Routes.NoSessionGoesToLogin | src/routes.tsx:25-47 | Every guarded path redirects to /login without a session, remembering that path. |
| Routes.CustomerNeverSeesAnalytics | src/routes.tsx:45-47 | No path shows Analytics to a customer, whatever the loading state. |
| Routes.PortalPathsFallBack | src/routes.tsx:51 | "/admin/analytics" is not in the table and falls back to "/". |
| Portals.PortalGate | src/portals/admin/AdminPortal.tsx:17-19 | The layout iff `user?.role` equals the portal's role. |
| Portals.AdminPortal | src/portals/admin/AdminPortal.tsx:14-43 | The layout iff a user is present and is an admin. A missing or still-loading user goes to /unauthorized. |
| Portals.SalesPortal | src/portals/sales/SalesPortal.tsx:14-43 | The layout iff the user is a salesperson. Admins are refused. |
| Portals.CustomerPortal | src/portals/customer/CustomerPortal.tsx:14-43 | The layout iff the user is a customer. |
| Portals.PortalsPartitionUsers | src/portals/admin/AdminPortal.tsx:17-19 | Without a user, every portal redirects. A signed-in user enters exactly one portal. |
| Sidebar.VisibleMenuItems | src/components/Sidebar.tsx:34-36 | No user gives an empty menu. Otherwise an order-preserving subsequence of the table whose items all admit the role. |
| Sidebar.VisibleMenuItemsMembers | src/components/Sidebar.tsx:35 | An item is visible iff it is in the table and its allow-list names the role. |
| Sidebar.CustomerMenu | src/components/Sidebar.tsx:15-22 | A customer sees exactly Dashboard, Notifications and Profile. |
| Sidebar.SalespersonMenu | src/components/Sidebar.tsx:15-22 | A salesperson sees exactly Dashboard, Transactions, Notifications and Profile. |
| Sidebar.AdminMenu | src/components/Sidebar.tsx:15-22 | An admin sees the whole table, Analytics and Settings included. |
| Sidebar.MenuPathsDistinct | src/components/Sidebar.tsx:15-22 | No two table entries share a path. |
| Sidebar.AtMostOneActive | src/components/Sidebar.tsx:47-49 | An item is highlighted iff its path equals the pathname exactly. For any pathname, at most one visible item is highlighted. |
| Navigation.GetNavItems | src/utils/navigationUtils.ts:34-124 | Every list starts with the four common entries. No user gives exactly those. The length is 4, 5, 8 or 9 for no user, customer, salesperson or admin. |
| Navigation.AdminNav | src/utils/navigationUtils.ts:59-87 | An admin gets the common entries and then the five admin entries (9 in all). |
| Navigation.SalespersonNav | src/utils/navigationUtils.ts:88-111 | A salesperson gets the common entries and the four /sales entries (8 in all). |
| Navigation.CustomerNav | src/utils/navigationUtils.ts:112-120 | A customer gets the common entries and My Profile (5 in all). |
| Navigation.NavHrefsDistinct | src/utils/navigationUtils.ts:34-124 | The hrefs of every returned list are pairwise distinct. |
| Navigation.SettingsAccessDisagrees | src/utils/navigationUtils.ts:51-55 | For a non-admin, the sidebar hides Settings, the navigation list offers it, and the route table opens it. |
| DataTable.FilteredData | src/components/ui/DataTable.tsx:80-91 | No data gives []. A blank (whitespace-only) term gives the data unchanged. Otherwise an order-preserving subsequence whose rows all match the lower-cased, untrimmed term. |
| DataTable.FilteredDataCount | src/components/ui/DataTable.tsx:85-90 | With a non-blank term, every copy of a matching row is kept and no copy of another. |
| DataTable.FilteredDataMembers | src/components/ui/DataTable.tsx:85-90 | A row is kept iff it is in the data and some non-null, non-undefined property contains the term once lower-cased. |
| DataTable.RowLeTotalPreorder | src/components/ui/DataTable.tsx:97-118 | The comparator is total and transitive in both directions, so the sort is well defined. |
| DataTable.SortedData | src/components/ui/DataTable.tsx:94-97 | Without a sort key (null or empty), the filtered rows unchanged. Otherwise a permutation of them (multiset equality), on a copy. |
| DataTable.SortedDataOrdered | src/components/ui/DataTable.tsx:104-117 | The sorted rows are nondecreasing at the key for 'asc' and nonincreasing for 'desc'. |
| DataTable.NumericColumnOrdered | src/components/ui/DataTable.tsx:110-112 | On an all-number column, 'asc' output is `<=` and 'desc' output is `>=` at the key. |
| DataTable.SortedDataIdempotent | src/components/ui/DataTable.tsx:94-119 | Sorting the sorted rows again changes nothing. |
| DataTable.TotalPages | src/components/ui/DataTable.tsx:170 | 0 iff there are no rows. Otherwise the least r with n <= r*ipp (ceil). |
| DataTable.PageSlice | src/components/ui/DataTable.tsx:125-126 | A page window holds at most ipp rows. |
| DataTable.PaginatedData | src/components/ui/DataTable.tsx:122-127 | Pagination off shows every sorted row. Pagination on shows at most ipp rows. |
| DataTable.AllPagesCover | src/components/ui/DataTable.tsx:122-127 | There are TotalPages pages, and they concatenate back to the sorted rows in order. |
| DataTable.PageSliceIsPage | src/components/ui/DataTable.tsx:125-126 | For 1 <= p <= TotalPages, the window of page p is the p-th of those pages. |
| DataTable.PageSliceBeyondEnd | src/components/ui/DataTable.tsx:125-126 | Past the last page the window is empty. |
| DataTable.ShowingLabel | src/components/ui/DataTable.tsx:278-280 | On an existing page, the "Showing from to to" bounds satisfy 1 <= from <= to <= n, and the window is exactly rows from..to. |
| DataTable.PrevPage | src/components/ui/DataTable.tsx:287 | Previous gives p-1 above page 1 and never less than 1. |
| DataTable.NextPage | src/components/ui/DataTable.tsx:299 | Next gives p+1 below the last page and never more than totalPages. |
| DataTable.HandleSort | src/components/ui/DataTable.tsx:172-179 | The key becomes the clicked key. The same key flips the direction, and another key sets 'asc'. |
| DataTable.HandleSortTwice | src/components/ui/DataTable.tsx:172-179 | Two clicks on the current key restore the direction. |
| DataTable.Render | src/components/ui/DataTable.tsx:130-244 | Loading, then error, then table. The error card shows the error's message. An empty page shows exactly the "No data available" row. Each case is stated in both directions. |
| DataTable.CellText | src/components/ui/DataTable.tsx:263 | A cell shows empty text iff its value is falsy, so 0 and false show as empty. |
| DataTable.TableView.Page | src/components/ui/DataTable.tsx:122-127 | The rows on screen: at most ipp with pagination on, all sorted rows with it off. |
| DataTable.TableView.constructor | src/components/ui/DataTable.tsx:57-65 | Page 1, no sort key, 'asc', an empty search term, and the initial page size. |
| DataTable.TableView.SetData | src/components/ui/DataTable.tsx:67-70 | New data resets the page to 1 when it differs. Everything else is kept, and the view stays valid. |
| DataTable.TableView.SetSearchTerm | src/components/ui/DataTable.tsx:193-199 | A changed term resets the page to 1. Everything else is kept. |
| DataTable.TableView.Sort | src/components/ui/DataTable.tsx:172-179 | The sort state becomes HandleSort's, and the page resets to 1. |
| DataTable.TableView.Prev | src/components/ui/DataTable.tsx:287 | Callable while the pager is shown (pagination on and more than one page). The page becomes PrevPage of the old page, and the view stays valid. |
| DataTable.TableView.Next | src/components/ui/DataTable.tsx:299 | Callable while the pager is shown (pagination on and more than one page). The page becomes NextPage of the old page, and the view stays valid. |
| Auth.Merge | src/contexts/AuthContext.tsx:150 | Each supplied field wins, and each other field keeps the user's value. |
| Auth.MergeIdempotent | src/contexts/AuthContext.tsx:150 | Merging the same patch twice is merging it once. An empty patch changes nothing. |
| Auth.FindByEmail | src/contexts/AuthContext.tsx:62 | Found iff some stored user has the email. The result is the first such position. |
| Auth.FindById | src/contexts/AuthContext.tsx:153 | Found iff some stored user has the id. The result is the first such position. |
| Auth.UpdatedStore | src/contexts/AuthContext.tsx:153-156 | The entry with the current user's id is replaced. An absent id leaves the store untouched. |
| Auth.InitialIdsSequential | src/contexts/AuthContext.tsx:6-28 | The mock users have ids "1", "2" and "3" in order. |
| Auth.SequentialIdsDistinct | src/contexts/AuthContext.tsx:100 | Sequential ids are pairwise distinct. |
| Auth.SignupKeepsIdsSequential | src/contexts/AuthContext.tsx:99-109 | Appending the new user keeps ids sequential, and its id is fresh. |
| Auth.UpdateKeepsIdsSequential | src/contexts/AuthContext.tsx:150-156 | An update without an `id` field keeps ids sequential. |
| Auth.UpdateWithIdBreaksDistinctIds | src/contexts/AuthContext.tsx:150-155 | An update with `id: "2"` on user "1" leaves two entries with id "2". |
| Auth.AuthStore.constructor | src/contexts/AuthContext.tsx:6-34 | The mock users, no user, loading. |
| Auth.AuthStore.Restore | src/contexts/AuthContext.tsx:37-53 | A saved user becomes current. Loading ends and the store is untouched. |
| Auth.AuthStore.Login | src/contexts/AuthContext.tsx:55-85 | A known email makes the first matching user current, and the password is ignored. An unknown email gives "Invalid credentials" and leaves the user unchanged. The store never changes, and loading ends. |
| Auth.AuthStore.Signup | src/contexts/AuthContext.tsx:87-128 | A stored email gives "User already exists" with nothing changed. Otherwise exactly one user is appended, with id String(length+1), and made current. Sequential ids are kept, and loading ends. |
| Auth.AuthStore.Logout | src/contexts/AuthContext.tsx:130-137 | No user. The store and the loading flag are untouched. |
| Auth.AuthStore.UpdateProfile | src/contexts/AuthContext.tsx:139-178 | With no user, "User not logged in". Otherwise the merged user becomes current and replaces the stored entry with the same id. Loading ends. |
| SignupPage.SignupForm.constructor | src/pages/Signup.tsx:22-27 | Empty fields, customer preselected, not submitting, no error. |
| SignupPage.SignupForm.HandleSubmit | src/pages/Signup.tsx:32-67 | A password under 6 gives the length error without touching the store. A duplicate email shows "User already exists" and keeps the store's user. Success appends the user, makes it current and navigates to "/". Once the store is asked, its loading ends. Submission always ends. |
| Accessibility.Increase | src/contexts/AccessibilityContext.tsx:107-112 | normal→large→x-large. x-large and unrecognised values are kept. |
| Accessibility.Decrease | src/contexts/AccessibilityContext.tsx:119-124 | x-large→large→normal. normal and unrecognised values are kept. |
| Accessibility.StepsAreSaturating | src/contexts/AccessibilityContext.tsx:107-124 | On the three sizes, each step moves one level, saturates at the ends and stays a declared size. |
| Accessibility.IncreaseThenDecrease | src/contexts/AccessibilityContext.tsx:107-124 | Decrease undoes increase from normal or large but not from x-large, and symmetrically. |
| Accessibility.InitialFontSize | src/contexts/AccessibilityContext.tsx:35-38 | Absent or empty gives normal. Any other stored string is taken unchecked and encodes back to itself. |
| Accessibility.FontSizeRoundTrip | src/contexts/AccessibilityContext.tsx:35-65 | A stored size reads back as the same size. |
| Accessibility.ValidatedInitialFontSize | src/contexts/AccessibilityContext.tsx:35-38 | Corrected read: always a declared size, and garbage gives normal. |
| Accessibility.DecodeBool | src/contexts/AccessibilityContext.tsx:40-42 | A switch reads on iff the stored string is exactly "true". |
| Accessibility.BoolRoundTrip | src/contexts/AccessibilityContext.tsx:40-97 | Writing `b.toString()` and reading back with `=== 'true'` gives b. |
| Accessibility.InitialReduceMotion | src/contexts/AccessibilityContext.tsx:44-50 | A stored preference wins. Otherwise the media query decides. |
| Accessibility.Load | src/contexts/AccessibilityContext.tsx:35-58 | As written: the size is the unchecked stored string (normal when absent or empty), each switch is on iff "true" is stored, and a stored reduce-motion preference wins over the media query. |
| Accessibility.ValidatedLoad | src/contexts/AccessibilityContext.tsx:35-38 | Corrected start: always a declared size, garbage gives normal, and it equals Load exactly when Load's size is declared. |
| Accessibility.LoadPersist | src/contexts/AccessibilityContext.tsx:35-97 | The settings the effect writes read back unchanged at the next start, a garbage size such as "huge" included. |
| Accessibility.ValidatedLoadPersist | src/contexts/AccessibilityContext.tsx:35-97 | With the corrected start, declared sizes round-trip and a garbage size comes back as normal. |
| Accessibility.Settings.constructor | src/contexts/AccessibilityContext.tsx:35-58 | As written: the settings are Load of what is stored, an unchecked size included. |
| Accessibility.Settings.Validated | src/contexts/AccessibilityContext.tsx:35-58 | Corrected mount: the settings are ValidatedLoad of what is stored, so only a declared size is held. |
| Accessibility.Settings.IncreaseFontSize | src/contexts/AccessibilityContext.tsx:107-117 | The font size steps up, and a garbage size is kept. A declared size stays declared, and the four switches are unchanged. |
| Accessibility.Settings.DecreaseFontSize | src/contexts/AccessibilityContext.tsx:119-129 | The font size steps down, and a garbage size is kept. A declared size stays declared, and the four switches are unchanged. |
| Accessibility.Settings.ResetFontSize | src/contexts/AccessibilityContext.tsx:131-137 | normal from any size. The rest is unchanged. |
| Accessibility.Settings.ToggleHighContrast | src/contexts/AccessibilityContext.tsx:140-148 | Flips only high contrast. |
| Accessibility.Settings.ToggleReduceMotion | src/contexts/AccessibilityContext.tsx:150-158 | Flips only reduce motion. |
| Accessibility.Settings.ToggleScreenReaderCompatibility | src/contexts/AccessibilityContext.tsx:160-170 | Flips only screen-reader compatibility. |
| Accessibility.Settings.ToggleFocusIndicators | src/contexts/AccessibilityContext.tsx:172-182 | Flips only the focus indicators. |
| AccessibilityControls.EnabledIffEffective | src/components/ui/AccessibilityControls.tsx:74-99 | "Smaller" is disabled at normal, "Larger" at x-large, "Reset" at normal. On the declared sizes, each button is enabled iff pressing it changes the size. |
| AccessibilityControls.GarbageStoredSizeEnablesNoOps | src/components/ui/AccessibilityControls.tsx:78-87 | As written: a stored "huge" enables Smaller and Larger, yet neither changes the size. |
| AccessibilityControls.ValidatedStartKeepsButtonsEffective | src/components/ui/AccessibilityControls.tsx:74-99 | With the corrected start, after any presses, enabled iff effective for Smaller and Larger. |
| AccessibilityControls.PressesKeepRecognized | src/components/ui/AccessibilityControls.tsx:74-99 | Pressing buttons never leaves the three declared sizes. |
| AccessibilityControls.Panel.constructor | src/components/ui/AccessibilityControls.tsx:20 | The panel starts closed. |
| AccessibilityControls.Panel.Open | src/components/ui/AccessibilityControls.tsx:42 | The open button opens the panel. |
| AccessibilityControls.Panel.Close | src/components/ui/AccessibilityControls.tsx:59 | The close button closes the panel. |
| Notifications.MarkRead | src/components/notifications/NotificationsManager.tsx:76-79 | Entries with the id become read. Others, the length and the order are unchanged. |
| Notifications.MarkReadIdempotent | src/components/notifications/NotificationsManager.tsx:76-79 | Marking twice is marking once. |
| Notifications.MarkAllRead | src/components/notifications/NotificationsManager.tsx:86-87 | Every entry becomes read. The same entries stay otherwise unchanged, in order. |
| Notifications.Delete | src/components/notifications/NotificationsManager.tsx:94-95 | An order-preserving subsequence with no entry carrying the id. |
| Notifications.DeleteRemovesExactly | src/components/notifications/NotificationsManager.tsx:94-95 | Entries with the id have 0 copies left. Every other entry keeps all its copies. |
| Notifications.MarkAllHidesButton | src/components/notifications/NotificationsManager.tsx:121 | "Mark all as read" is shown iff some notification is unread. After mark-all, it is hidden. When nothing is unread, mark-all changes nothing. |
| Notifications.FormatTimestamp | src/components/notifications/NotificationsManager.tsx:102-112 | "{d}d ago" at one day or more, "{h}h ago" from one hour, else "{m}m ago", with floor divisions. |
| Notifications.Manager.constructor | src/components/notifications/NotificationsManager.tsx:32-57 | Three mock entries, ids "1" to "3". The first two are unread, so the button shows. |
| Notifications.Manager.MarkAsRead | src/components/notifications/NotificationsManager.tsx:76-84 | The list becomes MarkRead of the old list. |
| Notifications.Manager.MarkAllAsRead | src/components/notifications/NotificationsManager.tsx:86-92 | The list becomes MarkAllRead of the old list, and the button is hidden. |
| Notifications.Manager.DeleteNotification | src/components/notifications/NotificationsManager.tsx:94-100 | The list becomes Delete of the old list. |
| Transactions.FilterTransactions | src/pages/Transactions.tsx:90-99 | An order-preserving subsequence of entries that pass the type and status flags. |
| Transactions.FilterTransactionsMembers | src/pages/Transactions.tsx:92-96 | Kept iff not income with income hidden, not an expense with expenses hidden, and the status is ticked. A zero amount is never dropped by type. |
| Transactions.FilterTransactionsCount | src/pages/Transactions.tsx:92-96 | Every copy of a kept entry survives, and no copy of a dropped one. |
| Transactions.AllShownKeepsAll | src/pages/Transactions.tsx:58-66 | With the initial all-ticked filters, the list is unchanged. |
| Transactions.SumIncome | src/pages/Transactions.tsx:102-112 | Income is non-negative. |
| Transactions.SumExpense | src/pages/Transactions.tsx:102-112 | Expense is non-negative. |
| Transactions.NetIsSum | src/pages/Transactions.tsx:102-112 | income − expense equals the plain sum of the amounts. |
| Transactions.ComputeTotals | src/pages/Transactions.tsx:102-112 | The accumulating loop yields SumIncome and SumExpense. Both are ≥ 0, and their difference is the sum. |
| Transactions.TransactionsPage.constructor | src/pages/Transactions.tsx:56-66 | No transactions, loading, every box ticked. |
| Transactions.TransactionsPage.Loaded | src/pages/Transactions.tsx:68-87 | The fetched list is stored and loading ends. The filters are kept. |
| Transactions.TransactionsPage.SetShowIncome | src/pages/Transactions.tsx:212-215 | Only the income flag changes. |
| Transactions.TransactionsPage.SetShowExpense | src/pages/Transactions.tsx:222-225 | Only the expense flag changes. |
| Transactions.TransactionsPage.SetStatus | src/pages/Transactions.tsx:238-246 | Only that status's box changes. |
| Transactions.TransactionsPage.Totals | src/pages/Transactions.tsx:102-112 | The cards show the income, expense and net of the filtered list. |
| UsersManagement.FilteredUsers | src/pages/admin/UsersManagement.tsx:48-56 | An order-preserving subsequence of users that pass the search and role filters. |
| UsersManagement.FilteredUsersMembers | src/pages/admin/UsersManagement.tsx:49-55 | Kept iff (empty term, or the lower-cased name or email contains it) and (no role filter, or the role equals it). |
| UsersManagement.FilteredUsersCount | src/pages/admin/UsersManagement.tsx:49-55 | Every copy of a listed user survives, and no copy of a filtered-out one. |
| UsersManagement.NoFilterKeepsAll | src/pages/admin/UsersManagement.tsx:48-56 | An empty term and no role filter keep all users. |
| UsersManagement.Flip | src/pages/admin/UsersManagement.tsx:83 | `!isActive`: a flag is negated, and an absent flag becomes true. |
| UsersManagement.ToggleStatus | src/pages/admin/UsersManagement.tsx:79-85 | Nothing changes when the clicked user's flag is not boolean. Otherwise only entries with its id are flipped. |
| UsersManagement.ToggleTwiceRestores | src/pages/admin/UsersManagement.tsx:82-84 | Toggling the same user twice restores the list. |
| UsersManagement.UsersPage.constructor | src/pages/admin/UsersManagement.tsx:42-44 | No term, no role filter, the given users, and everyone listed. |
| UsersManagement.UsersPage.SetSearchTerm | src/pages/admin/UsersManagement.tsx:42 | Only the term changes. |
| UsersManagement.UsersPage.SetRoleFilter | src/pages/admin/UsersManagement.tsx:43 | Only the role filter changes. |
| UsersManagement.UsersPage.HandleToggleStatus | src/pages/admin/UsersManagement.tsx:79-85 | The users become ToggleStatus of the old list. |
| TeamMembers.FilteredTeamMembers | src/pages/sales/TeamMembers.tsx:99-104 | An order-preserving subsequence of members matching the term. |
| TeamMembers.FilteredTeamMembersMembers | src/pages/sales/TeamMembers.tsx:99-104 | Kept iff the term is empty or occurs, lower-cased, in the name, role or email. |
| TeamMembers.FilteredTeamMembersCount | src/pages/sales/TeamMembers.tsx:99-104 | Every copy of a matching member survives, and no copy of another. |
| TeamMembers.EmptyTermKeepsAll | src/pages/sales/TeamMembers.tsx:100 | An empty term keeps all members. |
| TeamMembers.PhoneIsNotSearched | src/pages/sales/TeamMembers.tsx:99-104 | Changing a member's phone never changes whether it is kept. |
| TeamMembers.Render | src/pages/sales/TeamMembers.tsx:150-155 | The single "No team members found" card iff nothing matched. |
| AIInsights.NewInsights | src/components/analytics/AIInsights.tsx:64-66 | A subsequence of the mock insights, none of whose ids is shown. |
| AIInsights.NewInsightsMembers | src/components/analytics/AIInsights.tsx:64-66 | A mock insight is new iff its id is not shown. |
| AIInsights.Generate | src/components/analytics/AIInsights.tsx:64-69 | The old list is a prefix. The new insights are appended, or nothing changes when there are none. |
| AIInsights.MockIdsDistinct | src/components/analytics/AIInsights.tsx:19-48 | The mock ids are distinct. |
| AIInsights.BoundedByMock | src/components/analytics/AIInsights.tsx:52-69 | A list of distinct mock insights has at most 4 entries. |
| AIInsights.NewInsightsDistinct | src/components/analytics/AIInsights.tsx:64-66 | The new insights have distinct ids. |
| AIInsights.GenerateKeepsInvariant | src/components/analytics/AIInsights.tsx:64-69 | Generating keeps ids distinct and entries from the mock list, and the length stays ≤ 4. |
| AIInsights.ShortListHasNew | src/components/analytics/AIInsights.tsx:64-68 | With fewer than 4 shown, some insight is new. |
| AIInsights.Panel.constructor | src/components/analytics/AIInsights.tsx:52-53 | The first two mock insights, not generating. |
| AIInsights.Panel.GenerateMoreInsights | src/components/analytics/AIInsights.tsx:56-88 | The button is disabled while generating or once the list holds all 4 mock insights. An enabled click appends the new insights and strictly grows the list, never past 4. Generating ends. |
| Dashboard.UpdateProgress | src/contexts/DashboardContext.tsx:93-96 | The matching objective gets current = v and its other fields are kept. Other objectives, the length and the id order are unchanged. |
| Dashboard.UnknownIdUnchanged | src/contexts/DashboardContext.tsx:94-96 | An unknown id leaves the list unchanged. |
| Dashboard.LastUpdateWins | src/contexts/DashboardContext.tsx:93-96 | Two updates of one id equal the second alone. The update is idempotent. |
| Dashboard.UpdatesCommute | src/contexts/DashboardContext.tsx:93-96 | Updates of different ids commute. |
| Dashboard.Provider.constructor | src/contexts/DashboardContext.tsx:45-83 | 'month', 'all', not dense, and the four sample objectives. |
| Dashboard.Provider.SetViewPeriod | src/contexts/DashboardContext.tsx:45 | Only the view period changes. |
| Dashboard.Provider.SetDataFilter | src/contexts/DashboardContext.tsx:46 | Only the data filter changes. |
| Dashboard.Provider.SetIsDenseView | src/contexts/DashboardContext.tsx:47 | Only the density changes. |
| Dashboard.Provider.UpdateObjectiveProgress | src/contexts/DashboardContext.tsx:93-102 | The objectives become UpdateProgress of the old ones, and the view controls are kept. |
| NotificationPreferences.InitialSwitches | src/components/settings/NotificationPreferences.tsx:24-55 | order-updates, billing-alerts and support-messages are on. product-updates and promotional are off. |
| NotificationPreferences.Toggle | src/components/settings/NotificationPreferences.tsx:57-62 | Only matching settings are flipped. Ids, titles, descriptions, length and order never change. |
| NotificationPreferences.ToggleTwiceRestores | src/components/settings/NotificationPreferences.tsx:57-62 | Toggling the same id twice restores the list. |
| NotificationPreferences.TogglesCommute | src/components/settings/NotificationPreferences.tsx:57-62 | Toggles of any two ids commute. |
| NotificationPreferences.Preferences.constructor | src/components/settings/NotificationPreferences.tsx:24-55 | The five initial settings. |
| NotificationPreferences.Preferences.HandleToggle | src/components/settings/NotificationPreferences.tsx:57-63 | The settings become Toggle of the old ones. |
| ErrorBoundary.PanelMessage | src/components/ui/ErrorBoundary.tsx:85 | The error's message when non-empty, else "An unexpected error occurred.". Never empty. |
| ErrorBoundary.Render | src/components/ui/ErrorBoundary.tsx:73-99 | The children iff there is no error. The fallback iff there is an error and the fallback is truthy. Otherwise the default panel with PanelMessage. |
| ErrorBoundary.DerivedStateFromError | src/components/ui/ErrorBoundary.tsx:38-40 | The flag is raised and the error recorded. |
| ErrorBoundary.CaughtErrorIsShown | src/components/ui/ErrorBoundary.tsx:38-85 | Without a fallback, a caught error shows its message, or the default text if the message is empty. |
| ErrorBoundary.Boundary.constructor | src/components/ui/ErrorBoundary.tsx:29-36 | No error, no error info. |
| ErrorBoundary.Boundary.ApplyDerivedState | src/components/ui/ErrorBoundary.tsx:38-40 | hasError is set and the error recorded. The error info is kept. |
| ErrorBoundary.Boundary.DidCatch | src/components/ui/ErrorBoundary.tsx:42-43 | The error info is recorded, and nothing else changes. |
| ErrorBoundary.Boundary.HandleReset | src/components/ui/ErrorBoundary.tsx:61-71 | All three fields are cleared. onReset is called iff it was provided. |
| ErrorBoundary.Boundary.Show | src/components/ui/ErrorBoundary.tsx:73-99 | Render of the current state: the children without an error, a non-empty panel message without a fallback. |
| ProductCategoryChart.Categories | src/components/dashboard/ProductCategoryChart.tsx:39-53 | The categories that get an own entry have no repeats, and none is an inherited `Object.prototype` name such as "toString" or "__proto__" (`!acc[category]` is false for those). |
| ProductCategoryChart.Slices | src/components/dashboard/ProductCategoryChart.tsx:39-53 | One slice per distinct non-inherited category, carrying its count and summed worth. |
| ProductCategoryChart.CategoriesMembers | src/components/dashboard/ProductCategoryChart.tsx:39-47 | A category has a slice iff some product carries it and it is not an inherited `Object.prototype` name. |
| ProductCategoryChart.CountsSumToLength | src/components/dashboard/ProductCategoryChart.tsx:39-51 | The counts over the categories sum to the number of products whose category is not an inherited name. |
| ProductCategoryChart.SlicesCountEveryProduct | src/components/dashboard/ProductCategoryChart.tsx:39-53 | The slice counts sum to the number of products with a non-inherited category, which is at most products.length, and equals it when no category is an inherited name. |
| ProductCategoryChart.CountedProductsAll | src/components/dashboard/ProductCategoryChart.tsx:39-51 | Every product is counted iff no product's category is an inherited name. |
| ProductCategoryChart.InheritedCategoryIsDropped | src/components/dashboard/ProductCategoryChart.tsx:39-53 | A single product in category "toString" yields no slice at all, so the counts sum to 0, not 1. |
| ProductCategoryChart.NonEmptyChart | src/components/dashboard/ProductCategoryChart.tsx:39-53 | The pie has a slice iff some product's category is not an inherited name. |
| ProductCategoryChart.GroupByCategory | src/components/dashboard/ProductCategoryChart.tsx:39-53 | The in-place accumulating loop, which creates no own entry for an inherited name, yields exactly Slices of the products. |
| ProductCategoryChart.Render | src/components/dashboard/ProductCategoryChart.tsx:12-53 | The loading card iff loading. "No product data available" iff not loading and products are missing or empty. Otherwise, and only then, the chart of the slices, which has a slice iff some category is not an inherited name. |
| OrderHistoryChart.MonthOrders | src/components/dashboard/OrderHistoryChart.tsx:38-41 | An order-preserving subsequence of orders inside the window. |
| OrderHistoryChart.MonthOrdersMembers | src/components/dashboard/OrderHistoryChart.tsx:35-41 | Counted iff start <= createdAt <= end, where end is 00:00 of the last day. |
| OrderHistoryChart.BucketOf | src/components/dashboard/OrderHistoryChart.tsx:34-50 | A bar's count and amount are the number and total of the window's orders. |
| OrderHistoryChart.Buckets | src/components/dashboard/OrderHistoryChart.tsx:31-50 | One bar per window, in chronological order. |
| OrderHistoryChart.ChartData | src/components/dashboard/OrderHistoryChart.tsx:26-56 | No orders gives []. 'desc' gives the chronological bars. Otherwise a permutation of them. |
| OrderHistoryChart.AscendingIsSorted | src/components/dashboard/OrderHistoryChart.tsx:53-55 | With six windows there are six bars, and 'asc' is nondecreasing by amount. |
| OrderHistoryChart.AscendingKeepsRisingMonths | src/components/dashboard/OrderHistoryChart.tsx:53-55 | When the chronological bars already rise, 'asc' and 'desc' agree. |
| OrderHistoryChart.BucketAmountBounded | src/components/dashboard/OrderHistoryChart.tsx:38-43 | With non-negative totals, a bar's amount is between 0 and the total of all orders. Its count is ≤ the number of orders. |
| OrderHistoryChart.ChartError | src/components/dashboard/OrderHistoryChart.tsx:68 | "No order data available" iff the orders are missing and not loading. |
| OrderHistoryChart.Chart.constructor | src/components/dashboard/OrderHistoryChart.tsx:11 | The sort order starts 'desc'. |
| OrderHistoryChart.Chart.ToggleSort | src/components/dashboard/OrderHistoryChart.tsx:17 | The button flips the sort order. |

## Left out

- Markup, CSS, icons and layout in every component. The render decisions are modelled as datatypes.
- Timers and async delays (`setTimeout`). Every operation is modelled as synchronous, and React effects as part of the setter that triggers them.
- Toasts, `console` logging and `reportPerformanceIssue` (including the >1000-row advisory). They are side effects with no state in the model.
- `localStorage`, `JSON.parse`, DOM `classList` and `matchMedia`. Only the encoding and decoding of stored values is modelled, and the media query is a parameter.
- `Date`, `Intl` formatting and `getLastMonths`. The current time, the age of a notification and the month windows come from the clock, so they are parameters.
- Floating point. Transaction amounts and order totals are integer cents, and objective figures are reals.
- Random mock generators (transactions, users). The generated lists are parameters.
- react-query hooks and the API stubs. Their `data`/`isLoading` results are parameters.
- Chart wrappers, the portal sidebars and the static display pages.
- DataTable.SortedData: `localeCompare` is replaced by code-point order, and columns of mixed kinds are ordered by a fixed kind rank rather than JavaScript's `<`/`>` coercion.
- DataTable.Stringify: numbers are integers, so `String` of fractions, `NaN` and objects is not modelled.
- DataTable.TableView.SetData: React compares the `data` prop by reference, and the model by value. A new array with equal contents resets the page in the source but not here.
- DataTable.TableView.constructor: requires a page size of at least 1. The source never changes `itemsPerPage`, and a size of 0 would divide by zero.
- `Lower` folds only ASCII letters. Unicode case mapping is not modelled.
- Auth.Merge: a patch field present with the value `undefined` overwrites in JavaScript. Here an absent field and an undefined one are the same.
- Auth.AuthStore.Restore: the saved session is taken already decoded. A corrupt entry, which the source removes, is `None` here.
- User `createdAt` and similar date fields are not modelled.
- SignupPage.SignupForm.HandleSubmit: the fallback message for non-`Error` throws is unreachable, because the store only fails with `Error`s. The password length is counted in characters, not UTF-16 code units.
- UsersManagement.UsersPage.SetRoleFilter: the role filter is a role or none. A non-role string, which would match nobody, is not modelled.
- ErrorBoundary: the `withToast` wrapper, `componentName` and `useComponentErrorBoundary` are only plumbing. The `onReset` callback is reported as a flag.
- ProductCategoryChart.Product: `price` and `inventory` are not fields of the product type, so a product's worth is an abstract integer. The runtime `NaN` is not reproduced.
- ProductCategoryChart.GroupByCategory: for a category named after an inherited `Object.prototype` property, the source adds to that inherited value (a function, giving a string or `NaN`, or for "__proto__" writing `value` and `count` onto `Object.prototype` itself). The model only records that such products get no slice, which Slices, CategoriesMembers, CountsSumToLength, SlicesCountEveryProduct and Render state.
- ProductCategoryChart.GroupByCategory: `Object.values` lists integer-like keys first, in numeric order. The model keeps first-occurrence order for all categories.
- Routes.Match: route matching is literal paths plus one segment after "/customers/". React Router's ranking, trailing-slash handling and its case-insensitive matching are not modelled; paths compare exactly.

## Findings

| source | as written | input that shows it | evidently intended | confidence | as-written member | corrected member |
|---|---|---|---|---|---|---|
| src/contexts/AccessibilityContext.tsx:35-38 | The stored font size is cast to the size type without a check, so any non-empty string enters state. | `localStorage['accessibility-font-size'] = "huge"`: Smaller and Larger are both enabled, and pressing either leaves "huge" in place. | Only 'normal', 'large' or 'x-large' is held. Anything else falls back to 'normal', so every enabled button changes the size. | not executed | AccessibilityControls.GarbageStoredSizeEnablesNoOps | AccessibilityControls.ValidatedStartKeepsButtonsEffective |
