# Book reader admin dashboard — a verified model of its client core

This project models, in Dafny, the client-side logic of the book reader admin
dashboard: the persisted session store (login, logout, identity re-check,
error clearing, the fields written to storage), the persisted theme store,
the endpoint paths and the books service's requests, the book moderation
list, the book detail screen, the categories screen with its validation
schema, the users screen's figures, the toast notifications, and the
data-fetching retry policy.

Modules follow the source files:

| module | file | source |
|---|---|---|
| `Common` | common.dfy | JavaScript truthiness, `${n}` rendering of integers, `filter` and `filter(...).length` |
| `Types` | types.dfy | src/types (users, books, categories) |
| `AuthStore` | auth_store.dfy | src/store/auth.store.ts |
| `ThemeStore` | theme_store.dfy | src/store/theme.store.ts |
| `ApiConfig` | api_config.dfy | src/config/api.config.ts |
| `BooksService` | books_service.dfy | src/services/books.service.ts |
| `BooksPage` | books_page.dfy | src/pages/BooksPage.tsx |
| `BookDetailPage` | book_detail_page.dfy | src/pages/BookDetailPage.tsx |
| `CategorySchema` | category_schema.dfy | src/features/categories/schemas/category.schema.ts |
| `CategoriesPage` | categories_page.dfy | src/pages/CategoriesPage.tsx |
| `UsersPage` | users_page.dfy | src/pages/UsersPage.tsx |
| `Toasts` | toast.dfy | src/components/ui/use-toast.tsx |
| `Swr` | swr.dfy | src/lib/swr.ts |

State that the source updates in place is a class: the two stores, the three
interactive pages and the toast provider. Each class exposes its fields as a
value (`State()`), and its methods are proved against pure functions of that
value (`AfterLogin`, `AfterToggleDarkMode`, `AfterDelete`, `Without`, …), about
which the lemmas are stated. Network answers, the current time and timer
expiry are parameters or explicit events. An asynchronous store action is
split into the update made before its request is awaited and the update made
when the answer arrives; `AuthStore.Run` replays any interleaving of these
halves, of logout (which the HTTP client also calls on any 401 answer) and of
restarts from storage, and the model proves that an authenticated session
always holds an admin identity along every such interleaving. The same
replay shows that a stale identity answer can authenticate a session that
was logged out meanwhile (see the findings below).

Where the code and its written description disagree, the model follows the code:

- `rejectBook` with an empty reason sends `rejection_reason: ""`; only an
  undefined reason is dropped from the JSON body.
- `logout` and `checkAuth` test the token for truthiness, so an empty token
  behaves as no token at all (no request is sent).
- The books list page works on a fixed in-memory list; it neither fetches
  nor paginates through the service, and its per-status counts are taken over
  that whole list.
- The book detail page posts to the approve and reject paths, while the books
  service puts to the same paths (`BookDetailPage.PageAndServiceDifferInMethod`).
  Both are modelled as written.

## Model

| member | source | states |
|---|---|---|
| Common.NatToDecimal | src/components/ui/use-toast.tsx:24 | a counter value renders as a non-empty string of decimal digits, one digit exactly below ten |
| Common.IntToDecimal | src/config/api.config.ts:15 | an id renders as a non-empty string that starts with a minus sign exactly for a negative id |
| Common.NatToDecimalInjective | src/components/ui/use-toast.tsx:24 | distinct counter values never render to the same id |
| Common.IntToDecimalInjective | src/config/api.config.ts:15-30 | distinct ids never render to the same path segment |
| Common.Filter | src/pages/BooksPage.tsx:221 | `filter` keeps exactly the elements satisfying the predicate and never lengthens the list |
| Common.FilterConcat | src/components/ui/use-toast.tsx:34 | filtering distributes over concatenation, so the kept elements stay in order |
| Common.FilterDropsOne | src/pages/CategoriesPage.tsx:96 | a filter that rejects exactly one element removes that element and keeps the others in order |
| Common.Count | src/pages/BooksPage.tsx:339 | a `filter(...).length` count never exceeds the list length |
| Common.CountComplement | src/pages/UsersPage.tsx:121-122 | the count of a predicate and of its negation add up to the list length |
| Common.CountUpdate | src/pages/BooksPage.tsx:223-233 | replacing one element changes a count by exactly the old and new element's contributions |
| Types.StatusName | src/types/book.types.ts:5 | every status has a non-empty wire spelling |
| Types.StatusNameInjective | src/types/book.types.ts:5 | distinct statuses have distinct spellings |
| AuthStore.LoginThrown | src/store/auth.store.ts:38-65 | login rethrows nothing exactly when the answer carries an admin; a non-admin becomes the access-denied error, a failed request rethrows its own exception |
| AuthStore.ErrorMessage | src/store/auth.store.ts:53-56 | an `Error`'s own message is stored, any other thrown value gives the fixed login-failed text |
| AuthStore.LoginStarted | src/store/auth.store.ts:31 | before the request is awaited the store is loading with no error, and token, user and flag are kept |
| AuthStore.LoginSettled | src/store/auth.store.ts:38-66 | the answer authenticates exactly an admin, with its token and user; any failure clears token and user and stores a message; loading ends and the session is admin-only whatever it was |
| AuthStore.AfterLogin | src/store/auth.store.ts:30-67 | after login the session is authenticated exactly when the answer carries an admin; each failure clears token and user and stores the matching message; loading is over |
| AuthStore.LoginForgetsPriorSession | src/store/auth.store.ts:45-64 | the session after login does not depend on the session before it |
| AuthStore.AfterLogout | src/store/auth.store.ts:79-85 | logout clears every field |
| AuthStore.LogoutSendsRequest | src/store/auth.store.ts:70-77 | the backend is notified exactly when a non-empty token is held |
| AuthStore.LogoutIdempotent | src/store/auth.store.ts:69-86 | logging out twice equals logging out once, and the second logout sends nothing |
| AuthStore.AfterCheckAuth | src/store/auth.store.ts:88-121 | without a token only the flag drops; an admin identity is stored; any other answer clears token and user; the error field is never touched |
| AuthStore.CheckAuthSendsRequest | src/store/auth.store.ts:89-100 | the identity request goes out exactly when a non-empty token is held |
| AuthStore.CheckAuthStarted | src/store/auth.store.ts:89-96 | without a truthy token only the flag drops; with one the store starts loading; token, user and error are kept |
| AuthStore.CheckAuthSettled | src/store/auth.store.ts:98-120 | the answer authenticates exactly an admin, keeping whatever token is held; anything else clears token and user; loading ends and the error is untouched |
| AuthStore.AfterClearError | src/store/auth.store.ts:123-125 | only the error is cleared |
| AuthStore.Partialize | src/store/auth.store.ts:129-133 | storage receives token, user and the authenticated flag |
| AuthStore.Rehydrate | src/store/auth.store.ts:22-28 | a restart restores the stored fields over the initial state: not loading, no error |
| AuthStore.ReloadKeepsOnlyPersistedFields | src/store/auth.store.ts:127-134 | a restart keeps exactly the persisted fields and resets loading and error |
| AuthStore.Apply | src/store/auth.store.ts:30-134 | every single step, including each half of an action and a restart, keeps "authenticated implies admin"; a logout step leaves the initial session; a restart keeps the persisted fields and clears loading and error |
| AuthStore.Run | src/store/auth.store.ts:30-134 | replaying steps in order: no steps change nothing, a final logout leaves the initial session, a final restart leaves no load and no error |
| AuthStore.RunKeepsAdminOnly | src/store/auth.store.ts:30-125 | any interleaving of steps keeps "authenticated implies admin" |
| AuthStore.EveryReachableSessionIsAdminOnly | src/store/auth.store.ts:21-136 | every session reachable from the initial one satisfies "authenticated implies admin" |
| AuthStore.StaleCheckAuthAuthenticatesWithoutToken | src/store/auth.store.ts:88-121 | as written, a re-check awaiting its answer across a logout ends authenticated with no token |
| AuthStore.CheckAuthSettledGuarded | src/store/auth.store.ts:108-112 | the corrected settle drops an answer that arrives after the token was cleared, and otherwise settles as written |
| AuthStore.ApplyGuarded | src/store/auth.store.ts:30-134 | with the corrected settle, every step keeps both "authenticated implies admin" and "authenticated implies a token is held" |
| AuthStore.GuardedRunKeepsTokenBacked | src/store/auth.store.ts:30-134 | with the corrected settle, any interleaving keeps both invariants |
| AuthStore.Store.constructor | src/store/auth.store.ts:24-28 | the store starts logged out, idle and without error |
| AuthStore.Store.Rehydrated | src/store/auth.store.ts:127-134 | the store rebuilt from storage is the rehydrated session |
| AuthStore.Store.Login | src/store/auth.store.ts:30-67 | login leaves the state `AfterLogin` describes and rethrows what `LoginThrown` describes |
| AuthStore.Store.Logout | src/store/auth.store.ts:69-86 | logout leaves the cleared state and reports whether the backend was notified |
| AuthStore.Store.CheckAuth | src/store/auth.store.ts:88-121 | the re-check leaves the state `AfterCheckAuth` describes and reports whether it asked the backend |
| AuthStore.Store.ClearError | src/store/auth.store.ts:123-125 | only the error field changes |
| AuthStore.Store.Persist | src/store/auth.store.ts:129-133 | storage receives token, user and flag, and a restart from it restores the session without loading or error |
| ThemeStore.FindIndex | src/store/theme.store.ts:95 | the index found is the first satisfying the predicate, or the length when none does |
| ThemeStore.Find | src/store/theme.store.ts:95 | `find` yields the first element in list order satisfying the predicate, or nothing exactly when none does |
| ThemeStore.Lookup | src/store/theme.store.ts:77 | a name lookup yields the first theme in list order with that name, or nothing exactly when no theme has it |
| ThemeStore.FirstOfType | src/store/theme.store.ts:95 | the toggle's target is the first theme in list order of the requested type, or nothing exactly when no theme has it |
| ThemeStore.Opposite | src/store/theme.store.ts:94 | the target type differs from the current one |
| ThemeStore.InitialState | src/store/theme.store.ts:73-74 | the store starts on "light" with its looked-up definition |
| ThemeStore.AfterSetTheme | src/store/theme.store.ts:76-82 | a known name selects that theme with its definition; an unknown name changes nothing |
| ThemeStore.ThemeTypeOf | src/store/theme.store.ts:84-87 | the theme type is the definition's type, light without a definition |
| ThemeStore.AfterToggleDarkMode | src/store/theme.store.ts:89-101 | toggling moves to the first theme of the opposite type when there is one, and otherwise changes nothing |
| ThemeStore.ToggleTwice | src/store/theme.store.ts:89-101 | toggling twice lands on the first theme of the original type |
| ThemeStore.ToggleKeepsConsistent | src/store/theme.store.ts:89-101 | with unique names, toggling keeps name and definition paired |
| ThemeStore.Partialize | src/store/theme.store.ts:105 | only the selected name is stored |
| ThemeStore.PartializeForgetsDefinition | src/store/theme.store.ts:105 | states differing only in their definition store the same |
| ThemeStore.Rehydrate | src/store/theme.store.ts:103-115 | a restart keeps the stored name and recomputes the definition only for a non-empty known name |
| ThemeStore.PersistRoundTrip | src/store/theme.store.ts:103-115 | storing then restarting restores a consistent selected theme |
| ThemeStore.RehydrateUnknownName | src/store/theme.store.ts:106-115 | a stored name that is no longer in the list leaves name and definition disagreeing |
| ThemeStore.Store.constructor | src/store/theme.store.ts:72-74 | the store starts in the initial state |
| ThemeStore.Store.Rehydrated | src/store/theme.store.ts:103-115 | the store rebuilt from storage is the rehydrated state |
| ThemeStore.Store.SetTheme | src/store/theme.store.ts:76-82 | setTheme leaves the state `AfterSetTheme` describes |
| ThemeStore.Store.GetThemeType | src/store/theme.store.ts:84-87 | the current definition's type, light without a definition |
| ThemeStore.Store.ToggleDarkMode | src/store/theme.store.ts:89-101 | toggleDarkMode leaves the state `AfterToggleDarkMode` describes |
| ThemeStore.Store.Persist | src/store/theme.store.ts:103-115 | storage receives the name, and a restart from it restores a consistent selected theme |
| ApiConfig.BaseUrl | src/config/api.config.ts:2 | the base URL is the configured value when non-empty, otherwise the local default |
| ApiConfig.FixedEndpointsDistinct | src/config/api.config.ts:4-31 | the auth paths are distinct and under "/auth/"; the dashboard and list paths are distinct and under "/admin/" |
| ApiConfig.BookPathsShareDetail | src/config/api.config.ts:13-20 | update and delete use the detail path; approve, reject and restore extend it by one segment |
| ApiConfig.CategoryPathsShareList | src/config/api.config.ts:22-27 | create uses the list path; detail, update and delete are the list path plus the id |
| ApiConfig.UserPathExtendsList | src/config/api.config.ts:29-30 | a user's path is the list path plus the id |
| ApiConfig.PathsInjective | src/config/api.config.ts:15-30 | distinct ids give distinct paths for every path builder |
| BooksService.FilterEntries | src/services/books.service.ts:27-41 | the five guarded keys are distinct and in listing order |
| BooksService.ValueOfIsFirstMatch | src/services/books.service.ts:25-44 | `URLSearchParams.get`: the value of the first pair with the key, and nothing exactly when no pair has it |
| BooksService.AppendIfSet | src/services/books.service.ts:27-41 | one guarded append: the pair is added at the end when the value is set, and the parameters are unchanged otherwise |
| BooksService.GuardedBack | src/services/books.service.ts:27-41 | after one more guarded append a key reads its earlier value if it had one, otherwise the appended value when the key matches |
| BooksService.QueryOfExtends | src/services/books.service.ts:27-41 | running one more guarded append extends the query by that entry's pair, if any |
| BooksService.QueryOfFive | src/services/books.service.ts:27-41 | five guarded appends give the five guarded pairs, left to right |
| BooksService.ListingQuery | src/services/books.service.ts:25-44 | the listing query has at least one pair and ends with the include pair |
| BooksService.QueryOfValue | src/services/books.service.ts:25-41 | with distinct keys, every key reads back the value its guarded append was given, or nothing |
| BooksService.QueryOfOrder | src/services/books.service.ts:25-41 | guarded appends in increasing key order give a query in that order |
| BooksService.AppendInOrder | src/services/books.service.ts:44 | appending the next key keeps the order and sets only that key |
| BooksService.ListingIsQueryOf | src/services/books.service.ts:25-44 | the listing query is the guarded query of the five filter entries followed by the include pair |
| BooksService.ListingQueryReadsBack | src/services/books.service.ts:25-44 | the listing query reads back each truthy filter's value under its key and nothing for an unset one, keys in listing order, with the include pair last |
| BooksService.GetBooksRequest | src/services/books.service.ts:22-51 | the listing is a GET on the list path with no body whose query is the listing query of the filters; no filters gives only the include pair |
| BooksService.GetBookRequest | src/services/books.service.ts:56-61 | a body-less GET on the book's detail path |
| BooksService.ApproveBookRequest | src/services/books.service.ts:66-71 | a PUT on the detail path plus "/approve", with no query and no body |
| BooksService.RejectBody | src/services/books.service.ts:80-83 | an undefined reason leaves an empty body; any given reason, empty included, is the single field |
| BooksService.RejectBodyReadsBack | src/services/books.service.ts:80-83 | the body's reason field reads back exactly the reason given |
| BooksService.RejectBookRequest | src/services/books.service.ts:76-85 | a PUT on the detail path plus "/reject", with no query, carrying that body |
| BooksService.DeleteBookRequest | src/services/books.service.ts:90-92 | a DELETE on the detail path with no query and no body |
| BooksService.UpdateBookRequest | src/services/books.service.ts:97-106 | a PUT on the detail path with no query, carrying the caller's fields |
| BooksPage.Visible | src/pages/BooksPage.tsx:219-221 | "all" shows the list; a status shows exactly the books with it, as many as its count |
| BooksPage.CountStatus | src/pages/BooksPage.tsx:339 | a button's count never exceeds the list |
| BooksPage.CountsAddUp | src/pages/BooksPage.tsx:328-339 | the three status counts add up to the list length |
| BooksPage.WithStatus | src/pages/BooksPage.tsx:223-233 | moderation changes the status of the books with the id and nothing else |
| BooksPage.AfterApprove | src/pages/BooksPage.tsx:223-227 | approving keeps the length and every id |
| BooksPage.AfterReject | src/pages/BooksPage.tsx:229-233 | rejecting keeps the length and every id |
| BooksPage.ModerationIsIdempotent | src/pages/BooksPage.tsx:223-233 | moderating twice equals moderating once |
| BooksPage.WithStatusAtIndex | src/pages/BooksPage.tsx:223-233 | with unique ids, moderating replaces exactly one entry |
| BooksPage.ModerationMovesOne | src/pages/BooksPage.tsx:223-233 | moderating a book whose menu offers the actions (a pending one) moves one unit from the pending count to the target count and leaves the third |
| BooksPage.RowActions | src/pages/BooksPage.tsx:285-302 | a row's menu always offers the details link first, and offers Approve and Reject exactly for a pending book |
| BooksPage.HandlersIgnoreTheGuard | src/pages/BooksPage.tsx:223-233 | the handlers do not check the status: on a book that is not pending they still set the new status; only the menu guards them |
| BooksPage.MockBooksShape | src/pages/BooksPage.tsx:25-207 | ten books with ids 1 to 10; eight approved, "React Design Patterns" pending, the last rejected |
| BooksPage.AllApprovedCounts | src/pages/BooksPage.tsx:339 | a list of approved books counts all of them as approved and none as pending or rejected |
| BooksPage.PendingThenRejectedCounts | src/pages/BooksPage.tsx:339 | one pending then one rejected book count one each and none approved |
| BooksPage.CountsOfSeededShape | src/pages/BooksPage.tsx:25-207 | any list of that shape counts 1 pending, 8 approved, 1 rejected |
| BooksPage.MockBooksCounts | src/pages/BooksPage.tsx:25-207 | the seeded counts are 1 pending, 8 approved, 1 rejected |
| BooksPage.Page.constructor | src/pages/BooksPage.tsx:216-217 | the page starts on "all" with the seeded list |
| BooksPage.Page.SetStatusFilter | src/pages/BooksPage.tsx:332 | choosing a filter changes only the filter |
| BooksPage.Page.FilteredBooks | src/pages/BooksPage.tsx:219-221 | the rows are the whole list under "all", otherwise exactly the books with the chosen status |
| BooksPage.Page.StatusCount | src/pages/BooksPage.tsx:339 | a button's count is over the whole list, and equals the row count when that status is the filter |
| BooksPage.Page.HandleApprove | src/pages/BooksPage.tsx:223-227 | the list becomes `AfterApprove` of the old one |
| BooksPage.Page.HandleReject | src/pages/BooksPage.tsx:229-233 | the list becomes `AfterReject` of the old one |
| BookDetailPage.FetchKey | src/pages/BookDetailPage.tsx:26-28 | no fetch without a route id; otherwise the detail path of that id |
| BookDetailPage.HandlerRequest | src/pages/BookDetailPage.tsx:32-56 | no request without a book; otherwise a body-less POST on its approve or reject path |
| BookDetailPage.PageAndServiceDifferInMethod | src/pages/BookDetailPage.tsx:36-49 | the page and the service use the same paths, the page with POST and the service with PUT |
| BookDetailPage.PanelFor | src/pages/BookDetailPage.tsx:172-204 | buttons exactly for a pending book, disabled while updating; otherwise the "already been" note |
| BookDetailPage.SelectView | src/pages/BookDetailPage.tsx:58-77 | loading wins, then an error or a missing book shows "not found", otherwise the details |
| BookDetailPage.FailureLog | src/pages/BookDetailPage.tsx:40-52 | the console message names the failed action: approve or reject |
| BookDetailPage.Page.constructor | src/pages/BookDetailPage.tsx:22-28 | loading exactly when there is a route id; not updating |
| BookDetailPage.Page.FetchSettled | src/pages/BookDetailPage.tsx:26-30 | the fetch result becomes the book, or the error |
| BookDetailPage.Page.StartModeration | src/pages/BookDetailPage.tsx:32-36 | the handler's request is issued and the page is updating, unless there is no book; book, fetch flags, revalidations and log stay |
| BookDetailPage.Page.ModerationSettled | src/pages/BookDetailPage.tsx:36-55 | success revalidates, failure logs its message; either way updating ends, and book and fetch flags stay |
| BookDetailPage.Page.CurrentView | src/pages/BookDetailPage.tsx:58-77 | loading wins, then "not found", then the details of the current book with buttons exactly for a pending book, disabled while updating |
| CategorySchema.Issues | src/features/categories/schemas/category.schema.ts:3-9 | no issue exactly for 2 to 50 characters; the empty name fails both minimums, in order |
| CategorySchema.FirstError | src/features/categories/schemas/category.schema.ts:3-9 | the shown error: required, too short or too long, and none exactly for 2 to 50 characters |
| CategorySchema.OnlyLengthMatters | src/features/categories/schemas/category.schema.ts:3-9 | validation depends on the length only |
| CategoriesPage.InitialCategoriesShape | src/pages/CategoriesPage.tsx:25-43 | seventeen seeded categories with ids 1 to 17 |
| CategoriesPage.Max | src/pages/CategoriesPage.tsx:74 | the maximum is an element at least as large as every element |
| CategoriesPage.SpreadMaxPlusOne | src/pages/CategoriesPage.tsx:74 | as written, the new id is not a number exactly on an empty list, and otherwise exceeds every id |
| CategoriesPage.EmptyListGivesNoId | src/pages/CategoriesPage.tsx:74 | as written, a new category on an empty list gets negative infinity as its id |
| CategoriesPage.NextId | src/pages/CategoriesPage.tsx:74 | a new id exceeds every existing id, agrees with the page on a non-empty list, and is 1 on an empty one |
| CategoriesPage.AfterCreate | src/pages/CategoriesPage.tsx:72-80 | create appends one category with a fresh id (the corrected one, `NextId`), the name, no books and the timestamp, and keeps ids unique |
| CategoriesPage.AfterRename | src/pages/CategoriesPage.tsx:66-71 | rename changes the name and update time of the edited id only and keeps every id |
| CategoriesPage.AfterDelete | src/pages/CategoriesPage.tsx:95-97 | delete keeps exactly the categories with another id, never lengthening the list |
| CategoriesPage.DeleteKeepsOrder | src/pages/CategoriesPage.tsx:96 | deleting from a concatenation deletes from each part, so the remaining categories keep their order |
| CategoriesPage.DeleteRemovesOne | src/pages/CategoriesPage.tsx:95-97 | with unique ids, deleting a category's id removes exactly that entry and keeps the rest in order |
| CategoriesPage.DeleteAbsentIdIsNoOp | src/pages/CategoriesPage.tsx:95-97 | deleting an absent id changes nothing |
| CategoriesPage.DeleteKeepsUniqueIds | src/pages/CategoriesPage.tsx:95-97 | delete keeps ids unique |
| CategoriesPage.Page.constructor | src/pages/CategoriesPage.tsx:46-49 | the page starts with the seeded list, form closed, nothing edited |
| CategoriesPage.Page.OpenForm | src/pages/CategoriesPage.tsx:113 | the add button only opens the form |
| CategoriesPage.Page.HandleEdit | src/pages/CategoriesPage.tsx:89-93 | editing records the category and opens the form |
| CategoriesPage.Page.HandleCancel | src/pages/CategoriesPage.tsx:99-103 | cancel forgets the edited category and closes the form |
| CategoriesPage.Page.HandleDelete | src/pages/CategoriesPage.tsx:95-97 | the list becomes `AfterDelete` of the old one, ids stay unique |
| CategoriesPage.Page.OnSubmit | src/pages/CategoriesPage.tsx:60-87 | a valid submission renames the edited category or creates one, then resets the form |
| CategoriesPage.Page.Submit | src/pages/CategoriesPage.tsx:127-137 | an invalid name shows the schema's first error and changes nothing; a valid one is submitted |
| UsersPage.VerifiedCount | src/pages/UsersPage.tsx:121 | the verified figure is at most the total, and equals it exactly when every user is verified |
| UsersPage.AdminCount | src/pages/UsersPage.tsx:122 | the admin figure is at most the total, and equals it exactly when every user is an admin |
| UsersPage.FiguresSplitTheList | src/pages/UsersPage.tsx:121-122 | verified plus unverified, and admins plus plain users, each make the total |
| UsersPage.OneAdminFirst | src/pages/UsersPage.tsx:122 | an admin first and only plain users after it give an admin figure of one |
| UsersPage.OneUnverified | src/pages/UsersPage.tsx:121 | with exactly one unverified user the verified figure is the total minus one |
| UsersPage.AllVerified | src/pages/UsersPage.tsx:121 | a list of verified users has no unverified user |
| UsersPage.FiguresOfSeededShape | src/pages/UsersPage.tsx:16-62 | a list shaped like the seeded one has 4 verified users and 1 admin |
| UsersPage.MockUsersFigures | src/pages/UsersPage.tsx:16-62 | the seeded list has 5 users, 4 verified, 1 admin |
| Toasts.WithId | src/components/ui/use-toast.tsx:25 | the stored toast keeps the caller's title, description and variant and gets the id |
| Toasts.Without | src/components/ui/use-toast.tsx:33-35 | dismissal keeps exactly the toasts with another id |
| Toasts.DismissUnknownIsNoOp | src/components/ui/use-toast.tsx:33-35 | dismissing an unknown id changes nothing |
| Toasts.DismissIdempotent | src/components/ui/use-toast.tsx:28-35 | dismissing twice, by hand or by timer, equals dismissing once |
| Toasts.DismissKeepsOrder | src/components/ui/use-toast.tsx:33-35 | dismissal keeps the remaining toasts in order |
| Toasts.DismissRemovesOne | src/components/ui/use-toast.tsx:33-35 | with unique ids, dismissal removes exactly the one toast |
| Toasts.DismissKeepsUniqueIds | src/components/ui/use-toast.tsx:33-35 | dismissal keeps ids unique |
| Toasts.NextIdIsFresh | src/components/ui/use-toast.tsx:18-24 | the next counter value gives an id never issued before |
| Toasts.ViewOf | src/components/ui/use-toast.tsx:56-85 | a toast shows its title and description only when truthy, and destructive styling only for that variant |
| Toasts.Container | src/components/ui/use-toast.tsx:52-86 | nothing is rendered exactly for an empty list; otherwise one view per toast, in order |
| Toasts.UseToast | src/components/ui/use-toast.tsx:91-97 | outside a provider the hook throws its message; inside it returns the context |
| Toasts.Provider.constructor | src/components/ui/use-toast.tsx:18-21 | a provider starts with no toasts and no timers, the counter where it stands |
| Toasts.Provider.Show | src/components/ui/use-toast.tsx:23-31 | the counter goes up by one, one toast with the new id is appended, its dismissal is scheduled, and the id is fresh |
| Toasts.Provider.Dismiss | src/components/ui/use-toast.tsx:33-35 | the list becomes `Without` of the old one; timers stay |
| Toasts.Provider.TimerFires | src/components/ui/use-toast.tsx:28-30 | the earliest timer dismisses its toast exactly as `Dismiss` would |
| Toasts.Provider.Render | src/components/ui/use-toast.tsx:40 | nothing is rendered exactly without toasts; otherwise one view per toast, in order |
| Swr.StatusOf | src/lib/swr.ts:19 | a status is read only through an error with a response |
| Swr.ShouldRetryOnError | src/lib/swr.ts:17-23 | no retry exactly for status 401 or 403 |
| Swr.NoResponseIsRetried | src/lib/swr.ts:17-23 | a failure without a response or status is retried |

## Left out

- Rendering: JSX layout, icons, class names and colours, and the theme's CSS
  variables and `dark` class (`applyTheme`); only what decides which view or
  which element is shown is modelled.
- The theme list itself (src/config/themes.config.ts is not part of this
  model): it is a parameter, and `getThemeByName` is taken to return the first
  theme with the name.
- The HTTP client: base URL use, headers, the 30-second timeout, the bearer
  token header and the 403 console message are left out; its 401 handling
  appears only as a `Logout` step in `AuthStore.Run`, and the redirect to the
  login page is left out.
- The wire format: query strings are ordered key/value lists without
  percent-encoding, and JSON bodies are lists of serialised fields.
- BooksService.UpdateBookRequest: the partial book is taken as its already
  serialised fields.
- The service calls' awaiting of the response: each returns its envelope's
  `data` field, which is not a separate operation here.
- Timers and delays: the categories page's 500 ms simulated delay and the
  toast's five-second timer are not timed; the delay is folded into
  `OnSubmit`, and the timer is the event `TimerFires`.
- CategoriesPage.Page.OnSubmit: the transient `isSubmitting` during the delay
  is not observable in the model, and creation reads the list as it stands
  when the delay ends rather than as captured when the submission started.
  Creation uses the corrected id of the finding below (`NextId`, 1 on an
  empty list), not the page's negative infinity.
- CategoriesPage.AfterCreate: the creation and update timestamps are one
  input, where the page reads the clock twice. The id is the corrected one of
  the finding below (`NextId`); as written, every creation on an emptied list
  gets negative infinity, so a second one duplicates the id, and ids stay
  unique only with the correction.
- The form library: the schema is applied to the submitted string directly;
  lengths are counted in characters, not UTF-16 code units.
- BookDetailPage.FetchKey: the route parameter is taken as already parsed;
  `Number()` parsing and NaN are left out.
- Numbers are unbounded integers: formatting of numbers beyond the safe
  integer range and non-integer numbers are left out.
- The embedded `category` and `submitted_by` records of a book, and the
  paginated payload's contents, are not modelled.
- Client-side table pagination (a library not part of this model), the
  dashboard page, the navigation configuration and the settings page.
- The SWR library's own behaviour (deduplication, revalidation, retry
  scheduling): only its settings and the retry predicate are modelled.
- Toasts.Provider: the module-level counter is a field of the provider, and a
  provider is created with the counter's current value.

## Findings

| source | as written | input that shows it | evidently intended | confidence | as-written member | corrected member |
|---|---|---|---|---|---|---|
| src/pages/CategoriesPage.tsx:74 | the new id is `Math.max(...ids) + 1`, and `Math.max()` of no ids is negative infinity | delete all 17 categories, then create one: its id is negative infinity, and a second creation gets the same id | the first category of an empty list gets id 1 | high (not executed) | CategoriesPage.EmptyListGivesNoId | CategoriesPage.NextId |
| src/store/auth.store.ts:108-112 | an identity answer is stored whenever it arrives, even after the session was logged out while it was awaited | a held token, `checkAuth` starts, `logout` runs (by the user or on a 401), then an admin answer arrives: authenticated with no token | an answer that arrives after the token was cleared is dropped | medium (not executed) | AuthStore.StaleCheckAuthAuthenticatesWithoutToken | AuthStore.CheckAuthSettledGuarded |

The session store's class performs `checkAuth` in one step, so no stale
answer can reach it. The replay `AuthStore.Run` keeps the settle as written,
because "authenticated implies admin" holds either way; `AuthStore.RunGuarded`
is the same replay with the corrected settle.
