# Stock storefront client state, modelled in Dafny

This project models the client-side state handling of a React storefront for
stock instruments. The model covers:

- a durable cart store (an IndexedDB object store keyed by `id`);
- the cart provider, which keeps an in-memory list of cart lines and writes each
  change through to the store;
- the session provider, which holds a token and a logged-in flag, mirrors them
  in per-tab session storage, and broadcasts LOGIN/LOGOUT to other tabs;
- the reconnect policy of the WebSocket hook;
- the generic data table: sorting, search, paging, row selection and column
  visibility;
- the ticker list page: skip paging, search, the date-range guard and the cart
  button;
- the cart page: totals, quantity buttons and checkout details;
- the order confirmation modal;
- the route guard;
- the interval and URL rules of the order-history page.

Each source file is one Dafny module:

| module | file | source |
|---|---|---|
| `Common` | `common.dfy` | JavaScript built-ins the source relies on |
| `CartStore` | `indexed_db.dfy` | `src/utilis/indexedDB.js` |
| `CartContext` | `cart_context.dfy` | `src/context/CartContext.jsx` |
| `AuthContext` | `auth_context.dfy` | `src/context/AuthContext.jsx` |
| `WebSocketHook` | `use_websocket.dfy` | `src/hooks/useWebSocket.js` |
| `Table` | `table.dfy` | `src/components/ui/Table.jsx` |
| `ListPage` | `list_page.dfy` | `src/pages/List.jsx` |
| `CartPage` | `cart_page.dfy` | `src/pages/Cart.jsx` |
| `ConfirmationModal` | `confirmation_modal.dfy` | `src/components/cart/ConfirmationModal.jsx` |
| `ProtectedRoute` | `protected_route.dfy` | `src/components/protectedRoute/ProtectedRoute.jsx` |
| `OrderList` | `order_list.dfy` | `src/pages/OrderList.jsx` |

The JavaScript built-ins in `Common` are:

- truthiness of an optional string;
- ASCII `toLowerCase`;
- `includes`;
- `String(n)` for integers;
- lexicographic `<` on strings, compared by code point.

Code that changes state in place is modelled as classes with `modifies`
clauses. That means:

- the object store;
- the cart and session providers;
- the hook's refs and state;
- the table's and list page's state;
- the modal.

Each class method is specified against a pure function of the old state. The
properties the source promises are lemmas about those functions. Code that
only computes (the updaters, sort, filter, paging arithmetic, the route guard)
is modelled as functions and lemmas. Each asynchronous cart or session
operation is treated as atomic: the in-memory update, then the store write.

Several behaviours of the code are worth knowing when reading the model. Each
is stated by a lemma:

- **`addToCart` persists quantity 1.** It writes `{...item, quantity: 1}` to
  the store even when the in-memory line was incremented. Memory and store
  therefore diverge after adding an item already in the cart
  (`CartContext.AddExistingBreaksMirror`).
- **An empty token survives logout.** The `logout` guard tests truthiness, not
  `null`. A tab holding the empty token stays logged in through `logout()` and
  through an inbound LOGOUT (`AuthContext.EmptyTokenSurvivesLogout`).
- **Inbound LOGOUT re-broadcasts.** Its handler calls `logout()`, which posts
  LOGOUT again. The echo still stops after one hop
  (`AuthContext.LogoutEchoStops`).
- **The cleanup cancels no timer.** It calls `close()` on the current socket.
  If that socket is still live, its `onclose` schedules a reconnect while
  attempts remain, and that timer opens a new socket after the unmount
  (`WebSocketHook.TeardownCanSchedule`). If the socket has already closed, the
  cleanup does nothing (`WebSocketHook.TeardownAfterClose`).
- **The table never re-clamps its page.** `currentPage` is reset only when the
  search query changes. When a parent passes a smaller `totalItems` or shorter
  `data`, the page can lie past the last page, and Previous from two or more
  pages past it stays out of range (`Table.StalePageStaysOutOfRange`). With no
  rows, Next sets page 0, which stays below the first page once rows arrive
  (`Table.PageZeroAfterEmptyFetch`).
- **The list page keeps `skip` across date changes.** A date change refetches
  without resetting `skip`. A smaller total then gives a label such as
  "Page 3 of 1" (`ListPage.PageLabelOverrun`).
- **Reset requests with the old interval.** On the order-history page, Reset
  issues its request through a closure that still holds the previous interval
  (`OrderList.ResetUsesOldInterval`).

## Model

| member | source | states |
|---|---|---|
| Common.Lower | src/components/ui/Table.jsx:84 | `toLowerCase` restricted to ASCII: it keeps the length and maps each character on its own, shifting A-Z to a-z and leaving every other character alone. |
| Common.ContainsEmpty | src/components/ui/Table.jsx:84 | `includes("")` always holds, and nothing but `""` is included in `""`. |
| Common.DigitsRoundTrip | src/pages/OrderList.jsx:46 | The decimal digits of a natural number read back as that number. |
| Common.DecimalStringInjective | src/pages/OrderList.jsx:46 | `String(n)` of two different integers gives two different strings. |
| Common.StrLessIrreflexive | src/components/ui/Table.jsx:70 | No string is `<` itself (code-point order). |
| Common.StrLessAsymmetric | src/components/ui/Table.jsx:70-73 | Two strings are never each `<` the other. |
| Common.StrLessTransitive | src/components/ui/Table.jsx:70-73 | String `<` is transitive. |
| Common.StrLessTotal | src/components/ui/Table.jsx:70-76 | Of two different strings one is `<` the other. |
| CartStore.DurableStore.constructor | src/utilis/indexedDB.js:4-10 | Opening the database gives an empty "cart" store whose records are filed under their own id. |
| CartStore.DurableStore.Put | src/utilis/indexedDB.js:13-18 | After `put`, the item's id maps to the item, replacing any record there; every other key and record is unchanged; records stay filed under their id. |
| CartStore.DurableStore.GetAll | src/utilis/indexedDB.js:21-24 | `getAll` returns every stored record exactly once, each as stored, in strictly ascending id order. |
| CartStore.DurableStore.UpdateQuantity | src/utilis/indexedDB.js:27-34 | For a present id, only that record's quantity changes and its other fields are kept; for an absent id the store is unchanged. |
| CartStore.DurableStore.Remove | src/utilis/indexedDB.js:37-42 | Deleting removes exactly that key; deleting an absent key changes nothing. |
| CartStore.DurableStore.Clear | src/utilis/indexedDB.js:45-50 | Clearing leaves the store empty. |
| CartContext.Incremented | src/context/CartContext.jsx:28-32 | The increment `map` keeps the cart's length and every line's id. |
| CartContext.IncrementedAt | src/context/CartContext.jsx:28-32 | Line k gains exactly one unit when its id matches and is otherwise untouched. |
| CartContext.WithQuantity | src/context/CartContext.jsx:42-44 | The quantity `map` keeps the cart's length and every line's id. |
| CartContext.WithQuantityAt | src/context/CartContext.jsx:42-44 | Line k gets the new quantity, unclamped, when its id matches and is otherwise untouched. |
| CartContext.Without | src/context/CartContext.jsx:50 | The `filter` result is no longer than the cart and holds no line with the removed id. |
| CartContext.AddExisting | src/context/CartContext.jsx:26-32 | Adding an item whose id is on line k adds one unit to that line only; all other lines and the order are unchanged. |
| CartContext.AddFresh | src/context/CartContext.jsx:34 | Adding an item with a new id appends it with quantity 1. |
| CartContext.AddTwiceFresh | src/context/CartContext.jsx:25-35 | Adding one fresh item twice leaves a single line for it, with quantity 2. |
| CartContext.SetQuantityPresent | src/context/CartContext.jsx:41-44 | Setting the quantity of the id on line k changes that line's quantity only. |
| CartContext.SetQuantityAbsent | src/context/CartContext.jsx:41-44 | Setting the quantity of an id not in the cart leaves the cart unchanged. |
| CartContext.WithoutMembers | src/context/CartContext.jsx:50 | A line survives removal exactly when it was in the cart and has another id. |
| CartContext.WithoutPresent | src/context/CartContext.jsx:49-50 | Removing the id on line k cuts out exactly that line and keeps the order of the rest. |
| CartContext.WithoutAbsent | src/context/CartContext.jsx:49-50 | Removing an id not in the cart leaves it unchanged. |
| CartContext.WithoutIdempotent | src/context/CartContext.jsx:49-52 | Removal is idempotent. |
| CartContext.AddLineKeepsUnique | src/context/CartContext.jsx:24-35 | Adding keeps "no two lines share an id". |
| CartContext.WithQuantityKeepsUnique | src/context/CartContext.jsx:41-44 | Setting a quantity keeps "no two lines share an id". |
| CartContext.WithoutKeepsUnique | src/context/CartContext.jsx:49-50 | Removal keeps "no two lines share an id". |
| CartContext.AddLineKeepsPositive | src/context/CartContext.jsx:24-35 | Adding keeps every quantity at least 1. |
| CartContext.WithQuantityKeepsPositive | src/context/CartContext.jsx:41-44 | Setting a quantity of at least 1 keeps every quantity at least 1. |
| CartContext.WithoutKeepsPositive | src/context/CartContext.jsx:49-50 | Removal keeps every quantity at least 1. |
| CartContext.LoadedMirrors | src/context/CartContext.jsx:16-22 | What the store's `getAll` returns lists the store's records once each, so the loaded cart mirrors the store. |
| CartContext.MirrorUpdateAt | src/context/CartContext.jsx:42-45 | Writing one quantity to line k and to its record keeps memory and store mirrored. |
| CartContext.SetQuantityKeepsMirror | src/context/CartContext.jsx:41-46 | `updateQuantity` keeps memory and store mirrored, present id or not. |
| CartContext.WithoutKeepsMirror | src/context/CartContext.jsx:49-52 | `removeFromCart` keeps memory and store mirrored. |
| CartContext.AddFreshKeepsMirror | src/context/CartContext.jsx:34-37 | Adding a fresh item writes the same record to memory and store. |
| CartContext.AddExistingBreaksMirror | src/context/CartContext.jsx:27-37 | Adding an item already in the cart increments memory but writes quantity 1 to the store, so the two no longer mirror. |
| CartContext.CartProvider.constructor | src/context/CartContext.jsx:12-13 | The cart starts empty over a given store. |
| CartContext.CartProvider.Load | src/context/CartContext.jsx:16-22 | On mount the cart is replaced wholesale by the store's records, in key order, mirroring the store, which is not changed. |
| CartContext.CartProvider.AddToCart | src/context/CartContext.jsx:24-38 | Memory becomes the add updater's result; the store's record for the id becomes the item with quantity 1; unique ids and positive quantities are kept. |
| CartContext.CartProvider.UpdateQuantity | src/context/CartContext.jsx:41-46 | Memory and store both take the quantity, unclamped; the mirror and unique ids are kept. |
| CartContext.CartProvider.RemoveFromCart | src/context/CartContext.jsx:49-52 | The line leaves memory and the key leaves the store; the mirror is kept. |
| CartContext.CartProvider.ClearCart | src/context/CartContext.jsx:54-57 | Memory and store both end empty. |
| AuthContext.InitialConsistent | src/context/AuthContext.jsx:6-11 | Session storage as `login` writes it gives an initial state with `isLoggedIn == (token != null)`, mirrored in storage. |
| AuthContext.LoginSameToken | src/context/AuthContext.jsx:16 | `login` with the held token changes nothing and posts nothing. |
| AuthContext.LoginNewToken | src/context/AuthContext.jsx:18-24 | `login` with another token writes both storage keys, keeps other keys, sets the token and flag, and posts exactly one LOGIN. |
| AuthContext.LoginTwiceBroadcastsOnce | src/context/AuthContext.jsx:15-24 | Two logins with one token post one message. |
| AuthContext.LogoutEffect | src/context/AuthContext.jsx:28-38 | `logout` with a falsy token does nothing; otherwise it drops both keys, clears token and flag, and posts exactly one LOGOUT. |
| AuthContext.InboundLogoutIsLogout | src/context/AuthContext.jsx:43-44 | An inbound LOGOUT in a logged-in tab acts as `logout()`, ending logged out and re-posting LOGOUT. |
| AuthContext.InboundLoginSilent | src/context/AuthContext.jsx:45-51 | An inbound LOGIN adopts its token without posting; with the held token nothing changes. |
| AuthContext.TransitionsKeepInvariants | src/context/AuthContext.jsx:15-51 | Every transition keeps `isLoggedIn == (token != null)` and the storage mirror. |
| AuthContext.LoginEchoStops | src/context/AuthContext.jsx:42-51 | The tab receiving a LOGIN adopts the token and posts nothing back. |
| AuthContext.LogoutEchoStops | src/context/AuthContext.jsx:28-44 | The tab receiving a LOGOUT logs out and posts at most one LOGOUT, which the first tab ignores. |
| AuthContext.EmptyTokenSurvivesLogout | src/context/AuthContext.jsx:29 | Because the guard tests truthiness, a tab logged in with the empty token stays logged in through `logout()`. |
| AuthContext.AuthProvider.constructor | src/context/AuthContext.jsx:6-11 | Initial state is read from session storage by the two lazy initialisers. |
| AuthContext.AuthProvider.Login | src/context/AuthContext.jsx:15-25 | The provider's new state is the login transition of its old state. |
| AuthContext.AuthProvider.Logout | src/context/AuthContext.jsx:28-38 | The provider's new state is the logout transition of its old state. |
| AuthContext.AuthProvider.HandleAuthMessage | src/context/AuthContext.jsx:42-53 | The provider's new state is the inbound-message transition of its old state. |
| WebSocketHook.OpenResets | src/hooks/useWebSocket.js:16-20 | On open of the live socket, the hook is connected and the counter is 0; data and timers are untouched. |
| WebSocketHook.MessageEffect | src/hooks/useWebSocket.js:22-29 | A message that parses replaces `data`; one that does not changes nothing. |
| WebSocketHook.ErrorKeepsCounter | src/hooks/useWebSocket.js:32-35 | On error the hook is disconnected and the counter and timers are unchanged. |
| WebSocketHook.CloseEffect | src/hooks/useWebSocket.js:37-49 | On close the hook is disconnected and the socket is gone; below 5 attempts the counter rises by 1 and exactly one 5000 ms reconnect is scheduled; at 5 nothing is scheduled. |
| WebSocketHook.ClosedSocketSilent | src/hooks/useWebSocket.js:15-49 | A socket that has closed fires no further callback. |
| WebSocketHook.ReconnectEffect | src/hooks/useWebSocket.js:12-14 | A pending timer's `connect()` puts a new live socket in `wsRef`; with no timer pending nothing happens. |
| WebSocketHook.StepKeepsBound | src/hooks/useWebSocket.js:9-45 | The counter never exceeds 5, and no more timers run than were set. |
| WebSocketHook.RunWithoutOpen | src/hooks/useWebSocket.js:37-49 | Between two opens every scheduled reconnect is counted, so at most 5 minus the counter are scheduled. |
| WebSocketHook.FiveClosesExhaust | src/hooks/useWebSocket.js:40-48 | Five sockets in a row that close before opening schedule five reconnects, and the sixth socket's close schedules none. |
| WebSocketHook.TeardownCanSchedule | src/hooks/useWebSocket.js:55-59 | The cleanup's `close()` on a live socket still schedules a reconnect while attempts remain, and that timer later opens a new socket. |
| WebSocketHook.TeardownAfterClose | src/hooks/useWebSocket.js:55-59 | On a socket that has already closed the cleanup changes nothing, so a close followed by the cleanup schedules exactly one reconnect. |
| WebSocketHook.WebSocketHookState.constructor | src/hooks/useWebSocket.js:5-8 | No data, not connected, counter 0, no timers, the mount's socket live. |
| WebSocketHook.WebSocketHookState.OnOpen | src/hooks/useWebSocket.js:16-20 | The new state is the open step of the old one; the counter stays within 5. |
| WebSocketHook.WebSocketHookState.OnMessage | src/hooks/useWebSocket.js:22-29 | The new state is the message step of the old one. |
| WebSocketHook.WebSocketHookState.OnError | src/hooks/useWebSocket.js:32-35 | The new state is the error step of the old one. |
| WebSocketHook.WebSocketHookState.OnClose | src/hooks/useWebSocket.js:37-49 | The new state is the close step of the old one; the counter stays within 5. |
| WebSocketHook.WebSocketHookState.OnReconnect | src/hooks/useWebSocket.js:12-14 | The new state is the reconnect step of the old one. |
| WebSocketHook.WebSocketHookState.Teardown | src/hooks/useWebSocket.js:55-59 | The cleanup takes the close step when the socket is live and otherwise changes nothing. |
| Table.NextSort | src/components/ui/Table.jsx:116-124 | `handleSort(k)` sets key k; the direction is descending exactly when the previous key was k and ascending. |
| Table.SortClicksAlternate | src/components/ui/Table.jsx:116-124 | Clicks on one header alternate the direction, starting ascending on a new column. |
| Table.InsertPermutes | src/components/ui/Table.jsx:69-77 | Inserting a row adds exactly that row. |
| Table.SortPermutes | src/components/ui/Table.jsx:69-77 | The sort is a permutation of its input. |
| Table.NotBeforeTransitive | src/components/ui/Table.jsx:70-75 | On one field of one kind, "not before" under the comparator is transitive. |
| Table.BeforeAsymmetric | src/components/ui/Table.jsx:70-75 | The comparator never puts each of two rows strictly before the other. |
| Table.InsertMembers | src/components/ui/Table.jsx:69-77 | A row of an insertion is the inserted row or one already there. |
| Table.PrependSorted | src/components/ui/Table.jsx:69-77 | A sorted list stays sorted under a head no later row is before. |
| Table.InsertSorted | src/components/ui/Table.jsx:69-77 | Inserting into a sorted list keeps it sorted. |
| Table.SortSorted | src/components/ui/Table.jsx:68-78 | When every row carries the sort field with one kind of value, the sort orders the rows in the chosen direction. |
| Table.FilterMembers | src/components/ui/Table.jsx:81-87 | A row survives the search exactly when it is a row of the input with some field whose lower-cased text includes the lower-cased query. |
| Table.FilterAppend | src/components/ui/Table.jsx:81-87 | The search distributes over concatenation, so it keeps the input's order. |
| Table.FilterKeepsSorted | src/components/ui/Table.jsx:67-87 | Filtering after sorting keeps the rows sorted. |
| Table.ProcessedDataMembers | src/components/ui/Table.jsx:62-90 | In frontend mode the processed rows are the data's rows that match a non-empty query; with no query they are a permutation of the data. |
| Table.ProcessedDataSorted | src/components/ui/Table.jsx:62-90 | With an active sort on a uniform field, the processed rows are in order. |
| Table.SliceWithin | src/components/ui/Table.jsx:101 | Within bounds `slice` is the subsequence; a negative start takes that many rows off the end; a start at or past the end, or an end at or before the start, gives no rows; with bounds that are not negative at most `end - start` rows. |
| Table.TotalPagesCeiling | src/components/ui/Table.jsx:93-95 | `totalPages` is the least page count holding every row, and 0 exactly for no rows. |
| Table.PaginateBounds | src/components/ui/Table.jsx:97-101 | A page never holds more than `itemsPerPage` rows; a page in range is the slice from `(p-1)*n` to `min(p*n, len)`; page 0 is empty. |
| Table.RowOnItsPage | src/components/ui/Table.jsx:93-101 | Row i is shown at position `i % n` of page `i / n + 1`, which is within `totalPages`. |
| Table.PageStart | src/components/ui/Table.jsx:100-101 | Page d+1 starts at row `d*n`. |
| Table.PageInRange | src/components/ui/Table.jsx:93-95 | The page of every row is within `totalPages`. |
| Table.BackendRequest | src/components/ui/Table.jsx:44-48 | The fetch asks for `limit = itemsPerPage`, and a non-negative skip from page 1 on. |
| Table.BackendRequestsTile | src/components/ui/Table.jsx:44-48 | Consecutive pages fetch adjacent windows, the first from skip 0. |
| Table.ShowingMatchesPage | src/components/ui/Table.jsx:350-359 | On a page in range, "Showing X to Y" has X the 1-based first row shown, X at most Y, and Y−X+1 rows shown. |
| Table.PrevPage | src/components/ui/Table.jsx:363 | Previous never goes below page 1. |
| Table.NextPage | src/components/ui/Table.jsx:370 | Next never goes past `totalPages`. |
| Table.StalePageStaysOutOfRange | src/components/ui/Table.jsx:93-95 | When the page count drops two or more below the page, which nothing resets, Previous lands on `p-1`, still past the last page. |
| Table.PageZeroAfterEmptyFetch | src/components/ui/Table.jsx:370 | With no rows Next from page 1 gives page 0, and once rows arrive there is at least one page, so page 0 is out of range. |
| Table.PageButtonsInRange | src/components/ui/Table.jsx:363-370 | From a page in range both buttons stay in range and move at most one page; with no pages, Next from 1 gives 0. |
| Table.ToggleInvolution | src/components/ui/Table.jsx:134-142 | A toggle (of a selected row, and likewise of a visible column at lines 166-174) flips one element's membership, leaves the others, and undoes itself. |
| Table.Indices | src/components/ui/Table.jsx:130 | The selected-all set holds exactly the indices 0 to len−1. |
| Table.IndicesSize | src/components/ui/Table.jsx:130 | That set has exactly len elements. |
| Table.SelectAllEffect | src/components/ui/Table.jsx:126-132 | Select-all clears a selection the size of the page, else selects exactly the page's indices; a second click clears that. |
| Table.SortKeepsLength | src/components/ui/Table.jsx:62-95 | A new sort configuration does not change how many rows are processed, hence nor `totalPages`. |
| Table.ProcessedCount | src/components/ui/Table.jsx:62-90 | The processed row count depends on the data and query only. |
| Table.FilterCountPermutation | src/components/ui/Table.jsx:81-87 | Searching two permutations of each other keeps as many rows. |
| Table.FilterMultiset | src/components/ui/Table.jsx:81-87 | The search keeps every copy of a matching row and no copy of another. |
| Table.TableState.constructor | src/components/ui/Table.jsx:25-35 | Empty query, no sort, page 1, no selection, every column visible, table data from the prop; the page starts in range. |
| Table.TableState.CurrentRequest | src/components/ui/Table.jsx:44-48 | The request for the current page asks for `itemsPerPage` rows, from a non-negative skip on page 1 and above, ending where the next page's request starts. |
| Table.TableState.ReceiveProps | src/components/ui/Table.jsx:13-35 | A parent re-render replaces `data` and `totalItems` only: `tableData`, the page and the rest of the state are kept. |
| Table.TableState.ApplyFetchResult | src/components/ui/Table.jsx:49 | The fetched page becomes the table data; nothing else changes. |
| Table.TableState.SetSearchQuery | src/components/ui/Table.jsx:110-113 | A new query resets the page to 1, which is in range. |
| Table.TableState.HandleSort | src/components/ui/Table.jsx:116-124 | The sort config takes the next-sort value; the page count is unchanged, so a page in range stays in range. |
| Table.TableState.HandleSelectAll | src/components/ui/Table.jsx:126-132 | The selection becomes select-all of the current page's length. |
| Table.TableState.HandleSelectRow | src/components/ui/Table.jsx:134-142 | The selection toggles the index. |
| Table.TableState.ToggleColumnVisibility | src/components/ui/Table.jsx:166-174 | The visible columns toggle the key. |
| Table.TableState.Previous | src/components/ui/Table.jsx:363 | The page becomes `max(1, p-1)`; a page in range stays in range. |
| Table.TableState.Next | src/components/ui/Table.jsx:370 | The page becomes `min(totalPages, p+1)`; a page in range stays in range. |
| ListPage.VisibleMembers | src/pages/List.jsx:58-64 | An item is listed exactly when it was fetched and its lower-cased ticker includes the lower-cased query. |
| ListPage.VisibleAppend | src/pages/List.jsx:58-64 | The search distributes over concatenation, keeping the fetched order. |
| ListPage.EmptySearchShowsAll | src/pages/List.jsx:58-64 | An empty query lists every fetched row. |
| ListPage.SearchIgnoresCase | src/pages/List.jsx:61 | Lower-casing the query does not change what is listed. |
| ListPage.LowerIdempotent | src/pages/List.jsx:61 | Lower-casing twice is lower-casing once. |
| ListPage.PagingKeepsSkip | src/pages/List.jsx:70-80 | Next and Previous keep skip a non-negative multiple of 10; Next moves exactly when `skip + 10 < total`; Previous moves exactly when skip is not 0; Previous undoes Next. |
| ListPage.PageLabelInRange | src/pages/List.jsx:214 | The label's page is `skip/10 + 1`; while `skip < total` it is at most the page count; Next raises it by one. |
| ListPage.PageLabelOverrun | src/pages/List.jsx:214 | Once the total drops to `skip` or below, the label's page exceeds the page count, as in "Page 3 of 1" for skip 20 and total 5. |
| ListPage.ChangeStart | src/pages/List.jsx:82-89 | A start-date change never touches the end date. |
| ListPage.ChangeEnd | src/pages/List.jsx:91-95 | An end-date change never touches the start date. |
| ListPage.ChangeStartEffect | src/pages/List.jsx:82-89 | A start later than a set end is refused and leaves the range; an accepted start is taken and is not after a set end. |
| ListPage.EndMayPrecedeStart | src/pages/List.jsx:91-95 | End-date changes are never refused, so an end before the start is reachable. |
| ListPage.GoToCartFollowsCart | src/pages/List.jsx:179 | "Go to Cart" shows exactly when a cart line has the item's id: after adding it, never after removing it, unchanged by a quantity change. |
| ListPage.ListPageState.constructor | src/pages/List.jsx:11-18 | No data, total 0, skip 0, empty query and dates. |
| ListPage.ListPageState.ApplyFetchResult | src/pages/List.jsx:44-46 | The data becomes the fetched tickers, or empty when absent, and the total the fetched total. |
| ListPage.ListPageState.SetSearchQuery | src/pages/List.jsx:120 | The query changes; nothing else does. |
| ListPage.ListPageState.HandleNextPage | src/pages/List.jsx:70-74 | Skip takes the Next rule and stays a non-negative multiple of 10. |
| ListPage.ListPageState.HandlePrevPage | src/pages/List.jsx:76-80 | Skip takes the Previous rule and stays a non-negative multiple of 10. |
| ListPage.ListPageState.HandleStartDateChange | src/pages/List.jsx:82-89 | The range takes the start rule; a refusal adds the alert. |
| ListPage.ListPageState.HandleEndDateChange | src/pages/List.jsx:91-95 | The end date takes the new value. |
| ListPage.ListPageState.HandleReset | src/pages/List.jsx:97-100 | Both dates become empty. |
| CartPage.SumFromIsLineSum | src/pages/Cart.jsx:14-17 | The `reduce` adds every line's price times quantity to its start value. |
| CartPage.TotalIsLineSum | src/pages/Cart.jsx:14-17 | The total is the sum of the line totals, 0 for an empty cart. |
| CartPage.LineSumAppend | src/pages/Cart.jsx:14-17 | The sum of line totals splits over concatenation. |
| CartPage.TotalAppend | src/pages/Cart.jsx:14-17 | The total of two carts joined is the sum of their totals. |
| CartPage.TotalSingleton | src/pages/Cart.jsx:14-17 | One line totals its row's line total. |
| CartPage.TotalReplaceAt | src/pages/Cart.jsx:14-17 | Replacing one line changes the total by the difference of line totals. |
| CartPage.TotalExample | src/pages/Cart.jsx:14-17 | Lines 2 × 100 and 1 × 50 total 250. |
| CartPage.TotalAfterAddExisting | src/pages/Cart.jsx:14-17 | Through the add updater (src/context/CartContext.jsx:26-32), adding an item already in the cart raises the total by that line's price. |
| CartPage.TotalAfterAddFresh | src/pages/Cart.jsx:14-17 | Through the add updater (src/context/CartContext.jsx:34), adding a fresh item raises the total by its price. |
| CartPage.TotalAfterSetQuantity | src/pages/Cart.jsx:14-17 | Through the quantity updater (src/context/CartContext.jsx:42-44), a quantity change moves the total by price times the change. |
| CartPage.TotalAfterRemove | src/pages/Cart.jsx:14-17 | Through the remove filter (src/context/CartContext.jsx:50), removing a line takes its line total off. |
| CartPage.DecrementRequest | src/pages/Cart.jsx:64-66 | "-" never requests below 1 nor above the current quantity. |
| CartPage.IncrementRequest | src/pages/Cart.jsx:73 | "+" requests more than the current quantity. |
| CartPage.ButtonsKeepPositive | src/pages/Cart.jsx:64-73 | "-" then "+" restores a quantity of at least 2, "-" stops at 1, and both keep every line positive. |
| CartPage.DetailsAt | src/pages/Cart.jsx:24-28 | One detail per line, in order, with the line's id and quantity and the given total as price. |
| CartPage.ProceedOutcome | src/pages/Cart.jsx:19-32 | Without a truthy token the page goes to "/login" from "/cart"; with one it opens the modal with one detail per line, each priced at the whole cart's total. |
| CartPage.DetailPricesRepeatTotal | src/pages/Cart.jsx:24-28 | The details' prices add up to the cart total once per line. |
| ConfirmationModal.PayloadRoundTrip | src/components/cart/ConfirmationModal.jsx:29-35 | The payload reads back as the details it came from. |
| ConfirmationModal.ToPayloadAt | src/components/cart/ConfirmationModal.jsx:29-35 | One payload line per detail, in order: `id` to `tick_id`, `totalPrice` to `purchase_price`, `quantity` to `purchase_qty`. |
| ConfirmationModal.PayloadFromCart | src/components/cart/ConfirmationModal.jsx:29-35 | From the cart page's details (src/pages/Cart.jsx:24-28), every payload line carries its line's id and quantity and the whole cart total as price. |
| ConfirmationModal.StatusCases | src/components/cart/ConfirmationModal.jsx:48-57 | Status is "success" exactly on a 200 answer, "error" for any other answer or a failure, and never left empty. |
| ConfirmationModal.ModalState.constructor | src/components/cart/ConfirmationModal.jsx:12-13 | Not loading, no status, nothing posted. |
| ConfirmationModal.ModalState.HandleConfirm | src/components/cart/ConfirmationModal.jsx:25-60 | The payload is posted; on 200 the status is success and cart and store are empty; otherwise the status is error and cart and store are unchanged; loading ends false. |
| ConfirmationModal.ModalState.OnOpenChange | src/components/cart/ConfirmationModal.jsx:16-21 | Closing resets the status and loading; opening changes nothing. |
| ProtectedRoute.ProtectedSendsToLogin | src/components/protectedRoute/ProtectedRoute.jsx:8-11 | A protected page sends a logged-out visitor to "/login" with `from` the current path. |
| ProtectedRoute.ProtectedRendersWhenLoggedIn | src/components/protectedRoute/ProtectedRoute.jsx:8-22 | A protected page always renders for a logged-in visitor. |
| ProtectedRoute.PublicRedirectsLoggedIn | src/components/protectedRoute/ProtectedRoute.jsx:12-22 | A public page sends a logged-in visitor to a defined `from` first, else from "/login" to "/", else renders. |
| ProtectedRoute.PublicRendersWhenLoggedOut | src/components/protectedRoute/ProtectedRoute.jsx:8-22 | A public page always renders for a logged-out visitor. |
| ProtectedRoute.RenderExactlyWhenNoRule | src/components/protectedRoute/ProtectedRoute.jsx:8-22 | The page renders exactly when no rule applies, and goes to login exactly on a protected page while logged out. |
| ProtectedRoute.CheckoutReturnsToCart | src/components/protectedRoute/ProtectedRoute.jsx:12-15 | Checking out (src/pages/Cart.jsx:20-22) without a token goes to login from "/cart", and once logged in the login page returns to "/cart". |
| OrderList.ClampRange | src/pages/OrderList.jsx:83-89 | The clamp keeps an empty input empty, lands every number in [1, 1000], leaves in-range numbers alone, and is idempotent. |
| OrderList.RequestUrlShape | src/pages/OrderList.jsx:45-46 | The URL is the base URL followed by `&interval=<v>` exactly when the interval is truthy; every clamped number is truthy. |
| OrderList.RequestUrlDeterminesInterval | src/pages/OrderList.jsx:45-46 | Different set intervals give different URLs. |
| OrderList.ResetUsesOldInterval | src/pages/OrderList.jsx:64-67 | Reset empties the interval and requests skip 0, limit 10, still carrying a set interval. |

## Left out

- Browser and network I/O is abstracted. `fetch`/`axios`, WebSocket,
  `setTimeout`, `BroadcastChannel` delivery, `sessionStorage` and IndexedDB are
  modelled as maps, outboxes, events and parameters.
  - Fetch results and HTTP responses are inputs.
  - A broadcast is delivered by calling the receiving tab's handler.
  - A reconnect timer is recorded by its delay. When it runs, the model records
    a new live socket; the socket's URL and handshake are not modelled.
- Asynchronous interleaving is left out. Each cart or session operation runs to
  completion: the memory update, then the store write.
- React rendering is left out. Intermediate renders, effect scheduling and the
  order-history page's re-fetch on re-render are not modelled.
  - On the list page, the rows shown are the search applied to the fetched
    data, as they stand once the search effect has run.
- Prices and quantities are whole numbers. There is no floating point, no
  `Number(...)` parsing and no NaN: the interval clamp starts from a number.
- Dates are opaque strings compared with `Common.StrLess`.
  `formatDate` and locale formatting are left out.
- The list page's request URL and its date formatting are not modelled; paging
  and the guards are.
- `Table.Sort` is modelled as a stable insertion sort. Its proved properties
  (permutation, and order on a field that every row carries with one kind of
  value) match any correct `Array.prototype.sort`.
  - Stability itself is not proved.
  - When rows lack the field or mix numbers and strings, the comparator is
    inconsistent and JavaScript's result is implementation-defined. There the
    model fixes one outcome.
- Common.Lower: only A-Z are lowered. JavaScript's `toLowerCase` also lowers
  other letters (É to é) and can change a string's length (İ becomes two code
  units). Search on non-ASCII text is therefore not modelled exactly.
- Common.StrLess: compares by Unicode code point, while JavaScript compares
  UTF-16 code units. The two differ only when a string holds characters
  outside the Basic Multilingual Plane.
- `Table.CellLess`: a numeric string compared with a number is not converted,
  so such pairs never compare as less.
- `handleExport` (CSV download), and the loading and error display of the
  table, are presentation and I/O.
- The WebSocket hook's parsed messages are opaque values. The JSON value itself
  is not modelled.
- Login and signup form validation, the header, the layout components, the
  routes and the HTTP-only pages are presentation or I/O.
