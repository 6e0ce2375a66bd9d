# Smart trolley: scan-to-cart, modelled in Dafny

This project models the scan-to-cart pipeline of the smart-trolley web shop, from the decoder's read to the cart:

- The camera decoder hook (`useQuagga`) starts and stops the decoder. It also filters reads with a 2000 ms cooldown and a confidence cut-off of 0.22.
- The scanner page passes each read through a second debounce on the last barcode and an in-flight flag. It logs the scan, looks the barcode up in `products`, and hands the product to the cart.
- The cart provider (`CartContext`) does a read-modify-write on the `cart` table, followed by a refetch that replaces the provider's `cartItems`.
- Three read-only views sit on top: the product search, the cart page (subtotal, line totals, quantity stepper) and the navbar badge.

The remote database is an in-memory `Store` object holding the `products`, `cart` and `barcode_scans` tables. Each awaited remote call is one atomic step. Which calls return an error is an input, given per operation as a `Faults` / `ScanFaults` record. Time (`Date.now()`), the decoder's reads and the result of a camera start are inputs too.

Each imperative operation comes in two forms:

- A pure function, `After*`, says what the operation leaves behind as a function of the state before it. The properties are proved about these functions.
- A method of a class performs the steps in place: `CartProvider`, `QuaggaHook` or `Scanner`. Each method is proved to end in the state its function gives.

Files:

| file | module | contents |
|---|---|---|
| `common.dfy` | `Common` | `Option`, id types |
| `catalog.dfy` | `Catalog` | `Product`, `CartItem`, reads of `products` |
| `cart_table.dfy` | `CartTable` | the `cart` table: select, update and delete under `.eq` filters, the write of `addToCart`, and the table invariant |
| `remote.dfy` | `Remote` | the in-memory store |
| `cart_context.dfy` | `CartContext` | the provider's operations and the class `CartProvider` |
| `quagga.dfy` | `Quagga` | the decoder hook and the class `QuaggaHook` |
| `scanner.dfy` | `ScannerPage` | the scanner page and the class `Scanner` |
| `products_page.dfy` | `ProductsPage` | the product search |
| `cart_page.dfy` | `CartPage` | subtotal, line totals, stepper, page views |
| `navbar.dfy` | `Navbar` | the badge count |

Table invariant (`CartTable.Wellformed`):

- line ids are unique;
- a user has at most one line per product;
- every quantity is at least 1;
- every line refers to an existing product;
- every id is below the store's next id.

Every cart operation preserves the invariant, and `fetchCartItems` relies on it when it shows one item per product.

## Model

| member | source | states |
|---|---|---|
| Catalog.WithId | src/contexts/CartContext.tsx:105-109 | the products read by id are exactly the products with that id |
| Catalog.WithBarcode | src/pages/Scanner.tsx:66-70 | the products read by barcode are exactly the products with that barcode |
| CartTable.Select | src/contexts/CartContext.tsx:115-120 | a select returns exactly the rows its filters hit, and no more rows than the table has |
| CartTable.Update | src/contexts/CartContext.tsx:172-176 | an update keeps the table's length; each hit row gets the new quantity and every other row is unchanged |
| CartTable.Delete | src/contexts/CartContext.tsx:197-201 | a delete keeps exactly the rows its filters miss |
| CartTable.DeleteIdempotent | src/contexts/CartContext.tsx:197-201 | deleting twice under the same filters removes nothing more |
| CartTable.AtMostOneLine | src/contexts/CartContext.tsx:114-122 | under unique keys, the `.maybeSingle()` read finds at most one line for a (user, product) pair, so its too-many-rows error cannot occur |
| CartTable.AddLineInserts | src/contexts/CartContext.tsx:134-142 | with no line for (user, product), the write appends exactly one line of quantity 1, and that line is the pair's only line |
| CartTable.AddLineIncrements | src/contexts/CartContext.tsx:126-131 | with line l for (user, product), the write raises l's quantity by one, adds no line, and leaves every other id's line unchanged |
| CartTable.AddLineKeepsWellformed | src/contexts/CartContext.tsx:124-147 | the write keeps the table invariant for an existing product; the next id advances only on insert |
| CartTable.UpdateKeepsWellformed | src/contexts/CartContext.tsx:172-176 | setting a quantity of at least 1 keeps the table invariant |
| CartTable.DeleteKeepsWellformed | src/contexts/CartContext.tsx:197-201 | any delete keeps the table invariant |
| CartTable.AddLineKeepsOtherUsers | src/contexts/CartContext.tsx:114-145 | the write of user u leaves every other user's lines as they were |
| CartTable.DeleteKeepsOtherUsers | src/contexts/CartContext.tsx:224-227 | a delete filtered on user u leaves every other user's lines as they were |
| CartContext.AfterFetch | src/contexts/CartContext.tsx:70-96 | no user: nothing changes. Otherwise the table is untouched and loading ends; an error keeps `cartItems`, and success gives one item per line of the user |
| CartContext.AfterAdd | src/contexts/CartContext.tsx:98-158 | no user: nothing changes. A product id with no single product, a failed product read, a failed line read or a failed write only ends loading. Otherwise the table becomes `AddLine`'s, the next id advances only on insert, loading ends, and `cartItems` is the refetched view of the user's lines, or is kept when the refetch fails. The invariant always holds afterwards |
| CartContext.AfterRemove | src/contexts/CartContext.tsx:191-216 | no user: nothing changes. A failed delete only ends loading. Otherwise exactly the line with that id owned by the user is gone, loading ends, and `cartItems` is the refetched view, or is kept when the refetch fails. The invariant is kept |
| CartContext.AfterUpdate | src/contexts/CartContext.tsx:160-189 | no user or a negative quantity: nothing changes. 0 behaves exactly as a remove. For q ≥ 1, a failed write only ends loading. Otherwise the quantity of the line with that id and user is set, every other row is kept, loading ends, and `cartItems` is the refetched view, or is kept when the refetch fails. The invariant is kept |
| CartContext.AfterClear | src/contexts/CartContext.tsx:218-240 | no user: nothing changes. A failed delete only ends loading. Otherwise exactly the user's lines are gone, `cartItems` is empty and loading ends. The invariant is kept |
| CartContext.AfterUserChange | src/contexts/CartContext.tsx:41-68 | with a user, the state is what `fetchCartItems` leaves; with no user, `cartItems` becomes empty and loading ends without touching the table |
| CartContext.FetchShowsOwnLines | src/contexts/CartContext.tsx:75-89 | after a successful refetch, an item is shown iff it is one of the user's lines joined with its product |
| CartContext.FetchedItemsWellformed | src/contexts/CartContext.tsx:75-89 | refetched items have quantity ≥ 1, carry their own product, and name pairwise different products |
| CartContext.AddInsertsLine | src/contexts/CartContext.tsx:134-142 | `addToCart(p)` with no (user, p) line appends exactly one line (user, p, 1) |
| CartContext.AddIncrementsLine | src/contexts/CartContext.tsx:126-131 | `addToCart(p)` with a (user, p) line of quantity q leaves that line at q+1, adds no line and changes no other line |
| CartContext.AddKeepsOtherUsers | src/contexts/CartContext.tsx:114-145 | `addToCart` of user u leaves every other user's lines as they were, whatever fails |
| CartContext.UpdateKeepsOtherUsers | src/contexts/CartContext.tsx:172-176 | `updateQuantity` of user u leaves every other user's lines as they were |
| CartContext.RemoveKeepsOtherUsers | src/contexts/CartContext.tsx:197-201 | `removeFromCart` of user u leaves every other user's lines as they were |
| CartContext.ClearKeepsOtherUsers | src/contexts/CartContext.tsx:224-227 | `clearCart` of user u leaves every other user's lines as they were |
| CartContext.RemoveIsIdempotent | src/contexts/CartContext.tsx:191-216 | after a successful remove, removing the same line again leaves the table as it was; when the first refetch succeeded, the whole state is kept too, whatever the second call's faults |
| CartContext.ClearThenAdd | src/contexts/CartContext.tsx:218-240 | after a clear the user has no lines; a following add leaves one line and one item, of quantity 1 |
| CartContext.CartProvider.constructor | src/contexts/CartContext.tsx:35-38 | a new provider has no user, no items, and is loading |
| CartContext.CartProvider.UserChanged | src/contexts/CartContext.tsx:41-68 | the user effect ends in the state `AfterUserChange` gives, keeping the invariant |
| CartContext.CartProvider.FetchCartItems | src/contexts/CartContext.tsx:70-96 | the refetch ends in the state `AfterFetch` gives |
| CartContext.CartProvider.AddToCart | src/contexts/CartContext.tsx:98-158 | `addToCart` ends in the state `AfterAdd` gives, keeping the invariant |
| CartContext.CartProvider.WriteLine | src/contexts/CartContext.tsx:124-147 | the increment-or-insert write leaves the table as `AddLine` gives and advances the next id only on insert |
| CartContext.CartProvider.UpdateQuantity | src/contexts/CartContext.tsx:160-189 | `updateQuantity` ends in the state `AfterUpdate` gives |
| CartContext.CartProvider.RemoveFromCart | src/contexts/CartContext.tsx:191-216 | `removeFromCart` ends in the state `AfterRemove` gives |
| CartContext.CartProvider.ClearCart | src/contexts/CartContext.tsx:218-240 | `clearCart` ends in the state `AfterClear` gives |
| Remote.Store.constructor | src/lib/supabase.ts:10-68 | a new store has the given products, an empty cart and scan log, and satisfies the table invariant |
| Quagga.Init | src/hooks/useQuagga.ts:11-53 | no target or already initialised: no change. An init error: no change. Otherwise the flag is set and the new callback starts with `lastScanTime` 0 |
| Quagga.Stop | src/hooks/useQuagga.ts:84-89 | the flag is cleared, a cleared flag stays as it was, and `lastScanTime` is kept |
| Quagga.OnDetected | src/hooks/useQuagga.ts:56-75 | within 2000 ms of the last scan time nothing changes. Otherwise the scan time becomes now, even for a rejected read. A read is passed on iff it is outside the cooldown, has a `codeResult` and has error ≤ 0.22. A missing code is passed on as "" |
| Quagga.RunForwardsOnlyConfident | src/hooks/useQuagga.ts:64-73 | every read passed on over a run of frames is one of the frames and has error ≤ 0.22 |
| Quagga.RunSpacing | src/hooks/useQuagga.ts:53-61 | reads passed on over a run are at least 2000 ms after the starting scan time and at least 2000 ms apart |
| Quagga.LowConfidenceStartsCooldown | src/hooks/useQuagga.ts:61-71 | a read rejected for low confidence still blocks every read of the next 2000 ms |
| Quagga.QuaggaHook.constructor | src/hooks/useQuagga.ts:9 | the hook starts uninitialised |
| Quagga.QuaggaHook.InitScanner | src/hooks/useQuagga.ts:11-47 | `initScanner` leaves the hook as `Init` gives |
| Quagga.QuaggaHook.StopScanner | src/hooks/useQuagga.ts:84-89 | `stopScanner` leaves the hook as `Stop` gives |
| Quagga.QuaggaHook.Detected | src/hooks/useQuagga.ts:56-75 | the callback passes on, and leaves the hook, as `OnDetected` gives |
| ScannerPage.Lookup | src/pages/Scanner.tsx:66-76 | the lookup finds a product iff the read succeeds and exactly one product has the barcode, and that product has the barcode |
| ScannerPage.AfterProcess | src/pages/Scanner.tsx:51-105 | `isProcessing` is false afterwards, and `lastScanned` and the hook are unchanged. For a signed-in user whose insert succeeds, exactly one row (barcode, user, "scanned") is appended to the log whatever the lookup finds; otherwise nothing is logged. A miss clears `scannedProduct` and leaves the cart alone; a hit sets it and applies `addToCart` for its id once. The manual input is cleared iff the tab is Manual, and one reset timer is started |
| ScannerPage.AfterDetection | src/pages/Scanner.tsx:43-48 | a read equal to `lastScanned`, or arriving while processing, changes nothing. Any other read sets `lastScanned` and is processed |
| ScannerPage.AfterFrame | src/pages/Scanner.tsx:27 | a camera frame within the cooldown changes nothing, and an unconfident one changes no page, log or cart. A passed-on read goes to `handleDetection` |
| ScannerPage.AfterManualSubmit | src/pages/Scanner.tsx:107-112 | an empty input changes nothing. A non-empty one is processed, and `lastScanned` is neither checked nor set |
| ScannerPage.AfterResetTimer | src/pages/Scanner.tsx:101-103 | a firing timer sets `lastScanned` to none and changes nothing else |
| ScannerPage.TabEffect | src/pages/Scanner.tsx:30-40 | after the effect, the manual tab has the decoder stopped. The camera tab has it running iff its start succeeds, with a fresh cooldown |
| ScannerPage.DetectAll | src/pages/Scanner.tsx:43-48 | a run of detections keeps the table invariant |
| ScannerPage.LastScannedAfterRun | src/pages/Scanner.tsx:46 | after a run of reads, `lastScanned` holds the barcode processed last, or is unchanged when none was processed |
| ScannerPage.NoImmediateRepeat | src/pages/Scanner.tsx:44-47 | with no timer firing, the same barcode is never processed twice in a row, nor the barcode already in `lastScanned` |
| ScannerPage.DetectionLogs | src/pages/Scanner.tsx:56-63 | a read logs a row exactly when `handleDetection` takes it (signed-in user, insert succeeds) |
| ScannerPage.DetectAllLogsEachProcessed | src/pages/Scanner.tsx:56-63 | over a run, the log grows by exactly one row per processed barcode, in order |
| ScannerPage.ResetAllowsRescan | src/pages/Scanner.tsx:100-103 | the barcode in `lastScanned` is ignored until the reset timer fires, and taken and looked up again afterwards |
| ScannerPage.Scanner.constructor | src/pages/Scanner.tsx:16-20 | the page starts on the camera tab with nothing scanned or processing |
| ScannerPage.Scanner.RunTabEffect | src/pages/Scanner.tsx:30-40 | the effect leaves the hook as `TabEffect` gives |
| ScannerPage.Scanner.SelectTab | src/pages/Scanner.tsx:126 | choosing the active tab changes nothing; another tab is set and the effect runs |
| ScannerPage.Scanner.Unmount | src/pages/Scanner.tsx:37-39 | leaving the page stops the decoder |
| ScannerPage.Scanner.TypeBarcode | src/pages/Scanner.tsx:162 | typing sets the manual input |
| ScannerPage.Scanner.ProcessBarcode | src/pages/Scanner.tsx:51-105 | `processBarcode` ends in the state `AfterProcess` gives, keeping the table invariant |
| ScannerPage.Scanner.LogScan | src/pages/Scanner.tsx:56-63 | the log insert appends (barcode, user, "scanned") for a signed-in user whose insert succeeds, and nothing otherwise |
| ScannerPage.Scanner.FinishProcessing | src/pages/Scanner.tsx:92-104 | the `finally` block clears `isProcessing`, clears the manual input on the manual tab, and starts one reset timer |
| ScannerPage.Scanner.HandleDetection | src/pages/Scanner.tsx:43-48 | `handleDetection` ends in the state `AfterDetection` gives |
| ScannerPage.Scanner.CameraFrame | src/hooks/useQuagga.ts:56-75 | a decoder frame ends in the state `AfterFrame` gives |
| ScannerPage.Scanner.HandleManualSubmit | src/pages/Scanner.tsx:107-112 | the form submit ends in the state `AfterManualSubmit` gives |
| ScannerPage.Scanner.ResetTimerFires | src/pages/Scanner.tsx:101-103 | the timer leaves the page as `AfterResetTimer` gives |
| ProductsPage.IncludesOccurs | src/pages/Products.tsx:40-41 | `includes` holds iff the term occurs at some position of the string |
| ProductsPage.IncludesEmpty | src/pages/Products.tsx:40-41 | every string includes the empty term |
| ProductsPage.FilterProducts | src/pages/Products.tsx:39-42 | a product is kept iff it is in the list and its lowercased name contains the lowercased term or its barcode contains the raw term |
| ProductsPage.FilterIsSubsequence | src/pages/Products.tsx:39 | the filtered list is an order-preserving subsequence of the products |
| ProductsPage.EmptyTermKeepsAll | src/pages/Products.tsx:39-42 | the empty term keeps every product, in order |
| ProductsPage.NameMatchIgnoresCase | src/pages/Products.tsx:40 | a name match holds for every term with the same lowercase form |
| ProductsPage.BarcodeMatchIsCaseSensitive | src/pages/Products.tsx:41 | barcode matching is case-sensitive: "AB" finds barcode "AB12" and "ab" does not |
| ProductsPage.ViewProducts | src/pages/Products.tsx:45-88 | the skeleton shows iff loading. "No products found" shows iff no product matches. Otherwise the grid lists the filtered products |
| CartPage.PriceFoldIsSum | src/pages/Cart.tsx:21-24 | the `reduce` from any start value adds the sum of the line totals to it |
| CartPage.Subtotal | src/pages/Cart.tsx:21-24 | the subtotal is the sum over lines of quantity × price, and 0 for an empty cart |
| CartPage.SumLineTotalsAppend | src/pages/Cart.tsx:21-24 | the sum of line totals is additive over concatenation |
| CartPage.SubtotalAppend | src/pages/Cart.tsx:21-24 | the subtotal of two lists of lines is the sum of their subtotals |
| CartPage.SubtotalNonNegative | src/pages/Cart.tsx:21-24 | with no negative quantity or price, the subtotal is not negative |
| CartPage.MinusRequest | src/pages/Cart.tsx:120-121 | the minus button is disabled iff quantity ≤ 1; otherwise it asks for (id, q-1), which is ≥ 1 |
| CartPage.PlusRequest | src/pages/Cart.tsx:130 | the plus button asks for (id, q+1) |
| CartPage.StepperNeverRemoves | src/pages/Cart.tsx:120-130 | on a line of quantity ≥ 1 the stepper never asks for 0 or less |
| CartPage.ViewCart | src/pages/Cart.tsx:27-168 | the skeleton shows iff loading, and the empty view iff there are no items. Otherwise each line shows quantity × price, and the total equals the subtotal |
| Navbar.QuantityFoldIsSum | src/components/Navbar.tsx:24 | the `reduce` from any start value adds the sum of the quantities to it |
| Navbar.TotalItems | src/components/Navbar.tsx:24 | `totalItems` is the sum of the quantities, and 0 for an empty cart |
| Navbar.TotalItemsAppend | src/components/Navbar.tsx:24 | the count is additive over concatenation |
| Navbar.TotalItemsAtLeastLines | src/components/Navbar.tsx:24 | with every quantity ≥ 1, the count is at least the number of lines |
| Navbar.Badge | src/components/Navbar.tsx:81-91 | the badge shows iff the user is signed in and `totalItems` > 0, and then holds the count |
| Navbar.BadgeShownIffNonEmpty | src/components/Navbar.tsx:87 | for fetched lines (quantity ≥ 1), the badge shows iff the cart has a line |

## Left out

- Line ids are the store's generated strings; the model numbers them from a counter (`nextId`). Only their uniqueness is used.
- Timestamps: `created_at`, `updated_at` and `scan_timestamp` are not modelled.
- Toasts, navigation, JSX rendering, images and the `toFixed(2)` formatting of amounts are not modelled.
- Prices are Dafny `real`. Floating-point rounding of prices, line totals and subtotals is not modelled.
- Lowercasing is ASCII only. Unicode case mapping of `toLowerCase` is not modelled.
- The database client, its configuration, `handleError`'s logging and `getCurrentUser` (src/lib/supabase.ts:70-90) are not modelled. Each call is an atomic step whose failure is an input.
- The realtime channel (src/contexts/CartContext.tsx:45-63) is not modelled. A change notification is a call of `CartProvider.FetchCartItems`.
- Async interleaving is not modelled: every operation is one atomic step. Hence:
  - two operations never overlap;
  - races between sessions on the read-then-increment of `addToCart` do not arise;
  - the state in which `isProcessing` is true is never observable between events.
- ScannerPage.AfterProcess: does not expose the intermediate state with `isProcessing` set. Because each step is atomic, the `isProcessing` guard of `handleDetection` only drops reads when a caller starts from such a state.
- The `catch` blocks of `processBarcode` are not modelled. No remote call inside it throws: `addToCart` catches its own errors, and the log insert's error is not checked.
- React rendering semantics are not modelled: stale closures, batching of state updates, and what a render reads.
  - `ScannerPage.Scanner.RunTabEffect` is the tab effect, run on mount, on a tab change and on any other re-render. `handleDetection` is a new function on every render, so the effect does re-run each time.
  - Each successful re-run installs a fresh callback whose cooldown starts from 0 (`ScannerPage.TabEffect`).
  - Callbacks registered by earlier starts, which the decoder library may keep, are not modelled.
- The decoder library's camera access, its decoding, its worker count and its reader configuration (src/hooks/useQuagga.ts:17-39) are not modelled. Reads arrive as `Frame` values, and a failed start is an input.
- The products fetch of the products page (src/pages/Products.tsx:17-36) is not modelled. The page is given the list and its loading flag.
- Routing, the home page and the private-route wrapper are outside this model.
