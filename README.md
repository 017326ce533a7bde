# Point-of-sale cart, sale commit and printing — a Dafny model

This project models the client-side core of a retail point-of-sale web app (prices in
Indonesian rupiah):

- **The POS hook** (`src/hooks/useSupabasePOS.ts`):
  - the held cart, with merge-on-re-add semantics;
  - the sale arithmetic (subtotal, total, profit);
  - the sale commit, which asks the backend for an invoice number, stores the receipt and its line items, then decrements stock line by line;
  - the wrapper that clears the cart after a successful sale;
  - the translation of products to and from the columns of the `products` table.
- **The receipt print handler** (`src/components/POS/Receipt.tsx`): thermal print on an existing connection, then connect-and-print, then the browser's print dialog.
- **The printer connection panel** (`src/components/POS/BluetoothManager.tsx`): the connected-device list (one device per platform) and the `isConnected` / `isConnecting` flags.
- **The autocomplete input** (`src/components/ui/autocomplete.tsx`): the case-insensitive item filter and the select, type and key handlers.

Files and modules:

| file | module | what |
|---|---|---|
| common.dfy | `Wrappers` | `Option` (JavaScript `undefined`) |
| seqs.dfy | `Seqs` | `filter`, `map`, `findIndex`, `find` on sequences, with their laws |
| text.dfy | `Text` | `includes` and ASCII `toLowerCase` |
| catalog.dfy | `Catalog` | `Product`, column rows, the insert/update payloads and the row-to-product mapping |
| cart.dfy | `Cart` | `CartItem`, effective price, subtotal and profit, and the cart list operations |
| pos_hook.dfy | `PosHook` | the hook's state as class `Pos`, and the sale commit with its backend-request trace |
| receipt_print.dfy | `ReceiptPrint` | the print fallback chain as an action trace |
| bluetooth_manager.dfy | `BluetoothManager` | class `Manager`, holding the device list and the flags |
| autocomplete.dfy | `Autocomplete` | the displayed-items filter and class `Autocomplete`, holding the typed text and the popover state |

Modelling choices:

- **Money.** Money is `int`. The currency has no minor unit, and the model has no floating point.
- **Default arguments.** The source's defaults are declared on the methods: `quantity = 1` and an omitted override for `AddToCart`, and `discount = 0`, `isManual = false` and an omitted payment method for `ProcessTransaction` and `ProcessTransactionWrapper`. The signed-in user and the backend replies come first, because they stand for state and I/O rather than arguments.
- **Effective price.** It is `finalPrice || sellPrice`, so an override of 0 falls back to the sell price, just like no override.
- **The backend.** It is not modelled. Its answers are parameters:
  - `SaleReplies` gives the invoice number, the stored receipt, the line-item insert and each stock update;
  - a fetched row list stands in for the product query;
  - a boolean stands in for each insert or update result.

  The requests the hook makes come back as a list of `BackendCall`s, in the order they are made. The specification functions `SaleCalls` and `SaleReceipt` describe a sale's requests and result, and the lemmas beside them state what those mean.
- **Printer calls.** Each call to the printer either returns a boolean or throws (`Reply`). The handler returns the calls it made.
- **Clocks.** Timestamps and the clock-derived device id are parameters.
- **Callbacks.** The autocomplete's calls to its parent (`onValueChange`, `onSelect`) are appended to an `events` list.
- **A renamed field.** The autocomplete item's `label` field is called `labelText`, because `label` is a Dafny keyword.
- **A falsy id.** `handleDisconnect` tests `if (deviceId)`, so an empty-string id behaves like no id and clears the whole list. The model does the same.
- **Stale stock.** A sale's stock update writes the stock carried in the cart line's product snapshot minus the quantity. The live catalog is not consulted, and the result is not clamped at zero.
- **Swallowed errors.** `updateProduct` swallows its errors. A failed stock update therefore never makes a sale fail: `SaleReceipt` and `Commits` do not depend on `SaleReplies.stockUpdated`.

## Model

| member | source | states |
|---|---|---|
| Text.Includes | src/components/ui/autocomplete.tsx:91-92 | a string can only contain a substring no longer than itself, and always contains the empty string; `IncludesIff` characterises it by occurrence position |
| Text.IncludesIff | src/components/ui/autocomplete.tsx:91-92 | `includes` holds exactly when the substring occurs at some position |
| Text.IncludesTransitive | src/components/POS/BluetoothManager.tsx:75-76 | a string that contains "User cancelled" contains "cancel": substring containment is transitive |
| Text.LowerChar | src/components/ui/autocomplete.tsx:91-92 | lower-casing leaves no upper-case letter, maps A-Z to a-z and keeps every other character |
| Text.Lower | src/components/ui/autocomplete.tsx:91-92 | `toLowerCase` keeps the length and lower-cases every character on its own (`LowerChar`); `LowerIdempotent` shows it is idempotent |
| Text.LowerIdempotent | src/components/ui/autocomplete.tsx:91-92 | lower-casing twice is lower-casing once |
| Catalog.InsertRow | src/hooks/useSupabasePOS.ts:197-206 | the `addProduct` payload has the seven product columns plus `user_id`, which holds the signed-in user's id, and no `id` |
| Catalog.FromRow | src/hooks/useSupabasePOS.ts:124-133 | the product keeps the row's id, and a null `barcode` or `category` column loads as no value; `LoadAfterInsert` and `UpdateThenLoad` relate it to the insert and update payloads |
| Catalog.LoadAfterInsert | src/hooks/useSupabasePOS.ts:124-133 | a row inserted by `addProduct` and stored under an id loads back through the `loadProducts` mapping as exactly the added product with that id |
| Catalog.UpdateColumns | src/hooks/useSupabasePOS.ts:218-225 | the update payload holds the snake_case column of each defined field with that field's value, and no other column (never `id`) |
| Catalog.ColumnsUpToSpec | src/hooks/useSupabasePOS.ts:218-225 | after considering the first n fields, the payload holds exactly their defined columns with their values |
| Catalog.UpdateThenLoad | src/hooks/useSupabasePOS.ts:216-230 | writing the payload over a stored row and loading it gives the product with the defined fields replaced and every other field, and the id, unchanged |
| Catalog.StockPatchColumns | src/hooks/useSupabasePOS.ts:294-295 | a stock-only partial produces the single `stock` column |
| Catalog.StockOnlyUpdate | src/hooks/useSupabasePOS.ts:294-295 | after a stock-only update a reload shows the new stock and every other field as before |
| Cart.EffectivePrice | src/hooks/useSupabasePOS.ts:245 | a non-zero override is the price; no override or an override of 0 gives the sell price |
| Cart.Subtotal | src/hooks/useSupabasePOS.ts:244-246 | with non-negative quantities and prices the subtotal is non-negative; `SubtotalAppend` and `SubtotalCons` show it sums the lines' totals |
| Cart.Profit | src/hooks/useSupabasePOS.ts:248-250 | selling every line at or above cost with non-negative quantities gives a non-negative profit; `ProfitIsSubtotalMinusCost` ties it to the subtotal |
| Cart.SubtotalAppend | src/hooks/useSupabasePOS.ts:244-246 | the subtotal of two carts put together is the sum of their subtotals |
| Cart.SubtotalCons | src/hooks/useSupabasePOS.ts:244-246 | the subtotal is the first line's effective price times quantity plus the subtotal of the rest |
| Cart.ProfitIsSubtotalMinusCost | src/hooks/useSupabasePOS.ts:248-250 | profit equals subtotal minus the summed cost price times quantity |
| Cart.SingleLineSale | src/hooks/useSupabasePOS.ts:244-250 | two units at 10000 with cost 6000 give subtotal 20000 and profit 8000 |
| Cart.FindItem | src/hooks/useSupabasePOS.ts:319 | a line is found exactly when the product is in the cart, and it is a line of that product |
| Cart.FindItemFirst | src/hooks/useSupabasePOS.ts:319 | the line found is the first line for the product: no earlier line has that id |
| Cart.FindItemIsFind | src/hooks/useSupabasePOS.ts:319 | the lookup is the generic first-match search `Seqs.Find` with the predicate "same product id", as `Array.find` is used there |
| Cart.Removed | src/hooks/useSupabasePOS.ts:347 | no line of the removed product remains |
| Cart.RemovedCount | src/hooks/useSupabasePOS.ts:347 | every line of another product keeps its multiplicity; lines of the product are all dropped |
| Cart.RemoveAbsent | src/hooks/useSupabasePOS.ts:347 | removing a product that is not in the cart changes nothing |
| Cart.RemoveIsSplice | src/hooks/useSupabasePOS.ts:346-348 | with unique ids, removal cuts out that product's one line and keeps every other line in order |
| Cart.RemoveKeepsIdsUnique | src/hooks/useSupabasePOS.ts:346-348 | removal keeps product ids unique |
| Cart.Requantified | src/hooks/useSupabasePOS.ts:339-343 | same length; the product's lines get the new quantity and override and keep their product; all other lines are untouched |
| Cart.QuantityUpdated | src/hooks/useSupabasePOS.ts:333-344 | an update never lengthens the cart; a quantity of zero or less leaves no line of the product; a positive one keeps the length; `UpdateIsPointUpdate`, `UpdateAbsent` and `UpdateKeepsIdsUnique` give the rest |
| Cart.UpdateIsPointUpdate | src/hooks/useSupabasePOS.ts:333-344 | with unique ids and a positive quantity, exactly the product's line changes (quantity and override) |
| Cart.UpdateAbsent | src/hooks/useSupabasePOS.ts:333-344 | updating a product that is not in the cart is a no-op, whatever the quantity |
| Cart.UpdateKeepsIdsUnique | src/hooks/useSupabasePOS.ts:333-344 | updating quantities keeps product ids unique |
| Cart.AddedToCart | src/hooks/useSupabasePOS.ts:318-331 | adding grows the cart by at most one line, and not at all when the product is already in it; `AddExisting`, `AddNew`, `AddTwice` and `AddKeepsIdsUnique` give the rest |
| Cart.AddExisting | src/hooks/useSupabasePOS.ts:318-322 | re-adding a product sums the quantity on its line and adopts the new override (cleared if omitted); a non-positive sum removes the line |
| Cart.AddNew | src/hooks/useSupabasePOS.ts:323-330 | a product not in the cart is appended as the last line, even with a non-positive quantity |
| Cart.AddKeepsIdsUnique | src/hooks/useSupabasePOS.ts:318-331 | adding keeps product ids unique |
| Cart.AddTwice | src/hooks/useSupabasePOS.ts:318-331 | adding a new product twice leaves one last line with quantity q1+q2 and the second override |
| PosHook.ItemRecords | src/hooks/useSupabasePOS.ts:276-284 | one line-item row per cart line, in order, with the receipt id and that line's product id, product name, quantity, sell price, cost price, and effective price as `final_price` |
| PosHook.StockUpdatesSpec | src/hooks/useSupabasePOS.ts:293-296 | one stock update per cart line, in cart order, writing only `stock` = snapshot stock minus quantity |
| PosHook.SaleCalls | src/hooks/useSupabasePOS.ts:240-316 | a sale makes a request exactly when there is a user and a non-empty cart, and the first request is the invoice number; `SaleCallsSteps` gives the next two steps, and `SaleStockUpdates` and `NoStockUpdateOnFailure` give the rest |
| PosHook.SaleStopsWithoutInvoice | src/hooks/useSupabasePOS.ts:252-256 | when invoice-number generation fails, the sale's only request is that one |
| PosHook.SaleInsertsReceipt | src/hooks/useSupabasePOS.ts:258-273 | with an invoice number, the second request inserts the `receipts` row of user id, subtotal, discount, subtotal minus discount, profit, payment method and invoice number; if no row comes back, the sale stops there |
| PosHook.SaleInsertsItems | src/hooks/useSupabasePOS.ts:275-296 | with a stored receipt, the third request inserts the line items under that receipt's id; if the insert fails the sale stops there, otherwise the stock updates follow |
| PosHook.SaleCallsSteps | src/hooks/useSupabasePOS.ts:252-290 | the first three steps in order (invoice number, receipt row, line items of the stored receipt); the first step that fails ends the requests |
| PosHook.SaleReceipt | src/hooks/useSupabasePOS.ts:298-310 | a receipt comes back exactly when the sale commits; it holds the cart, the payment method and the discount, and takes its id and timestamp from the stored receipt row; `SaleTotals` gives its figures |
| PosHook.NoSaleWithoutUserOrItems | src/hooks/useSupabasePOS.ts:241 | without a user or with an empty cart there is no receipt and no backend request |
| PosHook.SaleTotals | src/hooks/useSupabasePOS.ts:244-269 | a receipt carries the cart, subtotal, total = subtotal - discount unclamped, and profit = subtotal - cost of goods; the stored receipt row has the same figures and the invoice number |
| PosHook.SaleStockUpdates | src/hooks/useSupabasePOS.ts:286-296 | a sale that goes through makes three requests, then exactly one stock update per line in cart order |
| PosHook.NoStockUpdateOnFailure | src/hooks/useSupabasePOS.ts:253-290 | a sale that fails at the invoice, receipt or line-item step makes at most three requests and no stock update |
| PosHook.Pos.constructor | src/hooks/useSupabasePOS.ts:9-12 | empty product list and cart, loading |
| PosHook.Pos.LoadProducts | src/hooks/useSupabasePOS.ts:110-142 | with a user and a successful fetch the product list is the rows mapped one to one; otherwise it is kept; loading ends either way |
| PosHook.Pos.AddProduct | src/hooks/useSupabasePOS.ts:193-214 | sends the insert payload under the user's id; without a user nothing is sent |
| PosHook.Pos.UpdateProduct | src/hooks/useSupabasePOS.ts:216-238 | the field-by-field payload equals `UpdateColumns`; a backend failure is only reported, never raised |
| PosHook.Pos.ProcessTransaction | src/hooks/useSupabasePOS.ts:240-316 | returns a receipt exactly when user, non-empty cart, invoice, receipt and item steps succeed (stock failures do not matter); result and requests are `SaleReceipt` and `SaleCalls`, so the steps are those of `SaleCallsSteps` and `SaleStockUpdates` |
| PosHook.Pos.UpdateStock | src/hooks/useSupabasePOS.ts:293-296 | the loop issues exactly `StockUpdates(cart)`, whatever each update's outcome |
| PosHook.Pos.ProcessTransactionWrapper | src/hooks/useSupabasePOS.ts:354-360 | commits the held cart; the cart is cleared if and only if a receipt is returned, and kept otherwise |
| PosHook.Pos.AddToCart | src/hooks/useSupabasePOS.ts:318-331 | finds the product's line, then either calls `UpdateCartQuantity` with the summed quantity or appends; the new cart is `AddedToCart` of the old one, and a cart with unique product ids keeps them unique |
| PosHook.Pos.UpdateCartQuantity | src/hooks/useSupabasePOS.ts:333-344 | the new cart is `QuantityUpdated` of the old one; unique ids are preserved |
| PosHook.Pos.RemoveFromCart | src/hooks/useSupabasePOS.ts:346-348 | the new cart is `Removed` of the old one; unique ids are preserved |
| PosHook.Pos.ClearCart | src/hooks/useSupabasePOS.ts:350-352 | the cart is empty |
| ReceiptPrint.HandleThermalPrint | src/components/POS/Receipt.tsx:2-37 | connected and printed: one print only; a throw before connecting goes straight to the browser print; otherwise the trace is exactly the connect attempt, one print if it connected, then the browser print unless that print succeeded; browser print happens iff no thermal print succeeded, then exactly once and last |
| BluetoothManager.IsUserCancellation | src/components/POS/BluetoothManager.tsx:74-80 | an error is a cancellation exactly when its message contains "cancel" or its name is "NotFoundError" |
| BluetoothManager.WithDevice | src/components/POS/BluetoothManager.tsx:60-64 | the new device is last; every other device is from the old list and on another platform |
| BluetoothManager.WithDeviceKeepsOthers | src/components/POS/BluetoothManager.tsx:60-64 | every old device on another platform stays after a connect |
| BluetoothManager.WithoutDevice | src/components/POS/BluetoothManager.tsx:91-95 | without an id (or with an empty id) the list empties; with an id, only devices from the old list with other ids remain |
| BluetoothManager.WithoutDeviceKeepsOthers | src/components/POS/BluetoothManager.tsx:91-95 | with a non-empty id, every device with another id stays |
| BluetoothManager.WithDeviceOnePerPlatform | src/components/POS/BluetoothManager.tsx:60-64 | connecting keeps at most one device per platform |
| BluetoothManager.WithoutDeviceOnePerPlatform | src/components/POS/BluetoothManager.tsx:91-95 | disconnecting keeps at most one device per platform |
| BluetoothManager.Manager.constructor | src/components/POS/BluetoothManager.tsx:25-27 | not connecting, no devices, not connected |
| BluetoothManager.Manager.CheckConnection | src/components/POS/BluetoothManager.tsx:31-34 | the connected flag follows the printer's report |
| BluetoothManager.Manager.HandleConnect | src/components/POS/BluetoothManager.tsx:42-85 | success: the device replaces its platform's devices, last, and the flag is set; failure or rejection: list and flag unchanged; the notice classifies cancellations; `isConnecting` ends false |
| BluetoothManager.Manager.HandleDisconnect | src/components/POS/BluetoothManager.tsx:87-103 | success: `WithoutDevice` of the list and not connected; a throw changes nothing |
| Autocomplete.Displayed | src/components/ui/autocomplete.tsx:89-93 | the list is no longer than the items and shows only matching items; `DisplayedSpec` gives multiplicity and order |
| Autocomplete.DisplayedSpec | src/components/ui/autocomplete.tsx:89-93 | the list shows exactly the items whose lower-cased label or value contains the lower-cased input, with their multiplicity, in original order |
| Autocomplete.EmptyInputShowsAll | src/components/ui/autocomplete.tsx:89-93 | with nothing typed every item is shown |
| Autocomplete.CaseInsensitive | src/components/ui/autocomplete.tsx:89-93 | typing the lower-cased input shows the same items |
| Autocomplete.Autocomplete.constructor | src/components/ui/autocomplete.tsx:32-33 | closed, with the input holding the `value` prop |
| Autocomplete.Autocomplete.SyncValue | src/components/ui/autocomplete.tsx:35-37 | the input follows a new `value` prop |
| Autocomplete.Autocomplete.HandleSelect | src/components/ui/autocomplete.tsx:39-47 | a known value puts the first matching item's label in the input, reports the label (then the item, if `onSelect` is given) and closes; an unknown value changes nothing |
| Autocomplete.Autocomplete.HandleInputChange | src/components/ui/autocomplete.tsx:49-53 | the input takes the new text, which is reported, and the popover is open |
| Autocomplete.Autocomplete.HandleKeyDown | src/components/ui/autocomplete.tsx:55-60 | ArrowDown on a closed popover opens it and suppresses the default; other keys change nothing |
| Autocomplete.Autocomplete.Focus | src/components/ui/autocomplete.tsx:71 | focusing opens the popover |
| Autocomplete.Autocomplete.Toggle | src/components/ui/autocomplete.tsx:78 | the button flips the popover |

## Left out

- The backend's own behaviour is not modelled: queries, the invoice-number procedure, inserts and updates, server-side stock, and the uniqueness of invoice numbers. Each request is an outcome given as a parameter.
- The `ORDER BY name` of the product query is not modelled: the fetched rows come in whatever order the backend returns them.
- `Number(...)` conversions of numeric columns and JavaScript floating-point arithmetic are not modelled. Prices and quantities are integers.
- `formatPrice` is not modelled: it delegates to the locale library's number formatting.
- `loadReceipts` is not modelled: its row mapping depends on date parsing by a library.
- The client-missing stub (`src/hooks/useSupabasePOS.ts:15-35`) is not modelled, and neither are the commented-out realtime subscriptions.
- Toast messages are not modelled. Where a toast reports an outcome, the outcome is a result instead: the connect notice of `HandleConnect`, `added` of `AddProduct`, `saved` of `UpdateProduct` and `disconnected` of `HandleDisconnect`.
- Logging, polling intervals and all rendering are not modelled. `CheckConnection` models one poll.
- ReceiptPrint.HandleThermalPrint: assumes the browser print (`handlePrint`) and the toasts never throw. In the source, a browser print that throws inside the `try` is run again by the `catch`, and the second throw escapes the handler. A success toast that throws would also send control to the browser print. The "exactly once and last" promise depends on this assumption.
- `formatThermalReceipt` and the printer library are not part of this model. Formatting is assumed not to throw, and `getPlatformInfo` is assumed to return a string.
- Manual receipts are not modelled. `src/contexts/POSContext.tsx` passes the manual receipt's items where the wrapper expects a payment method. That call therefore commits the live cart, not the receipt's items.
- Sign-in and the admin check are not modelled (`src/contexts/AuthContext.tsx`, `src/components/Auth/LoginPage.tsx`).
- Text.Lower: lower-cases ASCII letters only, while JavaScript's `toLowerCase` covers all of Unicode.
- BluetoothManager.Manager.HandleConnect: a thrown value without properties (`null` or `undefined`) is not modelled. Reading its `message` would throw again out of the handler.
- PosHook.Pos.LoadProducts: assumes every fetched row has the `products` schema (`IsProductRow`). The model does not say what malformed rows would produce.
- React's asynchronous state updates are not modelled. Each handler is treated as applying its `setState` updates in order to the current state, so stale closures across renders are not captured.
