# Yerba-mate shop: stock and orders

A Dafny model of the stock-and-order domain of a small yerba-mate shop written in
TypeScript. It covers:

- the two stock ledgers: a kilogram ledger per product and the legacy unit ledger per variant;
- every movement those ledgers log;
- order creation on both writers, with order numbering and customer resolution;
- the HTTP routes that create orders from the counter-sale form and from the storefront
  checkout;
- the read-only stock pre-check;
- product creation with its slug, and the product form;
- the price rules of the catalogue;
- the storefront cart and its summary panel;
- the admin sales form with its per-product kilogram cap;
- the legacy packaged-stock sale;
- the in-memory promotions list;
- the two URL helpers.

The database is one object, `Store.Database`. It has one field per table. An
operation that writes tables is a method whose `modifies` clause names exactly those fields.
Each such method is tied by its `ensures` to a pure function of the old tables, and the
properties are proved about those functions. Kilograms and money are `real`, so arithmetic is
exact. Unit counts are `int`. Object state in the source is a Dafny `class`:

- the cart store;
- the sales-form and product-form state;
- the module-level promotions list.

Each exported asynchronous call is one atomic step. The clock, generated ids and the
`YBS-` suffix are parameters.

Places where the code breaks its own ledger invariants or could be read two ways; the model follows the code:

- `updateStockKg` and the legacy `updateStock` check only that stock stays non-negative. A
  stock decrease can therefore drop stock below what is reserved
  (`InventoryKg.UpdateCanOverdrawReservation`).
- `reserveStockKg` and the legacy `reserveStock` refuse only `reserved + q > stock`. A negative
  quantity is accepted, so reserved can fall below zero (`InventoryKg.ReserveCanGoNegative`,
  `InventoryUnits.ReserveCanGoNegative`); the ledger invariants do not include `reserved >= 0`.
- The checkout route is not atomic and does not run the stock check of `createOrder`:
  - it drives stock negative (`CheckoutCreateOrder.OversellExample`);
  - its clamp at zero breaks `available == stock - reserved`
    (`CheckoutCreateOrder.ClampBreaksBalance`);
  - its movements break the ledger's snapshot rule (`CheckoutCreateOrder.CheckoutMovementSnapshot`).

Other behaviour the model makes explicit:

- Both order numberings count every order of the day, so a checkout order leaves a gap in
  the `ORD-` sequence (`CheckoutCreateOrder.CheckoutOrderLeavesGap`).
- The stock pre-check does not sum lines of the same product, so it approves carts that
  `createOrder` refuses (`ValidateStock.DuplicateLinesPass`).
- In the cart summary, one more bag can lower the amount due
  (`CartSummary.AddingABagCanLowerTheBill`).
- The sales form accepts a negative quantity (`SalesForm.NegativeQuantityAccepted`).
- The packaged-stock sale sells below zero (`PackagedSales.OversellExample`). A sale with two
  lines of the same variety and size fails on the line key after the first line's stock is
  gone (`PackagedSales.DuplicateItemsClash`).

## Model

| member | source | states |
|---|---|---|
| InventoryKg.UpdateStock | src/lib/database/inventory-v2.ts:146-212 | not found without a record; refused, with the current stock and the size of the delta, exactly when stock + delta < 0 |
| InventoryKg.UpdateStockEffect | src/lib/database/inventory-v2.ts:168-211 | on success only this record changes: stock + delta, available = new stock − reserved, the rest of the record kept; one movement appended whose snapshot rule holds |
| InventoryKg.ReserveStock | src/lib/database/inventory-v2.ts:214-250 | refused exactly when reserved + q > stock, with the available kg in the error; otherwise reserved + q ≤ stock, stock and the log unchanged, other records unchanged |
| InventoryKg.Restock | src/lib/database/inventory-v2.ts:252-269 | for a known product with q ≥ 0 it succeeds: stock + q and one `in` movement with reason defaulting to "Restock" and reference type `restock` |
| InventoryKg.UpdatePreservesValidity | src/lib/database/inventory-v2.ts:146-212 | every successful update keeps balanced non-negative records and the snapshot rule of every movement |
| InventoryKg.ReservePreservesValidity | src/lib/database/inventory-v2.ts:214-250 | every successful reservation keeps the ledger invariants |
| InventoryKg.UpdateCanOverdrawReservation | src/lib/database/inventory-v2.ts:166-170 | a valid ledger and an accepted decrease that leaves reserved > stock and available < 0 |
| InventoryKg.ReserveCanGoNegative | src/lib/database/inventory-v2.ts:229-233 | on a valid record, a quantity taking reserved below zero is accepted and leaves reserved < 0 |
| InventoryKg.UpdatePreservesReplay | src/lib/database/inventory-v2.ts:172-205 | each product's stock stays the sum of its logged movements |
| InventoryKg.NewRecordPreservesReplay | src/lib/database/inventory-v2.ts:146-212 | a zero-stock record for a product absent from the log keeps the replay |
| InventoryKg.LowStockItems | src/lib/database/inventory-v2.ts:64-81 | exactly the rows with stock ≤ minimum, each as often as in the table, sorted by ascending stock |
| InventoryKg.OutOfStockItems | src/lib/database/inventory-v2.ts:83-98 | exactly the rows with stock = 0 |
| InventoryKg.Stats | src/lib/database/inventory-v2.ts:100-140 | the in-stock count is the number of rows with stock, the other counts agree with the two alert lists, the kg total and the value are sums over the rows |
| InventoryKg.StatsOfValidRows | src/lib/database/inventory-v2.ts:100-140 | with non-negative stock, in-stock plus out-of-stock is the row count and the kg total is non-negative |
| InventoryKg.StatsValueNonNegative | src/lib/database/inventory-v2.ts:100-140 | non-negative stock and costs give a non-negative value |
| InventoryKg.StatsIgnoreOrder | src/lib/database/inventory-v2.ts:100-140 | any two enumerations of the table give the same statistics |
| InventoryKg.UpdateStockKg | src/lib/database/inventory-v2.ts:146-212 | the tables afterwards are those of `UpdateStock`; a refusal changes nothing |
| InventoryKg.ReserveStockKg | src/lib/database/inventory-v2.ts:214-250 | the inventory afterwards is that of `ReserveStock`; the log is untouched |
| InventoryKg.RestockProduct | src/lib/database/inventory-v2.ts:252-269 | the tables afterwards are those of `Restock` |
| InventoryKg.GetLowStockItems | src/lib/database/inventory-v2.ts:64-81 | the low rows of the table, sorted by stock |
| InventoryKg.GetOutOfStockItems | src/lib/database/inventory-v2.ts:83-98 | the rows with zero stock |
| InventoryKg.GetInventoryStats | src/lib/database/inventory-v2.ts:100-140 | the statistics of every enumeration of the table |
| InventoryUnits.UpdateStock | src/lib/database/inventory-old.ts:217-281 | not found without a record; refused exactly when stock + change < 0 |
| InventoryUnits.UpdateStockEffect | src/lib/database/inventory-old.ts:239-279 | on success only this variant's record changes, by `change`, and one movement is appended with the before and after stock |
| InventoryUnits.UpdatePreservesValidity | src/lib/database/inventory-old.ts:217-281 | successful updates keep the ledger invariants |
| InventoryUnits.ReserveStock | src/lib/database/inventory-old.ts:283-320 | refused exactly when reserved + q > stock; otherwise reserved + q ≤ stock, balanced, log untouched |
| InventoryUnits.ReserveCanGoNegative | src/lib/database/inventory-old.ts:297-302 | on a valid ledger, a quantity taking reserved below zero is accepted and leaves reserved < 0 |
| InventoryUnits.ReleaseReserved | src/lib/database/inventory-old.ts:322-354 | succeeds exactly for a known variant; reserved − q floored at 0, available re-derived, log untouched |
| InventoryUnits.ReleaseUndoesReserve | src/lib/database/inventory-old.ts:283-354 | releasing what was just reserved restores the ledger |
| InventoryUnits.Restock | src/lib/database/inventory-old.ts:360-377 | for a known variant with q ≥ 0 it succeeds with stock + q and one `in` movement |
| InventoryUnits.RestockAllSucceeds | src/lib/database/inventory-old.ts:379-402 | known variants and non-negative quantities: one result per entry, in order, each variant raised by the sum of its entries |
| InventoryUnits.RestockPrefixFailure | src/lib/database/inventory-old.ts:379-402 | once an entry fails the whole call fails with that error |
| InventoryUnits.LowStockItems | src/lib/database/inventory-old.ts:76-109 | exactly the rows at or below a non-null minimum, sorted by stock |
| InventoryUnits.OutOfStockItems | src/lib/database/inventory-old.ts:111-142 | exactly the rows with zero stock |
| InventoryUnits.Stats | src/lib/database/inventory-old.ts:408-441 | counts agree with the lists; the value is a sum at the variant cost |
| InventoryUnits.StatsPartition | src/lib/database/inventory-old.ts:408-441 | with non-negative stock, in stock plus out of stock is the row count |
| InventoryUnits.StatsIgnoreOrder | src/lib/database/inventory-old.ts:408-441 | any two enumerations of the table give the same statistics |
| InventoryUnits.InventoryAlerts | src/lib/database/inventory-old.ts:443-452 | both lists, and a total that is the sum of their lengths |
| InventoryUnits.EmptyVariantCountsTwice | src/lib/database/inventory-old.ts:443-452 | an empty variant with a non-negative minimum is in both lists |
| InventoryUnits.UpdateUnitStock | src/lib/database/inventory-old.ts:217-281 | the tables afterwards are those of `UpdateStock` |
| InventoryUnits.ReserveUnitStock | src/lib/database/inventory-old.ts:283-320 | the tables afterwards are those of `ReserveStock` |
| InventoryUnits.ReleaseReservedStock | src/lib/database/inventory-old.ts:322-354 | the tables afterwards are those of `ReleaseReserved` |
| InventoryUnits.RestockVariant | src/lib/database/inventory-old.ts:360-377 | the tables afterwards are those of `Restock` |
| InventoryUnits.BulkRestock | src/lib/database/inventory-old.ts:379-402 | all entries applied in order, or on a failure the tables as they were |
| InventoryUnits.GetInventoryAlerts | src/lib/database/inventory-old.ts:443-452 | the two alert lists of the table and their total |
| InventoryUnits.GetLowStockItems | src/lib/database/inventory-old.ts:76-109 | the low rows, sorted by stock |
| InventoryUnits.GetOutOfStockItems | src/lib/database/inventory-old.ts:111-142 | the empty rows |
| InventoryUnits.GetInventoryStats | src/lib/database/inventory-old.ts:408-441 | the statistics of every enumeration of the table |
| OrderNumbers.Decimal | src/lib/database/orders.ts:187 | `String(n)`: digits only, no leading zero |
| OrderNumbers.DecimalRoundTrip | src/lib/database/orders.ts:187 | reading the digits back gives n |
| OrderNumbers.PadStartShape | src/lib/database/orders.ts:187 | `padStart` yields max(width, length) characters, fill on the left, the string at the end |
| OrderNumbers.PadValue | src/lib/database/orders.ts:187 | zero padding does not change the value |
| OrderNumbers.OrderNumberInjective | src/lib/database/orders.ts:171-190 | within one day distinct counts give distinct numbers |
| OrderNumbers.FirstOrderOfTheDay | src/lib/database/orders.ts:186-189 | the first order of a day is `ORD-YYYYMMDD-0001` |
| OrderNumbers.OrdersOnAppend | src/lib/database/orders.ts:181-184 | one more order raises its day's count by one and no other day's |
| Customers.Resolve | src/lib/database/orders.ts:10-57 | the first customer with the email if an email is given, else the first with the phone, else a new guest row with zero totals appended |
| Customers.RecordPurchase | src/lib/database/orders.ts:152-161 | only the customer's row changes: one more order, total spent + total, last order date today |
| Customers.PurchaseExample | src/lib/database/orders.ts:152-161 | 3 orders worth 1000 plus one of 250 give 4 orders worth 1250 |
| Customers.FindOrCreateCustomer | src/lib/database/orders.ts:10-57 | the customer and table afterwards are those of `Resolve` |
| OrdersKg.OrderRecord | src/lib/database/orders.ts:94-121 | subtotal is the sum of line prices, total = subtotal + shipping − discount, confirmed and paid, payment method defaulting to "efectivo" |
| OrdersKg.LinesShape | src/lib/database/orders.ts:124-137 | one line row per item, in order, each the row of its item, with the item's kg and price |
| OrdersKg.FeasiblePrefix | src/lib/database/orders.ts:124-150 | an item list is feasible exactly when its prefix is and the last line fits what remains |
| OrdersKg.DecrementOutcome | src/lib/database/orders.ts:124-150 | the decrements succeed exactly when every line fits its product's remaining stock, and each product then loses the kg of its lines |
| OrdersKg.DecrementKeepsRecords | src/lib/database/orders.ts:139-149 | only stock and available change; balanced records stay balanced |
| OrdersKg.DecrementMovements | src/lib/database/orders.ts:139-149 | one `out` movement per line, in order, with the line's kg, the reason and the order reference |
| OrdersKg.DecrementPreservesValidity | src/lib/database/orders.ts:124-150 | a successful order keeps the ledger invariants |
| OrdersKg.DecrementPreservesReplay | src/lib/database/orders.ts:124-150 | a successful order keeps stock equal to the fold of the log |
| OrdersKg.PrefixFailure | src/lib/database/orders.ts:124-150 | a failing prefix makes the whole run fail with its error |
| OrdersKg.NextOrderNumber | src/lib/database/orders.ts:171-190 | the order written counts towards its day, so the next number differs |
| OrdersKg.WriteLines | src/lib/database/orders.ts:124-150 | line rows and ledger afterwards are `Lines` and `DecrementLines` of the items, or the first failure |
| OrdersKg.CreateOrder | src/lib/database/orders.ts:63-165 | on success the header, lines, ledger and customer stats as specified; on a failure every table as it was |
| OrdersUnits.OrderRecord | src/lib/database/orders-old.ts:94-122 | the same header rules as the kilogram writer |
| OrdersUnits.LinesShape | src/lib/database/orders-old.ts:125-134 | one line row per item, in order, with its price |
| OrdersUnits.FeasiblePrefix | src/lib/database/orders-old.ts:125-147 | feasibility of a list from its prefix and last line |
| OrdersUnits.DecrementOutcome | src/lib/database/orders-old.ts:125-147 | succeeds exactly when every line fits, and each variant loses its lines' units |
| OrdersUnits.DecrementMovements | src/lib/database/orders-old.ts:137-146 | one `out` movement per line, in order |
| OrdersUnits.DecrementPreservesValidity | src/lib/database/orders-old.ts:125-147 | a successful order keeps the ledger invariants |
| OrdersUnits.PrefixFailure | src/lib/database/orders-old.ts:125-147 | a failing prefix makes the whole run fail |
| OrdersUnits.WriteLines | src/lib/database/orders-old.ts:125-147 | line rows and ledger afterwards are those of the spec functions |
| OrdersUnits.CreateOrder | src/lib/database/orders-old.ts:64-162 | on success header, lines, ledger and customer stats; on failure nothing changes |
| OrdersRoute.Validate | src/app/api/orders/route.ts:21-34 | name and phone checked first, then a non-empty item list; accepted exactly when all hold |
| OrdersRoute.CustomerDataOf | src/app/api/orders/route.ts:37-42 | a guest lookup with the name and phone; an empty email counts as none |
| OrdersRoute.OrderInputOf | src/app/api/orders/route.ts:45-65 | channel defaults to presencial, address to store pickup, payment to "efectivo"; shipping and discount are 0 |
| OrdersRoute.ClientTotalsIgnored | src/app/api/orders/route.ts:16-17 | the subtotal and total the client sends do not change the order written |
| OrdersRoute.CounterSaleTotal | src/app/api/orders/route.ts:45-65 | the total stored is the sum of the line prices |
| OrdersRoute.Post | src/app/api/orders/route.ts:4-84 | a 400 with the message on a failed check and no writes; otherwise the customer resolution then `CreateOrder` |
| CheckoutCreateOrder.ResolveByEmail | src/app/api/checkout/create-order/route.ts:65-94 | the first customer with the exact email, else a new guest appended |
| CheckoutCreateOrder.CheckoutOrder | src/app/api/checkout/create-order/route.ts:99-117 | pending and unpaid, channel default online, the client's totals copied unchanged |
| CheckoutCreateOrder.CheckoutStock | src/app/api/checkout/create-order/route.ts:121-174 | every product with a record loses the kg of its lines; records are never added or removed |
| CheckoutCreateOrder.SameStockAsCreateOrder | src/app/api/checkout/create-order/route.ts:145-159 | where `createOrder` succeeds, both paths leave the same stock column |
| CheckoutCreateOrder.OversellExample | src/app/api/checkout/create-order/route.ts:145-159 | 2 kg asked of 1 kg: `createOrder` refuses, checkout leaves −1 kg |
| CheckoutCreateOrder.ClampBreaksBalance | src/app/api/checkout/create-order/route.ts:149 | the zero clamp leaves available ≠ stock − reserved |
| CheckoutCreateOrder.CheckoutMovementSnapshot | src/app/api/checkout/create-order/route.ts:162-172 | the logged movement keeps the snapshot rule exactly when the line moves 0 kg |
| CheckoutCreateOrder.CheckoutBreaksReplay | src/app/api/checkout/create-order/route.ts:162-172 | a non-zero line breaks the fold of the log into the stock column |
| CheckoutCreateOrder.CheckoutOrderLeavesGap | src/lib/database/orders.ts:181-186 | a checkout order of the same day skips an `ORD-` number |
| CheckoutCreateOrder.CheckoutCustomer | src/app/api/checkout/create-order/route.ts:65-94 | the customer and table afterwards are those of `ResolveByEmail` |
| CheckoutCreateOrder.WriteCheckoutLines | src/app/api/checkout/create-order/route.ts:121-174 | line rows for every item and the ledger of `CheckoutLedger` |
| CheckoutCreateOrder.Post | src/app/api/checkout/create-order/route.ts:38-204 | a 400 without name, phone or items; otherwise customer, header, lines and stock writes |
| ValidateStock.Lookup | src/app/api/checkout/validate-stock/route.ts:30-35 | found exactly when the record and the product both exist |
| ValidateStock.CheckItem | src/app/api/checkout/validate-stock/route.ts:28-71 | not found without the join; otherwise valid exactly when size × quantity ≤ available |
| ValidateStock.Post | src/app/api/checkout/validate-stock/route.ts:14-89 | a 400 exactly for a missing or empty list; otherwise one result per item in order, success exactly when all are valid |
| ValidateStock.DuplicateLinesPass | src/app/api/checkout/validate-stock/route.ts:47-50 | two 1 kg lines pass against 1 kg while `createOrder` refuses them |
| ProductsCatalogue.PriceForSize | src/lib/database/products-v2.ts:162-167 | null without a map, null for a missing or zero price, the price otherwise |
| ProductsCatalogue.WithPrices | src/lib/database/products-v2.ts:172-176 | one pair per size, in order, with a missing price as 0 |
| ProductsCatalogue.SizesWithPrices | src/lib/database/products-v2.ts:169-179 | [] without sizes or prices; otherwise sorted by size |
| ProductsCatalogue.SizesWithPricesMembers | src/lib/database/products-v2.ts:169-179 | a pair is offered exactly when its size is listed with a positive price |
| ProductsCatalogue.OfferedPriceAgrees | src/lib/database/products-v2.ts:162-179 | every offered pair carries the price `getPriceForSize` gives |
| ProductsCatalogue.SizesWithPricesCount | src/lib/database/products-v2.ts:169-179 | a size listed n times with a positive price is offered n times |
| ProductsRoute.Validate | src/app/api/products/route.ts:42-70 | name and slug first, then sizes, then slug uniqueness; accepted exactly when all hold |
| ProductsRoute.NewProduct | src/app/api/products/route.ts:72-88 | status defaults to draft, featured only when true, sizes and prices as sent |
| ProductsRoute.CreationKeepsSlugsUnique | src/app/api/products/route.ts:57-88 | an accepted product keeps slugs unique |
| ProductsRoute.InitialRecordKeepsLedger | src/app/api/products/route.ts:92-101 | the initial zero record is valid and keeps the ledger invariants and the replay |
| ProductsRoute.Post | src/app/api/products/route.ts:20-119 | for a fresh generated id: on acceptance the product and its initial record are inserted and the 200 reply carries id, name and slug; otherwise the 400 message and nothing changes |
| ProductForm.Lower | src/app/dashboard/productos/crear/page.tsx:86 | an upper-case ASCII letter becomes the letter 32 code points above it, everything else is kept |
| ProductForm.KeepSlugChars | src/app/dashboard/productos/crear/page.tsx:87 | only slug characters and whitespace remain, each as often as before |
| ProductForm.DashifyRemovesSpaces | src/app/dashboard/productos/crear/page.tsx:88 | no whitespace is left |
| ProductForm.DashifyKeepsSlugChars | src/app/dashboard/productos/crear/page.tsx:87-88 | on kept characters the result holds only slug characters |
| ProductForm.DashifyNoSpaces | src/app/dashboard/productos/crear/page.tsx:88 | a string without whitespace is unchanged |
| ProductForm.Slug | src/app/dashboard/productos/crear/page.tsx:84-90 | the slug holds only a–z, 0–9 and '-' |
| ProductForm.SlugIdempotent | src/app/dashboard/productos/crear/page.tsx:84-90 | a slug is its own slug |
| ProductForm.SlugExample | src/app/dashboard/productos/crear/page.tsx:84-90 | "Mate  Sur" becomes "mate-sur" |
| ProductForm.SubmitError | src/app/dashboard/productos/crear/page.tsx:121-140 | no error exactly when name and slug are set, a size is ticked and every ticked size has a positive price |
| ProductForm.ProductFormState.constructor | src/app/dashboard/productos/crear/page.tsx:76-141 | the empty form with the four default sizes at price 0 |
| ProductForm.ProductFormState.InputChange | src/app/dashboard/productos/crear/page.tsx:76-92 | the field is set; a change of name also sets the slug |
| ProductForm.ProductFormState.SizeChange | src/app/dashboard/productos/crear/page.tsx:94-103 | ticking appends the size, unticking removes every copy |
| ProductForm.ProductFormState.PriceChange | src/app/dashboard/productos/crear/page.tsx:105-113 | the size's price is set, an unparsable price as 0 |
| ProductForm.UntickRemoves | src/app/dashboard/productos/crear/page.tsx:97 | the size is gone and every other size keeps its count |
| ProductForm.SubmittedFormPricesEverySize | src/app/dashboard/productos/crear/page.tsx:129-140 | a form that passes its checks yields a product offered at a positive price in every ticked size |
| CartStore.FindIndex | src/store/cart-store.ts:30-32 | −1 exactly when no line has the product and size; otherwise the first such line |
| CartStore.AddItemEffect | src/store/cart-store.ts:28-43 | an existing line gains one unit and nothing else changes; otherwise one line of quantity 1 is appended |
| CartStore.AddKeepsUnique | src/store/cart-store.ts:28-43 | adding keeps (product, size) keys unique |
| CartStore.AddTotals | src/store/cart-store.ts:28-43 | the item count rises by one and the price by the line's price |
| CartStore.RemoveEffect | src/store/cart-store.ts:45-51 | exactly the matching line is removed, the others keep their order |
| CartStore.RemoveKeepsUnique | src/store/cart-store.ts:45-51 | removing keeps keys unique |
| CartStore.RemoveTotals | src/store/cart-store.ts:45-51 | the totals drop by the removed line |
| CartStore.UpdateEffect | src/store/cart-store.ts:53-66 | a positive quantity replaces only the matching line's quantity; otherwise the line is removed |
| CartStore.UpdateKeepsUnique | src/store/cart-store.ts:53-66 | updating keeps keys unique |
| CartStore.UpdateTotals | src/store/cart-store.ts:53-66 | the totals change by the difference in quantity |
| CartStore.Cart.constructor | src/store/cart-store.ts:26 | an empty cart |
| CartStore.Cart.AddItem | src/store/cart-store.ts:28-43 | the items become `Added` of the old items; keys stay unique |
| CartStore.Cart.RemoveItem | src/store/cart-store.ts:45-51 | the items become `Removed` of the old items |
| CartStore.Cart.UpdateQuantity | src/store/cart-store.ts:53-66 | the items become `Updated` of the old items |
| CartStore.Cart.ClearCart | src/store/cart-store.ts:68-70 | the items become empty |
| CartSummary.ShippingCost | src/components/cart/cart-summary.tsx:19 | 0 exactly when the total is above 5000, else 800 |
| CartSummary.FinalTotal | src/components/cart/cart-summary.tsx:20 | the total plus the shipping cost |
| CartSummary.Summary | src/components/cart/cart-summary.tsx:16-39 | the empty state exactly for an empty cart; otherwise the store's totals with shipping |
| CartSummary.ThresholdPaysShipping | src/components/cart/cart-summary.tsx:19 | 5000 pays 800, 5000.5 pays nothing |
| CartSummary.FinalTotalDropsAtThreshold | src/components/cart/cart-summary.tsx:19-20 | just above 5000 the amount due is below that of 5000 |
| CartSummary.AddingABagCanLowerTheBill | src/components/cart/cart-summary.tsx:19-20 | adding a 200 bag to a 4900 cart lowers the amount due from 5700 to 5100 |
| CartSummary.EmptyCartHasNoCheckout | src/components/cart/cart-summary.tsx:22-39 | the checkout button appears exactly for a non-empty cart |
| SalesForm.IndexOf | src/app/dashboard/ventas/sales-form.tsx:98-101 | −1 exactly when no line has the product and size; otherwise the first |
| SalesForm.AddRefused | src/app/dashboard/ventas/sales-form.tsx:80-95 | refused exactly when the kg in the cart for the product plus size × quantity exceeds the available kg; the cart is then unchanged |
| SalesForm.AddRespectsStock | src/app/dashboard/ventas/sales-form.tsx:80-134 | after an accepted add the product's kg in the cart is the requested kg and within the available kg |
| SalesForm.AddKeepsOtherProducts | src/app/dashboard/ventas/sales-form.tsx:97-134 | other products' kg in the cart are unchanged |
| SalesForm.AddKeepsKeys | src/app/dashboard/ventas/sales-form.tsx:97-134 | keys stay unique |
| SalesForm.AddMerges | src/app/dashboard/ventas/sales-form.tsx:103-110 | a merged line has its quantity raised by the request; the rest is unchanged |
| SalesForm.AddAppends | src/app/dashboard/ventas/sales-form.tsx:117-128 | otherwise one line is appended with the availableKg snapshot |
| SalesForm.UpdateIgnored | src/app/dashboard/ventas/sales-form.tsx:159-164 | a quantity below 1 or an unknown line leaves the cart unchanged |
| SalesForm.UpdateRespectsStock | src/app/dashboard/ventas/sales-form.tsx:166-184 | a change sets only that line's quantity, and the product's kg is within the line's available kg |
| SalesForm.UpdateLineKeepsKeys | src/app/dashboard/ventas/sales-form.tsx:178-184 | keys stay unique |
| SalesForm.RemoveEffect | src/app/dashboard/ventas/sales-form.tsx:142-148 | exactly the matching line is removed |
| SalesForm.RemoveKeepsKeys | src/app/dashboard/ventas/sales-form.tsx:142-148 | keys stay unique |
| SalesForm.SubmitError | src/app/dashboard/ventas/sales-form.tsx:196-204 | the empty-cart message first, then the customer message; none exactly for a non-empty cart with name and phone |
| SalesForm.RequestMatchesCart | src/app/dashboard/ventas/sales-form.tsx:187-233 | the request's line prices sum to the subtotal and its kg per product equal the cart's |
| SalesForm.SubmittedFormIsAccepted | src/app/dashboard/ventas/sales-form.tsx:193-243 | a form that passes its checks passes the order route, and the stored total is the form's total |
| SalesForm.NegativeQuantityAccepted | src/app/dashboard/ventas/sales-form.tsx:80-90 | a quantity of −2 passes the kg check and is appended |
| SalesForm.SalesFormState.constructor | src/app/dashboard/ventas/sales-form.tsx:57-69 | an empty cart, the presencial channel, "efectivo" and quantity 1 |
| SalesForm.SalesFormState.SetQuantity | src/app/dashboard/ventas/sales-form.tsx:377 | the parsed number, or 1 when nothing parses |
| SalesForm.SalesFormState.SelectProduct | src/app/dashboard/ventas/sales-form.tsx:329 | the product selection is set |
| SalesForm.SalesFormState.SelectSize | src/app/dashboard/ventas/sales-form.tsx:350 | the size selection is set |
| SalesForm.SalesFormState.AddToCart | src/app/dashboard/ventas/sales-form.tsx:76-140 | nothing without a selection; otherwise the cart becomes `AddLine` of the old cart, and the selection resets unless refused |
| SalesForm.SalesFormState.RemoveFromCart | src/app/dashboard/ventas/sales-form.tsx:142-152 | the cart becomes `RemoveLine` of the old cart |
| SalesForm.SalesFormState.UpdateQuantity | src/app/dashboard/ventas/sales-form.tsx:154-185 | the cart becomes `UpdateLine` of the old cart |
| SalesForm.SalesFormState.HandleSubmit | src/app/dashboard/ventas/sales-form.tsx:193-260 | a refused form sends nothing; an accepted one sends the request, and on success clears cart and customer fields |
| PackagedSales.Rows | src/app/api/sales/route.ts:35-42 | one sale-line row per item, in order |
| PackagedSales.StockIndex | src/app/api/sales/route.ts:43-52 | −1 exactly when no row has the variety and size; otherwise the first |
| PackagedSales.LotIndex | src/app/api/sales/route.ts:59-63 | −1 exactly when no lot has the id; otherwise the first |
| PackagedSales.ApplyItemEffect | src/app/api/sales/route.ts:43-71 | the first matching row loses the units, no floor; its lot loses units × size; every other row and lot is unchanged; no matching row changes nothing |
| PackagedSales.OversellExample | src/app/api/sales/route.ts:53-58 | 3 bags off a row of 1 leave −2 |
| PackagedSales.DistinctItemsNeverClash | src/app/api/sales/route.ts:35-42 | with a fresh sale id and distinct variety and size per item no line insert collides |
| PackagedSales.DuplicateItemsClash | src/app/api/sales/route.ts:35-42 | a repeated variety and size collides on the second line |
| PackagedSales.TakeStock | src/app/api/sales/route.ts:43-71 | the stock tables afterwards are `ApplyItem` of the old ones |
| PackagedSales.WriteItems | src/app/api/sales/route.ts:35-72 | success exactly when no line collides; the lines before the first collision are written with their stock changes |
| PackagedSales.Post | src/app/api/sales/route.ts:23-74 | the sale row, dated with the request's `fecha` when sent and otherwise with the database's current time, with total = Σ price × units, then the lines and stock writes of `WriteItems` |
| Promotions.ParsePromo | src/app/api/promotions/route.ts:12-15 | a string title and a number discount, otherwise nothing |
| Promotions.ParseId | src/app/api/promotions/route.ts:43 | a numeric id, otherwise nothing |
| Promotions.PostEffect | src/app/api/promotions/route.ts:21-33 | a valid body appends exactly its promotion with the fresh id (201); any other body is a 400 with the list unchanged |
| Promotions.DeleteEffect | src/app/api/promotions/route.ts:41-45 | no promotion with the id remains, all others remain, and the old order is kept |
| Promotions.PostThenDelete | src/app/api/promotions/route.ts:21-45 | deleting the promotion just created restores the list |
| Promotions.CreateListDeleteList | test/promotions-api.test.ts:7-31 | create, list, delete, list: 201 then lengths 1 and 0 |
| Promotions.PromotionList.constructor | src/app/api/promotions/route.ts:10 | the list starts empty |
| Promotions.PromotionList.List | src/app/api/promotions/route.ts:17-19 | the current list |
| Promotions.PromotionList.Post | src/app/api/promotions/route.ts:21-39 | list and reply are `PostOn` of the old list |
| Promotions.PromotionList.Delete | src/app/api/promotions/route.ts:41-58 | list and reply are `DeleteOn` of the old list |
| RouteUtils.Collapse | src/lib/route-utils.ts:38 | no '//' is left, the first character is kept and nothing is added |
| RouteUtils.CollapsePair | src/lib/route-utils.ts:38 | a '//' anywhere collapses exactly as a single '/' would |
| RouteUtils.CollapseFixed | src/lib/route-utils.ts:38 | a path is unchanged exactly when it has no '//' |
| RouteUtils.CollapseKeepsText | src/lib/route-utils.ts:38 | every non-'/' character is kept, in order |
| RouteUtils.NormalizePath | src/lib/route-utils.ts:38-41 | the collapsed path, less at most one trailing '/'; no '//', a trailing '/' only on "/" itself, and "/" kept |
| RouteUtils.NormalizeUrl | src/lib/route-utils.ts:36-43 | origin, query and fragment are unchanged |
| RouteUtils.NormalizeIdempotent | src/lib/route-utils.ts:36-43 | normalising twice is normalising once |
| RouteUtils.NormalizeExample | test/route-utils.test.ts:10-13 | "https://ejemplo.com//foo/bar/" becomes "https://ejemplo.com/foo/bar" |
| RouteUtils.SetParamEffect | src/lib/route-utils.ts:21 | afterwards the key has one pair holding the value, and the other pairs are unchanged and in order |
| RouteUtils.FreshQueryKeepsOrder | src/lib/route-utils.ts:19-22 | on an empty query, distinct keys come out as the parameters with a value, in their order |
| RouteUtils.BuildUrl | src/lib/route-utils.ts:13-24 | the URL with the query of `WithParams`: null and undefined skipped, the rest set in order |
| RouteUtils.SearchParamsExample | test/route-utils.test.ts:5-8 | q=yerba and page=1 on an empty query give the pairs q=yerba, page=1, in that order |
| RouteUtils.BuildUrlExample | test/route-utils.test.ts:5-8 | q=yerba and page=1 give "https://ejemplo.com/buscar?q=yerba&page=1" |

## Left out

- I/O, the clock, generated ids, and the `YBS-` suffix of a checkout number are parameters. Floating-point rounding and string conversion of numbers are not modelled; kilograms and money are exact reals.
- The nested `db.transaction` inside `createOrder` and `bulkRestock` is not modelled: a failure restores the tables the call wrote, and concurrent calls are not modelled at all.
- The `notes` and `createdBy` columns of movements, and the free-text notes of orders, are not modelled.
- The customer-statistics update of the checkout route does arithmetic on column objects and has no stated meaning; it is left out.
- `firstName`/`lastName` splitting of the checkout customer, orderings by name, and the joins of the read queries beyond what a row holds are left out.
- `toLowerCase` is modelled on ASCII letters only.
- Price maps are keyed by the size as a number rather than by its `toString`.
- `parseFloat`/`parseInt` are parameters (an `Option` of the parsed number).
- The `referenceId` argument of `reserveStock` is unused in the source and dropped.
- The 500 catch-all replies of every route are left out; they arise only from database or runtime errors outside the model.
- Channels are an enumeration, not free strings.
- A null `availableKg` read as `'0'` in the stock pre-check is not modelled; the column is always set.
- The cart store's persistence to local storage is left out.
- CartStore.Cart.AddItem: the source increments the quantity of the shared line object in place, which aliases the previous state; the model builds a new sequence and does not capture that aliasing.
- The sales form's toasts, the undefined `setSelectedVariant` called when a product is chosen, and the string key `${productId}-${sizeKg}` are not modelled; the key is the pair, and sizes are matched by value rather than by `toString`.
- The sale date (`fecha`) is held to the day and already parsed: `new Date(...)` of the sent text, and a sent empty string (which the route treats as absent), are not modelled. The database's current time is a parameter. `GET /api/sales` (a plain read of the table) is left out.
- PackagedSales.StockIndex: `LIMIT 1` without an order picks some matching row; the model picks the first one in table order.
- The URL parser itself (`new URL`, relative path resolution, percent-encoding and form-encoding of query values) is not modelled: URLs are held parsed, and values are written out as they are.
- RouteUtils.Display: `String(value)` is modelled for strings, booleans and integers only; non-integer numbers are not.
- The 500 reply of the promotions route for errors other than a validation or syntax error is left out.
- OrdersUnits.CreateOrder, OrdersUnits.WriteLines: src/lib/database/orders-old.ts:4 imports `updateStock` from a `./inventory` module that is not part of this model; the model takes it to behave as the `updateStock` of the unit inventory (src/lib/database/inventory-old.ts:217-281).
- RouteUtils.BuildUrl: the parameters are set in the order they are given; `Object.entries` lists integer-like keys first, and that reordering is not modelled.
