# macao-comanda: the order and till ledger

macao-comanda is a restaurant ordering and cash-register web app. Waiters
build a cart and submit it as an order for a table. The kitchen moves each
order line through `pendiente → preparando → listo → entregado`. The
cashier bills a table, records the payment (deleting that table's open
orders) and at the end of the day closes the till: the day's payments are
saved as a closed session and both active collections are emptied.

This project models that ledger in Dafny. It covers:

- the four client stores: orders and cart, payments, till sessions, menu;
- the two cash-register screens (the admin dashboard and the `caja` page);
- the two order cards the kitchen uses;
- the `/api/pedidos` route.

Modelling conventions:

- Money is an integer number of cents and timestamps are integer
  milliseconds.
- "Now", the start of the day or month, newly generated document ids and the
  failure of any database call are parameters.
- The hosted document store is a `Database` object with three sequences
  (`pedidos`, `pagos`, `sesiones`). Each store method states exactly what it
  writes there and what the store's own fields become.

Modules, in dependency order:

| module | file | what it holds |
|---|---|---|
| `Seqs` | seqs.dfy | `filter`, `reduce`-sum, `findIndex`, and their algebra |
| `Sorting` | sorting.dfy | the stable sort used for `sort` and `orderBy` |
| `Text` | text.dfy | `toString`/`parseInt`, `Number` on table names, `toLowerCase`, `includes` |
| `Ledger` | ledger.dfy | records, the status pipeline, totals, the collections |
| `Grouping` | grouping.dfy | grouping into a `Map` in insertion order |
| `PedidosStore` | pedidos_store.dfy | `usePedidosStore` |
| `PagosStore` | pagos_store.dfy | `usePagosStore` |
| `SesionesStore` | sesiones_store.dfy | `useSesionesStore` |
| `MenuStore` | menu_store.dfy | `useMenuStore` |
| `PedidoItemCard`, `PedidoCard` | pedido_item_card.dfy, pedido_card.dfy | the kitchen cards |
| `PaymentForm` | payment_form.dfy | bill, tendered amount, change, and the admin payment modal |
| `AdminPage` | admin_page.dfy | admin dashboard |
| `CajaPage` | caja_page.dfy | `caja` page |
| `PedidosRoute` | pedidos_route.dfy | `GET`/`POST /api/pedidos` |

The store does not check status transitions. `updateItemStatus` writes
whatever status it is given, and the model keeps it that way
(`PedidosStore.StoreAcceptsSkip`). Only the kitchen card restricts the
choice to the immediate successor.

## Model

| member | source | states |
|---|---|---|
| Ledger.Successor | components/PedidoItemCard.tsx:83-108 | the pipeline step: none exactly for `entregado`, otherwise the status one rank further |
| Ledger.SetDocItems | store/usePedidosStore.ts:206-208 | `updateDoc` rewrites the lines of the document with that id and leaves every other document unchanged |
| Ledger.DeleteDoc | store/usePedidosStore.ts:284-285 | `deleteDoc` removes exactly the documents with that id and keeps every other |
| PedidosStore.CartAdd | store/usePedidosStore.ts:81-93 | a known id: same length, that line's quantity plus one, all other lines as they were; a new id: the cart with one line of quantity 1 appended |
| PedidosStore.CartRemove | store/usePedidosStore.ts:95-97 | the result holds no line with the id, only lines of the cart, and every line of the cart with another id; it is the cart's lines at exactly the positions with another id, in their original order |
| PedidosStore.QuantityAppend | store/usePedidosStore.ts:81-93 | the units of an item in two concatenated carts are the sum of the units in each |
| PedidosStore.QuantityAbsent | store/usePedidosStore.ts:90-92 | an id not in the cart has zero units |
| PedidosStore.QuantityIncrement | store/usePedidosStore.ts:82-89 | raising one line of a cart with unique ids raises that item's units by one and no other item's |
| PedidosStore.QuantityUnchanged | store/usePedidosStore.ts:90-92 | with the id absent, a cart that agrees line by line has the same units for every item |
| PedidosStore.CartAddKeepsValid | store/usePedidosStore.ts:81-93 | adding keeps cart ids unique and quantities at least 1, and adds exactly one unit of that item |
| PedidosStore.QuantityFilter | store/usePedidosStore.ts:95-97 | after removal the item has zero units and every other item keeps its units |
| PedidosStore.CartRemoveKeepsValid | store/usePedidosStore.ts:95-97 | removal keeps the cart valid, zeroes the item and changes no other item |
| PedidosStore.FilterKeepsDistinctIds | store/usePedidosStore.ts:95-97 | removing lines keeps the remaining ids unique |
| PedidosStore.CartToItems | store/usePedidosStore.ts:138-148 | one order line per cart line, with the same id, name, quantity and price, all `pendiente` |
| PedidosStore.SetEstado | store/usePedidosStore.ts:202-204 | the lines with the item id get the new status, all else unchanged, length kept |
| PedidosStore.StoreAcceptsSkip | store/usePedidosStore.ts:175-208 | a `pendiente` line can be set straight to `entregado`, although that is not its successor |
| PedidosStore.StatusNotice | store/usePedidosStore.ts:216-237 | the "order delivered" notice iff the target is `entregado` and every other line is delivered; no notice iff the target is `pendiente`, or `entregado` with some other line undelivered |
| PedidosStore.CompleteNoticeMeansAllDelivered | store/usePedidosStore.ts:227-236 | when the "order delivered" notice is raised, every line of the written order is `entregado` |
| PedidosStore.ApplyItemEstado | store/usePedidosStore.ts:320-334 | each order with the id gets the status on the matching lines; other orders and fields are unchanged |
| PedidosStore.FindTarget | store/usePedidosStore.ts:180-196 | the order found is one of the orders with the id and the line one of its lines with the item id; none when no order has the id or the first such order has no such line |
| PedidosStore.FindTargetIsFirst | store/usePedidosStore.ts:180-196 | the order found is the first order with the id, and the line found the first line of it with the item id |
| PedidosStore.LoadPedido | store/usePedidosStore.ts:111-122 | a loaded order keeps the document's table, lines and timestamp and has no `firebaseId` |
| PedidosStore.LoadPedidos | store/usePedidosStore.ts:104-129 | exactly the documents' loaded orders, each once, reordered newest first, none with a `firebaseId` |
| PedidosStore.LoadedOrdersStopAtGuard | store/usePedidosStore.ts:111-122 | with orders as the loader builds them, a status update or cancellation that finds its order stops at the missing-`firebaseId` guard |
| PedidosStore.PairsOfMembers | store/usePedidosStore.ts:359-363 | a pair is in one order's projection iff it is that order and one of its lines with the status |
| PedidosStore.ItemsByEstadoMembers | store/usePedidosStore.ts:356-366 | a pair is projected iff its order is listed and its line, one of that order's, has the status |
| PedidosStore.Store.constructor | store/usePedidosStore.ts:74-79 | empty orders, cart and notifications, not loading, no error |
| PedidosStore.Store.AddNotification | store/usePedidosStore.ts:336-350 | appends one notification whose id is the time as text |
| PedidosStore.Store.ClearNotification | store/usePedidosStore.ts:352-354 | drops exactly the notifications with that id and keeps the others in their order: an ordered embedding of the old list at exactly the other positions |
| PedidosStore.Store.AddToCart | store/usePedidosStore.ts:81-93 | the cart becomes `CartAdd` of the old cart and stays valid |
| PedidosStore.Store.RemoveFromCart | store/usePedidosStore.ts:95-97 | the cart becomes `CartRemove` of the old cart and stays valid |
| PedidosStore.Store.ClearCart | store/usePedidosStore.ts:99-101 | the cart is empty |
| PedidosStore.Store.SubmitOrder | store/usePedidosStore.ts:132-172 | an empty cart changes nothing; otherwise one order document of `pendiente` lines and an emptied cart on success; on failure the cart is kept, the error is recorded and a warning is raised |
| PedidosStore.Store.UpdateItemStatus | store/usePedidosStore.ts:175-246 | no order, no line, or a `firebaseId` that is absent or empty: nothing changes; otherwise only that document's lines are rewritten with the new status and the matching notice follows, or the error and a warning are recorded |
| PedidosStore.Store.CancelarItem | store/usePedidosStore.ts:249-310 | a non-`pendiente` line: only a warning; a `firebaseId` that is absent or empty: nothing more; otherwise the line is removed from the document, the document is deleted when no line is left, or the error is recorded |
| PedidosStore.Store.FetchPedidos | store/usePedidosStore.ts:104-129 | the orders become the loaded documents, newest first; on failure they are kept and the error recorded |
| PedidosStore.Store.AddPedidoFromSocket | store/usePedidosStore.ts:313-318 | appends the order and stamps the update time |
| PedidosStore.Store.UpdateItemFromSocket | store/usePedidosStore.ts:320-334 | the orders become `ApplyItemEstado` of the old ones |
| PedidosStore.Store.GetItemsByEstado | store/usePedidosStore.ts:356-366 | the nested loops return exactly the (order, line) pairs whose line has the status, in order-then-line order |
| PagosStore.Vuelto | store/usePagosStore.ts:75-79 | the change is never negative: tendered minus total when enough was tendered, else 0 |
| PagosStore.NuevoPago | store/usePagosStore.ts:77-81 | the stored payment keeps the caller's input and adds the change and the time |
| PagosStore.LoadPago | store/usePagosStore.ts:45-61 | a loaded payment's id and `firebaseId` are the document id |
| PagosStore.RecordedPagoReadsBack | store/usePagosStore.ts:47-61 | a recorded payment reads back with every input field, the time and the non-negative change |
| PagosStore.LoadPagos | store/usePagosStore.ts:41-62 | exactly the documents' loaded payments, each once, reordered newest first |
| PagosStore.RemoveMesa | store/usePagosStore.ts:88-97 | after the deletes no order of the paid table remains and every other order does |
| PagosStore.RemoveMesaKeepsOrder | store/usePagosStore.ts:88-97 | the remaining orders keep their stored order, at exactly the positions of the other tables |
| PagosStore.PagosByMesa | store/usePagosStore.ts:113-115 | exactly the payments of that table, in stored order: an ordered embedding whose positions are those of the table |
| PagosStore.MonthCoversDay | store/usePagosStore.ts:118-141 | with non-negative totals, the month's sales are at least the day's |
| PagosStore.TotalVentasAppend | store/usePagosStore.ts:118-128 | a new payment adds its total to the sales since a cut-off exactly when it falls after it |
| PagosStore.DeletePedidosOfMesa | store/usePagosStore.ts:88-97 | the deletion loop leaves exactly the orders of other tables |
| PagosStore.Store.constructor | store/usePagosStore.ts:32-34 | no payments, not loading, no error |
| PagosStore.Store.FetchPagos | store/usePagosStore.ts:37-69 | the payments become the loaded documents, newest first; on failure they are kept and the error recorded |
| PagosStore.Store.RegistrarPago | store/usePagosStore.ts:72-110 | success: the payment is stored, the table's orders deleted and the list reloaded; a failure resets loading, records the error and returns it, with the payment kept if it was already stored |
| SesionesStore.DesglosePorMetodo | store/useSesionesStore.ts:73-83 | the three entries add up to the total sales; with no negative payment each entry lies between 0 and that total |
| SesionesStore.MethodsSplitTotal | store/useSesionesStore.ts:66-83 | the per-method sums of cash, card and transfer add up to the total sales |
| SesionesStore.MethodTotalNonNegative | store/useSesionesStore.ts:73-83 | with no negative payment, no method's sum is negative |
| SesionesStore.EarliestIndex | store/useSesionesStore.ts:88-92 | the index found has the least timestamp, and every earlier index a strictly later one |
| SesionesStore.FechaApertura | store/useSesionesStore.ts:86-93 | with no payments the opening time is now; otherwise it is a payment's timestamp and no payment is earlier |
| SesionesStore.CopyPagos | store/useSesionesStore.ts:101-113 | the field-by-field copy reproduces every payment, in order |
| SesionesStore.BuildSesion | store/useSesionesStore.ts:95-116 | closed, with the given cashier, closed now, the payment count, the payments, their total, a breakdown summing to it, opened at `FechaApertura` (the earliest payment) and broken down by `DesglosePorMetodo` |
| SesionesStore.LoadSesiones | store/useSesionesStore.ts:35-48 | exactly the documents' sessions, each once, reordered latest close first |
| SesionesStore.BatchIds | store/useSesionesStore.ts:135-147 | the batch holds one delete per document and names every document |
| SesionesStore.CommitDeletesAll | store/useSesionesStore.ts:127-150 | deleting every document of a collection leaves none |
| SesionesStore.PurgeActive | store/useSesionesStore.ts:127-150 | the batch empties the order and payment collections and leaves the sessions |
| SesionesStore.Store.constructor | store/useSesionesStore.ts:28-30 | no sessions, not loading |
| SesionesStore.Store.FetchSesiones | store/useSesionesStore.ts:32-55 | the sessions become the loaded documents, latest first; a failure is swallowed |
| SesionesStore.Store.CerrarCaja | store/useSesionesStore.ts:57-167 | success: the closed session is stored, orders and payments purged and sessions reloaded; a failure resets loading and returns the error, with the session kept if it was already stored |
| Grouping.GroupByKeys | store/useMenuStore.ts:25-29 | the groups have distinct keys and every element's key has a group |
| Grouping.GroupByBuckets | store/useMenuStore.ts:25-37 | each group holds exactly its key's elements in input order, and is not empty |
| Grouping.GroupByTotal | app/dashboard/admin/page.tsx:887-891 | grouping does not change the sum over all elements |
| Grouping.GroupByCount | store/useMenuStore.ts:25-37 | grouping neither loses nor duplicates an element |
| Grouping.GroupKeysAreKeys | app/dashboard/admin/page.tsx:284-288 | the `Map`'s keys are exactly the tables of the orders |
| Grouping.GroupCountIsKeyCount | app/dashboard/admin/page.tsx:284-302 | `mesasMap.size` is the number of distinct tables |
| Grouping.GroupsAtMostSizes | app/dashboard/admin/page.tsx:284-288 | with no empty group there are at most as many groups as elements |
| MenuStore.Entry | store/useMenuStore.ts:30-36 | the entry keeps id, name, price and description (blank when missing); the image is the row's or "/placeholder.png", never empty |
| MenuStore.ToCategories | store/useMenuStore.ts:40-42 | one category per group, same name and items, same order |
| MenuStore.ItemCountIsGroupSizes | store/useMenuStore.ts:40-42 | the categories' item counts add up to the groups' sizes |
| MenuStore.MenuPartitionsRows | store/useMenuStore.ts:25-42 | category names are distinct; each lists exactly its rows' items in row order and is not empty; every row's category is present; the item count equals the row count |
| MenuStore.GroupRows | store/useMenuStore.ts:25-37 | the `categoriesMap` loop builds the rows grouped by category, categories in order of first appearance, rows in order within each |
| MenuStore.Store.constructor | store/useMenuStore.ts:12-14 | no categories, not loading, no error |
| MenuStore.Store.FetchMenu | store/useMenuStore.ts:16-48 | the loop's categories are the grouped menu of the served rows; a non-ok response or an exception keeps the categories and records the message |
| PedidoItemCard.OfferedButton | components/PedidoItemCard.tsx:83-108 | no button iff `entregado`; otherwise the button's target is the successor, with confirmation iff `listo` |
| PedidoItemCard.ClickRequest | components/PedidoItemCard.tsx:24-30 | a request always asks for the rank-plus-one successor; none iff `entregado`, or `listo` without confirmation |
| PedidoCard.StatusSummary | components/PedidoCard.tsx:28-111 | "delivered" iff all lines delivered; "all ready" iff all ready or delivered but not all delivered; "preparing" iff neither and some line preparing; else "waiting" |
| PedidoCard.EmptyOrderReadsDelivered | components/PedidoCard.tsx:28 | an order without lines shows as delivered |
| PedidoCard.CardTotalNonNegative | components/PedidoCard.tsx:93-95 | with non-negative prices and quantities the shown total is not negative |
| PaymentForm.ShownVueltoIsRecorded | app/dashboard/admin/page.tsx:36-38 | the change shown for a sufficient amount is the change `registrarPago` stores |
| PaymentForm.PedidoKey | app/dashboard/admin/page.tsx:54 | the `firebaseId` when present and not empty, otherwise a text that parses back to the numeric id |
| PaymentForm.CajeroOf | app/dashboard/admin/page.tsx:59 | the user's e-mail when there is one, never empty |
| PaymentForm.PagoItems | app/dashboard/admin/page.tsx:60-64 | one payment line per order line, same name, quantity and price |
| PaymentForm.PagoItemsKeepTotal | app/dashboard/admin/page.tsx:31-35 | the payment lines add up to the bill |
| PaymentForm.BillTotalIsSumOfOrders | app/dashboard/admin/page.tsx:31-35 | the bill of all lines of all orders is the sum of the order totals, and the line count the sum of the orders' counts |
| PaymentForm.TablePaymentRequest | app/dashboard/admin/page.tsx:20-82 | refused iff cash below the bill; no orders otherwise fails; a submission bills the whole table with cash recording the tendered amount and card or transfer the exact total |
| PaymentForm.SubmitEnabledMatchesRefusal | app/dashboard/admin/page.tsx:255-260 | an enabled submit button is never refused as insufficient; with the field filled in, enabled iff not refused; a blank cash field disables it even for a bill of 0 |
| PaymentForm.TablePaymentSettles | app/dashboard/admin/page.tsx:43-67 | card and transfer are never refused and get no change; cash gets exactly the change shown; the stored lines add up to the amount billed |
| AdminPage.CobrarMesa | app/dashboard/admin/page.tsx:1162 | the modal sees exactly the table's orders; nothing is written unless it submits; a submission stores the payment and deletes the table's orders; a failed save writes nothing and records the error; a failed clean-up leaves the payment stored and the orders in place, so a retry pays twice; the sessions never change |
| AdminPage.GroupByMesa | app/dashboard/admin/page.tsx:886-891 | the `Map` loop yields the orders grouped by table in insertion order |
| AdminPage.ResumenGeneral | app/dashboard/admin/page.tsx:273-302 | line count and pending sales of all open orders; as many active tables as distinct table names among the orders, so between 1 and the order count when there are orders; the day's sales; today's payments count |
| AdminPage.EstadoCountsCover | app/dashboard/admin/page.tsx:903-920 | the four status counts of a line list add up to its length |
| AdminPage.CountEstadosCover | app/dashboard/admin/page.tsx:903-920 | over orders, the four status counts add up to the number of lines |
| AdminPage.EstadoCountIsFilter | app/dashboard/admin/page.tsx:905 | a line list's count for a status is the length of its lines filtered by that status |
| AdminPage.CountEstadoIsFilter | app/dashboard/admin/page.tsx:903-920 | the summed per-order count for a status is the number of the bill's lines in that status |
| AdminPage.Summarize | app/dashboard/admin/page.tsx:895-922 | a table card's order count, line count and sales match its orders; each status count is the number of the bill's lines in that status, and the four add up to its lines |
| AdminPage.Summaries | app/dashboard/admin/page.tsx:893-922 | one card per group |
| AdminPage.SummariesAddUp | app/dashboard/admin/page.tsx:893-922 | the cards' sales and order counts add up to the groups' totals |
| AdminPage.MesasActivas | app/dashboard/admin/page.tsx:883-923 | one card per distinct table: each holds exactly its table's orders and is not empty; every order's table is present; sales add up to all open orders' bill and order counts to the number of orders; ordered by table number; each card is the summary of its own table and orders; as many cards as distinct tables |
| AdminPage.CardsMatchTables | app/dashboard/admin/page.tsx:886-923 | every sorted card holds exactly its table's orders and is not empty, and every order's table has a card |
| AdminPage.CardsAreSummaries | app/dashboard/admin/page.tsx:893-923 | every card of the sorted list is `Summarize` of its own table and orders |
| AdminPage.ReorderKeepsTablesDistinct | app/dashboard/admin/page.tsx:923 | sorting the cards keeps their tables distinct |
| AdminPage.NumericTablesAscend | app/dashboard/admin/page.tsx:923 | when every table name is a number, the cards ascend by that number |
| AdminPage.Historial | app/dashboard/admin/page.tsx:692-703 | exactly the matching payments, each once, newest first |
| AdminPage.EmptySearchShowsAll | app/dashboard/admin/page.tsx:692-699 | an empty query shows every payment |
| AdminPage.SearchIgnoresCase | app/dashboard/admin/page.tsx:693 | a query matches as its lower-case form does |
| AdminPage.CloseTillDecision | app/dashboard/admin/page.tsx:363-388 | the till closes iff there is a user, there are payments and the cashier confirms, with the user's e-mail as cashier; no user and no payments are refused in that order |
| AdminPage.CerrarCaja | app/dashboard/admin/page.tsx:336-410 | nothing is written unless the decision is to close; a close stores the session built from the payments and purges orders and payments; a failed session write changes nothing; a failed purge leaves the session stored with the orders and payments, so a retry stores a second session |
| CajaPage.PorMesaBuckets | app/dashboard/admin/caja/page.tsx:289-295 | the map has a key iff some order is at that table, and each key's list is exactly its table's orders in input order |
| CajaPage.PedidosPorMesa | app/dashboard/admin/caja/page.tsx:289-295 | the accumulator loop builds that map |
| CajaPage.TablesAgree | app/dashboard/admin/caja/page.tsx:289-295 | the admin grouping and the `caja` map have the same tables and the same orders per table |
| CajaPage.PorMesaAsWrittenFails | app/dashboard/admin/caja/page.tsx:289-295 | the `reduce` over a plain `{}` fails iff some order's table is an inherited `Object.prototype` name; otherwise it builds the corrected map |
| CajaPage.ConstructorTableExample | app/dashboard/admin/caja/page.tsx:289-295 | one order at table "constructor": as written the page fails, while the corrected map lists the order under its table |
| CajaPage.CalcularTotalMesa | app/dashboard/admin/caja/page.tsx:297-304 | the table total is the bill of all its orders' lines |
| CajaPage.BucketIsFilter | app/dashboard/admin/caja/page.tsx:289-295 | a table's list is the orders filtered by that table |
| CajaPage.CajaPaymentRequest | app/dashboard/admin/caja/page.tsx:14-71 | as written: refused iff the tendered amount is below the one order's total, whatever the method; a submission records the tendered amount |
| CajaPage.CardPaymentRefused | app/dashboard/admin/caja/page.tsx:36-39 | as written: card or transfer hides the amount field (line 169) and leaves the button enabled (lines 258-261), yet a blank amount is refused |
| CajaPage.CobrarMesaBillsFirstOrderOnly | app/dashboard/admin/caja/page.tsx:25-28 | as written: the bill covers the one order "Cobrar Mesa" selects (line 402); with a later order of positive total it is below the table total |
| CajaPage.PositiveTermPositiveSum | app/dashboard/admin/caja/page.tsx:297-304 | a table with a positive order and no negative one has a positive total |
| CajaPage.TwoOrderTableExample | app/dashboard/admin/caja/page.tsx:401-402 | as written: a two-order table totals 1500, the first-order payment records 1000 and both orders are deleted |
| CajaPage.CorrectedCobrarMesa | app/dashboard/admin/caja/page.tsx:289-304 | corrected: the table's list is its orders, the payment bills the table total, and card or transfer always goes through at the exact total |
| CajaPage.CobrarMesa | app/dashboard/admin/caja/page.tsx:401-402 | corrected: the whole table is billed in one payment that deletes its orders; nothing is written when it is refused; a failed save writes nothing, a failed clean-up leaves the payment stored and the orders in place, and the sessions never change |
| CajaPage.HistorialHoy | app/dashboard/admin/caja/page.tsx:432-438 | the first ten of today's payments in order, or all of them when there are ten or fewer |
| PedidosRoute.NewItem | app/api/pedidos/route.ts:53-59 | the created line keeps name, quantity and price, is `pendiente`, and its menu item is `menuItemId` or else `id` |
| PedidosRoute.NewItems | app/api/pedidos/route.ts:53 | one created line per body item, in order |
| PedidosRoute.Post | app/api/pedidos/route.ts:27-81 | 400 iff the table is falsy or the items are missing or empty; 201 with the created lines iff valid and created; 500 with the details when the create or the body fails |
| PedidosRoute.Get | app/api/pedidos/route.ts:5-24 | 200 with exactly the stored orders, newest first; 500 when the query fails |
| Text.ParseIntOfIntToString | app/dashboard/admin/page.tsx:54 | `parseInt` of `toString` gives back the number |
| Text.ParseInt | store/usePedidosStore.ts:115 | no number iff there is no digit at the start, after an optional sign |
| Text.TableNumber | app/dashboard/admin/page.tsx:923 | a number iff the table name is all decimal digits |
| Text.ToLowerIdempotent | app/dashboard/admin/page.tsx:693-697 | lower-casing twice is lower-casing once |
| Text.Includes | app/dashboard/admin/page.tsx:695-697 | `includes` holds iff the needle occurs at some index |
| Seqs.FilterEmbeds | store/usePedidosStore.ts:95-97 | `filter` keeps exactly the positions whose element passes, in their original order |
| Sorting.SortByDescending | app/dashboard/admin/page.tsx:701-703 | a reordering of the input, in descending key order |

## Left out

- The real-time listener (`onSnapshot` in hooks/useRealtimeSync.ts) is not part of this model. The store methods that write documents leave the local order list as it was, as the source does.
- The un-awaited deletes of `registrarPago` and its un-awaited `fetchPagos` reload are modelled by their settled result only. When `registrarPago` returns, the reload has already set `isLoading` back to true and is still waiting on `getDocs`. `PagosStore.Store.RegistrarPago` states `!isLoading` and the reloaded payments as they are once the reload has finished. The interleaving of the deletes, the reload and the caller is not modelled.
- Notification timers (the five-second auto-clear) are not modelled.
- Prices are JavaScript numbers. The model uses integer cents and leaves out `parseFloat` decimals and `toFixed` formatting. An amount field is blank, a whole amount or unparsable.
- Dates are not modelled. `new Date()`, `setHours`, `Timestamp.now()` and `Date.now()` ids become parameters.
- Authentication, routing, rendering and the console logs are not modelled. The signed-in user is an optional e-mail.
- Seed scripts and mock data are not modelled, except as the source of the record types.
- The Firestore and Prisma services are not modelled. The collections are sequences and each failure is a parameter.
- A document whose `items` or `timestamp` is missing (the `|| []` and `|| new Date()` defaults of the loaders) is not modelled. Documents always carry both.
- `updateDoc` fails on a missing document with the message "No document to update". This stands for the service's own error text.
- `Number` on table names is modelled only for strings of decimal digits. Whitespace, signs, decimals and hexadecimal are not modelled. A non-numeric name, `NaN` in JavaScript, sorts with key 0. `Array.prototype.sort` with a `NaN` comparison result treats the pair as equal, so the order differs only for such names.
- `parseInt` is modelled without leading whitespace and without a radix prefix.
- `toLowerCase` is modelled on ASCII letters only.
- JavaScript falsiness (`||` fallbacks, `!mesa`) is modelled as the empty string, 0 or a missing value. Falsy non-strings in menu rows are not modelled.
- The `caja` page's `pedidosPorMesa` is an object whose keys JavaScript enumerates with integer-like keys first. It is modelled as an unordered map, so the order in which tables are listed there is not modelled. A table named after an `Object.prototype` member makes the page as written fail (see "## Findings"). The rest of the model uses the corrected record `CajaPage.PorMesa`, which gives every table name its own list, as the admin page's `Map` does.
- `getItemsByEstado` is declared for the three non-final statuses. The model accepts any status.
- The menu category file declares `title` where the store writes `name`. The model uses `name`.
- `getSesionActual` reads `sesionActual`, which nothing sets. It is not modelled.
- `isProcessing` flags and modal open/close state on both pages are not modelled. The submit button's guard is modelled for the button not processing.
- PedidosStore.Store.UpdateItemStatus, PedidosStore.Store.UpdateItemFromSocket: the source takes the status as any string and writes it with `as any`. The model takes one of the four statuses, so a status outside them is not modelled.
- The `caja` page's amount field keeps text typed under cash when the method is switched. That case is covered by `CajaPage.CajaPaymentRequest` with that amount, not by a separate member.
- PagosStore.Store.GetPagosByMesa, GetTotalVentasDia, GetTotalVentasMes: these read the store and are the specification functions `PagosByMesa` and `TotalVentasDesde` applied to its payments. Their properties are stated on those functions and on `MonthCoversDay`.

## Findings

| source | as written | input that shows it | evidently intended | confidence | as-written member | corrected member |
|---|---|---|---|---|---|---|
| app/dashboard/admin/caja/page.tsx:36-39 | every method is refused when the tendered amount is below the total, but the amount field is shown only for cash and the button stays enabled | card payment, amount left blank, order total 1000: tendered 0 < 1000, refused | card and transfer pay the exact total, as on the admin screen (app/dashboard/admin/page.tsx:43-51) | not executed | CajaPage.CardPaymentRefused | PaymentForm.TablePaymentRequest |
| app/dashboard/admin/caja/page.tsx:401-402 | "Cobrar Mesa" bills only the table's first order, yet `registrarPago` deletes every order of that table | table "1" with orders of 1000 and 500: the page shows 1500, the payment records 1000, and both orders are deleted | the payment covers `calcularTotalMesa` of all the table's orders | not executed | CajaPage.TwoOrderTableExample | CajaPage.CorrectedCobrarMesa |
| app/dashboard/admin/caja/page.tsx:289-295 | `pedidosPorMesa` starts from a plain `{}`, so for a table named after an inherited member `!acc[pedido.mesa]` is false, no list is created and `acc[pedido.mesa].push` throws a TypeError; the page does not render | one order at table "constructor" (table names are free text, components/SidebarPedido.tsx:34) | every table gets its own list, as with the admin page's `Map` (app/dashboard/admin/page.tsx:886-891) | not executed | CajaPage.PorMesaAsWrittenFails | CajaPage.PorMesaBuckets |
