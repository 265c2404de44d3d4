# AgroVet store: a verified model of the business layer

This project models the business layer of a small agricultural and veterinary
store application. It covers:

- products with a stock quantity and an availability flag;
- the inventory and its stock-change history file;
- low-stock alerts with per-product thresholds and an edge detector that
  reports a product only when it newly falls under its threshold;
- orders checked against stock;
- sales, which take stock, can be cancelled (putting the stock back) and are
  rebuilt from the sales file;
- clinical histories of clients' pets, with diagnosis records, and the
  veterinarian's consultation over histories and sales (client lists, search,
  statistics, keyword recommendations, access check);
- application users with unique usernames;
- client registration and service requests drawing on counters of
  appointments and advisories;
- the role manager's permission checks and tab visibility;
- the older stand-alone modules at the repository root: the older product
  class with its registry and lookups, the older clinical history with its
  find-or-create rule, and the older sale registration loop.

Objects whose fields the application updates in place are Dafny classes:

| Class | Meaning |
|---|---|
| `Product` | a product |
| `Inventory` | the inventory |
| `AlertManager` | the low-stock alert manager |
| `OrderManager` | the order manager |
| `SalesBook` | the class-level list of sales |
| `History`, `HistoryBook` | clinical histories |
| `UserStore` | the user manager |
| `ServiceDesk` | the request manager |
| `RoleManager` | the role manager |
| `ProductRegistry` | the older class-level product list |

Their methods carry `modifies` clauses and state the whole new state. Each
class-level Python list is an explicit object holding a `seq`.

Persisted JSON files are ghost fields, with `None` standing for a missing
file:

- the stock history;
- the thresholds file;
- the last-alerted codes file;
- the histories file;
- the users file.

The values the program reads from files and from the clock are parameters.

Every prompt loop of the console code asks again until the entry is valid.
Here one call is one entry: a rejected entry returns the message the program
prints and changes nothing, and asking again is left to the caller.

Python's `str(int)`, `int(str)`, `s.lower()`, `s.strip()`, `s.isdigit()`,
`part in text`, `sep.join` and `sorted(set(...))` are modelled in the
`Strings` module. The module proves the facts the rest relies on:

- `int(str(n)) == n`;
- `str` is injective;
- containment in a joined text is containment in one piece;
- a sorted set is strictly sorted and holds exactly the elements.

The two product classes differ, and the sale code fits neither of them:

- `HU/Venta.py` imports the product class of `HU/Producto.py`, which has no
  `set_disponibilidad`; only the older `Producto.py` class defines it.
- The older class's `set_cantidad` rejects a negative quantity, while the
  newer one stores any quantity.
- The newer class stores its fields as `codigo`, `nombre`, `cantidad`, ...;
  the older one as `_codigo`, `_nombre`, `_cantidad`, ..., and
  `HU/Inventario.py` reads the underscored names.
- The model uses one product class with both setters, and the sale
  operations use the newer `set_cantidad` followed by `set_disponibilidad`.
  They complete where the source raises; "## Left out" names the operations
  and the exceptions.

## Model

| member | source | states |
|---|---|---|
| Products.Product.constructor | HU/Producto.py:2-10 | every field holds its argument and availability starts as `cantidad > 0` |
| Products.Product.SetQuantity | HU/Producto.py:38-40 | any quantity, negative included, is stored; availability becomes `q > 0`; the price is untouched; the availability invariant holds afterwards |
| Products.Product.SetQuantityChecked | Producto.py:55-59 | a negative quantity is rejected with its message and nothing changes; otherwise the quantity is stored; availability and price are never touched |
| Products.Product.SetPrice | Producto.py:46-50 | a negative price is rejected with its message and nothing changes; otherwise the price is stored; quantity and availability untouched |
| Products.Product.SetAvailability | Producto.py:64-65 | sets only the availability flag; quantity and price unchanged |
| Products.ProductRegistry.constructor | Producto.py:2 | the class-level registry starts empty |
| Products.ProductRegistry.Register | Producto.py:4-16 | constructing a product appends exactly that fresh product at the end of the registry, with availability `cantidad > 0` |
| Products.ProductRegistry.FindByCode | Producto.py:96-100 | the search loop returns the first registered product with that code, or nothing when none has it |
| Products.ProductRegistry.FindByCategory | Producto.py:144-151 | every product of exactly that category, in registration order, and no other |
| Products.ProductRegistry.FindByName | Producto.py:195-199 | the first product whose name equals the argument exactly, or nothing |
| Inventory.StoredHistory | HU/Inventario.py:47-51 | a missing history file reads as the empty history |
| Inventory.Lookup | HU/Inventario.py:11-15 | a found product is one of the inventory's products |
| Inventory.LookupIsFirstMatch | HU/Inventario.py:11-15 | nothing is found exactly when no product's `str(code)` equals the identifier and no name equals it ignoring case; a found product is the first that matches |
| Inventory.LookupAsWritten | HU/Inventario.py:11-15 | the loop as written raises only on a number identifier and a non-empty inventory; a product it returns is one of the inventory's and matches the identifier |
| Inventory.Inventory.constructor | HU/Inventario.py:5-6 | a new inventory has no products |
| Inventory.Inventory.AddProduct | HU/Inventario.py:8-9 | the product is appended at the end with no duplicate check; earlier products are kept in order |
| Inventory.Inventory.FindProduct | HU/Inventario.py:11-15 | the search loop returns what `Lookup` states |
| Inventory.Inventory.RecordHistory | HU/Inventario.py:37-56 | the file becomes the old history, read as empty when missing, plus one entry with code, name, old stock, new stock, reason and time |
| Inventory.Inventory.UpdateStock | HU/Inventario.py:22-35 | the identifier, a number or a text, is compared through `str()`; the update succeeds exactly when it finds a product and the quantity is non-negative; a failure changes no product and no history entry; success writes the quantity, leaves availability as it was, appends exactly one history entry and changes no other product |
| Inventory.LookupAsWrittenOnText | HU/Inventario.py:11-15 | for a text identifier the loop as written finds what `Lookup` finds |
| Inventory.NumberIdentifierRaises | HU/Inventario.py:13 | a number identifier that is not the first product's code makes the loop as written raise, even when a later product has that code |
| Inventory.NumberIdentifierFound | HU/Inventario.py:13 | with `str()` applied to both sides, a number identifier finds a product whenever some product carries that code |
| StockAlerts.ThresholdAfterConfigure | HU/AlertasStock.py:49-56 | after setting code c's threshold to t, code c reads t and every other code reads its old threshold (or the default 5) |
| StockAlerts.ThresholdIn | HU/AlertasStock.py:49-50 | the threshold of a code is the value stored under `str(code)`, or the default 5 when none is stored |
| StockAlerts.AlertManager.Threshold | HU/AlertasStock.py:49-50 | the manager's threshold of a code is its map's value under `str(code)`, or the default 5 |
| StockAlerts.LowStock | HU/AlertasStock.py:59-65 | the low list holds exactly the inventory products whose quantity is below their threshold, and no more entries than the inventory |
| StockAlerts.NewAlertsExactly | HU/AlertasStock.py:73 | a product is a new alert exactly when it is a current alert whose `str(code)` was not alerted at the previous check |
| StockAlerts.SecondCheckReportsNothing | HU/AlertasStock.py:70-77 | checking again against the codes just remembered reports no new alert |
| StockAlerts.RecordsOf | HU/AlertasStock.py:80-90 | one record per product, in order, with code, name, stock and that product's threshold |
| StockAlerts.LowRecordsBelowThreshold | HU/AlertasStock.py:59-90 | every exported record of a low product shows a stock below its threshold |
| StockAlerts.AlertManager.constructor | HU/AlertasStock.py:40-45 | thresholds and last-alerted codes are the stored files' contents, or empty when a file is missing |
| StockAlerts.AlertManager.ConfigureThreshold | HU/AlertasStock.py:52-57 | a negative threshold is rejected with its message and changes neither the map nor the file; otherwise only that code's threshold changes and the map is saved |
| StockAlerts.AlertManager.ListLowStock | HU/AlertasStock.py:59-65 | the listing loop returns `LowStock` of the inventory, in inventory order |
| StockAlerts.AlertManager.DetectNewAlerts | HU/AlertasStock.py:67-77 | returns the current low products and those whose code was not alerted before; the remembered and saved codes become exactly the current ones |
| StockAlerts.AlertManager.ExportCurrentAlerts | HU/AlertasStock.py:80-90 | one record per low product, in the same order, each with its stock below its threshold |
| StockAlerts.BuildRecords | HU/AlertasStock.py:82-89 | the export loop builds `RecordsOf` its products |
| StockAlerts.CheckTwice | HU/AlertasStock.py:67-77 | two checks in a row: the first reports the newly low products, the second reports nothing |
| Orders.ToRecord | HU/Registrar_pedidos.py:23-30 | the stored order keeps client, amount, date and state and names the product by its name |
| Orders.NameIndex | HU/Registrar_pedidos.py:39 | every product's name is a key and each key maps to a product of that name |
| Orders.NameIndexLastWins | HU/Registrar_pedidos.py:39 | for a repeated name the index holds the last product with that name |
| Orders.OrderError | HU/Registrar_pedidos.py:43-51 | no check fails exactly when the name is indexed, the amount is positive and within stock, and the product is available |
| Orders.OrderManager.constructor | HU/Registrar_pedidos.py:34-39 | the name index is built over the inventory's products; there are no orders |
| Orders.OrderManager.RegisterOrder | HU/Registrar_pedidos.py:42-57 | the first failing check, in the order unknown name, amount not positive, unavailable, insufficient stock, is reported and nothing changes; otherwise the product's stock drops by exactly the amount and stays non-negative, availability follows it, no other product changes, and one order in state "Registrado" is appended and returned; no price changes |
| Orders.OrderManager.ListOrders | HU/Registrar_pedidos.py:59-60 | the orders in registration order |
| Sales.ProductsOfAppend | HU/Venta.py:18-20 | the products of concatenated lines are the union of both parts' products |
| Sales.AmountForAppend | HU/Venta.py:18-19 | the units of a product taken by concatenated lines add up |
| Sales.AmountForAbsent | HU/Venta.py:18-19 | a product on no line loses no units |
| Sales.Total | HU/Venta.py:22-23 | the total of no lines is 0 |
| Sales.TotalAppend | HU/Venta.py:22-23 | totals add up over concatenated lines |
| Sales.TotalNonNegative | HU/Venta.py:22-23 | with non-negative prices and amounts the total is non-negative |
| Sales.LineRecords | HU/Venta.py:30-38 | one product entry per line, in the same order, with code, name, amount and unit price |
| Sales.ToRecord | HU/Venta.py:25-39 | the stored sale keeps client, payment and date and lists its lines as `LineRecords` |
| Sales.RebuildLines | HU/Venta.py:70-74 | rebuilt lines are no more than the entries, each names a product of the product list `known` and comes from an entry with that code and amount |
| Sales.FirstWithCode | HU/Venta.py:72 | with unique codes, the first known product carrying a known product's code is that product |
| Sales.RebuildRoundTrip | HU/Venta.py:25-76 | storing the lines of a sale and rebuilding them gives the same lines when every product is known and codes are unique |
| Sales.RebuiltSales | HU/Venta.py:69-76 | one sale per stored sale, in order, with its client, payment, date and rebuilt lines |
| Sales.RebuiltSalesSnoc | HU/Venta.py:69-76 | rebuilding one more stored sale appends exactly its sale |
| Sales.AllLinesSnoc | HU/Venta.py:14-20 | one more sale adds its lines, its products and its amounts to the running totals |
| Sales.UpdateInventory | HU/Venta.py:17-20 | every sold product loses exactly the units of its lines, its availability becomes `quantity > 0`, and its price does not change |
| Sales.RestoreInventory | HU/Venta.py:166-168 | every product of the lines gets back exactly their units and becomes available |
| Sales.SalesBook.constructor | HU/Venta.py:7 | the class-level list starts empty |
| Sales.SalesBook.NewSale | HU/Venta.py:9-15 | the sale is appended to the list and its amounts are taken out of stock as `UpdateInventory` states |
| Sales.SalesBook.CancelSale | HU/Venta.py:160-171 | a position inside the list removes exactly that sale and restores its stock; any other position changes nothing |
| Sales.SalesBook.SalesOfClient | HU/Venta.py:174-176 | a sale is returned exactly when its client contains the name, ignoring case |
| Sales.SalesBook.Rebuild | HU/Venta.py:70-74 | the inner loader loop builds `RebuildLines` of the stored entries over the product list `known` |
| Sales.SalesBook.AddStored | HU/Venta.py:69-76 | one stored sale is rebuilt through the constructor: appended, and its amounts taken out of stock; products not on its lines are untouched |
| Sales.SalesBook.LoadStep | HU/Venta.py:69-76 | after each rebuilt sale, every known product's stock is its starting stock minus all rebuilt lines for it |
| Sales.SalesBook.Load | HU/Venta.py:59-79 | the list is cleared; a missing, empty or unreadable file leaves it empty, otherwise it holds the rebuilt sales; every known product loses the units of all rebuilt lines again |
| Sales.Bare | HU/Venta.py:69-76 | a stored sale without products is rebuilt as a sale with the same client, payment and date and no lines |
| Sales.LoadAsWritten | HU/Venta.py:69-77 | the loader as written over a readable file: sales without products are rebuilt and the first sale with products raises an uncaught exception |
| Sales.StoredProductsRaise | HU/Venta.py:69-77 | the loader as written raises exactly when some stored sale has products; it keeps the corrected loader's sales up to just before the first such sale |
| Sales.LoadAsWrittenWithoutProducts | HU/Venta.py:69-77 | on a file whose sales have no products the loader as written and the corrected one agree and nothing is raised |
| LegacySales.Quantities | Venta.py:56-59 | the stock map holds every inventory product's quantity |
| LegacySales.Round | Venta.py:53-66 | a round keeps the set of products whose stock is tracked |
| LegacySales.Step | Venta.py:53-66 | one round, the lookup by code or name, then `int` of the amount, then `Round`, keeps the set of tracked products |
| LegacySales.Sell | Venta.py:47-66 | the rounds up to the first code "0" keep the set of tracked products |
| LegacySales.ValidLine | Venta.py:57-58 | an accepted line names an inventory product and a positive amount |
| LegacySales.RoundExtends | Venta.py:57-58 | a round appends at most one line, and only a valid one |
| LegacySales.SellExtends | Venta.py:47-66 | the rounds only append lines, each naming an inventory product with a positive amount |
| LegacySales.SellTakesAmounts | Venta.py:57-59 | each product's stock is its starting stock minus the amounts of the lines accepted for it |
| LegacySales.SellKeepsStock | Venta.py:57 | no round takes more than is left, so stock that starts non-negative stays between 0 and its start |
| LegacySales.SellUnfold | Venta.py:47-51 | the rounds are taken one at a time from the front |
| LegacySales.FinishStops | Venta.py:49-51 | entries after the code "0" are never looked at |
| LegacySales.ExtendsTransitive | Venta.py:58 | appending valid lines twice is appending valid lines |
| LegacySales.TakeRound | Venta.py:57-59 | the loop body appends the line and takes its amount from stock exactly as `Round` states; availability and price untouched |
| LegacySales.SaleRound | Venta.py:53-66 | one round looks the product up, reads the amount with `int` and proceeds as `Step` states |
| LegacySales.SellRounds | Venta.py:45-66 | the loop's lines and final stock are those of `Sell` over the typed rounds; availability and prices untouched |
| LegacySales.LegacySalesBook.constructor | Venta.py:4 | the class-level list starts empty |
| LegacySales.LegacySalesBook.RegisterSale | Venta.py:30-73 | stock ends as `Sell` leaves it; a sale with the accepted lines is appended exactly when some line was accepted, otherwise the list is unchanged |
| LegacySales.RegisteredSaleTakesStock | Venta.py:57-59 | every product loses exactly the amounts of its accepted lines and no stock goes below zero |
| ClinicalHistory.DiagnosisRecord | HU/HistoriaClinica.py:24-30 | the record has exactly the keys fecha, hora, diagnostico, tratamiento, comentarios with the given values |
| ClinicalHistory.History.constructor | HU/HistoriaClinica.py:8-12 | a new history has its id, client, pet and no records |
| ClinicalHistory.History.RegisterDiagnosis | HU/HistoriaClinica.py:20-31 | empty diagnosis or treatment is rejected with its message and appends nothing; otherwise exactly one record is appended at the end; comments default to "" |
| ClinicalHistory.History.AppendRecords | HU/HistoriaClinica.py:115-116 | stored records are appended after the existing ones, in order |
| ClinicalHistory.Encode | HU/HistoriaClinica.py:96-104 | one stored entry per history, in order, with id, client, pet and records |
| ClinicalHistory.FindIn | HU/HistoriaClinica.py:43-44 | a found history is in the list with that id; nothing is found exactly when no history has that id |
| ClinicalHistory.HistoryBook.constructor | HU/HistoriaClinica.py:6 | the class-level list starts empty |
| ClinicalHistory.HistoryBook.NewHistory | HU/HistoriaClinica.py:8-13 | constructing a history appends exactly that fresh history with no records |
| ClinicalHistory.HistoryBook.Find | HU/HistoriaClinica.py:43-44 | the first history with that id, as `FindIn` |
| ClinicalHistory.HistoryBook.Save | HU/HistoriaClinica.py:96-106 | the file holds the encoding of every history, in order |
| ClinicalHistory.HistoryBook.Load | HU/HistoriaClinica.py:109-119 | without a file nothing changes; otherwise the existing histories are kept and fresh ones are appended whose encoding is the stored data |
| ClinicalHistory.SaveThenLoad | HU/HistoriaClinica.py:96-116 | histories with the same encoding have the same ids, names, pets and records, in order |
| LegacyClinicalHistory.LegacyRecord | Registrar.py:40-46 | the record has exactly the keys fecha, Hora (capital H), diagnostico, tratamiento, comentarios, and no "hora" key |
| LegacyClinicalHistory.History.constructor | Registrar.py:6-10 | a new history has its id, client, pet and no records |
| LegacyClinicalHistory.History.RegisterDiagnosis | Registrar.py:35-49 | empty diagnosis or treatment is rejected with its message and appends nothing; otherwise one record is appended |
| LegacyClinicalHistory.FindIn | Registrar.py:93-98 | a found history is in the list with that id; nothing is found exactly when no history has it |
| LegacyClinicalHistory.EntryError | Registrar.py:111-130 | all four prompted entries are accepted exactly when the stripped id is all digits and the stripped pet, diagnosis and treatment are non-empty; a bad id reports the id message |
| LegacyClinicalHistory.HistoryBook.constructor | Registrar.py:4 | the class-level list starts empty |
| LegacyClinicalHistory.HistoryBook.NewHistory | Registrar.py:6-11 | constructing a history appends exactly that fresh history with no records |
| LegacyClinicalHistory.HistoryBook.Find | Registrar.py:93-98 | the search loop returns the first history with that id, as `FindIn` |
| LegacyClinicalHistory.HistoryBook.FileDiagnosis | Registrar.py:133-147 | an existing history gets the record; an unknown id with an empty client name is rejected with nothing changed; otherwise exactly one new history is created holding just the record; no other history changes |
| LegacyClinicalHistory.HistoryBook.CreateOrUpdate | Registrar.py:101-151 | a rejected entry reports its message and changes nothing; accepted entries are stripped and filed as `FileDiagnosis` states |
| ClinicalLookup.HistoryClients | HU/ConsultaHistorialClinico.py:42-43 | the client name of every history, in list order |
| ClinicalLookup.SaleClients | HU/ConsultaHistorialClinico.py:46-47 | the client of every sale, in list order |
| ClinicalLookup.ClientNames | HU/ConsultaHistorialClinico.py:39-47 | a name is known exactly when some history or some sale has that client |
| ClinicalLookup.MatchingClients | HU/ConsultaHistorialClinico.py:57-70 | a name is kept exactly when it is listed and contains the term, ignoring case |
| ClinicalLookup.HistoriesOf | HU/ConsultaHistorialClinico.py:88-90 | exactly the histories whose client equals the name ignoring case |
| ClinicalLookup.PurchasesOf | HU/ConsultaHistorialClinico.py:93-95 | exactly the sales whose client equals the name ignoring case |
| ClinicalLookup.FullHistoryClientIsFound | HU/ConsultaHistorialClinico.py:54-97 | every client whose full history is non-empty is found by searching for that name |
| ClinicalLookup.ContainsSelf | HU/ConsultaHistorialClinico.py:63 | every text contains itself |
| ClinicalLookup.SortedSetSnoc | HU/ConsultaHistorialClinico.py:39-49 | adding one name to the set and sorting is inserting it into the sorted list |
| ClinicalLookup.MatchingSnoc | HU/ConsultaHistorialClinico.py:63-64 | appending a name grows the matches by that name exactly when it matches |
| ClinicalLookup.AllRecordsAppend | HU/ConsultaHistorialClinico.py:182-184 | the records of concatenated history lists are concatenated |
| ClinicalLookup.RecordCountIsAllRecords | HU/ConsultaHistorialClinico.py:155 | the consultation count counts every record of every history once |
| ClinicalLookup.PetNames | HU/ConsultaHistorialClinico.py:157 | exactly the pets of the histories; at most one per history, and at least one when there is a history |
| ClinicalLookup.Spent | HU/ConsultaHistorialClinico.py:158 | nothing spent without purchases |
| ClinicalLookup.SpentIsTotalOfAllLines | HU/ConsultaHistorialClinico.py:158 | the amount spent is the total of every line of every purchase |
| ClinicalLookup.Stats | HU/ConsultaHistorialClinico.py:152-165 | consultations count every record, purchases count the sales, pets count distinct pet names (0 exactly without histories), spent is the total of all lines |
| ClinicalLookup.StatsSpentNonNegative | HU/ConsultaHistorialClinico.py:158 | with non-negative prices and amounts nothing spent is negative |
| ClinicalLookup.Recommend | HU/ConsultaHistorialClinico.py:193-240 | the recommendation list is never empty |
| ClinicalLookup.RuleRecommendations | HU/ConsultaHistorialClinico.py:196-232 | the messages of the rules that fire, in the order the rules run |
| ClinicalLookup.WithDefaults | HU/ConsultaHistorialClinico.py:234-240 | never empty: the rule messages when some rule fired, otherwise exactly the three general messages |
| ClinicalLookup.MessagesDistinct | HU/ConsultaHistorialClinico.py:198-239 | the ten recommendation messages are pairwise different, told apart by their lengths and, for equal lengths, by one character |
| ClinicalLookup.RuleMembers | HU/ConsultaHistorialClinico.py:197-232 | a message is among the rule results exactly when its rule fired |
| ClinicalLookup.SignalMembership | HU/ConsultaHistorialClinico.py:197-240 | each rule's message is in the answer exactly when its rule fired; the defaults appear exactly when no rule fired |
| ClinicalLookup.RecommendOnTexts | HU/ConsultaHistorialClinico.py:193-211 | each keyword message is present exactly when the space-joined lowered texts contain one of its keywords |
| ClinicalLookup.DewormingRule | HU/ConsultaHistorialClinico.py:197-198 | the deworming advice is given exactly when some diagnosis contains "desparasit" |
| ClinicalLookup.VaccinationRule | HU/ConsultaHistorialClinico.py:200-201 | the vaccination advice is given exactly when some diagnosis contains "vacun" or "inmuniz" |
| ClinicalLookup.DentalRule | HU/ConsultaHistorialClinico.py:203-204 | the dental advice is given exactly when some diagnosis contains "dental" or "diente" |
| ClinicalLookup.SupplementRule | HU/ConsultaHistorialClinico.py:207-208 | the supplement advice is given exactly when some bought product name contains "vitamina" or "suplemento" |
| ClinicalLookup.FeedingRule | HU/ConsultaHistorialClinico.py:210-211 | the feeding advice is given exactly when some bought product name contains "alimento" or "comida" |
| ClinicalLookup.DefaultsWhenNoRuleFires | HU/ConsultaHistorialClinico.py:235-240 | the answer is exactly the three general recommendations exactly when no rule fires |
| ClinicalLookup.Diagnoses | HU/ConsultaHistorialClinico.py:182-184 | the lowered diagnosis of every record, in order; nothing exactly when some record lacks one |
| ClinicalLookup.LineNames | HU/ConsultaHistorialClinico.py:188-190 | the lowered product name of every line, in order |
| ClinicalLookup.RecordDiagnoses | HU/ConsultaHistorialClinico.py:183-184 | the inner loop extends the diagnoses record by record, or reports the first record without one |
| ClinicalLookup.LineNamesOf | HU/ConsultaHistorialClinico.py:189-190 | the inner loop appends the lowered names of one sale's lines |
| ClinicalLookup.AddHistoryClients | HU/ConsultaHistorialClinico.py:42-43 | the loop adds every history's client to the sorted, duplicate-free list |
| ClinicalLookup.AddSaleClients | HU/ConsultaHistorialClinico.py:46-47 | the loop adds every sale's client to the sorted, duplicate-free list |
| ClinicalLookup.MatchHistoryClients | HU/ConsultaHistorialClinico.py:61-64 | the loop appends the history clients that contain the term, in order |
| ClinicalLookup.MatchSaleClients | HU/ConsultaHistorialClinico.py:67-70 | the loop appends the sale clients that contain the term, in order |
| ClinicalLookup.Recommendations | HU/ConsultaHistorialClinico.py:175-245 | a record without a diagnosis gives the single fallback advice; otherwise the result is `Recommend` over the lowered diagnoses and product names; never empty |
| ClinicalLookup.MissingDiagnosis | HU/ConsultaHistorialClinico.py:182-245 | one record without a diagnosis anywhere makes the whole analysis fail |
| ClinicalLookup.ValidateVetAccess | HU/ConsultaHistorialClinico.py:247-264 | no role gives false; the clinical-history or total permission gives true; for a list of permissions lacking both, true exactly when the lowered tipo, id or nombre names a veterinarian, administrator or role 4; a number in `permisos` raises and is refused |
| ClinicalLookup.NamedVetRole | HU/ConsultaHistorialClinico.py:258-262 | the fallback holds only when the role has a `tipo`, `id` or `nombre` entry, whose lowered `str` is "veterinario", "administrador" or "4" |
| ClinicalLookup.RoleAccessGrantsVetAccess | HU/ConsultaHistorialClinico.py:250-256 | a current role that passes the role manager's clinical-history access check passes the veterinarian's check too |
| ClinicalLookup.VetLookup.constructor | HU/ConsultaHistorialClinico.py:36-49 | the consultation reads the given lists of histories and sales |
| ClinicalLookup.VetLookup.ClientList | HU/ConsultaHistorialClinico.py:36-52 | strictly sorted, hence duplicate-free, and holds exactly the clients of the histories and the sales |
| ClinicalLookup.VetLookup.SearchClients | HU/ConsultaHistorialClinico.py:54-76 | strictly sorted and holds exactly the known clients whose name contains the term ignoring case |
| ClinicalLookup.VetLookup.FullHistory | HU/ConsultaHistorialClinico.py:78-100 | the client's histories and purchases, matched by name ignoring case, in list order |
| ClinicalLookup.VetLookup.ClientExists | HU/ConsultaHistorialClinico.py:311-314 | true exactly when some history or sale has exactly that client name |
| Users.User.constructor | HU/GestorUsuarios.py:9-12 | a user holds the given username, name and role |
| Users.ToRecord | HU/GestorUsuarios.py:14-19 | the stored form holds exactly username, nombre and rol_id |
| Users.Records | HU/GestorUsuarios.py:42 | one stored record per user, in order |
| Users.DistinctSnoc | HU/GestorUsuarios.py:48-51 | appending a user whose username is new keeps usernames pairwise distinct |
| Users.UserStore.constructor | HU/GestorUsuarios.py:22-38 | a parsed file gives one fresh user per record in order; a missing or unreadable file gives no users |
| Users.UserStore.Save | HU/GestorUsuarios.py:40-42 | the file holds the stored form of every user, in order |
| Users.UserStore.AddUser | HU/GestorUsuarios.py:47-53 | an existing username is rejected with its message and nothing changes; otherwise exactly one fresh user is appended, returned and saved; distinct usernames stay distinct |
| Users.UserStore.UpdateRole | HU/GestorUsuarios.py:55-61 | an unknown username is rejected and nothing changes; otherwise only the first user with that name gets the new role, and the list is saved |
| Users.UserStore.ListUsers | HU/GestorUsuarios.py:44-45 | the users in list order |
| ServiceRequests.ReadNumber | HU/producto_registro_cliente_necesidad.py:54-59 | accepted exactly when the entry is ten digits, returned unchanged; otherwise the error message |
| ServiceRequests.SelectNeed | HU/producto_registro_cliente_necesidad.py:86-95 | accepted exactly when the stripped option is "1", "2" or "3", each mapped to its need; otherwise the error message |
| ServiceRequests.ServiceDesk.constructor | HU/producto_registro_cliente_necesidad.py:46-50 | no clients, no requests, 20 appointments and 20 advisories |
| ServiceRequests.ServiceDesk.RegisterClient | HU/producto_registro_cliente_necesidad.py:62-83 | accepted exactly when the stripped name and address are non-empty and id and phone are ten digits, with each rejection's message in prompt order; an accepted client is appended |
| ServiceRequests.ServiceDesk.EnterQuantity | HU/producto_registro_cliente_necesidad.py:98-121 | accepted exactly when the stripped entry is a positive number within the counter its need draws on; that counter then drops by exactly the amount; product availability draws on none; rejection changes no counter; counters stay within 0..20 |
| ServiceRequests.ServiceDesk.AddRequest | HU/producto_registro_cliente_necesidad.py:128-129 | exactly one request is appended |
| ServiceRequests.ServiceDesk.RequestFor | HU/producto_registro_cliente_necesidad.py:126-129 | completed exactly when the option selects a need and the quantity is accepted for it; the request holds the client, the selected need and the stripped quantity's value, and is appended; the counter that need draws on drops by exactly that quantity; a rejected entry keeps its message, records nothing and changes no counter |
| ServiceRequests.ServiceDesk.CreateRequest | HU/producto_registro_cliente_necesidad.py:124-131 | the stripped client is registered exactly when its entries are accepted, and stays registered when a later entry is rejected; the request is completed exactly when all entries are accepted and holds that client, the selected need and the quantity entered; the counter drops by exactly that quantity; a rejection records no request and changes no counter |
| Roles.StrOf | GUI/roles/manager.py:34 | `str` of a list starts with '[' |
| Roles.RolePermissions | GUI/roles/manager.py:26-29 | an unknown role has no permissions; a known one has its `permisos` list |
| Roles.PermissionList | GUI/roles/manager.py:29 | a role's `permisos` list, or no permissions when the entry is missing or not a list |
| Roles.Grants | GUI/roles/manager.py:40 | a list grants a permission when it lists it, and the total permission grants every permission |
| Roles.RoleManager.constructor | GUI/roles/manager.py:13-16 | no current role and the graphical interface |
| Roles.RoleManager.HasPermission | GUI/roles/manager.py:31-40 | an empty id, or no id and no current role, gives false; with an id, true exactly when that role lists the permission or the total one |
| Roles.RoleManager.ValidateRoleAccess | GUI/roles/manager.py:67-79 | false without a role; true with the total permission; otherwise true exactly when one required permission is held |
| Roles.RoleManager.AccessibleTabs | GUI/roles/manager.py:81-107 | the dashboard is always visible; without a role it is the only visible tab and there is no orders entry |
| Roles.RoleManager.SetCurrentRole | GUI/roles/manager.py:54-57 | stores the role and the interface |
| Roles.RoleManager.ResetRole | GUI/roles/manager.py:119-122 | clears the role and goes back to the graphical interface; afterwards the dashboard is still open and no access is validated |
| Roles.TabsAgreeWithAccess | GUI/roles/manager.py:67-107 | with a role, each permission-gated tab is visible exactly when access is validated for its permissions; the total-permission tabs exactly when an empty request is validated |
| Roles.AllFunctionsOpensEverything | GUI/roles/manager.py:40-106 | the total permission opens every tab and grants every permission |
| Roles.HasPermissionAgreesWithAccess | GUI/roles/manager.py:31-79 | for a registered current role, checking one permission and validating access for it agree |
| Strings.ToLower | HU/Inventario.py:13 | lowering keeps the length and lowers every character |
| Strings.Strip | HU/producto_registro_cliente_necesidad.py:65 | `s.strip()`: leading and trailing ASCII whitespace removed |
| Strings.StripShape | HU/producto_registro_cliente_necesidad.py:65 | the stripped text is a contiguous piece of the entry, no longer than it, that neither starts nor ends with whitespace |
| Strings.IsDigitString | HU/producto_registro_cliente_necesidad.py:101 | `s.isdigit()`: non-empty and all ASCII digits |
| Strings.DigitStringUnpadded | HU/producto_registro_cliente_necesidad.py:100-101 | a digit string is its own strip |
| Strings.ParseInt | Venta.py:56 | `int(s)`: optional surrounding whitespace, an optional sign and ASCII digits; no number where Python raises `ValueError` |
| Strings.IntToString | HU/AlertasStock.py:50 | `str(i)` is non-empty and starts with a minus sign exactly when `i` is negative |
| Strings.Join | HU/ConsultaHistorialClinico.py:193-194 | joining nothing gives the empty text; joining two or more pieces puts the separator in the text |
| Strings.Contains | HU/ConsultaHistorialClinico.py:197-211 | a contained part is no longer than the text, and the empty part is in every text |
| Strings.JoinContains | HU/ConsultaHistorialClinico.py:193-194 | a keyword without the separator occurs in the joined text exactly when it occurs in one piece |
| Strings.NatToStringRoundTrip | HU/AlertasStock.py:50 | the rendering is all digits and reads back as the number |
| Strings.IntToStringInjective | HU/AlertasStock.py:50-56 | different codes have different `str(code)` keys |
| Strings.ParseIntRoundTrip | Venta.py:56 | `int(str(n)) == n` |
| Strings.ParseNatRendering | Venta.py:56 | `int(str(n)) == n` for a natural number |
| Strings.ParseNegativeRendering | Venta.py:56 | `int(str(n)) == n` for a negative number |
| Strings.ParseDigits | HU/producto_registro_cliente_necesidad.py:101-104 | digits with surrounding spaces read as their value |
| Strings.SortedSet | HU/ConsultaHistorialClinico.py:49-73 | strictly sorted and holds exactly the given names |
| Strings.Insert | HU/ConsultaHistorialClinico.py:43-47 | inserting into a sorted set keeps it sorted and adds exactly the new name |
| Strings.SortedDistinct | HU/ConsultaHistorialClinico.py:49 | a strictly sorted list has no duplicates |
| Strings.LexTransitive | HU/ConsultaHistorialClinico.py:49 | string order is transitive |
| Strings.LexTotal | HU/ConsultaHistorialClinico.py:49 | different strings are ordered one way or the other |
| Strings.LexLess | HU/ConsultaHistorialClinico.py:49 | Python's `<` on texts: code-point order, a proper prefix first |
| Strings.LexIrreflexive | HU/ConsultaHistorialClinico.py:49 | no string is less than itself |

## Left out

- Window and console front-ends, menus and printing are not modelled. This covers `__str__`, `resumen`, `ver_historial*`, `ver_ventas`, `mostrar_historial` and `listar_productos`. They only display data.
- The `input()` loops are not modelled as loops. One call takes one entry, and a rejected entry changes nothing.
- The interactive parts of `registrar_venta` and `editar_venta` in HU/Venta.py:81-157 are not modelled. They are console dialogue.
- `crear_o_actualizar_historial` in HU/HistoriaClinica.py:46-85 is not modelled. It is console dialogue, and it differs from the older module's find-or-create rule: it looks the client id up first, asks whether to create a new client when none is found and cancels on any answer but "s" (lines 58-67), asks for the pet's name only when creating (line 70), and saves every history afterwards (line 85). The older module asks for the pet before the lookup and never saves.
- The older sale registration does not model its date prompt. The date is a parameter.
- File contents are ghost fields or parameters. JSON encoding, directories and write failures are not modelled.
- Sales.UpdateInventory, Sales.RestoreInventory, Sales.SalesBook.NewSale, Sales.SalesBook.CancelSale, Sales.SalesBook.AddStored and Sales.SalesBook.Load complete where the source raises. With the product class that HU/Venta.py:4 imports, the missing `set_disponibilidad` raises `AttributeError` at HU/Venta.py:20, after the sale has been appended (line 14) and the first product's quantity lowered (line 19), and again at HU/Venta.py:168 when a sale is cancelled. With the older class, `set_cantidad` raises `ValueError("La cantidad no puede ser negativa")` (Producto.py:55-59) when a sale takes a product below zero; the model stores the negative quantity instead. That case can happen, because the window code lowers the stock itself before creating the sale (GUI/Funcionalidad/ventas.py:350-366) and the loader takes stored amounts out again.
- Sales.SalesBook.Load, Sales.SalesBook.Rebuild and Sales.RebuildLines look stored codes up in a product list `known`, which stands for the class-level `Producto.productos` of the older product class (Producto.py:2). The `Producto` that HU/Venta.py:4 imports has no such list, so the loader as written raises at the first stored sale with products; the Findings table records this and `Sales.LoadAsWritten` models it.
- Sales.SalesBook.Load does not model a file that is half readable. Each record is either present or not, and a corrupt file reads the same as a missing one.
- Inventario.guardar_en_json and cargar_desde_json, GestorPedidos.procesar_pedido and HistoriaClinica.get_next_id / get_especie / get_raza / get_edad / get_genero are called but not defined in the sources. The model skips these calls as if they did nothing. In the `Inventario` class of HU/Inventario.py, `self.inventario.guardar_en_json()` (HU/Registrar_pedidos.py:54) raises `AttributeError` after the stock has been lowered (line 53) and before the order is appended (line 56); Orders.OrderManager.RegisterOrder goes past that point and appends the order.
- Orders.OrderManager.constructor takes its inventory as a parameter. The source builds its own inventory and loads it through the missing `cargar_desde_json`.
- The product getters are field reads. Root-class setters for code, name, category, description and expiry are not core: those fields are `const`.
- Inventory.Lookup, Inventory.Inventory.FindProduct, Inventory.Inventory.UpdateStock and Inventory.Inventory.RecordHistory read the model's one set of product fields. HU/Inventario.py:13, 20, 28-29 and 39-40 read `_codigo`, `_nombre` and `_cantidad`, which only the older class of Producto.py has. Every caller fills the inventory with objects of the HU/Producto.py class (comandos.py:1, GUI/dialogs.py:10, GUI/Funcionalidad/dialogs.py:17, Proxinterfaz/Inventario_menu.py:2), whose fields are `codigo`, `nombre` and `cantidad`. On those objects `buscar_producto` raises `AttributeError` on any non-empty inventory, and so does `actualizar_stock` through it; the model finds the product instead.
- The model also repairs an import. HU/AlertasStock.py:11 and HU/Registrar_pedidos.py:12 import `Producto` from `HU.Inventario`, which defines no such name. Because HU/__init__.py:10 imports AlertasStock, importing the `HU` package fails with `ImportError`. The model treats `StockAlerts` and `Orders` as working on the one `Product` class.
- Inventory.Inventory.UpdateStock compares number identifiers through `str()` as the corrected lookup does. Four callers pass a number code (GUI/dialogs.py:205 and others); on those calls the source raises unless the first product has that code, as the Findings table records and `Inventory.LookupAsWritten` models.
- Products.ProductRegistry.FindByCode takes the code as an integer. The source applies `int()` to its argument, and a text that is not a number raises.
- Strings.ToLower and Strings.Strip handle ASCII letters and six whitespace characters only: space, tab, line feed, carriage return, vertical tab and form feed. Python's `strip()` also removes the ASCII separators `\x1c` to `\x1f` and the Unicode spaces. There is no Unicode case folding.
- Strings.ParseInt does not accept underscores or non-ASCII digits. It is a definition without a contract of its own; `Strings.ParseIntRoundTrip` and `Strings.ParseDigits` state what it reads.
- Strings.IsDigitString accepts ASCII digits only. Python's `isdigit()` also accepts other Unicode digits such as "²", so `ServiceRequests.ReadNumber`, `ServiceRequests.ServiceDesk.EnterQuantity` and `LegacyClinicalHistory.EntryError` reject some entries the source accepts (and on which `int()` may then raise).
- Timestamps from `datetime.now()` are opaque parameters. Sorting by parsed dates and the elapsed-days rule's date parsing are not modelled either: `ClinicalLookup.Recommendations` takes the elapsed days as a parameter.
- `generar_estadisticas_cliente`'s exception branch is not modelled. No modelled input raises there.
- `buscar_detalle_*`, `procesar_consultas_medicas`, `procesar_compras_cliente` and `cargar_datos_sistema` are not modelled. They are presentation or plumbing outside the core.
- ClinicalLookup.ValidateVetAccess models only the `permisos` shapes that `Roles.RoleValue` represents: a list of texts, a text or a number.
- Roles.RoleManager.HasPermission, Roles.RoleManager.ValidateRoleAccess and Roles.RoleManager.AccessibleTabs read a `permisos` entry that is not a list as no permissions. In the source, `in` on a text `permisos` is a substring test (so a text holding 'todas_las_funciones' grants access) and on a number raises an uncaught `TypeError`. Every role definition of the application stores a list.
- The role discovery module, `select_role_interactively` and the credential tables are not modelled. They are plumbing and window code.
- Floating-point prices are not modelled. Prices are integers.

## Findings

| source | as written | input that shows it | evidently intended | confidence | as-written member | corrected member |
|---|---|---|---|---|---|---|
| HU/Inventario.py:13 | `buscar_producto` applies `str()` to the identifier for the code test but then calls `identificador.lower()`, which raises `AttributeError` when the identifier is an `int` | an inventory of products of the older class (Producto.py, fields `_codigo` and `_nombre`) whose first product has code 1 and a later product code 2; `buscar_producto(2)` raises instead of returning the second product (with products of the HU/Producto.py class, line 13 already raises at `producto._codigo`, see "## Left out") | a number identifier is compared through `str()` on both sides and finds the product with that code | not executed | Inventory.LookupAsWritten, Inventory.NumberIdentifierRaises | Inventory.Lookup, Inventory.NumberIdentifierFound |
| HU/Venta.py:72 | `cargar_desde_json` reads `Producto.productos`, but the `Producto` imported at HU/Venta.py:4 is the class of HU/Producto.py, which has no class-level product list; the `AttributeError` is not among the exceptions caught at line 77 | a sales file holding one sale with one product entry: the loader raises after clearing the list, and no sale is loaded | stored codes are looked up in the list of known products, and every stored sale is rebuilt | not executed | Sales.LoadAsWritten, Sales.StoredProductsRaise | Sales.SalesBook.Load, Sales.RebuildRoundTrip |
