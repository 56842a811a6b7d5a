# Pastry delivery store: queries, data generator and initial loader

This project models three parts of a small food-ordering backend that keeps its data in a
document store. The collections are `usuarios`, `restaurantes`, `productos`, `pedidos` and `resenias`.

- **The query catalog** (`queries.js`). These are the reads and writes the admin and login
  endpoints issue:
  - login by user name;
  - the review, order, product and restaurant listings (filter, sort, skip, limit);
  - the detail views built with `$lookup`/`$unwind`/`$group`;
  - the distinct-ingredients aggregation;
  - `insertOne`, `updateOne` and `updateMany`.

  Each read is a pure function over the collections, with lemmas stating what rows it returns
  and in what order (`queries.dfy`, on the stage semantics in `pipeline.dfy`). The writes are
  pure update functions with lemmas, plus a `Database` class whose methods change the
  collections in place and are proved against those functions (`store.dfy`).
- **The order and review generator** (`generarPedidosResenias.py`). It covers:
  - the weighted pools of clients, restaurants and products;
  - building one order from its random draws;
  - the 50 000-order loop, which sends `insert_many` batches of 5 000;
  - the review loop over a sample of the received orders, with the date capped at the window's end.

  Every random outcome is an explicit input whose allowed range is stated by a predicate
  (`generator.dfy`).
- **The initial loader** (`datos_iniciales.py`). It turns CSV rows into the restaurant, user
  and product documents. This includes:
  - splitting the `|`-separated phone and ingredient cells;
  - the `esActivo` coercion;
  - the image-name map;
  - the exception a malformed row raises (`seed.dfy`).

Shared pieces:
- `entities.dfy` holds the documents.
- `wrappers.dfy` holds `Option` and `Result`.

Conventions:
- Ids are natural numbers handed out in increasing order, as ObjectIds are. A collection scan therefore runs in ascending id order.
- Dates are seconds since the Unix epoch:
  - FECHA_INICIO = 2025-02-01 is 1738368000;
  - FECHA_FIN = 2026-03-31 is 1774915200.
- Money is integer cents.

Where the documentation of the system and the code differ, the model follows the code:
- `updateOne`/`updateMany` on a missing id match nothing and raise no "not found" error. The methods return the matched count.
- The restaurant listing has no filter on `esActivo`.

## Model

| member | source | states |
|---|---|---|
| Queries.FindById | queries.js:182-193 | `find({_id})` as in getProductsAdminById (whose projection keeps every stored field) and getRestaurantById (queries.js:272-274): the document with that id exactly when one is stored. |
| Queries.GetRestaurantSchedule | queries.js:263-269 | Found exactly when the id is stored. The row carries that id, the restaurant's name and its opening hours. |
| Queries.GetUserSpec | queries.js:22-25 | Every returned row is a stored user with the requested name, projected to id, name, password and type. Every stored user with that name is returned. |
| Queries.SortedPage | queries.js:44 | sort then skip/limit: the page is sorted and at most `limit` long, and holds only input rows. With skip 0, a row left out means the page is full of rows that sort before it. |
| Queries.GetReviewsAdminSpec | queries.js:30-44 | At most `limit` rows, newest first. Each row is a stored review with that score and a date in [desde, hasta], projected. With skip 0, every matching review is on the page unless the page is full of reviews at least as recent. |
| Queries.GetReviewsAdminCatalog | queries.js:30-44 | The catalog's own arguments: at most 10 reviews, all score 5, dated 2025-06-01 to 2025-12-31 23:59:59, newest first. |
| Queries.OrderCandidatesSound | queries.js:94-129 | Every joined row comes from a stored order in the date window whose user and restaurant both exist. The row carries their names and the order's date, total and status. |
| Queries.OrderCandidatesComplete | queries.js:94-129 | Every stored order in the window whose user and restaurant exist yields its row. `$unwind` drops the orders whose lookups fail. |
| Queries.OrderCandidatesExact | queries.js:94-129 | Both directions: the joined rows are exactly the listed orders. |
| Queries.GetOrdersSpec | queries.js:94-133 | getOrders: at most `limit` rows, newest first, each a listed order. With skip 0, no listed order is missing unless the page is full of orders at least as recent. |
| Queries.ResolvedLines | queries.js:67-69 | The resolved lines are no more than the order's items. There are none exactly when no item's product exists. |
| Queries.JoinedLines | queries.js:67-86 | Unwinding one row's items and looking up their products yields the resolved lines in item order, all belonging to that row. |
| Queries.UnwindOne | queries.js:67 | `$unwind` of one document's array yields one row per element, in order. |
| Queries.GetReviewsAdminByIdSpec | queries.js:59-89 | A detail exists exactly when the review, its user, its restaurant and its order exist and at least one ordered product resolves. It carries the review's fields, the user and restaurant names, the order total and the resolved lines. |
| Queries.GetOrdersByIdSpec | queries.js:136-162 | A detail exists exactly when the order, its user and its restaurant exist and some product resolves. It holds the order's fields, the two names and the resolved lines, never more lines than items. |
| Queries.ProductNameLeTotalPreorder | queries.js:179 | Ordering by `nombre` is total and transitive, so the sort is well defined. |
| Queries.GetProductsAdminSpec | queries.js:172-179 | getProductsAdmin lists every product exactly once, projected, in name order. |
| Queries.RestaurantNameLeTotalPreorder | queries.js:260 | Ordering by `nombre_restaurante` is total and transitive. |
| Queries.GetRestaurantsAdminSpec | queries.js:253-260 | getRestaurantsAdmin lists every restaurant exactly once, projected, in name order. |
| Queries.IngredientStreamExact | queries.js:207-209 | After `$match` and `$unwind`, a name is in the stream exactly when some product lists it. |
| Queries.GetIngredientsSpec | queries.js:207-222 | No result document exactly when no product lists an ingredient. Otherwise the set is exactly the listed ingredients, each once. |
| Queries.InsertOneSpec | queries.js:196-204 | insertOne stores the document under a fresh id, grows the collection by one and leaves every other document unchanged. |
| Queries.CreateProductVisible | queries.js:196-204 | After createProduct's document is inserted, it is found by its id and is listed once more by getProductsAdmin (name "Pastel Blando", no image, price 120.00). Its ingredient "harina" appears in getIngredients. |
| Queries.CreateRestaurantVisible | queries.js:277-292 | After createRestaurant's document is inserted, getRestaurantSchedule returns its name and its three opening-hour strings, and getRestaurantsAdmin lists it once more. |
| Queries.UpdateById | queries.js:165-168 | updateOne by `_id`: same ids; only the matched document changes, and it changes by the update. |
| Queries.UpdateWhereIdIn | queries.js:238-248 | updateMany with `$in`: every listed stored id gets the update; the others are unchanged. |
| Queries.UpdateOrderStatusSpec | queries.js:165-168 | Only `estado` of the matched order changes. A missing id changes nothing. Applying it twice equals applying it once. |
| Queries.UpdateProductSpec | queries.js:225-235 | Name, description, preparation time and price are set. Ingredients, image and esActivo are kept, other products are unchanged, and the update is idempotent. |
| Queries.UpdateProductsStateSpec | queries.js:238-248 | Every listed product becomes inactive with nothing else changed. Unlisted ones are unchanged, and the update is idempotent. |
| Queries.UpdateRestaurantSpec | queries.js:295-305 | The dotted `$set` replaces the name, street, zone and weekday hours only. Postal code, avenue, weekend and holiday hours, phones and esActivo are kept. Idempotent. |
| Store.Database.CreateProduct | queries.js:196-204 | The product collection becomes `InsertOne` of the old one. The new id was free and the other collections are unchanged. |
| Store.Database.CreateRestaurant | queries.js:277-292 | The restaurant collection becomes `InsertOne` of the old one. The other collections are unchanged. |
| Store.Database.UpdateOrderStatus | queries.js:165-168 | The orders become `UpdateOrderStatus` of the old orders, the matched count is 1 or 0, and nothing else changes. |
| Store.Database.UpdateProduct | queries.js:225-235 | The products become `UpdateProduct` of the old ones and the matched count is returned. |
| Store.Database.UpdateProductsState | queries.js:238-248 | The products become `UpdateProductsState` of the old ones. The matched count is the number of distinct listed ids that are stored. |
| Store.Database.UpdateRestaurant | queries.js:295-305 | The restaurants become `UpdateRestaurant` of the old ones and the matched count is returned. |
| Pipeline.RowsBelow | queries.js:172 | A scan yields stored documents with their ids, in strictly increasing id order, and misses none. |
| Pipeline.RowsExact | queries.js:172 | The scan of a valid collection holds exactly its documents, in increasing id order. |
| Pipeline.RowsCount | queries.js:172 | The scan yields as many rows as there are documents. |
| Pipeline.Filter | queries.js:30-37 | A filter keeps exactly the rows that satisfy the predicate, and never yields more rows than its input. |
| Pipeline.FilterIdsIncreasing | queries.js:30-37 | Filtering keeps the natural order. |
| Pipeline.Project | queries.js:38-43 | A projection maps every row, keeping count and order. |
| Pipeline.ProjectRowsExact | queries.js:172-179 | Projecting a scan with a projection that keeps `_id` yields exactly one projected row per stored document. |
| Pipeline.LookupUnwind | queries.js:104-111 | `$lookup` on `_id` followed by `$unwind`: a row survives exactly when its key is stored, paired with that document. |
| Pipeline.LookupOne | queries.js:61-62 | For a single row, the join yields that row paired with its document, or nothing. |
| Pipeline.Spread | queries.js:67 | One row per array element, in order. |
| Pipeline.Unwind | queries.js:209 | `$unwind` yields exactly the (row, element) pairs of each row's array. |
| Pipeline.InsertBy | queries.js:44 | Inserting into a sorted run adds exactly that element. |
| Pipeline.InsertBySorted | queries.js:44 | Inserting into a sorted run keeps it sorted. |
| Pipeline.SortBySorted | queries.js:44 | `sort` yields a sorted permutation of its input. |
| Pipeline.SortBy | queries.js:130 | `$sort` is a permutation of its input. |
| Pipeline.SortByKeeps | queries.js:130 | `$sort` keeps the length and the members. |
| Pipeline.Page | queries.js:131-132 | skip/limit: at most `limit` rows, the consecutive rows after `skip`. The page is short only at the end of the input. |
| Pipeline.AddToSet | queries.js:213 | `$addToSet` holds exactly the input values, each once. |
| Pipeline.StrLeTotal | queries.js:179 | String order is total. |
| Pipeline.StrLeTransitive | queries.js:179 | String order is transitive. |
| Generator.RandomDate | generarPedidosResenias.py:97-100 | A date drawn between inicio and fin lies in [inicio, fin]. |
| Generator.RepeatLength | generarPedidosResenias.py:113 | `list * n` has n times the length. |
| Generator.RepeatCount | generarPedidosResenias.py:113 | `list * n` holds every element n times as often. |
| Generator.DistinctCount | generarPedidosResenias.py:108 | In a list without repeats, each member occurs once. |
| Generator.BoostLength | generarPedidosResenias.py:111-123 | `s[:3] * k + s[3:]` has length k·min(3,\|s\|) + max(0,\|s\|−3). |
| Generator.BoostMembers | generarPedidosResenias.py:111-123 | For k ≥ 1, the pool has exactly the members of the list. |
| Generator.BoostCounts | generarPedidosResenias.py:111-123 | For a list without repeats, each of the first three entries occurs k times and every other entry once. |
| Generator.DistinctIdsDistinct | generarPedidosResenias.py:108 | Documents with distinct ids are distinct. |
| Generator.FilterDistinctIds | generarPedidosResenias.py:108 | Filtering keeps ids distinct. |
| Generator.ClientesPool | generarPedidosResenias.py:108-113 | The client pool holds exactly the users of type "cliente". |
| Generator.BuildWeightedListsSpec | generarPedidosResenias.py:103-125 | Pool members, pool lengths, and the weights ×4 clients, ×3 restaurants, ×5 products on the first three. |
| Generator.TopPoolMembers | generarPedidosResenias.py:151-152 | The top-product candidates are catalog products. |
| Generator.SeleccionadosDistinct | generarPedidosResenias.py:146-154 | The chosen products have distinct ids and come from the catalog. At most one is appended to the sample. |
| Generator.LineasDePedido | generarPedidosResenias.py:156-166 | The loop builds one line per chosen product, with that product's id, the drawn quantity and its price, and accumulates their sum as the total. |
| Generator.BuildPedido | generarPedidosResenias.py:139-175 | The order built from the draws is `PedidoOf` of them. |
| Generator.PedidoLinesSpec | generarPedidosResenias.py:146-166 | The lines have distinct product ids. There is at least one line when products exist, and at most min(5, n)+1 lines. Quantities are 1..4 at the product's price, and the total is the sum of the lines. |
| Generator.PedidoOfSpec | generarPedidosResenias.py:139-175 | The status is one of ESTADOS and the date is in the window. The user is a client and the restaurant is listed. Product ids are distinct and the total is the sum of the lines. |
| Generator.FlattenAppend | generarPedidosResenias.py:180-181 | Sending one more batch appends its documents. |
| Generator.FullBatchesLength | generarPedidosResenias.py:179-183 | Full batches hold batches·size documents. |
| Generator.BatchCount | generarPedidosResenias.py:176-188 | With full batches and a non-empty last one, the batch count is the document count divided by the size, rounded up. |
| Generator.Push | generarPedidosResenias.py:176-183 | Appending a document loses and reorders nothing. A batch is sent exactly when it reaches BATCH_SIZE, and then it is sent full. |
| Generator.Finish | generarPedidosResenias.py:186-188 | The remainder is sent only when non-empty, and all documents end up sent in order. |
| Generator.InsertedIds | generarPedidosResenias.py:180-181 | The ids collected are consecutive, one per inserted order. |
| Generator.InsertarPedidos | generarPedidosResenias.py:138-191 | All 50 000 orders are sent in batching order. The i-th sent order is the one built from the i-th draws, and one id is returned per order. |
| Generator.GenerarPedidos | generarPedidosResenias.py:128-191 | Raises exactly when the client or restaurant pool is empty, and then inserts nothing. Otherwise the result is as for `InsertarPedidos`. |
| Generator.PedidoBatches | generarPedidosResenias.py:18-20 | 50 000 orders in batches of 5 000 are exactly 10 full batches. |
| Generator.FechaResenia | generarPedidosResenias.py:231-237 | The review date is order date + days, capped at FECHA_FIN. It never precedes an in-window order's date. |
| Generator.ReseniaOfSpec | generarPedidosResenias.py:218-247 | Score 1..5, with the title and text from the lists of the score's tone. The date is capped and not before the order. The user, restaurant and order ids are copied from the order. |
| Generator.ReseniarPedidos | generarPedidosResenias.py:215-259 | One review per sampled order, in order, sent in BATCH_SIZE batches with the remainder last. The count equals the number sent. |
| Generator.GenerarResenias | generarPedidosResenias.py:194-261 | count = min(NUM_RESENIAS, number of received orders). The i-th review sent is for the i-th sampled received order. |
| Generator.SampledReviewsSpec | generarPedidosResenias.py:198-247 | Every review is for a stored order in state "Recibido", with its user and restaurant. No order gets two reviews. |
| Seed.Split | datos_iniciales.py:71 | `str.split("\|")` yields at least one piece. |
| Seed.SplitSpec | datos_iniciales.py:71 | There is one piece more than there are separators, and no piece holds a separator. |
| Seed.JoinSplit | datos_iniciales.py:71 | Joining the pieces with "\|" gives back the cell. |
| Seed.SplitJoin | datos_iniciales.py:106 | Splitting the join of separator-free pieces gives back the pieces. |
| Seed.SplitPiece | datos_iniciales.py:106 | A cell without a separator splits into itself. |
| Seed.SplitPrefix | datos_iniciales.py:106 | A separator-free prefix sticks to the first piece. |
| Seed.Get | datos_iniciales.py:64-75 | `row[column]` is the cell when the column exists, else a KeyError naming it. |
| Seed.SplitCell | datos_iniciales.py:71 | `.split` succeeds exactly on text cells. A cell that is not text raises AttributeError, and a missing column raises KeyError. |
| Seed.IntCell | datos_iniciales.py:105 | `int(cell)` truncates toward zero for numbers and gives 1/0 for booleans. Text and NaN cells raise. |
| Seed.FloatCell | datos_iniciales.py:109 | `float(cell)` keeps a number exactly, gives 1.0/0.0 for booleans and nan for an empty (NaN) cell. Text cells raise ValueError, and a missing column raises KeyError. |
| Seed.EsActivoSpec | datos_iniciales.py:108 | True exactly for the boolean true, the number 1, or the text "true". "True" and "false" are not active. |
| Seed.UploadImage | datos_iniciales.py:43-57 | A file id exactly when the name is mapped in IMAGEN_MAP and the file exists, and it is that file's id. |
| Seed.RestauranteOfSpec | datos_iniciales.py:60-79 | A row parses exactly when all nine columns exist and the phones cell is text. The record has four keys and no esActivo. Address and hours are copied verbatim and the phones are split. A missing name raises KeyError, and phones that are not text raise AttributeError. |
| Seed.UsuarioOfSpec | datos_iniciales.py:82-92 | Parses exactly when the four columns exist, and they are copied verbatim and alone. |
| Seed.ProductoOfSpec | datos_iniciales.py:95-112 | Parses exactly when the columns exist, time is numeric, ingredients are text and the price is numeric or empty. The record has exactly seven keys, each value stated: name and description verbatim, `int` of the time, the split ingredients, the uploaded image's id (none when the name is unmapped or its file is missing), the coerced esActivo, and `float` of the price (nan for an empty cell). |
| Seed.ParsedFromSuccess | datos_iniciales.py:60-79 | A load succeeds exactly when every row parses. |
| Seed.ParseRestaurantes | datos_iniciales.py:60-79 | One record per row, in order, or the exception of the first row that fails. |
| Seed.ParseUsuarios | datos_iniciales.py:82-92 | One record per row, in order, or the first row's exception. |
| Seed.ParseProductos | datos_iniciales.py:95-112 | One record per row, in order, with the image ids from the upload map, or the first row's exception. |

## Left out

- The index definitions (queries.js:3-18) and the `.explain("executionStats")` wrapper on every query. They affect speed and diagnostics, not results.
- The `$text` search of reviews (queries.js:47-56). Tokenising, stemming and relevance scoring are outside the model.
- Seconds, cents and floats: dates are integer seconds and prices integer cents. `round(total, 2)` (generarPedidosResenias.py:174) is therefore exact, and floating-point rounding of sums and prices is not modelled.
- File and network I/O: reading the CSV files with pandas, GridFS uploads, and opening files (datos_iniciales.py:49-57). The file-store result is the `uploads` map from image file name to file id.
- Environment, client and `main` plumbing, and console output, in both Python scripts.
- `hashingUsuarios.py` is not part of this model.
- Pipeline.Page: `limit(0)` (no limit) is not modelled. The page size is a positive number, and every query uses 10.
- Pipeline.SortBy: the order of rows with equal keys is that of a stable sort over the natural order. The store does not promise any tie order, so only sortedness and permutation are stated.
- Pipeline.AddToSet: the element order is fixed as first occurrence. The store leaves it unspecified, so only the membership and no-duplicates contract is stated.
- Seed.IntCell: `int()` of a text cell raises ValueError; parsing numeric text such as "12" is not modelled, since a numeric CSV column is read as numbers and text reaches it only from a malformed file. `int` of an empty (NaN) cell raises, as in Python.
- Seed.FloatCell: `float()` of a text cell raises ValueError; parsing numeric text is not modelled, for the same reason.
- Generator.RandomDate: `randint` with an end before the start raises. Callers pass only inicio ≤ fin, so that path is excluded.
- Random choice: weights and probabilities (the status weights, score weights and the 40% bias) are not modelled. Only the range of each draw is.
- Generator.InsertedIds: `insert_many` ids are modelled as consecutive numbers from a given first id.
- Generator.Recibidos: the `find` projection of received orders keeps the whole order document instead of four fields. Only those four fields are read.
- Generator.GenerarResenias: requires of the draws only the range of the days. Score, title and description tones are stated per review by Generator.ReseniaOfSpec.
- Generator.ReseniarPedidos: requires of the draws only the range of the days, for the same reason.
