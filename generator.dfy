/**
 * The order and review generator. Every `random.*` call is an explicit
 * draw, given as input within the range the call can return; the rest is
 * the generator's own deterministic logic: the weighted pools, building an
 * order and its line items, building a review from a received order, and
 * the loops that send the documents to the store in batches.
 */
module Generator {
  import opened Wrappers
  import opened Entities
  import opened Pipeline

  const NUM_PEDIDOS: nat := 50000
  const NUM_RESENIAS: nat := 10000
  const BATCH_SIZE: nat := 5000

  const DIA: Seconds := 86400
  /** datetime(2025, 2, 1) */
  const FECHA_INICIO: Seconds := 1738368000
  /** datetime(2026, 3, 31) */
  const FECHA_FIN: Seconds := 1774915200

  const ESTADOS: seq<string> := ["En cocina", "En camino", "Recibido"]
  const RECIBIDO: string := "Recibido"

  const TITULOS_POSITIVOS: seq<string> := [
    "Excelente experiencia", "Muy recomendado", "Delicioso todo", "Superó mis expectativas",
    "Volveré sin duda", "El mejor postre que he probado", "Increíble sabor",
    "Perfecto para compartir", "Calidad excepcional", "Mi lugar favorito"]

  const TITULOS_NEUTRALES: seq<string> := [
    "Estuvo bien", "Cumple con lo esperado", "Normal, nada especial", "Aceptable", "Regular"]

  const TITULOS_NEGATIVOS: seq<string> := [
    "No me gustó mucho", "Podría mejorar", "Esperaba más", "Decepcionante", "No lo recomiendo"]

  const DESCRIPCIONES_POSITIVAS: seq<string> := [
    "Todo estuvo delicioso, el sabor es increíble y la presentación impecable.",
    "Me encantó la frescura de los ingredientes, se nota la calidad.",
    "El pedido llegó en perfectas condiciones y el sabor estaba espectacular.",
    "Siempre pido aquí y nunca me han fallado. La consistencia es admirable.",
    "Los postres tienen un sabor casero que me recuerda a la cocina de mi abuela.",
    "Excelente relación calidad-precio, porciones generosas y sabor único.",
    "La textura y el balance de sabores están perfectamente logrados.",
    "Pedí para una reunión familiar y todos quedaron encantados.",
    "Sin duda el mejor cheesecake que he probado en Guatemala.",
    "La atención fue muy buena y el producto llegó antes de lo esperado."]

  const DESCRIPCIONES_NEUTRALES: seq<string> := [
    "El producto estaba bien, pero no es nada fuera de lo común.",
    "Cumplió con lo que esperaba, ni más ni menos.",
    "Estuvo aceptable, aunque el empaque podría mejorar.",
    "El sabor es decente pero he probado mejores en otros lugares.",
    "Está bien para el precio, pero no repetiría necesariamente."]

  const DESCRIPCIONES_NEGATIVAS: seq<string> := [
    "El postre llegó un poco seco y no tenía el sabor que esperaba.",
    "La porción era muy pequeña para el precio que se paga.",
    "No me convenció el sabor, sentí que le faltaba dulce.",
    "El pedido tardó demasiado y cuando llegó ya estaba tibio.",
    "La presentación no se parecía en nada a la foto del producto."]

  function Min(a: int, b: int): int { if a < b then a else b }
  function Max(a: int, b: int): int { if a < b then b else a }

  // ---------------------------------------------------------------------
  // random_date
  // ---------------------------------------------------------------------

  /** `inicio + timedelta(seconds=randint(0, fin - inicio))`, the drawn offset given. */
  function RandomDate(inicio: Seconds, fin: Seconds, segundos: int): (t: Seconds)
    requires 0 <= segundos <= fin - inicio
    ensures inicio <= t <= fin
  {
    inicio + segundos
  }

  // ---------------------------------------------------------------------
  // build_weighted_lists
  // ---------------------------------------------------------------------

  /** `s * times`: the list repeated back to back. */
  function Repeat<T>(s: seq<T>, times: nat): seq<T> {
    if times == 0 then [] else Repeat(s, times - 1) + s
  }

  /** `s[:3] * times + s[3:]`: the first three entries weighted `times`, the rest once. */
  function Boost<T>(s: seq<T>, times: nat): seq<T> {
    var k := Min(3, |s|);
    Repeat(s[..k], times) + s[k..]
  }

  ghost predicate Distinct<T>(s: seq<T>) {
    forall i, j :: 0 <= i < j < |s| ==> s[i] != s[j]
  }

  lemma {:induction false} RepeatLength<T>(s: seq<T>, times: nat)
    ensures |Repeat(s, times)| == times * |s|
  {
    if times > 0 {
      RepeatLength(s, times - 1);
    }
  }

  lemma {:induction false} RepeatCount<T>(s: seq<T>, times: nat, x: T)
    ensures multiset(Repeat(s, times))[x] == times * multiset(s)[x]
  {
    if times > 0 {
      RepeatCount(s, times - 1, x);
      var c := multiset(s)[x];
      assert multiset(Repeat(s, times)) == multiset(Repeat(s, times - 1)) + multiset(s);
      assert times * c == (times - 1) * c + c;
    }
  }

  lemma {:induction false} DistinctCount<T>(s: seq<T>, x: T)
    requires Distinct(s)
    ensures multiset(s)[x] == if x in s then 1 else 0
  {
    if s != [] {
      assert s == [s[0]] + s[1..];
      DistinctCount(s[1..], x);
      forall j | 0 <= j < |s[1..]| ensures s[1..][j] != s[0] {
        assert s[1..][j] == s[j + 1];
      }
      assert s[0] !in s[1..];
    }
  }

  /** A boosted pool has `times * min(3, n) + max(0, n - 3)` entries. */
  lemma BoostLength<T>(s: seq<T>, times: nat)
    ensures |Boost(s, times)| == times * Min(3, |s|) + Max(0, |s| - 3)
  {
    RepeatLength(s[..Min(3, |s|)], times);
  }

  /** A pool boosted at least once holds exactly the entries of `s`. */
  lemma BoostMembers<T(!new)>(s: seq<T>, times: nat)
    requires times >= 1
    ensures forall x :: x in Boost(s, times) <==> x in s
  {
    var k := Min(3, |s|);
    assert s == s[..k] + s[k..];
    forall x ensures x in Boost(s, times) <==> x in s {
      RepeatCount(s[..k], times, x);
      assert x in Repeat(s[..k], times) <==> x in s[..k] by {
        assert x in Repeat(s[..k], times) <==> multiset(Repeat(s[..k], times))[x] > 0;
        assert x in s[..k] <==> multiset(s[..k])[x] > 0;
      }
    }
  }

  /** With distinct entries, each of the first three occurs `times` times in the pool and every other one once. */
  lemma BoostCounts<T>(s: seq<T>, times: nat)
    requires Distinct(s)
    ensures forall i :: 0 <= i < |s| ==> multiset(Boost(s, times))[s[i]] == if i < 3 then times else 1
  {
    var k := Min(3, |s|);
    assert s == s[..k] + s[k..];
    forall i | 0 <= i < |s|
      ensures multiset(Boost(s, times))[s[i]] == if i < 3 then times else 1
    {
      RepeatCount(s[..k], times, s[i]);
      DistinctCount(s, s[i]);
      assert multiset(s) == multiset(s[..k]) + multiset(s[k..]);
      if i < k {
        assert s[..k][i] == s[i];
      } else {
        assert s[k..][i - k] == s[i];
      }
    }
  }

  predicate IsCliente(u: Stored<User>) { u.doc.tipoUsuario == "cliente" }

  datatype Pools = Pools(
    clientes: seq<Stored<User>>,
    restaurantes: seq<Stored<Restaurant>>,
    productos: seq<Stored<Product>>)

  /** build_weighted_lists: clients boosted four times, restaurants three, products five. */
  function BuildWeightedLists(usuarios: seq<Stored<User>>, restaurantes: seq<Stored<Restaurant>>,
                              productos: seq<Stored<Product>>): Pools
  {
    Pools(Boost(Filter(usuarios, IsCliente), 4), Boost(restaurantes, 3), Boost(productos, 5))
  }

  ghost predicate DistinctIds<T>(s: seq<Stored<T>>) {
    forall i, j :: 0 <= i < j < |s| ==> s[i].id != s[j].id
  }

  lemma DistinctIdsDistinct<T>(s: seq<Stored<T>>)
    requires DistinctIds(s)
    ensures Distinct(s)
  {
  }

  lemma {:induction false} FilterDistinctIds<T(!new)>(s: seq<Stored<T>>, p: Stored<T> -> bool)
    requires DistinctIds(s)
    ensures DistinctIds(Filter(s, p))
  {
    if s != [] {
      FilterDistinctIds(s[1..], p);
      var rest := Filter(s[1..], p);
      forall j | 0 <= j < |rest| ensures s[0].id != rest[j].id {
        assert rest[j] in s[1..];
      }
    }
  }

  lemma ClientesPool(usuarios: seq<Stored<User>>)
    ensures forall u :: u in Boost(Filter(usuarios, IsCliente), 4) <==> u in usuarios && u.doc.tipoUsuario == "cliente"
  {
    var clientes := Filter(usuarios, IsCliente);
    BoostMembers(clientes, 4);
    forall u ensures u in Boost(clientes, 4) <==> u in usuarios && u.doc.tipoUsuario == "cliente" {
      assert u in clientes <==> u in usuarios && IsCliente(u);
    }
  }

  /**
   * The client pool holds exactly the users of type "cliente"; the three
   * pools have the boosted lengths; with distinct ids, each of the first
   * three clients occurs four times and every other client once.
   */
  lemma BuildWeightedListsSpec(usuarios: seq<Stored<User>>, restaurantes: seq<Stored<Restaurant>>,
                               productos: seq<Stored<Product>>)
    ensures var pools := BuildWeightedLists(usuarios, restaurantes, productos);
      var clientes := Filter(usuarios, IsCliente);
      && (forall u :: u in pools.clientes <==> u in usuarios && u.doc.tipoUsuario == "cliente")
      && |pools.clientes| == 4 * Min(3, |clientes|) + Max(0, |clientes| - 3)
      && |pools.restaurantes| == 3 * Min(3, |restaurantes|) + Max(0, |restaurantes| - 3)
      && |pools.productos| == 5 * Min(3, |productos|) + Max(0, |productos| - 3)
      && (forall r :: r in pools.restaurantes <==> r in restaurantes)
      && (forall p :: p in pools.productos <==> p in productos)
      && (DistinctIds(usuarios) ==> forall i :: 0 <= i < |clientes| ==>
            multiset(pools.clientes)[clientes[i]] == if i < 3 then 4 else 1)
      && (DistinctIds(restaurantes) ==> forall i :: 0 <= i < |restaurantes| ==>
            multiset(pools.restaurantes)[restaurantes[i]] == if i < 3 then 3 else 1)
      && (DistinctIds(productos) ==> forall i :: 0 <= i < |productos| ==>
            multiset(pools.productos)[productos[i]] == if i < 3 then 5 else 1)
  {
    var clientes := Filter(usuarios, IsCliente);
    BoostLength(clientes, 4);
    BoostLength(restaurantes, 3);
    BoostLength(productos, 5);
    ClientesPool(usuarios);
    BoostMembers(restaurantes, 3);
    BoostMembers(productos, 5);
    if DistinctIds(usuarios) {
      FilterDistinctIds(usuarios, IsCliente);
      DistinctIdsDistinct(clientes);
      BoostCounts(clientes, 4);
    }
    if DistinctIds(restaurantes) {
      DistinctIdsDistinct(restaurantes);
      BoostCounts(restaurantes, 3);
    }
    if DistinctIds(productos) {
      DistinctIdsDistinct(productos);
      BoostCounts(productos, 5);
    }
  }

  // ---------------------------------------------------------------------
  // One order of generar_pedidos
  // ---------------------------------------------------------------------

  /** The draws one order consumes, in the order the generator makes them. */
  datatype OrderDraw = OrderDraw(
    cliente: nat,          // random.choice(clientes_pool): a position in the pool
    restaurante: nat,      // random.choice(restaurantes_pool)
    segundos: int,         // random_date: random.randint(0, FECHA_FIN - FECHA_INICIO)
    estado: nat,           // random.choices(ESTADOS, ...): a position in ESTADOS
    numProductos: int,     // random.randint(1, 5)
    muestra: seq<nat>,     // random.sample(productos, k): k distinct positions
    sesgo: bool,           // random.random() < 0.4
    top: nat,              // random.choice(productos_pool[:3])
    cantidades: seq<int>)  // random.randint(1, 4), one per selected product

  /** `productos_pool[:3]`. */
  function TopPool<T>(pool: seq<T>): seq<T> {
    if |pool| < 3 then pool else pool[..3]
  }

  ghost predicate DistinctIndices(m: seq<nat>, n: nat) {
    && (forall i :: 0 <= i < |m| ==> m[i] < n)
    && (forall i, j :: 0 <= i < j < |m| ==> m[i] != m[j])
  }

  /** The sampled products, then the top product appended when the bias fires and it is absent. */
  function Seleccionados(d: OrderDraw, productos: seq<Stored<Product>>, productosPool: seq<Stored<Product>>)
    : seq<Stored<Product>>
    requires forall i :: 0 <= i < |d.muestra| ==> d.muestra[i] < |productos|
    requires d.sesgo && TopPool(productosPool) != [] ==> d.top < |TopPool(productosPool)|
  {
    var muestra := seq(|d.muestra|, i requires 0 <= i < |d.muestra| => productos[d.muestra[i]]);
    if d.sesgo && TopPool(productosPool) != [] then
      var t := TopPool(productosPool)[d.top];
      if t in muestra then muestra else muestra + [t]
    else muestra
  }

  /**
   * The draws are within the ranges of the calls that made them. A choice
   * from an empty pool has no range: the generator fails first (see
   * GenerarPedidos), so those two positions are constrained only when the
   * pools are not empty.
   */
  ghost predicate ValidOrderDraw(d: OrderDraw, pools: Pools, productos: seq<Stored<Product>>) {
    && (pools.clientes != [] ==> d.cliente < |pools.clientes|)
    && (pools.restaurantes != [] ==> d.restaurante < |pools.restaurantes|)
    && 0 <= d.segundos <= FECHA_FIN - FECHA_INICIO
    && d.estado < |ESTADOS|
    && 1 <= d.numProductos <= 5
    && |d.muestra| == Min(d.numProductos, |productos|)
    && DistinctIndices(d.muestra, |productos|)
    && (d.sesgo && TopPool(pools.productos) != [] ==> d.top < |TopPool(pools.productos)|)
    && |d.cantidades| == |Seleccionados(d, productos, pools.productos)|
    && (forall i :: 0 <= i < |d.cantidades| ==> 1 <= d.cantidades[i] <= 4)
  }

  function LineItemsOf(sel: seq<Stored<Product>>, cantidades: seq<int>): seq<LineItem>
    requires |cantidades| == |sel|
  {
    seq(|sel|, i requires 0 <= i < |sel| => LineItem(sel[i].id, cantidades[i], sel[i].doc.precio))
  }

  /** The exact order total: the sum of quantity times unit price over the line items. */
  function Total(items: seq<LineItem>): Cents {
    if items == [] then 0
    else Total(items[..|items| - 1]) + items[|items| - 1].cantidad * items[|items| - 1].precioUnitario
  }

  /** The order the generator builds from one set of draws. */
  function PedidoOf(d: OrderDraw, pools: Pools, productos: seq<Stored<Product>>): Order
    requires pools.clientes != [] && pools.restaurantes != []
    requires ValidOrderDraw(d, pools, productos)
  {
    var items := LineItemsOf(Seleccionados(d, productos, pools.productos), d.cantidades);
    Order(RandomDate(FECHA_INICIO, FECHA_FIN, d.segundos),
          pools.clientes[d.cliente].id,
          pools.restaurantes[d.restaurante].id,
          items,
          ESTADOS[d.estado],
          Total(items))
  }

  /** One iteration of generar_pedidos up to `pedido = {...}`, with its line-item loop. */
  method BuildPedido(d: OrderDraw, pools: Pools, productos: seq<Stored<Product>>) returns (pedido: Order)
    requires pools.clientes != [] && pools.restaurantes != []
    requires ValidOrderDraw(d, pools, productos)
    ensures pedido == PedidoOf(d, pools, productos)
  {
    var cliente := pools.clientes[d.cliente];
    var restaurante := pools.restaurantes[d.restaurante];
    var fecha := RandomDate(FECHA_INICIO, FECHA_FIN, d.segundos);
    var estado := ESTADOS[d.estado];
    var seleccionados := seq(|d.muestra|, i requires 0 <= i < |d.muestra| => productos[d.muestra[i]]);
    if d.sesgo && TopPool(pools.productos) != [] {
      var top := TopPool(pools.productos)[d.top];
      if top !in seleccionados {
        seleccionados := seleccionados + [top];
      }
    }
    assert seleccionados == Seleccionados(d, productos, pools.productos);
    var items, total := LineasDePedido(seleccionados, d.cantidades);
    pedido := Order(fecha, cliente.id, restaurante.id, items, estado, total);
  }

  /** The line-item loop of generar_pedidos: one item per selected product, the total accumulated alongside. */
  method LineasDePedido(seleccionados: seq<Stored<Product>>, cantidades: seq<int>)
    returns (items: seq<LineItem>, total: Cents)
    requires |cantidades| == |seleccionados|
    ensures items == LineItemsOf(seleccionados, cantidades)
    ensures total == Total(items)
  {
    items := [];
    total := 0;
    for i := 0 to |seleccionados|
      invariant items == LineItemsOf(seleccionados[..i], cantidades[..i])
      invariant total == Total(items)
    {
      var prod := seleccionados[i];
      var cantidad := cantidades[i];
      var item := LineItem(prod.id, cantidad, prod.doc.precio);
      assert items + [item] == LineItemsOf(seleccionados[..i + 1], cantidades[..i + 1]);
      items := items + [item];
      total := total + cantidad * prod.doc.precio;
    }
    assert seleccionados[..|seleccionados|] == seleccionados;
    assert cantidades[..|seleccionados|] == cantidades;
  }

  lemma TopPoolMembers(productos: seq<Stored<Product>>)
    ensures forall t :: t in TopPool(Boost(productos, 5)) ==> t in productos
  {
    BoostMembers(productos, 5);
    var pool := Boost(productos, 5);
    forall t | t in TopPool(pool) ensures t in productos {
      var i :| 0 <= i < |TopPool(pool)| && TopPool(pool)[i] == t;
      assert pool[i] == t;
    }
  }

  lemma SeleccionadosDistinct(d: OrderDraw, productos: seq<Stored<Product>>, pools: Pools)
    requires pools.productos == Boost(productos, 5)
    requires ValidOrderDraw(d, pools, productos) && DistinctIds(productos)
    ensures var sel := Seleccionados(d, productos, pools.productos);
      && DistinctIds(sel)
      && |d.muestra| <= |sel| <= |d.muestra| + 1
      && forall p :: p in sel ==> p in productos
  {
    var muestra := seq(|d.muestra|, i requires 0 <= i < |d.muestra| => productos[d.muestra[i]]);
    assert DistinctIds(muestra);
    if d.sesgo && TopPool(pools.productos) != [] {
      var t := TopPool(pools.productos)[d.top];
      TopPoolMembers(productos);
      assert t in productos;
      if t !in muestra {
        var a :| 0 <= a < |productos| && productos[a] == t;
        forall i | 0 <= i < |muestra| ensures muestra[i].id != t.id {
          assert muestra[i] in muestra;
          assert d.muestra[i] != a;
        }
        var sel := muestra + [t];
        assert forall i :: 0 <= i < |muestra| ==> sel[i] == muestra[i];
      }
    }
  }

  /**
   * An order's products are pairwise distinct; it has between one (when
   * there are products) and min(5, n) + 1 line items, each with a quantity
   * in 1..4 and its product's price; the total is their exact sum.
   */
  lemma PedidoLinesSpec(d: OrderDraw, pools: Pools, productos: seq<Stored<Product>>)
    requires pools.productos == Boost(productos, 5)
    requires pools.clientes != [] && pools.restaurantes != [] && ValidOrderDraw(d, pools, productos)
    requires DistinctIds(productos)
    ensures var o := PedidoOf(d, pools, productos);
      && (forall i, j :: 0 <= i < j < |o.productos| ==> o.productos[i].productoId != o.productos[j].productoId)
      && (|productos| > 0 ==> 1 <= |o.productos|)
      && |o.productos| <= Min(5, |productos|) + 1
      && (forall i :: 0 <= i < |o.productos| ==>
            && 1 <= o.productos[i].cantidad <= 4
            && exists p :: p in productos && p.id == o.productos[i].productoId && p.doc.precio == o.productos[i].precioUnitario)
      && o.total == Total(o.productos)
  {
    SeleccionadosDistinct(d, productos, pools);
    var sel := Seleccionados(d, productos, pools.productos);
    var o := PedidoOf(d, pools, productos);
    forall i | 0 <= i < |o.productos|
      ensures exists p :: p in productos && p.id == o.productos[i].productoId && p.doc.precio == o.productos[i].precioUnitario
    {
      assert sel[i] in sel;
    }
  }

  /**
   * An order of the generator has a state from ESTADOS, a date in the
   * generation window, a user of type "cliente" and a listed restaurant,
   * and line items as PedidoLinesSpec states.
   */
  lemma PedidoOfSpec(d: OrderDraw, usuarios: seq<Stored<User>>, restaurantes: seq<Stored<Restaurant>>,
                     productos: seq<Stored<Product>>)
    requires var pools := BuildWeightedLists(usuarios, restaurantes, productos);
      pools.clientes != [] && pools.restaurantes != [] && ValidOrderDraw(d, pools, productos)
    requires DistinctIds(productos)
    ensures var o := PedidoOf(d, BuildWeightedLists(usuarios, restaurantes, productos), productos);
      && o.estado in ESTADOS
      && FECHA_INICIO <= o.fechaPedido <= FECHA_FIN
      && (exists u :: u in usuarios && u.doc.tipoUsuario == "cliente" && u.id == o.idUsuario)
      && (exists r :: r in restaurantes && r.id == o.idRestaurante)
      && (forall i, j :: 0 <= i < j < |o.productos| ==> o.productos[i].productoId != o.productos[j].productoId)
      && o.total == Total(o.productos)
  {
    var pools := BuildWeightedLists(usuarios, restaurantes, productos);
    PedidoLinesSpec(d, pools, productos);
    var clientes := Filter(usuarios, IsCliente);
    BoostMembers(clientes, 4);
    BoostMembers(restaurantes, 3);
    assert pools.clientes == Boost(clientes, 4);
    assert pools.clientes[d.cliente] in pools.clientes;
    assert pools.clientes[d.cliente] in clientes;
    assert pools.restaurantes[d.restaurante] in pools.restaurantes;
  }

  // ---------------------------------------------------------------------
  // Batched inserts
  // ---------------------------------------------------------------------

  /** The documents of the batches, in the order they were sent. */
  function Flatten<T>(batches: seq<seq<T>>): seq<T> {
    if batches == [] then []
    else Flatten(batches[..|batches| - 1]) + batches[|batches| - 1]
  }

  lemma FlattenAppend<T>(batches: seq<seq<T>>, b: seq<T>)
    ensures Flatten(batches + [b]) == Flatten(batches) + b
  {
    assert (batches + [b])[..|batches|] == batches;
  }

  /** Every batch but the last holds exactly `size` documents; the last holds 1 to `size`. */
  ghost predicate IsBatching<T>(batches: seq<seq<T>>, size: nat) {
    && (forall i :: 0 <= i < |batches| - 1 ==> |batches[i]| == size)
    && (batches != [] ==> 0 < |batches[|batches| - 1]| <= size)
  }

  lemma {:induction false} FullBatchesLength<T>(batches: seq<seq<T>>, size: nat)
    requires forall i :: 0 <= i < |batches| ==> |batches[i]| == size
    ensures |Flatten(batches)| == |batches| * size
  {
    if batches != [] {
      var m := |batches|;
      FullBatchesLength(batches[..m - 1], size);
      assert batches == batches[..m - 1] + [batches[m - 1]];
      FlattenAppend(batches[..m - 1], batches[m - 1]);
      assert m * size == (m - 1) * size + size;
    }
  }

  /** A batching of `n` documents into batches of `size` has ceil(n / size) batches. */
  lemma BatchCount<T>(batches: seq<seq<T>>, size: nat)
    requires size > 0 && IsBatching(batches, size)
    ensures (|batches| - 1) * size < |Flatten(batches)| <= |batches| * size
  {
    if batches != [] {
      var m := |batches|;
      var init := batches[..m - 1];
      FullBatchesLength(init, size);
      assert batches == init + [batches[m - 1]];
      FlattenAppend(init, batches[m - 1]);
      var full := (m - 1) * size;
      assert |Flatten(batches)| == full + |batches[m - 1]|;
      assert m * size == full + size;
    }
  }

  ghost predicate FullBatches<T>(batches: seq<seq<T>>) {
    forall k :: 0 <= k < |batches| ==> |batches[k]| == BATCH_SIZE
  }

  /**
   * One document into the open batch; a batch that reaches BATCH_SIZE is
   * sent (`sent`) and a new one opened. Nothing is lost or reordered.
   */
  method Push<T>(batches: seq<seq<T>>, batch: seq<T>, doc: T)
    returns (batches': seq<seq<T>>, batch': seq<T>, sent: seq<T>)
    requires FullBatches(batches) && |batch| < BATCH_SIZE
    ensures FullBatches(batches') && |batch'| < BATCH_SIZE
    ensures Flatten(batches') + batch' == Flatten(batches) + batch + [doc]
    ensures (sent == [] && batches' == batches) || (|sent| == BATCH_SIZE && batches' == batches + [sent])
  {
    batch' := batch + [doc];
    batches' := batches;
    sent := [];
    if |batch'| >= BATCH_SIZE {
      FlattenAppend(batches, batch');
      sent := batch';
      batches' := batches + [batch'];
      batch' := [];
    }
  }

  /** After the loop: the remainder is sent only when it is not empty. */
  method Finish<T>(batches: seq<seq<T>>, batch: seq<T>) returns (batches': seq<seq<T>>)
    requires FullBatches(batches) && |batch| < BATCH_SIZE
    ensures IsBatching(batches', BATCH_SIZE)
    ensures Flatten(batches') == Flatten(batches) + batch
    ensures batch == [] ==> batches' == batches
    ensures batch != [] ==> batches' == batches + [batch]
  {
    batches' := batches;
    if batch != [] {
      FlattenAppend(batches, batch);
      batches' := batches + [batch];
    }
  }

  /** The ids the store hands back for a batch: one fresh id per document. */
  function InsertedIds(next: Id, n: nat): (ids: seq<Id>)
    ensures |ids| == n
    ensures forall i :: 0 <= i < n ==> ids[i] == next + i
  {
    seq(n, i requires 0 <= i < n => next + i)
  }

  datatype GenError = ChoiceFromEmptySequence

  /**
   * The loop of generar_pedidos: build NUM_PEDIDOS orders from non-empty
   * pools, send them in batches of BATCH_SIZE with the remainder last, and
   * collect the ids the store gives them.
   */
  method InsertarPedidos(pools: Pools, productos: seq<Stored<Product>>, draws: seq<OrderDraw>, firstId: Id)
    returns (ids: seq<Id>, batches: seq<seq<Order>>)
    requires pools.clientes != [] && pools.restaurantes != []
    requires |draws| == NUM_PEDIDOS
    requires forall i :: 0 <= i < |draws| ==> ValidOrderDraw(draws[i], pools, productos)
    ensures IsBatching(batches, BATCH_SIZE)
    ensures |Flatten(batches)| == NUM_PEDIDOS
    ensures forall i :: 0 <= i < NUM_PEDIDOS ==> Flatten(batches)[i] == PedidoOf(draws[i], pools, productos)
    ensures ids == InsertedIds(firstId, NUM_PEDIDOS)
  {
    var batch: seq<Order> := [];
    ids := [];
    batches := [];
    ghost var generated: seq<Order> := [];
    for i := 0 to NUM_PEDIDOS
      invariant |generated| == i
      invariant forall k :: 0 <= k < i ==> generated[k] == PedidoOf(draws[k], pools, productos)
      invariant Flatten(batches) + batch == generated
      invariant FullBatches(batches) && |batch| < BATCH_SIZE
      invariant ids == InsertedIds(firstId, |Flatten(batches)|)
    {
      var pedido := BuildPedido(draws[i], pools, productos);
      var sent;
      ghost var before := batches;
      batches, batch, sent := Push(batches, batch, pedido);
      generated := generated + [pedido];
      if sent != [] {
        FlattenAppend(before, sent);
        ids := ids + InsertedIds(firstId + |ids|, |sent|);
      }
    }
    batches := Finish(batches, batch);
    if batch != [] {
      ids := ids + InsertedIds(firstId + |ids|, |batch|);
    }
  }

  /**
   * generar_pedidos: the weighted pools, then NUM_PEDIDOS orders sent in
   * batches; returns the ids the store gave them. With no client or no
   * restaurant, the first random.choice fails before anything is sent.
   */
  method GenerarPedidos(usuarios: seq<Stored<User>>, restaurantes: seq<Stored<Restaurant>>,
                        productos: seq<Stored<Product>>, draws: seq<OrderDraw>, firstId: Id)
    returns (outcome: Result<seq<Id>, GenError>, batches: seq<seq<Order>>)
    requires |draws| == NUM_PEDIDOS
    requires forall i :: 0 <= i < |draws| ==>
      ValidOrderDraw(draws[i], BuildWeightedLists(usuarios, restaurantes, productos), productos)
    ensures var pools := BuildWeightedLists(usuarios, restaurantes, productos);
      outcome.Failure? <==> pools.clientes == [] || pools.restaurantes == []
    ensures outcome.Failure? ==> batches == []
    ensures outcome.Success? ==>
      var pools := BuildWeightedLists(usuarios, restaurantes, productos);
      && IsBatching(batches, BATCH_SIZE)
      && |Flatten(batches)| == NUM_PEDIDOS
      && (forall i :: 0 <= i < NUM_PEDIDOS ==> Flatten(batches)[i] == PedidoOf(draws[i], pools, productos))
      && outcome.value == InsertedIds(firstId, NUM_PEDIDOS)
  {
    var pools := BuildWeightedLists(usuarios, restaurantes, productos);
    if pools.clientes == [] || pools.restaurantes == [] {
      return Failure(ChoiceFromEmptySequence), [];
    }
    var ids;
    ids, batches := InsertarPedidos(pools, productos, draws, firstId);
    outcome := Success(ids);
  }

  /** 50000 orders in batches of 5000: ten full batches, so the remainder is never flushed. */
  lemma PedidoBatches(batches: seq<seq<Order>>)
    requires IsBatching(batches, BATCH_SIZE) && |Flatten(batches)| == NUM_PEDIDOS
    ensures |batches| == 10
    ensures forall i :: 0 <= i < |batches| ==> |batches[i]| == BATCH_SIZE
  {
    BatchCount(batches, BATCH_SIZE);
    FullBatchesLength(batches[..9], BATCH_SIZE);
    assert batches == batches[..9] + [batches[9]];
  }

  // ---------------------------------------------------------------------
  // generar_resenias
  // ---------------------------------------------------------------------

  /**
   * `find({"estado": "Recibido"}, projection)` on the orders collection, in
   * natural order. The projection keeps `_id`, `id_usuario`,
   * `id_restaurante` and `fecha_pedido`, the only fields a review reads.
   */
  function Recibidos(pedidos: Collection<Order>): seq<Stored<Order>> {
    Filter(Rows(pedidos), (o: Stored<Order>) => o.doc.estado == RECIBIDO)
  }

  /** The draws one review consumes. */
  datatype ReviewDraw = ReviewDraw(
    puntuacion: int,    // random.choices([5, 4, 3, 2, 1], ...)
    titulo: string,       // random.choice(TITULOS_*) for the score's tone
    descripcion: string,  // random.choice(DESCRIPCIONES_*)
    dias: int)          // random.randint(1, 30)

  function Titulos(puntuacion: int): seq<string> {
    if puntuacion >= 4 then TITULOS_POSITIVOS
    else if puntuacion == 3 then TITULOS_NEUTRALES
    else TITULOS_NEGATIVOS
  }

  function Descripciones(puntuacion: int): seq<string> {
    if puntuacion >= 4 then DESCRIPCIONES_POSITIVAS
    else if puntuacion == 3 then DESCRIPCIONES_NEUTRALES
    else DESCRIPCIONES_NEGATIVAS
  }

  ghost predicate ValidReviewDraw(d: ReviewDraw) {
    && 1 <= d.puntuacion <= 5
    && d.titulo in Titulos(d.puntuacion)
    && d.descripcion in Descripciones(d.puntuacion)
    && 1 <= d.dias <= 30
  }

  /** `fecha_pedido + timedelta(days=dias)`, capped at FECHA_FIN. */
  function FechaResenia(fechaPedido: Seconds, dias: int): (t: Seconds)
    requires 1 <= dias <= 30
    ensures t <= FECHA_FIN
    ensures t == FECHA_FIN || t == fechaPedido + dias * DIA
    ensures fechaPedido <= FECHA_FIN ==> fechaPedido <= t
    ensures fechaPedido + dias * DIA <= FECHA_FIN ==> t == fechaPedido + dias * DIA
  {
    var t := fechaPedido + dias * DIA;
    if t > FECHA_FIN then FECHA_FIN else t
  }

  function ReseniaOf(pedido: Stored<Order>, d: ReviewDraw): Review
    requires 1 <= d.dias <= 30
  {
    Review(d.titulo, d.descripcion, d.puntuacion,
           FechaResenia(pedido.doc.fechaPedido, d.dias), pedido.doc.idUsuario, pedido.doc.idRestaurante, pedido.id)
  }

  /**
   * A review's tone follows its score (4-5 positive, 3 neutral, 1-2
   * negative), its date is capped at FECHA_FIN, and it copies the
   * order's user, restaurant and id.
   */
  lemma ReseniaOfSpec(pedido: Stored<Order>, d: ReviewDraw)
    requires ValidReviewDraw(d)
    ensures var r := ReseniaOf(pedido, d);
      && 1 <= r.puntuacion <= 5
      && (r.puntuacion >= 4 ==> r.titulo in TITULOS_POSITIVOS && r.descripcion in DESCRIPCIONES_POSITIVAS)
      && (r.puntuacion == 3 ==> r.titulo in TITULOS_NEUTRALES && r.descripcion in DESCRIPCIONES_NEUTRALES)
      && (r.puntuacion <= 2 ==> r.titulo in TITULOS_NEGATIVOS && r.descripcion in DESCRIPCIONES_NEGATIVAS)
      && r.fecha <= FECHA_FIN
      && (pedido.doc.fechaPedido <= FECHA_FIN ==> pedido.doc.fechaPedido <= r.fecha)
      && r.idUsuario == pedido.doc.idUsuario
      && r.idRestaurante == pedido.doc.idRestaurante
      && r.idPedido == pedido.id
  {
  }

  /**
   * random.sample(pedidos_recibidos, min(NUM_RESENIAS, n)): distinct
   * positions among the received orders, one draw per sampled order. Only
   * the day offset's range matters to building a review; the tone of its
   * texts is ReseniaOfSpec's concern.
   */
  ghost predicate ValidReviewSample(pedidos: Collection<Order>, muestra: seq<nat>, draws: seq<ReviewDraw>) {
    && |muestra| == Min(NUM_RESENIAS, |Recibidos(pedidos)|)
    && DistinctIndices(muestra, |Recibidos(pedidos)|)
    && |draws| == |muestra|
    && (forall i :: 0 <= i < |draws| ==> 1 <= draws[i].dias <= 30)
  }

  /**
   * The loop of generar_resenias over the sampled orders: one review per
   * order, sent in batches of BATCH_SIZE with the remainder last.
   */
  method ReseniarPedidos(aReseniar: seq<Stored<Order>>, draws: seq<ReviewDraw>)
    returns (count: nat, batches: seq<seq<Review>>)
    requires |draws| == |aReseniar|
    requires forall i :: 0 <= i < |draws| ==> 1 <= draws[i].dias <= 30
    ensures count == |aReseniar|
    ensures IsBatching(batches, BATCH_SIZE)
    ensures |Flatten(batches)| == count
    ensures forall i :: 0 <= i < count ==> Flatten(batches)[i] == ReseniaOf(aReseniar[i], draws[i])
  {
    var batch: seq<Review> := [];
    batches := [];
    count := 0;
    ghost var generated: seq<Review> := [];
    for i := 0 to |aReseniar|
      invariant count == i == |generated|
      invariant forall k :: 0 <= k < i ==> generated[k] == ReseniaOf(aReseniar[k], draws[k])
      invariant Flatten(batches) + batch == generated
      invariant FullBatches(batches) && |batch| < BATCH_SIZE
    {
      var resenia := ReseniaOf(aReseniar[i], draws[i]);
      var sent;
      batches, batch, sent := Push(batches, batch, resenia);
      generated := generated + [resenia];
      count := count + 1;
    }
    batches := Finish(batches, batch);
  }

  /**
   * generar_resenias: the received orders, the sample of them, then one
   * review per sampled order; returns the count.
   */
  method GenerarResenias(pedidos: Collection<Order>, muestra: seq<nat>, draws: seq<ReviewDraw>)
    returns (count: nat, batches: seq<seq<Review>>)
    requires ValidReviewSample(pedidos, muestra, draws)
    ensures count == Min(NUM_RESENIAS, |Recibidos(pedidos)|)
    ensures IsBatching(batches, BATCH_SIZE)
    ensures |Flatten(batches)| == count
    ensures forall i :: 0 <= i < count ==> Flatten(batches)[i] == ReseniaOf(Recibidos(pedidos)[muestra[i]], draws[i])
  {
    var recibidos := Recibidos(pedidos);
    var aReseniar := seq(|muestra|, i requires 0 <= i < |muestra| => recibidos[muestra[i]]);
    count, batches := ReseniarPedidos(aReseniar, draws);
  }

  /**
   * The sampled reviews are for received orders of the collection, each
   * order at most once.
   */
  lemma SampledReviewsSpec(pedidos: Collection<Order>, muestra: seq<nat>, draws: seq<ReviewDraw>)
    requires pedidos.Valid() && ValidReviewSample(pedidos, muestra, draws)
    ensures var recibidos := Recibidos(pedidos);
      && (forall i :: 0 <= i < |muestra| ==>
            var r := ReseniaOf(recibidos[muestra[i]], draws[i]);
            r.idPedido in pedidos.docs && pedidos.docs[r.idPedido].estado == RECIBIDO
            && r.idUsuario == pedidos.docs[r.idPedido].idUsuario
            && r.idRestaurante == pedidos.docs[r.idPedido].idRestaurante)
      && (forall i, j :: 0 <= i < j < |muestra| ==>
            ReseniaOf(recibidos[muestra[i]], draws[i]).idPedido != ReseniaOf(recibidos[muestra[j]], draws[j]).idPedido)
  {
    RowsExact(pedidos);
    var recibidos := Recibidos(pedidos);
    FilterIdsIncreasing(Rows(pedidos), (o: Stored<Order>) => o.doc.estado == RECIBIDO);
    forall i | 0 <= i < |muestra|
      ensures recibidos[muestra[i]].id in pedidos.docs
      ensures pedidos.docs[recibidos[muestra[i]].id] == recibidos[muestra[i]].doc
      ensures recibidos[muestra[i]].doc.estado == RECIBIDO
    {
      assert recibidos[muestra[i]] in recibidos;
    }
    forall i, j | 0 <= i < j < |muestra|
      ensures recibidos[muestra[i]].id != recibidos[muestra[j]].id
    {
      if muestra[i] < muestra[j] {
        assert recibidos[muestra[i]].id < recibidos[muestra[j]].id;
      } else {
        assert recibidos[muestra[j]].id < recibidos[muestra[i]].id;
      }
    }
  }
}
