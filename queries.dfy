/**
 * The query catalog of the food-ordering store: every read as a pure
 * function of the collections, built from the stages in Pipeline, and the
 * pure meaning of every write (the Database class applies them in place).
 */
module Queries {
  import opened Wrappers
  import opened Entities
  import opened Pipeline

  /** ISODate("2025-06-01T00:00:00Z"), the lower bound of the admin listings. */
  const ADMIN_DESDE: Seconds := 1748736000
  /** ISODate("2025-12-31T23:59:59Z"), the upper bound of the admin listings. */
  const ADMIN_HASTA: Seconds := 1767225599
  /** The admin listings ask for one page of ten, starting at zero. */
  const ADMIN_SKIP: nat := 0
  const ADMIN_LIMIT: PageSize := 10
  /** The admin review listing keeps the five-star reviews. */
  const ADMIN_PUNTUACION := 5

  // ---------------------------------------------------------------------
  // Lookups by `_id`
  // ---------------------------------------------------------------------

  /** `find({_id: id})`: the document with that id, if there is one. */
  function FindById<T>(docs: map<Id, T>, id: Id): (r: Option<T>)
    ensures r.Some? <==> id in docs
    ensures r.Some? ==> r.value == docs[id]
  {
    if id in docs then Some(docs[id]) else None
  }

  datatype Schedule = Schedule(id: Id, nombreRestaurante: string, horarios: Horarios)

  /** getRestaurantSchedule: the name and opening hours of one restaurant. */
  function GetRestaurantSchedule(restaurantes: map<Id, Restaurant>, id: Id): (r: Option<Schedule>)
    ensures r.Some? <==> id in restaurantes
    ensures r.Some? ==>
      && r.value.id == id
      && r.value.nombreRestaurante == restaurantes[id].nombreRestaurante
      && r.value.horarios == restaurantes[id].horarios
  {
    match FindById(restaurantes, id)
    case None => None
    case Some(rest) => Some(Schedule(id, rest.nombreRestaurante, rest.horarios))
  }

  // ---------------------------------------------------------------------
  // Login: getUser
  // ---------------------------------------------------------------------

  datatype LoginRow = LoginRow(id: Id, nombreUsuario: string, contrasenia: string, tipoUsuario: string)

  function LoginOf(u: Stored<User>): LoginRow {
    LoginRow(u.id, u.doc.nombreUsuario, u.doc.contrasenia, u.doc.tipoUsuario)
  }

  function GetUser(usuarios: Collection<User>, nombreUsuario: string): seq<LoginRow> {
    var matched := Filter(Rows(usuarios), (u: Stored<User>) => u.doc.nombreUsuario == nombreUsuario);
    Project(matched, LoginOf)
  }

  /** getUser returns exactly the users with that name, projected to their credentials. */
  lemma GetUserSpec(usuarios: Collection<User>, nombreUsuario: string)
    requires usuarios.Valid()
    ensures forall row :: row in GetUser(usuarios, nombreUsuario) ==>
      row.id in usuarios.docs && row == LoginOf(Stored(row.id, usuarios.docs[row.id]))
      && row.nombreUsuario == nombreUsuario
    ensures forall id :: id in usuarios.docs && usuarios.docs[id].nombreUsuario == nombreUsuario ==>
      LoginOf(Stored(id, usuarios.docs[id])) in GetUser(usuarios, nombreUsuario)
  {
    RowsExact(usuarios);
  }

  // ---------------------------------------------------------------------
  // Paginated listings: getReviewsAdmin and getOrders
  // ---------------------------------------------------------------------

  /**
   * The page at `skip` of `s` sorted by `le`: ordered, at most `limit` rows,
   * all from `s`; and on the first page, a row of `s` that is missing was
   * crowded out by a full page of rows that all come before it.
   */
  lemma SortedPage<T(!new)>(s: seq<T>, le: (T, T) -> bool, skip: nat, limit: PageSize)
    requires TotalPreorder(le)
    ensures var r := Page(SortBy(s, le), skip, limit);
      && SortedBy(r, le)
      && |r| <= limit
      && (forall x :: x in r ==> x in s)
      && (skip == 0 ==> forall y :: y in s ==> y in r || (|r| == limit && forall x :: x in r ==> le(x, y)))
  {
    var sorted := SortBy(s, le);
    SortBySorted(s, le);
    var r := Page(sorted, skip, limit);
    forall x | x in r ensures x in s {
      var i :| 0 <= i < |r| && r[i] == x;
      assert sorted[skip + i] in multiset(sorted);
    }
    if skip == 0 {
      forall y | y in s
        ensures y in r || (|r| == limit && forall x :: x in r ==> le(x, y))
      {
        assert y in multiset(sorted);
        var k :| 0 <= k < |sorted| && sorted[k] == y;
        if k < |r| {
          assert r[k] == y;
        } else {
          forall x | x in r ensures le(x, y) {
            var i :| 0 <= i < |r| && r[i] == x;
          }
        }
      }
    }
  }

  datatype ReviewRow = ReviewRow(id: Id, titulo: string, descripcion: string, puntuacion: int, fecha: Seconds)

  function ReviewRowOf(r: Stored<Review>): ReviewRow {
    ReviewRow(r.id, r.doc.titulo, r.doc.descripcion, r.doc.puntuacion, r.doc.fecha)
  }

  predicate ReviewMatches(r: Review, puntuacion: int, desde: Seconds, hasta: Seconds) {
    r.puntuacion == puntuacion && desde <= r.fecha <= hasta
  }

  /** `sort({fecha: -1})`: newest first. */
  predicate ReviewNewerOrSame(a: ReviewRow, b: ReviewRow) {
    a.fecha >= b.fecha
  }

  /** getReviewsAdmin: reviews with a score and a date in [desde, hasta], newest first, one page. */
  function GetReviewsAdmin(resenias: Collection<Review>, puntuacion: int, desde: Seconds, hasta: Seconds,
                           skip: nat, limit: PageSize): seq<ReviewRow>
  {
    var matched := Filter(Rows(resenias), (r: Stored<Review>) => ReviewMatches(r.doc, puntuacion, desde, hasta));
    Page(SortBy(Project(matched, ReviewRowOf), ReviewNewerOrSame), skip, limit)
  }

  lemma GetReviewsAdminSpec(resenias: Collection<Review>, puntuacion: int, desde: Seconds, hasta: Seconds,
                            skip: nat, limit: PageSize)
    requires resenias.Valid()
    ensures var r := GetReviewsAdmin(resenias, puntuacion, desde, hasta, skip, limit);
      && |r| <= limit
      && (forall i, j :: 0 <= i < j < |r| ==> r[i].fecha >= r[j].fecha)
      && (forall x :: x in r ==>
            x.id in resenias.docs && x == ReviewRowOf(Stored(x.id, resenias.docs[x.id]))
            && x.puntuacion == puntuacion && desde <= x.fecha <= hasta)
      && (skip == 0 ==> forall id :: id in resenias.docs && ReviewMatches(resenias.docs[id], puntuacion, desde, hasta) ==>
            ReviewRowOf(Stored(id, resenias.docs[id])) in r
            || (|r| == limit && forall x :: x in r ==> x.fecha >= resenias.docs[id].fecha))
  {
    RowsExact(resenias);
    var matched := Filter(Rows(resenias), (r: Stored<Review>) => ReviewMatches(r.doc, puntuacion, desde, hasta));
    var projected := Project(matched, ReviewRowOf);
    SortedPage(projected, ReviewNewerOrSame, skip, limit);
    forall id | id in resenias.docs && ReviewMatches(resenias.docs[id], puntuacion, desde, hasta)
      ensures ReviewRowOf(Stored(id, resenias.docs[id])) in projected
    {
      assert Stored(id, resenias.docs[id]) in matched;
    }
  }

  /** The review listing exactly as the catalog issues it. */
  lemma GetReviewsAdminCatalog(resenias: Collection<Review>)
    requires resenias.Valid()
    ensures var r := GetReviewsAdmin(resenias, ADMIN_PUNTUACION, ADMIN_DESDE, ADMIN_HASTA, ADMIN_SKIP, ADMIN_LIMIT);
      && |r| <= 10
      && (forall i, j :: 0 <= i < j < |r| ==> r[i].fecha >= r[j].fecha)
      && (forall x :: x in r ==> x.puntuacion == 5 && 1748736000 <= x.fecha <= 1767225599)
  {
    GetReviewsAdminSpec(resenias, ADMIN_PUNTUACION, ADMIN_DESDE, ADMIN_HASTA, ADMIN_SKIP, ADMIN_LIMIT);
  }

  datatype OrderRow = OrderRow(
    id: Id,
    fechaPedido: Seconds,
    nombreUsuario: string,
    nombreRestaurante: string,
    total: Cents,
    estado: string)

  type OrderJoin = ((Stored<Order>, User), Restaurant)

  function OrderUser(o: Stored<Order>): Id { o.doc.idUsuario }
  function OrderRestaurant<U>(r: (Stored<Order>, U)): Id { r.0.doc.idRestaurante }

  function OrderRowOf(r: OrderJoin): OrderRow {
    OrderRow(r.0.0.id, r.0.0.doc.fechaPedido, r.0.1.nombreUsuario, r.1.nombreRestaurante, r.0.0.doc.total, r.0.0.doc.estado)
  }

  /** `sort({fecha_pedido: -1})`: newest first. */
  predicate OrderNewerOrSame(a: OrderRow, b: OrderRow) {
    a.fechaPedido >= b.fechaPedido
  }

  /** The rows getOrders sorts: orders dated in [desde, hasta] whose user and restaurant resolve, projected. */
  function OrderCandidates(pedidos: Collection<Order>, usuarios: map<Id, User>, restaurantes: map<Id, Restaurant>,
                           desde: Seconds, hasta: Seconds): seq<OrderRow>
  {
    var matched := Filter(Rows(pedidos), (o: Stored<Order>) => desde <= o.doc.fechaPedido <= hasta);
    var withUser := LookupUnwind(matched, OrderUser, usuarios);
    var withRest := LookupUnwind(withUser, OrderRestaurant, restaurantes);
    Project(withRest, OrderRowOf)
  }

  /** getOrders: the candidates, newest first, one page. */
  function GetOrders(pedidos: Collection<Order>, usuarios: map<Id, User>, restaurantes: map<Id, Restaurant>,
                     desde: Seconds, hasta: Seconds, skip: nat, limit: PageSize): seq<OrderRow>
  {
    Page(SortBy(OrderCandidates(pedidos, usuarios, restaurantes, desde, hasta), OrderNewerOrSame), skip, limit)
  }

  /** An order the listing may show: in range, both references resolve, projected from the stored fields. */
  ghost predicate ListedOrder(x: OrderRow, pedidos: map<Id, Order>, usuarios: map<Id, User>,
                              restaurantes: map<Id, Restaurant>, desde: Seconds, hasta: Seconds)
  {
    && x.id in pedidos
    && var o := pedidos[x.id];
    && desde <= o.fechaPedido <= hasta
    && o.idUsuario in usuarios && o.idRestaurante in restaurantes
    && x == OrderRowOf(((Stored(x.id, o), usuarios[o.idUsuario]), restaurantes[o.idRestaurante]))
  }

  lemma OrderCandidatesSound(pedidos: Collection<Order>, usuarios: map<Id, User>, restaurantes: map<Id, Restaurant>,
                             desde: Seconds, hasta: Seconds)
    requires pedidos.Valid()
    ensures forall x :: x in OrderCandidates(pedidos, usuarios, restaurantes, desde, hasta) ==>
      ListedOrder(x, pedidos.docs, usuarios, restaurantes, desde, hasta)
  {
    RowsExact(pedidos);
    var matched := Filter(Rows(pedidos), (o: Stored<Order>) => desde <= o.doc.fechaPedido <= hasta);
    var withUser := LookupUnwind(matched, OrderUser, usuarios);
    var withRest := LookupUnwind(withUser, OrderRestaurant, restaurantes);
    var projected := Project(withRest, OrderRowOf);
    forall x | x in projected ensures ListedOrder(x, pedidos.docs, usuarios, restaurantes, desde, hasta) {
      var i :| 0 <= i < |projected| && projected[i] == x;
      var j := withRest[i];
      assert j in withRest;
      assert j.0 in withUser;
      assert j.0.0 in matched;
      assert j.0.0 in Rows(pedidos);
    }
  }

  lemma OrderCandidatesComplete(pedidos: Collection<Order>, usuarios: map<Id, User>, restaurantes: map<Id, Restaurant>,
                                desde: Seconds, hasta: Seconds)
    requires pedidos.Valid()
    ensures forall x :: ListedOrder(x, pedidos.docs, usuarios, restaurantes, desde, hasta) ==>
      x in OrderCandidates(pedidos, usuarios, restaurantes, desde, hasta)
  {
    RowsExact(pedidos);
    var matched := Filter(Rows(pedidos), (o: Stored<Order>) => desde <= o.doc.fechaPedido <= hasta);
    var withUser := LookupUnwind(matched, OrderUser, usuarios);
    var withRest := LookupUnwind(withUser, OrderRestaurant, restaurantes);
    var projected := Project(withRest, OrderRowOf);
    forall x | ListedOrder(x, pedidos.docs, usuarios, restaurantes, desde, hasta) ensures x in projected {
      var o := pedidos.docs[x.id];
      var row := Stored(x.id, o);
      assert row in Rows(pedidos);
      assert row in matched;
      assert (row, usuarios[o.idUsuario]) in withUser;
      var j := ((row, usuarios[o.idUsuario]), restaurantes[o.idRestaurante]);
      assert j in withRest;
      var k :| 0 <= k < |withRest| && withRest[k] == j;
      assert projected[k] == x;
    }
  }

  /** The inner joins keep exactly the orders in range whose two references resolve. */
  lemma OrderCandidatesExact(pedidos: Collection<Order>, usuarios: map<Id, User>, restaurantes: map<Id, Restaurant>,
                             desde: Seconds, hasta: Seconds)
    requires pedidos.Valid()
    ensures forall x :: x in OrderCandidates(pedidos, usuarios, restaurantes, desde, hasta) <==>
      ListedOrder(x, pedidos.docs, usuarios, restaurantes, desde, hasta)
  {
    OrderCandidatesSound(pedidos, usuarios, restaurantes, desde, hasta);
    OrderCandidatesComplete(pedidos, usuarios, restaurantes, desde, hasta);
  }

  lemma GetOrdersSpec(pedidos: Collection<Order>, usuarios: map<Id, User>, restaurantes: map<Id, Restaurant>,
                      desde: Seconds, hasta: Seconds, skip: nat, limit: PageSize)
    requires pedidos.Valid()
    ensures var r := GetOrders(pedidos, usuarios, restaurantes, desde, hasta, skip, limit);
      && |r| <= limit
      && (forall i, j :: 0 <= i < j < |r| ==> r[i].fechaPedido >= r[j].fechaPedido)
      && (forall x :: x in r ==> ListedOrder(x, pedidos.docs, usuarios, restaurantes, desde, hasta))
      && (skip == 0 ==> forall x :: ListedOrder(x, pedidos.docs, usuarios, restaurantes, desde, hasta) ==>
            x in r || (|r| == limit && forall y :: y in r ==> y.fechaPedido >= x.fechaPedido))
  {
    OrderCandidatesExact(pedidos, usuarios, restaurantes, desde, hasta);
    SortedPage(OrderCandidates(pedidos, usuarios, restaurantes, desde, hasta), OrderNewerOrSame, skip, limit);
  }

  // ---------------------------------------------------------------------
  // Denormalised details: getReviewsAdminById and getOrdersById
  // ---------------------------------------------------------------------

  datatype ProductLine = ProductLine(nombre: string, cantidad: int, precioUnitario: Cents)

  /** The line items whose product resolves, in order, as the detail views show them. */
  function ResolvedLines(items: seq<LineItem>, productos: map<Id, Product>): (r: seq<ProductLine>)
    ensures |r| <= |items|
    ensures r == [] <==> forall k :: 0 <= k < |items| ==> items[k].productoId !in productos
  {
    if items == [] then []
    else
      var rest := ResolvedLines(items[1..], productos);
      assert forall k :: 1 <= k < |items| ==> items[k] == items[1..][k - 1];
      if items[0].productoId in productos then
        [ProductLine(productos[items[0].productoId].nombre, items[0].cantidad, items[0].precioUnitario)] + rest
      else rest
  }

  function ItemProduct<J>(r: (J, LineItem)): Id { r.1.productoId }

  function LineOf<J>(r: ((J, LineItem), Product)): ProductLine {
    ProductLine(r.1.nombre, r.0.1.cantidad, r.0.1.precioUnitario)
  }

  /**
   * Unwinding the line items of one joined row and looking up their
   * products keeps the resolved items, in order, all for that row.
   */
  lemma {:induction false} JoinedLines<J(!new)>(x: J, items: seq<LineItem>, productos: map<Id, Product>)
    ensures var rows := LookupUnwind(Spread(x, items), ItemProduct, productos);
      && Project(rows, LineOf) == ResolvedLines(items, productos)
      && forall p :: p in rows ==> p.0.0 == x
  {
    if items != [] {
      JoinedLines(x, items[1..], productos);
      assert Spread(x, items)[1..] == Spread(x, items[1..]);
      var rows := LookupUnwind(Spread(x, items), ItemProduct, productos);
      forall p | p in rows ensures p.0.0 == x {
        var i :| 0 <= i < |items| && Spread(x, items)[i] == p.0;
      }
    }
  }

  lemma UnwindOne<R(!new), E(!new)>(x: R, field: R -> seq<E>)
    ensures Unwind([x], field) == Spread(x, field(x))
  {
    assert [x][1..] == [];
  }

  datatype ReviewDetail = ReviewDetail(
    id: Id,
    titulo: string,
    descripcion: string,
    puntuacion: int,
    fecha: Seconds,
    nombreUsuario: string,
    nombreRestaurante: string,
    total: Cents,
    productos: seq<ProductLine>)

  type ReviewJoin = (((Stored<Review>, User), Restaurant), Order)

  function ReviewUser(r: Stored<Review>): Id { r.doc.idUsuario }
  function ReviewRestaurant<U>(r: (Stored<Review>, U)): Id { r.0.doc.idRestaurante }
  function ReviewOrder<U, V>(r: ((Stored<Review>, U), V)): Id { r.0.0.doc.idPedido }
  function ReviewItems(r: ReviewJoin): seq<LineItem> { r.1.productos }

  /** `$group` by `_id` with `$first` of the scalar fields and `$push` of the lines. */
  function GroupReview(rows: seq<((ReviewJoin, LineItem), Product)>): Option<ReviewDetail> {
    if rows == [] then None
    else
      var j := rows[0].0.0;
      var review := j.0.0.0;
      Some(ReviewDetail(review.id, review.doc.titulo, review.doc.descripcion, review.doc.puntuacion,
                        review.doc.fecha, j.0.0.1.nombreUsuario, j.0.1.nombreRestaurante, j.1.total,
                        Project(rows, LineOf)))
  }

  /** getReviewsAdminById: the review joined with its user, restaurant, order and products. */
  function GetReviewsAdminById(resenias: map<Id, Review>, usuarios: map<Id, User>, restaurantes: map<Id, Restaurant>,
                               pedidos: map<Id, Order>, productos: map<Id, Product>, id: Id): Option<ReviewDetail>
  {
    var matched := if id in resenias then [Stored(id, resenias[id])] else [];
    var withUser := LookupUnwind(matched, ReviewUser, usuarios);
    var withRest := LookupUnwind(withUser, ReviewRestaurant, restaurantes);
    var withOrder := LookupUnwind(withRest, ReviewOrder, pedidos);
    var items := Unwind(withOrder, ReviewItems);
    GroupReview(LookupUnwind(items, ItemProduct, productos))
  }

  /**
   * The review detail exists exactly when the review, its user, restaurant
   * and order all resolve and at least one line item's product does; it
   * then carries the stored order total and the resolved lines only.
   */
  lemma GetReviewsAdminByIdSpec(resenias: map<Id, Review>, usuarios: map<Id, User>, restaurantes: map<Id, Restaurant>,
                                pedidos: map<Id, Order>, productos: map<Id, Product>, id: Id)
    ensures var d := GetReviewsAdminById(resenias, usuarios, restaurantes, pedidos, productos, id);
      && (d.Some? <==>
            id in resenias
            && resenias[id].idUsuario in usuarios
            && resenias[id].idRestaurante in restaurantes
            && resenias[id].idPedido in pedidos
            && ResolvedLines(pedidos[resenias[id].idPedido].productos, productos) != [])
      && (d.Some? ==>
            var rev := resenias[id];
            var order := pedidos[rev.idPedido];
            && d.value == ReviewDetail(id, rev.titulo, rev.descripcion, rev.puntuacion, rev.fecha,
                                       usuarios[rev.idUsuario].nombreUsuario,
                                       restaurantes[rev.idRestaurante].nombreRestaurante,
                                       order.total, ResolvedLines(order.productos, productos))
            && |d.value.productos| <= |order.productos|)
  {
    if id in resenias {
      var rev := resenias[id];
      var x := Stored(id, rev);
      LookupOne(x, ReviewUser, usuarios);
      if rev.idUsuario in usuarios {
        var xu := (x, usuarios[rev.idUsuario]);
        LookupOne(xu, ReviewRestaurant, restaurantes);
        if rev.idRestaurante in restaurantes {
          var xr := (xu, restaurantes[rev.idRestaurante]);
          LookupOne(xr, ReviewOrder, pedidos);
          if rev.idPedido in pedidos {
            var j: ReviewJoin := (xr, pedidos[rev.idPedido]);
            UnwindOne(j, ReviewItems);
            JoinedLines(j, ReviewItems(j), productos);
          }
        }
      }
    }
  }

  datatype OrderDetail = OrderDetail(
    id: Id,
    fechaPedido: Seconds,
    nombreUsuario: string,
    nombreRestaurante: string,
    total: Cents,
    estado: string,
    productos: seq<ProductLine>)

  function OrderItems(r: OrderJoin): seq<LineItem> { r.0.0.doc.productos }

  /** `$group` by `_id` with `$first` of the scalar fields and `$push` of the lines. */
  function GroupOrder(rows: seq<((OrderJoin, LineItem), Product)>): Option<OrderDetail> {
    if rows == [] then None
    else
      var j := rows[0].0.0;
      var order := j.0.0;
      Some(OrderDetail(order.id, order.doc.fechaPedido, j.0.1.nombreUsuario, j.1.nombreRestaurante,
                       order.doc.total, order.doc.estado, Project(rows, LineOf)))
  }

  /** getOrdersById: the order joined with its user, restaurant and products. */
  function GetOrdersById(pedidos: map<Id, Order>, usuarios: map<Id, User>, restaurantes: map<Id, Restaurant>,
                         productos: map<Id, Product>, id: Id): Option<OrderDetail>
  {
    var matched := if id in pedidos then [Stored(id, pedidos[id])] else [];
    var withUser := LookupUnwind(matched, OrderUser, usuarios);
    var withRest := LookupUnwind(withUser, OrderRestaurant, restaurantes);
    var items := Unwind(withRest, OrderItems);
    GroupOrder(LookupUnwind(items, ItemProduct, productos))
  }

  /**
   * The order detail exists exactly when the order, its user and its
   * restaurant resolve and at least one line item's product does; its
   * total is the stored total, not a sum over the surviving lines.
   */
  lemma GetOrdersByIdSpec(pedidos: map<Id, Order>, usuarios: map<Id, User>, restaurantes: map<Id, Restaurant>,
                          productos: map<Id, Product>, id: Id)
    ensures var d := GetOrdersById(pedidos, usuarios, restaurantes, productos, id);
      && (d.Some? <==>
            id in pedidos
            && pedidos[id].idUsuario in usuarios
            && pedidos[id].idRestaurante in restaurantes
            && ResolvedLines(pedidos[id].productos, productos) != [])
      && (d.Some? ==>
            var order := pedidos[id];
            && d.value == OrderDetail(id, order.fechaPedido, usuarios[order.idUsuario].nombreUsuario,
                                      restaurantes[order.idRestaurante].nombreRestaurante,
                                      order.total, order.estado, ResolvedLines(order.productos, productos))
            && |d.value.productos| <= |order.productos|)
  {
    if id in pedidos {
      var order := pedidos[id];
      var x := Stored(id, order);
      LookupOne(x, OrderUser, usuarios);
      if order.idUsuario in usuarios {
        var xu := (x, usuarios[order.idUsuario]);
        LookupOne(xu, OrderRestaurant, restaurantes);
        if order.idRestaurante in restaurantes {
          var j: OrderJoin := (xu, restaurantes[order.idRestaurante]);
          UnwindOne(j, OrderItems);
          JoinedLines(j, OrderItems(j), productos);
        }
      }
    }
  }

  // ---------------------------------------------------------------------
  // Products and restaurants
  // ---------------------------------------------------------------------

  datatype ProductRow = ProductRow(id: Id, nombre: string, imagen: Option<Id>, precio: Cents)

  function ProductRowOf(p: Stored<Product>): ProductRow {
    ProductRow(p.id, p.doc.nombre, p.doc.imagen, p.doc.precio)
  }

  /** `sort({nombre: 1})`. */
  predicate ProductNameLe(a: ProductRow, b: ProductRow) {
    StrLe(a.nombre, b.nombre)
  }

  /** getProductsAdmin: every product, projected, sorted by name. */
  function GetProductsAdmin(productos: Collection<Product>): seq<ProductRow> {
    SortBy(Project(Rows(productos), ProductRowOf), ProductNameLe)
  }

  lemma ProductNameLeTotalPreorder()
    ensures TotalPreorder(ProductNameLe)
  {
    forall a, b ensures ProductNameLe(a, b) || ProductNameLe(b, a) {
      StrLeTotal(a.nombre, b.nombre);
    }
    forall a, b, c | ProductNameLe(a, b) && ProductNameLe(b, c) ensures ProductNameLe(a, c) {
      StrLeTransitive(a.nombre, b.nombre, c.nombre);
    }
  }

  lemma GetProductsAdminSpec(productos: Collection<Product>)
    requires productos.Valid()
    ensures var r := GetProductsAdmin(productos);
      && |r| == |productos.docs|
      && (forall i, j :: 0 <= i < j < |r| ==> StrLe(r[i].nombre, r[j].nombre))
      && (forall x :: x in r <==> x.id in productos.docs && x == ProductRowOf(Stored(x.id, productos.docs[x.id])))
  {
    var projected := Project(Rows(productos), ProductRowOf);
    ProjectRowsExact(productos, ProductRowOf, (x: ProductRow) => x.id);
    ProductNameLeTotalPreorder();
    SortBySorted(projected, ProductNameLe);
    SortByKeeps(projected, ProductNameLe);
  }

  datatype RestaurantRow = RestaurantRow(id: Id, nombreRestaurante: string, ubicacion: Ubicacion, telefono: seq<string>)

  function RestaurantRowOf(r: Stored<Restaurant>): RestaurantRow {
    RestaurantRow(r.id, r.doc.nombreRestaurante, r.doc.ubicacion, r.doc.telefono)
  }

  /** `sort({nombre_restaurante: 1})`. */
  predicate RestaurantNameLe(a: RestaurantRow, b: RestaurantRow) {
    StrLe(a.nombreRestaurante, b.nombreRestaurante)
  }

  /** getRestaurantsAdmin: every restaurant, projected, sorted by name. */
  function GetRestaurantsAdmin(restaurantes: Collection<Restaurant>): seq<RestaurantRow> {
    SortBy(Project(Rows(restaurantes), RestaurantRowOf), RestaurantNameLe)
  }

  lemma RestaurantNameLeTotalPreorder()
    ensures TotalPreorder(RestaurantNameLe)
  {
    forall a, b ensures RestaurantNameLe(a, b) || RestaurantNameLe(b, a) {
      StrLeTotal(a.nombreRestaurante, b.nombreRestaurante);
    }
    forall a, b, c | RestaurantNameLe(a, b) && RestaurantNameLe(b, c) ensures RestaurantNameLe(a, c) {
      StrLeTransitive(a.nombreRestaurante, b.nombreRestaurante, c.nombreRestaurante);
    }
  }

  lemma GetRestaurantsAdminSpec(restaurantes: Collection<Restaurant>)
    requires restaurantes.Valid()
    ensures var r := GetRestaurantsAdmin(restaurantes);
      && |r| == |restaurantes.docs|
      && (forall i, j :: 0 <= i < j < |r| ==> StrLe(r[i].nombreRestaurante, r[j].nombreRestaurante))
      && (forall x :: x in r <==> x.id in restaurantes.docs && x == RestaurantRowOf(Stored(x.id, restaurantes.docs[x.id])))
  {
    var projected := Project(Rows(restaurantes), RestaurantRowOf);
    ProjectRowsExact(restaurantes, RestaurantRowOf, (x: RestaurantRow) => x.id);
    RestaurantNameLeTotalPreorder();
    SortBySorted(projected, RestaurantNameLe);
    SortByKeeps(projected, RestaurantNameLe);
  }

  // ---------------------------------------------------------------------
  // getIngredients
  // ---------------------------------------------------------------------

  predicate HasIngredients(p: Stored<Product>) { p.doc.ingredientes.Some? }

  function IngredientList(p: Stored<Product>): seq<string> {
    if p.doc.ingredientes.Some? then p.doc.ingredientes.value else []
  }

  function Ingredient(r: (Stored<Product>, string)): string { r.1 }

  /** The stream of ingredient names after `$match` and `$unwind`, one per list element. */
  function IngredientStream(productos: Collection<Product>): seq<string> {
    Project(Unwind(Filter(Rows(productos), HasIngredients), IngredientList), Ingredient)
  }

  /**
   * getIngredients: `$match` on `ingredientes` existing, `$unwind`, then one
   * `$group` with `$addToSet`. A group over no rows emits no document.
   */
  function GetIngredients(productos: Collection<Product>): Option<seq<string>> {
    var names := IngredientStream(productos);
    if names == [] then None else Some(AddToSet(names))
  }

  /** Some product lists `x` among its ingredients. */
  ghost predicate ListedIngredient(productos: map<Id, Product>, x: string) {
    exists id :: id in productos && productos[id].ingredientes.Some? && x in productos[id].ingredientes.value
  }

  lemma IngredientStreamExact(productos: Collection<Product>)
    requires productos.Valid()
    ensures forall x :: x in IngredientStream(productos) <==> ListedIngredient(productos.docs, x)
  {
    RowsExact(productos);
    var withField := Filter(Rows(productos), HasIngredients);
    var unwound := Unwind(withField, IngredientList);
    var names := Project(unwound, Ingredient);
    forall x | x in names ensures ListedIngredient(productos.docs, x) {
      var i :| 0 <= i < |names| && names[i] == x;
      assert unwound[i] in unwound;
    }
    forall x | ListedIngredient(productos.docs, x) ensures x in names {
      var id :| id in productos.docs && productos.docs[id].ingredientes.Some? && x in productos.docs[id].ingredientes.value;
      var p := Stored(id, productos.docs[id]);
      assert p in withField;
      assert (p, x) in unwound;
      var k :| 0 <= k < |unwound| && unwound[k] == (p, x);
      assert names[k] == x;
    }
  }

  /** The distinct ingredients are exactly the union of every product's ingredient list, each once. */
  lemma GetIngredientsSpec(productos: Collection<Product>)
    requires productos.Valid()
    ensures var r := GetIngredients(productos);
      && (r.None? <==> forall x :: !ListedIngredient(productos.docs, x))
      && (r.Some? ==>
            && (forall x :: x in r.value <==> ListedIngredient(productos.docs, x))
            && (forall i, j :: 0 <= i < j < |r.value| ==> r.value[i] != r.value[j]))
  {
    IngredientStreamExact(productos);
    var names := IngredientStream(productos);
    if names != [] {
      assert names[0] in names;
    }
  }

  // ---------------------------------------------------------------------
  // Writes: insertOne, updateOne and updateMany
  // ---------------------------------------------------------------------

  /** insertOne: the document is stored under a fresh id. */
  function InsertOne<T>(c: Collection<T>, doc: T): (Collection<T>, Id) {
    (Collection(c.docs[c.next := doc], c.next + 1), c.next)
  }

  /** The collection grows by exactly the new document; nothing stored before changes. */
  lemma InsertOneSpec<T>(c: Collection<T>, doc: T)
    requires c.Valid()
    ensures var (c', id) := InsertOne(c, doc);
      && c'.Valid()
      && id !in c.docs
      && c'.docs.Keys == c.docs.Keys + {id}
      && |c'.docs| == |c.docs| + 1
      && c'.docs[id] == doc
      && (forall k :: k in c.docs ==> c'.docs[k] == c.docs[k])
  {
  }

  /** updateOne on `_id`: `_id` is unique, so at most the one document is touched. */
  function UpdateById<T>(docs: map<Id, T>, id: Id, update: T -> T): (r: map<Id, T>)
    ensures r.Keys == docs.Keys
    ensures forall k :: k in docs && k != id ==> r[k] == docs[k]
    ensures id in docs ==> r[id] == update(docs[id])
  {
    if id in docs then docs[id := update(docs[id])] else docs
  }

  /** updateMany on `_id: {$in: ids}`: every listed id present gets the update; unknown ids match nothing. */
  function UpdateWhereIdIn<T>(docs: map<Id, T>, ids: seq<Id>, update: T -> T): (r: map<Id, T>)
    ensures r.Keys == docs.Keys
    ensures forall k :: k in docs && k !in ids ==> r[k] == docs[k]
    ensures forall k :: k in docs && k in ids ==> r[k] == update(docs[k])
  {
    map k | k in docs :: if k in ids then update(docs[k]) else docs[k]
  }

  /** updateOrderStatus: `$set: {estado}` on one order. */
  function UpdateOrderStatus(pedidos: map<Id, Order>, id: Id, estado: string): map<Id, Order> {
    UpdateById(pedidos, id, (o: Order) => o.(estado := estado))
  }

  /** Only `estado` of the matched order changes; a missing id changes nothing; applying it twice is applying it once. */
  lemma UpdateOrderStatusSpec(pedidos: map<Id, Order>, id: Id, estado: string)
    ensures var r := UpdateOrderStatus(pedidos, id, estado);
      && r.Keys == pedidos.Keys
      && (forall k :: k in pedidos && k != id ==> r[k] == pedidos[k])
      && (id in pedidos ==>
            && r[id].estado == estado
            && r[id].fechaPedido == pedidos[id].fechaPedido
            && r[id].idUsuario == pedidos[id].idUsuario
            && r[id].idRestaurante == pedidos[id].idRestaurante
            && r[id].productos == pedidos[id].productos
            && r[id].total == pedidos[id].total)
      && (id !in pedidos ==> r == pedidos)
      && UpdateOrderStatus(r, id, estado) == r
  {
  }

  /** updateProduct: `$set` of nombre, descripcion, tiempo_preparacion and precio on one product. */
  function UpdateProduct(productos: map<Id, Product>, id: Id, nombre: string, descripcion: string,
                         tiempoPreparacion: int, precio: Cents): map<Id, Product>
  {
    UpdateById(productos, id, (p: Product) => p.(nombre := nombre, descripcion := descripcion,
                                                tiempoPreparacion := tiempoPreparacion, precio := precio))
  }

  lemma UpdateProductSpec(productos: map<Id, Product>, id: Id, nombre: string, descripcion: string,
                          tiempoPreparacion: int, precio: Cents)
    ensures var r := UpdateProduct(productos, id, nombre, descripcion, tiempoPreparacion, precio);
      && r.Keys == productos.Keys
      && (forall k :: k in productos && k != id ==> r[k] == productos[k])
      && (id in productos ==>
            && r[id].nombre == nombre && r[id].descripcion == descripcion
            && r[id].tiempoPreparacion == tiempoPreparacion && r[id].precio == precio
            && r[id].ingredientes == productos[id].ingredientes
            && r[id].imagen == productos[id].imagen
            && r[id].esActivo == productos[id].esActivo)
      && UpdateProduct(r, id, nombre, descripcion, tiempoPreparacion, precio) == r
  {
  }

  /** updateProductsState: `$set: {esActivo: false}` on every product whose id is listed. */
  function UpdateProductsState(productos: map<Id, Product>, ids: seq<Id>): map<Id, Product> {
    UpdateWhereIdIn(productos, ids, (p: Product) => p.(esActivo := false))
  }

  lemma UpdateProductsStateSpec(productos: map<Id, Product>, ids: seq<Id>)
    ensures var r := UpdateProductsState(productos, ids);
      && r.Keys == productos.Keys
      && (forall k :: k in productos && k in ids ==> !r[k].esActivo && r[k] == productos[k].(esActivo := false))
      && (forall k :: k in productos && k !in ids ==> r[k] == productos[k])
      && UpdateProductsState(r, ids) == r
  {
  }

  /**
   * updateRestaurant: `$set` of the name and of the dotted paths
   * `ubicacion.calle`, `ubicacion.zona` and `horarios_de_atencion.entre_semana`,
   * which replace those leaves only.
   */
  function UpdateRestaurant(restaurantes: map<Id, Restaurant>, id: Id, nombre: string, calle: string,
                            zona: string, entreSemana: string): map<Id, Restaurant>
  {
    UpdateById(restaurantes, id, (r: Restaurant) =>
      r.(nombreRestaurante := nombre,
         ubicacion := r.ubicacion.(calle := calle, zona := zona),
         horarios := r.horarios.(entreSemana := entreSemana)))
  }

  lemma UpdateRestaurantSpec(restaurantes: map<Id, Restaurant>, id: Id, nombre: string, calle: string,
                             zona: string, entreSemana: string)
    ensures var r := UpdateRestaurant(restaurantes, id, nombre, calle, zona, entreSemana);
      && r.Keys == restaurantes.Keys
      && (forall k :: k in restaurantes && k != id ==> r[k] == restaurantes[k])
      && (id in restaurantes ==>
            var old_ := restaurantes[id];
            && r[id].nombreRestaurante == nombre
            && r[id].ubicacion == Ubicacion(old_.ubicacion.codigoPostal, calle, zona, old_.ubicacion.avenida)
            && r[id].horarios == Horarios(entreSemana, old_.horarios.finesDeSemana, old_.horarios.asueto)
            && r[id].telefono == old_.telefono
            && r[id].esActivo == old_.esActivo)
      && UpdateRestaurant(r, id, nombre, calle, zona, entreSemana) == r
  {
  }

  // ---------------------------------------------------------------------
  // The request bodies of the catalog's writes
  // ---------------------------------------------------------------------

  /** The document of createProduct (price in cents). */
  const NEW_PRODUCT := Product("Pastel Blando", "Pastel Simple solo para prueba.", 30,
                               Some(["harina", "azúcar", "huevos"]), None, true, 12000)

  /** The document of createRestaurant. */
  const NEW_RESTAURANT := Restaurant(
    "Dulce Tentación Nueva Sede",
    Ubicacion("01015", "10 Calle", "15", "2a Avenida"),
    ["2345-6789"],
    Horarios("8:00 - 20:00", "9:00 - 21:00", "10:00 - 17:00"),
    Some(true))

  /**
   * createProduct followed by the reads: the new product is found by its
   * id, is listed once more by getProductsAdmin, and its ingredients show up
   * in getIngredients.
   */
  lemma CreateProductVisible(productos: Collection<Product>)
    requires productos.Valid()
    ensures var (c, id) := InsertOne(productos, NEW_PRODUCT);
      && FindById(c.docs, id) == Some(NEW_PRODUCT)
      && ProductRow(id, "Pastel Blando", None, 12000) in GetProductsAdmin(c)
      && |GetProductsAdmin(c)| == |GetProductsAdmin(productos)| + 1
      && GetIngredients(c).Some?
      && "harina" in GetIngredients(c).value
  {
    InsertOneSpec(productos, NEW_PRODUCT);
    var (c, id) := InsertOne(productos, NEW_PRODUCT);
    GetProductsAdminSpec(productos);
    GetProductsAdminSpec(c);
    assert ProductRowOf(Stored(id, c.docs[id])) == ProductRow(id, "Pastel Blando", None, 12000);
    GetIngredientsSpec(c);
    assert ListedIngredient(c.docs, "harina") by {
      assert "harina" in c.docs[id].ingredientes.value;
    }
  }

  /**
   * createRestaurant followed by the reads: the new restaurant's schedule is
   * found by its id and getRestaurantsAdmin lists it once more.
   */
  lemma CreateRestaurantVisible(restaurantes: Collection<Restaurant>)
    requires restaurantes.Valid()
    ensures var (c, id) := InsertOne(restaurantes, NEW_RESTAURANT);
      && GetRestaurantSchedule(c.docs, id)
         == Some(Schedule(id, "Dulce Tentación Nueva Sede",
                          Horarios("8:00 - 20:00", "9:00 - 21:00", "10:00 - 17:00")))
      && RestaurantRowOf(Stored(id, NEW_RESTAURANT)) in GetRestaurantsAdmin(c)
      && |GetRestaurantsAdmin(c)| == |GetRestaurantsAdmin(restaurantes)| + 1
  {
    InsertOneSpec(restaurantes, NEW_RESTAURANT);
    var (c, id) := InsertOne(restaurantes, NEW_RESTAURANT);
    GetRestaurantsAdminSpec(restaurantes);
    GetRestaurantsAdminSpec(c);
  }
}
