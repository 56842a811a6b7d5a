/**
 * The store as the write queries see it: five collections that insertOne,
 * updateOne and updateMany change in place. Each method is proved against
 * the pure meaning of its query in Queries.
 */
module Store {
  import opened Entities
  import opened Pipeline
  import opened Queries

  class Database {
    var usuarios: Collection<User>
    var restaurantes: Collection<Restaurant>
    var productos: Collection<Product>
    var pedidos: Collection<Order>
    var resenias: Collection<Review>

    ghost predicate Valid()
      reads this
    {
      usuarios.Valid() && restaurantes.Valid() && productos.Valid() && pedidos.Valid() && resenias.Valid()
    }

    constructor ()
      ensures Valid()
      ensures usuarios.docs == map[] && restaurantes.docs == map[] && productos.docs == map[]
      ensures pedidos.docs == map[] && resenias.docs == map[]
    {
      usuarios := Collection(map[], 0);
      restaurantes := Collection(map[], 0);
      productos := Collection(map[], 0);
      pedidos := Collection(map[], 0);
      resenias := Collection(map[], 0);
    }

    /** createProduct: `db.productos.insertOne(doc)`. */
    method CreateProduct(doc: Product) returns (id: Id)
      requires Valid()
      modifies this
      ensures Valid()
      ensures (productos, id) == InsertOne(old(productos), doc)
      ensures id !in old(productos.docs) && productos.docs == old(productos.docs)[id := doc]
      ensures usuarios == old(usuarios) && restaurantes == old(restaurantes)
      ensures pedidos == old(pedidos) && resenias == old(resenias)
    {
      id := productos.next;
      productos := Collection(productos.docs[id := doc], id + 1);
    }

    /** createRestaurant: `db.restaurantes.insertOne(doc)`. */
    method CreateRestaurant(doc: Restaurant) returns (id: Id)
      requires Valid()
      modifies this
      ensures Valid()
      ensures (restaurantes, id) == InsertOne(old(restaurantes), doc)
      ensures id !in old(restaurantes.docs) && restaurantes.docs == old(restaurantes.docs)[id := doc]
      ensures usuarios == old(usuarios) && productos == old(productos)
      ensures pedidos == old(pedidos) && resenias == old(resenias)
    {
      id := restaurantes.next;
      restaurantes := Collection(restaurantes.docs[id := doc], id + 1);
    }

    /** updateOrderStatus: `updateOne({_id}, {$set: {estado}})`; returns the matched count. */
    method UpdateOrderStatus(id: Id, estado: string) returns (matched: nat)
      requires Valid()
      modifies this
      ensures Valid()
      ensures matched == if id in old(pedidos.docs) then 1 else 0
      ensures pedidos.docs == Queries.UpdateOrderStatus(old(pedidos.docs), id, estado)
      ensures pedidos.next == old(pedidos.next)
      ensures usuarios == old(usuarios) && restaurantes == old(restaurantes)
      ensures productos == old(productos) && resenias == old(resenias)
    {
      if id in pedidos.docs {
        var o := pedidos.docs[id];
        pedidos := pedidos.(docs := pedidos.docs[id := o.(estado := estado)]);
        matched := 1;
      } else {
        matched := 0;
      }
    }

    /** updateProduct: `updateOne({_id}, {$set: {nombre, descripcion, tiempo_preparacion, precio}})`. */
    method UpdateProduct(id: Id, nombre: string, descripcion: string, tiempoPreparacion: int, precio: Cents)
      returns (matched: nat)
      requires Valid()
      modifies this
      ensures Valid()
      ensures matched == if id in old(productos.docs) then 1 else 0
      ensures productos.docs == Queries.UpdateProduct(old(productos.docs), id, nombre, descripcion, tiempoPreparacion, precio)
      ensures productos.next == old(productos.next)
      ensures usuarios == old(usuarios) && restaurantes == old(restaurantes)
      ensures pedidos == old(pedidos) && resenias == old(resenias)
    {
      if id in productos.docs {
        var p := productos.docs[id];
        var p' := p.(nombre := nombre, descripcion := descripcion, tiempoPreparacion := tiempoPreparacion, precio := precio);
        productos := productos.(docs := productos.docs[id := p']);
        matched := 1;
      } else {
        matched := 0;
      }
    }

    /** updateProductsState: `updateMany({_id: {$in: ids}}, {$set: {esActivo: false}})`. */
    method UpdateProductsState(ids: seq<Id>) returns (matched: nat)
      requires Valid()
      modifies this
      ensures Valid()
      ensures matched == |set k | k in ids && k in old(productos.docs)|
      ensures productos.docs == Queries.UpdateProductsState(old(productos.docs), ids)
      ensures productos.next == old(productos.next)
      ensures usuarios == old(usuarios) && restaurantes == old(restaurantes)
      ensures pedidos == old(pedidos) && resenias == old(resenias)
    {
      matched := |set k | k in ids && k in productos.docs|;
      var docs := productos.docs;
      productos := productos.(docs := map k | k in docs :: if k in ids then docs[k].(esActivo := false) else docs[k]);
    }

    /** updateRestaurant: `updateOne({_id}, {$set: {nombre_restaurante, "ubicacion.calle", ...}})`. */
    method UpdateRestaurant(id: Id, nombre: string, calle: string, zona: string, entreSemana: string)
      returns (matched: nat)
      requires Valid()
      modifies this
      ensures Valid()
      ensures matched == if id in old(restaurantes.docs) then 1 else 0
      ensures restaurantes.docs == Queries.UpdateRestaurant(old(restaurantes.docs), id, nombre, calle, zona, entreSemana)
      ensures restaurantes.next == old(restaurantes.next)
      ensures usuarios == old(usuarios) && productos == old(productos)
      ensures pedidos == old(pedidos) && resenias == old(resenias)
    {
      if id in restaurantes.docs {
        var r := restaurantes.docs[id];
        var r' := r.(nombreRestaurante := nombre,
                     ubicacion := r.ubicacion.(calle := calle, zona := zona),
                     horarios := r.horarios.(entreSemana := entreSemana));
        restaurantes := restaurantes.(docs := restaurantes.docs[id := r']);
        matched := 1;
      } else {
        matched := 0;
      }
    }
  }
}
