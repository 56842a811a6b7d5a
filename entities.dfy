/**
 * The documents of the five collections of the food-ordering store:
 * usuarios, restaurantes, productos, pedidos and resenias.
 * Identifiers are natural numbers standing for ObjectIds, dates are whole
 * seconds since the epoch, and money is counted in integer cents.
 */
module Entities {
  import opened Wrappers

  type Id = nat
  type Seconds = int
  type Cents = int

  /** A document together with the `_id` the store gave it. */
  datatype Stored<T> = Stored(id: Id, doc: T)

  datatype User = User(
    nombreUsuario: string,
    contrasenia: string,
    tipoUsuario: string,
    direccion: string)

  datatype Ubicacion = Ubicacion(codigoPostal: string, calle: string, zona: string, avenida: string)

  datatype Horarios = Horarios(entreSemana: string, finesDeSemana: string, asueto: string)

  /** Restaurants loaded from CSV carry no `esActivo`; those created by insertOne do. */
  datatype Restaurant = Restaurant(
    nombreRestaurante: string,
    ubicacion: Ubicacion,
    telefono: seq<string>,
    horarios: Horarios,
    esActivo: Option<bool>)

  datatype Product = Product(
    nombre: string,
    descripcion: string,
    tiempoPreparacion: int,
    ingredientes: Option<seq<string>>,
    imagen: Option<Id>,
    esActivo: bool,
    precio: Cents)

  datatype LineItem = LineItem(productoId: Id, cantidad: int, precioUnitario: Cents)

  datatype Order = Order(
    fechaPedido: Seconds,
    idUsuario: Id,
    idRestaurante: Id,
    productos: seq<LineItem>,
    estado: string,
    total: Cents)

  datatype Review = Review(
    titulo: string,
    descripcion: string,
    puntuacion: int,
    fecha: Seconds,
    idUsuario: Id,
    idRestaurante: Id,
    idPedido: Id)
}
