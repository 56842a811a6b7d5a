/**
 * The initial load: each CSV row becomes the document the loader inserts.
 * A row maps column names to cells as the CSV reader typed them; a
 * document is the dictionary the loader builds, so that its keys can be
 * stated. Reading the files and uploading images are outside the model:
 * the ids the image store would hand out are given as a map.
 */
module Seed {
  import opened Wrappers

  const SEPARADOR: char := '|'

  /** A CSV cell: text, a number (in hundredths, so 1 and 1.0 are both Num(100)), a boolean, or an empty cell (NaN). */
  datatype Cell = Str(s: string) | Num(hundredths: int) | Bool(b: bool) | NaN

  type Row = map<string, Cell>

  /** What `float()` gives: a finite value in hundredths, or nan (from an empty cell). */
  datatype Float = Finite(hundredths: int) | NotANumber

  /** The values a loader document holds. */
  datatype Value =
    | Scalar(cell: Cell)               // a cell copied verbatim
    | IntV(i: int)                     // int(...)
    | FloatV(f: Float)                 // float(...)
    | BoolV(b: bool)
    | StrList(items: seq<string>)      // str.split(...)
    | Dict(fields: map<string, Value>)
    | FileRef(id: nat)                 // a GridFS file id
    | Null

  /** The exception a row raises. */
  datatype ParseError =
    | KeyError(column: string)         // the row has no such column
    | AttributeError(column: string)   // `.split` on a cell that is not text
    | ValueError(column: string)       // int()/float() of a cell they reject

  // ---------------------------------------------------------------------
  // str.split("|") and "|".join
  // ---------------------------------------------------------------------

  /** `s.split("|")`: the pieces between separators, empty pieces kept. */
  function Split(s: string): (parts: seq<string>)
    ensures |parts| >= 1
  {
    if s == [] then [""]
    else
      var rest := Split(s[1..]);
      if s[0] == SEPARADOR then [""] + rest
      else [[s[0]] + rest[0]] + rest[1..]
  }

  /** `"|".join(parts)`. */
  function Join(parts: seq<string>): string {
    if parts == [] then ""
    else if |parts| == 1 then parts[0]
    else parts[0] + [SEPARADOR] + Join(parts[1..])
  }

  function Occurrences(s: string, c: char): nat {
    if s == [] then 0 else (if s[0] == c then 1 else 0) + Occurrences(s[1..], c)
  }

  /** Split yields one more piece than there are separators, and no piece holds one. */
  lemma {:induction false} SplitSpec(s: string)
    ensures |Split(s)| == Occurrences(s, SEPARADOR) + 1
    ensures forall i :: 0 <= i < |Split(s)| ==> SEPARADOR !in Split(s)[i]
  {
    if s != [] {
      SplitSpec(s[1..]);
      var rest := Split(s[1..]);
      if s[0] != SEPARADOR {
        var parts := Split(s);
        assert parts[0] == [s[0]] + rest[0];
        assert forall i :: 1 <= i < |parts| ==> parts[i] == rest[i];
      }
    }
  }

  /** Joining the pieces with the separator restores the text. */
  lemma {:induction false} JoinSplit(s: string)
    ensures Join(Split(s)) == s
  {
    if s != [] {
      JoinSplit(s[1..]);
      var rest := Split(s[1..]);
      if s[0] == SEPARADOR {
        assert Split(s) == [""] + rest;
        assert s == [s[0]] + s[1..];
      } else {
        var parts := [[s[0]] + rest[0]] + rest[1..];
        assert Split(s) == parts;
        if |rest| == 1 {
          assert s == [s[0]] + s[1..];
        } else {
          assert parts[1..] == rest[1..];
          assert Join(rest) == rest[0] + [SEPARADOR] + Join(rest[1..]);
          assert s == [s[0]] + s[1..];
        }
      }
    }
  }

  /** Pieces free of the separator come back unchanged from a join then a split. */
  lemma {:induction false} SplitJoin(parts: seq<string>)
    requires |parts| >= 1
    requires forall i :: 0 <= i < |parts| ==> SEPARADOR !in parts[i]
    ensures Split(Join(parts)) == parts
  {
    if |parts| == 1 {
      SplitPiece(parts[0]);
    } else {
      assert forall i :: 0 <= i < |parts[1..]| ==> parts[1..][i] == parts[i + 1];
      SplitJoin(parts[1..]);
      var tail := [SEPARADOR] + Join(parts[1..]);
      SplitPrefix(parts[0], tail);
      assert tail[1..] == Join(parts[1..]);
      assert Split(tail) == [""] + parts[1..];
      assert Join(parts) == parts[0] + tail;
      assert parts[0] + Split(tail)[0] == parts[0];
      assert Split(tail)[1..] == parts[1..];
      assert parts == [parts[0]] + parts[1..];
    }
  }

  /** A piece without the separator splits into itself. */
  lemma {:induction false} SplitPiece(p: string)
    requires SEPARADOR !in p
    ensures Split(p) == [p]
  {
    if p != [] {
      assert SEPARADOR !in p[1..] by {
        forall k | 0 <= k < |p[1..]| ensures p[1..][k] != SEPARADOR {
          assert p[1..][k] == p[k + 1];
        }
      }
      SplitPiece(p[1..]);
      assert [p[0]] + p[1..] == p;
    }
  }

  /** A separator-free prefix glues onto the first piece of what follows. */
  lemma {:induction false} SplitPrefix(p: string, t: string)
    requires SEPARADOR !in p
    ensures Split(p + t) == [p + Split(t)[0]] + Split(t)[1..]
  {
    if p != [] {
      assert SEPARADOR !in p[1..] by {
        forall k | 0 <= k < |p[1..]| ensures p[1..][k] != SEPARADOR {
          assert p[1..][k] == p[k + 1];
        }
      }
      SplitPrefix(p[1..], t);
      assert (p + t)[1..] == p[1..] + t;
      assert (p + t)[0] == p[0];
      assert [p[0]] + (p[1..] + Split(t)[0]) == p + Split(t)[0];
    } else {
      assert p + t == t;
      assert p + Split(t)[0] == Split(t)[0];
      assert Split(t) == [Split(t)[0]] + Split(t)[1..];
    }
  }

  // ---------------------------------------------------------------------
  // Cell access and conversions
  // ---------------------------------------------------------------------

  /** `row[column]`. */
  function Get(row: Row, column: string): (r: Result<Cell, ParseError>)
    ensures r.Success? <==> column in row
    ensures r.Success? ==> r.value == row[column]
    ensures r.Failure? ==> r.error == KeyError(column)
  {
    if column in row then Success(row[column]) else Failure(KeyError(column))
  }

  /** `row[column].split("|")`: only text has a `split` method. */
  function SplitCell(row: Row, column: string): (r: Result<seq<string>, ParseError>)
    ensures r.Success? <==> column in row && row[column].Str?
    ensures r.Success? ==> r.value == Split(row[column].s)
    ensures r.Failure? ==> r.error == (if column in row then AttributeError(column) else KeyError(column))
  {
    var cell :- Get(row, column);
    if cell.Str? then Success(Split(cell.s)) else Failure(AttributeError(column))
  }

  /** Truncation toward zero, as Python's int() of a float. */
  function TruncHundredths(h: int): int {
    if h >= 0 then h / 100 else -((-h) / 100)
  }

  /** `int(row[column])`. */
  function IntCell(row: Row, column: string): (r: Result<int, ParseError>)
    ensures r.Success? <==> column in row && (row[column].Num? || row[column].Bool?)
    ensures r.Success? && row[column].Num? && row[column].hundredths >= 0 ==>
      r.value * 100 <= row[column].hundredths < r.value * 100 + 100
    ensures r.Success? && row[column].Num? && row[column].hundredths < 0 ==>
      r.value * 100 - 100 < row[column].hundredths <= r.value * 100
    ensures r.Success? && row[column].Bool? ==> r.value == (if row[column].b then 1 else 0)
  {
    var cell :- Get(row, column);
    match cell
    case Num(h) => Success(TruncHundredths(h))
    case Bool(b) => Success(if b then 1 else 0)
    case _ => Failure(ValueError(column))
  }

  /** `float(row[column])`: numbers and booleans convert, an empty cell is already nan. */
  function FloatCell(row: Row, column: string): (r: Result<Float, ParseError>)
    ensures r.Success? <==> column in row && (row[column].Num? || row[column].Bool? || row[column].NaN?)
    ensures r.Success? && row[column].Num? ==> r.value == Finite(row[column].hundredths)
    ensures r.Success? && row[column].Bool? ==> r.value == Finite(if row[column].b then 100 else 0)
    ensures r.Success? && row[column].NaN? ==> r.value == NotANumber
    ensures r.Failure? ==> r.error == (if column in row then ValueError(column) else KeyError(column))
  {
    var cell :- Get(row, column);
    match cell
    case Num(h) => Success(Finite(h))
    case Bool(b) => Success(Finite(if b then 100 else 0))
    case NaN => Success(NotANumber)
    case Str(_) => Failure(ValueError(column))
  }

  /** `cell == True or cell == "true"`; in Python 1 and 1.0 equal True. */
  predicate EsActivo(c: Cell) {
    c == Bool(true) || c == Num(100) || c == Str("true")
  }

  /** Only the exact text "true" counts among text cells; "True" and "false" do not. */
  lemma EsActivoSpec(c: Cell)
    ensures c.Str? ==> (EsActivo(c) <==> c.s == "true")
    ensures c.Bool? ==> (EsActivo(c) <==> c.b)
    ensures c.Num? ==> (EsActivo(c) <==> c.hundredths == 100)
    ensures !EsActivo(NaN) && !EsActivo(Str("True")) && !EsActivo(Str("false"))
  {
  }

  // ---------------------------------------------------------------------
  // upload_image
  // ---------------------------------------------------------------------

  const IMAGEN_MAP: map<string, string> := map[
    "Pastel de Chocolate" := "pastel_de_chocolate.jpg",
    "Cheesecake de Fresas" := "cheesecake_de_fresa.jpg",
    "Tres Leches Tradicional" := "tres_leches.jpg",
    "Pie de Limón" := "pie_de_limon.jpg",
    "Tiramisú" := "tiramisu.jpg",
    "Rollos de Canela" := "rollos_de_canela.jpg",
    "Brownies con Nuez" := "brownies_con_nuez.jpg",
    "Alfajores de Maicena" := "alfajores_de_maicena.jpg",
    "Tarta de Manzana" := "tarta_de_manzana.jpg",
    "Éclairs de Vainilla" := "eclairs_de_vainilla.jpg"
  ]

  /**
   * upload_image: the mapped file name of the product, then the id the
   * image store gives that file. `uploads` holds, for each image file
   * present on disk, the id its upload returns; a missing file has none.
   */
  function UploadImage(nombre: Cell, uploads: map<string, nat>): (r: Option<nat>)
    ensures r.Some? <==> nombre.Str? && nombre.s in IMAGEN_MAP && IMAGEN_MAP[nombre.s] in uploads
    ensures r.Some? ==> r.value == uploads[IMAGEN_MAP[nombre.s]]
  {
    if nombre.Str? && nombre.s in IMAGEN_MAP && IMAGEN_MAP[nombre.s] != "" then
      var filename := IMAGEN_MAP[nombre.s];
      if filename in uploads then Some(uploads[filename]) else None
    else None
  }

  // ---------------------------------------------------------------------
  // One record per row
  // ---------------------------------------------------------------------

  const RESTAURANTE_COLUMNAS: seq<string> := [
    "nombre_restaurante", "codigo_postal", "calle", "zona", "avenida", "telefonos",
    "horario_entre_semana", "horario_fines_de_semana", "horario_asueto"]

  /** The record parse_restaurantes builds for one row, its lookups in the dict literal's order. */
  function RestauranteOf(row: Row): Result<Value, ParseError> {
    var nombre :- Get(row, "nombre_restaurante");
    var codigoPostal :- Get(row, "codigo_postal");
    var calle :- Get(row, "calle");
    var zona :- Get(row, "zona");
    var avenida :- Get(row, "avenida");
    var telefono :- SplitCell(row, "telefonos");
    var entreSemana :- Get(row, "horario_entre_semana");
    var finesDeSemana :- Get(row, "horario_fines_de_semana");
    var asueto :- Get(row, "horario_asueto");
    Success(Dict(map[
      "nombre_restaurante" := Scalar(nombre),
      "ubicacion" := Dict(map[
        "codigo_postal" := Scalar(codigoPostal),
        "calle" := Scalar(calle),
        "zona" := Scalar(zona),
        "avenida" := Scalar(avenida)]),
      "telefono" := StrList(telefono),
      "horarios_de_atencion" := Dict(map[
        "entre_semana" := Scalar(entreSemana),
        "fines_de_semana" := Scalar(finesDeSemana),
        "asueto" := Scalar(asueto)])]))
  }

  /**
   * A restaurant row parses exactly when it has all nine columns and its
   * phones are text; the record has exactly the four top-level keys (no
   * esActivo), copies the address and schedule cells verbatim, and holds
   * the split phone list. Otherwise the first missing column is reported.
   */
  lemma RestauranteOfSpec(row: Row)
    ensures RestauranteOf(row).Success? <==>
      (forall c :: c in RESTAURANTE_COLUMNAS ==> c in row) && row["telefonos"].Str?
    ensures RestauranteOf(row).Success? ==>
      var fields := RestauranteOf(row).value.fields;
      && RestauranteOf(row).value.Dict?
      && fields.Keys == {"nombre_restaurante", "ubicacion", "telefono", "horarios_de_atencion"}
      && "esActivo" !in fields
      && fields["nombre_restaurante"] == Scalar(row["nombre_restaurante"])
      && fields["ubicacion"] == Dict(map[
           "codigo_postal" := Scalar(row["codigo_postal"]), "calle" := Scalar(row["calle"]),
           "zona" := Scalar(row["zona"]), "avenida" := Scalar(row["avenida"])])
      && fields["telefono"] == StrList(Split(row["telefonos"].s))
      && fields["horarios_de_atencion"] == Dict(map[
           "entre_semana" := Scalar(row["horario_entre_semana"]),
           "fines_de_semana" := Scalar(row["horario_fines_de_semana"]),
           "asueto" := Scalar(row["horario_asueto"])])
    ensures "nombre_restaurante" !in row ==> RestauranteOf(row) == Failure(KeyError("nombre_restaurante"))
    ensures && "nombre_restaurante" in row && "codigo_postal" in row && "calle" in row && "zona" in row
            && "avenida" in row && "telefonos" in row && !row["telefonos"].Str?
            ==> RestauranteOf(row) == Failure(AttributeError("telefonos"))
  {
    assert forall c :: c in RESTAURANTE_COLUMNAS <==>
      c == "nombre_restaurante" || c == "codigo_postal" || c == "calle" || c == "zona" || c == "avenida"
      || c == "telefonos" || c == "horario_entre_semana" || c == "horario_fines_de_semana" || c == "horario_asueto";
  }

  /** The record parse_usuarios builds for one row. */
  function UsuarioOf(row: Row): Result<Value, ParseError> {
    var nombre :- Get(row, "nombre_usuario");
    var contrasenia :- Get(row, "contrasenia");
    var tipo :- Get(row, "tipo_usuario");
    var direccion :- Get(row, "direccion");
    Success(Dict(map[
      "nombre_usuario" := Scalar(nombre),
      "contrasenia" := Scalar(contrasenia),
      "tipo_usuario" := Scalar(tipo),
      "direccion" := Scalar(direccion)]))
  }

  /** A user row parses exactly when it has the four columns, which are copied verbatim and alone. */
  lemma UsuarioOfSpec(row: Row)
    ensures UsuarioOf(row).Success? <==>
      "nombre_usuario" in row && "contrasenia" in row && "tipo_usuario" in row && "direccion" in row
    ensures UsuarioOf(row).Success? ==>
      && UsuarioOf(row).value.Dict?
      && UsuarioOf(row).value.fields.Keys == {"nombre_usuario", "contrasenia", "tipo_usuario", "direccion"}
      && forall k :: k in UsuarioOf(row).value.fields ==> UsuarioOf(row).value.fields[k] == Scalar(row[k])
    ensures "nombre_usuario" !in row ==> UsuarioOf(row) == Failure(KeyError("nombre_usuario"))
  {
  }

  /** The record parse_productos builds for one row; the image is uploaded right after reading the name. */
  function ProductoOf(row: Row, uploads: map<string, nat>): Result<Value, ParseError> {
    var nombre :- Get(row, "nombre");
    var fileId := UploadImage(nombre, uploads);
    var descripcion :- Get(row, "descripcion");
    var tiempo :- IntCell(row, "tiempo_preparacion");
    var ingredientes :- SplitCell(row, "ingredientes");
    var esActivo :- Get(row, "esActivo");
    var precio :- FloatCell(row, "precio");
    Success(Dict(map[
      "nombre" := Scalar(nombre),
      "descripcion" := Scalar(descripcion),
      "tiempo_preparacion" := IntV(tiempo),
      "ingredientes" := StrList(ingredientes),
      "imagen" := if fileId.Some? then FileRef(fileId.value) else Null,
      "esActivo" := BoolV(EsActivo(esActivo)),
      "precio" := FloatV(precio)]))
  }

  /**
   * A product row parses exactly when its columns are present, preparation
   * time is numeric, ingredients are text and the price is numeric or
   * empty; the record holds the seven keys with every value stated: the
   * converted time and price, the split ingredient list, the coerced
   * esActivo, and the uploaded image's id, or none when the name is
   * unmapped or its file is missing.
   */
  lemma ProductoOfSpec(row: Row, uploads: map<string, nat>)
    ensures ProductoOf(row, uploads).Success? <==>
      && "nombre" in row && "descripcion" in row && "tiempo_preparacion" in row && "ingredientes" in row
      && "esActivo" in row && "precio" in row
      && (row["tiempo_preparacion"].Num? || row["tiempo_preparacion"].Bool?)
      && row["ingredientes"].Str?
      && (row["precio"].Num? || row["precio"].Bool? || row["precio"].NaN?)
    ensures ProductoOf(row, uploads).Success? ==>
      var fields := ProductoOf(row, uploads).value.fields;
      && ProductoOf(row, uploads).value.Dict?
      && fields.Keys == {"nombre", "descripcion", "tiempo_preparacion", "ingredientes", "imagen", "esActivo", "precio"}
      && fields["nombre"] == Scalar(row["nombre"])
      && fields["descripcion"] == Scalar(row["descripcion"])
      && fields["tiempo_preparacion"] == IntV(IntCell(row, "tiempo_preparacion").value)
      && fields["ingredientes"] == StrList(Split(row["ingredientes"].s))
      && fields["esActivo"] == BoolV(EsActivo(row["esActivo"]))
      && fields["imagen"] == (if UploadImage(row["nombre"], uploads).Some?
                              then FileRef(UploadImage(row["nombre"], uploads).value) else Null)
      && (!row["nombre"].Str? || row["nombre"].s !in IMAGEN_MAP ==> fields["imagen"] == Null)
      && fields["precio"] == FloatV(FloatCell(row, "precio").value)
      && (row["precio"].Num? ==> fields["precio"] == FloatV(Finite(row["precio"].hundredths)))
      && (row["precio"].NaN? ==> fields["precio"] == FloatV(NotANumber))
    ensures "nombre" !in row ==> ProductoOf(row, uploads) == Failure(KeyError("nombre"))
  {
  }

  // ---------------------------------------------------------------------
  // The parse_* loops
  // ---------------------------------------------------------------------

  /**
   * `out` is what a loop appending `f(row)` for each row produces: every
   * record in row order, or the exception of the first row that raises.
   */
  ghost predicate ParsedFrom(rows: seq<Row>, f: Row -> Result<Value, ParseError>, out: Result<seq<Value>, ParseError>) {
    match out
    case Success(records) =>
      |records| == |rows| && forall i :: 0 <= i < |rows| ==> f(rows[i]) == Success(records[i])
    case Failure(e) =>
      exists i :: 0 <= i < |rows| && f(rows[i]) == Failure(e) && forall j :: 0 <= j < i ==> f(rows[j]).Success?
  }

  /** Parsing succeeds exactly when every row does. */
  lemma ParsedFromSuccess(rows: seq<Row>, f: Row -> Result<Value, ParseError>, out: Result<seq<Value>, ParseError>)
    requires ParsedFrom(rows, f, out)
    ensures out.Success? <==> forall i :: 0 <= i < |rows| ==> f(rows[i]).Success?
  {
  }

  /** parse_restaurantes. */
  method ParseRestaurantes(rows: seq<Row>) returns (out: Result<seq<Value>, ParseError>)
    ensures ParsedFrom(rows, RestauranteOf, out)
  {
    var records: seq<Value> := [];
    for i := 0 to |rows|
      invariant |records| == i
      invariant forall k :: 0 <= k < i ==> RestauranteOf(rows[k]) == Success(records[k])
    {
      var record := RestauranteOf(rows[i]);
      if record.Failure? {
        return Failure(record.error);
      }
      records := records + [record.value];
    }
    return Success(records);
  }

  /** parse_usuarios. */
  method ParseUsuarios(rows: seq<Row>) returns (out: Result<seq<Value>, ParseError>)
    ensures ParsedFrom(rows, UsuarioOf, out)
  {
    var records: seq<Value> := [];
    for i := 0 to |rows|
      invariant |records| == i
      invariant forall k :: 0 <= k < i ==> UsuarioOf(rows[k]) == Success(records[k])
    {
      var record := UsuarioOf(rows[i]);
      if record.Failure? {
        return Failure(record.error);
      }
      records := records + [record.value];
    }
    return Success(records);
  }

  /** parse_productos, with the image ids the uploads would return. */
  method ParseProductos(rows: seq<Row>, uploads: map<string, nat>) returns (out: Result<seq<Value>, ParseError>)
    ensures ParsedFrom(rows, row => ProductoOf(row, uploads), out)
  {
    var records: seq<Value> := [];
    for i := 0 to |rows|
      invariant |records| == i
      invariant forall k :: 0 <= k < i ==> ProductoOf(rows[k], uploads) == Success(records[k])
    {
      var record := ProductoOf(rows[i], uploads);
      if record.Failure? {
        return Failure(record.error);
      }
      records := records + [record.value];
    }
    return Success(records);
  }
}
