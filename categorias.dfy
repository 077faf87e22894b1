/** The category service: type validation and defaults, the ownership check
    of `findOne`, the `findByType` filter, the `update` builder, the guard of
    `remove`, and the seeding of default categories, over the `categorias`
    and `transacciones` tables. */
module Categorias {
  import opened Common
  import opened Store
  import opened SqlParams

  const TiposCategoria: set<string> := {"INGRESO", "GASTO", "AMBOS"}
  const TipoPorDefecto: string := "GASTO"

  const TipoInvalido: string := "El tipo debe ser INGRESO, GASTO o AMBOS"
  const NombreDuplicado: string := "Ya existe una categoría con este nombre"
  const CategoriaNoEncontrada: string := "Categoría no encontrada"
  const CategoriaEliminada: string := "Categoría eliminada exitosamente"
  const YaTieneCategorias: string := "El usuario ya tiene categorías personalizadas"
  const PredeterminadasCreadas: string := "Categorías predeterminadas creadas exitosamente"

  function TieneTransacciones(count: nat): string
  {
    "No se puede eliminar la categoría porque tiene " + NatToString(count) + " transacción(es) asociada(s)"
  }

  // ---------------------------------------------------------------------
  // Queries over the table

  /** `categoria.usuario_id ? parseInt(categoria.usuario_id) : null`: a NULL
      or 0 owner is a system category. */
  function Owner(c: Categoria): (o: Option<int>)
    ensures o.None? <==> c.usuarioId in {None, Some(0)}
    ensures o.Some? ==> c.usuarioId == o && o.value != 0
  {
    IdOrNull(c.usuarioId)
  }

  /** `SELECT id FROM categorias WHERE usuario_id = @0 AND nombre = @1`:
      active or not. */
  predicate NameTaken(categorias: seq<Categoria>, usuarioId: int, nombre: string)
  {
    exists i :: 0 <= i < |categorias| && categorias[i].usuarioId == Some(usuarioId) && categorias[i].nombre == nombre
  }

  /** `SELECT COUNT(*) FROM categorias WHERE usuario_id = @0` is positive. */
  predicate HasAny(categorias: seq<Categoria>, usuarioId: int)
  {
    exists i :: 0 <= i < |categorias| && categorias[i].usuarioId == Some(usuarioId)
  }

  /** The first row of `WHERE id = @0 AND activo = 1`. */
  function ActiveById(categorias: seq<Categoria>, categoriaId: int): (r: Option<Categoria>)
    ensures r.Some? ==> r.value in categorias && r.value.id == categoriaId && r.value.activo
    ensures r.None? ==> forall c :: c in categorias ==> !(c.id == categoriaId && c.activo)
  {
    if categorias == [] then None
    else if categorias[0].id == categoriaId && categorias[0].activo then Some(categorias[0])
    else ActiveById(categorias[1..], categoriaId)
  }

  /** Whether `findOne` lets user `usuarioId` see category `categoriaId`. */
  function Visible(categorias: seq<Categoria>, categoriaId: int, usuarioId: int): (v: Option<Categoria>)
    ensures v.Some? ==> v.value in categorias && v.value.id == categoriaId && v.value.activo && Owner(v.value) == Some(usuarioId)
  {
    var row := ActiveById(categorias, categoriaId);
    if row.Some? && Owner(row.value) == Some(usuarioId) then row else None
  }

  /** `findOne` hides exactly the missing or inactive row, the system
      category and another user's category. */
  lemma {:induction false} FindOneOwnership(categorias: seq<Categoria>, categoriaId: int, usuarioId: int)
    ensures var v := Visible(categorias, categoriaId, usuarioId);
      && (v.Some? ==> v.value in categorias && v.value.id == categoriaId && v.value.activo
                      && v.value.usuarioId == Some(usuarioId) && usuarioId != 0)
      && (v.None? <==>
            ActiveById(categorias, categoriaId).None?
            || ActiveById(categorias, categoriaId).value.usuarioId in {None, Some(0)}
            || ActiveById(categorias, categoriaId).value.usuarioId != Some(usuarioId))
  {
  }

  /** The rows `findByType` selects: the user's own active categories whose
      type is the requested one or AMBOS. */
  function OfType(categorias: seq<Categoria>, usuarioId: int, tipo: string): (r: seq<Categoria>)
    ensures forall c :: c in r <==>
      c in categorias && c.usuarioId == Some(usuarioId) && c.activo && (c.tipo == tipo || c.tipo == "AMBOS")
  {
    if categorias == [] then []
    else
      var c := categorias[0];
      (if c.usuarioId == Some(usuarioId) && c.activo && (c.tipo == tipo || c.tipo == "AMBOS") then [c] else [])
      + OfType(categorias[1..], usuarioId, tipo)
  }

  /** `findByType` as written: the BadRequest for an unknown type is raised
      inside the `try`, whose catch turns every error into a plain one. */
  function FindByTypeAsWritten(categorias: seq<Categoria>, usuarioId: int, tipo: string): (r: Result<seq<Categoria>>)
    ensures r.Err? <==> tipo !in TiposCategoria
    ensures r.Err? ==> KindOf(r.error) == InternalKind
  {
    if tipo !in TiposCategoria then Err(Rethrow(BadRequest(TipoInvalido), {}, "Error al obtener categorías por tipo: "))
    else Ok(OfType(categorias, usuarioId, tipo))
  }

  /** `findByType` with the BadRequest passed on, as `create` and `update`
      do for the same check. */
  function FindByTypeCorrected(categorias: seq<Categoria>, usuarioId: int, tipo: string): (r: Result<seq<Categoria>>)
    ensures r.Err? <==> tipo !in TiposCategoria
    ensures r.Err? ==> r.error == BadRequest(TipoInvalido)
    ensures r.Ok? ==> forall c :: c in r.value <==>
      c in categorias && c.usuarioId == Some(usuarioId) && c.activo && (c.tipo == tipo || c.tipo == "AMBOS")
  {
    if tipo !in TiposCategoria then Err(Rethrow(BadRequest(TipoInvalido), {BadRequestKind}, "Error al obtener categorías por tipo: "))
    else Ok(OfType(categorias, usuarioId, tipo))
  }

  /** `GET /categorias?tipo=XYZ` is answered with a plain error instead of
      the BadRequest the check raises. */
  lemma FindByTypeWrapsBadRequest(categorias: seq<Categoria>, usuarioId: int)
    ensures FindByTypeAsWritten(categorias, usuarioId, "XYZ")
      == Err(Internal("Error al obtener categorías por tipo: " + TipoInvalido))
    ensures FindByTypeCorrected(categorias, usuarioId, "XYZ") == Err(BadRequest(TipoInvalido))
  {
    assert "XYZ" !in TiposCategoria;
  }

  /** Both versions agree on every valid type. */
  lemma {:induction false} FindByTypeAgreeOnValid(categorias: seq<Categoria>, usuarioId: int, tipo: string)
    requires tipo in TiposCategoria
    ensures FindByTypeAsWritten(categorias, usuarioId, tipo) == FindByTypeCorrected(categorias, usuarioId, tipo)
  {
  }

  /** An AMBOS category is listed for every requested type; an INGRESO one
      never for GASTO, and the other way round. */
  lemma {:induction false} AmbosListedForBoth(categorias: seq<Categoria>, usuarioId: int, c: Categoria)
    requires c in categorias && c.usuarioId == Some(usuarioId) && c.activo
    ensures c.tipo == "AMBOS" ==> c in OfType(categorias, usuarioId, "INGRESO") && c in OfType(categorias, usuarioId, "GASTO")
    ensures c.tipo == "INGRESO" ==> c !in OfType(categorias, usuarioId, "GASTO")
    ensures c.tipo == "GASTO" ==> c !in OfType(categorias, usuarioId, "INGRESO")
  {
  }

  // ---------------------------------------------------------------------
  // update: the assignments and what they do to a row

  datatype CreateCategoriaDto = CreateCategoriaDto(
    nombre: string,
    icono: Option<string>,
    color: Option<string>,
    tipo: Option<string>)

  datatype UpdateCategoriaDto = UpdateCategoriaDto(
    nombre: Option<string>,
    icono: Option<string>,
    color: Option<string>,
    tipo: Option<string>,
    activo: Option<bool>)

  /** `UPDATE categorias SET <fields> WHERE id = @whereIndex` with `params`. */
  datatype UpdateStatement = UpdateStatement(fields: seq<Assignment>, params: seq<SqlValue>, whereIndex: nat)

  /** The assignment the `k`-th block of the builder contributes. */
  function Part(dto: UpdateCategoriaDto, k: nat): seq<Binding>
    requires k < 5
  {
    if k == 0 then Given("nombre", TextValue(dto.nombre))
    else if k == 1 then Given("icono", TextValue(dto.icono))
    else if k == 2 then Given("color", TextValue(dto.color))
    else if k == 3 then Given("tipo", TextValue(dto.tipo))
    else Given("activo", BitValue(dto.activo))
  }

  function PartsUpTo(dto: UpdateCategoriaDto, k: nat): seq<Binding>
    requires k <= 5
  {
    if k == 0 then [] else PartsUpTo(dto, k - 1) + Part(dto, k - 1)
  }

  /** What the SET list should assign: each field the request gives, in the
      order of the builder, and nothing else. */
  function CategoriaBindings(dto: UpdateCategoriaDto): seq<Binding>
  {
    PartsUpTo(dto, 5)
  }

  /** One `column = value` of an UPDATE applied to a row. */
  function SetColumn(c: Categoria, b: Binding): Categoria
  {
    match b
    case ("nombre", Some(Text(s))) => c.(nombre := s)
    case ("icono", Some(Text(s))) => c.(icono := Some(s))
    case ("icono", None) => c.(icono := None)
    case ("color", Some(Text(s))) => c.(color := Some(s))
    case ("color", None) => c.(color := None)
    case ("tipo", Some(Text(s))) => c.(tipo := s)
    case ("activo", Some(Int(b))) => c.(activo := b != 0)
    case _ => c
  }

  function ApplySet(c: Categoria, bs: seq<Binding>): Categoria
  {
    if bs == [] then c else SetColumn(ApplySet(c, bs[..|bs| - 1]), bs[|bs| - 1])
  }

  /** The row the update should leave: the given fields take their values,
      every other column (and the id and owner) stays. */
  function Updated(c: Categoria, dto: UpdateCategoriaDto): Categoria
  {
    Categoria(
      c.id, c.usuarioId,
      if dto.nombre.Some? then dto.nombre.value else c.nombre,
      if dto.icono.Some? then dto.icono else c.icono,
      if dto.color.Some? then dto.color else c.color,
      if dto.tipo.Some? then dto.tipo.value else c.tipo,
      if dto.activo.Some? then dto.activo.value else c.activo)
  }

  function Partial(dto: UpdateCategoriaDto, k: nat): UpdateCategoriaDto
  {
    UpdateCategoriaDto(
      if k > 0 then dto.nombre else None,
      if k > 1 then dto.icono else None,
      if k > 2 then dto.color else None,
      if k > 3 then dto.tipo else None,
      if k > 4 then dto.activo else None)
  }

  lemma {:induction false} PartStep(c: Categoria, dto: UpdateCategoriaDto, k: nat)
    requires k < 5
    ensures var before := Updated(c, Partial(dto, k));
      ApplySet(before, Part(dto, k)) == Updated(c, Partial(dto, k + 1))
  {
    var before := Updated(c, Partial(dto, k));
    var bs := Part(dto, k);
    assert bs != [] ==> bs[..0] == [];
  }

  /** Running the SET list the builder produces changes exactly the fields
      the request gives. */
  lemma {:induction false} SetListUpdatesGivenFields(c: Categoria, dto: UpdateCategoriaDto, k: nat)
    requires k <= 5
    ensures ApplySet(c, PartsUpTo(dto, k)) == Updated(c, Partial(dto, k))
    ensures k == 5 ==> ApplySet(c, CategoriaBindings(dto)) == Updated(c, dto)
    decreases k
  {
    if k == 0 {
      assert Partial(dto, 0) == UpdateCategoriaDto(None, None, None, None, None);
    } else {
      SetListUpdatesGivenFields(c, dto, k - 1);
      var bs, more := PartsUpTo(dto, k - 1), Part(dto, k - 1);
      assert more == [] ==> bs + more == bs;
      assert (bs + more)[..|bs|] == bs;
      assert more != [] ==> more[..0] == [];
      PartStep(c, dto, k - 1);
    }
    if k == 5 {
      assert Partial(dto, 5) == dto;
    }
  }

  /** What `UPDATE categorias ... WHERE id = @k` leaves in the table: every row
      with that id now reads as the request updates it, and a row with
      another id is in the table afterwards exactly when it was before. */
  lemma {:induction false} UpdateWhereIdOutcome(categorias: seq<Categoria>, id: int, dto: UpdateCategoriaDto)
    ensures var r := UpdateWhereId(categorias, CategoriaKey, id, CategoriaBindings(dto), ApplySet);
      && (forall c :: c in categorias && c.id == id ==> Updated(c, dto) in r)
      && (forall x: Categoria :: x.id != id ==> (x in r <==> x in categorias))
  {
    var r := UpdateWhereId(categorias, CategoriaKey, id, CategoriaBindings(dto), ApplySet);
    forall i | 0 <= i < |categorias|
      ensures r[i] == if categorias[i].id == id then Updated(categorias[i], dto) else categorias[i]
    {
      SetListUpdatesGivenFields(categorias[i], dto, 5);
    }
    forall c | c in categorias && c.id == id
      ensures Updated(c, dto) in r
    {
      var i :| 0 <= i < |categorias| && categorias[i] == c;
      assert r[i] == Updated(c, dto);
    }
    forall x: Categoria | x.id != id
      ensures x in r <==> x in categorias
    {
      if x in r {
        var i :| 0 <= i < |r| && r[i] == x;
        assert categorias[i] == x;
      }
      if x in categorias {
        var i :| 0 <= i < |categorias| && categorias[i] == x;
        assert r[i] == x;
      }
    }
  }

  // ---------------------------------------------------------------------
  // Default categories

  /** One entry of the default lists: name, color, icon. */
  datatype Seed = Seed(nombre: string, color: string, icono: string)

  const GastoDefaults: seq<Seed> := [
    Seed("Alimentación", "#FF6B6B", "restaurant"),
    Seed("Transporte", "#4ECDC4", "directions_car"),
    Seed("Salud", "#45B7D1", "local_hospital"),
    Seed("Educación", "#FFA07A", "school"),
    Seed("Entretenimiento", "#98D8C8", "sports_esports"),
    Seed("Ropa", "#F7DC6F", "checkroom"),
    Seed("Vivienda", "#BB8FCE", "home"),
    Seed("Facturas", "#85C1E2", "receipt"),
    Seed("Supermercado", "#F1948A", "shopping_cart"),
    Seed("Otros Gastos", "#95A5A6", "more_horiz")]

  const IngresoDefaults: seq<Seed> := [
    Seed("Salario", "#10B981", "work"),
    Seed("Freelance", "#6366F1", "computer"),
    Seed("Inversiones", "#8B5CF6", "trending_up"),
    Seed("Bonos", "#EC4899", "card_giftcard"),
    Seed("Otros Ingresos", "#14B8A6", "attach_money")]

  /** The row one default insert adds. */
  function SeedRow(usuarioId: int, s: Seed, tipo: string, id: int): Categoria
  {
    Categoria(id, Some(usuarioId), s.nombre, Some(s.icono), Some(s.color), tipo, true)
  }

  /** The rows a loop over `seeds` inserts, with consecutive ids from `firstId`. */
  function SeedRows(usuarioId: int, seeds: seq<Seed>, tipo: string, firstId: int): (r: seq<Categoria>)
    ensures |r| == |seeds|
    ensures forall i :: 0 <= i < |r| ==> r[i] == SeedRow(usuarioId, seeds[i], tipo, firstId + i)
  {
    seq(|seeds|, i requires 0 <= i < |seeds| => SeedRow(usuarioId, seeds[i], tipo, firstId + i))
  }

  /** The ten GASTO rows, then the five INGRESO rows. */
  function DefaultRows(usuarioId: int, firstId: int): seq<Categoria>
  {
    SeedRows(usuarioId, GastoDefaults, "GASTO", firstId) + SeedRows(usuarioId, IngresoDefaults, "INGRESO", firstId + |GastoDefaults|)
  }

  /** The seeding inserts fifteen active categories of the user: ten GASTO,
      then five INGRESO, with fifteen consecutive ids and fifteen different
      names. */
  lemma DefaultRowsShape(usuarioId: int, firstId: int)
    ensures var rows := DefaultRows(usuarioId, firstId);
      && |rows| == 15
      && (forall i :: 0 <= i < 10 ==> rows[i].tipo == "GASTO")
      && (forall i :: 10 <= i < 15 ==> rows[i].tipo == "INGRESO")
      && (forall i :: 0 <= i < 15 ==> rows[i].usuarioId == Some(usuarioId) && rows[i].activo && rows[i].id == firstId + i)
      && (forall i, j :: 0 <= i < j < 15 ==> rows[i].nombre != rows[j].nombre)
  {
    var rows := DefaultRows(usuarioId, firstId);
    forall i | 0 <= i < 15
      ensures rows[i].id == firstId + i && rows[i].usuarioId == Some(usuarioId) && rows[i].activo
      ensures rows[i].nombre == (GastoDefaults + IngresoDefaults)[i].nombre
    {
      if i >= 10 {
        assert rows[i] == SeedRows(usuarioId, IngresoDefaults, "INGRESO", firstId + 10)[i - 10];
      }
    }
    var names := seq(15, i requires 0 <= i < 15 => (GastoDefaults + IngresoDefaults)[i].nombre);
    assert names == ["Alimentación", "Transporte", "Salud", "Educación", "Entretenimiento", "Ropa", "Vivienda",
                     "Facturas", "Supermercado", "Otros Gastos", "Salario", "Freelance", "Inversiones", "Bonos",
                     "Otros Ingresos"];
    forall i, j | 0 <= i < j < 15
      ensures rows[i].nombre != rows[j].nombre
    {
      assert rows[i].nombre == names[i] && rows[j].nombre == names[j];
      DistinctNames(names, i, j);
    }
  }

  /** The fifteen default names differ pairwise: they differ in length or in
      one of their first three letters. */
  lemma DistinctNames(names: seq<string>, i: nat, j: nat)
    requires names == ["Alimentación", "Transporte", "Salud", "Educación", "Entretenimiento", "Ropa", "Vivienda",
                       "Facturas", "Supermercado", "Otros Gastos", "Salario", "Freelance", "Inversiones", "Bonos",
                       "Otros Ingresos"]
    requires i < j < 15
    ensures names[i] != names[j]
  {
    var key := seq(15, k requires 0 <= k < 15 => (|names[k]|, names[k][0], names[k][2]));
    assert key[i] != key[j];
  }

  // ---------------------------------------------------------------------
  // The service

  class CategoriasService {
    const db: Db

    constructor (db: Db)
      ensures this.db == db
    {
      this.db := db;
    }

    /** `create`: a given, non-empty type must be valid; the name must be new
        among all of the user's categories, active or not; the row is
        inserted active with type GASTO when none is given. */
    method Create(usuarioId: int, dto: CreateCategoriaDto) returns (r: Result<Categoria>)
      modifies db`categorias, db`nextId
      ensures var badTipo := dto.tipo.Some? && dto.tipo.value != "" && dto.tipo.value !in TiposCategoria;
        && (badTipo ==> r == Err(BadRequest(TipoInvalido)))
        && (!badTipo && NameTaken(old(db.categorias), usuarioId, dto.nombre) ==> r == Err(Conflict(NombreDuplicado)))
        && (r.Ok? <==> !badTipo && !NameTaken(old(db.categorias), usuarioId, dto.nombre))
      ensures r.Err? ==> db.categorias == old(db.categorias) && db.nextId == old(db.nextId)
      ensures r.Ok? ==>
        && r.value == Categoria(old(db.nextId), Some(usuarioId), dto.nombre, StringOrNull(dto.icono),
                                StringOrNull(dto.color), StringOr(dto.tipo, TipoPorDefecto), true)
        && r.value.tipo in TiposCategoria
        && db.categorias == old(db.categorias) + [r.value] && db.nextId == old(db.nextId) + 1
    {
      if dto.tipo.Some? && dto.tipo.value != "" && dto.tipo.value !in TiposCategoria {
        return Err(Rethrow(BadRequest(TipoInvalido), {ConflictKind, BadRequestKind}, "Error al crear categoría: "));
      }
      if NameTaken(db.categorias, usuarioId, dto.nombre) {
        return Err(Rethrow(Conflict(NombreDuplicado), {ConflictKind, BadRequestKind}, "Error al crear categoría: "));
      }
      var row := Categoria(db.nextId, Some(usuarioId), dto.nombre, StringOrNull(dto.icono), StringOrNull(dto.color),
                           StringOr(dto.tipo, TipoPorDefecto), true);
      db.categorias := db.categorias + [row];
      db.nextId := db.nextId + 1;
      return Ok(row);
    }

    /** `findOne`: the active row with that id, if it belongs to the user. */
    method FindOne(categoriaId: int, usuarioId: int) returns (r: Result<Categoria>)
      ensures Visible(db.categorias, categoriaId, usuarioId).None? ==> r == Err(NotFound(CategoriaNoEncontrada))
      ensures r.Ok? <==> Visible(db.categorias, categoriaId, usuarioId).Some?
      ensures r.Ok? ==> Visible(db.categorias, categoriaId, usuarioId) == Some(r.value)
      ensures r.Ok? ==> r.value in db.categorias && r.value.id == categoriaId && r.value.activo && r.value.usuarioId == Some(usuarioId)
    {
      var row := ActiveById(db.categorias, categoriaId);
      if row.None? {
        return Err(Rethrow(NotFound(CategoriaNoEncontrada), {NotFoundKind}, "Error al obtener categoría: "));
      }
      var categoriaUsuarioId := Owner(row.value);
      if categoriaUsuarioId.None? {
        return Err(Rethrow(NotFound(CategoriaNoEncontrada), {NotFoundKind}, "Error al obtener categoría: "));
      }
      if categoriaUsuarioId.value != usuarioId {
        return Err(Rethrow(NotFound(CategoriaNoEncontrada), {NotFoundKind}, "Error al obtener categoría: "));
      }
      return Ok(row.value);
    }

    /** `update`: the ownership check, the SET list of the given fields with
        the type check inside it, no statement when nothing is given, else
        `UPDATE ... WHERE id = @paramIndex` with the category id last. */
    method Update(categoriaId: int, usuarioId: int, dto: UpdateCategoriaDto) returns (r: Result<Categoria>, stmt: Option<UpdateStatement>)
      modifies db`categorias
      ensures var found := Visible(old(db.categorias), categoriaId, usuarioId);
        && (found.None? ==> r == Err(NotFound(CategoriaNoEncontrada)))
        && (found.Some? && dto.tipo.Some? && dto.tipo.value !in TiposCategoria ==> r == Err(BadRequest(TipoInvalido)))
        && (r.Err? ==> stmt.None? && db.categorias == old(db.categorias))
        && (r.Ok? <==> found.Some? && (dto.tipo.None? || dto.tipo.value in TiposCategoria))
      ensures stmt.None? ==> db.categorias == old(db.categorias)
      ensures r.Ok? ==> r == Ok(Updated(Visible(old(db.categorias), categoriaId, usuarioId).value, dto))
      ensures r.Ok? && CategoriaBindings(dto) == [] ==> stmt.None?
      ensures r.Ok? && CategoriaBindings(dto) != [] ==> stmt.Some?
      ensures stmt.Some? ==>
        var s := stmt.value;
        && s.whereIndex == |s.params| - 1 && s.params[s.whereIndex] == Int(categoriaId)
        && Built(s.fields, s.params[..s.whereIndex], s.whereIndex)
        && InRange(s.fields, s.params) && Resolve(s.fields, s.params) == CategoriaBindings(dto)
        && db.categorias == UpdateWhereId(old(db.categorias), CategoriaKey, categoriaId, CategoriaBindings(dto), ApplySet)
        && (forall c :: c in old(db.categorias) && c.id == categoriaId ==> Updated(c, dto) in db.categorias)
        && (forall x: Categoria :: x.id != categoriaId ==> (x in db.categorias <==> x in old(db.categorias)))
    {
      stmt := None;
      var current := FindOne(categoriaId, usuarioId);
      if current.Err? {
        r := Err(Rethrow(current.error, {NotFoundKind, BadRequestKind}, "Error al actualizar categoría: "));
        return;
      }
      var fs: seq<Assignment> := [];
      var params: seq<SqlValue> := [];
      var paramIndex: nat := 0;
      fs, params, paramIndex := PushIfGiven(fs, params, paramIndex, "nombre", TextValue(dto.nombre));
      assert Resolve(fs, params) == PartsUpTo(dto, 1);
      fs, params, paramIndex := PushIfGiven(fs, params, paramIndex, "icono", TextValue(dto.icono));
      assert Resolve(fs, params) == PartsUpTo(dto, 2);
      fs, params, paramIndex := PushIfGiven(fs, params, paramIndex, "color", TextValue(dto.color));
      assert Resolve(fs, params) == PartsUpTo(dto, 3);
      if dto.tipo.Some? && dto.tipo.value !in TiposCategoria {
        r := Err(Rethrow(BadRequest(TipoInvalido), {NotFoundKind, BadRequestKind}, "Error al actualizar categoría: "));
        return;
      }
      fs, params, paramIndex := PushIfGiven(fs, params, paramIndex, "tipo", TextValue(dto.tipo));
      assert Resolve(fs, params) == PartsUpTo(dto, 4);
      fs, params, paramIndex := PushIfGiven(fs, params, paramIndex, "activo", BitValue(dto.activo));
      assert Resolve(fs, params) == PartsUpTo(dto, 5);
      assert Resolve(fs, params) == CategoriaBindings(dto);
      if |fs| == 0 {
        SetListUpdatesGivenFields(current.value, dto, 5);
        r := FindOne(categoriaId, usuarioId);
        return;
      }
      var built := params;
      params := params + [Int(categoriaId)];
      ResolveExtend(fs, built, [Int(categoriaId)]);
      assert params[..paramIndex] == built;
      stmt := Some(UpdateStatement(fs, params, paramIndex));
      var row := current.value;
      UpdateWhereIdOutcome(db.categorias, categoriaId, dto);
      db.categorias := UpdateWhereId(db.categorias, CategoriaKey, categoriaId, CategoriaBindings(dto), ApplySet);
      SetListUpdatesGivenFields(row, dto, 5);
      r := Ok(ApplySet(row, CategoriaBindings(dto)));
    }

    /** `remove`: the ownership check, then no active transaction may use the
        category; then its rows are deleted. */
    method Remove(categoriaId: int, usuarioId: int) returns (r: Result<string>)
      modifies db`categorias
      ensures var found := Visible(old(db.categorias), categoriaId, usuarioId);
        var refs := ActiveRefs(db.transacciones, CategoriaRef, categoriaId);
        && (found.None? ==> r == Err(NotFound(CategoriaNoEncontrada)))
        && (found.Some? && refs > 0 ==> r == Err(Conflict(TieneTransacciones(refs))))
        && (r.Ok? <==> found.Some? && refs == 0)
      ensures r.Err? ==> db.categorias == old(db.categorias)
      ensures r.Ok? ==> r.value == CategoriaEliminada && db.categorias == DeleteWhereId(old(db.categorias), CategoriaKey, categoriaId)
    {
      var current := FindOne(categoriaId, usuarioId);
      if current.Err? {
        return Err(Rethrow(current.error, {NotFoundKind, ConflictKind}, "Error al eliminar categoría: "));
      }
      var count := ActiveRefs(db.transacciones, CategoriaRef, categoriaId);
      if count > 0 {
        return Err(Rethrow(Conflict(TieneTransacciones(count)), {NotFoundKind, ConflictKind}, "Error al eliminar categoría: "));
      }
      db.categorias := DeleteWhereId(db.categorias, CategoriaKey, categoriaId);
      return Ok(CategoriaEliminada);
    }

    /** `findByType`, with the BadRequest for an unknown type passed on (see
        `FindByTypeAsWritten` for the code as written). */
    method FindByType(usuarioId: int, tipo: string) returns (r: Result<seq<Categoria>>)
      ensures r == FindByTypeCorrected(db.categorias, usuarioId, tipo)
      ensures r.Err? ==> r.error == BadRequest(TipoInvalido)
    {
      if tipo !in TiposCategoria {
        return Err(Rethrow(BadRequest(TipoInvalido), {BadRequestKind}, "Error al obtener categorías por tipo: "));
      }
      return Ok(OfType(db.categorias, usuarioId, tipo));
    }

    /** One seeding loop: an INSERT per seed, in order, each row getting the
        next id. */
    method InsertSeeds(usuarioId: int, seeds: seq<Seed>, tipo: string)
      modifies db`categorias, db`nextId
      ensures db.categorias == old(db.categorias) + SeedRows(usuarioId, seeds, tipo, old(db.nextId))
      ensures db.nextId == old(db.nextId) + |seeds|
    {
      var firstId := db.nextId;
      for i := 0 to |seeds|
        invariant db.categorias == old(db.categorias) + SeedRows(usuarioId, seeds[..i], tipo, firstId)
        invariant db.nextId == firstId + i
      {
        assert SeedRows(usuarioId, seeds[..i + 1], tipo, firstId)
          == SeedRows(usuarioId, seeds[..i], tipo, firstId) + [SeedRow(usuarioId, seeds[i], tipo, db.nextId)];
        db.categorias := db.categorias + [SeedRow(usuarioId, seeds[i], tipo, db.nextId)];
        db.nextId := db.nextId + 1;
      }
      assert seeds[..|seeds|] == seeds;
    }

    /** `insertDefaultCategories`: Conflict when the user has any category;
        otherwise the GASTO list, then the INGRESO list, one insert each. */
    method InsertDefaultCategories(usuarioId: int) returns (r: Result<string>)
      modifies db`categorias, db`nextId
      ensures HasAny(old(db.categorias), usuarioId) ==>
        r == Err(Conflict(YaTieneCategorias)) && db.categorias == old(db.categorias) && db.nextId == old(db.nextId)
      ensures !HasAny(old(db.categorias), usuarioId) ==>
        && r == Ok(PredeterminadasCreadas)
        && db.categorias == old(db.categorias) + DefaultRows(usuarioId, old(db.nextId))
        && db.nextId == old(db.nextId) + |GastoDefaults| + |IngresoDefaults|
    {
      if HasAny(db.categorias, usuarioId) {
        return Err(Rethrow(Conflict(YaTieneCategorias), {ConflictKind}, "Error al crear categorías predeterminadas: "));
      }
      InsertSeeds(usuarioId, GastoDefaults, "GASTO");
      InsertSeeds(usuarioId, IngresoDefaults, "INGRESO");
      return Ok(PredeterminadasCreadas);
    }
  }

  /** After seeding, the user has categories, so seeding again is a Conflict,
      and every default name is taken, so creating one of them is too. */
  lemma {:induction false} SeedingIsOnce(categorias: seq<Categoria>, usuarioId: int, firstId: int)
    ensures HasAny(categorias + DefaultRows(usuarioId, firstId), usuarioId)
    ensures forall s :: s in GastoDefaults + IngresoDefaults ==>
      NameTaken(categorias + DefaultRows(usuarioId, firstId), usuarioId, s.nombre)
  {
    var all := categorias + DefaultRows(usuarioId, firstId);
    var rows := DefaultRows(usuarioId, firstId);
    assert all[|categorias|] == rows[0];
    forall s | s in GastoDefaults + IngresoDefaults
      ensures NameTaken(all, usuarioId, s.nombre)
    {
      var k :| 0 <= k < 15 && (GastoDefaults + IngresoDefaults)[k] == s;
      if k < 10 {
        assert all[|categorias| + k] == rows[k];
      } else {
        assert rows[k] == SeedRows(usuarioId, IngresoDefaults, "INGRESO", firstId + 10)[k - 10];
        assert all[|categorias| + k] == rows[k];
      }
    }
  }

  /** A category that `create` accepted is a category `findByType` lists for
      its own type, and the stored type is always one of the three. */
  lemma {:induction false} CreatedIsListed(categorias: seq<Categoria>, row: Categoria, usuarioId: int)
    requires row.usuarioId == Some(usuarioId) && row.activo && row.tipo in TiposCategoria
    ensures row in OfType(categorias + [row], usuarioId, row.tipo)
  {
  }

  /** After `create` stored a row, the same name is taken for its owner, so
      a second `create` with that name is a Conflict, even once the row is
      deactivated. */
  lemma {:induction false} CreateThenConflict(categorias: seq<Categoria>, row: Categoria, usuarioId: int)
    requires row.usuarioId == Some(usuarioId)
    ensures NameTaken(categorias + [row], usuarioId, row.nombre)
    ensures NameTaken(categorias + [row.(activo := false)], usuarioId, row.nombre)
  {
    assert (categorias + [row])[|categorias|] == row;
    assert (categorias + [row.(activo := false)])[|categorias|] == row.(activo := false);
  }

  /** After `remove`, `findOne` no longer finds the category, for any user. */
  lemma {:induction false} RemovedNotVisible(categorias: seq<Categoria>, categoriaId: int, usuarioId: int)
    ensures Visible(DeleteWhereId(categorias, CategoriaKey, categoriaId), categoriaId, usuarioId).None?
  {
  }
}
