/** The account service: type validation, the duplicate-name guard of
    `create`, the current balance, the `update` builder and the guards of
    `remove`, over the `cuentas` and `transacciones` tables. */
module Cuentas {
  import opened Common
  import opened Store
  import opened SqlParams

  /** The seven account types the service accepts. */
  const TiposCuenta: set<string> :=
    {"BANCARIA", "EFECTIVO", "TARJETA_CREDITO", "TARJETA_DEBITO", "DIGITAL", "AHORRO", "INVERSION"}
  const TipoPorDefecto: string := "BANCARIA"

  const TipoInvalido: string := "El tipo de cuenta no es válido"
  const NombreDuplicado: string := "Ya existe una cuenta con este nombre"
  const CuentaNoEncontrada: string := "Cuenta no encontrada"
  const TieneSaldo: string := "No se puede eliminar la cuenta porque tiene saldo"
  const CuentaEliminada: string := "Cuenta eliminada exitosamente"

  function TieneTransacciones(count: nat): string
  {
    "No se puede eliminar la cuenta porque tiene " + NatToString(count) + " transacción(es) asociada(s)"
  }

  // ---------------------------------------------------------------------
  // The current balance

  /** The `CASE` of the balance query: an income adds its amount, an expense
      subtracts it, any other type adds nothing. */
  function Movement(t: Txn): real
  {
    if t.tipo == "INGRESO" then t.monto
    else if t.tipo == "GASTO" then -t.monto
    else 0.0
  }

  /** The join condition: an active transaction of the account's owner on
      the account. */
  predicate Joins(t: Txn, c: Cuenta)
  {
    t.cuentaId == Some(c.id) && t.usuarioId == c.usuarioId && t.activa
  }

  /** `ISNULL(SUM(CASE ...), 0)` over the joined transactions. */
  function Movements(txns: seq<Txn>, c: Cuenta): real
  {
    if txns == [] then 0.0
    else
      var last := txns[|txns| - 1];
      Movements(txns[..|txns| - 1], c) + (if Joins(last, c) then Movement(last) else 0.0)
  }

  /** `saldo_actual` */
  function SaldoActual(c: Cuenta, txns: seq<Txn>): real
  {
    c.saldoInicial + Movements(txns, c)
  }

  /** A new transaction changes the balance of its account by its movement,
      and the balance of every other account not at all. */
  lemma {:induction false} SaldoAfterInsert(c: Cuenta, txns: seq<Txn>, t: Txn)
    ensures SaldoActual(c, txns + [t]) == SaldoActual(c, txns) + (if Joins(t, c) then Movement(t) else 0.0)
    ensures t.cuentaId != Some(c.id) ==> SaldoActual(c, txns + [t]) == SaldoActual(c, txns)
  {
    assert (txns + [t])[..|txns|] == txns;
  }

  /** An income and an expense of the same amount on the account cancel out. */
  lemma {:induction false} IngresoGastoCancel(c: Cuenta, txns: seq<Txn>, ingreso: Txn, gasto: Txn)
    requires Joins(ingreso, c) && Joins(gasto, c)
    requires ingreso.tipo == "INGRESO" && gasto.tipo == "GASTO" && ingreso.monto == gasto.monto
    ensures SaldoActual(c, txns + [ingreso, gasto]) == SaldoActual(c, txns)
  {
    SaldoAfterInsert(c, txns, ingreso);
    assert txns + [ingreso, gasto] == (txns + [ingreso]) + [gasto];
    SaldoAfterInsert(c, txns + [ingreso], gasto);
  }

  /** With no active transaction on the account, its balance is its opening
      balance. */
  lemma {:induction false} SaldoWithoutRefs(c: Cuenta, txns: seq<Txn>)
    requires ActiveRefs(txns, CuentaRef, c.id) == 0
    ensures SaldoActual(c, txns) == c.saldoInicial
    decreases |txns|
  {
    if txns != [] {
      SaldoWithoutRefs(c, txns[..|txns| - 1]);
    }
  }

  // ---------------------------------------------------------------------
  // Queries over the table

  /** An active account of `usuarioId` named `nombre` exists. */
  predicate ActiveNamed(cuentas: seq<Cuenta>, usuarioId: int, nombre: string)
  {
    exists i :: 0 <= i < |cuentas| && cuentas[i].usuarioId == usuarioId && cuentas[i].nombre == nombre && cuentas[i].activa
  }

  /** No user has two active accounts with the same name. */
  predicate UniqueActiveNames(cuentas: seq<Cuenta>)
  {
    forall i, j :: 0 <= i < j < |cuentas| && cuentas[i].activa && cuentas[j].activa && cuentas[i].usuarioId == cuentas[j].usuarioId
      ==> cuentas[i].nombre != cuentas[j].nombre
  }

  /** The row `findOne` reads: the account `cuentaId`, if it is active and
      belongs to `usuarioId`. */
  function Lookup(cuentas: seq<Cuenta>, cuentaId: int, usuarioId: int): (r: Option<Cuenta>)
    ensures r.Some? ==> r.value in cuentas && r.value.id == cuentaId && r.value.usuarioId == usuarioId && r.value.activa
    ensures r.None? ==> forall c :: c in cuentas ==> !(c.id == cuentaId && c.usuarioId == usuarioId && c.activa)
  {
    if cuentas == [] then None
    else
      var c := cuentas[0];
      if c.id == cuentaId && c.usuarioId == usuarioId && c.activa then Some(c)
      else Lookup(cuentas[1..], cuentaId, usuarioId)
  }

  /** The accounts `findByType` selects: active, of the user, of the type. */
  function OfType(cuentas: seq<Cuenta>, usuarioId: int, tipo: string): (r: seq<Cuenta>)
    ensures forall c :: c in r <==> c in cuentas && c.usuarioId == usuarioId && c.tipo == tipo && c.activa
  {
    if cuentas == [] then []
    else
      var c := cuentas[0];
      (if c.usuarioId == usuarioId && c.tipo == tipo && c.activa then [c] else []) + OfType(cuentas[1..], usuarioId, tipo)
  }

  /** An account as `findOne` and `findByType` report it (and `update`,
      whose OUTPUT has no balance). */
  datatype CuentaView = CuentaView(cuenta: Cuenta, saldoActual: Option<real>)

  /** An account as the response mapper reports it: `saldo_actual` is
      given when it is nonzero and left out when it is 0. */
  function View(c: Cuenta, txns: seq<Txn>): (v: CuentaView)
    ensures v.cuenta == c
    ensures v.saldoActual.Some? <==> SaldoActual(c, txns) != 0.0
    ensures v.saldoActual.Some? ==> v.saldoActual.value == SaldoActual(c, txns)
  {
    var saldo := SaldoActual(c, txns);
    CuentaView(c, if saldo != 0.0 then Some(saldo) else None)
  }

  /** `cuentas.map(cuenta => this.mapToResponseDto(cuenta))` */
  function Views(cuentas: seq<Cuenta>, txns: seq<Txn>): (r: seq<CuentaView>)
    ensures |r| == |cuentas|
    ensures forall i :: 0 <= i < |r| ==> r[i] == View(cuentas[i], txns)
  {
    if cuentas == [] then []
    else [View(cuentas[0], txns)] + Views(cuentas[1..], txns)
  }

  /** The views `findByType` lists: exactly the user's active accounts of
      the type, each with its balance reported when nonzero. */
  lemma {:induction false} ViewsOfType(cuentas: seq<Cuenta>, txns: seq<Txn>, usuarioId: int, tipo: string)
    ensures forall v :: v in Views(OfType(cuentas, usuarioId, tipo), txns) ==>
      v.cuenta in cuentas && v.cuenta.usuarioId == usuarioId && v.cuenta.tipo == tipo && v.cuenta.activa
      && (v.saldoActual.Some? <==> SaldoActual(v.cuenta, txns) != 0.0)
      && (v.saldoActual.Some? ==> v.saldoActual.value == SaldoActual(v.cuenta, txns))
    ensures forall c :: c in cuentas && c.usuarioId == usuarioId && c.tipo == tipo && c.activa ==>
      View(c, txns) in Views(OfType(cuentas, usuarioId, tipo), txns)
  {
    var listed := OfType(cuentas, usuarioId, tipo);
    var r := Views(listed, txns);
    forall v | v in r
      ensures v.cuenta in listed
    {
      var i :| 0 <= i < |r| && r[i] == v;
      assert v.cuenta == listed[i];
    }
    forall c | c in cuentas && c.usuarioId == usuarioId && c.tipo == tipo && c.activa
      ensures View(c, txns) in r
    {
      var i :| 0 <= i < |listed| && listed[i] == c;
      assert r[i] == View(c, txns);
    }
  }

  /** `findByType` as written: the BadRequest for an unknown type is raised
      inside the `try`, whose catch turns every error into a plain one. */
  function FindByTypeAsWritten(cuentas: seq<Cuenta>, txns: seq<Txn>, usuarioId: int, tipo: string): (r: Result<seq<CuentaView>>)
    ensures r.Err? <==> tipo !in TiposCuenta
    ensures r.Err? ==> KindOf(r.error) == InternalKind
  {
    if tipo !in TiposCuenta then Err(Rethrow(BadRequest(TipoInvalido), {}, "Error al obtener cuentas por tipo: "))
    else Ok(Views(OfType(cuentas, usuarioId, tipo), txns))
  }

  /** `findByType` as `create` and `update` treat the same validation: an
      unknown type is a BadRequest. */
  function FindByTypeCorrected(cuentas: seq<Cuenta>, txns: seq<Txn>, usuarioId: int, tipo: string): (r: Result<seq<CuentaView>>)
    ensures r.Err? <==> tipo !in TiposCuenta
    ensures r.Err? ==> r.error == BadRequest(TipoInvalido)
    ensures r.Ok? ==> forall v :: v in r.value ==>
      v.cuenta in cuentas && v.cuenta.usuarioId == usuarioId && v.cuenta.tipo == tipo && v.cuenta.activa
      && (v.saldoActual.Some? <==> SaldoActual(v.cuenta, txns) != 0.0)
      && (v.saldoActual.Some? ==> v.saldoActual.value == SaldoActual(v.cuenta, txns))
    ensures r.Ok? ==> forall c :: c in cuentas && c.usuarioId == usuarioId && c.tipo == tipo && c.activa ==>
      View(c, txns) in r.value
  {
    if tipo !in TiposCuenta then Err(Rethrow(BadRequest(TipoInvalido), {BadRequestKind}, "Error al obtener cuentas por tipo: "))
    else
      ViewsOfType(cuentas, txns, usuarioId, tipo);
      Ok(Views(OfType(cuentas, usuarioId, tipo), txns))
  }

  /** The request `GET /cuentas?tipo=XYZ` is answered with a plain error
      instead of the BadRequest the same check raises everywhere else. */
  lemma FindByTypeWrapsBadRequest(cuentas: seq<Cuenta>, txns: seq<Txn>, usuarioId: int)
    ensures FindByTypeAsWritten(cuentas, txns, usuarioId, "XYZ")
      == Err(Internal("Error al obtener cuentas por tipo: " + TipoInvalido))
    ensures FindByTypeCorrected(cuentas, txns, usuarioId, "XYZ") == Err(BadRequest(TipoInvalido))
  {
    assert "XYZ" !in TiposCuenta;
  }

  /** Both versions agree on every valid type. */
  lemma {:induction false} FindByTypeAgreeOnValid(cuentas: seq<Cuenta>, txns: seq<Txn>, usuarioId: int, tipo: string)
    requires tipo in TiposCuenta
    ensures FindByTypeAsWritten(cuentas, txns, usuarioId, tipo) == FindByTypeCorrected(cuentas, txns, usuarioId, tipo)
  {
  }

  // ---------------------------------------------------------------------
  // update: the assignments and what they do to a row

  datatype CreateCuentaDto = CreateCuentaDto(
    nombre: string,
    tipo: Option<string>,
    moneda: Option<string>,
    saldoInicial: Option<real>,
    color: Option<string>,
    icono: Option<string>,
    descripcion: Option<string>)

  datatype UpdateCuentaDto = UpdateCuentaDto(
    nombre: Option<string>,
    tipo: Option<string>,
    moneda: Option<string>,
    saldoInicial: Option<real>,
    color: Option<string>,
    icono: Option<string>,
    descripcion: Option<string>,
    activa: Option<bool>)

  /** `UPDATE cuentas SET <fields> WHERE id = @whereIndex` with `params`. */
  datatype UpdateStatement = UpdateStatement(fields: seq<Assignment>, params: seq<SqlValue>, whereIndex: nat)

  /** The assignment the `k`-th block of the builder contributes. */
  function Part(dto: UpdateCuentaDto, k: nat): seq<Binding>
    requires k < 8
  {
    if k == 0 then Given("nombre", TextValue(dto.nombre))
    else if k == 1 then Given("tipo", TextValue(dto.tipo))
    else if k == 2 then Given("moneda", TextValue(dto.moneda))
    else if k == 3 then Given("saldo_inicial", DecValue(dto.saldoInicial))
    else if k == 4 then Given("color", TextValue(dto.color))
    else if k == 5 then Given("icono", TextValue(dto.icono))
    else if k == 6 then Given("descripcion", TextValue(dto.descripcion))
    else Given("activa", BitValue(dto.activa))
  }

  /** The assignments of the first `k` blocks. */
  function PartsUpTo(dto: UpdateCuentaDto, k: nat): seq<Binding>
    requires k <= 8
  {
    if k == 0 then [] else PartsUpTo(dto, k - 1) + Part(dto, k - 1)
  }

  /** What the SET list should assign: each field the request gives, in the
      order of the builder, and nothing else. */
  function CuentaBindings(dto: UpdateCuentaDto): seq<Binding>
  {
    PartsUpTo(dto, 8)
  }

  /** One `column = value` of an UPDATE applied to a row. */
  function SetColumn(c: Cuenta, b: Binding): Cuenta
  {
    match b
    case ("nombre", Some(Text(s))) => c.(nombre := s)
    case ("tipo", Some(Text(s))) => c.(tipo := s)
    case ("moneda", Some(Text(s))) => c.(moneda := s)
    case ("saldo_inicial", Some(Dec(x))) => c.(saldoInicial := x)
    case ("color", Some(Text(s))) => c.(color := Some(s))
    case ("color", None) => c.(color := None)
    case ("icono", Some(Text(s))) => c.(icono := Some(s))
    case ("icono", None) => c.(icono := None)
    case ("descripcion", Some(Text(s))) => c.(descripcion := Some(s))
    case ("descripcion", None) => c.(descripcion := None)
    case ("activa", Some(Int(b))) => c.(activa := b != 0)
    case _ => c
  }

  /** The whole SET list applied to a row, left to right. */
  function ApplySet(c: Cuenta, bs: seq<Binding>): Cuenta
  {
    if bs == [] then c else SetColumn(ApplySet(c, bs[..|bs| - 1]), bs[|bs| - 1])
  }

  /** The row the update should leave: every field the request gives takes
      its value, every other column (and the id and owner) stays. */
  function Updated(c: Cuenta, dto: UpdateCuentaDto): Cuenta
  {
    Cuenta(
      c.id, c.usuarioId,
      if dto.nombre.Some? then dto.nombre.value else c.nombre,
      if dto.tipo.Some? then dto.tipo.value else c.tipo,
      if dto.moneda.Some? then dto.moneda.value else c.moneda,
      if dto.saldoInicial.Some? then dto.saldoInicial.value else c.saldoInicial,
      if dto.color.Some? then dto.color else c.color,
      if dto.icono.Some? then dto.icono else c.icono,
      if dto.descripcion.Some? then dto.descripcion else c.descripcion,
      if dto.activa.Some? then dto.activa.value else c.activa)
  }

  /** The request with only its first `k` fields (in builder order) given. */
  function Partial(dto: UpdateCuentaDto, k: nat): UpdateCuentaDto
  {
    UpdateCuentaDto(
      if k > 0 then dto.nombre else None,
      if k > 1 then dto.tipo else None,
      if k > 2 then dto.moneda else None,
      if k > 3 then dto.saldoInicial else None,
      if k > 4 then dto.color else None,
      if k > 5 then dto.icono else None,
      if k > 6 then dto.descripcion else None,
      if k > 7 then dto.activa else None)
  }

  lemma {:induction false} PartStep(c: Cuenta, dto: UpdateCuentaDto, k: nat)
    requires k < 8
    ensures var before := Updated(c, Partial(dto, k));
      ApplySet(before, Part(dto, k)) == Updated(c, Partial(dto, k + 1))
  {
    if k < 4 {
      PartStepFirstHalf(c, dto, k);
    } else if k < 6 {
      PartStepColorIcono(c, dto, k);
    } else {
      PartStepDescripcionActiva(c, dto, k);
    }
  }

  /** `PartStep` for the four text and amount columns. */
  lemma {:induction false} PartStepFirstHalf(c: Cuenta, dto: UpdateCuentaDto, k: nat)
    requires k < 4
    ensures var before := Updated(c, Partial(dto, k));
      ApplySet(before, Part(dto, k)) == Updated(c, Partial(dto, k + 1))
  {
    var before := Updated(c, Partial(dto, k));
    var bs := Part(dto, k);
    assert bs != [] ==> bs[..0] == [] && ApplySet(before, bs) == SetColumn(before, bs[0]);
  }

  /** `PartStep` for `color` and `icono`. */
  lemma {:induction false} PartStepColorIcono(c: Cuenta, dto: UpdateCuentaDto, k: nat)
    requires 4 <= k < 6
    ensures var before := Updated(c, Partial(dto, k));
      ApplySet(before, Part(dto, k)) == Updated(c, Partial(dto, k + 1))
  {
    var before := Updated(c, Partial(dto, k));
    var bs := Part(dto, k);
    assert bs != [] ==> bs[..0] == [] && ApplySet(before, bs) == SetColumn(before, bs[0]);
  }

  /** `PartStep` for `descripcion` and the active flag. */
  lemma {:induction false} PartStepDescripcionActiva(c: Cuenta, dto: UpdateCuentaDto, k: nat)
    requires 6 <= k < 8
    ensures var before := Updated(c, Partial(dto, k));
      ApplySet(before, Part(dto, k)) == Updated(c, Partial(dto, k + 1))
  {
    var before := Updated(c, Partial(dto, k));
    var bs := Part(dto, k);
    assert bs != [] ==> bs[..0] == [] && ApplySet(before, bs) == SetColumn(before, bs[0]);
  }

  /** Running the SET list the builder produces changes exactly the fields
      the request gives. */
  lemma {:induction false} SetListUpdatesGivenFields(c: Cuenta, dto: UpdateCuentaDto, k: nat)
    requires k <= 8
    ensures ApplySet(c, PartsUpTo(dto, k)) == Updated(c, Partial(dto, k))
    ensures k == 8 ==> ApplySet(c, CuentaBindings(dto)) == Updated(c, dto)
    decreases k
  {
    if k == 0 {
      assert Partial(dto, 0) == UpdateCuentaDto(None, None, None, None, None, None, None, None);
    } else {
      SetListUpdatesGivenFields(c, dto, k - 1);
      var bs, more := PartsUpTo(dto, k - 1), Part(dto, k - 1);
      assert more == [] ==> bs + more == bs;
      assert (bs + more)[..|bs|] == bs;
      assert more != [] ==> more[..0] == [];
      PartStep(c, dto, k - 1);
    }
    if k == 8 {
      assert Partial(dto, 8) == dto;
    }
  }

  /** What `UPDATE cuentas ... WHERE id = @k` leaves in the table: every row
      with that id now reads as the request updates it, and a row with
      another id is in the table afterwards exactly when it was before. */
  lemma {:induction false} UpdateWhereIdOutcome(cuentas: seq<Cuenta>, id: int, dto: UpdateCuentaDto)
    ensures var r := UpdateWhereId(cuentas, CuentaKey, id, CuentaBindings(dto), ApplySet);
      && (forall c :: c in cuentas && c.id == id ==> Updated(c, dto) in r)
      && (forall x: Cuenta :: x.id != id ==> (x in r <==> x in cuentas))
  {
    var r := UpdateWhereId(cuentas, CuentaKey, id, CuentaBindings(dto), ApplySet);
    forall i | 0 <= i < |cuentas|
      ensures r[i] == if cuentas[i].id == id then Updated(cuentas[i], dto) else cuentas[i]
    {
      SetListUpdatesGivenFields(cuentas[i], dto, 8);
    }
    forall c | c in cuentas && c.id == id
      ensures Updated(c, dto) in r
    {
      var i :| 0 <= i < |cuentas| && cuentas[i] == c;
      assert r[i] == Updated(c, dto);
    }
    forall x: Cuenta | x.id != id
      ensures x in r <==> x in cuentas
    {
      if x in r {
        var i :| 0 <= i < |r| && r[i] == x;
        assert cuentas[i] == x;
      }
      if x in cuentas {
        var i :| 0 <= i < |cuentas| && cuentas[i] == x;
        assert r[i] == x;
      }
    }
  }

  /** The builder's blocks after `tipo`: moneda, saldo_inicial, color,
      icono, descripcion and activa, each pushed when the request gives it. */
  method PushRemaining(fs: seq<Assignment>, params: seq<SqlValue>, paramIndex: nat, dto: UpdateCuentaDto)
    returns (fs': seq<Assignment>, params': seq<SqlValue>, paramIndex': nat)
    requires Built(fs, params, paramIndex) && InRange(fs, params) && Resolve(fs, params) == PartsUpTo(dto, 2)
    ensures Built(fs', params', paramIndex') && InRange(fs', params')
    ensures Resolve(fs', params') == CuentaBindings(dto)
  {
    fs', params', paramIndex' := PushIfGiven(fs, params, paramIndex, "moneda", TextValue(dto.moneda));
    assert Resolve(fs', params') == PartsUpTo(dto, 3);
    fs', params', paramIndex' := PushIfGiven(fs', params', paramIndex', "saldo_inicial", DecValue(dto.saldoInicial));
    assert Resolve(fs', params') == PartsUpTo(dto, 4);
    fs', params', paramIndex' := PushIfGiven(fs', params', paramIndex', "color", TextValue(dto.color));
    assert Resolve(fs', params') == PartsUpTo(dto, 5);
    fs', params', paramIndex' := PushIfGiven(fs', params', paramIndex', "icono", TextValue(dto.icono));
    assert Resolve(fs', params') == PartsUpTo(dto, 6);
    fs', params', paramIndex' := PushIfGiven(fs', params', paramIndex', "descripcion", TextValue(dto.descripcion));
    assert Resolve(fs', params') == PartsUpTo(dto, 7);
    fs', params', paramIndex' := PushIfGiven(fs', params', paramIndex', "activa", BitValue(dto.activa));
    assert Resolve(fs', params') == PartsUpTo(dto, 8);
  }

  // ---------------------------------------------------------------------
  // The service

  class CuentasService {
    const db: Db

    constructor (db: Db)
      ensures this.db == db
    {
      this.db := db;
    }

    /** `findOne`: the account with its current balance, or NotFound. */
    method FindOne(cuentaId: int, usuarioId: int) returns (r: Result<CuentaView>)
      ensures Lookup(db.cuentas, cuentaId, usuarioId).None? ==> r == Err(NotFound(CuentaNoEncontrada))
      ensures r.Ok? <==> Lookup(db.cuentas, cuentaId, usuarioId).Some?
      ensures r.Ok? ==> r.value.cuenta == Lookup(db.cuentas, cuentaId, usuarioId).value
      ensures r.Ok? ==> r.value.cuenta.id == cuentaId && r.value.cuenta.usuarioId == usuarioId && r.value.cuenta.activa
      ensures r.Ok? ==> (r.value.saldoActual.Some? <==> SaldoActual(r.value.cuenta, db.transacciones) != 0.0)
      ensures r.Ok? && r.value.saldoActual.Some? ==> r.value.saldoActual.value == SaldoActual(r.value.cuenta, db.transacciones)
    {
      var row := Lookup(db.cuentas, cuentaId, usuarioId);
      if row.None? {
        return Err(Rethrow(NotFound(CuentaNoEncontrada), {NotFoundKind}, "Error al obtener cuenta: "));
      }
      return Ok(View(row.value, db.transacciones));
    }

    /** `create`: the type (default BANCARIA), the duplicate-name guard over
        the user's active accounts, then the insert of an active row. */
    method Create(usuarioId: int, dto: CreateCuentaDto) returns (r: Result<Cuenta>)
      modifies db`cuentas, db`nextId
      ensures StringOr(dto.tipo, TipoPorDefecto) !in TiposCuenta ==> r == Err(BadRequest(TipoInvalido))
      ensures StringOr(dto.tipo, TipoPorDefecto) in TiposCuenta && ActiveNamed(old(db.cuentas), usuarioId, dto.nombre) ==>
        r == Err(Conflict(NombreDuplicado))
      ensures r.Err? ==> db.cuentas == old(db.cuentas) && db.nextId == old(db.nextId)
      ensures r.Ok? <==> StringOr(dto.tipo, TipoPorDefecto) in TiposCuenta && !ActiveNamed(old(db.cuentas), usuarioId, dto.nombre)
      ensures r.Ok? ==>
        && r.value == Cuenta(old(db.nextId), usuarioId, dto.nombre, StringOr(dto.tipo, TipoPorDefecto),
                             StringOr(dto.moneda, "COP"), if dto.saldoInicial.Some? then dto.saldoInicial.value else 0.0,
                             StringOrNull(dto.color), StringOrNull(dto.icono), StringOrNull(dto.descripcion), true)
        && db.cuentas == old(db.cuentas) + [r.value] && db.nextId == old(db.nextId) + 1
    {
      var tipoValido := StringOr(dto.tipo, TipoPorDefecto);
      if tipoValido !in TiposCuenta {
        return Err(Rethrow(BadRequest(TipoInvalido), {ConflictKind, BadRequestKind}, "Error al crear cuenta: "));
      }
      if ActiveNamed(db.cuentas, usuarioId, dto.nombre) {
        return Err(Rethrow(Conflict(NombreDuplicado), {ConflictKind, BadRequestKind}, "Error al crear cuenta: "));
      }
      var row := Cuenta(db.nextId, usuarioId, dto.nombre, tipoValido, StringOr(dto.moneda, "COP"),
                        if dto.saldoInicial.Some? then dto.saldoInicial.value else 0.0,
                        StringOrNull(dto.color), StringOrNull(dto.icono), StringOrNull(dto.descripcion), true);
      db.cuentas := db.cuentas + [row];
      db.nextId := db.nextId + 1;
      return Ok(row);
    }

    /** `update`: the existence check, the SET list of the given fields with
        the type check inside it, no statement when nothing is given, else
        `UPDATE ... WHERE id = @paramIndex` with the account id last. */
    method Update(cuentaId: int, usuarioId: int, dto: UpdateCuentaDto) returns (r: Result<CuentaView>, stmt: Option<UpdateStatement>)
      modifies db`cuentas
      ensures var found := Lookup(old(db.cuentas), cuentaId, usuarioId);
        && (found.None? ==> r == Err(NotFound(CuentaNoEncontrada)))
        && (found.Some? && dto.tipo.Some? && dto.tipo.value !in TiposCuenta ==> r == Err(BadRequest(TipoInvalido)))
        && (r.Err? ==> stmt.None? && db.cuentas == old(db.cuentas))
        && (r.Ok? <==> found.Some? && (dto.tipo.None? || dto.tipo.value in TiposCuenta))
      ensures stmt.None? ==> db.cuentas == old(db.cuentas)
      ensures r.Ok? && CuentaBindings(dto) == [] ==> stmt.None?
      ensures r.Ok? && CuentaBindings(dto) == [] ==>
        && r.value.cuenta == Lookup(old(db.cuentas), cuentaId, usuarioId).value
        && (r.value.saldoActual.Some? <==> SaldoActual(r.value.cuenta, db.transacciones) != 0.0)
        && (r.value.saldoActual.Some? ==> r.value.saldoActual.value == SaldoActual(r.value.cuenta, db.transacciones))
      ensures r.Ok? && CuentaBindings(dto) != [] ==> stmt.Some?
      ensures stmt.Some? ==>
        var s := stmt.value;
        && s.whereIndex == |s.params| - 1 && s.params[s.whereIndex] == Int(cuentaId)
        && Built(s.fields, s.params[..s.whereIndex], s.whereIndex)
        && InRange(s.fields, s.params) && Resolve(s.fields, s.params) == CuentaBindings(dto)
        && db.cuentas == UpdateWhereId(old(db.cuentas), CuentaKey, cuentaId, CuentaBindings(dto), ApplySet)
        && (forall c :: c in old(db.cuentas) && c.id == cuentaId ==> Updated(c, dto) in db.cuentas)
        && (forall x: Cuenta :: x.id != cuentaId ==> (x in db.cuentas <==> x in old(db.cuentas)))
        && r == Ok(CuentaView(Updated(Lookup(old(db.cuentas), cuentaId, usuarioId).value, dto), None))
    {
      stmt := None;
      var current := FindOne(cuentaId, usuarioId);
      if current.Err? {
        r := Err(Rethrow(current.error, {NotFoundKind, BadRequestKind}, "Error al actualizar cuenta: "));
        return;
      }
      var fs: seq<Assignment> := [];
      var params: seq<SqlValue> := [];
      var paramIndex: nat := 0;
      fs, params, paramIndex := PushIfGiven(fs, params, paramIndex, "nombre", TextValue(dto.nombre));
      assert Resolve(fs, params) == PartsUpTo(dto, 1);
      if dto.tipo.Some? && dto.tipo.value !in TiposCuenta {
        r := Err(Rethrow(BadRequest(TipoInvalido), {NotFoundKind, BadRequestKind}, "Error al actualizar cuenta: "));
        return;
      }
      fs, params, paramIndex := PushIfGiven(fs, params, paramIndex, "tipo", TextValue(dto.tipo));
      assert Resolve(fs, params) == PartsUpTo(dto, 2);
      fs, params, paramIndex := PushRemaining(fs, params, paramIndex, dto);
      if |fs| == 0 {
        r := FindOne(cuentaId, usuarioId);
        return;
      }
      var built := params;
      params := params + [Int(cuentaId)];
      ResolveExtend(fs, built, [Int(cuentaId)]);
      assert params[..paramIndex] == built;
      stmt := Some(UpdateStatement(fs, params, paramIndex));
      var row := current.value.cuenta;
      UpdateWhereIdOutcome(db.cuentas, cuentaId, dto);
      db.cuentas := UpdateWhereId(db.cuentas, CuentaKey, cuentaId, CuentaBindings(dto), ApplySet);
      SetListUpdatesGivenFields(row, dto, 8);
      r := Ok(CuentaView(ApplySet(row, CuentaBindings(dto)), None));
    }

    /** `remove`: the existence check, then no active transaction may use the
        account, then its current balance must be 0; only then are its rows
        deleted. */
    method Remove(cuentaId: int, usuarioId: int) returns (r: Result<string>)
      modifies db`cuentas
      ensures var found := Lookup(old(db.cuentas), cuentaId, usuarioId);
        var refs := ActiveRefs(db.transacciones, CuentaRef, cuentaId);
        && (found.None? ==> r == Err(NotFound(CuentaNoEncontrada)))
        && (found.Some? && refs > 0 ==> r == Err(Conflict(TieneTransacciones(refs))))
        && (found.Some? && refs == 0 && SaldoActual(found.value, db.transacciones) != 0.0 ==> r == Err(Conflict(TieneSaldo)))
        && (r.Ok? <==> found.Some? && refs == 0 && SaldoActual(found.value, db.transacciones) == 0.0)
      ensures r.Err? ==> db.cuentas == old(db.cuentas)
      ensures r.Ok? ==> r.value == CuentaEliminada && db.cuentas == DeleteWhereId(old(db.cuentas), CuentaKey, cuentaId)
    {
      var current := FindOne(cuentaId, usuarioId);
      if current.Err? {
        return Err(Rethrow(current.error, {NotFoundKind, ConflictKind}, "Error al eliminar cuenta: "));
      }
      var count := ActiveRefs(db.transacciones, CuentaRef, cuentaId);
      if count > 0 {
        return Err(Rethrow(Conflict(TieneTransacciones(count)), {NotFoundKind, ConflictKind}, "Error al eliminar cuenta: "));
      }
      var cuenta := FindOne(cuentaId, usuarioId);
      if cuenta.value.saldoActual.Some? && cuenta.value.saldoActual.value != 0.0 {
        return Err(Rethrow(Conflict(TieneSaldo), {NotFoundKind, ConflictKind}, "Error al eliminar cuenta: "));
      }
      db.cuentas := DeleteWhereId(db.cuentas, CuentaKey, cuentaId);
      return Ok(CuentaEliminada);
    }

    /** `findByType`, with the BadRequest for an unknown type passed on (see
        `FindByTypeAsWritten` for the code as written). */
    method FindByType(usuarioId: int, tipo: string) returns (r: Result<seq<CuentaView>>)
      ensures r == FindByTypeCorrected(db.cuentas, db.transacciones, usuarioId, tipo)
      ensures r.Err? ==> r.error == BadRequest(TipoInvalido)
      ensures r.Ok? ==> forall v :: v in r.value ==>
        v.cuenta.usuarioId == usuarioId && v.cuenta.tipo == tipo && v.cuenta.activa
        && (v.saldoActual.Some? <==> SaldoActual(v.cuenta, db.transacciones) != 0.0)
    {
      if tipo !in TiposCuenta {
        return Err(Rethrow(BadRequest(TipoInvalido), {BadRequestKind}, "Error al obtener cuentas por tipo: "));
      }
      var listed := OfType(db.cuentas, usuarioId, tipo);
      ViewsOfType(db.cuentas, db.transacciones, usuarioId, tipo);
      return Ok(Views(listed, db.transacciones));
    }
  }

  /** Removal succeeds exactly for a found account with no active
      transaction and a zero opening balance: with no active transaction
      the balance guard reads the opening balance. */
  lemma {:induction false} RemoveNeedsZeroOpening(c: Cuenta, txns: seq<Txn>)
    requires ActiveRefs(txns, CuentaRef, c.id) == 0
    ensures SaldoActual(c, txns) == 0.0 <==> c.saldoInicial == 0.0
  {
    SaldoWithoutRefs(c, txns);
  }

  /** A successful `create` keeps every user's active account names distinct,
      and a second `create` with the same name is a Conflict. */
  lemma {:induction false} CreateKeepsNamesUnique(cuentas: seq<Cuenta>, row: Cuenta)
    requires UniqueActiveNames(cuentas) && !ActiveNamed(cuentas, row.usuarioId, row.nombre) && row.activa
    ensures UniqueActiveNames(cuentas + [row])
    ensures ActiveNamed(cuentas + [row], row.usuarioId, row.nombre)
  {
    var t := cuentas + [row];
    assert t[|cuentas|] == row;
    forall i, j | 0 <= i < j < |t| && t[i].activa && t[j].activa && t[i].usuarioId == t[j].usuarioId
      ensures t[i].nombre != t[j].nombre
    {
      if j == |cuentas| {
        assert t[i] == cuentas[i];
      } else {
        assert t[i] == cuentas[i] && t[j] == cuentas[j];
      }
    }
  }

  /** After `remove`, `findOne` no longer finds the account. */
  lemma {:induction false} RemovedNotFound(cuentas: seq<Cuenta>, cuentaId: int, usuarioId: int)
    ensures Lookup(DeleteWhereId(cuentas, CuentaKey, cuentaId), cuentaId, usuarioId).None?
  {
  }
}
