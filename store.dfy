/** The rows of the tables the core reads and writes, and the database as an
    object holding those tables. Stored procedures whose bodies are not part
    of this model are not represented here. */
module Store {
  import opened Common
  import opened Calendar

  /** A row of `pagos_recurrentes`. `frecuencia` is kept as the stored text, so
      that an unknown value can be represented. `diaVencimiento` and
      `diaSemana` are NULL-able columns. */
  datatype Rule = Rule(
    id: int,
    usuarioId: int,
    cuentaId: Option<int>,
    categoriaId: Option<int>,
    monto: real,
    frecuencia: string,
    diaVencimiento: Option<nat>,
    diaSemana: Option<nat>,
    fechaInicio: Date,
    fechaFin: Option<Date>,
    activo: bool)

  /** A row of `transacciones`, with its type given by the name of its
      `tipos_transaccion` row. */
  datatype Txn = Txn(
    usuarioId: int,
    cuentaId: Option<int>,
    categoriaId: Option<int>,
    tipo: string,
    monto: real,
    fecha: Moment,
    repetir: bool,
    activa: bool)

  /** A row of `cuentas`. */
  datatype Cuenta = Cuenta(
    id: int,
    usuarioId: int,
    nombre: string,
    tipo: string,
    moneda: string,
    saldoInicial: real,
    color: Option<string>,
    icono: Option<string>,
    descripcion: Option<string>,
    activa: bool)

  /** A row of `categorias`; `usuarioId` is NULL for a system category. */
  datatype Categoria = Categoria(
    id: int,
    usuarioId: Option<int>,
    nombre: string,
    icono: Option<string>,
    color: Option<string>,
    tipo: string,
    activo: bool)

  /** A row of `dispositivos_nfc`. */
  datatype Dispositivo = Dispositivo(
    id: int,
    usuarioId: int,
    nombre: string,
    tipoDispositivo: string,
    identificadorUnico: string,
    activo: bool,
    fechaRegistro: Moment)

  /** The key columns the services' queries filter on. */
  function CuentaKey(c: Cuenta): int { c.id }
  function CategoriaKey(c: Categoria): int { c.id }
  function CuentaRef(t: Txn): Option<int> { t.cuentaId }
  function CategoriaRef(t: Txn): Option<int> { t.categoriaId }

  /** `SELECT COUNT(*) FROM transacciones WHERE <ref> = @0 AND activa = 1`:
      the active transactions, of any user, whose reference `ref` is `id`. */
  function ActiveRefs(txns: seq<Txn>, ref: Txn -> Option<int>, id: int): (n: nat)
    ensures n <= |txns|
    ensures n == 0 <==> forall t :: t in txns ==> !(ref(t) == Some(id) && t.activa)
  {
    if txns == [] then 0
    else
      var last := txns[|txns| - 1];
      assert forall t :: t in txns <==> t in txns[..|txns| - 1] || t == last;
      ActiveRefs(txns[..|txns| - 1], ref, id) + (if ref(last) == Some(id) && last.activa then 1 else 0)
  }

  /** The database connection every service shares. Every table's identity
      column draws from `nextId`. */
  class Db {
    var pagosRecurrentes: seq<Rule>
    var transacciones: seq<Txn>
    var cuentas: seq<Cuenta>
    var categorias: seq<Categoria>
    var dispositivosNfc: seq<Dispositivo>
    var nextId: int

    constructor ()
      ensures pagosRecurrentes == [] && transacciones == [] && cuentas == []
      ensures categorias == [] && dispositivosNfc == [] && nextId == 1
    {
      pagosRecurrentes, transacciones, cuentas := [], [], [];
      categorias, dispositivosNfc, nextId := [], [], 1;
    }
  }
}
