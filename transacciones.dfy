/** The transaction service: the local date-string parser shared by `create`
    and `createTransfer`, their guards, and the parameter list `update` hands
    to `sp_transaccion_update`. The stored procedures themselves are not part
    of this model: each operation returns the call it makes. */
module Transacciones {
  import opened Common
  import opened Calendar
  import opened SqlParams

  const MontoInvalido: string := "El monto debe ser mayor que cero"
  const MismaCuenta: string := "La cuenta de origen y destino no pueden ser la misma"
  const FechaInvalida: string := "La fecha de transacción no es válida"
  const TransaccionNoEncontrada: string := "Transacción no encontrada"

  // ---------------------------------------------------------------------
  // The local date-string parser

  /** The arguments of `new Date(y, mo, d, hh, mm, ss)`: `month0` is the
      two-digit month minus one, as JavaScript numbers months. */
  datatype LocalDateTime = LocalDateTime(year: int, month0: int, day: int, hour: int, minute: int, second: int)

  /** `\d` */
  predicate IsDigit(c: char)
  {
    '0' <= c <= '9'
  }

  function DigitValue(c: char): int
    requires IsDigit(c)
  {
    c as int - '0' as int
  }

  function DigitChar(n: int): (c: char)
    requires 0 <= n < 10
    ensures IsDigit(c) && DigitValue(c) == n
  {
    ('0' as int + n) as char
  }

  /** `\s`: the characters JavaScript regular expressions count as white space. */
  predicate IsRegexSpace(c: char)
  {
    c in {'\t', '\n', '\U{000B}', '\U{000C}', '\r', ' ', '\U{00A0}', '\U{1680}',
          '\U{2028}', '\U{2029}', '\U{202F}', '\U{205F}', '\U{3000}', '\U{FEFF}'}
    || ('\U{2000}' <= c <= '\U{200A}')
  }

  /** The separator `[T\s]` between the date and the time. */
  predicate IsSeparator(c: char)
  {
    c == 'T' || IsRegexSpace(c)
  }

  predicate DigitsAt(s: string, i: nat, n: nat)
  {
    i + n <= |s| && forall k :: i <= k < i + n ==> IsDigit(s[k])
  }

  /** `Number` of the two digits at `i`. */
  function Number2(s: string, i: nat): (v: int)
    requires DigitsAt(s, i, 2)
    ensures 0 <= v <= 99
  {
    10 * DigitValue(s[i]) + DigitValue(s[i + 1])
  }

  /** `Number` of the four digits at `i`. */
  function Number4(s: string, i: nat): (v: int)
    requires DigitsAt(s, i, 4)
    ensures 0 <= v <= 9999
  {
    100 * Number2(s, i) + Number2(s, i + 2)
  }

  /** `YYYY-MM-DD` at the start of `s`. */
  predicate DatePrefix(s: string)
  {
    DigitsAt(s, 0, 4) && |s| >= 10 && s[4] == '-' && DigitsAt(s, 5, 2) && s[7] == '-' && DigitsAt(s, 8, 2)
  }

  /** `(T|\s)HH:mm` after the date. */
  predicate MinutesPart(s: string)
  {
    |s| >= 16 && IsSeparator(s[10]) && DigitsAt(s, 11, 2) && s[13] == ':' && DigitsAt(s, 14, 2)
  }

  /** `:ss` after the minutes. */
  predicate SecondsPart(s: string)
  {
    |s| >= 19 && s[16] == ':' && DigitsAt(s, 17, 2)
  }

  /** `s.match(/^(\d{4})-(\d{2})-(\d{2})(?:[T\s](\d{2}):(\d{2})(?::(\d{2}))?)?$/)`
      with the captured groups converted as the services do; a missing time
      group counts as 0. */
  function MatchLocal(s: string): (m: Option<LocalDateTime>)
    ensures m.Some? ==> |s| in {10, 16, 19}
    ensures m.Some? ==> 0 <= m.value.year <= 9999 && -1 <= m.value.month0 <= 98
    ensures m.Some? ==> 0 <= m.value.day <= 99 && 0 <= m.value.hour <= 99
    ensures m.Some? ==> 0 <= m.value.minute <= 99 && 0 <= m.value.second <= 99
    ensures |s| == 10 && m.Some? ==> m.value.hour == 0 && m.value.minute == 0 && m.value.second == 0
    ensures |s| == 16 && m.Some? ==> m.value.second == 0
  {
    if !DatePrefix(s) then None
    else
      var y := Number4(s, 0);
      var mo := Number2(s, 5) - 1;
      var d := Number2(s, 8);
      if |s| == 10 then Some(LocalDateTime(y, mo, d, 0, 0, 0))
      else if |s| == 16 && MinutesPart(s) then Some(LocalDateTime(y, mo, d, Number2(s, 11), Number2(s, 14), 0))
      else if |s| == 19 && MinutesPart(s) && SecondsPart(s) then
        Some(LocalDateTime(y, mo, d, Number2(s, 11), Number2(s, 14), Number2(s, 17)))
      else None
  }

  /** How much of the time a date string carries. */
  datatype Shape = DateOnly | WithMinutes(sep: char) | WithSeconds(sep: char)

  function Pad2(n: int): (s: string)
    requires 0 <= n <= 99
    ensures |s| == 2 && DigitsAt(s, 0, 2) && Number2(s, 0) == n
  {
    [DigitChar(n / 10), DigitChar(n % 10)]
  }

  function Pad4(n: int): (s: string)
    requires 0 <= n <= 9999
    ensures |s| == 4 && DigitsAt(s, 0, 4) && Number4(s, 0) == n
  {
    var s := Pad2(n / 100) + Pad2(n % 100);
    assert s[..2] == Pad2(n / 100) && s[2..] == Pad2(n % 100);
    s
  }

  /** The fields of `a` fit the two- and four-digit groups of the pattern. */
  predicate Printable(a: LocalDateTime)
  {
    && 0 <= a.year <= 9999 && -1 <= a.month0 <= 98 && 0 <= a.day <= 99
    && 0 <= a.hour <= 99 && 0 <= a.minute <= 99 && 0 <= a.second <= 99
  }

  /** The fields a string of shape `sh` carries: the time parts it omits
      are 0. */
  predicate FitsShape(a: LocalDateTime, sh: Shape)
  {
    match sh
    case DateOnly => a.hour == 0 && a.minute == 0 && a.second == 0
    case WithMinutes(sep) => IsSeparator(sep) && a.second == 0
    case WithSeconds(sep) => IsSeparator(sep)
  }

  /** Writes `a` as `YYYY-MM-DD`, `YYYY-MM-DD<sep>HH:mm` or
      `YYYY-MM-DD<sep>HH:mm:ss`. */
  function FormatLocal(a: LocalDateTime, sh: Shape): (s: string)
    requires Printable(a)
    ensures |s| == (match sh case DateOnly => 10 case WithMinutes(_) => 16 case WithSeconds(_) => 19)
  {
    var date := Pad4(a.year) + "-" + Pad2(a.month0 + 1) + "-" + Pad2(a.day);
    match sh
    case DateOnly => date
    case WithMinutes(sep) => date + [sep] + Pad2(a.hour) + ":" + Pad2(a.minute)
    case WithSeconds(sep) => date + [sep] + Pad2(a.hour) + ":" + Pad2(a.minute) + ":" + Pad2(a.second)
  }

  lemma {:induction false} Number2Slice(s: string, t: string, i: nat)
    requires i + 2 <= |s| && s[i..i + 2] == t && DigitsAt(t, 0, 2)
    ensures DigitsAt(s, i, 2) && Number2(s, i) == Number2(t, 0)
  {
    assert s[i] == t[0] && s[i + 1] == t[1];
  }

  lemma {:induction false} Number4Slice(s: string, t: string, i: nat)
    requires i + 4 <= |s| && s[i..i + 4] == t && DigitsAt(t, 0, 4)
    ensures DigitsAt(s, i, 4) && Number4(s, i) == Number4(t, 0)
  {
    assert s[i] == t[0] && s[i + 1] == t[1] && s[i + 2] == t[2] && s[i + 3] == t[3];
  }

  /** The date part of a formatted string reads back as the year, month and
      day it was written from. */
  lemma {:induction false} FormattedDateParses(a: LocalDateTime, sh: Shape)
    requires Printable(a)
    ensures var s := FormatLocal(a, sh);
      DatePrefix(s) && Number4(s, 0) == a.year && Number2(s, 5) == a.month0 + 1 && Number2(s, 8) == a.day
  {
    var s := FormatLocal(a, sh);
    var date := Pad4(a.year) + "-" + Pad2(a.month0 + 1) + "-" + Pad2(a.day);
    assert s[..10] == date;
    assert s[0..4] == Pad4(a.year) && s[5..7] == Pad2(a.month0 + 1) && s[8..10] == Pad2(a.day);
    Number4Slice(s, Pad4(a.year), 0);
    Number2Slice(s, Pad2(a.month0 + 1), 5);
    Number2Slice(s, Pad2(a.day), 8);
  }

  /** The parser reads back every date string the formatter writes. */
  lemma {:induction false} ParseFormatRoundTrip(a: LocalDateTime, sh: Shape)
    requires Printable(a) && FitsShape(a, sh)
    ensures MatchLocal(FormatLocal(a, sh)) == Some(a)
  {
    var s := FormatLocal(a, sh);
    FormattedDateParses(a, sh);
    match sh {
      case DateOnly =>
      case WithMinutes(sep) =>
        assert s[11..13] == Pad2(a.hour) && s[14..16] == Pad2(a.minute);
        Number2Slice(s, Pad2(a.hour), 11);
        Number2Slice(s, Pad2(a.minute), 14);
      case WithSeconds(sep) =>
        assert s[11..13] == Pad2(a.hour) && s[14..16] == Pad2(a.minute) && s[17..19] == Pad2(a.second);
        Number2Slice(s, Pad2(a.hour), 11);
        Number2Slice(s, Pad2(a.minute), 14);
        Number2Slice(s, Pad2(a.second), 17);
    }
  }

  lemma {:induction false} Pad2OfDigits(s: string, i: nat)
    requires DigitsAt(s, i, 2)
    ensures Pad2(Number2(s, i)) == s[i..i + 2]
  {
    var hi := DigitValue(s[i]);
    var lo := DigitValue(s[i + 1]);
    assert (10 * hi + lo) / 10 == hi && (10 * hi + lo) % 10 == lo;
  }

  lemma {:induction false} Pad4OfDigits(s: string, i: nat)
    requires DigitsAt(s, i, 4)
    ensures Pad4(Number4(s, i)) == s[i..i + 4]
  {
    var hi := Number2(s, i);
    var lo := Number2(s, i + 2);
    assert (100 * hi + lo) / 100 == hi && (100 * hi + lo) % 100 == lo;
    Pad2OfDigits(s, i);
    Pad2OfDigits(s, i + 2);
    assert s[i..i + 4] == s[i..i + 2] + s[i + 2..i + 4];
  }

  /** The date part of an accepted string is the formatted form of the
      year, month and day read from it. */
  lemma {:induction false} DatePrefixFormatted(s: string)
    requires DatePrefix(s)
    ensures Pad4(Number4(s, 0)) + "-" + Pad2(Number2(s, 5)) + "-" + Pad2(Number2(s, 8)) == s[..10]
  {
    Pad4OfDigits(s, 0);
    Pad2OfDigits(s, 5);
    Pad2OfDigits(s, 8);
    assert s[..10] == s[0..4] + "-" + s[5..7] + "-" + s[8..10];
  }

  /** The `HH:mm` of an accepted string is the formatted form of the hour
      and minute read from it. */
  lemma {:induction false} TimeFormatted(s: string)
    requires MinutesPart(s)
    ensures Pad2(Number2(s, 11)) + ":" + Pad2(Number2(s, 14)) == s[11..16]
  {
    Pad2OfDigits(s, 11);
    Pad2OfDigits(s, 14);
    assert s[11..16] == s[11..13] + ":" + s[14..16];
  }

  /** The shape a string of one of the accepted lengths has. */
  function ShapeOf(s: string): Shape
    requires |s| in {10, 16, 19}
  {
    if |s| == 10 then DateOnly
    else if |s| == 16 then WithMinutes(s[10])
    else WithSeconds(s[10])
  }

  /** Every string the parser accepts is the formatted form of what it
      returns, for the shape its length and separator give. */
  lemma {:induction false} MatchedIsFormatted(s: string)
    requires MatchLocal(s).Some?
    ensures var a := MatchLocal(s).value;
      Printable(a) && FitsShape(a, ShapeOf(s)) && FormatLocal(a, ShapeOf(s)) == s
  {
    DatePrefixFormatted(s);
    if |s| == 10 {
      assert s == s[..10];
    } else if |s| == 16 {
      MatchedWithMinutes(s);
    } else {
      MatchedWithSeconds(s);
    }
  }

  lemma {:induction false} MatchedWithMinutes(s: string)
    requires MatchLocal(s).Some? && |s| == 16
    ensures var a := MatchLocal(s).value;
      Printable(a) && FitsShape(a, WithMinutes(s[10])) && FormatLocal(a, WithMinutes(s[10])) == s
  {
    DatePrefixFormatted(s);
    TimeFormatted(s);
    assert s == s[..10] + [s[10]] + s[11..16];
  }

  lemma {:induction false} MatchedWithSeconds(s: string)
    requires MatchLocal(s).Some? && |s| == 19
    ensures var a := MatchLocal(s).value;
      Printable(a) && FitsShape(a, WithSeconds(s[10])) && FormatLocal(a, WithSeconds(s[10])) == s
  {
    DatePrefixFormatted(s);
    TimeFormatted(s);
    Pad2OfDigits(s, 17);
    assert s == s[..10] + [s[10]] + s[11..16] + ":" + s[17..19];
  }

  /** The date a transaction is recorded with: the components of a local
      date string, or an instant (the clock, or what `new Date(str)` made of
      a string the pattern does not cover). */
  datatype Fecha = Components(args: LocalDateTime) | Instant(at: Moment)

  /** The date logic of `create` and `createTransfer`. `now` is the clock;
      `fallback` is what `new Date(str)` yields for `str`, None for an
      invalid date. A string the pattern matches always makes a valid date. */
  function ResolveFecha(fecha: Option<string>, now: Moment, fallback: Option<Moment>): (r: Result<Fecha>)
    ensures fecha.None? || fecha == Some("") ==> r == Ok(Instant(now))
    ensures r.Err? <==> fecha.Some? && fecha.value != "" && MatchLocal(fecha.value).None? && fallback.None?
    ensures r.Err? ==> r.error == BadRequest(FechaInvalida)
    ensures r.Ok? && r.value.Components? ==> fecha.Some? && MatchLocal(fecha.value) == Some(r.value.args)
  {
    if fecha.Some? && fecha.value != "" then
      var m := MatchLocal(fecha.value);
      if m.Some? then Ok(Components(m.value))
      else if fallback.Some? then Ok(Instant(fallback.value))
      else Err(BadRequest(FechaInvalida))
    else Ok(Instant(now))
  }

  // ---------------------------------------------------------------------
  // create and createTransfer

  datatype CreateTransaccionDto = CreateTransaccionDto(
    cuentaId: Option<int>,
    tipoTransaccionId: int,
    categoriaId: Option<int>,
    metodoPagoId: Option<int>,
    monto: real,
    moneda: Option<string>,
    descripcion: Option<string>,
    titulo: Option<string>,
    fechaTransaccion: Option<string>,
    archivoAdjunto: Option<string>,
    notas: Option<string>,
    repetir: Option<bool>)

  /** The arguments `create` passes to `sp_transaccion_create`. */
  datatype CreateCall = CreateCall(
    usuarioId: int,
    cuentaId: Option<int>,
    tipoTransaccionId: int,
    categoriaId: Option<int>,
    metodoPagoId: Option<int>,
    monto: real,
    moneda: string,
    titulo: Option<string>,
    descripcion: Option<string>,
    fecha: Fecha,
    archivoAdjunto: Option<string>,
    notas: Option<string>,
    repetir: int)

  /** `create`: the amount guard, the date, then the stored procedure, whose
      failure (`spError`) is wrapped by the catch block; a BadRequest passes
      through unchanged. */
  function Create(usuarioId: int, dto: CreateTransaccionDto, now: Moment, fallback: Option<Moment>, spError: Option<string>): (r: Result<CreateCall>)
    ensures dto.monto <= 0.0 ==> r == Err(BadRequest(MontoInvalido))
    ensures dto.monto > 0.0 && ResolveFecha(dto.fechaTransaccion, now, fallback).Err? ==> r == Err(BadRequest(FechaInvalida))
    ensures r.Ok? <==> dto.monto > 0.0 && ResolveFecha(dto.fechaTransaccion, now, fallback).Ok? && spError.None?
    ensures r.Err? && spError.Some? && KindOf(r.error) != BadRequestKind ==>
      r.error == Internal("Error al crear transacción: " + spError.value)
    ensures r.Ok? ==>
      && r.value.usuarioId == usuarioId && r.value.monto == dto.monto > 0.0
      && r.value.moneda != "" && (dto.moneda.None? || dto.moneda == Some("") <==> r.value.moneda == "COP" && dto.moneda != Some("COP"))
      && (r.value.repetir == 1 <==> dto.repetir == Some(true)) && (r.value.repetir == 0 <==> dto.repetir != Some(true))
      && r.value.cuentaId != Some(0) && r.value.categoriaId != Some(0) && r.value.metodoPagoId != Some(0)
      && r.value.fecha == ResolveFecha(dto.fechaTransaccion, now, fallback).value
    ensures dto.monto > 0.0 && ResolveFecha(dto.fechaTransaccion, now, fallback).Ok? && spError.Some? ==>
      r == Err(Internal("Error al crear transacción: " + spError.value))
    ensures r.Ok? ==>
      && r.value.cuentaId == IdOrNull(dto.cuentaId)
      && r.value.tipoTransaccionId == dto.tipoTransaccionId
      && r.value.categoriaId == IdOrNull(dto.categoriaId)
      && r.value.metodoPagoId == IdOrNull(dto.metodoPagoId)
      && r.value.moneda == StringOr(dto.moneda, "COP")
      && r.value.titulo == StringOrNull(dto.titulo)
      && r.value.descripcion == StringOrNull(dto.descripcion)
      && r.value.archivoAdjunto == StringOrNull(dto.archivoAdjunto)
      && r.value.notas == StringOrNull(dto.notas)
      && r.value.repetir == BitOf(dto.repetir)
  {
    if dto.monto <= 0.0 then Err(BadRequest(MontoInvalido))
    else
      match ResolveFecha(dto.fechaTransaccion, now, fallback)
      case Err(e) => Err(Rethrow(e, {BadRequestKind}, "Error al crear transacción: "))
      case Ok(fecha) =>
        if spError.Some? then Err(Rethrow(Internal(spError.value), {BadRequestKind}, "Error al crear transacción: "))
        else Ok(CreateCall(
          usuarioId, IdOrNull(dto.cuentaId), dto.tipoTransaccionId, IdOrNull(dto.categoriaId),
          IdOrNull(dto.metodoPagoId), dto.monto, StringOr(dto.moneda, "COP"), StringOrNull(dto.titulo),
          StringOrNull(dto.descripcion), fecha, StringOrNull(dto.archivoAdjunto), StringOrNull(dto.notas),
          BitOf(dto.repetir)))
  }

  /** The arguments `createTransfer` passes to `sp_transaccion_create_transfer`. */
  datatype TransferCall = TransferCall(
    usuarioId: int,
    cuentaOrigenId: int,
    cuentaDestinoId: int,
    monto: real,
    moneda: string,
    titulo: Option<string>,
    descripcion: Option<string>,
    fecha: Fecha,
    notas: Option<string>)

  /** `createTransfer`: the amount guard, then the same-account guard, then
      the date, then the stored procedure. */
  function CreateTransfer(usuarioId: int, cuentaOrigenId: int, cuentaDestinoId: int, monto: real,
                          moneda: Option<string>, titulo: Option<string>, descripcion: Option<string>,
                          fechaTransaccion: Option<string>, notas: Option<string>,
                          now: Moment, fallback: Option<Moment>, spError: Option<string>): (r: Result<TransferCall>)
    ensures monto <= 0.0 ==> r == Err(BadRequest(MontoInvalido))
    ensures monto > 0.0 && cuentaOrigenId == cuentaDestinoId ==> r == Err(BadRequest(MismaCuenta))
    ensures r.Ok? <==>
      monto > 0.0 && cuentaOrigenId != cuentaDestinoId && ResolveFecha(fechaTransaccion, now, fallback).Ok? && spError.None?
    ensures r.Err? && KindOf(r.error) == BadRequestKind ==>
      r.error in {BadRequest(MontoInvalido), BadRequest(MismaCuenta), BadRequest(FechaInvalida)}
    ensures r.Ok? ==>
      && r.value.cuentaOrigenId != r.value.cuentaDestinoId && r.value.monto > 0.0
      && r.value.cuentaOrigenId == cuentaOrigenId && r.value.cuentaDestinoId == cuentaDestinoId
      && r.value.moneda == StringOr(moneda, "COP") && r.value.moneda != ""
    ensures monto > 0.0 && cuentaOrigenId != cuentaDestinoId && ResolveFecha(fechaTransaccion, now, fallback).Err? ==>
      r == Err(BadRequest(FechaInvalida))
    ensures monto > 0.0 && cuentaOrigenId != cuentaDestinoId && ResolveFecha(fechaTransaccion, now, fallback).Ok? && spError.Some? ==>
      r == Err(Internal("Error al crear transferencia: " + spError.value))
    ensures r.Ok? ==>
      && r.value.usuarioId == usuarioId && r.value.monto == monto
      && r.value.fecha == ResolveFecha(fechaTransaccion, now, fallback).value
      && r.value.titulo == StringOrNull(titulo)
      && r.value.descripcion == StringOrNull(descripcion)
      && r.value.notas == StringOrNull(notas)
  {
    if monto <= 0.0 then Err(BadRequest(MontoInvalido))
    else if cuentaOrigenId == cuentaDestinoId then Err(BadRequest(MismaCuenta))
    else
      match ResolveFecha(fechaTransaccion, now, fallback)
      case Err(e) => Err(Rethrow(e, {BadRequestKind}, "Error al crear transferencia: "))
      case Ok(fecha) =>
        if spError.Some? then Err(Rethrow(Internal(spError.value), {BadRequestKind}, "Error al crear transferencia: "))
        else Ok(TransferCall(usuarioId, cuentaOrigenId, cuentaDestinoId, monto, StringOr(moneda, "COP"),
                             StringOrNull(titulo), StringOrNull(descripcion), fecha, StringOrNull(notas)))
  }

  /** A transfer never moves money from an account to itself, and never a
      non-positive amount, whatever else is given. */
  lemma {:induction false} TransferGuards(usuarioId: int, cuenta: int, monto: real,
                                          moneda: Option<string>, titulo: Option<string>, descripcion: Option<string>,
                                          fechaTransaccion: Option<string>, notas: Option<string>,
                                          now: Moment, fallback: Option<Moment>, spError: Option<string>)
    ensures CreateTransfer(usuarioId, cuenta, cuenta, monto, moneda, titulo, descripcion, fechaTransaccion, notas, now, fallback, spError).Err?
    ensures monto <= 0.0 ==>
      (CreateTransfer(usuarioId, cuenta, cuenta + 1, monto, moneda, titulo, descripcion, fechaTransaccion, notas, now, fallback, spError)
        == Err(BadRequest(MontoInvalido)))
  {
  }

  /** Both creation paths accept a date string exactly when the pattern or
      `new Date(str)` does, and record the same date. */
  lemma {:induction false} SameDateHandling(usuarioId: int, dto: CreateTransaccionDto, destino: int, now: Moment, fallback: Option<Moment>)
    requires dto.monto > 0.0 && dto.cuentaId.Some? && dto.cuentaId.value != destino
    ensures var a := Create(usuarioId, dto, now, fallback, None);
      var b := CreateTransfer(usuarioId, dto.cuentaId.value, destino, dto.monto, dto.moneda, dto.titulo,
                              dto.descripcion, dto.fechaTransaccion, dto.notas, now, fallback, None);
      (a.Ok? <==> b.Ok?) && (a.Ok? ==> a.value.fecha == b.value.fecha && a.value.moneda == b.value.moneda)
  {
  }

  // ---------------------------------------------------------------------
  // update

  datatype UpdateTransaccionDto = UpdateTransaccionDto(
    cuentaId: Option<int>,
    tipoTransaccionId: Option<int>,
    categoriaId: Option<int>,
    metodoPagoId: Option<int>,
    monto: Option<real>,
    moneda: Option<string>,
    descripcion: Option<string>,
    titulo: Option<string>,
    fechaTransaccion: Option<string>,
    archivoAdjunto: Option<string>,
    notas: Option<string>,
    repetir: Option<bool>,
    activa: Option<bool>)

  /** The `EXEC sp_transaccion_update` call: `@Id = @idIndex`,
      `@UsuarioId = @userIndex`, then the assignments, with `params`. */
  datatype UpdateCall = UpdateCall(idIndex: nat, userIndex: nat, fields: seq<Assignment>, params: seq<SqlValue>)

  /** What each stored-procedure parameter of the update should receive: the
      field's value when the request gives it, NULL otherwise. `titulo` has
      no entry. */
  function UpdateBindings(dto: UpdateTransaccionDto): seq<Binding>
  {
    ReferenceBindings(dto) + DetailBindings(dto) + FlagBindings(dto)
  }

  /** The account, type, category and payment-method references. */
  function ReferenceBindings(dto: UpdateTransaccionDto): seq<Binding>
  {
    [ ("@CuentaId", IntValue(dto.cuentaId)),
      ("@TipoTransaccionId", IntValue(dto.tipoTransaccionId)),
      ("@CategoriaId", IntValue(dto.categoriaId)),
      ("@MetodoPagoId", IntValue(dto.metodoPagoId)) ]
  }

  /** The amount, currency, description and date. */
  function DetailBindings(dto: UpdateTransaccionDto): seq<Binding>
  {
    [ ("@Monto", DecValue(dto.monto)),
      ("@Moneda", TextValue(dto.moneda)),
      ("@Descripcion", TextValue(dto.descripcion)),
      ("@FechaTransaccion", TextValue(dto.fechaTransaccion)) ]
  }

  /** The attachment, the notes and the two flags. */
  function FlagBindings(dto: UpdateTransaccionDto): seq<Binding>
  {
    [ ("@ArchivoAdjunto", TextValue(dto.archivoAdjunto)),
      ("@Notas", TextValue(dto.notas)),
      ("@Repetir", BitValue(dto.repetir)),
      ("@Activa", BitValue(dto.activa)) ]
  }

  /** One block of the builder: `column = @paramIndex` with the value pushed,
      or `column = NULL` when the request leaves the field out. */
  method PushOrNull(fs: seq<Assignment>, params: seq<SqlValue>, paramIndex: nat, column: string, value: Option<SqlValue>)
    returns (fs': seq<Assignment>, params': seq<SqlValue>, paramIndex': nat)
    requires Built(fs, params, paramIndex)
    ensures Built(fs', params', paramIndex') && InRange(fs', params')
    ensures |fs'| == |fs| + 1 && |params| <= |params'| && params'[..|params|] == params
    ensures InRange(fs, params) && Resolve(fs', params') == Resolve(fs, params) + [(column, value)]
  {
    if value.Some? {
      fs', params', paramIndex' := PushValue(fs, params, paramIndex, column, value.value);
      ResolveExtend(fs, params, [value.value]);
    } else {
      fs' := PushNull(fs, params, paramIndex, column);
      params', paramIndex' := params, paramIndex;
    }
  }

  /** The first four blocks of the builder: the references. */
  method PushReferences(fs: seq<Assignment>, params: seq<SqlValue>, paramIndex: nat, dto: UpdateTransaccionDto)
    returns (fs': seq<Assignment>, params': seq<SqlValue>, paramIndex': nat)
    requires Built(fs, params, paramIndex)
    ensures Built(fs', params', paramIndex') && InRange(fs', params')
    ensures |fs'| == |fs| + 4
    ensures InRange(fs, params) && Resolve(fs', params') == Resolve(fs, params) + ReferenceBindings(dto)
  {
    BuiltInRange(fs, params, paramIndex);
    fs', params', paramIndex' := fs, params, paramIndex;
    fs', params', paramIndex' := PushOrNull(fs', params', paramIndex', "@CuentaId", IntValue(dto.cuentaId));
    fs', params', paramIndex' := PushOrNull(fs', params', paramIndex', "@TipoTransaccionId", IntValue(dto.tipoTransaccionId));
    fs', params', paramIndex' := PushOrNull(fs', params', paramIndex', "@CategoriaId", IntValue(dto.categoriaId));
    fs', params', paramIndex' := PushOrNull(fs', params', paramIndex', "@MetodoPagoId", IntValue(dto.metodoPagoId));
  }

  /** Blocks five to eight: amount, currency, description and date. */
  method PushDetails(fs: seq<Assignment>, params: seq<SqlValue>, paramIndex: nat, dto: UpdateTransaccionDto)
    returns (fs': seq<Assignment>, params': seq<SqlValue>, paramIndex': nat)
    requires Built(fs, params, paramIndex)
    ensures Built(fs', params', paramIndex') && InRange(fs', params')
    ensures |fs'| == |fs| + 4
    ensures InRange(fs, params) && Resolve(fs', params') == Resolve(fs, params) + DetailBindings(dto)
  {
    BuiltInRange(fs, params, paramIndex);
    fs', params', paramIndex' := fs, params, paramIndex;
    fs', params', paramIndex' := PushOrNull(fs', params', paramIndex', "@Monto", DecValue(dto.monto));
    fs', params', paramIndex' := PushOrNull(fs', params', paramIndex', "@Moneda", TextValue(dto.moneda));
    fs', params', paramIndex' := PushOrNull(fs', params', paramIndex', "@Descripcion", TextValue(dto.descripcion));
    fs', params', paramIndex' := PushOrNull(fs', params', paramIndex', "@FechaTransaccion", TextValue(dto.fechaTransaccion));
  }

  /** The last four blocks: attachment, notes and the two flags. */
  method PushFlags(fs: seq<Assignment>, params: seq<SqlValue>, paramIndex: nat, dto: UpdateTransaccionDto)
    returns (fs': seq<Assignment>, params': seq<SqlValue>, paramIndex': nat)
    requires Built(fs, params, paramIndex)
    ensures Built(fs', params', paramIndex') && InRange(fs', params')
    ensures |fs'| == |fs| + 4
    ensures InRange(fs, params) && Resolve(fs', params') == Resolve(fs, params) + FlagBindings(dto)
  {
    BuiltInRange(fs, params, paramIndex);
    fs', params', paramIndex' := fs, params, paramIndex;
    fs', params', paramIndex' := PushOrNull(fs', params', paramIndex', "@ArchivoAdjunto", TextValue(dto.archivoAdjunto));
    fs', params', paramIndex' := PushOrNull(fs', params', paramIndex', "@Notas", TextValue(dto.notas));
    fs', params', paramIndex' := PushOrNull(fs', params', paramIndex', "@Repetir", BitValue(dto.repetir));
    fs', params', paramIndex' := PushOrNull(fs', params', paramIndex', "@Activa", BitValue(dto.activa));
  }

  /** The twelve blocks of the builder, in order. */
  method BuildAssignments(dto: UpdateTransaccionDto) returns (fs: seq<Assignment>, params: seq<SqlValue>, paramIndex: nat)
    ensures Built(fs, params, paramIndex) && InRange(fs, params)
    ensures |fs| == 12 && Resolve(fs, params) == UpdateBindings(dto)
  {
    fs, params, paramIndex := [], [], 0;
    fs, params, paramIndex := PushReferences(fs, params, paramIndex, dto);
    fs, params, paramIndex := PushDetails(fs, params, paramIndex, dto);
    fs, params, paramIndex := PushFlags(fs, params, paramIndex, dto);
  }

  /** `update`: the existence check (`found` is whether `findOne` returned the
      transaction), the twelve assignments, the id and the user after them,
      then the stored procedure. */
  method Update(transaccionId: int, usuarioId: int, dto: UpdateTransaccionDto, found: bool, spError: Option<string>)
    returns (r: Result<UpdateCall>)
    ensures !found ==> r == Err(NotFound(TransaccionNoEncontrada))
    ensures found && spError.Some? ==> r == Err(Internal("Error al actualizar transacción: " + spError.value))
    ensures r.Ok? <==> found && spError.None?
    ensures r.Ok? ==>
      var c := r.value;
      && |c.fields| == 12 && c.idIndex == CountBound(c.fields) && c.userIndex == c.idIndex + 1
      && |c.params| == c.idIndex + 2
      && c.params[c.idIndex] == Int(transaccionId) && c.params[c.userIndex] == Int(usuarioId)
      && Built(c.fields, c.params[..c.idIndex], c.idIndex)
      && InRange(c.fields, c.params) && Resolve(c.fields, c.params) == UpdateBindings(dto)
  {
    if !found {
      return Err(Rethrow(NotFound(TransaccionNoEncontrada), {NotFoundKind, BadRequestKind}, "Error al actualizar transacción: "));
    }
    var fs, params, paramIndex := BuildAssignments(dto);
    var built := params;
    params := params + [Int(transaccionId), Int(usuarioId)];
    ResolveExtend(fs, built, [Int(transaccionId), Int(usuarioId)]);
    assert params[..paramIndex] == built;
    if spError.Some? {
      return Err(Rethrow(Internal(spError.value), {NotFoundKind, BadRequestKind}, "Error al actualizar transacción: "));
    }
    return Ok(UpdateCall(paramIndex, paramIndex + 1, fs, params));
  }

  /** The update never touches the title: two requests that differ only in
      `titulo` bind the same values. */
  lemma {:induction false} UpdateIgnoresTitulo(dto: UpdateTransaccionDto, titulo: Option<string>)
    ensures UpdateBindings(dto.(titulo := titulo)) == UpdateBindings(dto)
    ensures forall i :: 0 <= i < |UpdateBindings(dto)| ==> UpdateBindings(dto)[i].0 != "@Titulo"
  {
  }
}
