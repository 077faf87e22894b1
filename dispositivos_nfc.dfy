/** Registration of the NFC devices a user pays from: `registerOrGet` returns
    the user's row for a device identifier, inserting one the first time. */
module DispositivosNfc {
  import opened Common
  import opened Calendar
  import opened Store

  /** The request body; `modelo` is accepted and never stored. */
  datatype RegisterDispositivoDto = RegisterDispositivoDto(
    nombre: string,
    tipoDispositivo: string,
    identificadorUnico: string,
    modelo: Option<string>)

  /** `identificador_unico = @0 AND usuario_id = @1` */
  predicate Matches(d: Dispositivo, identificador: string, usuarioId: int)
  {
    d.identificadorUnico == identificador && d.usuarioId == usuarioId
  }

  /** `SELECT TOP 1 * ... WHERE identificador_unico = @0 AND usuario_id = @1`,
      with no ORDER BY: taken here as the first matching row of the table. */
  function FirstMatch(rows: seq<Dispositivo>, identificador: string, usuarioId: int): (r: Option<Dispositivo>)
    ensures r.None? <==> forall x :: x in rows ==> !Matches(x, identificador, usuarioId)
    ensures r.Some? ==> r.value in rows && Matches(r.value, identificador, usuarioId)
  {
    if rows == [] then None
    else if Matches(rows[0], identificador, usuarioId) then Some(rows[0])
    else FirstMatch(rows[1..], identificador, usuarioId)
  }

  /** `SELECT TOP 1 id ... WHERE identificador_unico = @0 AND usuario_id <> @1`
      returned a row. */
  predicate ExistsForOther(rows: seq<Dispositivo>, identificador: string, usuarioId: int)
  {
    exists i :: 0 <= i < |rows| && rows[i].identificadorUnico == identificador && rows[i].usuarioId != usuarioId
  }

  /** The same query `ORDER BY fecha_registro DESC`: a matching row no other
      matching row is newer than (the earliest in the table among equals). */
  function Newest(rows: seq<Dispositivo>, identificador: string, usuarioId: int): (r: Option<Dispositivo>)
    ensures r.None? <==> forall x :: x in rows ==> !Matches(x, identificador, usuarioId)
    ensures r.Some? ==> r.value in rows && Matches(r.value, identificador, usuarioId)
    ensures r.Some? ==> forall x :: x in rows && Matches(x, identificador, usuarioId) ==> !MomentLt(r.value.fechaRegistro, x.fechaRegistro)
  {
    if rows == [] then None
    else
      var init := rows[..|rows| - 1];
      var last := rows[|rows| - 1];
      assert forall x :: x in rows <==> x in init || x == last;
      var rest := Newest(init, identificador, usuarioId);
      if !Matches(last, identificador, usuarioId) then rest
      else if rest.None? then Some(last)
      else if MomentLt(rest.value.fechaRegistro, last.fechaRegistro) then Some(last)
      else rest
  }

  /** Appending a row to the table changes the first match only if there was
      none and the new row matches. */
  lemma {:induction false} FirstMatchAppend(rows: seq<Dispositivo>, d: Dispositivo, identificador: string, usuarioId: int)
    ensures FirstMatch(rows + [d], identificador, usuarioId)
      == if FirstMatch(rows, identificador, usuarioId).Some? then FirstMatch(rows, identificador, usuarioId)
         else if Matches(d, identificador, usuarioId) then Some(d)
         else None
  {
    if rows == [] {
      assert [] + [d] == [d];
    } else {
      assert (rows + [d])[1..] == rows[1..] + [d];
      FirstMatchAppend(rows[1..], d, identificador, usuarioId);
    }
  }

  /** With no earlier row for the user and identifier, the re-read after the
      insert returns exactly the inserted row. */
  lemma {:induction false} NewestAfterInsert(rows: seq<Dispositivo>, d: Dispositivo, identificador: string, usuarioId: int)
    requires FirstMatch(rows, identificador, usuarioId).None?
    requires Matches(d, identificador, usuarioId)
    ensures Newest(rows + [d], identificador, usuarioId) == Some(d)
  {
    assert (rows + [d])[..|rows|] == rows;
  }

  /** The row `registerOrGet` returns: the existing one, or the inserted one. */
  function Registered(rows: seq<Dispositivo>, nextId: int, usuarioId: int, dto: RegisterDispositivoDto, now: Moment): (d: Dispositivo)
    ensures Matches(d, dto.identificadorUnico, usuarioId)
    ensures FirstMatch(rows, dto.identificadorUnico, usuarioId).Some? ==> d in rows
    ensures FirstMatch(rows, dto.identificadorUnico, usuarioId).None? ==>
      && d.id == nextId && d.activo && d.fechaRegistro == now
      && d.nombre == dto.nombre && d.tipoDispositivo == dto.tipoDispositivo
  {
    var found := FirstMatch(rows, dto.identificadorUnico, usuarioId);
    if found.Some? then found.value
    else Dispositivo(nextId, usuarioId, dto.nombre, dto.tipoDispositivo, dto.identificadorUnico, true, now)
  }

  class DispositivosNfcService {
    const db: Db

    constructor (db: Db)
      ensures this.db == db
    {
      this.db := db;
    }

    /** `registerOrGet`: the user's existing row for the identifier, or a new
        active row registered at `now`. A row of another user with the same
        identifier is looked up and does not stop the insert. */
    method RegisterOrGet(usuarioId: int, dto: RegisterDispositivoDto, now: Moment) returns (d: Dispositivo)
      modifies db`dispositivosNfc, db`nextId
      ensures d == Registered(old(db.dispositivosNfc), old(db.nextId), usuarioId, dto, now)
      ensures FirstMatch(old(db.dispositivosNfc), dto.identificadorUnico, usuarioId).Some? ==>
        db.dispositivosNfc == old(db.dispositivosNfc) && db.nextId == old(db.nextId)
      ensures FirstMatch(old(db.dispositivosNfc), dto.identificadorUnico, usuarioId).None? ==>
        db.dispositivosNfc == old(db.dispositivosNfc) + [d] && db.nextId == old(db.nextId) + 1
      ensures d.usuarioId == usuarioId && d.identificadorUnico == dto.identificadorUnico
      ensures FirstMatch(db.dispositivosNfc, dto.identificadorUnico, usuarioId) == Some(d)
    {
      var found := FirstMatch(db.dispositivosNfc, dto.identificadorUnico, usuarioId);
      if found.Some? {
        return found.value;
      }
      var existsForOther := ExistsForOther(db.dispositivosNfc, dto.identificadorUnico, usuarioId);
      var row := Dispositivo(db.nextId, usuarioId, dto.nombre, dto.tipoDispositivo, dto.identificadorUnico, true, now);
      var before := db.dispositivosNfc;
      db.dispositivosNfc := db.dispositivosNfc + [row];
      db.nextId := db.nextId + 1;
      NewestAfterInsert(before, row, dto.identificadorUnico, usuarioId);
      FirstMatchAppend(before, row, dto.identificadorUnico, usuarioId);
      var inserted := Newest(db.dispositivosNfc, dto.identificadorUnico, usuarioId);
      return inserted.value;
    }
  }

  /** Registering the same identifier again for the same user returns the
      same row and inserts nothing, whatever the name, type or time given. */
  lemma RegisterIdempotent(rows: seq<Dispositivo>, nextId: int, usuarioId: int, dto: RegisterDispositivoDto, now: Moment,
                           dto2: RegisterDispositivoDto, now2: Moment)
    requires dto2.identificadorUnico == dto.identificadorUnico
    ensures var d := Registered(rows, nextId, usuarioId, dto, now);
      var after := if FirstMatch(rows, dto.identificadorUnico, usuarioId).Some? then rows else rows + [d];
      && FirstMatch(after, dto.identificadorUnico, usuarioId).Some?
      && Registered(after, nextId + 1, usuarioId, dto2, now2) == d
  {
    var d := Registered(rows, nextId, usuarioId, dto, now);
    FirstMatchAppend(rows, d, dto.identificadorUnico, usuarioId);
  }

  /** A row of another user, or for another identifier, never makes
      `registerOrGet` return it: it is not the user's row for the identifier. */
  lemma {:induction false} OtherUsersDoNotBlock(rows: seq<Dispositivo>, other: Dispositivo, identificador: string, usuarioId: int)
    requires other.usuarioId != usuarioId
    ensures FirstMatch(rows + [other], identificador, usuarioId) == FirstMatch(rows, identificador, usuarioId)
  {
    FirstMatchAppend(rows, other, identificador, usuarioId);
  }

  /** Two users who register the same identifier each get a row of their own. */
  lemma TwoUsersTwoRows(dto: RegisterDispositivoDto, now: Moment, u1: int, u2: int)
    requires u1 != u2
    ensures var d1 := Registered([], 1, u1, dto, now);
      var d2 := Registered([d1], 2, u2, dto, now);
      d1.usuarioId == u1 && d2.usuarioId == u2 && d1.id == 1 && d2.id == 2 && d2.activo
  {
    var d1 := Registered([], 1, u1, dto, now);
    assert FirstMatch([d1], dto.identificadorUnico, u2) == FirstMatch([d1][1..], dto.identificadorUnico, u2);
  }
}
