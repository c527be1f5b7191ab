/** The player service: creates players, renames them and deactivates them.
    Players are never deleted; `remove` clears the active flag. */
module JugadorService {
  import opened Common
  import opened Texto
  import opened JugadorEntity
  import opened Store

  const JugadorNoEncontrado := NotFound("Jugador no encontrado")
  const NoHayDatos := BadRequest("No hay datos para actualizar")

  /** The checks `create` runs on its body, in order: the new player, or the
      first error. */
  function SolicitudCreate(nombre: Field<string>, apellido: Field<string>): (r: Result<JugadorDatos>)
    ensures r.Ok? <==> TextoValido(nombre) && TextoValido(apellido)
    ensures !TextoValido(nombre) ==> r == Err(CampoObligatorio("nombre"))
    ensures TextoValido(nombre) && !TextoValido(apellido) ==> r == Err(CampoObligatorio("apellido"))
    // a new player is active and carries the names exactly as sent
    ensures r.Ok? ==> r.value == JugadorDatos(nombre.v, apellido.v, true)
  {
    if !TextoValido(nombre) then Err(CampoObligatorio("nombre"))
    else if !TextoValido(apellido) then Err(CampoObligatorio("apellido"))
    else Ok(JugadorDatos(nombre.v, apellido.v, true))
  }

  /** The checks `update` runs on its body once the player is found, in
      order: the `actualizarDatos` call they lead to, or the first error. */
  function SolicitudUpdate(nombre: Field<string>, apellido: Field<string>): (r: Result<Operacion>)
    // at least one field must be sent; a null one counts as sent and is rejected
    ensures nombre.Undefined? && apellido.Undefined? ==> r == Err(NoHayDatos)
    ensures r.Ok? <==> && !(nombre.Undefined? && apellido.Undefined?)
                       && (nombre.Undefined? || TextoValido(nombre))
                       && (apellido.Undefined? || TextoValido(apellido))
    ensures (!nombre.Undefined? && !TextoValido(nombre)) ==> r == Err(CampoObligatorio("nombre"))
    ensures ((nombre.Undefined? || TextoValido(nombre)) && !apellido.Undefined? && !TextoValido(apellido))
              ==> r == Err(CampoObligatorio("apellido"))
    ensures r.Err? ==> r.failure.BadRequest?
    // only the fields sent are overwritten, and the call never touches the flag
    ensures r.Ok? ==> && r.value.ActualizarDatos?
                      && r.value.nuevoNombre == (if nombre.Value? then Some(nombre.v) else None)
                      && r.value.nuevoApellido == (if apellido.Value? then Some(apellido.v) else None)
  {
    if nombre.Undefined? && apellido.Undefined? then Err(NoHayDatos)
    else if !nombre.Undefined? && !TextoValido(nombre) then Err(CampoObligatorio("nombre"))
    else if !apellido.Undefined? && !TextoValido(apellido) then Err(CampoObligatorio("apellido"))
    else
      Ok(ActualizarDatos(if nombre.Value? then Some(nombre.v) else None,
                         if apellido.Value? then Some(apellido.v) else None))
  }

  method Create(db: Db, nombre: Field<string>, apellido: Field<string>) returns (r: Result<Stored<JugadorDatos>>)
    requires db.Valid()
    modifies db`jugadores, db`nextJugadorId
    ensures db.Valid()
    ensures r.Err? ==> unchanged(db)
    ensures match SolicitudCreate(nombre, apellido)
            case Err(f) => r == Err(f)
            case Ok(d) => && r == Ok(Stored(old(db.nextJugadorId), d))
                          && old(db.nextJugadorId) !in old(db.jugadores)
                          && db.jugadores == old(db.jugadores)[old(db.nextJugadorId) := d]
  {
    var err := ValidarTexto(nombre, "nombre");
    if err.Some? {
      return Err(err.value);
    }
    err := ValidarTexto(apellido, "apellido");
    if err.Some? {
      return Err(err.value);
    }
    var jugador := new Jugador.Crear(nombre.v, apellido.v);
    var id := db.InsertJugador(jugador.Datos());
    r := Ok(Stored(id, jugador.Datos()));
  }

  method FindOne(db: Db, id: int) returns (r: Result<Stored<JugadorDatos>>)
    ensures r.Ok? <==> id in db.jugadores
    ensures r.Ok? ==> r.value == Stored(id, db.jugadores[id])
    ensures r.Err? ==> r.failure == JugadorNoEncontrado
  {
    if id !in db.jugadores {
      return Err(JugadorNoEncontrado);
    }
    r := Ok(Stored(id, db.jugadores[id]));
  }

  method Update(db: Db, id: int, nombre: Field<string>, apellido: Field<string>) returns (r: Result<Stored<JugadorDatos>>)
    requires db.Valid()
    modifies db`jugadores
    ensures db.Valid()
    ensures r.Err? ==> unchanged(db)
    // existence first, then the body
    ensures id !in old(db.jugadores) ==> r == Err(JugadorNoEncontrado)
    ensures id in old(db.jugadores) ==>
              match SolicitudUpdate(nombre, apellido)
              case Err(f) => r == Err(f)
              case Ok(op) => && var e := Aplicar(old(db.jugadores)[id], op);
                             && e.activo == old(db.jugadores)[id].activo
                             && db.jugadores == old(db.jugadores)[id := e]
                             && r == Ok(Stored(id, e))
  {
    if id !in db.jugadores {
      return Err(JugadorNoEncontrado);
    }
    var jugador := new Jugador(Some(id), db.jugadores[id]);
    var solicitud := SolicitudUpdate(nombre, apellido);
    if solicitud.Err? {
      return Err(solicitud.failure);
    }
    jugador.ActualizarDatos(solicitud.value.nuevoNombre, solicitud.value.nuevoApellido);
    db.UpdateJugador(id, jugador.Datos());
    r := Ok(Stored(id, jugador.Datos()));
  }

  /** `remove` goes straight to the repository's deactivation; the row it
      gets back is what the entity's `desactivar` would have produced. */
  method Remove(db: Db, id: int) returns (r: Result<Stored<JugadorDatos>>)
    requires db.Valid()
    modifies db`jugadores
    ensures db.Valid()
    ensures r.Err? ==> unchanged(db)
    ensures id !in old(db.jugadores) ==> r == Err(JugadorNoEncontrado)
    ensures id in old(db.jugadores) ==>
              && var e := Aplicar(old(db.jugadores)[id], Desactivar);
              && !e.activo
              && db.jugadores == old(db.jugadores)[id := e]
              && r == Ok(Stored(id, e))
  {
    var fila := db.DeactivateJugador(id);
    if fila.None? {
      return Err(JugadorNoEncontrado);
    }
    r := Ok(Stored(id, fila.value));
  }
}
