/** The participation service: signs a player up for a match, withdraws and
    reactivates them, and moves them between teams. Each operation checks the
    request's own fields, then the match (it must exist and not be finished),
    then the player or the participation, and writes only after all checks
    passed, so a failing request changes nothing. */
module ParticipacionService {
  import opened Common
  import opened ParticipacionEntity
  import PE = PartidoEntity
  import JE = JugadorEntity
  import opened Store

  const JugadorIdObligatorio := BadRequest("jugadorId es obligatorio")
  const EquipoInvalido := BadRequest("Equipo inválido")
  const PartidoNoEncontrado := NotFound("Partido no encontrado")
  const JugadorNoEncontrado := NotFound("Jugador no encontrado")
  const ParticipacionNoEncontrada := NotFound("Participacion no encontrada")
  const YaAnotado := Conflict("Jugador ya anotado en el partido")
  const ErrorPartidoFinalizado := BadRequest(PE.Mensaje(PE.PartidoFinalizado))

  /** `validarEquipo`: only A and B are teams. */
  function ValidarEquipo(equipo: Field<string>): (r: Result<Equipo>)
    ensures r.Ok? <==> equipo == Value("A") || equipo == Value("B")
    ensures r.Ok? ==> equipo == Value(EquipoTexto(r.value))
    ensures r.Err? ==> r.failure == EquipoInvalido
  {
    if equipo == Value("A") then Ok(A)
    else if equipo == Value("B") then Ok(B)
    else Err(EquipoInvalido)
  }

  /** Every team, sent in its wire spelling, is accepted as itself. */
  lemma ValidarEquipoInverso(e: Equipo)
    ensures ValidarEquipo(Value(EquipoTexto(e))) == Ok(e)
  {
  }

  /** The response body: the row's fields with its identifier. */
  datatype ParticipacionVista = ParticipacionVista(
    id: int,
    jugadorId: int,
    partidoId: int,
    equipo: Equipo,
    estado: EstadoParticipacion,
    anotadoAt: Timestamp,
    bajaAt: Option<Timestamp>,
    comentarios: Option<string>)

  /** `toResponse`: `bajaAt` is null in the response exactly when it is null
      in the entity, so a coherent row gives a response in which it is null
      exactly when the player is present. */
  function ToResponse(id: int, row: ParticipacionRow): (v: ParticipacionVista)
    ensures v.id == id && v.jugadorId == row.jugadorId && v.partidoId == row.partidoId
    ensures v.bajaAt.None? <==> row.datos.bajaAt.None?
    ensures Coherente(row.datos) ==> (v.bajaAt.None? <==> v.estado == Presente)
  {
    var d := row.datos;
    ParticipacionVista(id, row.jugadorId, row.partidoId, d.equipo, d.estado, d.anotadoAt, d.bajaAt, d.comentarios)
  }

  /** The service's `validarNoFinalizado`: the entity's check, its error
      turned into a BadRequest. */
  method ValidarNoFinalizado(partido: PE.Partido) returns (err: Option<Failure>)
    ensures err.Some? <==> partido.estado == PE.Finalizado
    ensures err.Some? ==> err.value == ErrorPartidoFinalizado
  {
    var falla := partido.ValidarNoFinalizado();
    if falla.Some? {
      return Some(BadRequest(PE.Mensaje(falla.value)));
    }
    return None;
  }

  /** The guards of `anotar`, in the order it runs them: the first that
      fails, or None when the participation is created. */
  function ErrorDeAnotar(partidos: map<int, PE.PartidoDatos>, jugadores: map<int, JE.JugadorDatos>,
                         participaciones: map<int, ParticipacionRow>,
                         partidoId: int, jugadorId: Field<int>, equipo: Field<string>): (r: Option<Failure>)
    // the request's own fields come before any lookup: BadRequest wins over NotFound
    ensures ValidarEquipo(equipo).Err? ==> r == Some(EquipoInvalido)
    ensures ValidarEquipo(equipo).Ok? && !TruthyNumber(jugadorId) ==> r == Some(JugadorIdObligatorio)
    // then the match, its state and the player, in that order
    ensures ValidarEquipo(equipo).Ok? && TruthyNumber(jugadorId) ==>
              && (partidoId !in partidos ==> r == Some(PartidoNoEncontrado))
              && ((partidoId in partidos && partidos[partidoId].estado == PE.Finalizado)
                    ==> r == Some(ErrorPartidoFinalizado))
              && ((partidoId in partidos && partidos[partidoId].estado != PE.Finalizado && jugadorId.v !in jugadores)
                    ==> r == Some(JugadorNoEncontrado))
    // a cancelled match and an inactive player are accepted; a finished match is not
    ensures r.None? <==> && ValidarEquipo(equipo).Ok? && TruthyNumber(jugadorId)
                         && partidoId in partidos && partidos[partidoId].estado != PE.Finalizado
                         && jugadorId.v in jugadores
                         && !Anotado(participaciones, partidoId, jugadorId.v)
    // a second sign-up of the same pair is a conflict, whatever else holds
    ensures r == Some(YaAnotado) <==> && ValidarEquipo(equipo).Ok? && TruthyNumber(jugadorId)
                                      && partidoId in partidos && partidos[partidoId].estado != PE.Finalizado
                                      && jugadorId.v in jugadores
                                      && Anotado(participaciones, partidoId, jugadorId.v)
  {
    if ValidarEquipo(equipo).Err? then Some(EquipoInvalido)
    else if !TruthyNumber(jugadorId) then Some(JugadorIdObligatorio)
    else if partidoId !in partidos then Some(PartidoNoEncontrado)
    else if partidos[partidoId].estado == PE.Finalizado then Some(ErrorPartidoFinalizado)
    else if jugadorId.v !in jugadores then Some(JugadorNoEncontrado)
    else if Anotado(participaciones, partidoId, jugadorId.v) then Some(YaAnotado)
    else None
  }

  /** The lookups of `baja`, `reactivar` and `cambiarEquipo` once the request's
      own fields passed, in order: the first that fails. */
  function ErrorDeModificar(partidos: map<int, PE.PartidoDatos>, participaciones: map<int, ParticipacionRow>,
                            partidoId: int, jugadorId: int): (r: Option<Failure>)
    ensures r.None? <==> && partidoId in partidos && partidos[partidoId].estado != PE.Finalizado
                         && Anotado(participaciones, partidoId, jugadorId)
    ensures partidoId !in partidos ==> r == Some(PartidoNoEncontrado)
    ensures partidoId in partidos && partidos[partidoId].estado == PE.Finalizado ==> r == Some(ErrorPartidoFinalizado)
    ensures (partidoId in partidos && partidos[partidoId].estado != PE.Finalizado
               && !Anotado(participaciones, partidoId, jugadorId)) ==> r == Some(ParticipacionNoEncontrada)
  {
    if partidoId !in partidos then Some(PartidoNoEncontrado)
    else if partidos[partidoId].estado == PE.Finalizado then Some(ErrorPartidoFinalizado)
    else if !Anotado(participaciones, partidoId, jugadorId) then Some(ParticipacionNoEncontrada)
    else None
  }

  /** The participation of `jugadorId` in `partidoId` went through the
      mutator `op` and was saved; every other row is as it was. */
  ghost predicate Modificada(antes: map<int, ParticipacionRow>, despues: map<int, ParticipacionRow>,
                             partidoId: int, jugadorId: int, op: Operacion, r: Result<ParticipacionVista>)
  {
    exists id :: id in antes && EsDe(antes[id], partidoId, jugadorId) &&
      var row := antes[id].(datos := Aplicar(antes[id].datos, op));
      despues == antes[id := row] && r == Ok(ToResponse(id, row))
  }

  /** `anotar` is not idempotent: once it succeeded, the same request, or
      the same player sent again to either team, is a conflict. */
  lemma AnotarNoIdempotente(partidos: map<int, PE.PartidoDatos>, jugadores: map<int, JE.JugadorDatos>,
                            antes: map<int, ParticipacionRow>, partidoId: int, jugadorId: Field<int>,
                            equipo: Field<string>, comentarios: Field<string>, now: Timestamp,
                            id: int, otroEquipo: Field<string>)
    requires ErrorDeAnotar(partidos, jugadores, antes, partidoId, jugadorId, equipo).None?
    requires ValidarEquipo(otroEquipo).Ok?
    ensures var row := ParticipacionRow(jugadorId.v, partidoId, Nueva(ValidarEquipo(equipo).value, comentarios, now));
            ErrorDeAnotar(partidos, jugadores, antes[id := row], partidoId, jugadorId, otroEquipo) == Some(YaAnotado)
  {
    var row := ParticipacionRow(jugadorId.v, partidoId, Nueva(ValidarEquipo(equipo).value, comentarios, now));
    assert EsDe(antes[id := row][id], partidoId, jugadorId.v);
  }

  method Anotar(db: Db, partidoId: int, jugadorId: Field<int>, equipo: Field<string>,
                comentarios: Field<string>, now: Timestamp)
    returns (r: Result<ParticipacionVista>)
    requires db.Valid()
    modifies db`participaciones, db`nextParticipacionId
    ensures db.Valid()
    ensures r.Err? ==> unchanged(db)
    ensures match ErrorDeAnotar(old(db.partidos), old(db.jugadores), old(db.participaciones), partidoId, jugadorId, equipo)
            case Some(f) => r == Err(f)
            case None =>
              var id := old(db.nextParticipacionId);
              var row := ParticipacionRow(jugadorId.v, partidoId, Nueva(ValidarEquipo(equipo).value, comentarios, now));
              && id !in old(db.participaciones)
              && db.participaciones == old(db.participaciones)[id := row]
              && r == Ok(ToResponse(id, row))
    ensures r.Ok? ==> Anotado(db.participaciones, partidoId, jugadorId.v)
  {
    var e := ValidarEquipo(equipo);
    if e.Err? {
      return Err(e.failure);
    }
    if !TruthyNumber(jugadorId) {
      return Err(JugadorIdObligatorio);
    }
    if partidoId !in db.partidos {
      return Err(PartidoNoEncontrado);
    }
    var partido := new PE.Partido(Some(partidoId), db.partidos[partidoId]);
    var err := ValidarNoFinalizado(partido);
    if err.Some? {
      return Err(err.value);
    }
    if jugadorId.v !in db.jugadores {
      return Err(JugadorNoEncontrado);
    }
    var existente := db.FindByPartidoYJugador(partidoId, jugadorId.v);
    if existente.Some? {
      return Err(YaAnotado);
    }
    var participacion := new Participacion.Crear(jugadorId.v, partidoId, e.value, comentarios, now);
    var row := ParticipacionRow(participacion.jugadorId, participacion.partidoId, participacion.Datos());
    var id := db.InsertParticipacion(row);
    r := Ok(ToResponse(id, row));
    assert EsDe(db.participaciones[id], partidoId, jugadorId.v);
  }

  /** Loads the participation of `jugadorId` in `partidoId` after the match
      checks, or reports the first lookup that fails. */
  method Cargar(db: Db, partidoId: int, jugadorId: int) returns (r: Result<Participacion>)
    requires db.Valid()
    ensures r.Err? ==> ErrorDeModificar(db.partidos, db.participaciones, partidoId, jugadorId) == Some(r.failure)
    ensures r.Ok? ==> && ErrorDeModificar(db.partidos, db.participaciones, partidoId, jugadorId).None?
                      && fresh(r.value)
                      && r.value.id.Some? && r.value.id.value in db.participaciones
                      && EsDe(db.participaciones[r.value.id.value], partidoId, jugadorId)
                      && r.value.partidoId == partidoId && r.value.jugadorId == jugadorId
                      && r.value.Datos() == db.participaciones[r.value.id.value].datos
  {
    if partidoId !in db.partidos {
      return Err(PartidoNoEncontrado);
    }
    var partido := new PE.Partido(Some(partidoId), db.partidos[partidoId]);
    var err := ValidarNoFinalizado(partido);
    if err.Some? {
      return Err(err.value);
    }
    var encontrada := db.FindByPartidoYJugador(partidoId, jugadorId);
    if encontrada.None? {
      return Err(ParticipacionNoEncontrada);
    }
    var id := encontrada.value;
    var row := db.participaciones[id];
    var participacion := new Participacion(Some(id), row.jugadorId, row.partidoId, row.datos);
    r := Ok(participacion);
  }

  /** Saves a loaded participation after a mutator and builds the response. */
  method Guardar(db: Db, participacion: Participacion, ghost op: Operacion, ghost antes: ParticipacionDatos)
    returns (r: Result<ParticipacionVista>)
    requires db.Valid()
    requires participacion.id.Some? && participacion.id.value in db.participaciones
    requires db.participaciones[participacion.id.value].datos == antes
    requires participacion.Datos() == Aplicar(antes, op)
    modifies db`participaciones
    ensures db.Valid()
    ensures var id := participacion.id.value;
            var row := old(db.participaciones)[id].(datos := participacion.Datos());
            db.participaciones == old(db.participaciones)[id := row] && r == Ok(ToResponse(id, row))
  {
    var id := participacion.id.value;
    db.UpdateParticipacion(id, participacion.Datos());
    r := Ok(ToResponse(id, db.participaciones[id]));
  }

  method Baja(db: Db, partidoId: int, jugadorId: Field<int>, comentarios: Field<string>, now: Timestamp)
    returns (r: Result<ParticipacionVista>)
    requires db.Valid()
    modifies db`participaciones
    ensures db.Valid()
    ensures r.Err? ==> unchanged(db)
    ensures !TruthyNumber(jugadorId) ==> r == Err(JugadorIdObligatorio)
    ensures TruthyNumber(jugadorId) ==>
              match ErrorDeModificar(old(db.partidos), old(db.participaciones), partidoId, jugadorId.v)
              case Some(f) => r == Err(f)
              case None => Modificada(old(db.participaciones), db.participaciones, partidoId, jugadorId.v,
                                      Operacion.DarBaja(comentarios, now), r)
  {
    if !TruthyNumber(jugadorId) {
      return Err(JugadorIdObligatorio);
    }
    var cargada := Cargar(db, partidoId, jugadorId.v);
    if cargada.Err? {
      return Err(cargada.failure);
    }
    var participacion := cargada.value;
    ghost var antes := participacion.Datos();
    participacion.DarBaja(comentarios, now);
    r := Guardar(db, participacion, Operacion.DarBaja(comentarios, now), antes);
  }

  method Reactivar(db: Db, partidoId: int, jugadorId: Field<int>, comentarios: Field<string>)
    returns (r: Result<ParticipacionVista>)
    requires db.Valid()
    modifies db`participaciones
    ensures db.Valid()
    ensures r.Err? ==> unchanged(db)
    ensures !TruthyNumber(jugadorId) ==> r == Err(JugadorIdObligatorio)
    ensures TruthyNumber(jugadorId) ==>
              match ErrorDeModificar(old(db.partidos), old(db.participaciones), partidoId, jugadorId.v)
              case Some(f) => r == Err(f)
              case None => Modificada(old(db.participaciones), db.participaciones, partidoId, jugadorId.v,
                                      Operacion.Reactivar(comentarios), r)
  {
    if !TruthyNumber(jugadorId) {
      return Err(JugadorIdObligatorio);
    }
    var cargada := Cargar(db, partidoId, jugadorId.v);
    if cargada.Err? {
      return Err(cargada.failure);
    }
    var participacion := cargada.value;
    ghost var antes := participacion.Datos();
    participacion.Reactivar(comentarios);
    r := Guardar(db, participacion, Operacion.Reactivar(comentarios), antes);
  }

  method CambiarEquipo(db: Db, partidoId: int, jugadorId: Field<int>, equipo: Field<string>)
    returns (r: Result<ParticipacionVista>)
    requires db.Valid()
    modifies db`participaciones
    ensures db.Valid()
    ensures r.Err? ==> unchanged(db)
    // here the player id is checked before the team, unlike in anotar
    ensures !TruthyNumber(jugadorId) ==> r == Err(JugadorIdObligatorio)
    ensures TruthyNumber(jugadorId) && ValidarEquipo(equipo).Err? ==> r == Err(EquipoInvalido)
    ensures TruthyNumber(jugadorId) && ValidarEquipo(equipo).Ok? ==>
              match ErrorDeModificar(old(db.partidos), old(db.participaciones), partidoId, jugadorId.v)
              case Some(f) => r == Err(f)
              case None => Modificada(old(db.participaciones), db.participaciones, partidoId, jugadorId.v,
                                      Operacion.CambiarEquipo(ValidarEquipo(equipo).value), r)
  {
    if !TruthyNumber(jugadorId) {
      return Err(JugadorIdObligatorio);
    }
    var e := ValidarEquipo(equipo);
    if e.Err? {
      return Err(e.failure);
    }
    var cargada := Cargar(db, partidoId, jugadorId.v);
    if cargada.Err? {
      return Err(cargada.failure);
    }
    var participacion := cargada.value;
    ghost var antes := participacion.Datos();
    participacion.CambiarEquipo(e.value);
    r := Guardar(db, participacion, Operacion.CambiarEquipo(e.value), antes);
  }
}
