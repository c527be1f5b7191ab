/** The match service: validates a request, loads the match, runs one entity
    mutator on it and saves it. A failing request leaves the store as it was,
    because the row is written only after the mutator succeeded. */
module PartidoService {
  import opened Common
  import opened Texto
  import opened PartidoEntity
  import opened Store

  const PartidoNoEncontrado := NotFound("Partido no encontrado")
  const NoHayDatos := BadRequest("No hay datos para actualizar")
  const FechaObligatoria := BadRequest("fechaHora es obligatoria")
  const FechaInvalida := BadRequest("fechaHora inválida")
  const GanadorInvalido := BadRequest("Ganador inválido")

  /** A string field that was sent with a value, as an optional argument. */
  function Suministrado(f: Field<string>): Option<string>
  {
    if f.Value? then Some(f.v) else None
  }

  /** `parseFecha`. `interpretar` stands for JavaScript's `new Date(valor)`,
      giving `None` where that yields an invalid date. */
  function ParseFecha(valor: Field<string>, interpretar: string -> Option<Timestamp>): (r: Result<Timestamp>)
    ensures r.Ok? <==> TruthyString(valor) && interpretar(valor.v).Some?
    ensures r.Ok? ==> interpretar(valor.v) == Some(r.value)
    ensures !TruthyString(valor) ==> r == Err(FechaObligatoria)
    ensures TruthyString(valor) && interpretar(valor.v).None? ==> r == Err(FechaInvalida)
  {
    if !TruthyString(valor) then Err(FechaObligatoria)
    else
      match interpretar(valor.v)
      case None => Err(FechaInvalida)
      case Some(t) => Ok(t)
  }

  /** `validarGanador`: only A, B and EMPATE are accepted. */
  function ValidarGanador(valor: Field<string>): (r: Result<Ganador>)
    ensures r.Ok? <==> valor.Value? && (valor.v == "A" || valor.v == "B" || valor.v == "EMPATE")
    ensures r.Ok? ==> r.value != Pendiente && GanadorTexto(r.value) == valor.v
    ensures r.Err? ==> r.failure == GanadorInvalido
  {
    if valor == Value("A") then Ok(A)
    else if valor == Value("B") then Ok(B)
    else if valor == Value("EMPATE") then Ok(Empate)
    else Err(GanadorInvalido)
  }

  /** Every decided winner, sent in its wire spelling, is accepted as itself. */
  lemma ValidarGanadorInverso(g: Ganador)
    requires g != Pendiente
    ensures ValidarGanador(Value(GanadorTexto(g))) == Ok(g)
  {
  }

  /** The checks `create` runs on its body, in order: the new match, or the
      first error. */
  function SolicitudCreate(fechaHora: Field<string>, cancha: Field<string>, equipoANombre: Field<string>,
                           equipoBNombre: Field<string>, interpretar: string -> Option<Timestamp>): (r: Result<PartidoDatos>)
    ensures r.Ok? <==> && TextoValido(cancha) && TextoValido(equipoANombre) && TextoValido(equipoBNombre)
                       && ParseFecha(fechaHora, interpretar).Ok?
    ensures !TextoValido(cancha) ==> r == Err(CampoObligatorio("cancha"))
    ensures TextoValido(cancha) && !TextoValido(equipoANombre) ==> r == Err(CampoObligatorio("equipoANombre"))
    ensures (TextoValido(cancha) && TextoValido(equipoANombre) && !TextoValido(equipoBNombre))
              ==> r == Err(CampoObligatorio("equipoBNombre"))
    ensures (TextoValido(cancha) && TextoValido(equipoANombre) && TextoValido(equipoBNombre)
               && ParseFecha(fechaHora, interpretar).Err?)
              ==> r == Err(ParseFecha(fechaHora, interpretar).failure)
    ensures r.Ok? ==> && r.value.estado == Programado && r.value.ganador == Pendiente
                      && GanadorCoherente(r.value)
                      && Some(r.value.fechaHora) == interpretar(fechaHora.v)
                      && r.value.cancha == cancha.v
                      && r.value.equipoANombre == equipoANombre.v
                      && r.value.equipoBNombre == equipoBNombre.v
  {
    if !TextoValido(cancha) then Err(CampoObligatorio("cancha"))
    else if !TextoValido(equipoANombre) then Err(CampoObligatorio("equipoANombre"))
    else if !TextoValido(equipoBNombre) then Err(CampoObligatorio("equipoBNombre"))
    else
      match ParseFecha(fechaHora, interpretar)
      case Err(f) => Err(f)
      case Ok(t) => Ok(PartidoDatos(t, cancha.v, Programado, Pendiente, equipoANombre.v, equipoBNombre.v))
  }

  /** An update body with none of the four fields. */
  predicate SinCampos(fechaHora: Field<string>, cancha: Field<string>, equipoANombre: Field<string>, equipoBNombre: Field<string>)
  {
    fechaHora.Undefined? && cancha.Undefined? && equipoANombre.Undefined? && equipoBNombre.Undefined?
  }

  /** The checks `update` runs on its body once the match is found, in order:
      the `actualizarDetalles` call they lead to, or the first error. */
  function SolicitudUpdate(fechaHora: Field<string>, cancha: Field<string>, equipoANombre: Field<string>,
                           equipoBNombre: Field<string>, interpretar: string -> Option<Timestamp>): (r: Result<Operacion>)
    // at least one field must be sent; a null or empty one counts as sent
    ensures SinCampos(fechaHora, cancha, equipoANombre, equipoBNombre) ==> r == Err(NoHayDatos)
    // every text field that is sent must pass validarTexto, and a truthy date must parse
    ensures r.Ok? <==> && !SinCampos(fechaHora, cancha, equipoANombre, equipoBNombre)
                       && (cancha.Undefined? || TextoValido(cancha))
                       && (equipoANombre.Undefined? || TextoValido(equipoANombre))
                       && (equipoBNombre.Undefined? || TextoValido(equipoBNombre))
                       && (TruthyString(fechaHora) ==> interpretar(fechaHora.v).Some?)
    ensures r.Err? ==> r.failure.BadRequest?
    // the sent text fields are checked in order, and the date only after them
    ensures (!cancha.Undefined? && !TextoValido(cancha)) ==> r == Err(CampoObligatorio("cancha"))
    ensures ((cancha.Undefined? || TextoValido(cancha)) && !equipoANombre.Undefined? && !TextoValido(equipoANombre))
              ==> r == Err(CampoObligatorio("equipoANombre"))
    ensures ((cancha.Undefined? || TextoValido(cancha)) && (equipoANombre.Undefined? || TextoValido(equipoANombre))
               && !equipoBNombre.Undefined? && !TextoValido(equipoBNombre))
              ==> r == Err(CampoObligatorio("equipoBNombre"))
    ensures ((cancha.Undefined? || TextoValido(cancha)) && (equipoANombre.Undefined? || TextoValido(equipoANombre))
               && (equipoBNombre.Undefined? || TextoValido(equipoBNombre))
               && TruthyString(fechaHora) && interpretar(fechaHora.v).None?)
              ==> r == Err(FechaInvalida)
    // the sent text fields are passed on; the date only when it is truthy
    ensures r.Ok? ==> && r.value.ActualizarDetalles?
                      && r.value.nuevaCancha == Suministrado(cancha)
                      && r.value.nuevoEquipoA == Suministrado(equipoANombre)
                      && r.value.nuevoEquipoB == Suministrado(equipoBNombre)
                      && r.value.nuevaFecha == (if TruthyString(fechaHora) then interpretar(fechaHora.v) else None)
  {
    if SinCampos(fechaHora, cancha, equipoANombre, equipoBNombre) then Err(NoHayDatos)
    else if !cancha.Undefined? && !TextoValido(cancha) then Err(CampoObligatorio("cancha"))
    else if !equipoANombre.Undefined? && !TextoValido(equipoANombre) then Err(CampoObligatorio("equipoANombre"))
    else if !equipoBNombre.Undefined? && !TextoValido(equipoBNombre) then Err(CampoObligatorio("equipoBNombre"))
    else if !TruthyString(fechaHora) then
      Ok(ActualizarDetalles(None, Suministrado(cancha), Suministrado(equipoANombre), Suministrado(equipoBNombre)))
    else
      match ParseFecha(fechaHora, interpretar)
      case Err(f) => Err(f)
      case Ok(t) => Ok(ActualizarDetalles(Some(t), Suministrado(cancha), Suministrado(equipoANombre), Suministrado(equipoBNombre)))
  }

  /** Running the mutator `op` on match `id` of `antes` and saving it gave
      `despues` and the response `r`; a mutator that throws becomes a
      BadRequest with its message and saves nothing. */
  ghost predicate Guardado(antes: map<int, PartidoDatos>, despues: map<int, PartidoDatos>, id: int,
                           op: Operacion, r: Result<Stored<PartidoDatos>>)
    requires id in antes
  {
    match Aplicar(antes[id], op)
    case Aplicada(e) => r == Ok(Stored(id, e)) && despues == antes[id := e]
    case Rechazada(f) => r == Err(BadRequest(Mensaje(f))) && despues == antes
  }

  method Create(db: Db, fechaHora: Field<string>, cancha: Field<string>, equipoANombre: Field<string>,
                equipoBNombre: Field<string>, interpretar: string -> Option<Timestamp>)
    returns (r: Result<Stored<PartidoDatos>>)
    requires db.Valid()
    modifies db`partidos, db`nextPartidoId
    ensures db.Valid()
    ensures r.Err? ==> unchanged(db)
    ensures match SolicitudCreate(fechaHora, cancha, equipoANombre, equipoBNombre, interpretar)
            case Err(f) => r == Err(f)
            case Ok(d) => && r == Ok(Stored(old(db.nextPartidoId), d))
                          && old(db.nextPartidoId) !in old(db.partidos)
                          && db.partidos == old(db.partidos)[old(db.nextPartidoId) := d]
  {
    var err := ValidarTexto(cancha, "cancha");
    if err.Some? {
      return Err(err.value);
    }
    err := ValidarTexto(equipoANombre, "equipoANombre");
    if err.Some? {
      return Err(err.value);
    }
    err := ValidarTexto(equipoBNombre, "equipoBNombre");
    if err.Some? {
      return Err(err.value);
    }
    var fecha := ParseFecha(fechaHora, interpretar);
    if fecha.Err? {
      return Err(fecha.failure);
    }
    var partido := new Partido.Crear(fecha.value, cancha.v, equipoANombre.v, equipoBNombre.v);
    var id := db.InsertPartido(partido.Datos());
    r := Ok(Stored(id, partido.Datos()));
  }

  method FindOne(db: Db, id: int) returns (r: Result<Stored<PartidoDatos>>)
    ensures r.Ok? <==> id in db.partidos
    ensures r.Ok? ==> r.value == Stored(id, db.partidos[id])
    ensures r.Err? ==> r.failure == PartidoNoEncontrado
  {
    if id !in db.partidos {
      return Err(PartidoNoEncontrado);
    }
    r := Ok(Stored(id, db.partidos[id]));
  }

  method Update(db: Db, id: int, fechaHora: Field<string>, cancha: Field<string>, equipoANombre: Field<string>,
                equipoBNombre: Field<string>, interpretar: string -> Option<Timestamp>)
    returns (r: Result<Stored<PartidoDatos>>)
    requires db.Valid()
    modifies db`partidos
    ensures db.Valid()
    ensures r.Err? ==> unchanged(db)
    // existence first, then the body, and only then the entity's finished-match guard
    ensures id !in old(db.partidos) ==> r == Err(PartidoNoEncontrado)
    ensures id in old(db.partidos) ==>
              match SolicitudUpdate(fechaHora, cancha, equipoANombre, equipoBNombre, interpretar)
              case Err(f) => r == Err(f)
              case Ok(op) => Guardado(old(db.partidos), db.partidos, id, op, r)
  {
    if id !in db.partidos {
      return Err(PartidoNoEncontrado);
    }
    var partido := new Partido(Some(id), db.partidos[id]);
    var solicitud := SolicitudUpdate(fechaHora, cancha, equipoANombre, equipoBNombre, interpretar);
    if solicitud.Err? {
      return Err(solicitud.failure);
    }
    var op := solicitud.value;
    var falla := partido.ActualizarDetalles(op.nuevaFecha, op.nuevaCancha, op.nuevoEquipoA, op.nuevoEquipoB);
    if falla.Some? {
      return Err(BadRequest(Mensaje(falla.value)));
    }
    db.UpdatePartido(id, partido.Datos());
    r := Ok(Stored(id, partido.Datos()));
  }

  method Iniciar(db: Db, id: int) returns (r: Result<Stored<PartidoDatos>>)
    requires db.Valid()
    modifies db`partidos
    ensures db.Valid()
    ensures r.Err? ==> unchanged(db)
    ensures id !in old(db.partidos) ==> r == Err(PartidoNoEncontrado)
    ensures id in old(db.partidos) ==> Guardado(old(db.partidos), db.partidos, id, Operacion.Iniciar, r)
  {
    if id !in db.partidos {
      return Err(PartidoNoEncontrado);
    }
    var partido := new Partido(Some(id), db.partidos[id]);
    var falla := partido.Iniciar();
    if falla.Some? {
      return Err(BadRequest(Mensaje(falla.value)));
    }
    db.UpdatePartido(id, partido.Datos());
    r := Ok(Stored(id, partido.Datos()));
  }

  method Finalizar(db: Db, id: int, ganador: Field<string>) returns (r: Result<Stored<PartidoDatos>>)
    requires db.Valid()
    modifies db`partidos
    ensures db.Valid()
    ensures r.Err? ==> unchanged(db)
    // existence first, then the winner, then the entity's own guards
    ensures id !in old(db.partidos) ==> r == Err(PartidoNoEncontrado)
    ensures id in old(db.partidos) ==>
              match ValidarGanador(ganador)
              case Err(f) => r == Err(f)
              case Ok(g) => Guardado(old(db.partidos), db.partidos, id, Operacion.Finalizar(g), r)
  {
    if id !in db.partidos {
      return Err(PartidoNoEncontrado);
    }
    var partido := new Partido(Some(id), db.partidos[id]);
    var g := ValidarGanador(ganador);
    if g.Err? {
      return Err(g.failure);
    }
    var falla := partido.Finalizar(g.value);
    if falla.Some? {
      return Err(BadRequest(Mensaje(falla.value)));
    }
    db.UpdatePartido(id, partido.Datos());
    r := Ok(Stored(id, partido.Datos()));
  }

  method Cancelar(db: Db, id: int) returns (r: Result<Stored<PartidoDatos>>)
    requires db.Valid()
    modifies db`partidos
    ensures db.Valid()
    ensures r.Err? ==> unchanged(db)
    ensures id !in old(db.partidos) ==> r == Err(PartidoNoEncontrado)
    ensures id in old(db.partidos) ==> Guardado(old(db.partidos), db.partidos, id, Operacion.Cancelar, r)
  {
    if id !in db.partidos {
      return Err(PartidoNoEncontrado);
    }
    var partido := new Partido(Some(id), db.partidos[id]);
    var falla := partido.Cancelar();
    if falla.Some? {
      return Err(BadRequest(Mensaje(falla.value)));
    }
    db.UpdatePartido(id, partido.Datos());
    r := Ok(Stored(id, partido.Datos()));
  }
}
