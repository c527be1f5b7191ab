/** A player's participation in one match: the team, PRESENTE or BAJA, when
    the player signed up, when they withdrew (null unless withdrawn), and a
    free-text comment. */
module ParticipacionEntity {
  import opened Common

  datatype Equipo = A | B

  /** The wire spelling of a team. */
  function EquipoTexto(e: Equipo): string
  {
    match e
    case A => "A"
    case B => "B"
  }

  datatype EstadoParticipacion = Presente | Baja

  /** The mutable fields of a participation, as persisted in its row. */
  datatype ParticipacionDatos = ParticipacionDatos(
    equipo: Equipo,
    estado: EstadoParticipacion,
    anotadoAt: Timestamp,
    bajaAt: Option<Timestamp>,
    comentarios: Option<string>)

  /** The withdrawal time is set exactly when the player has withdrawn. */
  predicate Coherente(d: ParticipacionDatos)
  {
    d.bajaAt.Some? <==> d.estado == Baja
  }

  /** `comentarios ?? null`: a comment that was left out or sent as null is null. */
  function ComentarioONull(c: Field<string>): Option<string>
  {
    match c
    case Value(s) => Some(s)
    case _ => None
  }

  /** The comment after `darBaja` or `reactivar`: it is overwritten only when
      an argument was supplied, and a supplied null clears it. */
  function ComentarioTras(actual: Option<string>, c: Field<string>): Option<string>
  {
    if c.Undefined? then actual else ComentarioONull(c)
  }

  /** The fields `Participacion.crear` gives a new participation. */
  function Nueva(equipo: Equipo, comentarios: Field<string>, now: Timestamp): (r: ParticipacionDatos)
    ensures Coherente(r) && r.estado == Presente && r.bajaAt == None
    ensures r.equipo == equipo && r.anotadoAt == now
    ensures r.comentarios.Some? <==> comentarios.Value?
    ensures comentarios.Value? ==> r.comentarios == Some(comentarios.v)
  {
    ParticipacionDatos(equipo, Presente, now, None, ComentarioONull(comentarios))
  }

  /** The three mutators, with their arguments; `now` is the `new Date()`
      that `darBaja` reads. */
  datatype Operacion =
    | DarBaja(comentarioBaja: Field<string>, now: Timestamp)
    | Reactivar(comentarioAlta: Field<string>)
    | CambiarEquipo(nuevoEquipo: Equipo)

  /** The effect of one mutator; none of them can fail. */
  function Aplicar(d: ParticipacionDatos, op: Operacion): (r: ParticipacionDatos)
    // darBaja and reactivar establish the status/timestamp coupling, cambiarEquipo keeps it
    ensures !op.CambiarEquipo? ==> Coherente(r)
    ensures Coherente(d) ==> Coherente(r)
    ensures op.DarBaja? ==> r.estado == Baja && r.bajaAt == Some(op.now)
    ensures op.Reactivar? ==> r.estado == Presente && r.bajaAt == None
    // the sign-up time never changes, the team only through cambiarEquipo
    ensures r.anotadoAt == d.anotadoAt
    ensures r.equipo == (if op.CambiarEquipo? then op.nuevoEquipo else d.equipo)
    // cambiarEquipo touches nothing but the team
    ensures op.CambiarEquipo? ==> r == d.(equipo := op.nuevoEquipo)
    // the comment is overwritten only when an argument is supplied; null clears it
    ensures op.DarBaja? ==>
              r.comentarios == if op.comentarioBaja.Undefined? then d.comentarios
                               else ComentarioONull(op.comentarioBaja)
    ensures op.Reactivar? ==>
              r.comentarios == if op.comentarioAlta.Undefined? then d.comentarios
                               else ComentarioONull(op.comentarioAlta)
  {
    match op
    case DarBaja(c, now) =>
      d.(estado := Baja, bajaAt := Some(now), comentarios := ComentarioTras(d.comentarios, c))
    case Reactivar(c) =>
      d.(estado := Presente, bajaAt := None, comentarios := ComentarioTras(d.comentarios, c))
    case CambiarEquipo(e) =>
      d.(equipo := e)
  }

  /** The state after a sequence of mutator calls. */
  function Ejecutar(d: ParticipacionDatos, ops: seq<Operacion>): ParticipacionDatos
    decreases |ops|
  {
    if ops == [] then d else Ejecutar(Aplicar(d, ops[0]), ops[1..])
  }

  /** The status/timestamp coupling, once established, survives any sequence
      of calls. */
  lemma {:induction false} CoherenciaPreservada(d: ParticipacionDatos, ops: seq<Operacion>)
    requires Coherente(d)
    ensures Coherente(Ejecutar(d, ops))
    decreases |ops|
  {
    if ops != [] {
      CoherenciaPreservada(Aplicar(d, ops[0]), ops[1..]);
    }
  }

  /** Withdrawing and reactivating, however often, never move a player to the
      other team: only cambiarEquipo does. */
  lemma {:induction false} EquipoSoloPorCambiarEquipo(d: ParticipacionDatos, ops: seq<Operacion>)
    requires forall i :: 0 <= i < |ops| ==> !ops[i].CambiarEquipo?
    ensures Ejecutar(d, ops).equipo == d.equipo
    ensures Ejecutar(d, ops).anotadoAt == d.anotadoAt
    decreases |ops|
  {
    if ops != [] {
      EquipoSoloPorCambiarEquipo(Aplicar(d, ops[0]), ops[1..]);
    }
  }

  /** `reactivar` twice with the same argument is `reactivar` once. */
  lemma ReactivarIdempotente(d: ParticipacionDatos, c: Field<string>)
    ensures Aplicar(Aplicar(d, Reactivar(c)), Reactivar(c)) == Aplicar(d, Reactivar(c))
  {
  }

  /** A participation as the entity holds it: the identifier and the two
      references are read-only, the other fields are reassigned by the
      mutators. */
  class Participacion {
    const id: Option<int>
    const jugadorId: int
    const partidoId: int
    var equipo: Equipo
    var estado: EstadoParticipacion
    var anotadoAt: Timestamp
    var bajaAt: Option<Timestamp>
    var comentarios: Option<string>

    function Datos(): ParticipacionDatos
      reads this
    {
      ParticipacionDatos(equipo, estado, anotadoAt, bajaAt, comentarios)
    }

    /** Rebuilds a stored participation, as the repository does with a row. */
    constructor (id: Option<int>, jugadorId: int, partidoId: int, d: ParticipacionDatos)
      ensures this.id == id && this.jugadorId == jugadorId && this.partidoId == partidoId
      ensures Datos() == d
    {
      this.id, this.jugadorId, this.partidoId := id, jugadorId, partidoId;
      equipo, estado, anotadoAt, bajaAt, comentarios := d.equipo, d.estado, d.anotadoAt, d.bajaAt, d.comentarios;
    }

    /** `Participacion.crear`, with `now` for the `new Date()` it reads. */
    constructor Crear(jugadorId: int, partidoId: int, equipo: Equipo, comentarios: Field<string>, now: Timestamp)
      ensures id == None && this.jugadorId == jugadorId && this.partidoId == partidoId
      ensures Datos() == Nueva(equipo, comentarios, now)
    {
      id := None;
      this.jugadorId, this.partidoId, this.equipo := jugadorId, partidoId, equipo;
      estado, anotadoAt, bajaAt := Presente, now, None;
      this.comentarios := ComentarioONull(comentarios);
    }

    method DarBaja(c: Field<string>, now: Timestamp)
      modifies this
      ensures Datos() == Aplicar(old(Datos()), Operacion.DarBaja(c, now))
    {
      estado := Baja;
      bajaAt := Some(now);
      if !c.Undefined? {
        comentarios := ComentarioONull(c);
      }
    }

    method Reactivar(c: Field<string>)
      modifies this
      ensures Datos() == Aplicar(old(Datos()), Operacion.Reactivar(c))
    {
      estado := Presente;
      bajaAt := None;
      if !c.Undefined? {
        comentarios := ComentarioONull(c);
      }
    }

    method CambiarEquipo(e: Equipo)
      modifies this
      ensures Datos() == Aplicar(old(Datos()), Operacion.CambiarEquipo(e))
    {
      equipo := e;
    }
  }
}
