/** The match entity: a small state machine over PROGRAMADO, EN_JUEGO,
    FINALIZADO and CANCELADO with a winner field. Every mutator first checks
    that the match is not finished, so a finished match is terminal. */
module PartidoEntity {
  import opened Common

  datatype EstadoPartido = Programado | EnJuego | Finalizado | Cancelado

  datatype Ganador = A | B | Empate | Pendiente

  /** The wire spelling of a winner. */
  function GanadorTexto(g: Ganador): string
  {
    match g
    case A => "A"
    case B => "B"
    case Empate => "EMPATE"
    case Pendiente => "PENDIENTE"
  }

  /** The mutable fields of a match, as persisted in its row. */
  datatype PartidoDatos = PartidoDatos(
    fechaHora: Timestamp,
    cancha: string,
    estado: EstadoPartido,
    ganador: Ganador,
    equipoANombre: string,
    equipoBNombre: string)

  /** The errors the entity throws. */
  datatype Falla = PartidoFinalizado | InicioCancelado | FinalCancelado

  function Mensaje(f: Falla): string
  {
    match f
    case PartidoFinalizado => "No se puede modificar un partido finalizado"
    case InicioCancelado => "No se puede iniciar un partido cancelado"
    case FinalCancelado => "No se puede finalizar un partido cancelado"
  }

  /** The four mutators, with their arguments; `None` is an omitted argument. */
  datatype Operacion =
    | ActualizarDetalles(
        nuevaFecha: Option<Timestamp>,
        nuevaCancha: Option<string>,
        nuevoEquipoA: Option<string>,
        nuevoEquipoB: Option<string>)
    | Iniciar
    | Finalizar(ganador: Ganador)
    | Cancelar

  /** What a mutator does: the new fields, or the error it throws. */
  datatype Transicion = Aplicada(datos: PartidoDatos) | Rechazada(falla: Falla)

  /** The winner is decided exactly when the match is finished. */
  predicate GanadorCoherente(d: PartidoDatos)
  {
    d.ganador != Pendiente <==> d.estado == Finalizado
  }

  /** The date, field and team names: what only `actualizarDetalles` touches. */
  predicate MismosDetalles(d: PartidoDatos, e: PartidoDatos)
  {
    d.fechaHora == e.fechaHora && d.cancha == e.cancha
    && d.equipoANombre == e.equipoANombre && d.equipoBNombre == e.equipoBNombre
  }

  /** The effect of one mutator on a match. */
  function Aplicar(d: PartidoDatos, op: Operacion): (r: Transicion)
    // a finished match rejects every mutator, and that error arises nowhere else
    ensures r == Rechazada(PartidoFinalizado) <==> d.estado == Finalizado
    // apart from that, only starting or finishing a cancelled match fails
    ensures (r.Rechazada? && d.estado != Finalizado)
              <==> (d.estado == Cancelado && (op.Iniciar? || op.Finalizar?))
    ensures r == Rechazada(InicioCancelado) <==> d.estado == Cancelado && op.Iniciar?
    ensures r == Rechazada(FinalCancelado) <==> d.estado == Cancelado && op.Finalizar?
    // after a mutator that succeeds, the match is finished exactly when it was finalizar
    ensures r.Aplicada? ==> (r.datos.estado == Finalizado <==> op.Finalizar?)
    ensures r.Aplicada? && op.Iniciar? ==> r.datos.estado == EnJuego
    ensures r.Aplicada? && op.Cancelar? ==> r.datos.estado == Cancelado
    // the winner is set by finalizar alone
    ensures r.Aplicada? ==> r.datos.ganador == (if op.Finalizar? then op.ganador else d.ganador)
    // the details change only through actualizarDetalles, which keeps estado
    // and ganador and overwrites exactly the supplied fields
    ensures r.Aplicada? && !op.ActualizarDetalles? ==> MismosDetalles(r.datos, d)
    ensures r.Aplicada? && op.ActualizarDetalles? ==>
              && r.datos.estado == d.estado
              && r.datos.fechaHora == GetOr(op.nuevaFecha, d.fechaHora)
              && r.datos.cancha == GetOr(op.nuevaCancha, d.cancha)
              && r.datos.equipoANombre == GetOr(op.nuevoEquipoA, d.equipoANombre)
              && r.datos.equipoBNombre == GetOr(op.nuevoEquipoB, d.equipoBNombre)
    // a coherent match stays coherent unless it is finished with no winner
    ensures (r.Aplicada? && GanadorCoherente(d) && op != Finalizar(Pendiente))
              ==> GanadorCoherente(r.datos)
  {
    if d.estado == Finalizado then Rechazada(PartidoFinalizado)
    else
      match op
      case ActualizarDetalles(f, c, a, b) =>
        Aplicada(d.(fechaHora := GetOr(f, d.fechaHora), cancha := GetOr(c, d.cancha),
                    equipoANombre := GetOr(a, d.equipoANombre),
                    equipoBNombre := GetOr(b, d.equipoBNombre)))
      case Iniciar =>
        if d.estado == Cancelado then Rechazada(InicioCancelado)
        else Aplicada(d.(estado := EnJuego))
      case Finalizar(g) =>
        if d.estado == Cancelado then Rechazada(FinalCancelado)
        else Aplicada(d.(estado := Finalizado, ganador := g))
      case Cancelar =>
        Aplicada(d.(estado := Cancelado))
  }

  /** The state after a mutator; a rejected one changes nothing. */
  function Siguiente(d: PartidoDatos, op: Operacion): PartidoDatos
  {
    match Aplicar(d, op)
    case Aplicada(e) => e
    case Rechazada(_) => d
  }

  /** The state after a sequence of mutator calls, each rejected one skipped. */
  function Ejecutar(d: PartidoDatos, ops: seq<Operacion>): PartidoDatos
    decreases |ops|
  {
    if ops == [] then d else Ejecutar(Siguiente(d, ops[0]), ops[1..])
  }

  /** FINALIZADO is terminal: no sequence of mutator calls changes any field. */
  lemma {:induction false} FinalizadoEsTerminal(d: PartidoDatos, ops: seq<Operacion>)
    requires d.estado == Finalizado
    ensures Ejecutar(d, ops) == d
    decreases |ops|
  {
    if ops != [] {
      FinalizadoEsTerminal(Siguiente(d, ops[0]), ops[1..]);
    }
  }

  /** A cancelled match is never started or finished again, and its winner
      stays as it was, whatever is called on it. */
  lemma {:induction false} CanceladoNoSeJuega(d: PartidoDatos, ops: seq<Operacion>)
    requires d.estado == Cancelado
    ensures Ejecutar(d, ops).estado == Cancelado
    ensures Ejecutar(d, ops).ganador == d.ganador
    decreases |ops|
  {
    if ops != [] {
      CanceladoNoSeJuega(Siguiente(d, ops[0]), ops[1..]);
    }
  }

  /** Winner and state stay coupled through any sequence of calls in which
      every finalizar names a decided winner. */
  lemma {:induction false} CoherenciaGanador(d: PartidoDatos, ops: seq<Operacion>)
    requires GanadorCoherente(d)
    requires forall i :: 0 <= i < |ops| ==> ops[i] != Finalizar(Pendiente)
    ensures GanadorCoherente(Ejecutar(d, ops))
    decreases |ops|
  {
    if ops != [] {
      CoherenciaGanador(Siguiente(d, ops[0]), ops[1..]);
    }
  }

  /** `cancelar` is idempotent. */
  lemma CancelarIdempotente(d: PartidoDatos)
    ensures Aplicar(Siguiente(d, Cancelar), Cancelar) == Aplicar(d, Cancelar)
  {
  }

  /** A match as the entity holds it: the identifier is read-only (`null`
      until the repository assigns one), the other fields are reassigned by
      the mutators. */
  class Partido {
    const id: Option<int>
    var fechaHora: Timestamp
    var cancha: string
    var estado: EstadoPartido
    var ganador: Ganador
    var equipoANombre: string
    var equipoBNombre: string

    function Datos(): PartidoDatos
      reads this
    {
      PartidoDatos(fechaHora, cancha, estado, ganador, equipoANombre, equipoBNombre)
    }

    /** The mutator `op` ran on the state `antes`: it left `despues` and
        reported `err`; a rejected call left every field as it was. */
    static predicate Resulta(antes: PartidoDatos, op: Operacion, err: Option<Falla>, despues: PartidoDatos)
    {
      match Aplicar(antes, op)
      case Aplicada(e) => err == None && despues == e
      case Rechazada(f) => err == Some(f) && despues == antes
    }

    /** Rebuilds a stored match, as the repository does with a row. */
    constructor (id: Option<int>, d: PartidoDatos)
      ensures this.id == id && Datos() == d
    {
      this.id := id;
      fechaHora, cancha, estado, ganador := d.fechaHora, d.cancha, d.estado, d.ganador;
      equipoANombre, equipoBNombre := d.equipoANombre, d.equipoBNombre;
    }

    /** `Partido.crear`: a new, unsaved match, scheduled and with no winner. */
    constructor Crear(fechaHora: Timestamp, cancha: string, equipoANombre: string, equipoBNombre: string)
      ensures id == None
      ensures Datos() == PartidoDatos(fechaHora, cancha, Programado, Pendiente, equipoANombre, equipoBNombre)
      ensures GanadorCoherente(Datos())
    {
      id := None;
      this.fechaHora, this.cancha := fechaHora, cancha;
      estado, ganador := Programado, Pendiente;
      this.equipoANombre, this.equipoBNombre := equipoANombre, equipoBNombre;
    }

    method ValidarNoFinalizado() returns (err: Option<Falla>)
      ensures err.Some? <==> estado == Finalizado
      ensures err.Some? ==> err.value == PartidoFinalizado
    {
      if estado == Finalizado {
        return Some(PartidoFinalizado);
      }
      return None;
    }

    method ActualizarDetalles(nuevaFecha: Option<Timestamp>, nuevaCancha: Option<string>,
                              nuevoEquipoA: Option<string>, nuevoEquipoB: Option<string>)
      returns (err: Option<Falla>)
      modifies this
      ensures Resulta(old(Datos()), Operacion.ActualizarDetalles(nuevaFecha, nuevaCancha, nuevoEquipoA, nuevoEquipoB),
                      err, Datos())
    {
      err := ValidarNoFinalizado();
      if err.Some? {
        return;
      }
      if nuevaFecha.Some? {
        fechaHora := nuevaFecha.value;
      }
      if nuevaCancha.Some? {
        cancha := nuevaCancha.value;
      }
      if nuevoEquipoA.Some? {
        equipoANombre := nuevoEquipoA.value;
      }
      if nuevoEquipoB.Some? {
        equipoBNombre := nuevoEquipoB.value;
      }
    }

    method Iniciar() returns (err: Option<Falla>)
      modifies this
      ensures Resulta(old(Datos()), Operacion.Iniciar, err, Datos())
    {
      err := ValidarNoFinalizado();
      if err.Some? {
        return;
      }
      if estado == Cancelado {
        return Some(InicioCancelado);
      }
      estado := EnJuego;
    }

    method Finalizar(g: Ganador) returns (err: Option<Falla>)
      modifies this
      ensures Resulta(old(Datos()), Operacion.Finalizar(g), err, Datos())
    {
      err := ValidarNoFinalizado();
      if err.Some? {
        return;
      }
      if estado == Cancelado {
        return Some(FinalCancelado);
      }
      estado := Finalizado;
      ganador := g;
    }

    method Cancelar() returns (err: Option<Falla>)
      modifies this
      ensures Resulta(old(Datos()), Operacion.Cancelar, err, Datos())
    {
      err := ValidarNoFinalizado();
      if err.Some? {
        return;
      }
      estado := Cancelado;
    }
  }
}
