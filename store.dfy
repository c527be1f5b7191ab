/** The database behind the three repositories, as in-memory tables: each
    maps the serial identifier the database assigns to the row's fields. */
module Store {
  import opened Common
  import PE = PartidoEntity
  import PA = ParticipacionEntity
  import JE = JugadorEntity

  /** A row of the participations table: the two references and the fields. */
  datatype ParticipacionRow = ParticipacionRow(jugadorId: int, partidoId: int, datos: PA.ParticipacionDatos)

  /** The row records the participation of `jugadorId` in `partidoId`. */
  predicate EsDe(row: ParticipacionRow, partidoId: int, jugadorId: int)
  {
    row.partidoId == partidoId && row.jugadorId == jugadorId
  }

  /** At most one participation per (match, player) pair. */
  predicate Unicas(m: map<int, ParticipacionRow>)
  {
    forall i, j :: i in m && j in m && i != j ==>
      !EsDe(m[j], m[i].partidoId, m[i].jugadorId)
  }

  /** Some participation of `jugadorId` in `partidoId` exists. */
  predicate Anotado(m: map<int, ParticipacionRow>, partidoId: int, jugadorId: int)
  {
    exists id :: id in m && EsDe(m[id], partidoId, jugadorId)
  }

  class Db {
    var partidos: map<int, PE.PartidoDatos>
    var jugadores: map<int, JE.JugadorDatos>
    var participaciones: map<int, ParticipacionRow>
    var nextPartidoId: int
    var nextJugadorId: int
    var nextParticipacionId: int

    /** What every service operation keeps: serial identifiers below the next
        one to assign, winner/state coupling for every match, status/timestamp
        coupling for every participation, participations that refer to an
        existing match and player, and one participation per pair. */
    ghost predicate Valid()
      reads this
    {
      && 1 <= nextPartidoId && 1 <= nextJugadorId && 1 <= nextParticipacionId
      && (forall id :: id in partidos ==> 1 <= id < nextPartidoId)
      && (forall id :: id in jugadores ==> 1 <= id < nextJugadorId)
      && (forall id :: id in participaciones ==> 1 <= id < nextParticipacionId)
      && (forall id :: id in partidos ==> PE.GanadorCoherente(partidos[id]))
      && (forall id :: id in participaciones ==>
            && PA.Coherente(participaciones[id].datos)
            && participaciones[id].partidoId in partidos
            && participaciones[id].jugadorId in jugadores)
      && Unicas(participaciones)
    }

    /** An empty database. */
    constructor ()
      ensures Valid()
      ensures partidos == map[] && jugadores == map[] && participaciones == map[]
    {
      partidos, jugadores, participaciones := map[], map[], map[];
      nextPartidoId, nextJugadorId, nextParticipacionId := 1, 1, 1;
    }

    /** `PartidoRepository.create`: inserts the row under a fresh identifier. */
    method InsertPartido(d: PE.PartidoDatos) returns (id: int)
      requires Valid() && PE.GanadorCoherente(d)
      modifies this`partidos, this`nextPartidoId
      ensures Valid()
      ensures id == old(nextPartidoId) && id !in old(partidos)
      ensures partidos == old(partidos)[id := d]
    {
      id := nextPartidoId;
      partidos := partidos[id := d];
      nextPartidoId := id + 1;
    }

    /** `PartidoRepository.update`: overwrites the row of a stored match. */
    method UpdatePartido(id: int, d: PE.PartidoDatos)
      requires Valid() && id in partidos && PE.GanadorCoherente(d)
      modifies this`partidos
      ensures Valid()
      ensures partidos == old(partidos)[id := d]
    {
      partidos := partidos[id := d];
    }

    /** `JugadorRepository.create`: inserts the row under a fresh identifier. */
    method InsertJugador(d: JE.JugadorDatos) returns (id: int)
      requires Valid()
      modifies this`jugadores, this`nextJugadorId
      ensures Valid()
      ensures id == old(nextJugadorId) && id !in old(jugadores)
      ensures jugadores == old(jugadores)[id := d]
    {
      id := nextJugadorId;
      jugadores := jugadores[id := d];
      nextJugadorId := id + 1;
    }

    /** `JugadorRepository.update`: overwrites the row of a stored player. */
    method UpdateJugador(id: int, d: JE.JugadorDatos)
      requires Valid() && id in jugadores
      modifies this`jugadores
      ensures Valid()
      ensures jugadores == old(jugadores)[id := d]
    {
      jugadores := jugadores[id := d];
    }

    /** `ParticipacionRepository.create`: inserts the row under a fresh
        identifier; the service calls it only for an existing match and
        player that have no participation yet. */
    method InsertParticipacion(row: ParticipacionRow) returns (id: int)
      requires Valid() && PA.Coherente(row.datos)
      requires row.partidoId in partidos && row.jugadorId in jugadores
      requires !Anotado(participaciones, row.partidoId, row.jugadorId)
      modifies this`participaciones, this`nextParticipacionId
      ensures Valid()
      ensures id == old(nextParticipacionId) && id !in old(participaciones)
      ensures participaciones == old(participaciones)[id := row]
    {
      id := nextParticipacionId;
      participaciones := participaciones[id := row];
      nextParticipacionId := id + 1;
    }

    /** `ParticipacionRepository.update`: overwrites the fields of a stored
        participation; the two references are not part of the UPDATE. */
    method UpdateParticipacion(id: int, d: PA.ParticipacionDatos)
      requires Valid() && id in participaciones && PA.Coherente(d)
      modifies this`participaciones
      ensures Valid()
      ensures participaciones == old(participaciones)[id := old(participaciones)[id].(datos := d)]
    {
      participaciones := participaciones[id := participaciones[id].(datos := d)];
    }

    /** `ParticipacionRepository.findByPartidoYJugador`: the participation of
        the player in the match, if there is one; with one participation per
        pair it is the only one. */
    method FindByPartidoYJugador(partidoId: int, jugadorId: int) returns (r: Option<int>)
      ensures r.Some? ==> r.value in participaciones && EsDe(participaciones[r.value], partidoId, jugadorId)
      ensures r.None? <==> !Anotado(participaciones, partidoId, jugadorId)
      ensures r.Some? && Unicas(participaciones) ==>
                forall id :: id in participaciones && EsDe(participaciones[id], partidoId, jugadorId) ==> id == r.value
    {
      if exists id :: id in participaciones && EsDe(participaciones[id], partidoId, jugadorId) {
        var id :| id in participaciones && EsDe(participaciones[id], partidoId, jugadorId);
        r := Some(id);
      } else {
        r := None;
      }
    }

    /** `JugadorRepository.deactivate`: a single UPDATE that clears the active
        flag of the row, if there is one, and returns the updated row. */
    method DeactivateJugador(id: int) returns (r: Option<JE.JugadorDatos>)
      requires Valid()
      modifies this`jugadores
      ensures Valid()
      ensures id !in old(jugadores) ==> r == None && jugadores == old(jugadores)
      ensures id in old(jugadores) ==>
                && r == Some(old(jugadores)[id].(activo := false))
                && jugadores == old(jugadores)[id := r.value]
    {
      if id !in jugadores {
        return None;
      }
      r := Some(jugadores[id].(activo := false));
      jugadores := jugadores[id := r.value];
    }
  }
}
