# Asistencia Fútbol — verified model of the backend domain

Asistencia Fútbol keeps attendance for amateur football matches. A *partido*
(match) is scheduled, started, finished with a winner or cancelled; a
*jugador* (player) signs up for a match as a *participación* on team A or B,
may withdraw (*baja*) and come back (*reactivar*), and may move between
teams; players are never deleted, only deactivated. Rankings are read from
the database with query parameters that the statistics service validates.

This project models, in Dafny, the backend's domain layer:

- the three entities (`Partido`, `Participacion`, `Jugador`) as classes whose
  methods reassign their fields in place, each proved against a pure
  function `Aplicar` of the old state and the call;
- the match, participation and player services as methods over a store
  class `Db`, which holds the three tables as maps from the serial
  identifier to the row and keeps one invariant `Valid()`: identifiers below
  the next one to assign, winner decided exactly when the match is finished,
  withdrawal time set exactly when the participation is BAJA, participations
  that refer to an existing match and player, and at most one participation
  per (match, player) pair;
- the statistics service's parsing of `limit` and `minPartidos`.

Every service method checks the request and the stored rows in the order
the service does and writes only after every check passed, so each one
proves that a failing call leaves the store unchanged.

Request bodies are JSON: a field may be left out, sent as `null` or sent
with a value; `Common.Field` keeps the three apart, because the services do
(`=== undefined` versus truthiness). JavaScript's `new Date()` becomes a
`now` parameter and `new Date(string)` an `interpretar` function parameter;
the parameter `Number(value)`/`Number.isInteger` reading of a query string
becomes the `StatsService.Parametro` datatype.

The service code and the behaviour it has are followed where a looser
description of the lifecycle would differ: `iniciar` accepts a match that is
already EN_JUEGO, `finalizar` accepts a PROGRAMADO match directly,
`cancelar` on a CANCELADO match succeeds, `reactivar` takes no team, and the
participation operations accept cancelled matches and inactive players.

## Model

| member | source | states |
|---|---|---|
| Texto.TrimStart | backend/src/partido/partido.service.ts:138 | the leading white space `trim` removes: the result is a suffix, everything dropped is white space, the result does not start with white space |
| Texto.TrimEnd | backend/src/partido/partido.service.ts:138 | the trailing white space `trim` removes: the result is a prefix, everything dropped is white space, the result does not end with white space |
| Texto.Trim | backend/src/partido/partido.service.ts:138 | a non-empty trimmed string starts and ends with a non-white-space character |
| Texto.TrimEmptyIffBlank | backend/src/jugador/jugador.service.ts:68-72 | `trim()` gives the empty string exactly when every character is white space |
| Texto.ValidarTexto | backend/src/partido/partido.service.ts:137-141 | `validarTexto` accepts exactly a field sent with a value that is not all white space; a missing, null, empty or blank value gets "El campo X es obligatorio" |
| PartidoEntity.Aplicar | backend/src/partido/entities/partido.entity.ts:32-79 | a finished match rejects every mutator and that error arises nowhere else; otherwise only iniciar/finalizar on a cancelled match fail, each with its own message; finalizar is the only way to FINALIZADO and to a new winner; iniciar gives EN_JUEGO, cancelar CANCELADO; actualizarDetalles overwrites exactly the supplied fields and keeps estado; winner/state coherence is kept unless finalizar is given PENDIENTE |
| PartidoEntity.FinalizadoEsTerminal | backend/src/partido/entities/partido.entity.ts:75-79 | no sequence of mutator calls changes any field of a finished match |
| PartidoEntity.CanceladoNoSeJuega | backend/src/partido/entities/partido.entity.ts:53-73 | a cancelled match stays cancelled with the same winner after any sequence of calls |
| PartidoEntity.CoherenciaGanador | backend/src/partido/entities/partido.entity.ts:61-68 | winner decided exactly when finished survives any sequence of calls whose finalizar names a decided winner |
| PartidoEntity.CancelarIdempotente | backend/src/partido/entities/partido.entity.ts:70-73 | cancelar after cancelar does what the first cancelar did |
| PartidoEntity.Partido.constructor | backend/src/partido/entities/partido.entity.ts:5-13 | rebuilding an entity from a row gives exactly that row's fields and the given identifier |
| PartidoEntity.Partido.Crear | backend/src/partido/entities/partido.entity.ts:15-30 | a new match has no identifier, is PROGRAMADO with winner PENDIENTE and carries the given date, field and team names |
| PartidoEntity.Partido.ValidarNoFinalizado | backend/src/partido/entities/partido.entity.ts:75-79 | reports "No se puede modificar un partido finalizado" exactly when the match is FINALIZADO |
| PartidoEntity.Partido.ActualizarDetalles | backend/src/partido/entities/partido.entity.ts:32-51 | the new fields and the error are those `Aplicar` gives; a rejected call changes no field |
| PartidoEntity.Partido.Iniciar | backend/src/partido/entities/partido.entity.ts:53-59 | the new fields and the error are those `Aplicar` gives; a rejected call changes no field |
| PartidoEntity.Partido.Finalizar | backend/src/partido/entities/partido.entity.ts:61-68 | the new fields and the error are those `Aplicar` gives; a rejected call changes no field |
| PartidoEntity.Partido.Cancelar | backend/src/partido/entities/partido.entity.ts:70-73 | the new fields and the error are those `Aplicar` gives; a rejected call changes no field |
| ParticipacionEntity.Nueva | backend/src/participacion/entities/participacion.entity.ts:16-32 | a new participation is PRESENTE with no withdrawal time, signed up at `now`, on the given team, with the comment sent or null |
| ParticipacionEntity.Aplicar | backend/src/participacion/entities/participacion.entity.ts:34-52 | darBaja gives BAJA with bajaAt = now, reactivar PRESENTE with bajaAt null; anotadoAt never changes; the team changes only by cambiarEquipo, which changes nothing else; the comment is overwritten only when an argument is supplied and a null clears it; the bajaAt/estado coupling is established or kept |
| ParticipacionEntity.CoherenciaPreservada | backend/src/participacion/entities/participacion.entity.ts:34-52 | bajaAt set exactly when BAJA holds after any sequence of mutator calls |
| ParticipacionEntity.EquipoSoloPorCambiarEquipo | backend/src/participacion/entities/participacion.entity.ts:34-48 | any sequence of darBaja and reactivar keeps the team and the sign-up time |
| ParticipacionEntity.ReactivarIdempotente | backend/src/participacion/entities/participacion.entity.ts:42-48 | reactivar twice with the same argument equals reactivar once |
| ParticipacionEntity.Participacion.constructor | backend/src/participacion/entities/participacion.entity.ts:5-14 | rebuilding from a row gives its references and fields |
| ParticipacionEntity.Participacion.Crear | backend/src/participacion/entities/participacion.entity.ts:16-32 | a new participation has no identifier, the given references, and the fields `Nueva` describes |
| ParticipacionEntity.Participacion.DarBaja | backend/src/participacion/entities/participacion.entity.ts:34-40 | the new fields are `Aplicar` of the old ones and darBaja |
| ParticipacionEntity.Participacion.Reactivar | backend/src/participacion/entities/participacion.entity.ts:42-48 | the new fields are `Aplicar` of the old ones and reactivar |
| ParticipacionEntity.Participacion.CambiarEquipo | backend/src/participacion/entities/participacion.entity.ts:50-52 | the new fields are `Aplicar` of the old ones and cambiarEquipo |
| JugadorEntity.Aplicar | backend/src/jugador/entities/jugador.entity.ts:13-24 | actualizarDatos overwrites exactly the supplied names and never the flag; desactivar clears the flag and keeps the names |
| JugadorEntity.InactivoPermanece | backend/src/jugador/entities/jugador.entity.ts:13-24 | no sequence of calls makes an inactive player active |
| JugadorEntity.DesactivarIdempotente | backend/src/jugador/entities/jugador.entity.ts:22-24 | desactivar twice equals desactivar once |
| JugadorEntity.Jugador.constructor | backend/src/jugador/entities/jugador.entity.ts:1-7 | rebuilding from a row gives its fields and identifier |
| JugadorEntity.Jugador.Crear | backend/src/jugador/entities/jugador.entity.ts:9-11 | a new player has no identifier, is active and has the given names |
| JugadorEntity.Jugador.ActualizarDatos | backend/src/jugador/entities/jugador.entity.ts:13-20 | the new fields are `Aplicar` of the old ones and actualizarDatos |
| JugadorEntity.Jugador.Desactivar | backend/src/jugador/entities/jugador.entity.ts:22-24 | the new fields are `Aplicar` of the old ones and desactivar |
| Store.Db.constructor | backend/src/db/db.service.ts:4-14 | an empty database satisfies the store invariant |
| Store.Db.InsertPartido | backend/src/partido/partido.repository.ts:20-33 | the row is stored under the next serial identifier, which was unused, and the invariant is kept |
| Store.Db.UpdatePartido | backend/src/partido/partido.repository.ts:52-66 | only the row of that identifier is overwritten, and the invariant is kept |
| Store.Db.InsertJugador | backend/src/jugador/jugador.repository.ts:17-27 | the row is stored under the next serial identifier, which was unused, and the invariant is kept |
| Store.Db.UpdateJugador | backend/src/jugador/jugador.repository.ts:46-57 | only the row of that identifier is overwritten, and the invariant is kept |
| Store.Db.InsertParticipacion | backend/src/participacion/participacion.repository.ts:21-42 | the row is stored under the next serial identifier; for a pair not yet signed up, one participation per pair still holds |
| Store.Db.UpdateParticipacion | backend/src/participacion/participacion.repository.ts:89-115 | only the fields of that row change, never its two references, and the invariant is kept |
| Store.Db.FindByPartidoYJugador | backend/src/participacion/participacion.repository.ts:66-87 | finds a row of the pair exactly when one exists, and with one participation per pair it is the only one |
| Store.Db.DeactivateJugador | backend/src/jugador/jugador.repository.ts:59-67 | a missing identifier gives null and changes nothing; otherwise only the active flag of that row is cleared and the updated row returned |
| PartidoService.ParseFecha | backend/src/partido/partido.service.ts:126-135 | a falsy value gives "fechaHora es obligatoria", one the date parser rejects "fechaHora inválida", anything else its parsed time |
| PartidoService.ValidarGanador | backend/src/partido/partido.service.ts:143-149 | accepted exactly for "A", "B" and "EMPATE", as the winner of that spelling, never PENDIENTE |
| PartidoService.ValidarGanadorInverso | backend/src/partido/partido.service.ts:143-149 | every decided winner sent in its own spelling is accepted as itself |
| PartidoService.SolicitudCreate | backend/src/partido/partido.service.ts:16-29 | the create body passes exactly when the three names are non-blank and the date parses, errors in the service's order, the date's own error last; the new match is PROGRAMADO/PENDIENTE and coherent |
| PartidoService.SolicitudUpdate | backend/src/partido/partido.service.ts:49-78 | no field sent gives "No hay datos para actualizar"; then a sent blank or null cancha, equipoANombre, equipoBNombre, in that order, gives "El campo X es obligatorio", and only after them a truthy date that does not parse gives "fechaHora inválida"; sent fields are passed on, the date only when truthy, so an empty date string changes nothing |
| PartidoService.Create | backend/src/partido/partido.service.ts:16-29 | on a failing body nothing is stored; otherwise the match `SolicitudCreate` describes is stored under a fresh identifier and returned |
| PartidoService.FindOne | backend/src/partido/partido.service.ts:36-42 | the stored match, or "Partido no encontrado" exactly when the identifier is absent |
| PartidoService.Update | backend/src/partido/partido.service.ts:44-81 | existence first, then the body checks, then the finished-match guard as BadRequest; only the success of all saves the entity's new fields, and every failure leaves the store unchanged with the invariant kept |
| PartidoService.Iniciar | backend/src/partido/partido.service.ts:83-95 | existence, then the entity transition; the match is saved only when it succeeds; failures leave the store unchanged |
| PartidoService.Finalizar | backend/src/partido/partido.service.ts:97-110 | existence, then the winner check (PENDIENTE rejected), then the entity transition; so every stored match keeps winner decided exactly when finished |
| PartidoService.Cancelar | backend/src/partido/partido.service.ts:112-124 | existence, then the entity transition; failures leave the store unchanged |
| ParticipacionService.ValidarEquipo | backend/src/participacion/participacion.service.ts:146-150 | accepted exactly for "A" and "B", as the team of that spelling; anything else is "Equipo inválido" |
| ParticipacionService.ValidarEquipoInverso | backend/src/participacion/participacion.service.ts:146-150 | every team sent in its own spelling is accepted as itself |
| ParticipacionService.ToResponse | backend/src/participacion/participacion.service.ts:160-173 | bajaAt is null in the response exactly when it is null in the entity, so, for a coherent row, exactly when the player is PRESENTE |
| ParticipacionService.ValidarNoFinalizado | backend/src/participacion/participacion.service.ts:152-158 | the entity's finished-match error, as a BadRequest, exactly when the match is FINALIZADO |
| ParticipacionService.ErrorDeAnotar | backend/src/participacion/participacion.service.ts:26-49 | team and jugadorId are checked before any lookup; then a missing match is "Partido no encontrado", a finished one the BadRequest of the entity's message, a missing player "Jugador no encontrado"; the sign-up goes ahead exactly when the match exists and is not finished, the player exists and the pair is not yet signed up, whatever the match's cancellation or the player's flag; an existing pair is a Conflict |
| ParticipacionService.ErrorDeModificar | backend/src/participacion/participacion.service.ts:68-81 | the lookups of baja, reactivar and cambiarEquipo pass exactly when the match exists, is not finished and the pair is signed up; a missing match is "Partido no encontrado", then a finished match the BadRequest of the entity's message, then a missing pair "Participacion no encontrada" |
| ParticipacionService.AnotarNoIdempotente | backend/src/participacion/participacion.service.ts:42-49 | after a successful sign-up, the same player sent again for the same match, to either team, is a Conflict |
| ParticipacionService.Anotar | backend/src/participacion/participacion.service.ts:26-62 | every failure leaves the store unchanged; a success inserts exactly one PRESENTE row for the pair, on the given team, with no withdrawal time, under a fresh identifier, keeping one participation per pair |
| ParticipacionService.Cargar | backend/src/participacion/participacion.service.ts:69-81 | the match and participation lookups, in order, and the loaded entity holding the stored row of the pair |
| ParticipacionService.Guardar | backend/src/participacion/participacion.service.ts:83-87 | saving a mutated participation overwrites only its row's fields and keeps the invariant |
| ParticipacionService.Baja | backend/src/participacion/participacion.service.ts:64-89 | jugadorId, then the lookups; failures change nothing; a success applies darBaja to the pair's row alone and returns it |
| ParticipacionService.Reactivar | backend/src/participacion/participacion.service.ts:91-116 | jugadorId, then the lookups; failures change nothing; a success applies reactivar (team untouched) to the pair's row alone |
| ParticipacionService.CambiarEquipo | backend/src/participacion/participacion.service.ts:118-144 | jugadorId before the team, then the lookups; failures change nothing; a success changes the team of the pair's row alone |
| JugadorService.SolicitudCreate | backend/src/jugador/jugador.service.ts:11-20 | the body passes exactly when both names are non-blank, nombre checked first; the new player is active with those names |
| JugadorService.SolicitudUpdate | backend/src/jugador/jugador.service.ts:40-55 | no field sent gives "No hay datos para actualizar"; a sent blank or null nombre, then apellido, gives "El campo X es obligatorio", every error a BadRequest; only sent fields are passed on |
| JugadorService.Create | backend/src/jugador/jugador.service.ts:11-20 | on a failing body nothing is stored; otherwise the active player is stored under a fresh identifier |
| JugadorService.FindOne | backend/src/jugador/jugador.service.ts:27-33 | the stored player, or "Jugador no encontrado" exactly when the identifier is absent |
| JugadorService.Update | backend/src/jugador/jugador.service.ts:35-58 | existence before the body checks; failures change nothing; a success overwrites the sent names, never the active flag, also for an inactive player |
| JugadorService.Remove | backend/src/jugador/jugador.service.ts:60-66 | a missing player is NotFound and changes nothing; otherwise the row becomes what desactivar makes of it: inactive, names kept |
| StatsService.ParseLimit | backend/src/stats/stats.service.ts:34-46 | absent gives 100, a non-integer "limit debe ser un entero", an integer outside 1..500 "limit debe estar entre 1 y 500"; every accepted limit lies in 1..500 |
| StatsService.ParseMinPartidos | backend/src/stats/stats.service.ts:48-60 | absent gives 1, a non-integer or a value below 1 is rejected with its message; no upper bound; every accepted value is at least 1 |
| StatsService.ParametrosGanadores | backend/src/stats/stats.service.ts:25-32 | limit is validated before minPartidos, so a bad limit is reported even when both are bad |

## Left out

- The SQL behind the repositories: the tables are maps from serial
  identifier to row in `Store.Db`; constraints, column types and the
  `RETURNING` mapping are not modelled.
- The `findAll` operations of the match and player services and the
  repositories' other queries (`findById` is the map lookup): their order
  comes from SQL `ORDER BY`, and the responses are just mappings of rows.
- The rankings of the statistics service (`obtenerRankingAsistencias`,
  `obtenerRankingBajas`, `obtenerRankingGanadores`'s query): SQL
  aggregations with Postgres decimal rounding; only their parameter parsing
  is modelled.
- Transactions and concurrency: each service method is one atomic step;
  `withTransaction` is called by the participation service but is not
  defined by the `DbService` class in backend/src/db/db.service.ts, so its
  isolation is not modelled.
- Date handling: `new Date()` is the `now` parameter and `new Date(string)`
  the `interpretar` parameter of `PartidoService.ParseFecha`; ISO formatting
  in the responses is left out, which is why responses carry timestamps as
  they are.
- Number parsing in the statistics service: `Number(value)` and `Number.isInteger` are
  abstracted into `Parametro`, so for example the empty query string, which
  JavaScript reads as the integer 0, must be given as `Entero(0)` by the
  caller.
- Response shaping of matches and players (`toResponse`): they return the
  stored row with its identifier; getters of the entities are the fields.
- Controllers, modules, DTO classes, the admin-write guard and the whole
  frontend: HTTP wiring and UI. Request fields are trusted to have the
  declared JSON type (a string field is a string, null or absent).
