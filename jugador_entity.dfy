/** The player entity: a first and last name and an active flag. Players are
    never deleted, only deactivated. */
module JugadorEntity {
  import opened Common

  /** The mutable fields of a player, as persisted in its row. */
  datatype JugadorDatos = JugadorDatos(nombre: string, apellido: string, activo: bool)

  /** The two mutators; `None` is an omitted argument. */
  datatype Operacion =
    | ActualizarDatos(nuevoNombre: Option<string>, nuevoApellido: Option<string>)
    | Desactivar

  /** The effect of one mutator; neither can fail. */
  function Aplicar(d: JugadorDatos, op: Operacion): (r: JugadorDatos)
    // the flag only ever goes from active to inactive, and only by desactivar
    ensures r.activo == (d.activo && !op.Desactivar?)
    // desactivar keeps the names; actualizarDatos overwrites exactly the supplied ones
    ensures op.Desactivar? ==> r.nombre == d.nombre && r.apellido == d.apellido
    ensures op.ActualizarDatos? ==>
              r.nombre == GetOr(op.nuevoNombre, d.nombre) && r.apellido == GetOr(op.nuevoApellido, d.apellido)
  {
    match op
    case ActualizarDatos(n, a) => d.(nombre := GetOr(n, d.nombre), apellido := GetOr(a, d.apellido))
    case Desactivar => d.(activo := false)
  }

  /** The state after a sequence of mutator calls. */
  function Ejecutar(d: JugadorDatos, ops: seq<Operacion>): JugadorDatos
    decreases |ops|
  {
    if ops == [] then d else Ejecutar(Aplicar(d, ops[0]), ops[1..])
  }

  /** Nothing reactivates a player: once inactive, inactive after any calls. */
  lemma {:induction false} InactivoPermanece(d: JugadorDatos, ops: seq<Operacion>)
    requires !d.activo
    ensures !Ejecutar(d, ops).activo
    decreases |ops|
  {
    if ops != [] {
      InactivoPermanece(Aplicar(d, ops[0]), ops[1..]);
    }
  }

  /** `desactivar` is idempotent. */
  lemma DesactivarIdempotente(d: JugadorDatos)
    ensures Aplicar(Aplicar(d, Desactivar), Desactivar) == Aplicar(d, Desactivar)
  {
  }

  /** A player as the entity holds it; the identifier is read-only. */
  class Jugador {
    const id: Option<int>
    var nombre: string
    var apellido: string
    var activo: bool

    function Datos(): JugadorDatos
      reads this
    {
      JugadorDatos(nombre, apellido, activo)
    }

    /** Rebuilds a stored player, as the repository does with a row. */
    constructor (id: Option<int>, d: JugadorDatos)
      ensures this.id == id && Datos() == d
    {
      this.id := id;
      nombre, apellido, activo := d.nombre, d.apellido, d.activo;
    }

    /** `Jugador.crear`: a new, unsaved, active player. */
    constructor Crear(nombre: string, apellido: string)
      ensures id == None && Datos() == JugadorDatos(nombre, apellido, true)
    {
      id := None;
      this.nombre, this.apellido, activo := nombre, apellido, true;
    }

    method ActualizarDatos(nuevoNombre: Option<string>, nuevoApellido: Option<string>)
      modifies this
      ensures Datos() == Aplicar(old(Datos()), Operacion.ActualizarDatos(nuevoNombre, nuevoApellido))
    {
      if nuevoNombre.Some? {
        nombre := nuevoNombre.value;
      }
      if nuevoApellido.Some? {
        apellido := nuevoApellido.value;
      }
    }

    method Desactivar()
      modifies this
      ensures Datos() == Aplicar(old(Datos()), Operacion.Desactivar)
    {
      activo := false;
    }
  }
}
