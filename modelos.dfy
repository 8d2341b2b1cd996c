/** The records of the backend: users with a role, and characters with an
    owner, a life state, a level, three offered skills and two chosen ones
    (backend/core/models.py). Catalog entries are plain id-to-name maps and
    live in the store (module Vistas). */
module Modelos {
  import opened Comun
  import opened Texto

  /** `Usuario.Rol`: a closed set of two roles. */
  datatype Rol = JUGADOR | GM

  /** The value stored in the `rol` column. */
  function RolTexto(r: Rol): string {
    match r
    case JUGADOR => "JUGADOR"
    case GM => "GM"
  }

  /** Reads a role from its stored value; only the two choices are roles. */
  function RolDesdeTexto(s: string): (r: Option<Rol>)
    ensures r.Some? <==> (s == "JUGADOR" || s == "GM")
    ensures r.Some? ==> RolTexto(r.value) == s
    ensures forall x :: RolTexto(x) == s ==> r == Some(x)
  {
    if s == "JUGADOR" then Some(JUGADOR)
    else if s == "GM" then Some(GM)
    else None
  }

  /** The default of `Usuario.rol`. */
  const RolPorDefecto: Rol := JUGADOR

  /** `Personaje.Estado`: a closed set of three states. */
  datatype Estado = VIVO | MUERTO | CONGELADO

  /** The value stored in the `estado` column. */
  function EstadoTexto(e: Estado): string {
    match e
    case VIVO => "VIVO"
    case MUERTO => "MUERTO"
    case CONGELADO => "CONGELADO"
  }

  /** Reads a state from its stored value; only the three choices are states. */
  function EstadoDesdeTexto(s: string): (r: Option<Estado>)
    ensures r.Some? <==> (s == "VIVO" || s == "MUERTO" || s == "CONGELADO")
    ensures r.Some? ==> EstadoTexto(r.value) == s
    ensures forall e :: EstadoTexto(e) == s ==> r == Some(e)
  {
    if s == "VIVO" then Some(VIVO)
    else if s == "MUERTO" then Some(MUERTO)
    else if s == "CONGELADO" then Some(CONGELADO)
    else None
  }

  /** The four catalogs, each a map from id to name (`Raza`, `Habilidad`,
      `Poder`, `Equipamiento`). */
  datatype Catalogos = Catalogos(
    razas: map<nat, string>,
    habilidades: map<nat, string>,
    poderes: map<nat, string>,
    equipamientos: map<nat, string>)

  /** A user account; the password hash is not modelled. */
  datatype Cuenta = Cuenta(username: string, email: string, rol: Rol)

  /** A character. Foreign keys are ids; `None` is a NULL column. */
  datatype Personaje = Personaje(
    propietario: Option<nat>,
    nombre: string,
    raza: nat,
    estado: Estado,
    nivel: nat,
    poder: nat,
    equipamiento: nat,
    opcion1: Option<nat>,
    opcion2: Option<nat>,
    opcion3: Option<nat>,
    habilidad1: Option<nat>,
    habilidad2: Option<nat>)

  /** A nullable foreign key that is NULL or names an existing row. */
  predicate Apunta(fk: Option<nat>, tabla: set<nat>) {
    fk.None? || fk.value in tabla
  }

  /** Referential integrity of a character's foreign keys, as the database
      keeps it. */
  predicate Referencias(pj: Personaje, cat: Catalogos, usuarios: set<nat>) {
    && Apunta(pj.propietario, usuarios)
    && pj.raza in cat.razas && pj.poder in cat.poderes && pj.equipamiento in cat.equipamientos
    && Apunta(pj.opcion1, cat.habilidades.Keys) && Apunta(pj.opcion2, cat.habilidades.Keys)
    && Apunta(pj.opcion3, cat.habilidades.Keys)
    && Apunta(pj.habilidad1, cat.habilidades.Keys) && Apunta(pj.habilidad2, cat.habilidades.Keys)
  }

  /** A freshly created character: the given fields, the column defaults
      (VIVO, level 1) and every skill slot NULL. */
  function NuevoPersonaje(propietario: Option<nat>, nombre: string, raza: nat, poder: nat, equipamiento: nat): (pj: Personaje)
    ensures pj.propietario == propietario && pj.nombre == nombre
    ensures pj.raza == raza && pj.poder == poder && pj.equipamiento == equipamiento
    ensures pj.estado == VIVO && pj.nivel == 1
    ensures pj.opcion1.None? && pj.opcion2.None? && pj.opcion3.None?
    ensures pj.habilidad1.None? && pj.habilidad2.None?
  {
    Personaje(propietario, nombre, raza, VIVO, 1, poder, equipamiento, None, None, None, None, None)
  }

  const MsgNivelMinimo := "El nivel debe ser mayor o igual a 1."
  const MsgNombreNoPermitido := "El nombre del personaje contiene caracteres no permitidos."

  /** `Personaje.clean`: None when the record is valid, otherwise the message
      of the first check that fails (the level is checked first). */
  function Limpiar(pj: Personaje): (r: Option<string>)
    ensures r.None? <==> pj.nivel >= 1 && !ContieneProhibido(pj.nombre)
    ensures pj.nivel < 1 ==> r == Some(MsgNivelMinimo)
    ensures pj.nivel >= 1 && ContieneProhibido(pj.nombre) ==> r == Some(MsgNombreNoPermitido)
  {
    if pj.nivel < 1 then Some(MsgNivelMinimo)
    else if ContieneProhibido(pj.nombre) then Some(MsgNombreNoPermitido)
    else None
  }

  /** `Personaje.puede_editar`: a character may be edited unless it is dead. */
  predicate PuedeEditar(pj: Personaje)
    ensures PuedeEditar(pj) <==> (pj.estado == VIVO || pj.estado == CONGELADO)
  {
    pj.estado != MUERTO
  }
}
