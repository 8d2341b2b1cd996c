/** The backend endpoints (backend/core/views.py) over an in-memory store of
    accounts, characters, catalogs and audit entries. Each endpoint is a
    method of `Mundo`; the requester is identified by the account id that a
    verified access token names. */
module Vistas {
  import opened Comun
  import opened Texto
  import opened Modelos
  import opened Permisos
  import opened Serializadores

  const MsgSinCredenciales := "Authentication credentials were not provided."
  const MsgSinPermiso := "You do not have permission to perform this action."
  const MsgNoEncontrado := "Not found."

  const MsgYaTienePropietario := "Este personaje ya tiene propietario."
  const MsgElegirMuerto := "No puedes elegir un personaje muerto."
  const MsgSoloPropietario := "Solo el propietario del personaje puede elegir sus habilidades."
  const MsgHabilidadesMuerto := "No puedes modificar habilidades de un personaje muerto."
  const MsgSubirMuerto := "No puede subir de nivel si está muerto."
  const MsgEstadoInvalido := "Estado inválido."
  const MsgNoEditable := "No editable: el personaje está muerto."

  /** `NotAuthenticated`, `PermissionDenied` and `Http404` as DRF renders them. */
  const F401 := Fallo(401, map["detail" := Texto(MsgSinCredenciales)])
  const F403 := Fallo(403, map["detail" := Texto(MsgSinPermiso)])
  const F404 := Fallo(404, map["detail" := Texto(MsgNoEncontrado)])

  /** A 403 with the view's own message. */
  function Prohibido403(msg: string): Fallo {
    Fallo(403, map["detail" := Texto(msg)])
  }

  /** `{"detalle": msg}` with status 400, as the views raise or return it. */
  function Detalle400(msg: string): Fallo {
    Fallo(400, map["detalle" := Texto(msg)])
  }

  /** A serializer's collected errors with status 400. */
  function Invalido(errores: map<string, Json>): Fallo {
    Fallo(400, errores)
  }

  /** `get_queryset`: a GM gets every character, anyone else the characters
      they own. */
  function Visibles(s: Solicitante, m: map<nat, Personaje>): (r: map<nat, Personaje>)
    requires s.Autenticado?
    ensures forall id :: id in r <==> id in m && (EsGM(s) || m[id].propietario == Some(s.id))
    ensures forall id :: id in r ==> r[id] == m[id]
    ensures EsGM(s) ==> r == m
    ensures !EsGM(s) ==> r.Keys !! Disponibles(m).Keys
  {
    if EsGM(s) then m else map id | id in m && m[id].propietario == Some(s.id) :: m[id]
  }

  /** The pool of `disponibles`: the characters without an owner. */
  function Disponibles(m: map<nat, Personaje>): (r: map<nat, Personaje>)
    ensures forall id :: id in r <==> id in m && m[id].propietario.None?
    ensures forall id :: id in r ==> r[id] == m[id]
  {
    map id | id in m && m[id].propietario.None? :: m[id]
  }

  /** The permission classes an endpoint runs with: the viewset's
      `[IsAuthenticated, EsPropietarioOGM]`, an action's `[IsAuthenticated]`, or
      an action's `[IsAuthenticated, EsGM]`. */
  datatype Permiso = PermisoVista | PermisoAutenticado | PermisoGM

  /** `check_permissions`: every class's `has_permission` must hold;
      `EsPropietarioOGM` inherits the permissive default. */
  function Admitir(s: Solicitante, p: Permiso): (r: Option<Fallo>)
    ensures r.None? <==> s.Autenticado? && (p == PermisoGM ==> EsGM(s))
    ensures s.Anonimo? ==> r == Some(F401)
    ensures s.Autenticado? && p == PermisoGM && !EsGM(s) ==> r == Some(F403)
  {
    if s.Anonimo? then Some(F401)
    else if p == PermisoGM && !EsGM(s) then Some(F403)
    else None
  }

  /** `get_object` after the permission check: a lookup in `get_queryset`,
      then every class's `has_object_permission`. For a non-GM the queryset
      already holds only their own characters, so the ownership check never
      refuses. */
  function Acceso(s: Solicitante, m: map<nat, Personaje>, id: nat, p: Permiso): (r: Result<Personaje, Fallo>)
    ensures r.Ok? <==> Admitir(s, p).None? && id in m && (EsGM(s) || m[id].propietario == IdDe(s))
    ensures r.Ok? ==> r.value == m[id]
    ensures Admitir(s, p).Some? ==> r == Err(Admitir(s, p).value)
    ensures Admitir(s, p).None? && !(id in m && (EsGM(s) || m[id].propietario == IdDe(s))) ==> r == Err(F404)
  {
    if Admitir(s, p).Some? then Err(Admitir(s, p).value)
    else
      var q := Visibles(s, m);
      if id !in q then Err(F404)
      else if p == PermisoVista && !EsPropietarioOGM(s, q[id]) then Err(F403)
      else Ok(q[id])
  }

  /** A claim takes the character out of the pool and into the claimer's
      own list; nothing else moves. */
  lemma {:induction false} ReclamoMueve(m: map<nat, Personaje>, id: nat, u: nat)
    requires id in m && m[id].propietario.None?
    ensures Disponibles(m[id := m[id].(propietario := Some(u))]) == Disponibles(m) - {id}
    ensures Visibles(Autenticado(u, JUGADOR), m[id := m[id].(propietario := Some(u))])
            == Visibles(Autenticado(u, JUGADOR), m)[id := m[id].(propietario := Some(u))]
  {
    var m2 := m[id := m[id].(propietario := Some(u))];
    var s := Autenticado(u, JUGADOR);
    assert Disponibles(m2).Keys == (Disponibles(m) - {id}).Keys;
    assert Visibles(s, m2).Keys == Visibles(s, m).Keys + {id};
  }

  /** A release returns the character to the pool and takes it out of its
      former owner's list. */
  lemma {:induction false} LiberarDevuelve(m: map<nat, Personaje>, id: nat, u: nat)
    requires id in m && m[id].propietario == Some(u)
    ensures Disponibles(m[id := m[id].(propietario := None)]) == Disponibles(m)[id := m[id].(propietario := None)]
    ensures Visibles(Autenticado(u, JUGADOR), m[id := m[id].(propietario := None)])
            == Visibles(Autenticado(u, JUGADOR), m) - {id}
  {
    var m2 := m[id := m[id].(propietario := None)];
    var s := Autenticado(u, JUGADOR);
    assert Disponibles(m2).Keys == Disponibles(m).Keys + {id};
    assert Visibles(s, m2).Keys == (Visibles(s, m) - {id}).Keys;
  }

  /** The chosen skills need not stay among the offered ones: `set-opciones`
      rewrites the offered slots and leaves the chosen ones in place. Here
      skills 1 and 2 are offered and chosen, then the offer becomes 3 and 4. */
  lemma SeleccionFueraDeOpciones()
    ensures var antes := Personaje(Some(7), "Ana", 1, VIVO, 1, 1, 1, Some(1), Some(2), None, Some(1), Some(2));
            var v := ValidarOpciones(antes, Valor(3), Valor(4), Nulo, map[1 := "a", 2 := "b", 3 := "c", 4 := "d"]);
            && (forall h :: h in Seleccion(antes) ==> h in Opciones(antes))
            && v.Ok? && 1 in Seleccion(v.value) && 1 !in Opciones(v.value)
            && v.value.habilidad1 == Some(1) && v.value.habilidad2 == Some(2) && 2 !in Opciones(v.value)
  {
    var antes := Personaje(Some(7), "Ana", 1, VIVO, 1, 1, 1, Some(1), Some(2), None, Some(1), Some(2));
    var v := ValidarOpciones(antes, Valor(3), Valor(4), Nulo, map[1 := "a", 2 := "b", 3 := "c", 4 := "d"]);
    var despues := antes.(opcion1 := Some(3), opcion2 := Some(4), opcion3 := None);
    assert v == Ok(despues);
    assert Seleccion(despues)[0] == 1;
    assert 1 in Opciones(antes) && 2 in Opciones(antes);
  }

  /** The actions that write an audit entry. */
  datatype Accion = SUBIR_NIVEL | CAMBIAR_ESTADO | LIBERAR_PERSONAJE

  /** An `AuditLog` row: who did what (the time and the detail text are not
      modelled). */
  datatype Registro = Registro(usuario: nat, accion: Accion)

  /** The body of a successful `elegir`. */
  datatype Reclamo = Reclamo(personaje: nat, propietario: string)

  /** The body of `yo`. */
  datatype Perfil = Perfil(id: nat, usuario: string, rol: string)

  /** The `user` part of a successful registration. */
  datatype Alta = Alta(id: nat, username: string, email: string, rol: string)

  /** The four catalogs. */
  datatype Tipo = RAZA | HABILIDAD | PODER | EQUIPAMIENTO

  function Tabla(cat: Catalogos, t: Tipo): map<nat, string> {
    match t
    case RAZA => cat.razas
    case HABILIDAD => cat.habilidades
    case PODER => cat.poderes
    case EQUIPAMIENTO => cat.equipamientos
  }

  function ConTabla(cat: Catalogos, t: Tipo, tabla: map<nat, string>): (r: Catalogos)
    ensures Tabla(r, t) == tabla
    ensures forall u :: u != t ==> Tabla(r, u) == Tabla(cat, u)
  {
    match t
    case RAZA => cat.(razas := tabla)
    case HABILIDAD => cat.(habilidades := tabla)
    case PODER => cat.(poderes := tabla)
    case EQUIPAMIENTO => cat.(equipamientos := tabla)
  }

  /** A slot that points into a larger table still points into it. */
  lemma ReferenciasCrecen(pj: Personaje, cat: Catalogos, cat2: Catalogos, us: set<nat>, us2: set<nat>)
    requires Referencias(pj, cat, us)
    requires us <= us2
    requires forall t :: Tabla(cat, t).Keys <= Tabla(cat2, t).Keys
    ensures Referencias(pj, cat2, us2)
  {
    assert Tabla(cat, RAZA) == cat.razas && Tabla(cat2, RAZA) == cat2.razas;
    assert Tabla(cat, HABILIDAD) == cat.habilidades && Tabla(cat2, HABILIDAD) == cat2.habilidades;
    assert Tabla(cat, PODER) == cat.poderes && Tabla(cat2, PODER) == cat2.poderes;
    assert Tabla(cat, EQUIPAMIENTO) == cat.equipamientos && Tabla(cat2, EQUIPAMIENTO) == cat2.equipamientos;
  }

  /** A catalog entry added under `id` keeps every stored reference valid. */
  lemma AmpliarIntegro(m: map<nat, Personaje>, cat: Catalogos, t: Tipo, id: nat, nombre: string, us: set<nat>)
    requires Integros(m, cat, us)
    ensures Integros(m, ConTabla(cat, t, Tabla(cat, t)[id := nombre]), us)
  {
    var cat2 := ConTabla(cat, t, Tabla(cat, t)[id := nombre]);
    forall k | k in m ensures Referencias(m[k], cat2, us) {
      ReferenciasCrecen(m[k], cat, cat2, us, us);
    }
  }

  /** Every stored character points at existing rows and passes
      `Personaje.clean`. */
  predicate Integros(m: map<nat, Personaje>, cat: Catalogos, us: set<nat>) {
    forall id :: id in m ==> Referencias(m[id], cat, us) && Limpiar(m[id]).None?
  }

  lemma EscribirIntegro(m: map<nat, Personaje>, id: nat, pj: Personaje, cat: Catalogos, us: set<nat>)
    requires Integros(m, cat, us) && Referencias(pj, cat, us) && Limpiar(pj).None?
    ensures Integros(m[id := pj], cat, us)
  {}

  // ------------------------------------------------ the checks of each action

  /** The checks of `elegir`, in order: an authenticated requester, a
      character that exists (any character, not only those of
      `get_queryset`), without an owner, not dead. */
  function ChequearReclamo(s: Solicitante, m: map<nat, Personaje>, id: nat): (r: Option<Fallo>)
    ensures r.None? <==> s.Autenticado? && id in m && m[id].propietario.None? && m[id].estado != MUERTO
    ensures s.Anonimo? ==> r == Some(F401)
    ensures s.Autenticado? && id !in m ==> r == Some(F404)
    ensures s.Autenticado? && id in m && m[id].propietario.Some? ==> r == Some(Detalle400(MsgYaTienePropietario))
    ensures (s.Autenticado? && id in m && m[id].propietario.None? && m[id].estado == MUERTO)
            ==> r == Some(Detalle400(MsgElegirMuerto))
  {
    if s.Anonimo? then Some(F401)
    else if id !in m then Some(F404)
    else if m[id].propietario.Some? then Some(Detalle400(MsgYaTienePropietario))
    else if m[id].estado == MUERTO then Some(Detalle400(MsgElegirMuerto))
    else None
  }

  /** The checks of `set-opciones`: a GM, an existing character, valid slot
      values. On success, the character with the new offered slots. */
  function ChequearOpciones(s: Solicitante, m: map<nat, Personaje>, id: nat, o1: Campo<nat>, o2: Campo<nat>, o3: Campo<nat>, hab: map<nat, string>): (r: Result<Personaje, Fallo>)
    ensures r.Ok? <==> EsGM(s) && id in m && ValidarOpciones(m[id], o1, o2, o3, hab).Ok?
    ensures r.Ok? ==> r.value == m[id].(opcion1 := Escribir(m[id].opcion1, o1), opcion2 := Escribir(m[id].opcion2, o2),
                                        opcion3 := Escribir(m[id].opcion3, o3))
    ensures s.Anonimo? ==> r == Err(F401)
    ensures s.Autenticado? && !EsGM(s) ==> r == Err(F403)
    ensures EsGM(s) && id !in m ==> r == Err(F404)
    ensures EsGM(s) && id in m && ValidarOpciones(m[id], o1, o2, o3, hab).Err?
            ==> r == Err(Invalido(ValidarOpciones(m[id], o1, o2, o3, hab).error))
  {
    var a := Acceso(s, m, id, PermisoGM);
    if a.Err? then Err(a.error)
    else
      var v := ValidarOpciones(a.value, o1, o2, o3, hab);
      if v.Err? then Err(Invalido(v.error)) else Ok(v.value)
  }

  /** The checks of `elegir-habilidades`: a character of `get_queryset`, owned
      by the requester (a GM who does not own it is refused too), not dead,
      and an accepted request. On success, the record `save` writes: the two
      chosen ids in the two selected slots. `list(elegidas)` has an order of
      Python's own; the model takes the order of the request and promises
      only the set. */
  function ChequearEleccion(s: Solicitante, m: map<nat, Personaje>, id: nat, dato: Campo<seq<int>>): (r: Result<Personaje, Fallo>)
    ensures r.Ok? <==> s.Autenticado? && id in m && m[id].propietario == Some(s.id) && m[id].estado != MUERTO
                       && ValidarEleccion(m[id], dato).Ok?
    ensures r.Ok? ==> EleccionGuardada(m[id], r.value, ValidarEleccion(m[id], dato).value)
    ensures s.Anonimo? ==> r == Err(F401)
    ensures s.Autenticado? && !EsGM(s) && !(id in m && m[id].propietario == Some(s.id)) ==> r == Err(F404)
    ensures EsGM(s) && id !in m ==> r == Err(F404)
    ensures EsGM(s) && id in m && m[id].propietario != Some(s.id) ==> r == Err(Prohibido403(MsgSoloPropietario))
    ensures (s.Autenticado? && id in m && m[id].propietario == Some(s.id) && m[id].estado == MUERTO)
            ==> r == Err(Detalle400(MsgHabilidadesMuerto))
    ensures (s.Autenticado? && id in m && m[id].propietario == Some(s.id) && m[id].estado != MUERTO
             && ValidarEleccion(m[id], dato).Err?) ==> r == Err(Invalido(ValidarEleccion(m[id], dato).error))
  {
    var a := Acceso(s, m, id, PermisoAutenticado);
    if a.Err? then Err(a.error)
    else if a.value.propietario != IdDe(s) then Err(Prohibido403(MsgSoloPropietario))
    else if a.value.estado == MUERTO then Err(Detalle400(MsgHabilidadesMuerto))
    else
      var v := ValidarEleccion(a.value, dato);
      if v.Err? then Err(Invalido(v.error))
      else Ok(GuardarEleccion(a.value, dato.v[0] as nat, dato.v[1] as nat))
  }

  /** The checks of `subir_nivel`: a GM, an existing character, not dead. On
      success, the new level. */
  function ChequearNivel(s: Solicitante, m: map<nat, Personaje>, id: nat): (r: Result<nat, Fallo>)
    ensures r.Ok? <==> EsGM(s) && id in m && m[id].estado != MUERTO
    ensures r.Ok? ==> r.value == m[id].nivel + 1
    ensures s.Anonimo? ==> r == Err(F401)
    ensures s.Autenticado? && !EsGM(s) ==> r == Err(F403)
    ensures EsGM(s) && id !in m ==> r == Err(F404)
    ensures EsGM(s) && id in m && m[id].estado == MUERTO ==> r == Err(Detalle400(MsgSubirMuerto))
  {
    var a := Acceso(s, m, id, PermisoGM);
    if a.Err? then Err(a.error)
    else if a.value.estado == MUERTO then Err(Detalle400(MsgSubirMuerto))
    // `(pj.nivel or 0) + 1`
    else Ok((if a.value.nivel == 0 then 0 else a.value.nivel) + 1)
  }

  /** The checks of `cambiar_estado`: a GM, an existing character, and one
      of the three state values. On success, the new state. */
  function ChequearEstado(s: Solicitante, m: map<nat, Personaje>, id: nat, estado: Option<string>): (r: Result<Estado, Fallo>)
    ensures r.Ok? <==> EsGM(s) && id in m && estado.Some? && EstadoDesdeTexto(estado.value).Some?
    ensures r.Ok? ==> EstadoTexto(r.value) == estado.value
    ensures s.Anonimo? ==> r == Err(F401)
    ensures s.Autenticado? && !EsGM(s) ==> r == Err(F403)
    ensures EsGM(s) && id !in m ==> r == Err(F404)
    ensures (EsGM(s) && id in m && !(estado.Some? && EstadoDesdeTexto(estado.value).Some?))
            ==> r == Err(Detalle400(MsgEstadoInvalido))
  {
    var a := Acceso(s, m, id, PermisoGM);
    if a.Err? then Err(a.error)
    else if estado.None? || EstadoDesdeTexto(estado.value).None? then Err(Detalle400(MsgEstadoInvalido))
    else Ok(EstadoDesdeTexto(estado.value).value)
  }

  /** Whether a state change is accepted does not depend on the current
      state: a dead character can be brought back. */
  lemma EstadoNoDependeDelActual(s: Solicitante, m: map<nat, Personaje>, id: nat, estado: Option<string>, actual: Estado)
    requires id in m
    ensures ChequearEstado(s, m[id := m[id].(estado := actual)], id, estado) == ChequearEstado(s, m, id, estado)
  {
    var m2 := m[id := m[id].(estado := actual)];
    if s.Autenticado? && EsGM(s) {
      assert Acceso(s, m2, id, PermisoGM).Ok? && Acceso(s, m, id, PermisoGM).Ok?;
    }
  }

  /** The checks of `update`/`partial_update`: a character of
      `get_queryset`, an accepted request (through
      `PersonajeActualizarSerializer` unless the requester is a GM), then a
      character that is not dead. On success, the character with the
      validated fields written. */
  function ChequearActualizacion(s: Solicitante, m: map<nat, Personaje>, cat: Catalogos, id: nat, d: DatosPersonaje, parcial: bool): (r: Result<Personaje, Fallo>)
    ensures r.Ok? <==> s.Autenticado? && id in m && (EsGM(s) || m[id].propietario == Some(s.id))
                       && ValidarPersonaje(d, cat, EsGM(s), parcial).Ok? && PuedeEditar(m[id])
    ensures r.Ok? ==> r.value == Aplicar(m[id], ValidarPersonaje(d, cat, EsGM(s), parcial).value)
    ensures r.Ok? && !EsGM(s) ==> r.value.raza == m[id].raza && r.value.poder == m[id].poder && r.value.equipamiento == m[id].equipamiento
    ensures id in m && m[id].estado == MUERTO ==> r.Err?
    ensures s.Anonimo? ==> r == Err(F401)
    ensures s.Autenticado? && !(id in m && (EsGM(s) || m[id].propietario == Some(s.id))) ==> r == Err(F404)
    ensures (s.Autenticado? && id in m && (EsGM(s) || m[id].propietario == Some(s.id))
             && ValidarPersonaje(d, cat, EsGM(s), parcial).Err?)
            ==> r == Err(Invalido(ValidarPersonaje(d, cat, EsGM(s), parcial).error))
    ensures (s.Autenticado? && id in m && (EsGM(s) || m[id].propietario == Some(s.id))
             && ValidarPersonaje(d, cat, EsGM(s), parcial).Ok? && !PuedeEditar(m[id]))
            ==> r == Err(Detalle400(MsgNoEditable))
  {
    var a := Acceso(s, m, id, PermisoVista);
    if a.Err? then Err(a.error)
    else
      var v := ValidarPersonaje(d, cat, EsGM(s), parcial);
      if v.Err? then Err(Invalido(v.error))
      else if !PuedeEditar(a.value) then Err(Detalle400(MsgNoEditable))
      else Ok(Aplicar(a.value, v.value))
  }

  /** The checks of `create`: an authenticated requester and an accepted
      request through `PersonajeSerializer`. On success, the new character:
      in the pool if a GM made it, owned by its maker otherwise. */
  function ChequearCreacion(s: Solicitante, cat: Catalogos, d: DatosPersonaje): (r: Result<Personaje, Fallo>)
    ensures r.Ok? <==> s.Autenticado? && ValidarPersonaje(d, cat, true, false).Ok?
    ensures r.Ok? ==> var c := ValidarPersonaje(d, cat, true, false).value;
                      r.value == NuevoPersonaje(PropietarioAlCrear(s), c.nombre.value, c.raza.value, c.poder.value, c.equipamiento.value)
    ensures r.Ok? ==> (r.value.propietario.None? <==> EsGM(s)) && Limpiar(r.value).None?
    ensures r.Ok? ==> r.value.raza in cat.razas && r.value.poder in cat.poderes && r.value.equipamiento in cat.equipamientos
    ensures s.Anonimo? ==> r == Err(F401)
    ensures s.Autenticado? && ValidarPersonaje(d, cat, true, false).Err?
            ==> r == Err(Invalido(ValidarPersonaje(d, cat, true, false).error))
  {
    if s.Anonimo? then Err(F401)
    else
      var v := ValidarPersonaje(d, cat, true, false);
      if v.Err? then Err(Invalido(v.error))
      else
        var c := v.value;
        var pj := NuevoPersonaje(PropietarioAlCrear(s), c.nombre.value, c.raza.value, c.poder.value, c.equipamiento.value);
        NombreAceptadoEsLimpio(d.nombre.v, pj);
        Ok(pj)
  }
  /** What `set_opciones` writes keeps a store's references and `clean`
      verdict. */
  lemma OpcionesIntegra(s: Solicitante, m: map<nat, Personaje>, cat: Catalogos, us: set<nat>, id: nat, o1: Campo<nat>, o2: Campo<nat>, o3: Campo<nat>)
    requires Integros(m, cat, us)
    requires ChequearOpciones(s, m, id, o1, o2, o3, cat.habilidades).Ok?
    ensures Referencias(ChequearOpciones(s, m, id, o1, o2, o3, cat.habilidades).value, cat, us)
    ensures Limpiar(ChequearOpciones(s, m, id, o1, o2, o3, cat.habilidades).value).None?
  {}

  /** What `update` writes keeps a store's references and `clean` verdict. */
  lemma ActualizacionIntegra(s: Solicitante, m: map<nat, Personaje>, cat: Catalogos, us: set<nat>, id: nat, d: DatosPersonaje, parcial: bool)
    requires Integros(m, cat, us)
    requires ChequearActualizacion(s, m, cat, id, d, parcial).Ok?
    ensures Referencias(ChequearActualizacion(s, m, cat, id, d, parcial).value, cat, us)
    ensures Limpiar(ChequearActualizacion(s, m, cat, id, d, parcial).value).None?
  {
    AplicarConserva(m[id], d, cat, us, EsGM(s), parcial);
  }

  /** What `elegir-habilidades` writes keeps a store's references and `clean`
      verdict. */
  lemma EleccionIntegra(s: Solicitante, m: map<nat, Personaje>, cat: Catalogos, us: set<nat>, id: nat, dato: Campo<seq<int>>)
    requires Integros(m, cat, us)
    requires ChequearEleccion(s, m, id, dato).Ok?
    ensures Referencias(ChequearEleccion(s, m, id, dato).value, cat, us)
    ensures Limpiar(ChequearEleccion(s, m, id, dato).value).None?
  {
    EleccionConserva(m[id], dato, ChequearEleccion(s, m, id, dato).value, cat, us);
  }

  /** A character made by an existing account or a GM points at existing rows. */
  lemma CreacionIntegra(s: Solicitante, cat: Catalogos, us: set<nat>, d: DatosPersonaje)
    requires s.Autenticado? ==> s.id in us
    requires ChequearCreacion(s, cat, d).Ok?
    ensures Referencias(ChequearCreacion(s, cat, d).value, cat, us)
    ensures Limpiar(ChequearCreacion(s, cat, d).value).None?
  {}


  /** The backend's state: the tables of the database and the audit log. */
  class Mundo {
    var usuarios: map<nat, Cuenta>
    var personajes: map<nat, Personaje>
    var catalogos: Catalogos
    var auditoria: seq<Registro>
    /** The next id the database hands out. */
    var proximoId: nat

    /** Every id is below the next one, and every stored character points at
        existing rows and passes `Personaje.clean`. */
    predicate Valid()
      reads this
    {
      && (forall id :: id in usuarios ==> id < proximoId)
      && (forall id :: id in personajes ==> id < proximoId)
      && (forall t, id :: id in Tabla(catalogos, t) ==> id < proximoId)
      && Integros(personajes, catalogos, usuarios.Keys)
    }

    /** A store with the given accounts (made outside the API, such as the GM)
        and nothing else. */
    constructor (cuentas: map<nat, Cuenta>, siguiente: nat)
      requires forall id :: id in cuentas ==> id < siguiente
      ensures Valid()
      ensures usuarios == cuentas && personajes == map[] && auditoria == [] && proximoId == siguiente
      ensures catalogos == Catalogos(map[], map[], map[], map[])
    {
      usuarios := cuentas;
      personajes := map[];
      catalogos := Catalogos(map[], map[], map[], map[]);
      auditoria := [];
      proximoId := siguiente;
    }

    /** Authentication: the account a verified token names, or the
        anonymous user. */
    function Quien(token: Option<nat>): (s: Solicitante)
      reads this`usuarios
      ensures s.Autenticado? <==> token.Some? && token.value in usuarios
      ensures s.Autenticado? ==> s.id == token.value && s.rol == usuarios[s.id].rol
    {
      if token.Some? && token.value in usuarios then Autenticado(token.value, usuarios[token.value].rol)
      else Anonimo
    }

    /** The listing of one stored character as `PersonajeListaSerializer`
        writes it: names only, no race, power or equipment id. */
    function FichaGuardada(id: nat): (f: Ficha)
      reads this
      requires Valid() && id in personajes
      ensures f.id == id && f.nombre == personajes[id].nombre && f.nivel == personajes[id].nivel
      ensures f.estado == EstadoTexto(personajes[id].estado)
      ensures f.raza.None? && f.poder.None? && f.equipamiento.None?
      ensures f.razaNombre == catalogos.razas[personajes[id].raza]
      ensures f.propietarioUsername.Some? <==> personajes[id].propietario.Some?
      ensures Ids(f.opciones) == Opciones(personajes[id]) && Ids(f.seleccion) == Seleccion(personajes[id])
    {
      FichaDe(id, personajes[id], catalogos, usuarios)
    }

    /** Writing one character that points at existing rows and passes
        `clean` keeps the store valid. */
    method Escribir(id: nat, pj: Personaje)
      requires Valid() && id in personajes
      requires Referencias(pj, catalogos, usuarios.Keys) && Limpiar(pj).None?
      modifies this`personajes
      ensures Valid()
      ensures personajes == old(personajes)[id := pj]
    {
      EscribirIntegro(personajes, id, pj, catalogos, usuarios.Keys);
      personajes := personajes[id := pj];
      assert Integros(personajes, catalogos, usuarios.Keys);
      assert forall k :: k in personajes ==> k < proximoId;
    }

    /** Adding a character under a fresh id keeps the store valid. */
    method Insertar(pj: Personaje) returns (nuevo: nat)
      requires Valid()
      requires Referencias(pj, catalogos, usuarios.Keys) && Limpiar(pj).None?
      modifies this`personajes, this`proximoId
      ensures Valid()
      ensures nuevo == old(proximoId) && nuevo !in old(personajes)
      ensures personajes == old(personajes)[nuevo := pj] && proximoId == old(proximoId) + 1
    {
      nuevo := proximoId;
      EscribirIntegro(personajes, nuevo, pj, catalogos, usuarios.Keys);
      personajes := personajes[nuevo := pj];
      proximoId := proximoId + 1;
    }

    /** Adding a catalog entry under a fresh id keeps the store valid. */
    method AgregarEntrada(t: Tipo, nombre: string) returns (nuevo: nat)
      requires Valid()
      modifies this`catalogos, this`proximoId
      ensures Valid()
      ensures nuevo == old(proximoId) && nuevo !in Tabla(old(catalogos), t)
      ensures catalogos == ConTabla(old(catalogos), t, Tabla(old(catalogos), t)[nuevo := nombre])
      ensures proximoId == old(proximoId) + 1
    {
      nuevo := proximoId;
      var antes := catalogos;
      AmpliarIntegro(personajes, catalogos, t, nuevo, nombre, usuarios.Keys);
      catalogos := ConTabla(catalogos, t, Tabla(catalogos, t)[nuevo := nombre]);
      proximoId := proximoId + 1;
      assert forall u, id :: id in Tabla(catalogos, u) ==> id in Tabla(antes, u) || id == nuevo;
    }

    /** `list`: the listing of every character of `get_queryset`. */
    method Listar(token: Option<nat>) returns (r: Result<map<nat, Ficha>, Fallo>)
      requires Valid()
      ensures Quien(token).Anonimo? ==> r == Err(F401)
      ensures r.Ok? <==> Quien(token).Autenticado?
      ensures r.Ok? ==> r.value.Keys == Visibles(Quien(token), personajes).Keys
      ensures r.Ok? && EsGM(Quien(token)) ==> r.value.Keys == personajes.Keys
      ensures r.Ok? ==> forall id :: id in r.value ==> r.value[id] == FichaGuardada(id)
    {
      var s := Quien(token);
      if s.Anonimo? { return Err(F401); }
      var q := Visibles(s, personajes);
      r := Ok(map id | id in q :: FichaGuardada(id));
    }

    /** `disponibles`: the listing of every character without an owner, for
        any authenticated requester. */
    method ListarDisponibles(token: Option<nat>) returns (r: Result<map<nat, Ficha>, Fallo>)
      requires Valid()
      ensures r.Ok? <==> Quien(token).Autenticado?
      ensures Quien(token).Anonimo? ==> r == Err(F401)
      ensures r.Ok? ==> forall id :: id in r.value <==> id in personajes && personajes[id].propietario.None?
      ensures r.Ok? ==> forall id :: id in r.value ==> r.value[id] == FichaGuardada(id) && r.value[id].propietarioUsername.None?
    {
      var s := Quien(token);
      if s.Anonimo? { return Err(F401); }
      var q := Disponibles(personajes);
      r := Ok(map id | id in q :: FichaGuardada(id));
    }

    /** `elegir`: the requester becomes the owner; only `propietario`
        changes. */
    method Elegir(token: Option<nat>, id: nat) returns (r: Result<Reclamo, Fallo>)
      requires Valid()
      modifies this`personajes
      ensures Valid()
      ensures ChequearReclamo(Quien(token), old(personajes), id).Some?
              ==> r == Err(ChequearReclamo(Quien(token), old(personajes), id).value) && personajes == old(personajes)
      ensures ChequearReclamo(Quien(token), old(personajes), id).None?
              ==> && r == Ok(Reclamo(id, usuarios[token.value].username))
                  && personajes == old(personajes)[id := old(personajes)[id].(propietario := Some(token.value))]
    {
      var s := Quien(token);
      var c := ChequearReclamo(s, personajes, id);
      if c.Some? { return Err(c.value); }
      var pj := personajes[id];
      pj := pj.(propietario := Some(s.id));
      Escribir(id, pj);
      r := Ok(Reclamo(id, usuarios[s.id].username));
    }

    /** `set-opciones`: the offered slots the request names are written; the
        response is the new listing. */
    method SetOpciones(token: Option<nat>, id: nat, o1: Campo<nat>, o2: Campo<nat>, o3: Campo<nat>) returns (r: Result<Ficha, Fallo>)
      requires Valid()
      modifies this`personajes
      ensures Valid()
      ensures ChequearOpciones(Quien(token), old(personajes), id, o1, o2, o3, catalogos.habilidades).Err?
              ==> r == Err(ChequearOpciones(Quien(token), old(personajes), id, o1, o2, o3, catalogos.habilidades).error)
                  && personajes == old(personajes)
      ensures ChequearOpciones(Quien(token), old(personajes), id, o1, o2, o3, catalogos.habilidades).Ok?
              ==> && personajes == old(personajes)[id := ChequearOpciones(Quien(token), old(personajes), id, o1, o2, o3, catalogos.habilidades).value]
                  && r == Ok(FichaGuardada(id))
    {
      var c := ChequearOpciones(Quien(token), personajes, id, o1, o2, o3, catalogos.habilidades);
      if c.Err? { return Err(c.error); }
      OpcionesIntegra(Quien(token), personajes, catalogos, usuarios.Keys, id, o1, o2, o3);
      Escribir(id, c.value);
      r := Ok(FichaGuardada(id));
    }

    /** `elegir-habilidades`: the two chosen ids are written to `habilidad1`
        and `habilidad2`, in an order the model leaves open; nothing else
        changes. */
    method ElegirHabilidades(token: Option<nat>, id: nat, dato: Campo<seq<int>>) returns (r: Result<Ficha, Fallo>)
      requires Valid()
      modifies this`personajes
      ensures Valid()
      ensures ChequearEleccion(Quien(token), old(personajes), id, dato).Err?
              ==> r == Err(ChequearEleccion(Quien(token), old(personajes), id, dato).error) && personajes == old(personajes)
      ensures ChequearEleccion(Quien(token), old(personajes), id, dato).Ok?
              ==> && personajes == old(personajes)[id := ChequearEleccion(Quien(token), old(personajes), id, dato).value]
                  && r == Ok(FichaGuardada(id))
    {
      var c := ChequearEleccion(Quien(token), personajes, id, dato);
      if c.Err? { return Err(c.error); }
      EleccionIntegra(Quien(token), personajes, catalogos, usuarios.Keys, id, dato);
      Escribir(id, c.value);
      r := Ok(FichaGuardada(id));
    }

    /** `subir_nivel`: the level rises by one, only `nivel` changes, and one
        SUBIR_NIVEL entry is logged. */
    method SubirNivel(token: Option<nat>, id: nat) returns (r: Result<nat, Fallo>)
      requires Valid()
      modifies this`personajes, this`auditoria
      ensures Valid()
      ensures ChequearNivel(Quien(token), old(personajes), id).Err?
              ==> r == ChequearNivel(Quien(token), old(personajes), id) && personajes == old(personajes) && auditoria == old(auditoria)
      ensures ChequearNivel(Quien(token), old(personajes), id).Ok?
              ==> && r == ChequearNivel(Quien(token), old(personajes), id)
                  && personajes == old(personajes)[id := old(personajes)[id].(nivel := old(personajes)[id].nivel + 1)]
                  && auditoria == old(auditoria) + [Registro(token.value, SUBIR_NIVEL)]
    {
      var s := Quien(token);
      var c := ChequearNivel(s, personajes, id);
      if c.Err? { return c; }
      var pj := personajes[id];
      pj := pj.(nivel := c.value);
      Escribir(id, pj);
      auditoria := auditoria + [Registro(s.id, SUBIR_NIVEL)];
      r := Ok(pj.nivel);
    }

    /** `cambiar_estado`: only `estado` changes, and one CAMBIAR_ESTADO entry
        is logged. */
    method CambiarEstado(token: Option<nat>, id: nat, estado: Option<string>) returns (r: Result<Estado, Fallo>)
      requires Valid()
      modifies this`personajes, this`auditoria
      ensures Valid()
      ensures r == ChequearEstado(Quien(token), old(personajes), id, estado)
      ensures r.Err? ==> personajes == old(personajes) && auditoria == old(auditoria)
      ensures r.Ok? ==> && personajes == old(personajes)[id := old(personajes)[id].(estado := r.value)]
                        && auditoria == old(auditoria) + [Registro(token.value, CAMBIAR_ESTADO)]
    {
      var s := Quien(token);
      var c := ChequearEstado(s, personajes, id, estado);
      if c.Err? { return c; }
      var pj := personajes[id];
      pj := pj.(estado := c.value);
      Escribir(id, pj);
      auditoria := auditoria + [Registro(s.id, CAMBIAR_ESTADO)];
      r := c;
    }

    /** `liberar`: the owner is cleared, nothing else changes, and one
        LIBERAR_PERSONAJE entry is logged. */
    method Liberar(token: Option<nat>, id: nat) returns (r: Result<(), Fallo>)
      requires Valid()
      modifies this`personajes, this`auditoria
      ensures Valid()
      ensures Acceso(Quien(token), old(personajes), id, PermisoGM).Err?
              ==> r == Err(Acceso(Quien(token), old(personajes), id, PermisoGM).error)
                  && personajes == old(personajes) && auditoria == old(auditoria)
      ensures Acceso(Quien(token), old(personajes), id, PermisoGM).Ok?
              ==> && r == Ok(())
                  && personajes == old(personajes)[id := old(personajes)[id].(propietario := None)]
                  && auditoria == old(auditoria) + [Registro(token.value, LIBERAR_PERSONAJE)]
    {
      var s := Quien(token);
      var a := Acceso(s, personajes, id, PermisoGM);
      if a.Err? { return Err(a.error); }
      var pj := a.value;
      pj := pj.(propietario := None);
      Escribir(id, pj);
      auditoria := auditoria + [Registro(s.id, LIBERAR_PERSONAJE)];
      r := Ok(());
    }

    /** `create`: the new character gets the next id. */
    method Crear(token: Option<nat>, d: DatosPersonaje) returns (r: Result<nat, Fallo>)
      requires Valid()
      modifies this`personajes, this`proximoId
      ensures Valid()
      ensures ChequearCreacion(Quien(token), catalogos, d).Err?
              ==> r == Err(ChequearCreacion(Quien(token), catalogos, d).error)
                  && personajes == old(personajes) && proximoId == old(proximoId)
      ensures ChequearCreacion(Quien(token), catalogos, d).Ok?
              ==> && r == Ok(old(proximoId)) && old(proximoId) !in old(personajes)
                  && personajes == old(personajes)[old(proximoId) := ChequearCreacion(Quien(token), catalogos, d).value]
                  && proximoId == old(proximoId) + 1
    {
      var c := ChequearCreacion(Quien(token), catalogos, d);
      if c.Err? { return Err(c.error); }
      CreacionIntegra(Quien(token), catalogos, usuarios.Keys, d);
      var nuevo := Insertar(c.value);
      r := Ok(nuevo);
    }

    /** `update`/`partial_update`: the validated fields are written. */
    method Actualizar(token: Option<nat>, id: nat, d: DatosPersonaje, parcial: bool) returns (r: Result<Personaje, Fallo>)
      requires Valid()
      modifies this`personajes
      ensures Valid()
      ensures r == ChequearActualizacion(Quien(token), old(personajes), catalogos, id, d, parcial)
      ensures r.Err? ==> personajes == old(personajes)
      ensures r.Ok? ==> personajes == old(personajes)[id := r.value]
    {
      var s := Quien(token);
      var c := ChequearActualizacion(s, personajes, catalogos, id, d, parcial);
      if c.Err? { return c; }
      ActualizacionIntegra(s, personajes, catalogos, usuarios.Keys, id, d, parcial);
      Escribir(id, c.value);
      r := c;
    }

    /** `destroy`: the owner or a GM deletes a character. */
    method Eliminar(token: Option<nat>, id: nat) returns (r: Result<(), Fallo>)
      requires Valid()
      modifies this`personajes
      ensures Valid()
      ensures Acceso(Quien(token), old(personajes), id, PermisoVista).Err?
              ==> r == Err(Acceso(Quien(token), old(personajes), id, PermisoVista).error) && personajes == old(personajes)
      ensures Acceso(Quien(token), old(personajes), id, PermisoVista).Ok?
              ==> r == Ok(()) && personajes == old(personajes) - {id}
    {
      var a := Acceso(Quien(token), personajes, id, PermisoVista);
      if a.Err? { return Err(a.error); }
      personajes := personajes - {id};
      r := Ok(());
    }

    /** `yo`: the requester's id, username and role. */
    method Yo(token: Option<nat>) returns (r: Result<Perfil, Fallo>)
      requires Valid()
      ensures Quien(token).Anonimo? ==> r == Err(F401)
      ensures r.Ok? <==> Quien(token).Autenticado?
      ensures r.Ok? ==> r.value == Perfil(token.value, usuarios[token.value].username, RolTexto(usuarios[token.value].rol))
    {
      var s := Quien(token);
      if s.Anonimo? { return Err(F401); }
      r := Ok(Perfil(s.id, usuarios[s.id].username, RolTexto(s.rol)));
    }

    /** `RegisterView.post`: open to anyone; a valid request creates a JUGADOR
        account under the next id. */
    method Registrar(username: string, email: string, password: string, password2: string) returns (r: Result<Alta, Fallo>)
      requires Valid()
      modifies this`usuarios, this`proximoId
      ensures Valid()
      ensures ValidarRegistro(old(usuarios), username, email, password, password2).Err?
              ==> && r == Err(Invalido(ValidarRegistro(old(usuarios), username, email, password, password2).error))
                  && usuarios == old(usuarios) && proximoId == old(proximoId)
      ensures ValidarRegistro(old(usuarios), username, email, password, password2).Ok?
              ==> var c := ValidarRegistro(old(usuarios), username, email, password, password2).value;
                  && r == Ok(Alta(old(proximoId), c.username, c.email, "JUGADOR"))
                  && old(proximoId) !in old(usuarios)
                  && usuarios == old(usuarios)[old(proximoId) := c]
                  && proximoId == old(proximoId) + 1
    {
      var v := ValidarRegistro(usuarios, username, email, password, password2);
      if v.Err? { return Err(Invalido(v.error)); }
      var nuevo := proximoId;
      usuarios := usuarios[nuevo := v.value];
      proximoId := proximoId + 1;
      forall id | id in personajes
        ensures Referencias(personajes[id], catalogos, usuarios.Keys)
      {
        ReferenciasCrecen(personajes[id], catalogos, catalogos, old(usuarios).Keys, usuarios.Keys);
      }
      r := Ok(Alta(nuevo, v.value.username, v.value.email, RolTexto(v.value.rol)));
    }

    /** A catalog `create`: a GM adds an entry whose name passes the
        `nombre` field and `validate_nombre`. */
    method CrearEntrada(token: Option<nat>, t: Tipo, nombre: Campo<string>) returns (r: Result<Entrada, Fallo>)
      requires Valid()
      modifies this`catalogos, this`proximoId
      ensures Valid()
      ensures Admitir(Quien(token), PermisoGM).Some? ==> r == Err(Admitir(Quien(token), PermisoGM).value)
      ensures r.Ok? <==> Admitir(Quien(token), PermisoGM).None? && NombreCatalogo(nombre).Ok?
      ensures Admitir(Quien(token), PermisoGM).None? && NombreCatalogo(nombre).Err?
              ==> r == Err(Invalido(ErrorCampo("nombre", NombreCatalogo(nombre).error)))
      ensures r.Ok? ==> && r.value == Entrada(old(proximoId), NombreCatalogo(nombre).value)
                        && old(proximoId) !in Tabla(old(catalogos), t)
                        && catalogos == ConTabla(old(catalogos), t, Tabla(old(catalogos), t)[old(proximoId) := r.value.nombre])
                        && proximoId == old(proximoId) + 1
      ensures r.Err? ==> catalogos == old(catalogos) && proximoId == old(proximoId)
    {
      var adm := Admitir(Quien(token), PermisoGM);
      if adm.Some? { return Err(adm.value); }
      var n := NombreCatalogo(nombre);
      if n.Err? { return Err(Invalido(ErrorCampo("nombre", n.error))); }
      var nuevo := AgregarEntrada(t, n.value);
      r := Ok(Entrada(nuevo, n.value));
    }

    /** A catalog `list`, for a GM only. */
    method ListarCatalogo(token: Option<nat>, t: Tipo) returns (r: Result<map<nat, string>, Fallo>)
      requires Valid()
      ensures r.Ok? <==> EsGM(Quien(token))
      ensures Quien(token).Anonimo? ==> r == Err(F401)
      ensures Quien(token).Autenticado? && !EsGM(Quien(token)) ==> r == Err(F403)
      ensures r.Ok? ==> r.value == Tabla(catalogos, t)
    {
      var adm := Admitir(Quien(token), PermisoGM);
      if adm.Some? { return Err(adm.value); }
      r := Ok(Tabla(catalogos, t));
    }
  }
}
