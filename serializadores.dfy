/** The serializers' validation and output rules (backend/core/serializers.py),
    together with the parts of Django REST framework's field handling they
    rely on: a string field strips surrounding whitespace and refuses a blank
    or null value, a foreign-key field refuses an id with no row. */
module Serializadores {
  import opened Comun
  import opened Texto
  import opened Modelos
  import opened Permisos

  // Django REST framework's default field messages.
  const MsgRequerido := "This field is required."
  const MsgEnBlanco := "This field may not be blank."
  const MsgNulo := "This field may not be null."
  const MsgListaVacia := "This list may not be empty."
  const MsgMinDosElementos := "Ensure this field has at least 2 elements."
  const MsgMaxDosElementos := "Ensure this field has no more than 2 elements."
  const MsgMinSeisCaracteres := "Ensure this field has at least 6 characters."
  const MsgUsuarioDuplicado := "A user with that username already exists."

  function MsgPkInexistente(h: nat): string {
    "Invalid pk \"" + Decimal(h) + "\" - object does not exist."
  }

  /** An error body with one message for one field. */
  function ErrorCampo(campo: string, msg: string): map<string, Json> {
    map[campo := Lista([msg])]
  }

  /** A present string value through a DRF `CharField`: surrounding whitespace
      is stripped and a blank result is refused. */
  function CampoTexto(s: string): (r: Result<string, string>)
    ensures r.Ok? <==> exists k :: 0 <= k < |s| && !EspacioPython(s[k])
    ensures r.Ok? ==> r.value == StripPy(s)
    ensures r.Err? ==> r.error == MsgEnBlanco
  {
    var t := StripPy(s);
    if t == [] then Err(MsgEnBlanco) else Ok(t)
  }

  lemma ProhibidoNoEsEspacio()
    ensures forall c :: Prohibido(c) ==> !EspacioPython(c)
  {}

  // ---------------------------------------------------------------- catalogs

  const MsgNombreVacio := "El nombre no puede estar vacío."
  const MsgNombrePeligroso := "Nombre inválido: contiene caracteres peligrosos."

  /** `validate_nombre` of the four catalog serializers: a name that is empty
      once stripped, or that contains a forbidden character, is refused; an
      accepted name is stored stripped. */
  function ValidarNombreCatalogo(v: string): (r: Result<string, string>)
    ensures r.Ok? <==> StripPy(v) != [] && !ContieneProhibido(v)
    ensures r.Ok? ==> r.value == StripPy(v) && !ContieneProhibido(r.value)
    ensures StripPy(v) == [] ==> r == Err(MsgNombreVacio)
    ensures StripPy(v) != [] && ContieneProhibido(v) ==> r == Err(MsgNombrePeligroso)
  {
    ProhibidoNoEsEspacio();
    ProhibidoTrasRecortar(v, EspacioPython);
    if StripPy(v) == [] then Err(MsgNombreVacio)
    else if ContieneProhibido(v) then Err(MsgNombrePeligroso)
    else Ok(StripPy(v))
  }

  /** A stored catalog name validates again to itself. */
  lemma NombreCatalogoEstable(v: string)
    requires ValidarNombreCatalogo(v).Ok?
    ensures ValidarNombreCatalogo(ValidarNombreCatalogo(v).value) == ValidarNombreCatalogo(v)
  {
    RecortarIdempotente(v, EspacioPython);
  }

  /** The `nombre` field of a catalog request, field handling first and then
      `validate_nombre`. Because the field already refuses a blank name, the
      validator's own "empty" message is never the one reported. */
  function NombreCatalogo(c: Campo<string>): (r: Result<string, string>)
    ensures r.Ok? <==> c.Valor? && StripPy(c.v) != [] && !ContieneProhibido(c.v)
    ensures r.Ok? ==> r.value == StripPy(c.v)
    ensures c.Ausente? ==> r == Err(MsgRequerido)
    ensures c.Nulo? ==> r == Err(MsgNulo)
    ensures r != Err(MsgNombreVacio)
  {
    match c
    case Ausente => Err(MsgRequerido)
    case Nulo => Err(MsgNulo)
    case Valor(s) =>
      var t := CampoTexto(s);
      if t.Err? then Err(t.error)
      else
        RecortarIdempotente(s, EspacioPython);
        ProhibidoNoEsEspacio();
        ProhibidoTrasRecortar(s, EspacioPython);
        ValidarNombreCatalogo(t.value)
  }

  // -------------------------------------------------------------- characters

  const MsgNombreCorto := "El nombre debe tener al menos 3 caracteres."
  const MsgNombreConProhibidos := "El nombre contiene caracteres no permitidos."

  /** `PersonajeSerializer.validate_nombre`: the stripped name must have at
      least 3 characters and no forbidden character; it is stored stripped. */
  function ValidarNombrePersonaje(v: string): (r: Result<string, string>)
    ensures r.Ok? <==> |StripPy(v)| >= 3 && !ContieneProhibido(v)
    ensures r.Ok? ==> r.value == StripPy(v) && !ContieneProhibido(r.value)
    ensures |StripPy(v)| < 3 ==> r == Err(MsgNombreCorto)
    ensures |StripPy(v)| >= 3 && ContieneProhibido(v) ==> r == Err(MsgNombreConProhibidos)
  {
    ProhibidoNoEsEspacio();
    ProhibidoTrasRecortar(v, EspacioPython);
    var t := StripPy(v);
    if |t| < 3 then Err(MsgNombreCorto)
    else if ContieneProhibido(t) then Err(MsgNombreConProhibidos)
    else Ok(t)
  }

  /** A name accepted by the serializer also passes the name check of
      `Personaje.clean`. */
  lemma NombreAceptadoEsLimpio(v: string, pj: Personaje)
    requires ValidarNombrePersonaje(v).Ok?
    requires pj.nombre == ValidarNombrePersonaje(v).value && pj.nivel >= 1
    ensures Limpiar(pj).None?
  {}

  /** `PersonajeSerializer.create`: a GM creates a character for the pool,
      anyone else becomes its owner. */
  function PropietarioAlCrear(s: Solicitante): (r: Option<nat>)
    requires s.Autenticado?
    ensures r.None? <==> EsGM(s)
    ensures !EsGM(s) ==> r == Some(s.id)
  {
    if EsGM(s) then None else Some(s.id)
  }

  /** The writable fields of a create or update request. */
  datatype DatosPersonaje = DatosPersonaje(
    nombre: Campo<string>,
    raza: Campo<nat>,
    poder: Campo<nat>,
    equipamiento: Campo<nat>)

  /** The validated fields to write; `None` leaves a column as it is. */
  datatype Cambios = Cambios(
    nombre: Option<string>,
    raza: Option<nat>,
    poder: Option<nat>,
    equipamiento: Option<nat>)

  /** The `nombre` field of a character request. A missing field is an error
      unless the request is partial. */
  function CampoNombre(c: Campo<string>, parcial: bool): (r: Result<Option<string>, string>)
    ensures r.Ok? && r.value.Some? <==> c.Valor? && ValidarNombrePersonaje(c.v).Ok?
    ensures r.Ok? && r.value.Some? ==> r.value.value == ValidarNombrePersonaje(c.v).value
    ensures r.Ok? && r.value.None? <==> c.Ausente? && parcial
  {
    match c
    case Ausente => if parcial then Ok(None) else Err(MsgRequerido)
    case Nulo => Err(MsgNulo)
    case Valor(s) =>
      var t := CampoTexto(s);
      if t.Err? then Err(t.error)
      else
        RecortarIdempotente(s, EspacioPython);
        ProhibidoNoEsEspacio();
        ProhibidoTrasRecortar(s, EspacioPython);
        var n := ValidarNombrePersonaje(t.value);
        if n.Err? then Err(n.error) else Ok(Some(n.value))
  }

  /** A non-nullable foreign-key field: the id must name a row of `tabla`. */
  function CampoClave(c: Campo<nat>, tabla: map<nat, string>, parcial: bool): (r: Result<Option<nat>, string>)
    ensures r.Ok? && r.value.Some? <==> c.Valor? && c.v in tabla
    ensures r.Ok? && r.value.Some? ==> r.value.value == c.v
    ensures r.Ok? && r.value.None? <==> c.Ausente? && parcial
    ensures c.Nulo? ==> r == Err(MsgNulo)
  {
    match c
    case Ausente => if parcial then Ok(None) else Err(MsgRequerido)
    case Nulo => Err(MsgNulo)
    case Valor(h) => if h in tabla then Ok(Some(h)) else Err(MsgPkInexistente(h))
  }

  /** Adds the message of a failed field to an error body. */
  function Anotar<T>(errores: map<string, Json>, campo: string, r: Result<T, string>): map<string, Json> {
    if r.Err? then errores[campo := Lista([r.error])] else errores
  }

  /** A create or update request through `PersonajeSerializer` (`completo`) or
      through `PersonajeActualizarSerializer`, where `raza`, `poder` and
      `equipamiento` are read-only and whatever the request says about them
      is ignored. Every failing field is reported. */
  function ValidarPersonaje(d: DatosPersonaje, cat: Catalogos, completo: bool, parcial: bool): (r: Result<Cambios, map<string, Json>>)
    ensures r.Ok? <==>
      && CampoNombre(d.nombre, parcial).Ok?
      && (completo ==> && CampoClave(d.raza, cat.razas, parcial).Ok?
                       && CampoClave(d.poder, cat.poderes, parcial).Ok?
                       && CampoClave(d.equipamiento, cat.equipamientos, parcial).Ok?)
    ensures r.Ok? && !completo ==> r.value.raza.None? && r.value.poder.None? && r.value.equipamiento.None?
    ensures r.Ok? && r.value.nombre.Some? ==> d.nombre.Valor? && ValidarNombrePersonaje(d.nombre.v) == Ok(r.value.nombre.value)
    ensures r.Ok? && r.value.raza.Some? ==> d.raza == Valor(r.value.raza.value) && r.value.raza.value in cat.razas
    ensures r.Ok? && r.value.poder.Some? ==> d.poder == Valor(r.value.poder.value) && r.value.poder.value in cat.poderes
    ensures r.Ok? && r.value.equipamiento.Some? ==> d.equipamiento == Valor(r.value.equipamiento.value) && r.value.equipamiento.value in cat.equipamientos
    ensures r.Ok? && !parcial ==> r.value.nombre.Some? && (completo ==> r.value.raza.Some? && r.value.poder.Some? && r.value.equipamiento.Some?)
    ensures r.Err? ==> ("nombre" in r.error <==> CampoNombre(d.nombre, parcial).Err?)
    ensures r.Err? && completo ==> ("raza" in r.error <==> CampoClave(d.raza, cat.razas, parcial).Err?)
  {
    var n := CampoNombre(d.nombre, parcial);
    var ra := if completo then CampoClave(d.raza, cat.razas, parcial) else Ok(None);
    var po := if completo then CampoClave(d.poder, cat.poderes, parcial) else Ok(None);
    var eq := if completo then CampoClave(d.equipamiento, cat.equipamientos, parcial) else Ok(None);
    if n.Ok? && ra.Ok? && po.Ok? && eq.Ok? then
      Ok(Cambios(n.value, ra.value, po.value, eq.value))
    else
      Err(Anotar(Anotar(Anotar(Anotar(map[], "nombre", n), "raza", ra), "poder", po), "equipamiento", eq))
  }

  /** `serializer.save()` on an existing character: only the validated
      fields are written. */
  function Aplicar(pj: Personaje, c: Cambios): (r: Personaje)
    ensures r.nombre == (if c.nombre.Some? then c.nombre.value else pj.nombre)
    ensures r.raza == (if c.raza.Some? then c.raza.value else pj.raza)
    ensures r.poder == (if c.poder.Some? then c.poder.value else pj.poder)
    ensures r.equipamiento == (if c.equipamiento.Some? then c.equipamiento.value else pj.equipamiento)
    ensures r == pj.(nombre := r.nombre, raza := r.raza, poder := r.poder, equipamiento := r.equipamiento)
  {
    pj.(nombre := if c.nombre.Some? then c.nombre.value else pj.nombre,
        raza := if c.raza.Some? then c.raza.value else pj.raza,
        poder := if c.poder.Some? then c.poder.value else pj.poder,
        equipamiento := if c.equipamiento.Some? then c.equipamiento.value else pj.equipamiento)
  }

  // ------------------------------------------------------------ skill slots

  function Cuantos(slots: seq<Option<nat>>): nat {
    if slots == [] then 0 else (if slots[0].Some? then 1 else 0) + Cuantos(slots[1..])
  }

  /** The ids of the non-null slots, in slot order. */
  function Presentes(slots: seq<Option<nat>>): (r: seq<nat>)
    ensures |r| == Cuantos(slots) && |r| <= |slots|
    ensures forall h :: h in r <==> Some(h) in slots
    ensures forall k :: 0 <= k < |slots| && slots[k].Some? ==>
      Cuantos(slots[..k]) < |r| && r[Cuantos(slots[..k])] == slots[k].value
  {
    if slots == [] then []
    else
      var resto := Presentes(slots[1..]);
      var r := (if slots[0].Some? then [slots[0].value] else []) + resto;
      forall k | 0 < k < |slots| && slots[k].Some?
        ensures Cuantos(slots[..k]) < |r| && r[Cuantos(slots[..k])] == slots[k].value
      {
        assert slots[..k] == [slots[0]] + slots[1..][..k - 1];
        assert slots[..k][1..] == slots[1..][..k - 1];
        assert slots[1..][k - 1] == slots[k];
      }
      r
  }

  /** `get_opciones`, by id: the offered skills in slot order, at most 3. */
  function Opciones(pj: Personaje): (r: seq<nat>)
    ensures |r| <= 3
    ensures forall h :: h in r <==> Some(h) in [pj.opcion1, pj.opcion2, pj.opcion3]
    ensures pj.opcion1.Some? ==> r[0] == pj.opcion1.value
  {
    var slots := [pj.opcion1, pj.opcion2, pj.opcion3];
    assert slots[..0] == [];
    Presentes(slots)
  }

  /** `get_seleccion`, by id: the chosen skills in slot order, at most 2. */
  function Seleccion(pj: Personaje): (r: seq<nat>)
    ensures |r| <= 2
    ensures forall h :: h in r <==> Some(h) in [pj.habilidad1, pj.habilidad2]
    ensures pj.habilidad1.Some? ==> r[0] == pj.habilidad1.value
  {
    var slots := [pj.habilidad1, pj.habilidad2];
    assert slots[..0] == [];
    Presentes(slots)
  }

  /** A catalog entry as the listing shows it. */
  datatype Entrada = Entrada(id: nat, nombre: string)

  /** A character as `PersonajeListaSerializer` lists it. The `raza`, `poder`
      and `equipamiento` ids are `None` when the record does not carry them. */
  datatype Ficha = Ficha(
    id: nat,
    nombre: string,
    nivel: nat,
    estado: string,
    razaNombre: string,
    poderNombre: string,
    equipamientoNombre: string,
    propietarioUsername: Option<string>,
    raza: Option<nat>,
    poder: Option<nat>,
    equipamiento: Option<nat>,
    opciones: seq<Entrada>,
    seleccion: seq<Entrada>)

  function Entradas(ids: seq<nat>, tabla: map<nat, string>): (r: seq<Entrada>)
    requires forall k :: 0 <= k < |ids| ==> ids[k] in tabla
    ensures |r| == |ids|
    ensures forall k :: 0 <= k < |ids| ==> r[k] == Entrada(ids[k], tabla[ids[k]])
  {
    if ids == [] then [] else [Entrada(ids[0], tabla[ids[0]])] + Entradas(ids[1..], tabla)
  }

  /** The ids of a list of entries. */
  function Ids(es: seq<Entrada>): (r: seq<nat>)
    ensures |r| == |es| && forall k :: 0 <= k < |es| ==> r[k] == es[k].id
  {
    if es == [] then [] else [es[0].id] + Ids(es[1..])
  }

  /** `PersonajeListaSerializer(pj).data`, as written: its field list names
      the race, power and equipment only by their names, so the record carries
      no `raza`, `poder` or `equipamiento` id. */
  function FichaDe(id: nat, pj: Personaje, cat: Catalogos, usuarios: map<nat, Cuenta>): (f: Ficha)
    requires Referencias(pj, cat, usuarios.Keys)
    ensures f.id == id && f.nombre == pj.nombre && f.nivel == pj.nivel && f.estado == EstadoTexto(pj.estado)
    ensures f.razaNombre == cat.razas[pj.raza] && f.poderNombre == cat.poderes[pj.poder]
    ensures f.equipamientoNombre == cat.equipamientos[pj.equipamiento]
    ensures f.raza.None? && f.poder.None? && f.equipamiento.None?
    ensures f.propietarioUsername.Some? <==> pj.propietario.Some?
    ensures pj.propietario.Some? ==> f.propietarioUsername == Some(usuarios[pj.propietario.value].username)
    ensures (forall k :: 0 <= k < |Opciones(pj)| ==> Opciones(pj)[k] in cat.habilidades)
            && f.opciones == Entradas(Opciones(pj), cat.habilidades)
    ensures (forall k :: 0 <= k < |Seleccion(pj)| ==> Seleccion(pj)[k] in cat.habilidades)
            && f.seleccion == Entradas(Seleccion(pj), cat.habilidades)
    ensures Ids(f.opciones) == Opciones(pj) && Ids(f.seleccion) == Seleccion(pj)
    ensures |f.opciones| <= 3 && |f.seleccion| <= 2
  {
    var ops := Opciones(pj);
    var sel := Seleccion(pj);
    assert forall k :: 0 <= k < |ops| ==> Some(ops[k]) in [pj.opcion1, pj.opcion2, pj.opcion3];
    assert forall k :: 0 <= k < |sel| ==> Some(sel[k]) in [pj.habilidad1, pj.habilidad2];
    var fo := Entradas(ops, cat.habilidades);
    var fs := Entradas(sel, cat.habilidades);
    assert Ids(fo) == ops;
    assert Ids(fs) == sel;
    Ficha(id, pj.nombre, pj.nivel, EstadoTexto(pj.estado),
          cat.razas[pj.raza], cat.poderes[pj.poder], cat.equipamientos[pj.equipamiento],
          if pj.propietario.Some? then Some(usuarios[pj.propietario.value].username) else None,
          None, None, None,
          fo, fs)
  }

  /** The listing with the ids of the race, power and equipment added to its
      fields, which is what the edit form of the characters page reads. */
  function FichaConIds(id: nat, pj: Personaje, cat: Catalogos, usuarios: map<nat, Cuenta>): (f: Ficha)
    requires Referencias(pj, cat, usuarios.Keys)
    ensures f == FichaDe(id, pj, cat, usuarios).(raza := f.raza, poder := f.poder, equipamiento := f.equipamiento)
    ensures f.raza == Some(pj.raza) && f.poder == Some(pj.poder) && f.equipamiento == Some(pj.equipamiento)
  {
    FichaDe(id, pj, cat, usuarios).(raza := Some(pj.raza), poder := Some(pj.poder), equipamiento := Some(pj.equipamiento))
  }

  // -------------------------------------------------------- offered options

  /** A nullable foreign-key field of `PersonajeOpcionesSerializer` in a
      partial update: missing leaves the slot, `null` clears it, an id must
      name a skill. */
  function CampoOpcion(c: Campo<nat>, habilidades: map<nat, string>): (r: Result<Campo<nat>, string>)
    ensures r.Ok? <==> !c.Valor? || c.v in habilidades
    ensures r.Ok? ==> r.value == c
  {
    if c.Valor? && c.v !in habilidades then Err(MsgPkInexistente(c.v)) else Ok(c)
  }

  /** A slot after a partial update of it. */
  function Escribir(actual: Option<nat>, c: Campo<nat>): (r: Option<nat>)
    ensures c.Ausente? ==> r == actual
    ensures c.Nulo? ==> r.None?
    ensures c.Valor? ==> r == Some(c.v)
  {
    match c
    case Ausente => actual
    case Nulo => None
    case Valor(h) => Some(h)
  }

  /** The `set-opciones` request: every failing slot is reported; on success
      the character with its offered slots written and nothing else changed. */
  function ValidarOpciones(pj: Personaje, o1: Campo<nat>, o2: Campo<nat>, o3: Campo<nat>, habilidades: map<nat, string>): (r: Result<Personaje, map<string, Json>>)
    ensures r.Ok? <==> (!o1.Valor? || o1.v in habilidades) && (!o2.Valor? || o2.v in habilidades) && (!o3.Valor? || o3.v in habilidades)
    ensures r.Ok? ==> r.value == pj.(opcion1 := Escribir(pj.opcion1, o1), opcion2 := Escribir(pj.opcion2, o2), opcion3 := Escribir(pj.opcion3, o3))
    ensures r.Err? ==> ("opcion_hab1" in r.error <==> o1.Valor? && o1.v !in habilidades)
  {
    var a, b, c := CampoOpcion(o1, habilidades), CampoOpcion(o2, habilidades), CampoOpcion(o3, habilidades);
    if a.Ok? && b.Ok? && c.Ok? then
      Ok(pj.(opcion1 := Escribir(pj.opcion1, o1), opcion2 := Escribir(pj.opcion2, o2), opcion3 := Escribir(pj.opcion3, o3)))
    else
      Err(Anotar(Anotar(Anotar(map[], "opcion_hab1", a), "opcion_hab2", b), "opcion_hab3", c))
  }

  // ----------------------------------------------------------- skill choice

  const MsgDistintas := "Debes elegir exactamente 2 habilidades distintas."
  const MsgFueraDeOpciones := "Las habilidades elegidas deben estar dentro de las opciones del personaje."

  /** The offered skill ids as a set of integers. */
  function IdsOpciones(pj: Personaje): (r: set<int>)
    ensures forall h: int :: h in r <==> h >= 0 && Some(h as nat) in [pj.opcion1, pj.opcion2, pj.opcion3]
  {
    set h | h in Opciones(pj) :: h as int
  }

  /** `ElegirHabilidadesSerializer`: a list of exactly 2 integers, with
      2 distinct values, each among the character's non-null offered skills.
      The result is the set of the two. */
  function ValidarEleccion(pj: Personaje, dato: Campo<seq<int>>): (r: Result<set<int>, map<string, Json>>)
    ensures r.Ok? <==> dato.Valor? && |dato.v| == 2 && dato.v[0] != dato.v[1]
                       && dato.v[0] in IdsOpciones(pj) && dato.v[1] in IdsOpciones(pj)
    ensures r.Ok? ==> r.value == {dato.v[0], dato.v[1]} && |r.value| == 2 && r.value <= IdsOpciones(pj)
    ensures dato.Valor? && |dato.v| == 2 && dato.v[0] == dato.v[1] ==> r == Err(ErrorCampo("non_field_errors", MsgDistintas))
  {
    match dato
    case Ausente => Err(ErrorCampo("habilidades", MsgRequerido))
    case Nulo => Err(ErrorCampo("habilidades", MsgNulo))
    case Valor(hs) =>
      if |hs| == 0 then Err(ErrorCampo("habilidades", MsgListaVacia))
      else if |hs| < 2 then Err(ErrorCampo("habilidades", MsgMinDosElementos))
      else if |hs| > 2 then Err(ErrorCampo("habilidades", MsgMaxDosElementos))
      else
        var elegidas := {hs[0], hs[1]};
        // For a list of two, `len(set(value)) != 2` is `hs[0] == hs[1]`.
        if hs[0] == hs[1] then Err(ErrorCampo("non_field_errors", MsgDistintas))
        else if !(elegidas <= IdsOpciones(pj)) then Err(ErrorCampo("non_field_errors", MsgFueraDeOpciones))
        else Ok(elegidas)
  }

  /** `ElegirHabilidadesSerializer.save`: the two chosen ids are written to the
      two selected slots, in either order. */
  predicate EleccionGuardada(antes: Personaje, despues: Personaje, elegidas: set<int>) {
    && despues.habilidad1.Some? && despues.habilidad2.Some?
    && {despues.habilidad1.value as int, despues.habilidad2.value as int} == elegidas
    && despues == antes.(habilidad1 := despues.habilidad1, habilidad2 := despues.habilidad2)
  }

  /** The record `save` writes, with `a` and `b` in the two chosen slots. */
  function GuardarEleccion(pj: Personaje, a: nat, b: nat): (r: Personaje)
    ensures EleccionGuardada(pj, r, {a as int, b as int})
  {
    pj.(habilidad1 := Some(a), habilidad2 := Some(b))
  }

  /** Writing an accepted choice keeps the record's references and its
      `clean` verdict: the chosen ids are offered ones, and offered ones name
      skills. */
  lemma EleccionConserva(pj: Personaje, dato: Campo<seq<int>>, r: Personaje, cat: Catalogos, us: set<nat>)
    requires Referencias(pj, cat, us)
    requires ValidarEleccion(pj, dato).Ok?
    requires EleccionGuardada(pj, r, ValidarEleccion(pj, dato).value)
    ensures Referencias(r, cat, us) && Limpiar(r) == Limpiar(pj)
  {
    var e := ValidarEleccion(pj, dato).value;
    var a, b := r.habilidad1.value, r.habilidad2.value;
    assert a as int in e && b as int in e;
    assert Some(a) in [pj.opcion1, pj.opcion2, pj.opcion3];
    assert Some(b) in [pj.opcion1, pj.opcion2, pj.opcion3];
  }

  /** Writing accepted changes keeps the record's references and its `clean`
      verdict. */
  lemma AplicarConserva(pj: Personaje, d: DatosPersonaje, cat: Catalogos, us: set<nat>, completo: bool, parcial: bool)
    requires Referencias(pj, cat, us) && Limpiar(pj).None?
    requires ValidarPersonaje(d, cat, completo, parcial).Ok?
    ensures Referencias(Aplicar(pj, ValidarPersonaje(d, cat, completo, parcial).value), cat, us)
    ensures Limpiar(Aplicar(pj, ValidarPersonaje(d, cat, completo, parcial).value)).None?
  {
    var c := ValidarPersonaje(d, cat, completo, parcial).value;
    if c.nombre.Some? {
      NombreAceptadoEsLimpio(d.nombre.v, Aplicar(pj, c));
    }
  }

  // ------------------------------------------------------------ registration

  const MsgUsuarioExiste := "Ese usuario ya existe."
  const MsgEmailEnUso := "Ese email ya está en uso."
  const MsgClavesDistintas := "Las contraseñas no coinciden."

  predicate UsuarioExacto(usuarios: map<nat, Cuenta>, u: string) {
    exists id :: id in usuarios && usuarios[id].username == u
  }

  predicate UsuarioParecido(usuarios: map<nat, Cuenta>, u: string) {
    exists id :: id in usuarios && IgualSinMayusculas(usuarios[id].username, u)
  }

  predicate EmailParecido(usuarios: map<nat, Cuenta>, e: string) {
    exists id :: id in usuarios && IgualSinMayusculas(usuarios[id].email, e)
  }

  /** The `username` field: stripped, not blank, not taken exactly (the
      model's unique constraint) and not taken ignoring case
      (`validate_username`). */
  function CampoUsuario(usuarios: map<nat, Cuenta>, u: string): (r: Result<string, string>)
    ensures r.Ok? <==> StripPy(u) != [] && !UsuarioParecido(usuarios, StripPy(u))
    ensures r.Ok? ==> r.value == StripPy(u)
  {
    var t := StripPy(u);
    if t == [] then Err(MsgEnBlanco)
    else if UsuarioExacto(usuarios, t) then Err(MsgUsuarioDuplicado)
    else if UsuarioParecido(usuarios, t) then Err(MsgUsuarioExiste)
    else Ok(t)
  }

  /** The `email` field: stripped, may be blank, and a non-blank email must
      not be in use ignoring case (`validate_email`). */
  function CampoEmail(usuarios: map<nat, Cuenta>, e: string): (r: Result<string, string>)
    ensures r.Ok? <==> StripPy(e) == [] || !EmailParecido(usuarios, StripPy(e))
    ensures r.Ok? ==> r.value == StripPy(e)
  {
    var t := StripPy(e);
    if t != [] && EmailParecido(usuarios, t) then Err(MsgEmailEnUso) else Ok(t)
  }

  /** A password field: stripped, not blank, at least 6 characters. */
  function CampoClaveAcceso(p: string): (r: Result<string, string>)
    ensures r.Ok? <==> |StripPy(p)| >= 6
    ensures r.Ok? ==> r.value == StripPy(p)
  {
    var t := StripPy(p);
    if t == [] then Err(MsgEnBlanco)
    else if |t| < 6 then Err(MsgMinSeisCaracteres)
    else Ok(t)
  }

  /** `RegisterSerializer`: the field checks, all reported together, then
      the object check that both passwords agree; on success the new account,
      whose role is JUGADOR. */
  function ValidarRegistro(usuarios: map<nat, Cuenta>, username: string, email: string, password: string, password2: string): (r: Result<Cuenta, map<string, Json>>)
    ensures r.Ok? <==>
      && StripPy(username) != [] && !UsuarioParecido(usuarios, StripPy(username))
      && (StripPy(email) == [] || !EmailParecido(usuarios, StripPy(email)))
      && |StripPy(password)| >= 6 && |StripPy(password2)| >= 6
      && StripPy(password) == StripPy(password2)
    ensures r.Ok? ==> r.value == Cuenta(StripPy(username), StripPy(email), JUGADOR)
    ensures r.Err? && CampoUsuario(usuarios, username).Ok? && CampoEmail(usuarios, email).Ok?
            && CampoClaveAcceso(password).Ok? && CampoClaveAcceso(password2).Ok?
            ==> r.error == ErrorCampo("password2", MsgClavesDistintas)
    ensures r.Err? ==> ("username" in r.error <==> CampoUsuario(usuarios, username).Err?)
    ensures r.Err? ==> ("email" in r.error <==> CampoEmail(usuarios, email).Err?)
    ensures r.Err? ==> ("password" in r.error <==> CampoClaveAcceso(password).Err?)
  {
    var u := CampoUsuario(usuarios, username);
    var e := CampoEmail(usuarios, email);
    var p1 := CampoClaveAcceso(password);
    var p2 := CampoClaveAcceso(password2);
    if u.Err? || e.Err? || p1.Err? || p2.Err? then
      Err(Anotar(Anotar(Anotar(Anotar(map[], "username", u), "email", e), "password", p1), "password2", p2))
    else if p1.value != p2.value then
      Err(ErrorCampo("password2", MsgClavesDistintas))
    else
      Ok(Cuenta(u.value, e.value, RolPorDefecto))
  }
}
