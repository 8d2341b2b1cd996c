/** The characters page (frontend/src/pages/Personajes.jsx): the bodies it
    sends, the drafts it seeds from the listings, the two-skill checkbox
    selection and its gate, the alerts after a failed request, and the GM's
    editor form. Each request receives the backend's answer as a parameter. */
module PaginaPersonajes {
  import opened Comun
  import opened Texto
  import opened Modelos
  import opened Permisos
  import opened Serializadores
  import opened Vistas

  // ------------------------------------------------------- values of the page

  /** A JavaScript value held in a draft: `undefined`, a number or a string. */
  datatype ValorJs = Indefinido | Num(n: nat) | Cad(s: string)

  /** `Number(s)` as `JSON.stringify` sends it: a number for a string of
      decimal digits, `null` for NaN. */
  function NumeroJson(s: string): (c: Campo<nat>)
    ensures c.Valor? <==> EsDecimal(s)
    ensures c.Valor? ==> EsDecimal(s) && c.v == ValorDecimal(s)
    ensures !c.Valor? ==> c == Nulo
  {
    match Numero(s)
    case Some(n) => Valor(n)
    case None => Nulo
  }

  /** `v ? Number(v) : null`, a select of the editor form in the body. */
  function CampoDeForm(v: string): (c: Campo<nat>)
    ensures v == "" ==> c == Nulo
    ensures EsDecimal(v) ==> c == Valor(ValorDecimal(v))
    ensures !EsDecimal(v) ==> c == Nulo
  {
    if v == "" then Nulo else NumeroJson(v)
  }

  /** `toInt` of `guardarOpcionesGM`: "" and `undefined` are `null`,
      anything else is `Number(v)`. */
  function ToInt(v: ValorJs): (c: Campo<nat>)
    ensures v == Indefinido || v == Cad("") ==> c == Nulo
    ensures v.Num? ==> c == Valor(v.n)
    ensures v.Cad? && EsDecimal(v.s) ==> c == Valor(ValorDecimal(v.s))
    ensures v.Cad? && !EsDecimal(v.s) ==> c == Nulo
  {
    match v
    case Indefinido => Nulo
    case Num(n) => Valor(n)
    case Cad(s) => if s == "" then Nulo else NumeroJson(s)
  }

  /** An id rendered as the value of an `<option>` and read back by either
      conversion is the id again. */
  lemma IdIdaYVuelta(n: nat)
    ensures CampoDeForm(Decimal(n)) == Valor(n)
    ensures ToInt(Cad(Decimal(n))) == Valor(n)
  {
    NumeroDeDecimal(n);
  }

  // ------------------------------------------------------------ editor form

  /** The editor form: the name as typed and the three selects, each the
      value of the chosen `<option>` or "" for "Selecciona...". */
  datatype Formulario = Formulario(nombre: string, raza: string, poder: string, equipo: string)

  const FormVacio := Formulario("", "", "", "")

  /** The body of `crear` and `guardarCambios`. */
  function Carga(f: Formulario): (d: DatosPersonaje)
    ensures d.nombre == Valor(f.nombre)
    ensures d.raza == CampoDeForm(f.raza) && d.poder == CampoDeForm(f.poder) && d.equipamiento == CampoDeForm(f.equipo)
  {
    DatosPersonaje(Valor(f.nombre), CampoDeForm(f.raza), CampoDeForm(f.poder), CampoDeForm(f.equipo))
  }

  /** `String(x || "")` on an id the listing may lack: "" when it is missing
      or 0, its decimal form otherwise. */
  function CadenaDeId(o: Option<nat>): (s: string)
    ensures s == "" <==> o.None? || o == Some(0)
    ensures o.Some? && o.value != 0 ==> s == Decimal(o.value)
  {
    if o.Some? && o.value != 0 then Decimal(o.value) else ""
  }

  /** `prepararEdicion`: the form filled from a listed character. */
  function FormularioDe(p: Ficha): (f: Formulario)
    ensures f.nombre == p.nombre
    ensures f.raza == CadenaDeId(p.raza) && f.poder == CadenaDeId(p.poder) && f.equipo == CadenaDeId(p.equipamiento)
  {
    Formulario(p.nombre, CadenaDeId(p.raza), CadenaDeId(p.poder), CadenaDeId(p.equipamiento))
  }

  /** Filling the form from a listing and sending it untouched sends the
      listed ids back, and `null` for each one the listing lacks (or that
      is 0). */
  lemma CargaDeEdicion(p: Ficha)
    ensures Carga(FormularioDe(p)).nombre == Valor(p.nombre)
    ensures p.raza.Some? && p.raza.value != 0 ==> Carga(FormularioDe(p)).raza == Valor(p.raza.value)
    ensures p.poder.Some? && p.poder.value != 0 ==> Carga(FormularioDe(p)).poder == Valor(p.poder.value)
    ensures p.equipamiento.Some? && p.equipamiento.value != 0
            ==> Carga(FormularioDe(p)).equipamiento == Valor(p.equipamiento.value)
    ensures p.raza.None? || p.raza == Some(0) ==> Carga(FormularioDe(p)).raza == Nulo
    ensures p.poder.None? || p.poder == Some(0) ==> Carga(FormularioDe(p)).poder == Nulo
    ensures p.equipamiento.None? || p.equipamiento == Some(0) ==> Carga(FormularioDe(p)).equipamiento == Nulo
  {
    if p.raza.Some? && p.raza.value != 0 { IdIdaYVuelta(p.raza.value); }
    if p.poder.Some? && p.poder.value != 0 { IdIdaYVuelta(p.poder.value); }
    if p.equipamiento.Some? && p.equipamiento.value != 0 { IdIdaYVuelta(p.equipamiento.value); }
  }

  /** A form with a valid name and an existing row chosen in each select is
      accepted by `create`. */
  lemma FormularioCompletoAceptado(nombre: string, r: nat, p: nat, e: nat, cat: Catalogos)
    requires ValidarNombrePersonaje(nombre).Ok?
    requires r in cat.razas && p in cat.poderes && e in cat.equipamientos
    ensures ValidarPersonaje(Carga(Formulario(nombre, Decimal(r), Decimal(p), Decimal(e))), cat, true, false).Ok?
  {
    IdIdaYVuelta(r);
    IdIdaYVuelta(p);
    IdIdaYVuelta(e);
  }

  /** A select left at "Selecciona..." makes the backend refuse the body with
      "may not be null" on that field. */
  lemma FormularioSinRaza(f: Formulario, cat: Catalogos, parcial: bool)
    requires f.raza == ""
    ensures ValidarPersonaje(Carga(f), cat, true, parcial).Err?
    ensures ValidarPersonaje(Carga(f), cat, true, parcial).error["raza"] == Lista([MsgNulo])
  {}

  /** As written, editing a character and saving it untouched is refused:
      the listing as written has no race, power or equipment id, so the form
      holds "" in all three selects and the body sends `null`, which the GM's
      serializer rejects even in a partial update. */
  lemma EdicionSinCambiosRechazada(s: Solicitante, m: map<nat, Personaje>, cat: Catalogos, us: map<nat, Cuenta>, id: nat)
    requires EsGM(s) && id in m && Referencias(m[id], cat, us.Keys)
    ensures var d := Carga(FormularioDe(FichaDe(id, m[id], cat, us)));
            && d.raza == Nulo && d.poder == Nulo && d.equipamiento == Nulo
            && ValidarPersonaje(d, cat, true, true).Err?
            && ValidarPersonaje(d, cat, true, true).error["raza"] == Lista([MsgNulo])
            && ChequearActualizacion(s, m, cat, id, d, true).Err?
  {
    var f := FichaDe(id, m[id], cat, us);
    CargaDeEdicion(f);
    FormularioSinRaza(FormularioDe(f), cat, true);
  }

  /** With the ids in the listing, saving an untouched edit of a living
      character with a clean stored name writes the character back as it was.
      Database ids start at 1, so no id is 0. */
  lemma EdicionSinCambiosAceptada(s: Solicitante, m: map<nat, Personaje>, cat: Catalogos, us: map<nat, Cuenta>, id: nat)
    requires EsGM(s) && id in m && Referencias(m[id], cat, us.Keys) && PuedeEditar(m[id])
    requires ValidarNombrePersonaje(m[id].nombre) == Ok(m[id].nombre)
    requires m[id].raza != 0 && m[id].poder != 0 && m[id].equipamiento != 0
    ensures ChequearActualizacion(s, m, cat, id, Carga(FormularioDe(FichaConIds(id, m[id], cat, us))), true) == Ok(m[id])
  {
    var f := FichaConIds(id, m[id], cat, us);
    CargaDeEdicion(f);
    var d := Carga(FormularioDe(f));
    assert d == DatosPersonaje(Valor(m[id].nombre), Valor(m[id].raza), Valor(m[id].poder), Valor(m[id].equipamiento));
    var c := ValidarPersonaje(d, cat, true, true);
    assert c.Ok?;
    assert c.value == Cambios(Some(m[id].nombre), Some(m[id].raza), Some(m[id].poder), Some(m[id].equipamiento));
  }

  // ------------------------------------------------------------------ drafts

  /** The GM's draft of a character's three offered skills. */
  datatype Borrador = Borrador(op1: ValorJs, op2: ValorJs, op3: ValorJs)

  /** The three option selects of a character. */
  datatype Casilla = OP1 | OP2 | OP3

  function EnCasilla(b: Borrador, c: Casilla): ValorJs {
    match c
    case OP1 => b.op1
    case OP2 => b.op2
    case OP3 => b.op3
  }

  /** `ids[k] || ""`: the k-th id, or "" past the end or for 0. */
  function IdONada(ids: seq<nat>, k: nat): (v: ValorJs)
    ensures k < |ids| && ids[k] != 0 ==> v == Num(ids[k])
    ensures !(k < |ids| && ids[k] != 0) ==> v == Cad("")
  {
    if k < |ids| && ids[k] != 0 then Num(ids[k]) else Cad("")
  }

  /** The draft `cargarGM` seeds for one character: its offered ids in
      order. */
  function BorradorDe(f: Ficha): (b: Borrador)
    ensures b.op1 == if |f.opciones| > 0 && f.opciones[0].id != 0 then Num(f.opciones[0].id) else Cad("")
    ensures b.op2 == if |f.opciones| > 1 && f.opciones[1].id != 0 then Num(f.opciones[1].id) else Cad("")
    ensures b.op3 == if |f.opciones| > 2 && f.opciones[2].id != 0 then Num(f.opciones[2].id) else Cad("")
  {
    var ids := Ids(f.opciones);
    Borrador(IdONada(ids, 0), IdONada(ids, 1), IdONada(ids, 2))
  }

  /** The player's draft `cargarJugador` seeds for one character, as
      written: every selected id. */
  function SeleccionSembrada(f: Ficha): (s: seq<nat>)
    ensures |s| == |f.seleccion| && forall k :: 0 <= k < |s| ==> s[k] == f.seleccion[k].id
  {
    Ids(f.seleccion)
  }

  /** The corrected player's draft: the selected ids that are still offered,
      each once. */
  function SeleccionOfrecida(f: Ficha): (s: seq<nat>)
    ensures SinRepetidos(s)
    ensures forall h :: h in s <==> h in Ids(f.seleccion) && h in Ids(f.opciones)
    ensures |s| <= |f.seleccion|
  {
    SinRepetir(Filtrar(Ids(f.seleccion), Ids(f.opciones)))
  }

  /** `lista.forEach(pj => m[pj.id] = valor(pj))` from an empty object: one
      entry per listed id, a later character overwriting an earlier one
      with the same id. */
  function Sembrar<V>(lista: seq<Ficha>, valor: Ficha -> V): (m: map<nat, V>)
    ensures forall id :: id in m <==> exists k :: 0 <= k < |lista| && lista[k].id == id
    decreases |lista|
  {
    if lista == [] then map[]
    else
      var previo := lista[..|lista| - 1];
      assert forall k :: 0 <= k < |previo| ==> previo[k] == lista[k];
      Sembrar(previo, valor)[lista[|lista| - 1].id := valor(lista[|lista| - 1])]
  }

  predicate IdsDistintos(lista: seq<Ficha>) {
    forall i, j :: 0 <= i < j < |lista| ==> lista[i].id != lista[j].id
  }

  /** With distinct ids, each character's entry is its own seed. */
  lemma {:induction false} SembrarDistintos<V>(lista: seq<Ficha>, valor: Ficha -> V, k: nat)
    requires IdsDistintos(lista) && k < |lista|
    ensures lista[k].id in Sembrar(lista, valor) && Sembrar(lista, valor)[lista[k].id] == valor(lista[k])
    decreases |lista|
  {
    if k < |lista| - 1 {
      var previo := lista[..|lista| - 1];
      assert previo[k] == lista[k];
      assert IdsDistintos(previo) by {
        forall i, j | 0 <= i < j < |previo| ensures previo[i].id != previo[j].id {
          assert previo[i] == lista[i] && previo[j] == lista[j];
        }
      }
      SembrarDistintos(previo, valor, k);
      assert lista[k].id != lista[|lista| - 1].id;
    }
  }

  /** The body `guardarOpcionesGM` sends for a character (`opSel[pid] ||
      {}`): a character without a draft sends three `null`s. */
  datatype PedidoOpciones = PedidoOpciones(o1: Campo<nat>, o2: Campo<nat>, o3: Campo<nat>)

  function PedidoDe(op: map<nat, Borrador>, pid: nat): (p: PedidoOpciones)
    ensures pid !in op ==> p == PedidoOpciones(Nulo, Nulo, Nulo)
    ensures pid in op ==> p == PedidoOpciones(ToInt(op[pid].op1), ToInt(op[pid].op2), ToInt(op[pid].op3))
  {
    var d := if pid in op then op[pid] else Borrador(Indefinido, Indefinido, Indefinido);
    PedidoOpciones(ToInt(d.op1), ToInt(d.op2), ToInt(d.op3))
  }

  /** Saving a seeded draft untouched keeps the character's offer: the same
      skills in the same order (an empty slot between two offered ones
      closes up). `f` is the character's listing, which lists its offered
      ids (`FichaGuardada`); those name skills, and database ids start at 1,
      so none is 0. */
  lemma BorradorConserva(f: Ficha, pj: Personaje, habilidades: map<nat, string>)
    requires Ids(f.opciones) == Opciones(pj)
    requires forall h :: h in Opciones(pj) ==> h in habilidades && h != 0
    ensures var b := BorradorDe(f);
            var v := ValidarOpciones(pj, ToInt(b.op1), ToInt(b.op2), ToInt(b.op3), habilidades);
            v.Ok? && Opciones(v.value) == Opciones(pj)
  {
    var ops := Opciones(pj);
    var b := BorradorDe(f);
    var s1 := if 0 < |ops| then Some(ops[0]) else None;
    var s2 := if 1 < |ops| then Some(ops[1]) else None;
    var s3 := if 2 < |ops| then Some(ops[2]) else None;
    ToIntDeIdONada(ops, 0);
    ToIntDeIdONada(ops, 1);
    ToIntDeIdONada(ops, 2);
    var v := ValidarOpciones(pj, ToInt(b.op1), ToInt(b.op2), ToInt(b.op3), habilidades);
    assert v.Ok?;
    assert v.value == pj.(opcion1 := s1, opcion2 := s2, opcion3 := s3);
    PresentesCompactos(ops);
  }

  /** A seeded box sent back: the id it holds, or `null` past the end. */
  lemma ToIntDeIdONada(ids: seq<nat>, k: nat)
    requires forall h :: h in ids ==> h != 0
    ensures ToInt(IdONada(ids, k)) == if k < |ids| then Valor(ids[k]) else Nulo
  {
    if k < |ids| { assert ids[k] in ids; }
  }

  /** The slots filled from the front with a list of at most three ids list
      those ids. */
  lemma PresentesCompactos(ops: seq<nat>)
    requires |ops| <= 3
    ensures Presentes([if 0 < |ops| then Some(ops[0]) else None,
                       if 1 < |ops| then Some(ops[1]) else None,
                       if 2 < |ops| then Some(ops[2]) else None]) == ops
  {
    var slots: seq<Option<nat>> := [if 0 < |ops| then Some(ops[0]) else None,
                                    if 1 < |ops| then Some(ops[1]) else None,
                                    if 2 < |ops| then Some(ops[2]) else None];
    var t1 := slots[1..];
    var t2 := t1[1..];
    assert t1 == [slots[1], slots[2]] && t2 == [slots[2]] && t2[1..] == [];
    var p2 := Presentes(t2);
    assert p2 == (if 2 < |ops| then [ops[2]] else []);
    var p1 := Presentes(t1);
    assert p1 == (if 1 < |ops| then [ops[1]] else []) + p2;
    var p0 := Presentes(slots);
    assert p0 == (if 0 < |ops| then [ops[0]] else []) + p1;
    if |ops| == 3 { assert ops == [ops[0]] + [ops[1]] + [ops[2]]; }
    else if |ops| == 2 { assert ops == [ops[0]] + [ops[1]]; }
  }

  // ------------------------------------------------------- skill selection

  predicate SinRepetidos(s: seq<nat>) {
    forall i, j :: 0 <= i < j < |s| ==> s[i] != s[j]
  }

  /** `Array.from(new Set(s))`: the first occurrence of each id, in order. */
  function SinRepetir(s: seq<nat>): (r: seq<nat>)
    ensures SinRepetidos(r)
    ensures forall x :: x in r <==> x in s
    ensures |r| <= |s|
    ensures SinRepetidos(s) ==> r == s
    decreases |s|
  {
    if s == [] then []
    else
      var previo := s[..|s| - 1];
      var x := s[|s| - 1];
      assert s == previo + [x];
      var p := SinRepetir(previo);
      if x in p then p else p + [x]
  }

  /** The ids of `s` that are in `ops`, in order. */
  function Filtrar(s: seq<nat>, ops: seq<nat>): (r: seq<nat>)
    ensures forall x :: x in r <==> x in s && x in ops
    ensures |r| <= |s|
  {
    if s == [] then [] else (if s[0] in ops then [s[0]] else []) + Filtrar(s[1..], ops)
  }

  /** `Set.delete`, on the array the set becomes: every `x` goes. */
  function Quitar(s: seq<nat>, x: nat): (r: seq<nat>)
    ensures forall y :: y in r <==> y in s && y != x
    ensures |r| <= |s|
    ensures SinRepetidos(s) ==> SinRepetidos(r)
  {
    if s == [] then []
    else
      var resto := Quitar(s[1..], x);
      assert SinRepetidos(s) ==> SinRepetidos(s[1..]) && s[0] !in s[1..] by {
        if SinRepetidos(s) {
          forall i, j | 0 <= i < j < |s[1..]| ensures s[1..][i] != s[1..][j] {
            assert s[1..][i] == s[i + 1] && s[1..][j] == s[j + 1];
          }
        }
      }
      (if s[0] == x then [] else [s[0]]) + resto
  }

  /** Removing what was just added at the end gives the list back. */
  lemma {:induction false} QuitarAlFinal(s: seq<nat>, x: nat)
    requires x !in s
    ensures Quitar(s + [x], x) == s
  {
    if s == [] {
      assert [x][1..] == [];
    } else {
      assert (s + [x])[1..] == s[1..] + [x];
      QuitarAlFinal(s[1..], x);
    }
  }

  /** `prev[pid] || []`. */
  function Sel(m: map<nat, seq<nat>>, pid: nat): seq<nat> {
    if pid in m then m[pid] else []
  }

  /** `toggleSeleccion(pid, habId)`: an id already selected is removed; an
      absent one is added only while fewer than two are selected, and
      otherwise the whole state is returned unchanged. Only `pid`'s entry is
      written. */
  function ToggleSeleccion(prev: map<nat, seq<nat>>, pid: nat, hab: nat): (r: map<nat, seq<nat>>)
    ensures forall q :: q != pid ==> (q in r <==> q in prev) && (q in r ==> r[q] == prev[q])
    ensures hab in Sel(prev, pid) ==> hab !in Sel(r, pid)
    ensures hab !in Sel(prev, pid) && |SinRepetir(Sel(prev, pid))| < 2 ==> hab in Sel(r, pid)
    ensures hab !in Sel(prev, pid) && |SinRepetir(Sel(prev, pid))| >= 2 ==> r == prev
    ensures forall x :: x in Sel(r, pid) ==> x in Sel(prev, pid) || x == hab
    ensures forall x :: x in Sel(prev, pid) && x != hab ==> x in Sel(r, pid)
    ensures r == prev || SinRepetidos(Sel(r, pid))
    ensures |Sel(prev, pid)| <= 2 ==> |Sel(r, pid)| <= 2
  {
    var cur := SinRepetir(Sel(prev, pid));
    if hab in cur then prev[pid := Quitar(cur, hab)]
    else if |cur| >= 2 then prev
    else prev[pid := cur + [hab]]
  }

  /** Ticking an unticked box while fewer than two are ticked, then
      unticking it, restores the selection. */
  lemma ToggleDeshace(prev: map<nat, seq<nat>>, pid: nat, hab: nat)
    requires hab !in Sel(prev, pid) && SinRepetidos(Sel(prev, pid)) && |Sel(prev, pid)| < 2
    ensures Sel(ToggleSeleccion(ToggleSeleccion(prev, pid, hab), pid, hab), pid) == Sel(prev, pid)
    ensures pid in prev ==> ToggleSeleccion(ToggleSeleccion(prev, pid, hab), pid, hab) == prev
  {
    var cur := Sel(prev, pid);
    var r1 := ToggleSeleccion(prev, pid, hab);
    assert r1 == prev[pid := cur + [hab]];
    assert SinRepetidos(cur + [hab]);
    QuitarAlFinal(cur, hab);
  }

  /** A character's selection as the page keeps it: no id twice, at most
      two, all among the ids offered on its card. */
  predicate Acotada(m: map<nat, seq<nat>>, pid: nat, ops: seq<nat>) {
    SinRepetidos(Sel(m, pid)) && |Sel(m, pid)| <= 2 && forall h :: h in Sel(m, pid) ==> h in ops
  }

  /** A click on one of the offered boxes keeps the selection bounded, and
      leaves every other character's selection alone. */
  lemma ToggleAcotada(prev: map<nat, seq<nat>>, pid: nat, hab: nat, ops: seq<nat>)
    requires Acotada(prev, pid, ops) && hab in ops
    ensures Acotada(ToggleSeleccion(prev, pid, hab), pid, ops)
    ensures forall q :: q != pid ==> Sel(ToggleSeleccion(prev, pid, hab), q) == Sel(prev, q)
  {}

  const MsgExactamenteDos := "Debes elegir exactamente 2 habilidades."

  /** `confirmarEleccion` up to the request: the selected ids, or the alert
      when there are not exactly two. */
  function ConfirmarEleccion(sel: map<nat, seq<nat>>, pid: nat): (r: Result<seq<int>, string>)
    ensures r.Ok? <==> |Sel(sel, pid)| == 2
    ensures r.Ok? ==> r.value == Sel(sel, pid)
    ensures r.Err? ==> r.error == MsgExactamenteDos
  {
    var arr := Sel(sel, pid);
    if |arr| != 2 then Err(MsgExactamenteDos) else Ok(arr)
  }

  /** The "Guardar elección (2)" button is enabled when `seleccion[pid]`
      exists and has two entries. */
  predicate BotonHabilitado(sel: map<nat, seq<nat>>, pid: nat) {
    pid in sel && |sel[pid]| == 2
  }

  /** The button is enabled exactly when a click on it sends a request. */
  lemma BotonSiEnvia(sel: map<nat, seq<nat>>, pid: nat)
    ensures BotonHabilitado(sel, pid) <==> ConfirmarEleccion(sel, pid).Ok?
  {}

  /** A bounded selection of the offered skills that passes the gate is
      accepted by `ElegirHabilidadesSerializer`, which stores those two. */
  lemma EnvioAceptado(sel: map<nat, seq<nat>>, pid: nat, pj: Personaje)
    requires Acotada(sel, pid, Opciones(pj)) && ConfirmarEleccion(sel, pid).Ok?
    ensures ValidarEleccion(pj, Valor(ConfirmarEleccion(sel, pid).value)).Ok?
    ensures ValidarEleccion(pj, Valor(ConfirmarEleccion(sel, pid).value)).value
            == {Sel(sel, pid)[0] as int, Sel(sel, pid)[1] as int}
  {
    var s := Sel(sel, pid);
    assert s[0] in s && s[1] in s;
    assert Some(s[0]) in [pj.opcion1, pj.opcion2, pj.opcion3];
    assert Some(s[1]) in [pj.opcion1, pj.opcion2, pj.opcion3];
  }

  /** As written, a selection no longer offered (after `set-opciones`
      changed the offer, as `SeleccionFueraDeOpciones` shows) is seeded though no
      box shows it: every offered box refuses a tick, since two are already
      selected, the button is enabled, and the backend refuses what it
      sends. */
  lemma SeleccionAtascada(f: Ficha, pj: Personaje)
    requires Ids(f.opciones) == Opciones(pj) && Ids(f.seleccion) == Seleccion(pj)
    requires pj.habilidad1.Some? && pj.habilidad2.Some? && pj.habilidad1 != pj.habilidad2
    requires pj.habilidad1.value !in Opciones(pj) && pj.habilidad2.value !in Opciones(pj)
    ensures var sel := Sembrar([f], SeleccionSembrada);
            && (forall h :: h in Ids(f.opciones) ==> h !in Sel(sel, f.id) && ToggleSeleccion(sel, f.id, h) == sel)
            && ConfirmarEleccion(sel, f.id).Ok?
            && ValidarEleccion(pj, Valor(ConfirmarEleccion(sel, f.id).value)).Err?
  {
    var a, b := pj.habilidad1.value, pj.habilidad2.value;
    var s := Seleccion(pj);
    assert s[0] == a && b in s;
    assert s == [a, b];
    assert [f][..0] == [];
    var sel := Sembrar([f], SeleccionSembrada);
    assert sel == map[f.id := [a, b]];
    assert SinRepetir([a, b]) == [a, b];
    assert a !in IdsOpciones(pj);
  }

  /** The backend's choice for a listed character is a bounded selection of
      its offered skills: at most two, no repeats, every one still offered. */
  predicate EleccionOfrecida(f: Ficha) {
    |f.seleccion| <= 2 && SinRepetidos(Ids(f.seleccion)) && forall h :: h in Ids(f.seleccion) ==> h in Ids(f.opciones)
  }

  /** As written, a listed character starts with every selected id; the
      seeded selection is bounded exactly when the backend's choice is. */
  lemma SembradoComoEscrito(lista: seq<Ficha>, k: nat)
    requires IdsDistintos(lista) && k < |lista|
    ensures Sel(Sembrar(lista, SeleccionSembrada), lista[k].id) == Ids(lista[k].seleccion)
    ensures Acotada(Sembrar(lista, SeleccionSembrada), lista[k].id, Ids(lista[k].opciones)) <==> EleccionOfrecida(lista[k])
  {
    SembrarDistintos(lista, SeleccionSembrada, k);
  }

  /** The as-written seed of a whole list, character by character. */
  lemma SembradoLista(lista: seq<Ficha>)
    requires IdsDistintos(lista)
    ensures forall k :: 0 <= k < |lista| ==> Sel(Sembrar(lista, SeleccionSembrada), lista[k].id) == Ids(lista[k].seleccion)
    ensures (forall k :: 0 <= k < |lista| ==> EleccionOfrecida(lista[k]))
            ==> forall k :: 0 <= k < |lista| ==> Acotada(Sembrar(lista, SeleccionSembrada), lista[k].id, Ids(lista[k].opciones))
  {
    forall k | 0 <= k < |lista|
      ensures Sel(Sembrar(lista, SeleccionSembrada), lista[k].id) == Ids(lista[k].seleccion)
      ensures Acotada(Sembrar(lista, SeleccionSembrada), lista[k].id, Ids(lista[k].opciones)) <==> EleccionOfrecida(lista[k])
    {
      SembradoComoEscrito(lista, k);
    }
  }

  /** With the corrected seed, each listed character starts with a bounded
      selection of its offered skills. */
  lemma SembradoAcotado(lista: seq<Ficha>, k: nat)
    requires IdsDistintos(lista) && k < |lista| && |lista[k].seleccion| <= 2
    ensures Acotada(Sembrar(lista, SeleccionOfrecida), lista[k].id, Ids(lista[k].opciones))
  {
    SembrarDistintos(lista, SeleccionOfrecida, k);
  }

  // ------------------------------------------------------------------ alerts

  const MsgNoSePudoElegir := "No se pudo elegir el personaje."
  const MsgNoSeGuardoEleccion := "No se pudo guardar la elección."
  const MsgNoSeGuardaronOpciones := "No se pudieron guardar las opciones."
  const MsgErrorCreando := "Error creando personaje"
  const MsgErrorGuardando := "Error guardando cambios"

  /** `alert` of an array: its items joined with commas. */
  function ConComas(items: seq<string>): string {
    if items == [] then "" else if |items| == 1 then items[0] else items[0] + "," + ConComas(items[1..])
  }

  /** `alert(e?.response?.data?.detalle || defecto)`. */
  function Alerta(cuerpo: map<string, Json>, defecto: string): (m: string)
    ensures ("detalle" !in cuerpo || cuerpo["detalle"] == Texto("")) ==> m == defecto
    ensures "detalle" in cuerpo && cuerpo["detalle"].Texto? && cuerpo["detalle"].s != "" ==> m == cuerpo["detalle"].s
    ensures "detalle" in cuerpo && cuerpo["detalle"].Lista? ==> m == ConComas(cuerpo["detalle"].items)
  {
    if "detalle" !in cuerpo then defecto
    else
      match cuerpo["detalle"]
      case Texto(s) => if s == "" then defecto else s
      case Lista(items) => ConComas(items)
  }

  /** The alert after a refused claim: the view's own reason for an owned
      or a dead character, the page's default when the requester is not
      signed in or the character does not exist. */
  lemma AlertaDeReclamo(s: Solicitante, m: map<nat, Personaje>, id: nat)
    ensures var c := ChequearReclamo(s, m, id);
            && (s.Autenticado? && id in m && m[id].propietario.Some? ==> Alerta(c.value.cuerpo, MsgNoSePudoElegir) == MsgYaTienePropietario)
            && (s.Autenticado? && id in m && m[id].propietario.None? && m[id].estado == MUERTO
                ==> Alerta(c.value.cuerpo, MsgNoSePudoElegir) == MsgElegirMuerto)
            && (s.Anonimo? || id !in m ==> Alerta(c.value.cuerpo, MsgNoSePudoElegir) == MsgNoSePudoElegir)
  {}

  /** The alert after a refused skill choice: the view's reason for a dead
      character, and the page's default for every other refusal, the
      serializer's own messages included. */
  lemma AlertaDeEleccion(s: Solicitante, m: map<nat, Personaje>, id: nat, dato: Campo<seq<int>>)
    ensures var c := ChequearEleccion(s, m, id, dato);
            c.Err? ==> Alerta(c.error.cuerpo, MsgNoSeGuardoEleccion)
                       == if s.Autenticado? && id in m && m[id].propietario == Some(s.id) && m[id].estado == MUERTO
                          then MsgHabilidadesMuerto else MsgNoSeGuardoEleccion
  {
    var c := ChequearEleccion(s, m, id, dato);
    if c.Err? && s.Autenticado? && id in m && m[id].propietario == Some(s.id) && m[id].estado != MUERTO {
      assert "detalle" !in ValidarEleccion(m[id], dato).error;
    }
  }

  // -------------------------------------------------------------------- tone

  /** The badge colours of `EstadoTone`. */
  datatype Tono = RED | AMBER | GREEN

  /** `EstadoTone`: red for "MUERTO", amber for "CONGELADO", green for any
      other text. */
  function TonoDeEstado(estado: string): (t: Tono)
    ensures t == RED <==> estado == "MUERTO"
    ensures t == AMBER <==> estado == "CONGELADO"
    ensures t == GREEN <==> estado != "MUERTO" && estado != "CONGELADO"
  {
    if estado == "MUERTO" then RED
    else if estado == "CONGELADO" then AMBER
    else GREEN
  }

  /** On a listed state the three tones are the three states. */
  lemma TonoDeFicha(e: Estado)
    ensures TonoDeEstado(EstadoTexto(e)) == GREEN <==> e == VIVO
    ensures TonoDeEstado(EstadoTexto(e)) == RED <==> e == MUERTO
    ensures TonoDeEstado(EstadoTexto(e)) == AMBER <==> e == CONGELADO
  {}

  // -------------------------------------------------------------------- page

  /** A character the name input's `pattern` admits: an ASCII letter or
      digit, a space, or one of `áéíóúÁÉÍÓÚñÑ`. */
  predicate PermitidoEnNombre(c: char) {
    ('a' <= c <= 'z') || ('A' <= c <= 'Z') || ('0' <= c <= '9') || c == ' '
    || c in "áéíóúÁÉÍÓÚñÑ"
  }

  /** The browser's constraint check on the name input: a non-empty value
      that does not match `^[a-zA-Z0-9áéíóúÁÉÍÓÚñÑ ]+$` blocks the submit
      (an empty value is not checked against a pattern). */
  predicate NombreBloqueado(nombre: string) {
    nombre != [] && exists k :: 0 <= k < |nombre| && !PermitidoEnNombre(nombre[k])
  }

  /** No name that reaches a request holds a character `clean` forbids, so
      the backend's forbidden-character refusals never show on this form. */
  lemma PatronExcluyeProhibidos(nombre: string)
    requires !NombreBloqueado(nombre)
    ensures !ContieneProhibido(nombre)
  {
    forall k | 0 <= k < |nombre| ensures !Prohibido(nombre[k]) {
      assert PermitidoEnNombre(nombre[k]);
    }
  }

  /** A name with a hyphen is blocked by the browser, though the backend
      would accept it. */
  lemma GuionBloqueado()
    ensures NombreBloqueado("Ana-Luz")
    ensures ValidarNombrePersonaje("Ana-Luz").Ok?
  {
    assert !PermitidoEnNombre("Ana-Luz"[3]);
    assert !ContieneProhibido("Ana-Luz") by {
      forall k | 0 <= k < 7 ensures !Prohibido("Ana-Luz"[k]) { }
    }
  }

  /** `editId ? guardarCambios : crear`: an id of 0 counts as none. */
  predicate Editando(editId: Option<nat>) {
    editId.Some? && editId.value != 0
  }

  /** The page's state. */
  class Pagina {
    var mis: seq<Ficha>
    var disponibles: seq<Ficha>
    var opSel: map<nat, Borrador>
    var seleccion: map<nat, seq<nat>>
    var form: Formulario
    var editId: Option<nat>
    var msg: string

    /** The state on first render. */
    constructor ()
      ensures mis == [] && disponibles == [] && opSel == map[] && seleccion == map[]
      ensures form == FormVacio && editId.None? && msg == ""
    {
      mis := [];
      disponibles := [];
      opSel := map[];
      seleccion := map[];
      form := FormVacio;
      editId := None;
      msg := "";
    }

    /** Every listed character of the player has its own id and a bounded
        selection of its offered skills. */
    predicate Coherente()
      reads this`mis, this`seleccion
    {
      IdsDistintos(mis) && forall k :: 0 <= k < |mis| ==> Acotada(seleccion, mis[k].id, Ids(mis[k].opciones))
    }

    /** `cargarGM`, after the listings arrive: both lists, and one seeded
        draft per character. */
    method CargarGM(todos: seq<Ficha>, disp: seq<Ficha>)
      modifies this`mis, this`disponibles, this`opSel
      ensures mis == todos && disponibles == disp
      ensures opSel == Sembrar(todos, BorradorDe)
    {
      mis := todos;
      disponibles := disp;
      var m: map<nat, Borrador> := map[];
      var i := 0;
      while i < |todos|
        invariant 0 <= i <= |todos|
        invariant m == Sembrar(todos[..i], BorradorDe)
      {
        assert todos[..i + 1][..i] == todos[..i];
        m := m[todos[i].id := BorradorDe(todos[i])];
        i := i + 1;
      }
      assert todos[..|todos|] == todos;
      opSel := m;
    }

    /** `cargarJugador`, after the listings arrive: both lists, and one
        seeded selection per own character, holding every selected id. The
        page is coherent when each backend choice is bounded and still
        offered. */
    method CargarJugador(misL: seq<Ficha>, disp: seq<Ficha>)
      modifies this`mis, this`disponibles, this`seleccion
      ensures mis == misL && disponibles == disp
      ensures seleccion == Sembrar(misL, SeleccionSembrada)
      ensures IdsDistintos(misL) ==> forall k :: 0 <= k < |misL| ==> Sel(seleccion, misL[k].id) == Ids(misL[k].seleccion)
      ensures IdsDistintos(misL) && (forall k :: 0 <= k < |misL| ==> EleccionOfrecida(misL[k])) ==> Coherente()
    {
      mis := misL;
      disponibles := disp;
      var m: map<nat, seq<nat>> := map[];
      var i := 0;
      while i < |misL|
        invariant 0 <= i <= |misL|
        invariant m == Sembrar(misL[..i], SeleccionSembrada)
      {
        assert misL[..i + 1][..i] == misL[..i];
        m := m[misL[i].id := SeleccionSembrada(misL[i])];
        i := i + 1;
      }
      assert misL[..|misL|] == misL;
      seleccion := m;
      if IdsDistintos(misL) {
        SembradoLista(misL);
      }
    }

    /** A click on the box of skill `hab` on the card of character `pid`. A
        click on an offered box keeps the page coherent. */
    method Alternar(pid: nat, hab: nat)
      modifies this`seleccion
      ensures seleccion == ToggleSeleccion(old(seleccion), pid, hab)
      ensures old(Coherente()) && (forall k :: 0 <= k < |mis| && mis[k].id == pid ==> hab in Ids(mis[k].opciones))
              ==> Coherente()
    {
      ghost var antes := seleccion;
      seleccion := ToggleSeleccion(seleccion, pid, hab);
      if IdsDistintos(mis) && (forall k :: 0 <= k < |mis| ==> Acotada(antes, mis[k].id, Ids(mis[k].opciones)))
         && (forall k :: 0 <= k < |mis| && mis[k].id == pid ==> hab in Ids(mis[k].opciones)) {
        forall k | 0 <= k < |mis| ensures Acotada(seleccion, mis[k].id, Ids(mis[k].opciones)) {
          if mis[k].id == pid {
            ToggleAcotada(antes, pid, hab, Ids(mis[k].opciones));
          } else {
            assert Sel(seleccion, mis[k].id) == Sel(antes, mis[k].id);
          }
        }
      }
    }

    /** `confirmarEleccion`: the gate, then the request; the alert it
        shows, if any. The reload after a success is `CargarJugador`. */
    method Confirmar(pid: nat, servidor: seq<int> -> Result<Ficha, Fallo>) returns (alerta: Option<string>)
      ensures ConfirmarEleccion(seleccion, pid).Err? ==> alerta == Some(MsgExactamenteDos)
      ensures ConfirmarEleccion(seleccion, pid).Ok? && servidor(ConfirmarEleccion(seleccion, pid).value).Ok? ==> alerta.None?
      ensures ConfirmarEleccion(seleccion, pid).Ok? && servidor(ConfirmarEleccion(seleccion, pid).value).Err?
              ==> alerta == Some(Alerta(servidor(ConfirmarEleccion(seleccion, pid).value).error.cuerpo, MsgNoSeGuardoEleccion))
    {
      var c := ConfirmarEleccion(seleccion, pid);
      if c.Err? {
        return Some(c.error);
      }
      var r := servidor(c.value);
      if r.Err? {
        return Some(Alerta(r.error.cuerpo, MsgNoSeGuardoEleccion));
      }
      alerta := None;
    }

    /** `elegir`: claims a character; the alert after a refusal. */
    method Elegir(pid: nat, servidor: nat -> Result<Reclamo, Fallo>) returns (alerta: Option<string>)
      ensures servidor(pid).Ok? ==> alerta.None?
      ensures servidor(pid).Err? ==> alerta == Some(Alerta(servidor(pid).error.cuerpo, MsgNoSePudoElegir))
    {
      var r := servidor(pid);
      alerta := if r.Err? then Some(Alerta(r.error.cuerpo, MsgNoSePudoElegir)) else None;
    }

    /** A change of one option select on character `pid`'s card: that box of
        its draft takes the chosen value; a character without a draft gets
        one whose other boxes are `undefined`. */
    method CambiarOpcion(pid: nat, c: Casilla, v: string)
      modifies this`opSel
      ensures forall q :: q != pid ==> (q in opSel <==> q in old(opSel)) && (q in opSel ==> opSel[q] == old(opSel)[q])
      ensures pid in opSel && EnCasilla(opSel[pid], c) == Cad(v)
      ensures forall c2 :: c2 != c ==>
                EnCasilla(opSel[pid], c2) == (if pid in old(opSel) then EnCasilla(old(opSel)[pid], c2) else Indefinido)
    {
      var b := if pid in opSel then opSel[pid] else Borrador(Indefinido, Indefinido, Indefinido);
      b := match c
           case OP1 => b.(op1 := Cad(v))
           case OP2 => b.(op2 := Cad(v))
           case OP3 => b.(op3 := Cad(v));
      opSel := opSel[pid := b];
    }

    /** `guardarOpcionesGM`: sends the character's draft; the alert after a
        failure. The reload after a success is `CargarGM`. */
    method GuardarOpciones(pid: nat, servidor: PedidoOpciones -> Result<Ficha, Fallo>) returns (alerta: Option<string>)
      ensures servidor(PedidoDe(opSel, pid)).Ok? ==> alerta.None?
      ensures servidor(PedidoDe(opSel, pid)).Err? ==> alerta == Some(MsgNoSeGuardaronOpciones)
    {
      var r := servidor(PedidoDe(opSel, pid));
      alerta := if r.Err? then Some(MsgNoSeGuardaronOpciones) else None;
    }

    /** `prepararEdicion`. */
    method PrepararEdicion(p: Ficha)
      modifies this`editId, this`form
      ensures editId == Some(p.id) && form == FormularioDe(p)
    {
      editId := Some(p.id);
      form := FormularioDe(p);
    }

    /** The "Cancelar" button. */
    method Cancelar()
      modifies this`editId, this`form
      ensures editId.None? && form == FormVacio
    {
      editId := None;
      form := FormVacio;
    }

    /** `crear`: sends the form; a success empties it, a failure keeps it and
        shows the error. The reload after a success is `CargarGM`. */
    method Crear(servidor: DatosPersonaje -> Result<nat, Fallo>) returns (ok: bool)
      modifies this`form, this`msg
      ensures ok == servidor(Carga(old(form))).Ok?
      ensures ok ==> form == FormVacio && msg == ""
      ensures !ok ==> form == old(form) && msg == MsgErrorCreando
    {
      msg := "";
      var r := servidor(Carga(form));
      if r.Err? {
        msg := MsgErrorCreando;
        return false;
      }
      form := FormVacio;
      ok := true;
    }

    /** `guardarCambios`: sends the form for the character being edited; a
        success empties the form and ends the edit. */
    method GuardarCambios(servidor: (nat, DatosPersonaje) -> Result<Personaje, Fallo>) returns (ok: bool)
      requires editId.Some?
      modifies this`form, this`editId, this`msg
      ensures ok == servidor(old(editId).value, Carga(old(form))).Ok?
      ensures ok ==> form == FormVacio && editId.None? && msg == ""
      ensures !ok ==> form == old(form) && editId == old(editId) && msg == MsgErrorGuardando
    {
      msg := "";
      var r := servidor(editId.value, Carga(form));
      if r.Err? {
        msg := MsgErrorGuardando;
        return false;
      }
      editId := None;
      form := FormVacio;
      ok := true;
    }

    /** The editor's submit: a name the input's `pattern` refuses stops it in
        the browser with nothing sent and nothing changed; otherwise an edit
        while `editId` is truthy, a creation otherwise. */
    method Enviar(servidorCrear: DatosPersonaje -> Result<nat, Fallo>,
                  servidorActualizar: (nat, DatosPersonaje) -> Result<Personaje, Fallo>) returns (ok: bool)
      modifies this`form, this`editId, this`msg
      ensures NombreBloqueado(old(form.nombre)) ==> !ok && form == old(form) && editId == old(editId) && msg == old(msg)
      ensures !NombreBloqueado(old(form.nombre)) && Editando(old(editId))
              ==> ok == servidorActualizar(old(editId).value, Carga(old(form))).Ok?
      ensures !NombreBloqueado(old(form.nombre)) && !Editando(old(editId))
              ==> ok == servidorCrear(Carga(old(form))).Ok? && editId == old(editId)
      ensures ok ==> form == FormVacio && msg == "" && !Editando(editId)
      ensures !ok ==> form == old(form) && editId == old(editId)
    {
      if NombreBloqueado(form.nombre) {
        return false;
      }
      if Editando(editId) {
        ok := GuardarCambios(servidorActualizar);
      } else {
        ok := Crear(servidorCrear);
      }
    }
  }
}
