/** The submit of the registration page (frontend/src/pages/Register.jsx):
    the local checks in their order, the choice of the backend message to
    show, and the calls `registrarse` then `obtenerYo`. Unlike the login
    page, a failure here leaves the stored session as it was. */
module PaginaRegistro {
  import opened Comun
  import opened Texto
  import opened Modelos
  import opened Serializadores
  import opened Vistas
  import opened Api
  import opened PaginaLogin

  const MsgCompletarRegistro := "Completa usuario y contraseñas."
  const MsgClaveCorta := "La contraseña debe tener al menos 6 caracteres."
  const MsgNoCoinciden := "Las contraseñas no coinciden."
  const MsgNoSePudo := "No se pudo registrar."

  /** JavaScript `s.length`: UTF-16 code units, so a character outside the
      Basic Multilingual Plane counts twice. */
  function LongitudJs(s: string): (n: nat)
    ensures |s| <= n <= 2 * |s|
    ensures (forall k :: 0 <= k < |s| ==> s[k] as int <= 0xFFFF) ==> n == |s|
  {
    if s == [] then 0 else (if s[0] as int > 0xFFFF then 2 else 1) + LongitudJs(s[1..])
  }

  /** The checks before any request, in order: a blank username or an empty
      password field, then a password shorter than 6, then two passwords
      that differ. */
  function ChequeoRegistro(username: string, password: string, password2: string): (r: Option<string>)
    ensures r.None? <==> TrimJs(username) != [] && password != [] && password2 != []
                         && LongitudJs(password) >= 6 && password == password2
    ensures (TrimJs(username) == [] || password == [] || password2 == []) ==> r == Some(MsgCompletarRegistro)
    ensures (TrimJs(username) != [] && password != [] && password2 != [] && LongitudJs(password) < 6)
            ==> r == Some(MsgClaveCorta)
    ensures (TrimJs(username) != [] && password != [] && password2 != [] && LongitudJs(password) >= 6
             && password != password2) ==> r == Some(MsgNoCoinciden)
  {
    if TrimJs(username) == [] || password == [] || password2 == [] then Some(MsgCompletarRegistro)
    else if LongitudJs(password) < 6 then Some(MsgClaveCorta)
    else if password != password2 then Some(MsgNoCoinciden)
    else None
  }

  /** `d.detail` when it is truthy: a non-empty string, or any list (an
      array is truthy even when empty; it renders as its items in a row). */
  function DetalleDe(cuerpo: map<string, Json>): (r: Option<string>)
    ensures r.Some? <==> "detail" in cuerpo && cuerpo["detail"] != Texto("")
  {
    if "detail" !in cuerpo then None
    else
      match cuerpo["detail"]
      case Texto(s) => if s == "" then None else Some(s)
      case Lista(items) => Some(Unir(items))
  }

  /** `d[campo]?.[0]` when it is truthy: the first message of a list, or the
      first character of a bare string. */
  function PrimeroDe(cuerpo: map<string, Json>, campo: string): (r: Option<string>)
    ensures r.Some? ==> campo in cuerpo && r.value != ""
    ensures campo in cuerpo && cuerpo[campo].Lista? && |cuerpo[campo].items| > 0 && cuerpo[campo].items[0] != ""
            ==> r == Some(cuerpo[campo].items[0])
  {
    if campo !in cuerpo then None
    else
      match cuerpo[campo]
      case Texto(s) => if s == "" then None else Some([s[0]])
      case Lista(items) => if items == [] || items[0] == "" then None else Some(items[0])
  }

  /** `d.detail || d.username?.[0] || d.email?.[0] || d.password2?.[0] ||
      "No se pudo registrar."`: the first one that is truthy. */
  function MensajeRegistro(cuerpo: map<string, Json>): (m: string)
    ensures DetalleDe(cuerpo).Some? ==> m == DetalleDe(cuerpo).value
    ensures DetalleDe(cuerpo).None? && PrimeroDe(cuerpo, "username").Some? ==> m == PrimeroDe(cuerpo, "username").value
    ensures DetalleDe(cuerpo).None? && PrimeroDe(cuerpo, "username").None? && PrimeroDe(cuerpo, "email").Some?
            ==> m == PrimeroDe(cuerpo, "email").value
    ensures DetalleDe(cuerpo).None? && PrimeroDe(cuerpo, "username").None? && PrimeroDe(cuerpo, "email").None?
            ==> m == (if PrimeroDe(cuerpo, "password2").Some? then PrimeroDe(cuerpo, "password2").value else MsgNoSePudo)
  {
    if DetalleDe(cuerpo).Some? then DetalleDe(cuerpo).value
    else if PrimeroDe(cuerpo, "username").Some? then PrimeroDe(cuerpo, "username").value
    else if PrimeroDe(cuerpo, "email").Some? then PrimeroDe(cuerpo, "email").value
    else if PrimeroDe(cuerpo, "password2").Some? then PrimeroDe(cuerpo, "password2").value
    else MsgNoSePudo
  }

  /** When the backend refuses the username, the page shows the backend's
      message about it, whatever else went wrong. */
  lemma MensajeDeUsuario(usuarios: map<nat, Cuenta>, p: SolicitudRegistro)
    requires CampoUsuario(usuarios, p.username).Err?
    ensures ValidarRegistro(usuarios, p.username, p.email, p.password, p.password2).Err?
    ensures MensajeRegistro(ValidarRegistro(usuarios, p.username, p.email, p.password, p.password2).error)
            == CampoUsuario(usuarios, p.username).error
  {
    var u := CampoUsuario(usuarios, p.username);
    var e := CampoEmail(usuarios, p.email);
    var p1 := CampoClaveAcceso(p.password);
    var p2 := CampoClaveAcceso(p.password2);
    var m := Anotar(Anotar(Anotar(Anotar(map[], "username", u), "email", e), "password", p1), "password2", p2);
    assert ValidarRegistro(usuarios, p.username, p.email, p.password, p.password2).error == m;
    assert "detail" !in m;
    assert m["username"] == Lista([u.error]);
  }

  /** A request that passed the local checks never gets the backend's
      "passwords differ" answer: both passwords are equal, so they are equal
      after stripping too. */
  lemma SinDesacuerdoDeClaves(usuarios: map<nat, Cuenta>, username: string, email: string, password: string, password2: string)
    requires ChequeoRegistro(username, password, password2).None?
    ensures var p := CargaRegistro(username, email, password, password2);
            var v := ValidarRegistro(usuarios, p.username, p.email, p.password, p.password2);
            v.Err? ==> v.error != ErrorCampo("password2", MsgClavesDistintas)
  {
    var p := CargaRegistro(username, email, password, password2);
    var v := ValidarRegistro(usuarios, p.username, p.email, p.password, p.password2);
    if v.Err? {
      if CampoUsuario(usuarios, p.username).Err? {
        assert "username" in v.error;
      } else if CampoEmail(usuarios, p.email).Err? {
        assert "email" in v.error;
      } else if CampoClaveAcceso(p.password).Err? || CampoClaveAcceso(p.password2).Err? {
        // The two passwords are the same string, so both fields fail.
        assert p.password == p.password2;
        assert "password" in v.error;
      }
    }
  }

  /** `onSubmit`: the local checks; then `registrarse`, `obtenerYo` and the
      move to /personajes. A failure shows `MensajeRegistro` of its body and
      does not clear the session. */
  method Enviar(almacen: Almacen, username: string, email: string, password: string, password2: string,
                servidorRegistro: SolicitudRegistro -> Result<RespuestaRegistro, Fallo>,
                servidorYo: map<string, string> -> Result<Perfil, Fallo>) returns (d: Desenlace)
    modifies almacen`token, almacen`rol
    ensures ChequeoRegistro(username, password, password2).Some?
            ==> && d == Aviso(ChequeoRegistro(username, password, password2).value)
                && almacen.token == old(almacen.token) && almacen.rol == old(almacen.rol)
    ensures ChequeoRegistro(username, password, password2).None?
            && servidorRegistro(CargaRegistro(username, email, password, password2)).Err?
            ==> && d == Aviso(MensajeRegistro(servidorRegistro(CargaRegistro(username, email, password, password2)).error.cuerpo))
                && almacen.token == old(almacen.token) && almacen.rol == old(almacen.rol)
    ensures ChequeoRegistro(username, password, password2).None?
            && servidorRegistro(CargaRegistro(username, email, password, password2)).Ok?
            ==> var acceso := TokenDeRegistro(servidorRegistro(CargaRegistro(username, email, password, password2)).value);
                var t := if acceso != "" then Some(acceso) else old(almacen.token);
                var yo := servidorYo(ConBearer(t, CabecerasCliente));
                && almacen.token == t
                && (yo.Err? ==> d == Aviso(MensajeRegistro(yo.error.cuerpo)) && almacen.rol == old(almacen.rol))
                && (yo.Ok? ==> d == Ir("/personajes") && almacen.rol == Some(yo.value.rol))
  {
    var local := ChequeoRegistro(username, password, password2);
    if local.Some? {
      return Aviso(local.value);
    }
    var r := almacen.Registrarse(username, email, password, password2, servidorRegistro);
    if r.Err? {
      return Aviso(MensajeRegistro(r.error.cuerpo));
    }
    var yo := almacen.ObtenerYo(servidorYo);
    if yo.Err? {
      return Aviso(MensajeRegistro(yo.error.cuerpo));
    }
    d := Ir("/personajes");
  }
}
