/** The submit of the login page (frontend/src/pages/Login.jsx): the local
    check, the error message shown on a failure (the lockout wording
    replaced by a fixed text), and the session cleared after any failure. */
module PaginaLogin {
  import opened Comun
  import opened Texto
  import opened Vistas
  import opened Api

  const MsgCompletar := "Completa usuario y contraseña."
  const MsgCredenciales := "Credenciales inválidas."
  const MsgBloqueo := "Has superado el número de intentos. Intenta más tarde."

  /** How a submit ends: a navigation, or a message on the page. */
  datatype Desenlace = Ir(ruta: string) | Aviso(msg: string)

  /** The check before any request: a username that is blank after
      `trim()`, or an empty password, stops the submit. */
  function ChequeoLogin(usuario: string, clave: string): (r: Option<string>)
    ensures r.None? <==> TrimJs(usuario) != [] && clave != []
    ensures r.Some? ==> r.value == MsgCompletar
  {
    if TrimJs(usuario) == [] || clave == [] then Some(MsgCompletar) else None
  }

  /** The two phrases that mark a lockout message. */
  predicate Bloqueo(s: string) {
    Contiene(s, "locked out") || Contiene(s, "demasiados intentos")
  }

  /** `err.response.data.detail || "Credenciales inválidas."`, then a
      message that `includes` either lockout phrase becomes the fixed lockout
      text. On a string `includes` looks for a substring; on an array (a
      detail that is a list) it looks for an equal element. */
  function MensajeLogin(cuerpo: map<string, Json>): (m: string)
    ensures ("detail" !in cuerpo || cuerpo["detail"] == Texto("")) ==> m == MsgCredenciales
    ensures "detail" in cuerpo && cuerpo["detail"].Texto? && cuerpo["detail"].s != "" ==>
              (Bloqueo(cuerpo["detail"].s) ==> m == MsgBloqueo) && (!Bloqueo(cuerpo["detail"].s) ==> m == cuerpo["detail"].s)
    ensures "detail" in cuerpo && cuerpo["detail"].Lista? ==>
              var items := cuerpo["detail"].items;
              m == if "locked out" in items || "demasiados intentos" in items then MsgBloqueo else Unir(items)
  {
    if "detail" !in cuerpo then MsgCredenciales
    else
      match cuerpo["detail"]
      case Texto(s) =>
        if s == "" then MsgCredenciales
        else if Bloqueo(s) then MsgBloqueo
        else s
      case Lista(items) =>
        if "locked out" in items || "demasiados intentos" in items then MsgBloqueo else Unir(items)
  }

  /** Any detail text with either lockout phrase in it, wherever, shows the
      lockout text. */
  lemma BloqueoEn(antes: string, frase: string, despues: string)
    requires frase == "locked out" || frase == "demasiados intentos"
    ensures MensajeLogin(map["detail" := Texto(antes + frase + despues)]) == MsgBloqueo
  {
    var s := antes + frase + despues;
    assert s[|antes|..|antes| + |frase|] == frase;
    ContieneEn(s, frase, |antes|);
  }

  /** `onSubmit`: the local check; then `login` through the token endpoint,
      `obtenerYo` through `/yo/`, and the move to /personajes. A failure at
      either call shows `MensajeLogin` of its body and clears token and
      role. */
  method Enviar(almacen: Almacen, usuario: string, clave: string,
                servidorToken: Credenciales -> Result<Option<string>, Fallo>,
                servidorYo: map<string, string> -> Result<Perfil, Fallo>) returns (d: Desenlace)
    modifies almacen`token, almacen`rol
    ensures ChequeoLogin(usuario, clave).Some?
            ==> d == Aviso(MsgCompletar) && almacen.token == old(almacen.token) && almacen.rol == old(almacen.rol)
    ensures ChequeoLogin(usuario, clave).None? && servidorToken(CargaLogin(usuario, clave)).Err?
            ==> && d == Aviso(MensajeLogin(servidorToken(CargaLogin(usuario, clave)).error.cuerpo))
                && almacen.token.None? && almacen.rol.None?
    ensures ChequeoLogin(usuario, clave).None? && servidorToken(CargaLogin(usuario, clave)).Ok?
            ==> var t := CadenaJs(servidorToken(CargaLogin(usuario, clave)).value);
                var yo := servidorYo(ConBearer(Some(t), CabecerasCliente));
                && (yo.Err? ==> d == Aviso(MensajeLogin(yo.error.cuerpo)) && almacen.token.None? && almacen.rol.None?)
                && (yo.Ok? ==> d == Ir("/personajes") && almacen.token == Some(t) && almacen.rol == Some(yo.value.rol))
    ensures d.Aviso? && ChequeoLogin(usuario, clave).None? ==> almacen.token.None? && almacen.rol.None?
  {
    var local := ChequeoLogin(usuario, clave);
    if local.Some? {
      return Aviso(local.value);
    }
    var r := almacen.Login(usuario, clave, servidorToken);
    if r.Err? {
      almacen.Limpiar();
      return Aviso(MensajeLogin(r.error.cuerpo));
    }
    var yo := almacen.ObtenerYo(servidorYo);
    if yo.Err? {
      almacen.Limpiar();
      return Aviso(MensajeLogin(yo.error.cuerpo));
    }
    d := Ir("/personajes");
  }
}
