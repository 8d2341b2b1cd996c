/** The browser side of the session (frontend/src/api.js): the token and role
    kept in `localStorage`, the request interceptor that turns the stored
    token into a bearer credential, and the payloads and token handling of
    `login`, `obtenerYo` and `registrarse`. The server is a parameter: each
    call receives the response the backend gives to the request it sends. */
module Api {
  import opened Comun
  import opened Texto
  import opened Vistas

  // ------------------------------------------- bearer credentials (RFC 6750)

  /** A character of the `b64token` rule of section 2.1 of RFC 6750:
      ALPHA, DIGIT, "-", ".", "_", "~", "+" or "/". */
  predicate CaracterB64(c: char) {
    || ('A' <= c <= 'Z') || ('a' <= c <= 'z') || ('0' <= c <= '9')
    || c == '-' || c == '.' || c == '_' || c == '~' || c == '+' || c == '/'
  }

  /** Length of the longest prefix of `b64token` characters. */
  function PrefijoB64(s: string): (n: nat)
    ensures n <= |s|
    ensures forall k :: 0 <= k < n ==> CaracterB64(s[k])
    ensures n < |s| ==> !CaracterB64(s[n])
  {
    if |s| > 0 && CaracterB64(s[0]) then 1 + PrefijoB64(s[1..]) else 0
  }

  /** `b64token = 1*( ALPHA / DIGIT / "-" / "." / "_" / "~" / "+" / "/" ) *"="`. */
  predicate B64Token(s: string) {
    PrefijoB64(s) >= 1 && forall k :: PrefijoB64(s) <= k < |s| ==> s[k] == '='
  }

  /** Number of leading spaces. */
  function Espacios(s: string): (n: nat)
    ensures n <= |s|
    ensures forall k :: 0 <= k < n ==> s[k] == ' '
    ensures n < |s| ==> s[n] != ' '
  {
    if |s| > 0 && s[0] == ' ' then 1 + Espacios(s[1..]) else 0
  }

  /** Reads an `Authorization` value as `credentials = "Bearer" 1*SP
      b64token` (section 2.1 of RFC 6750), giving the token. */
  function Credencial(v: string): (t: Option<string>)
    ensures t.Some? ==> B64Token(t.value)
    ensures t.Some? ==> exists n :: 1 <= n && v == "Bearer" + Repetir(' ', n) + t.value
  {
    if |v| >= 6 && v[..6] == "Bearer" then
      var resto := v[6..];
      var n := Espacios(resto);
      if n >= 1 && B64Token(resto[n..]) then
        assert resto[..n] == Repetir(' ', n) by { RepetirEspacios(resto, n); }
        assert v == "Bearer" + resto[..n] + resto[n..];
        Some(resto[n..])
      else None
    else None
  }

  function Repetir(c: char, n: nat): (s: string)
    ensures |s| == n && forall k :: 0 <= k < n ==> s[k] == c
  {
    if n == 0 then [] else [c] + Repetir(c, n - 1)
  }

  lemma RepetirEspacios(s: string, n: nat)
    requires n <= |s| && forall k :: 0 <= k < n ==> s[k] == ' '
    ensures s[..n] == Repetir(' ', n)
  {}

  /** The value the interceptor writes, read back as a bearer credential,
      gives the stored token whenever that token is a `b64token`, as a JWT is. */
  lemma {:induction false} CredencialDeBearer(t: string)
    requires B64Token(t)
    ensures Credencial("Bearer " + t) == Some(t)
  {
    var v := "Bearer " + t;
    assert v[..6] == "Bearer";
    var resto := v[6..];
    assert resto == " " + t;
    assert resto[1..] == t;
    assert t[0] != ' ';
    assert Espacios(resto) == 1 + Espacios(t);
    assert Espacios(t) == 0;
  }

  // --------------------------------------------------------- local storage

  /** `localStorage` as the pages use it: the `token` and `rol` keys; `None`
      is a missing key, for which `getItem` gives `null`. */
  class Almacen {
    var token: Option<string>
    var rol: Option<string>

    /** An empty store. */
    constructor ()
      ensures token.None? && rol.None?
    {
      token := None;
      rol := None;
    }

    /** `almacenamientoToken.leer()`. */
    function Leer(): (r: Option<string>)
      reads this`token
      ensures r == token
    {
      token
    }

    /** `almacenamientoToken.guardar(t)`: `leer()` then gives `t`; the role
        is not touched. */
    method Guardar(t: string)
      modifies this`token
      ensures Leer() == Some(t)
    {
      token := Some(t);
    }

    /** `almacenamientoToken.limpiar()`: both the token and the role go. */
    method Limpiar()
      modifies this`token, this`rol
      ensures Leer().None? && rol.None?
    {
      token := None;
      rol := None;
    }

    /** The request interceptor, on the stored token. */
    function Autorizar(cabeceras: map<string, string>): (r: map<string, string>)
      reads this`token
      ensures Verdadero(Leer()) ==> r == cabeceras["Authorization" := "Bearer " + Leer().value]
      ensures !Verdadero(Leer()) ==> r == cabeceras
      ensures Verdadero(Leer()) && B64Token(Leer().value) ==> Credencial(r["Authorization"]) == Leer()
    {
      ConBearer(token, cabeceras)
    }

    /** `login`: posts the trimmed username and the untouched password to
        the token endpoint (`servidor`) and stores `data.access`; a response
        without it stores the string "undefined", as `setItem` does. A
        failure leaves the store as it was and is passed on. */
    method Login(usuario: string, clave: string, servidor: Credenciales -> Result<Option<string>, Fallo>)
      returns (r: Result<Option<string>, Fallo>)
      modifies this`token
      ensures r == servidor(CargaLogin(usuario, clave))
      ensures r.Ok? ==> Leer() == Some(CadenaJs(r.value))
      ensures r.Err? ==> token == old(token)
    {
      r := servidor(CargaLogin(usuario, clave));
      if r.Ok? {
        Guardar(CadenaJs(r.value));
      }
    }

    /** `obtenerYo`: asks `/yo/` with the client's headers through the
        interceptor and stores `data.rol || ""`. */
    method ObtenerYo(servidor: map<string, string> -> Result<Perfil, Fallo>) returns (r: Result<Perfil, Fallo>)
      modifies this`rol
      ensures r == servidor(Autorizar(CabecerasCliente))
      ensures r.Ok? ==> rol == Some(r.value.rol)
      ensures r.Err? ==> rol == old(rol)
    {
      r := servidor(Autorizar(CabecerasCliente));
      if r.Ok? {
        // `data.rol || ""` is `data.rol` for any string.
        rol := Some(if r.value.rol != "" then r.value.rol else "");
      }
    }

    /** `registrarse`: posts the trimmed username and email and the
        untouched passwords, then stores the token of the response when it is
        not empty. */
    method Registrarse(username: string, email: string, password: string, password2: string,
                       servidor: SolicitudRegistro -> Result<RespuestaRegistro, Fallo>)
      returns (r: Result<RespuestaRegistro, Fallo>)
      modifies this`token
      ensures r == servidor(CargaRegistro(username, email, password, password2))
      ensures r.Ok? && TokenDeRegistro(r.value) != "" ==> Leer() == Some(TokenDeRegistro(r.value))
      ensures !(r.Ok? && TokenDeRegistro(r.value) != "") ==> token == old(token)
    {
      r := servidor(CargaRegistro(username, email, password, password2));
      if r.Ok? {
        var t := TokenDeRegistro(r.value);
        if t != "" {
          Guardar(t);
        }
      }
    }
  }

  /** What the request interceptor does to the headers of a request when
      `t` is stored: a truthy token adds an `Authorization` header carrying
      it as a bearer credential; with no token, or an empty one, the headers
      go out as they came. No other header changes. */
  function ConBearer(t: Option<string>, cabeceras: map<string, string>): (r: map<string, string>)
    ensures forall k :: k != "Authorization" ==> (k in r <==> k in cabeceras)
    ensures forall k :: k != "Authorization" && k in r ==> r[k] == cabeceras[k]
    ensures Verdadero(t) ==> "Authorization" in r && r["Authorization"] == "Bearer " + t.value
    ensures !Verdadero(t) ==> r == cabeceras
    ensures Verdadero(t) && B64Token(t.value) ==> Credencial(r["Authorization"]) == t
  {
    if Verdadero(t) then
      CredencialDeBearerSi(t.value);
      cabeceras["Authorization" := "Bearer " + t.value]
    else cabeceras
  }

  /** The default headers of the API client. */
  const CabecerasCliente: map<string, string> := map["Content-Type" := "application/json"]

  lemma CredencialDeBearerSi(t: string)
    ensures B64Token(t) ==> Credencial("Bearer " + t) == Some(t)
  {
    if B64Token(t) { CredencialDeBearer(t); }
  }

  // ---------------------------------------------------------------- login

  /** The body `login` posts. */
  datatype Credenciales = Credenciales(username: string, password: string)

  /** `String(usuario).trim()` and `String(clave)`: the username loses its
      surrounding spaces, the password is sent as typed. */
  function CargaLogin(usuario: string, clave: string): (p: Credenciales)
    ensures p.password == clave
    ensures p.username == [] <==> forall k :: 0 <= k < |usuario| ==> EspacioJs(usuario[k])
    ensures p.username != [] ==> !EspacioJs(p.username[0]) && !EspacioJs(p.username[|p.username| - 1])
    ensures p.username != [] ==> Inicio(usuario, EspacioJs) <= Fin(usuario, EspacioJs)
                                 && p.username == usuario[Inicio(usuario, EspacioJs)..Fin(usuario, EspacioJs)]
  {
    Credenciales(TrimJs(usuario), clave)
  }

  /** Building the body again from the body gives the same body. */
  lemma CargaLoginEstable(usuario: string, clave: string)
    ensures CargaLogin(CargaLogin(usuario, clave).username, CargaLogin(usuario, clave).password) == CargaLogin(usuario, clave)
  {
    RecortarIdempotente(usuario, EspacioJs);
  }

  /** `localStorage.setItem` stores `String(v)`: a missing value becomes
      "undefined". */
  function CadenaJs(v: Option<string>): (s: string)
    ensures v.Some? ==> s == v.value
    ensures v.None? ==> s == "undefined"
  {
    if v.Some? then v.value else "undefined"
  }

  // --------------------------------------------------------- registration

  /** The body `registrarse` posts. */
  datatype SolicitudRegistro = SolicitudRegistro(username: string, email: string, password: string, password2: string)

  /** Username and email are trimmed, the passwords are sent as typed. */
  function CargaRegistro(username: string, email: string, password: string, password2: string): (p: SolicitudRegistro)
    ensures p.password == password && p.password2 == password2
    ensures p.username == [] <==> forall k :: 0 <= k < |username| ==> EspacioJs(username[k])
    ensures p.email == [] <==> forall k :: 0 <= k < |email| ==> EspacioJs(email[k])
    ensures p.username != [] ==> !EspacioJs(p.username[0]) && !EspacioJs(p.username[|p.username| - 1])
    ensures p.email != [] ==> !EspacioJs(p.email[0]) && !EspacioJs(p.email[|p.email| - 1])
    ensures p.username != [] ==> Inicio(username, EspacioJs) <= Fin(username, EspacioJs)
                                 && p.username == username[Inicio(username, EspacioJs)..Fin(username, EspacioJs)]
    ensures p.email != [] ==> Inicio(email, EspacioJs) <= Fin(email, EspacioJs)
                              && p.email == email[Inicio(email, EspacioJs)..Fin(email, EspacioJs)]
  {
    SolicitudRegistro(TrimJs(username), TrimJs(email), password, password2)
  }

  /** Building the body again from the body gives the same body. */
  lemma CargaRegistroEstable(username: string, email: string, password: string, password2: string)
    ensures var p := CargaRegistro(username, email, password, password2);
            CargaRegistro(p.username, p.email, p.password, p.password2) == p
  {
    RecortarIdempotente(username, EspacioJs);
    RecortarIdempotente(email, EspacioJs);
  }

  /** The parts of a registration response `registrarse` reads:
      `data.tokens.access` and `data.access`, either of which may be missing. */
  datatype RespuestaRegistro = RespuestaRegistro(tokensAccess: Option<string>, access: Option<string>)

  /** `data?.tokens?.access || data?.access || ""`: the first truthy one. */
  function TokenDeRegistro(d: RespuestaRegistro): (t: string)
    ensures t != "" <==> Verdadero(d.tokensAccess) || Verdadero(d.access)
    ensures Verdadero(d.tokensAccess) ==> t == d.tokensAccess.value
    ensures !Verdadero(d.tokensAccess) && Verdadero(d.access) ==> t == d.access.value
  {
    if Verdadero(d.tokensAccess) then d.tokensAccess.value
    else if Verdadero(d.access) then d.access.value
    else ""
  }
}
