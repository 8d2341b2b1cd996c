/** The route table and its two guards (frontend/src/App.jsx). A path
    resolves to a page or to a redirect; following redirects always ends at
    a page, and which page it is depends only on the stored token and role. */
module Rutas {
  import opened Comun

  datatype Pagina = LOGIN | REGISTER | PERSONAJES | CATALOGO

  /** What a route renders: a page, or `<Navigate to=... replace />`. */
  datatype Destino = Mostrar(pagina: Pagina) | Redirigir(a: string)

  /** `Protegida`: the child when a (truthy) token is stored, otherwise a
      redirect to /login. */
  function Protegida(token: Option<string>, hijo: Destino): (d: Destino)
    ensures Verdadero(token) ==> d == hijo
    ensures !Verdadero(token) ==> d == Redirigir("/login")
  {
    if Verdadero(token) then hijo else Redirigir("/login")
  }

  /** `SoloGM`: the child when the stored role, or "" if there is none, is
      "GM"; otherwise a redirect to /personajes. */
  function SoloGM(rol: Option<string>, hijo: Destino): (d: Destino)
    ensures rol == Some("GM") ==> d == hijo
    ensures rol != Some("GM") ==> d == Redirigir("/personajes")
  {
    var r := if rol.Some? then rol.value else "";
    if r == "GM" then hijo else Redirigir("/personajes")
  }

  /** The route table: "/" goes to /login, /login and /register are open,
      /personajes needs a token, /catalogo needs a token and then the GM
      role, and any other path goes to /personajes. */
  function Resolver(path: string, token: Option<string>, rol: Option<string>): (d: Destino)
    ensures path == "/" ==> d == Redirigir("/login")
    ensures path == "/login" ==> d == Mostrar(LOGIN)
    ensures path == "/register" ==> d == Mostrar(REGISTER)
    ensures path == "/catalogo" ==> (d == Mostrar(CATALOGO) <==> Verdadero(token) && rol == Some("GM"))
    ensures path == "/catalogo" && !Verdadero(token) ==> d == Redirigir("/login")
    ensures path !in {"/", "/login", "/register", "/personajes", "/catalogo"} ==> d == Redirigir("/personajes")
  {
    if path == "/" then Redirigir("/login")
    else if path == "/login" then Mostrar(LOGIN)
    else if path == "/register" then Mostrar(REGISTER)
    else if path == "/personajes" then Protegida(token, Mostrar(PERSONAJES))
    else if path == "/catalogo" then Protegida(token, SoloGM(rol, Mostrar(CATALOGO)))
    else Redirigir("/personajes")
  }

  /** How many redirects a path may still take: every redirect of the table
      leads to a path of smaller rank. */
  function Rango(path: string): nat {
    if path == "/login" || path == "/register" then 0
    else if path == "/personajes" || path == "/" then 1
    else 2
  }

  lemma RedirigeAMenor(path: string, token: Option<string>, rol: Option<string>)
    ensures Resolver(path, token, rol).Redirigir? ==> Rango(Resolver(path, token, rol).a) < Rango(path)
  {}

  /** The page the browser ends on after following every redirect. */
  function Final(path: string, token: Option<string>, rol: Option<string>): (p: Pagina)
    ensures p == CATALOGO <==> path == "/catalogo" && Verdadero(token) && rol == Some("GM")
    ensures p == REGISTER <==> path == "/register"
    ensures p == LOGIN <==> path == "/" || path == "/login" || (path != "/register" && !Verdadero(token))
    ensures p == PERSONAJES <==> path !in {"/", "/login", "/register"} && Verdadero(token)
                                 && !(path == "/catalogo" && rol == Some("GM"))
    decreases Rango(path)
  {
    RedirigeAMenor(path, token, rol);
    match Resolver(path, token, rol)
    case Mostrar(p) => p
    case Redirigir(a) =>
      Final(a, token, rol)
  }

  /** Following redirects one at a time, at most `pasos` of them. */
  function Navegar(path: string, token: Option<string>, rol: Option<string>, pasos: nat): Option<Pagina>
    decreases pasos
  {
    match Resolver(path, token, rol)
    case Mostrar(p) => Some(p)
    case Redirigir(a) => if pasos == 0 then None else Navegar(a, token, rol, pasos - 1)
  }

  /** Two redirects always suffice, and the browser lands on `Final`. */
  lemma {:induction false} NavegarTermina(path: string, token: Option<string>, rol: Option<string>, pasos: nat)
    requires pasos >= Rango(path)
    ensures Navegar(path, token, rol, pasos) == Some(Final(path, token, rol))
    decreases Rango(path)
  {
    RedirigeAMenor(path, token, rol);
    match Resolver(path, token, rol)
    case Mostrar(p) =>
    case Redirigir(a) => NavegarTermina(a, token, rol, pasos - 1);
  }
}
