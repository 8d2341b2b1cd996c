/** The requester of a backend call and the two permission classes
    (backend/core/permissions.py). */
module Permisos {
  import opened Comun
  import opened Modelos

  /** `request.user`: an anonymous user, or an authenticated account with its
      id and role. */
  datatype Solicitante = Anonimo | Autenticado(id: nat, rol: Rol)

  /** `request.user.id`: `None` for the anonymous user. */
  function IdDe(s: Solicitante): Option<nat> {
    if s.Autenticado? then Some(s.id) else None
  }

  /** `EsGM.has_permission`: the user's role attribute equals the string "GM";
      the anonymous user has no role. */
  predicate EsGM(s: Solicitante)
    ensures EsGM(s) <==> (s.Autenticado? && RolTexto(s.rol) == "GM")
  {
    s.Autenticado? && s.rol == GM
  }

  /** `EsPropietarioOGM.has_object_permission`: the user is a GM, or the
      character's owner id equals the user's id. */
  predicate EsPropietarioOGM(s: Solicitante, pj: Personaje)
    ensures EsGM(s) ==> EsPropietarioOGM(s, pj)
    ensures s.Autenticado? && !EsGM(s) ==> (EsPropietarioOGM(s, pj) <==> pj.propietario == Some(s.id))
    ensures s.Autenticado? && !EsGM(s) && pj.propietario.None? ==> !EsPropietarioOGM(s, pj)
    // As written, `None == None` lets the anonymous user pass on an unowned
    // character; `IsAuthenticated` is always checked before it.
    ensures s.Anonimo? ==> (EsPropietarioOGM(s, pj) <==> pj.propietario.None?)
  {
    EsGM(s) || pj.propietario == IdDe(s)
  }
}
