/** The access rule of ProtectedRoute.js: redirect, refuse or show the nested route. */
module ProtectedRoute {
  import opened Wrappers
  import Login

  /** The session user; only its `tipo` matters here. */
  datatype Usuario = Usuario(tipo: string)

  /** What the route renders: a redirect, the "Acceso no autorizado" panel, or the outlet. */
  datatype Decision = Redirigir(ruta: string) | NoAutorizado | Permitido

  /**
   * No user and not loading: back to "/". A user whose `tipo` is not among
   * non-empty `allowedRoles`: refused. Anything else, including no user while
   * loading: the outlet.
   */
  function Acceso(user: Option<Usuario>, isLoading: bool, allowedRoles: seq<string>): (d: Decision)
    ensures d == Redirigir("/") <==> user.None? && !isLoading
    ensures d.Redirigir? ==> d.ruta == "/"
    ensures d == NoAutorizado <==> user.Some? && |allowedRoles| > 0 && user.value.tipo !in allowedRoles
    ensures d == Permitido <==>
              || (user.None? && isLoading)
              || (user.Some? && (allowedRoles == [] || user.value.tipo in allowedRoles))
  {
    if user.None? && !isLoading then Redirigir("/")
    else if user.Some? && |allowedRoles| > 0 && user.value.tipo !in allowedRoles then NoAutorizado
    else Permitido
  }

  /** A route that lists no roles admits every signed-in user. */
  lemma SinRoles(u: Usuario, isLoading: bool)
    ensures Acceso(Some(u), isLoading, []) == Permitido
  {
  }

  /**
   * A user who has just registered through the form passes a route for the
   * type chosen there, and is refused by the administrator-only routes.
   */
  lemma RegistradoAdmitido(user: string, isLoading: bool)
    requires user == "Candidato" || user == "Votante"
    ensures Acceso(Some(Usuario(Login.TipoSesion(user))), isLoading, [Login.TipoSesion(user)]) == Permitido
    ensures Acceso(Some(Usuario(Login.TipoSesion(user))), isLoading, ["administrador"]) == NoAutorizado
  {
  }
}
