/** src/app/components/ProtectedRoute/ProtectedRoute.tsx: a wrapper that
    shows its children only to a signed-in user (and, when `requireAdmin`,
    only to an administrator), redirecting everyone else. The redirect is
    chosen in an effect and the render in the body, by two separate tests. */
module ProtectedRoute {
  import opened Wrappers

  /** `requireAdmin = false` */
  const RequireAdminPadrao := false

  /** `useAuth()` has no `isAdmin` member, so the destructured value is
      `undefined`, which is falsy. */
  const IsAdminDoContexto := false

  /** The effect: where the router is sent, if anywhere. */
  function Redirecionamento(isAuthenticated: bool, isAdmin: bool, requireAdmin: bool): (r: Option<string>)
    ensures !isAuthenticated ==> r == Some("/login")
    ensures isAuthenticated && requireAdmin && !isAdmin ==> r == Some("/")
    ensures isAuthenticated && (!requireAdmin || isAdmin) ==> r.None?
  {
    if !isAuthenticated then Some("/login")
    else if requireAdmin && !isAdmin then Some("/")
    else None
  }

  /** The body: whether the children are rendered (else `null`). */
  function RenderizaFilhos(isAuthenticated: bool, isAdmin: bool, requireAdmin: bool): (b: bool) {
    !(!isAuthenticated || (requireAdmin && !isAdmin))
  }

  /** The two tests agree: the children are rendered exactly when there is no
      redirect, and rendering implies a signed-in user. */
  lemma RenderSemRedirecionamento(isAuthenticated: bool, isAdmin: bool, requireAdmin: bool)
    ensures RenderizaFilhos(isAuthenticated, isAdmin, requireAdmin) <==>
      Redirecionamento(isAuthenticated, isAdmin, requireAdmin).None?
    ensures RenderizaFilhos(isAuthenticated, isAdmin, requireAdmin) ==> isAuthenticated
  {
  }

  /** With the default `requireAdmin`, being signed in is all that counts. */
  lemma PadraoSoExigeLogin(isAuthenticated: bool, isAdmin: bool)
    ensures RenderizaFilhos(isAuthenticated, isAdmin, RequireAdminPadrao) == isAuthenticated
    ensures Redirecionamento(isAuthenticated, isAdmin, RequireAdminPadrao) ==
      (if isAuthenticated then None else Some("/login"))
  {
  }

  /** Since the context never provides `isAdmin`, a route that requires an
      administrator never renders its children: a signed-in user is sent to '/'. */
  lemma AdminNuncaRenderiza(isAuthenticated: bool)
    ensures !RenderizaFilhos(isAuthenticated, IsAdminDoContexto, true)
    ensures isAuthenticated ==> Redirecionamento(isAuthenticated, IsAdminDoContexto, true) == Some("/")
  {
  }
}
