/** The client's route table and its `beforeEach` guard: a public route is
    always entered, a route that requires authentication sends a visitor who
    is not signed in to the login route with the target path kept for the
    return, and every other navigation goes ahead. */
module RouterGuard {
  import opened Values

  /** `to.meta`; a missing key reads as false. */
  datatype Meta = Meta(public: bool, requiresAuth: bool)

  datatype Route = Route(path: string, name: Option<string>, meta: Meta, redirect: Option<string>)

  const NoMeta: Meta := Meta(false, false)

  /** The table the router is created with. */
  const Routes: seq<Route> := [
    Route("/login", Some("login"), Meta(true, false), None),
    Route("/", Some("dashboard"), Meta(false, true), None),
    Route("/manutencoes", Some("manutencoes"), Meta(false, true), None),
    Route("/manutencoes/:id", Some("detalhe"), Meta(false, true), None),
    Route("/calendario", Some("calendario"), Meta(false, true), None),
    Route("/maquinas", Some("maquinas"), Meta(false, true), None),
    Route("/setores", Some("setores"), Meta(false, true), None),
    Route("/:pathMatch(.*)*", None, NoMeta, Some("/"))]

  /** The guard's answer: go ahead (`true`), or
      `{ name: 'login', query: { redirect } }`. */
  datatype Decision = Allow | ToLogin(redirect: string)

  /** `beforeEach((to) => ...)` with `auth.isAuthed` passed in. */
  function BeforeEach(to: Meta, fullPath: string, authed: bool): (d: Decision)
    ensures to.public ==> d == Allow
    ensures d.ToLogin? ==> d.redirect == fullPath
    ensures d.ToLogin? <==> !to.public && to.requiresAuth && !authed
  {
    if to.public then Allow
    else if to.requiresAuth && !authed then ToLogin(fullPath)
    else Allow
  }

  /** A signed-in user is never redirected. */
  lemma {:induction false} AuthedAlwaysAllowed(to: Meta, fullPath: string)
    ensures BeforeEach(to, fullPath, true) == Allow
  {
  }

  /** Only the login route is public, and every other named route requires
      authentication. */
  lemma {:induction false} OnlyLoginIsPublic()
    ensures forall i :: 0 <= i < |Routes| ==> (Routes[i].meta.public <==> Routes[i].name == Some("login"))
    ensures forall i :: 0 <= i < |Routes| && Routes[i].name.Some? && Routes[i].name != Some("login") ==>
              Routes[i].meta.requiresAuth
  {
  }

  /** Signed out, every named route but login leads to login carrying its
      path, and the login route itself is entered, so the redirect cannot
      loop. */
  lemma {:induction false} SignedOutGoesToLogin(i: int, fullPath: string)
    requires 0 <= i < |Routes| && Routes[i].name.Some?
    ensures Routes[i].name == Some("login") ==> BeforeEach(Routes[i].meta, fullPath, false) == Allow
    ensures Routes[i].name != Some("login") ==> BeforeEach(Routes[i].meta, fullPath, false) == ToLogin(fullPath)
    ensures BeforeEach(Routes[0].meta, Routes[0].path, false) == Allow && Routes[0].name == Some("login")
  {
    OnlyLoginIsPublic();
  }
}
