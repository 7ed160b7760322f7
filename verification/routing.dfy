/** The guard around protected routes: what it shows for a given state of
    the authentication context. */
module Routing {
  import opened Wrappers

  /** What the authentication context offers the guard. `error` holds the
      message of the last failed sign-up or sign-in (`None` for `null`);
      `userId` the signed-in user. */
  datatype AuthState = AuthState(userId: Option<string>, loading: bool, isAdmin: bool, error: Option<string>)

  /** JavaScript truthiness of `error`: neither `null` nor the empty string. */
  predicate HasError(auth: AuthState) {
    auth.error.Some? && auth.error.value != ""
  }

  datatype Guarded =
    | LoginWithError(error: string)   // redirect to /login carrying the error
    | Spinner                         // still loading
    | LoginSavingPath(path: string)   // redirect to /login; `path` is stored as the redirect path
    | Home                            // redirect to /
    | Children                        // the protected page itself

  /** `ProtectedRoute`; the route is admin-only when `requireAdmin`, which
      is off unless given. */
  function Protect(auth: AuthState, path: string, requireAdmin: bool := false): (g: Guarded)
    ensures g == Children <==>
      (auth.error.None? || auth.error.value == "") && !auth.loading && auth.userId.Some? && (requireAdmin ==> auth.isAdmin)
    ensures g.LoginWithError? <==> auth.error.Some? && auth.error.value != ""
    ensures g.LoginWithError? ==> g.error == auth.error.value
    ensures g.LoginSavingPath? ==> g.path == path
  {
    if HasError(auth) then LoginWithError(auth.error.value)
    else if auth.loading then Spinner
    else if auth.userId.None? then LoginSavingPath(path)
    else if requireAdmin && !auth.isAdmin then Home
    else Children
  }

  /** The checks are made in order: an error wins over everything, then
      loading, then a missing user, then a missing admin right. An empty
      error message is falsy and does not stop the later checks. */
  lemma ProtectOrder(auth: AuthState, path: string, requireAdmin: bool)
    ensures !HasError(auth) && auth.loading ==> Protect(auth, path, requireAdmin) == Spinner
    ensures !HasError(auth) && !auth.loading && auth.userId.None? ==>
      Protect(auth, path, requireAdmin) == LoginSavingPath(path)
    ensures !HasError(auth) && !auth.loading && auth.userId.Some? && requireAdmin && !auth.isAdmin ==>
      Protect(auth, path, requireAdmin) == Home
    ensures Protect(auth.(error := Some("")), path, requireAdmin) == Protect(auth.(error := None), path, requireAdmin)
  {
  }

  /** A route that does not ask for admin rights treats admins and
      non-admins alike; an admin-only route lets in exactly the signed-in
      admins that the plain route lets in. */
  lemma AdminRightsOnlyMatterWhenRequired(auth: AuthState, path: string)
    ensures Protect(auth, path) == Protect(auth.(isAdmin := true), path)
    ensures Protect(auth, path, true) == Children <==> Protect(auth, path) == Children && auth.isAdmin
  {
  }
}
