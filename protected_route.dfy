/**
 * `Protected` (components/route/Protected.js): render the wrapped children,
 * or redirect to the login page once the auth slice has finished loading
 * without a signed-in user.
 */
module ProtectedRoute {
  import opened Wrappers

  /** What the component returns: `<Navigate to={to} replace={replace} />` or `children`. */
  datatype View = Navigate(to: string, replace: bool) | Children

  /** A JavaScript truthiness test on a possibly-undefined flag. */
  predicate Truthy(b: Option<bool>) {
    b == Some(true)
  }

  const LOGIN_PATH: string := "/login"

  /** `Protected({ children })` for the `loading` and `isAuthenticated` members of `state.auth`. */
  function Protected(loading: Option<bool>, isAuthenticated: Option<bool>): (v: View)
    ensures v.Navigate? <==> !Truthy(loading) && !Truthy(isAuthenticated)
    ensures v.Navigate? ==> v == Navigate(LOGIN_PATH, true)
  {
    if !Truthy(loading) && !Truthy(isAuthenticated) then Navigate(LOGIN_PATH, true) else Children
  }

  /** While loading, the children render whether or not anyone is signed in. */
  lemma LoadingRendersChildren(isAuthenticated: Option<bool>)
    ensures Protected(Some(true), isAuthenticated) == Children
  {
  }

  /** A signed-in user always sees the children. */
  lemma AuthenticatedRendersChildren(loading: Option<bool>)
    ensures Protected(loading, Some(true)) == Children
  {
  }

  /** The initial auth slice, before anything is known, redirects: undefined flags are falsy. */
  lemma UnknownStateRedirects()
    ensures Protected(None, None) == Navigate(LOGIN_PATH, true)
  {
  }
}
