/** The route guard: three redirect rules tried in order, the first that applies
    deciding, and the wrapped page rendered when none does. */
module ProtectedRoute {
  import opened Common
  import CartStore
  import CartPage

  datatype Decision =
    | /** `<Navigate to="/login" state={{from: pathname}} replace />` */
      ToLogin(from: string)
    | /** `<Navigate to={path} replace />` */
      RedirectTo(path: string)
    | RenderChildren

  /** `from` is `location.state?.from`, `None` when undefined. */
  function Decide(requireAuth: bool, isLoggedIn: bool, pathname: string, from: Option<string>): Decision {
    if requireAuth && !isLoggedIn then ToLogin(pathname)
    else if !requireAuth && isLoggedIn && from.Some? then RedirectTo(from.value)
    else if !requireAuth && isLoggedIn && pathname == "/login" then RedirectTo("/")
    else RenderChildren
  }

  /** A protected page sends a logged-out visitor to "/login", remembering the page. */
  lemma ProtectedSendsToLogin(pathname: string, from: Option<string>)
    ensures Decide(true, false, pathname, from) == ToLogin(pathname)
  {
  }

  /** A protected page always renders for a logged-in visitor. */
  lemma ProtectedRendersWhenLoggedIn(pathname: string, from: Option<string>)
    ensures Decide(true, true, pathname, from) == RenderChildren
  {
  }

  /** A public page sends a logged-in visitor back to a remembered page first,
      and otherwise from "/login" to "/". */
  lemma PublicRedirectsLoggedIn(pathname: string, from: Option<string>)
    ensures from.Some? ==> Decide(false, true, pathname, from) == RedirectTo(from.value)
    ensures from.None? && pathname == "/login" ==> Decide(false, true, pathname, from) == RedirectTo("/")
    ensures from.None? && pathname != "/login" ==> Decide(false, true, pathname, from) == RenderChildren
  {
  }

  /** A public page always renders for a logged-out visitor. */
  lemma PublicRendersWhenLoggedOut(pathname: string, from: Option<string>)
    ensures Decide(false, false, pathname, from) == RenderChildren
  {
  }

  /** The page renders exactly when no redirect rule applies; a redirect to the
      login page happens exactly on a protected page while logged out. */
  lemma RenderExactlyWhenNoRule(requireAuth: bool, isLoggedIn: bool, pathname: string, from: Option<string>)
    ensures Decide(requireAuth, isLoggedIn, pathname, from) == RenderChildren <==>
      && !(requireAuth && !isLoggedIn)
      && !(!requireAuth && isLoggedIn && (from.Some? || pathname == "/login"))
    ensures Decide(requireAuth, isLoggedIn, pathname, from).ToLogin? <==> requireAuth && !isLoggedIn
  {
  }

  /** The cart page's way to payment without a token: to "/login" remembering
      "/cart", and once logged in the login page sends the user back to "/cart". */
  lemma CheckoutReturnsToCart(c: seq<CartStore.Item>)
    ensures CartPage.ProceedClick(None, c) == CartPage.ToLogin("/cart")
    ensures Decide(false, true, "/login", Some(CartPage.ProceedClick(None, c).from)) == RedirectTo("/cart")
  {
  }
}
