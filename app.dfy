/** The route table and its guard: which view a path renders, given the token found
    in localStorage at the time of navigation. */
module App {
  import opened Js

  datatype View = LoginPage | RegisterPage | TaskListPage | TaskFormPage

  /** What a route element produces: a view, or a redirect (`<Navigate to=…/>`). */
  datatype Element = Render(view: View) | Navigate(to: string)

  /** The paths the route table declares. */
  const Paths: set<string> := {"/login", "/register", "/tasks", "/tasks/new", "/"}

  /** PrivateRoute: renders its child exactly when the stored token is truthy
      (any non-empty string, with no check of validity or expiry) and sends
      everyone else to /login. */
  function PrivateRoute(child: View, stored: Option<string>): (e: Element)
    ensures e.Render? <==> Truthy(stored)
    ensures e.Render? ==> e.view == child
    ensures e.Navigate? ==> e.to == "/login"
  {
    if Truthy(stored) then Render(child) else Navigate("/login")
  }

  /** The route table; None for a path that matches no route (nothing renders). */
  function Route(path: string, stored: Option<string>): (e: Option<Element>)
    ensures e.Some? <==> path in Paths
  {
    if path == "/login" then Some(Render(LoginPage))
    else if path == "/register" then Some(Render(RegisterPage))
    else if path == "/tasks" then Some(PrivateRoute(TaskListPage, stored))
    else if path == "/tasks/new" then Some(PrivateRoute(TaskFormPage, stored))
    else if path == "/" then Some(Navigate("/tasks"))
    else None
  }

  /** The view a navigation to `path` ends on after following at most `hops`
      redirects; None when no route matches or the hops run out. */
  function Resolve(path: string, stored: Option<string>, hops: nat): (v: Option<View>)
    ensures path !in Paths ==> v == None
    ensures Route(path, stored) == Some(Render(LoginPage)) ==> v == Some(LoginPage)
    decreases hops
  {
    match Route(path, stored)
    case None => None
    case Some(Render(view)) => Some(view)
    case Some(Navigate(to)) => if hops == 0 then None else Resolve(to, stored, hops - 1)
  }

  /** /login and /register do not consult the token. */
  lemma PublicRoutesIgnoreToken(s1: Option<string>, s2: Option<string>)
    ensures Route("/login", s1) == Route("/login", s2) == Some(Render(LoginPage))
    ensures Route("/register", s1) == Route("/register", s2) == Some(Render(RegisterPage))
  {
  }

  /** /tasks and /tasks/new are guarded: without a truthy token they redirect to
      /login, with one they render their view. */
  lemma GuardedRoutes(stored: Option<string>)
    ensures Route("/tasks", stored) ==
              Some(if Truthy(stored) then Render(TaskListPage) else Navigate("/login"))
    ensures Route("/tasks/new", stored) ==
              Some(if Truthy(stored) then Render(TaskFormPage) else Navigate("/login"))
  {
  }

  /** Whatever path and however many redirects are followed, without a truthy
      token only the login and register views are ever rendered. */
  lemma {:induction false} NoProtectedViewWithoutToken(path: string, stored: Option<string>, hops: nat)
    requires !Truthy(stored)
    ensures Resolve(path, stored, hops) in {None, Some(LoginPage), Some(RegisterPage)}
    decreases hops
  {
    match Route(path, stored)
    case None =>
    case Some(Render(view)) =>
      assert path == "/login" || path == "/register";
    case Some(Navigate(to)) =>
      if hops > 0 {
        NoProtectedViewWithoutToken(to, stored, hops - 1);
      }
  }

  /** The view each declared path stands for once the guard lets it through;
      / stands for the task list it redirects to. */
  function Intended(path: string): (v: View)
    requires path in Paths
  {
    if path == "/login" then LoginPage
    else if path == "/register" then RegisterPage
    else if path == "/tasks/new" then TaskFormPage
    else TaskListPage
  }

  /** With a truthy token the guard is transparent: every declared path ends on
      the view it stands for, within one redirect. */
  lemma WithTokenEveryPathRendersItsView(path: string, stored: Option<string>, hops: nat)
    requires Truthy(stored) && path in Paths && hops >= 1
    ensures Resolve(path, stored, hops) == Some(Intended(path))
  {
  }

  /** Every declared path settles on a view within two redirects, and / ends on
      the task list with a token and on the login page without one. */
  lemma EveryRouteSettles(path: string, stored: Option<string>)
    requires path in Paths
    ensures Resolve(path, stored, 2).Some?
    ensures path == "/" ==>
              Resolve(path, stored, 2) == Some(if Truthy(stored) then TaskListPage else LoginPage)
  {
  }
}
