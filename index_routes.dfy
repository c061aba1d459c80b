/** routes/index.js: the admin guard, the home page's redirect priority and the
    guarded dashboard. */
module IndexRoutes {
  import opened Prelude
  import opened Runtime

  const LoginRequired := "Debes iniciar sesión para ver esa página"

  /** isLoggedIn: passes exactly when an admin is in the session; otherwise it leaves the
      error flash and sends the browser to the admin login. */
  method IsLoggedIn(s: Session) returns (pass: bool, r: Response)
    modifies s
    ensures pass <==> old(s.userId).Some?
    ensures pass ==> r == Next && s.Data() == old(s.Data())
    ensures !pass ==> r == Redirect("/auth/login") && s.Data() == old(s.Data()).(error := Some(LoginRequired))
  {
    if s.userId.Some? {
      return true, Next;
    }
    s.error := Some(LoginRequired);
    return false, Redirect("/auth/login");
  }

  /** GET /: an admin goes to the dashboard even when a customer is also logged in; a
      customer alone goes to their orders; an anonymous visitor gets the home page. */
  function Home(s: SessionData): (r: Response)
    ensures r == Redirect("/dashboard") <==> s.userId.Some?
    ensures r == Redirect("/cliente/mis-pedidos") <==> s.userId.None? && s.clienteId.Some?
    ensures r == Render("index", NoData) <==> s.userId.None? && s.clienteId.None?
  {
    if s.userId.Some? then Redirect("/dashboard")
    else if s.clienteId.Some? then Redirect("/cliente/mis-pedidos")
    else Render("index", NoData)
  }

  /** GET /dashboard: rendered with the admin's id, and only behind the admin guard. */
  method Dashboard(s: Session) returns (r: Response)
    modifies s
    ensures old(s.userId).Some? ==> r == Render("dashboard", DashboardOf(old(s.userId).value)) && s.Data() == old(s.Data())
    ensures old(s.userId).None? ==> r == Redirect("/auth/login") && s.Data() == old(s.Data()).(error := Some(LoginRequired))
  {
    var pass;
    pass, r := IsLoggedIn(s);
    if pass {
      r := Render("dashboard", DashboardOf(s.userId.value));
    }
  }
}
