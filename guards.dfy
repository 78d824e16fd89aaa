/** The two middleware guards of middleware/auth.js. */
module Guards {
  import opened Wrappers
  import opened Accounts

  /** `next()` or `res.redirect(location)`. */
  datatype Decision = Next | Redirect(location: string)

  /** What `req.flash` may already hold: the flash helper installed by a
      middleware, or a notice object. */
  datatype Flash = FlashHelper | Notice(error: string)

  const LoginPage: string := "/login"
  const DashboardPage: string := "/dashboard"
  const LoginRequired: string := "Please login to continue"

  /** `requireAuth`: lets the request through iff the session has a user id;
      otherwise redirects to the login page, and leaves a notice in
      `req.flash` only when nothing is there yet. */
  function RequireAuth(session: Session, flash: Option<Flash>): (r: (Decision, Option<Flash>))
    reads session
    ensures r.0 == Next <==> session.userId.Some?
    ensures r.0 != Next ==> r.0 == Redirect(LoginPage)
    ensures flash.Some? ==> r.1 == flash
    ensures flash.None? && session.userId.None? ==> r.1 == Some(Notice(LoginRequired))
    ensures session.userId.Some? ==> r.1 == flash
  {
    if session.userId.None? then
      (Redirect(LoginPage), if flash.Some? then flash else Some(Notice(LoginRequired)))
    else
      (Next, flash)
  }

  /** `redirectIfAuth`: sends a logged-in user to the dashboard, lets anyone else through. */
  function RedirectIfAuth(session: Session): (d: Decision)
    reads session
    ensures d == Redirect(DashboardPage) <==> session.userId.Some?
    ensures d == Next <==> session.userId.None?
  {
    if session.userId.Some? then Redirect(DashboardPage) else Next
  }

  /** Whatever the session, exactly one of the two guards lets the request through. */
  lemma ExactlyOneGuardPasses(session: Session, flash: Option<Flash>)
    ensures (RequireAuth(session, flash).0 == Next) != (RedirectIfAuth(session) == Next)
  {
  }
}
