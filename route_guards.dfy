/**
 * The decisions that guard pages: the protected route, the three area
 * layouts and the sign-in and sign-up pages each look at the session and
 * either wait, send the visitor elsewhere, or render.
 */
module RouteGuards {
  import opened Text
  import opened Domain

  /**
   * What a guard reads from the session. `user` is None when there is no
   * user record; a record without a role has `OtherRole("")`.
   */
  datatype AuthView = AuthView(isLoading: bool, isAuthenticated: bool, user: Option<Role>)

  /**
   * A guard's verdict: the spinner, the sign-in page (remembering the page
   * asked for when `from` is set), another path, or the page itself.
   */
  datatype Decision = Spinner | ToLogin(from: Option<string>) | Redirect(path: string) | Render

  /**
   * `ProtectedRoute`; `auth` is None when there is no session context,
   * `allowed` None when no role list is given.
   */
  function ProtectedRoute(auth: Option<AuthView>, allowed: Option<seq<Role>>, location: string): (d: Decision)
    ensures d.Spinner? <==> auth.None? || auth.value.isLoading
    ensures d.ToLogin? <==> auth.Some? && !auth.value.isLoading && !auth.value.isAuthenticated
    ensures d.ToLogin? ==> d.from == Some(location)
    ensures d.Redirect? ==> d.path == "/unauthorized"
  {
    if auth.None? || auth.value.isLoading then Spinner
    else if !auth.value.isAuthenticated then ToLogin(Some(location))
    else if allowed.Some? && |allowed.value| > 0 &&
            (auth.value.user.None? || !HasRole(auth.value.user.value) || auth.value.user.value !in allowed.value)
    then Redirect("/unauthorized")
    else Render
  }

  /**
   * The page renders for a settled, signed-in session when no roles are
   * listed, and otherwise exactly when the user's role is listed and not
   * empty.
   */
  lemma ProtectedRouteAdmits(auth: Option<AuthView>, allowed: Option<seq<Role>>, location: string)
    ensures ProtectedRoute(auth, allowed, location).Render? <==>
      auth.Some? && !auth.value.isLoading && auth.value.isAuthenticated &&
      (allowed.None? || |allowed.value| == 0 ||
       (auth.value.user.Some? && HasRole(auth.value.user.value) && auth.value.user.value in allowed.value))
  {
  }

  /** A user without a role is turned away even from a route listing the empty role. */
  lemma EmptyRoleNeverAdmitted(location: string)
    ensures ProtectedRoute(Some(AuthView(false, true, Some(OtherRole("")))), Some([OtherRole("")]), location)
      == Redirect("/unauthorized")
  {
  }

  /**
   * The gate the client and specialist layouts share: wait, sign in, go home
   * when the role is not one of `roles`, or render.
   */
  function LayoutGate(auth: Option<AuthView>, roles: set<Role>, location: string): (d: Decision)
    ensures d.Spinner? <==> auth.None? || auth.value.isLoading
    ensures d.ToLogin? ==> d.from == Some(location)
    ensures d.Redirect? ==> d.path == "/"
    ensures d.Render? <==>
      (auth.Some? && !auth.value.isLoading && auth.value.isAuthenticated &&
       auth.value.user.Some? && auth.value.user.value in roles)
  {
    if auth.None? || auth.value.isLoading then Spinner
    else if !auth.value.isAuthenticated then ToLogin(Some(location))
    else if auth.value.user.None? || auth.value.user.value !in roles then Redirect("/")
    else Render
  }

  /** `ClientLayout`: every account kind may use the client area. */
  function ClientLayout(auth: Option<AuthView>, location: string): (d: Decision)
    ensures d.Render? ==> auth.Some? && auth.value.user.Some? && auth.value.user.value in {Client, Specialist, Admin}
  {
    LayoutGate(auth, {Client, Specialist, Admin}, location)
  }

  /** `SpecialistLayout`: specialists and admins only; a missing context counts as loading. */
  function SpecialistLayout(auth: Option<AuthView>, location: string): (d: Decision)
    ensures d.Render? ==> auth.Some? && auth.value.user.Some? && auth.value.user.value in {Specialist, Admin}
  {
    LayoutGate(auth, {Specialist, Admin}, location)
  }

  /** A signed-in client is sent home from the specialist area, but admitted to the client area. */
  lemma ClientIsKeptOutOfSpecialistArea(location: string)
    ensures SpecialistLayout(Some(AuthView(false, true, Some(Client))), location) == Redirect("/")
    ensures ClientLayout(Some(AuthView(false, true, Some(Client))), location) == Render
  {
  }

  /**
   * `AdminLayout`: anything but a signed-in admin goes to the sign-in page,
   * without remembering the page, and there is no waiting state.
   */
  function AdminLayout(auth: Option<AuthView>): (d: Decision)
    ensures !d.Spinner? && (d.ToLogin? ==> d.from.None?) && !d.Redirect?
    ensures d.Render? <==> auth.Some? && auth.value.isAuthenticated && auth.value.user == Some(Admin)
  {
    if auth.None? || !auth.value.isAuthenticated || auth.value.user.None? || auth.value.user.value != Admin
    then ToLogin(None)
    else Render
  }

  /**
   * The sign-in and sign-up pages: a signed-in visitor is sent to the page
   * they came from, else to the dashboard of their role; anyone else sees
   * the form.
   */
  function SignedInRedirect(auth: Option<AuthView>, from: Option<string>): (d: Decision)
    ensures d.Render? <==> auth.None? || !auth.value.isAuthenticated
    ensures d.Redirect? ==> d.path != ""
    ensures !d.Spinner? && !d.ToLogin?
  {
    if auth.Some? && auth.value.isAuthenticated then
      Redirect(if from.Some? && from.value != "" then from.value else RoleHome(auth.value.user))
    else Render
  }

  /** The dashboard a signed-in visitor without a return page lands on. */
  function RoleHome(user: Option<Role>): (r: string)
    ensures user == Some(Admin) ==> r == "/admin/dashboard"
    ensures user == Some(Specialist) ==> r == "/specialist/dashboard"
    ensures user != Some(Admin) && user != Some(Specialist) ==> r == "/client/dashboard"
  {
    if user == Some(Admin) then "/admin/dashboard"
    else if user == Some(Specialist) then "/specialist/dashboard"
    else "/client/dashboard"
  }

  /** A return page, when there is one, wins over the role's dashboard. */
  lemma SignedInRedirectPrefersReturnPage(auth: AuthView, from: string)
    requires auth.isAuthenticated && from != ""
    ensures SignedInRedirect(Some(auth), Some(from)) == Redirect(from)
  {
  }
}
