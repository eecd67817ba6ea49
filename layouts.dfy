/**
 * The chrome around the pages: the public header's account links and
 * sign-out, and the specialist and admin areas' drawer, user menu, sign-out
 * and navigation highlighting.
 */
module Layouts {
  import opened Text
  import opened Domain
  import AuthContext
  import RouteGuards

  /** The header's "my account" link: the role's dashboard, or the home page. */
  function DashboardPath(user: Option<Role>): (r: string)
    ensures user == Some(Admin) ==> r == "/admin/dashboard"
    ensures user == Some(Specialist) ==> r == "/specialist/dashboard"
    ensures user == Some(Client) ==> r == "/client/dashboard"
    ensures user.None? || user.value.OtherRole? ==> r == "/"
  {
    if user.None? then "/"
    else match user.value
      case Admin => "/admin/dashboard"
      case Specialist => "/specialist/dashboard"
      case Client => "/client/dashboard"
      case OtherRole(_) => "/"
  }

  /** The header's "my profile" link: the role's profile page, or the home page. */
  function ProfilePath(user: Option<Role>): (r: string)
    ensures user == Some(Admin) ==> r == "/admin/profile"
    ensures user == Some(Specialist) ==> r == "/specialist/profile"
    ensures user == Some(Client) ==> r == "/client/profile"
    ensures user.None? || user.value.OtherRole? ==> r == "/"
  {
    if user.None? then "/"
    else match user.value
      case Admin => "/admin/profile"
      case Specialist => "/specialist/profile"
      case Client => "/client/profile"
      case OtherRole(_) => "/"
  }

  /**
   * Both links lead into the same area, named after the role: a known role
   * gets `/<role>/dashboard` and `/<role>/profile`, anyone else the home page
   * twice.
   */
  lemma AccountLinksShareArea(user: Option<Role>)
    ensures user.Some? && !user.value.OtherRole? ==>
      DashboardPath(user) == "/" + RoleName(user.value) + "/dashboard" &&
      ProfilePath(user) == "/" + RoleName(user.value) + "/profile"
    ensures user.None? || user.value.OtherRole? ==> DashboardPath(user) == ProfilePath(user) == "/"
  {
    if user.Some? {
      match user.value {
        case Admin =>
          assert "/" + "admin" + "/dashboard" == "/admin/dashboard";
          assert "/" + "admin" + "/profile" == "/admin/profile";
        case Specialist =>
          assert "/" + "specialist" + "/dashboard" == "/specialist/dashboard";
          assert "/" + "specialist" + "/profile" == "/specialist/profile";
        case Client =>
          assert "/" + "client" + "/dashboard" == "/client/dashboard";
          assert "/" + "client" + "/profile" == "/client/profile";
        case OtherRole(_) =>
      }
    }
  }

  /**
   * The header's dashboard link agrees with the dashboard the sign-in page
   * sends a known role to; for an unknown role the header falls back to the
   * home page while the sign-in page sends it to the client dashboard.
   */
  lemma DashboardPathAgreesWithRoleHome(r: Role)
    ensures !r.OtherRole? ==> DashboardPath(Some(r)) == RouteGuards.RoleHome(Some(r))
    ensures r.OtherRole? ==> DashboardPath(Some(r)) == "/" && RouteGuards.RoleHome(Some(r)) == "/client/dashboard"
  {
  }

  /** The avatar and its menu replace the sign-in button once a user is signed in and known. */
  predicate UserMenuShown(isAuthenticated: bool, user: Option<AuthContext.UserRecord>)
  {
    isAuthenticated && user.Some?
  }

  /** A session as the header sees it shows the user menu exactly when it is signed in. */
  lemma UserMenuShownForValidSession(s: AuthContext.Session)
    requires s.Valid()
    ensures UserMenuShown(s.isAuthenticated, s.user) <==> s.isAuthenticated
  {
  }

  /** The public header's two menus, each open or closed. */
  class Header {
    var navMenuOpen: bool
    var userMenuOpen: bool

    constructor ()
      ensures !navMenuOpen && !userMenuOpen
    {
      navMenuOpen, userMenuOpen := false, false;
    }

    method OpenUserMenu()
      modifies this`userMenuOpen
      ensures userMenuOpen
    {
      userMenuOpen := true;
    }

    method CloseUserMenu()
      modifies this`userMenuOpen
      ensures !userMenuOpen
    {
      userMenuOpen := false;
    }

    /** `handleLogout`: the session is cleared, the user menu closes and the home page opens. */
    method Logout(session: AuthContext.Session) returns (path: string)
      modifies this`userMenuOpen, session
      ensures session.token.None? && session.storage.None? && session.user.None? && !session.isAuthenticated
      ensures session.isLoading == old(session.isLoading) && session.Valid()
      ensures !userMenuOpen && navMenuOpen == old(navMenuOpen)
      ensures path == "/"
    {
      session.Logout();
      CloseUserMenu();
      path := "/";
    }
  }

  /**
   * The shell of the specialist and admin areas: the mobile drawer and the
   * user menu.
   */
  class AreaShell {
    var mobileOpen: bool
    var userMenuOpen: bool

    constructor ()
      ensures !mobileOpen && !userMenuOpen
    {
      mobileOpen, userMenuOpen := false, false;
    }

    /** `handleDrawerToggle`: the drawer flips and nothing else changes. */
    method ToggleDrawer()
      modifies this`mobileOpen
      ensures mobileOpen == !old(mobileOpen)
    {
      mobileOpen := !mobileOpen;
    }

    method OpenUserMenu()
      modifies this`userMenuOpen
      ensures userMenuOpen
    {
      userMenuOpen := true;
    }

    method CloseUserMenu()
      modifies this`userMenuOpen
      ensures !userMenuOpen
    {
      userMenuOpen := false;
    }

    /**
     * `handleLogout`: the session, when there is one, is cleared; the user
     * menu closes and the sign-in page opens, with or without a session.
     */
    method Logout(session: AuthContext.Session?) returns (path: string)
      modifies this`userMenuOpen, session
      ensures session != null ==>
        session.token.None? && session.storage.None? && session.user.None? &&
        !session.isAuthenticated && session.Valid()
      ensures !userMenuOpen && mobileOpen == old(mobileOpen)
      ensures path == "/login"
    {
      if session != null {
        session.Logout();
      }
      CloseUserMenu();
      path := "/login";
    }
  }

  /** `pathname.startsWith(path)`. */
  predicate StartsWith(s: string, prefix: string)
  {
    |prefix| <= |s| && s[..|prefix|] == prefix
  }

  /** A navigation item is highlighted when the current path starts with the item's path. */
  predicate NavSelected(pathname: string, itemPath: string)
  {
    StartsWith(pathname, itemPath)
  }

  const SpecialistNavPaths: seq<string> :=
    ["/specialist/dashboard", "/specialist/appointments", "/specialist/profile"]

  const AdminNavPaths: seq<string> :=
    ["/admin/dashboard", "/admin/appointments", "/admin/services", "/admin/service-categories",
     "/admin/specialists", "/admin/posts", "/admin/post-categories", "/admin/reviews",
     "/admin/contact-messages"]

  /** No item's path starts another item's path. */
  predicate PrefixFree(paths: seq<string>)
  {
    forall i, j :: 0 <= i < |paths| && 0 <= j < |paths| && i != j ==> !StartsWith(paths[j], paths[i])
  }

  /** Two prefixes of one string: the shorter is a prefix of the longer. */
  lemma PrefixesNest(s: string, p: string, q: string)
    requires StartsWith(s, p) && StartsWith(s, q) && |p| <= |q|
    ensures StartsWith(q, p)
  {
    calc {
      q[..|p|];
      s[..|q|][..|p|];
      s[..|p|];
    }
  }

  /** With prefix-free item paths, at most one item is highlighted on any page. */
  lemma AtMostOneSelected(paths: seq<string>, pathname: string, i: int, j: int)
    requires PrefixFree(paths)
    requires 0 <= i < |paths| && 0 <= j < |paths|
    requires NavSelected(pathname, paths[i]) && NavSelected(pathname, paths[j])
    ensures i == j
  {
    if i != j {
      if |paths[i]| <= |paths[j]| {
        PrefixesNest(pathname, paths[i], paths[j]);
      } else {
        PrefixesNest(pathname, paths[j], paths[i]);
      }
    }
  }

  /** On an item's own page, or below it, that item is the one highlighted. */
  lemma OwnPageSelectsItem(paths: seq<string>, i: int, rest: string)
    requires PrefixFree(paths) && 0 <= i < |paths|
    ensures NavSelected(paths[i] + rest, paths[i])
    ensures forall j :: 0 <= j < |paths| && NavSelected(paths[i] + rest, paths[j]) ==> j == i
  {
    assert (paths[i] + rest)[..|paths[i]|] == paths[i];
    forall j | 0 <= j < |paths| && NavSelected(paths[i] + rest, paths[j])
      ensures j == i
    {
      AtMostOneSelected(paths, paths[i] + rest, i, j);
    }
  }

  /** A path that differs from another at some position does not start it. */
  lemma DifferAt(p: string, q: string, k: nat)
    requires k < |p| && k < |q| && p[k] != q[k]
    ensures !StartsWith(q, p)
  {
    if |p| <= |q| {
      assert q[..|p|][k] != p[k];
    }
  }

  /** Neither area's menu has an item whose path starts another's. */
  lemma NavPathsArePrefixFree()
    ensures PrefixFree(SpecialistNavPaths)
    ensures PrefixFree(AdminNavPaths)
  {
    var s := SpecialistNavPaths;
    forall i, j | 0 <= i < |s| && 0 <= j < |s| && i != j
      ensures !StartsWith(s[j], s[i])
    {
      DifferAt(s[i], s[j], 12);
    }
    var a := AdminNavPaths;
    forall i, j | 0 <= i < |a| && 0 <= j < |a| && i != j
      ensures !StartsWith(a[j], a[i])
    {
      if a[i][7] != a[j][7] {
        DifferAt(a[i], a[j], 7);
      } else if a[i][8] != a[j][8] {
        DifferAt(a[i], a[j], 8);
      } else if a[i][11] != a[j][11] {
        DifferAt(a[i], a[j], 11);
      } else {
        DifferAt(a[i], a[j], 14);
      }
    }
  }
}
