/**
  components/UserRequire.tsx: the route guard. It renders the nested route, or redirects to
  /unauthorized or to /login with the current location kept in the navigation state.
 */
module UserRequire {
  import opened Outcomes
  import opened Text
  import opened UserModel
  import opened ClientStore

  datatype Decision = RenderOutlet | RedirectUnauthorized(from: string) | RedirectLogin(from: string)

  /** `user?.role as string`, as `includes` reads it: the role name, or "undefined" without a user. */
  function RoleArgument(user: Option<UserInterface>): string {
    if user.Some? then RoleName(user.value.role) else "undefined"
  }

  /**
    The render decision: `loggedIn` is the truthiness of the `logged_in` cookie, `user` the store's
    `authorizedUser`, `allowedRoles` the guard's string prop.
   */
  function Decide(loggedIn: bool, user: Option<UserInterface>, allowedRoles: string, location: string): (d: Decision)
    ensures d == RenderOutlet <==> (loggedIn || user.Some?) && Contains(allowedRoles, RoleArgument(user))
    ensures d.RedirectUnauthorized? <==> d != RenderOutlet && loggedIn && user.Some?
    ensures d.RedirectUnauthorized? ==> d.from == location
    ensures d.RedirectLogin? ==> d.from == location && (!loggedIn || user.None?)
  {
    if (loggedIn || user.Some?) && Contains(allowedRoles, RoleArgument(user)) then RenderOutlet
    else if loggedIn && user.Some? then RedirectUnauthorized(location)
    else RedirectLogin(location)
  }

  /** No role's name contains "undefined", so without a stored user the nested route never renders, cookie or not. */
  lemma NoUserNeverRenders(loggedIn: bool, role: Role, location: string)
    ensures Decide(loggedIn, None, RoleName(role), location) == RedirectLogin(location)
  {
    var s := RoleName(role);
    assert !Contains(s, "undefined") by {
      forall i: nat ensures !OccursAt(s, "undefined", i) {
        assert |s| < |"undefined"|;
      }
    }
  }

  /** JavaScript's `a || b` on strings: `a` when it is non-empty, else `b`. */
  function JsOr(a: string, b: string): string {
    if a != "" then a else b
  }

  /** The `allowedRoles` the routes pass: `Roles.USER || Roles.ADMIN`. */
  function RouteRoles(): (s: string)
    ensures s == RoleName(User)
  {
    JsOr(RoleName(User), RoleName(Admin))
  }

  /** On the guarded routes an administrator whose cookie is set is sent to /unauthorized. */
  lemma AdminIsUnauthorized(admin: UserInterface, location: string)
    requires admin.role == Admin
    ensures Decide(true, Some(admin), RouteRoles(), location) == RedirectUnauthorized(location)
  {
    var s := RouteRoles();
    assert !Contains(s, "admin") by {
      forall i: nat ensures !OccursAt(s, "admin", i) {
        if i == 0 {
          assert s[0] != 'a';
        } else {
          assert i + 5 > |s|;
        }
      }
    }
  }

  /** On the guarded routes a user with role "user" renders, whether or not the cookie is set. */
  lemma UserRenders(user: UserInterface, loggedIn: bool, location: string)
    requires user.role == User
    ensures Decide(loggedIn, Some(user), RouteRoles(), location) == RenderOutlet
  {
    assert OccursAt(RouteRoles(), "user", 0);
  }
}
