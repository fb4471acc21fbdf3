/** Basic-auth checks, the role-gating validators and the logout guard (`auth.rs`). */
module Auth {
  import opened Wrappers
  import opened Text
  import opened Models
  import opened State

  const AuthRealm: string := "Barber2Go"
  const LogoutCookie: string := "b2g_logged_out"

  /** `AuthUser`: what a successful login puts into the request. */
  datatype AuthUser = AuthUser(id: string, displayName: string, role: string)

  /** `SELECT ... FROM users WHERE username = ? AND active = 1 LIMIT 1`: the first active
      row with that username, in table order. */
  function FindActive(users: seq<UserRow>, username: string): (r: Option<nat>)
    ensures r.Some? ==> r.value < |users| && users[r.value].username == username && users[r.value].active == 1
    ensures r.Some? ==> forall k :: 0 <= k < r.value ==> !(users[k].username == username && users[k].active == 1)
    ensures r.None? ==> forall k :: 0 <= k < |users| ==> !(users[k].username == username && users[k].active == 1)
  {
    if users == [] then None
    else if users[0].username == username && users[0].active == 1 then Some(0)
    else match FindActive(users[1..], username)
      case None => None
      case Some(i) => Some(i + 1)
  }

  /** `authenticate_credentials`. `verify(password, hash)` stands for the Argon2 check, false
      also when the stored hash does not parse. A failed query reads as no user. */
  function AuthenticateCredentials(st: AppState, username: string, password: string,
                                   verify: (string, string) -> bool): (r: Option<AuthUser>)
    reads st
    ensures r.Some? <==> st.online && FindActive(st.users, username).Some? &&
                         verify(password, st.users[FindActive(st.users, username).value].passwordHash)
    ensures r.Some? ==> exists k :: 0 <= k < |st.users| && st.users[k].username == username &&
                          st.users[k].active == 1 && verify(password, st.users[k].passwordHash) &&
                          r.value == AuthUser(st.users[k].id, st.users[k].displayName, st.users[k].role)
  {
    if !st.online then None
    else match FindActive(st.users, username)
      case None => None
      case Some(k) =>
        var u := st.users[k];
        if verify(password, u.passwordHash) then Some(AuthUser(u.id, u.displayName, u.role)) else None
  }

  /** A user whose every row with that username is inactive never logs in, whatever the password. */
  lemma InactiveNeverAuthenticates(st: AppState, username: string, password: string,
                                   verify: (string, string) -> bool)
    requires forall u :: u in st.users && u.username == username ==> u.active != 1
    ensures AuthenticateCredentials(st, username, password, verify) == None
  {
  }

  /** Which roles a validator lets through. */
  datatype Gate = AnyRole | AdminOnly | BarberOnly

  /** A validator's decision: admit the user, or answer 401 with a message. */
  datatype Verdict = Admit(user: AuthUser) | Reject(message: string)

  /** The decision `basic_validator`, `admin_validator` and `barber_validator` take once
      `authenticate` has answered. */
  function Gatekeep(gate: Gate, authenticated: Option<AuthUser>): (v: Verdict)
    ensures v.Admit? <==> (authenticated.Some? &&
                           (gate == AnyRole || (gate == AdminOnly && authenticated.value.role == RoleAdmin) ||
                            (gate == BarberOnly && authenticated.value.role == RoleBarber)))
    ensures v.Admit? ==> v.user == authenticated.value
    ensures authenticated.None? ==> v == Reject("Unauthorized")
    ensures authenticated.Some? && v.Reject? ==>
      v.message == (if gate == AdminOnly then "Admin access required" else "Barber access required")
  {
    match authenticated
    case None => Reject("Unauthorized")
    case Some(user) =>
      match gate
      case AnyRole => Admit(user)
      case AdminOnly => if user.role != RoleAdmin then Reject("Admin access required") else Admit(user)
      case BarberOnly => if user.role != RoleBarber then Reject("Barber access required") else Admit(user)
  }

  /** The barber area is closed to admins, and the admin area to barbers. */
  lemma RoleGatesAreDisjoint(user: AuthUser)
    ensures Gatekeep(AdminOnly, Some(user)).Admit? ==> Gatekeep(BarberOnly, Some(user)).Reject?
    ensures Gatekeep(BarberOnly, Some(user)).Admit? ==> Gatekeep(AdminOnly, Some(user)).Reject?
    ensures Gatekeep(AnyRole, Some(user)) == Admit(user)
  {
  }

  /** The part of a `ServiceRequest` the middleware reads and writes: its path, its cookies
      and the `AuthUser` held in its extensions. */
  class Request {
    const path: string
    const cookies: map<string, string>
    var user: Option<AuthUser>

    constructor (path: string, cookies: map<string, string>)
      ensures this.path == path && this.cookies == cookies && user == None
    {
      this.path := path;
      this.cookies := cookies;
      user := None;
    }
  }

  /** A validator run on a request with Basic credentials; a missing password is the empty
      string. On admission the user is stored in the request. */
  method Validate(gate: Gate, st: AppState, req: Request, username: string, password: Option<string>,
                  verify: (string, string) -> bool) returns (v: Verdict)
    modifies req`user
    ensures v == Gatekeep(gate, AuthenticateCredentials(st, username, password.UnwrapOr(""), verify))
    ensures v.Admit? ==> req.user == Some(v.user)
    ensures v.Reject? ==> req.user == old(req.user)
  {
    var authenticated := AuthenticateCredentials(st, username, password.UnwrapOr(""), verify);
    v := Gatekeep(gate, authenticated);
    if v.Admit? {
      req.user := Some(v.user);
    }
  }

  /** `is_logged_out`: the logout cookie is present, whatever it holds. */
  predicate IsLoggedOut(cookies: map<string, string>) {
    LogoutCookie in cookies
  }

  /** Setting the cookie to any value logs out; removing it is the only way back in. */
  lemma LoggedOutWhateverValue(cookies: map<string, string>, value: string)
    ensures IsLoggedOut(cookies[LogoutCookie := value])
    ensures !IsLoggedOut(cookies - {LogoutCookie})
  {
  }

  /** What `logout_guard` does with a request. */
  datatype GuardOutcome = LoggedOutPage(loginUrl: string) | CallNext

  /** `logout_guard`: a logged-out request gets the 401 page, whose login link points back at
      the barber dashboard for barber paths and at the admin dashboard for everything else;
      any other request goes on to the next service. */
  function LogoutGuard(path: string, cookies: map<string, string>): (g: GuardOutcome)
    ensures g.CallNext? <==> !IsLoggedOut(cookies)
    ensures g.LoggedOutPage? && StartsWith(path, "/barber") ==> g.loginUrl == "/login?next=/barber/dashboard"
    ensures g.LoggedOutPage? && !StartsWith(path, "/barber") ==> g.loginUrl == "/login?next=/admin/dashboard"
  {
    if IsLoggedOut(cookies) then
      var target := if StartsWith(path, "/barber") then "/barber/dashboard" else "/admin/dashboard";
      LoggedOutPage("/login?next=" + target)
    else CallNext
  }
}
