/** Access control: the two route guards and the session role that login and logout change. */
module Access {
  import opened Domain

  const AdminUsername := "admin"
  const AdminPassword := "admin123"
  const UserUsername := "user"
  const UserPassword := "user123"
  const InvalidCredentials := "Invalid credentials"

  /** What a guard renders: its children, or a redirect. */
  datatype Guard = Render | RedirectTo(path: string)

  /** UserRoute: no role goes to the login page, a role other than "user" goes to the admin area. */
  function UserRoute(role: string): Guard
  {
    if role == "" then RedirectTo("/login")
    else if role != "user" then RedirectTo("/admin")
    else Render
  }

  /** AdminRoute: no role goes to the login page, a role other than "admin" goes to the home page. */
  function AdminRoute(role: string): Guard
  {
    if role == "" then RedirectTo("/login")
    else if role != "admin" then RedirectTo("/")
    else Render
  }

  /** The role a username and password pair logs in as, if any. */
  function Authenticate(username: string, password: string): Option<string>
  {
    if username == AdminUsername && password == AdminPassword then Some("admin")
    else if username == UserUsername && password == UserPassword then Some("user")
    else None
  }

  /** Each guard admits exactly its own role; no role is admitted by both, and the empty role by neither. */
  lemma GuardsAdmitOneRole(role: string)
    ensures UserRoute(role) == Render <==> role == "user"
    ensures AdminRoute(role) == Render <==> role == "admin"
    ensures !(UserRoute(role) == Render && AdminRoute(role) == Render)
    ensures role == "" ==> UserRoute(role) == RedirectTo("/login") && AdminRoute(role) == RedirectTo("/login")
  {
  }

  /** Both the username and the password must match: only the two exact pairs log in. */
  lemma AuthenticateExact(username: string, password: string)
    ensures Authenticate(username, password) == Some("admin") <==> username == "admin" && password == "admin123"
    ensures Authenticate(username, password) == Some("user") <==> username == "user" && password == "user123"
    ensures Authenticate(username, password).Some? ==> Authenticate(username, password).value in {"admin", "user"}
  {
  }

  /** The session: the role held by the application, the role kept in local storage (None once removed),
      the login page's error, and the last location navigated to. */
  class Session {
    var userRole: string
    var storedRole: Option<string>
    var error: string
    var location: string

    /** The role starts as the stored one, or empty. */
    constructor (stored: Option<string>, at: string)
      ensures userRole == (if stored.Some? then stored.value else "")
      ensures storedRole == stored && error == "" && location == at
    {
      userRole := if stored.Some? then stored.value else "";
      storedRole := stored;
      error := "";
      location := at;
    }

    /** handleSubmit of the login page. */
    method Login(username: string, password: string)
      modifies this
      ensures Authenticate(username, password) == Some("admin") ==>
        userRole == "admin" && storedRole == Some("admin") && location == "/admin" && error == old(error)
      ensures Authenticate(username, password) == Some("user") ==>
        userRole == "user" && storedRole == Some("user") && location == "/" && error == old(error)
      ensures Authenticate(username, password).None? ==> (error == InvalidCredentials
        && userRole == old(userRole) && storedRole == old(storedRole) && location == old(location))
      ensures Authenticate(username, password).Some? ==>
        UserRoute(userRole) == Render || AdminRoute(userRole) == Render
    {
      if username == AdminUsername && password == AdminPassword {
        userRole := "admin";
        storedRole := Some("admin");
        location := "/admin";
      } else if username == UserUsername && password == UserPassword {
        userRole := "user";
        storedRole := Some("user");
        location := "/";
      } else {
        error := InvalidCredentials;
      }
    }

    /** handleLogout of the header: clears the role and its stored copy and goes to the login page, after
        which both guards send every route to the login page. */
    method Logout()
      modifies this
      ensures userRole == "" && storedRole.None? && location == "/login" && error == old(error)
      ensures UserRoute(userRole) == RedirectTo("/login") && AdminRoute(userRole) == RedirectTo("/login")
    {
      userRole := "";
      storedRole := None;
      location := "/login";
    }
  }
}
