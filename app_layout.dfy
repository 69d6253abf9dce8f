/**
 * The application shell's sidebar: which navigation section each role sees,
 * when the logout button is offered, and where logging out leads.
 */
module AppLayout {
  import opened Js
  import opened AuthSlice

  datatype NavLink = NavLink(path: string, text: string)

  datatype Sidebar = Sidebar(clientSection: seq<NavLink>, adminSection: seq<NavLink>, logoutButton: bool)

  const ClientLinks := [NavLink("/me/profile", "Mon profil"), NavLink("/me/orders", "Mes commandes")]

  const AdminLinks := [
    NavLink("/admin/dashboard", "Dashboard"),
    NavLink("/admin/customers", "Clients"),
    NavLink("/admin/products", "Produits"),
    NavLink("/admin/orders", "Commandes"),
    NavLink("/admin/payments", "Paiements")
  ]

  function SidebarFor(role: Option<string>): (v: Sidebar)
    ensures v.clientSection != [] <==> role == Some(CLIENT)
    ensures v.adminSection != [] <==> role == Some(ADMIN)
    ensures v.clientSection == [] || v.clientSection == ClientLinks
    ensures v.adminSection == [] || v.adminSection == AdminLinks
    ensures !(v.clientSection != [] && v.adminSection != [])
    ensures role == None ==> v.clientSection == [] && v.adminSection == [] && !v.logoutButton
    ensures v.logoutButton <==> role == Some(ADMIN) || role == Some(CLIENT)
  {
    var isAdmin := role == Some(ADMIN);
    var isClient := role == Some(CLIENT);
    Sidebar(if isClient then ClientLinks else [], if isAdmin then AdminLinks else [], isAdmin || isClient)
  }

  /** `handleLogout`: dispatches the logout (pending, then its settlement),
      ignores a failure, and always navigates to the login page. Returns the
      store after the logout and the navigation target. */
  function HandleLogout(s: AuthState, response: Outcome<()>): (r: (AuthState, string))
    ensures r.1 == "/login"
    ensures response.Ok? ==> r.0 == InitialState
    ensures response.Err? ==> r.0 == s
  {
    var settled := LogoutSettled(PerformLogout(response));
    RunTwo(s, LogoutPending, settled);
    (Run(s, [LogoutPending, settled]), "/login")
  }

  /** After logging out successfully, the sidebar shows no section and no
      logout button. */
  lemma {:induction false} LoggedOutSidebarIsEmpty(s: AuthState)
    ensures SidebarFor(HandleLogout(s, Ok(())).0.role) == Sidebar([], [], false)
  {
    RunTwo(s, LogoutPending, LogoutFulfilled);
  }
}
