/** The session that the login page writes and the two dashboards check:
    the keys `isLoggedIn`, `userType` and `userPhone`, the two roles, the
    routes the pages navigate to, and the entry gate of each dashboard. */
module Session {
  import opened Wrappers
  import opened BrowserStore

  const VendorRole: string := "vendor"
  const SupplierRole: string := "supplier"

  predicate IsRole(role: string) {
    role == VendorRole || role == SupplierRole
  }

  /** The routes `navigate` is called with. */
  datatype Route = Home | VendorDashboard | SupplierDashboard {
    function Path(): string {
      match this
      case Home => "/"
      case VendorDashboard => "/vendor-dashboard"
      case SupplierDashboard => "/supplier-dashboard"
    }
  }

  /** The dashboard a signed-in user of `role` is sent to: the vendor's for
      "vendor", the supplier's for anything else. */
  function DashboardFor(role: string): (r: Route)
    ensures r != Home
    ensures r == VendorDashboard <==> role == VendorRole
  {
    if role == VendorRole then VendorDashboard else SupplierDashboard
  }

  /** The entry gate of the dashboard for `role`: it redirects to "/" when
      `isLoggedIn` is missing (or empty) or `userType` is not `role`. */
  predicate Admits(store: Store, role: string) {
    Truthy(GetItem(store, IsLoggedInKey)) && GetItem(store, UserTypeKey) == Some(Text(role))
  }

  /** What a successful login writes: role, phone and `isLoggedIn = "true"`. */
  function SignIn(store: Store, role: string, phone: string): (s: Store)
    ensures s.Keys == store.Keys + {UserTypeKey, UserPhoneKey, IsLoggedInKey}
    ensures forall k :: k in store && k !in {UserTypeKey, UserPhoneKey, IsLoggedInKey} ==> s[k] == store[k]
  {
    store[UserTypeKey := Text(role)][UserPhoneKey := Text(phone)][IsLoggedInKey := Text("true")]
  }

  /** The supplier's logout: removes the three session keys and nothing else. */
  function SignOut(store: Store): (s: Store)
    ensures s.Keys == store.Keys - {IsLoggedInKey, UserTypeKey, UserPhoneKey}
    ensures forall k :: k in s ==> s[k] == store[k]
  {
    store - {IsLoggedInKey, UserTypeKey, UserPhoneKey}
  }

  /** After a login as `role`, the gate of that role's dashboard lets the user
      in, the other dashboard's gate does not, and the stored phone is the
      one entered. */
  lemma SignInAdmits(store: Store, role: string, phone: string)
    ensures Admits(SignIn(store, role, phone), role)
    ensures forall other :: other != role ==> !Admits(SignIn(store, role, phone), other)
    ensures GetItem(SignIn(store, role, phone), UserPhoneKey) == Some(Text(phone))
  {
  }

  /** After a logout no dashboard gate lets anyone in. */
  lemma SignOutRejects(store: Store, role: string)
    ensures !Admits(SignOut(store), role)
  {
  }
}
