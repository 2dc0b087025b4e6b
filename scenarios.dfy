/** Journeys through several pages on one browser: the login page hands the
    session to a dashboard through the store, and each dashboard's logout
    decides what the next visitor finds. */
module Scenarios {
  import opened Wrappers
  import opened BrowserStore
  import opened Session
  import opened Text
  import LoginPage
  import Journeys
  import VendorCatalog
  import VendorListings
  import VendorPage
  import SupplierCatalog
  import SupplierSeed
  import SupplierPage

  /** A vendor signs in with the code shown, picks a business type, and sees
      every street-food listing (the search box is empty), with its phone in
      the header. */
  method VendorJourney(phone: string, code: nat, business: string)
    returns (route: Option<Route>, shown: seq<VendorCatalog.Listing>, header: string)
    requires AllDigits(phone) && |phone| == 10 && 100000 <= code <= 999999
    requires business in VendorPage.BusinessTypes
    ensures route == Some(VendorDashboard)
    ensures shown == VendorListings.StreetFoodProducts() && header == phone
  {
    var session;
    session, route := Journeys.SignInWithShownCode(map[], VendorRole, phone, code);
    var page := new VendorPage.VendorDashboard(session);
    page.Mount();
    assert page.products == VendorListings.StreetFoodProducts() && page.userPhone == phone;
    page.ChooseBusinessType(business);
    page.SetupProfile();
    assert page.isProfileSet && page.searchQuery == "";
    VendorCatalog.SearchEmptyQuery(page.products);
    shown := page.VisibleProducts();
    header := page.userPhone;
  }

  /** A wrong code leaves the store as it was and the page where it is, so
      the vendor dashboard that is then opened sends the visitor back to "/". */
  method WrongCodeJourney(phone: string, code: nat, typed: string)
    returns (loginRoute: Option<Route>, dashboardRoute: Option<Route>)
    requires AllDigits(phone) && |phone| == 10 && 100000 <= code <= 999999
    requires KeepDigits(typed, 6) != DecimalString(code)
    ensures loginRoute == None && dashboardRoute == Some(Home)
  {
    var login := Journeys.SignInWith(map[], VendorRole, phone, code, typed);
    loginRoute := login.route;
    var page := new VendorPage.VendorDashboard(login.store);
    page.Mount();
    dashboardRoute := page.route;
  }

  /** A supplier signs in on a browser with no saved catalog: the seed
      catalog is shown and saved. */
  method SupplierFirstVisit(store: Store, phone: string, code: nat)
    returns (page: SupplierPage.SupplierDashboard)
    requires AllDigits(phone) && |phone| == 10 && 100000 <= code <= 999999
    requires SupplierProductsKey !in store
    ensures fresh(page) && page.products == SupplierSeed.SeedCatalog() && page.Synced()
    ensures page.route == None && page.userPhone == phone
  {
    var session, _ := Journeys.SignInWithShownCode(store, SupplierRole, phone, code);
    assert SupplierPage.LoadFrom(GetItem(session, SupplierProductsKey)) == SupplierPage.Seed;
    page := new SupplierPage.SupplierDashboard(session);
    page.Mount();
  }

  /** A supplier's first visit installs the seed catalog; a logout and a new
      login keep the catalog the supplier left, deletions included. */
  method SupplierJourney(phone: string, code: nat, removed: string)
    returns (first: seq<SupplierCatalog.Product>, again: seq<SupplierCatalog.Product>)
    requires AllDigits(phone) && |phone| == 10 && 100000 <= code <= 999999
    ensures first == SupplierSeed.SeedCatalog()
    ensures again == SupplierCatalog.WithoutId(first, removed)
  {
    var page := SupplierFirstVisit(map[], phone, code);
    first := page.products;
    page.DeleteProduct(removed);
    page.Logout();
    var resumed, _ := Journeys.SignInWithShownCode(page.store, SupplierRole, phone, code);
    assert SupplierPage.LoadFrom(GetItem(resumed, SupplierProductsKey))
      == SupplierPage.UseSaved(SupplierCatalog.WithoutId(first, removed));
    var back := new SupplierPage.SupplierDashboard(resumed);
    back.Mount();
    again := back.products;
  }

  /** A vendor signs in, opens the dashboard and logs out: the store is
      left empty, whatever it held before. */
  method VendorVisit(store: Store, phone: string, code: nat) returns (after: Store)
    requires AllDigits(phone) && |phone| == 10 && 100000 <= code <= 999999
    ensures after == map[]
  {
    var session, _ := Journeys.SignInWithShownCode(store, VendorRole, phone, code);
    var vendor := new VendorPage.VendorDashboard(session);
    vendor.Mount();
    vendor.Logout();
    after := vendor.store;
  }

  /** The vendor's logout clears the whole store, so the supplier who signs
      in next on the same browser finds the seed catalog again instead of
      the one saved. */
  method VendorLogoutDropsCatalog(phone: string, code: nat, saved: seq<SupplierCatalog.Product>)
    returns (shown: seq<SupplierCatalog.Product>)
    requires AllDigits(phone) && |phone| == 10 && 100000 <= code <= 999999
    ensures shown == SupplierSeed.SeedCatalog()
  {
    var after := VendorVisit(map[SupplierProductsKey := ProductList(saved)], phone, code);
    var supplier := SupplierFirstVisit(after, phone, code);
    shown := supplier.products;
  }
}
