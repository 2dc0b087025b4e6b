/** The vendor dashboard page: its state (`businessType`, `searchQuery`, the
    product list, `isProfileSet`, the displayed phone, `showBulkDeals`), the
    browser store it reads and clears, and its handlers: the entry effect
    (session gate, then the street-food listings), the business-type setup,
    the search box, the bulk-deals switch and logout. Each handler is one
    atomic step; `navigate` is recorded in `route`. */
module VendorPage {
  import opened Wrappers
  import opened BrowserStore
  import opened Session
  import opened VendorCatalog
  import VendorListings
  import Sequences

  /** The values of the six business-type buttons of the setup form. */
  const BusinessTypes: seq<string> := ["chaat", "dosa", "parathas", "tea", "juice", "other"]

  class VendorDashboard {
    var businessType: string
    var searchQuery: string
    var products: seq<Listing>
    var isProfileSet: bool
    var userPhone: string
    var showBulkDeals: bool
    var store: Store
    var route: Option<Route>

    /** The page before its entry effect has run. */
    constructor(initial: Store)
      ensures businessType == "" && searchQuery == "" && products == []
      ensures !isProfileSet && userPhone == "" && !showBulkDeals
      ensures store == initial && route == None
    {
      businessType := "";
      searchQuery := "";
      products := [];
      isProfileSet := false;
      userPhone := "";
      showBulkDeals := false;
      store := initial;
      route := None;
    }

    /** `filteredProducts`: the products whose name matches the search box. */
    function FilteredProducts(): (r: seq<Listing>)
      reads this
      ensures Sequences.SubsequenceOf(r, products)
      ensures forall p :: p in r <==> p in products && Matches(p, searchQuery)
      ensures forall p :: multiset(r)[p] == if Matches(p, searchQuery) then multiset(products)[p] else 0
    {
      SearchSpec(products, searchQuery);
      Search(products, searchQuery)
    }

    /** The product cards on screen: none while the setup form is shown,
        otherwise the filtered products. */
    function VisibleProducts(): (r: seq<Listing>)
      reads this
      ensures !isProfileSet ==> r == []
      ensures forall p :: p in r <==> isProfileSet && p in products && Matches(p, searchQuery)
      ensures isProfileSet ==> forall p :: multiset(r)[p] == if Matches(p, searchQuery) then multiset(products)[p] else 0
    {
      if isProfileSet then FilteredProducts() else []
    }

    /** The "No products found" card: the product grid is shown and empty. */
    predicate ShowsNoResults()
      reads this
    {
      isProfileSet && |FilteredProducts()| == 0
    }

    /** Whether a card shows the bulk-price line (`product.bulkPrice &&
        showBulkDeals`): a missing bulk price, and a bulk price of 0 (falsy in
        JavaScript), hide it, as does the switch being off. */
    predicate ShowsBulkDeal(p: Listing)
      reads this
    {
      p.bulkPrice.Some? && p.bulkPrice.value != 0.0 && showBulkDeals
    }

    /** The entry effect: a visitor who is not a signed-in vendor is sent to
        "/" and nothing is loaded; otherwise the stored phone (or "") is
        shown and the street-food listings are loaded. The store is only
        read. */
    method Mount()
      modifies this`products, this`userPhone, this`route
      ensures store == old(store)
      ensures !Admits(store, VendorRole) ==>
        route == Some(Home) && products == old(products) && userPhone == old(userPhone)
      ensures Admits(store, VendorRole) ==>
        && route == old(route)
        && userPhone == TextOrEmpty(GetItem(store, UserPhoneKey))
        && products == VendorListings.StreetFoodProducts()
    {
      if !Admits(store, VendorRole) {
        route := Some(Home);
        return;
      }
      userPhone := TextOrEmpty(GetItem(store, UserPhoneKey));
      products := VendorListings.StreetFoodProducts();
    }

    /** A business-type button of the setup form. */
    method ChooseBusinessType(t: string)
      requires t in BusinessTypes
      modifies this`businessType
      ensures businessType == t && businessType != ""
    {
      businessType := t;
    }

    /** `handleSetupProfile`: the product grid replaces the setup form once a
        business type has been chosen; before that, submitting does nothing. */
    method SetupProfile()
      modifies this`isProfileSet
      ensures isProfileSet <==> old(isProfileSet) || businessType != ""
    {
      if businessType != "" {
        isProfileSet := true;
      }
    }

    /** Typing in the search box. */
    method SetSearchQuery(q: string)
      modifies this`searchQuery
      ensures searchQuery == q
      ensures isProfileSet ==> forall p :: p in VisibleProducts() <==> p in products && Matches(p, q)
    {
      searchQuery := q;
    }

    /** The "Bulk Deals" button switches the bulk-price lines on and off. */
    method ToggleBulkDeals()
      modifies this`showBulkDeals
      ensures showBulkDeals == !old(showBulkDeals)
      ensures showBulkDeals ==> forall p: Listing :: p.bulkPrice.Some? && p.bulkPrice.value != 0.0 ==> ShowsBulkDeal(p)
      ensures !showBulkDeals ==> forall p :: !ShowsBulkDeal(p)
    {
      showBulkDeals := !showBulkDeals;
    }

    /** `handleLogout`: clears the whole store, the supplier's saved catalog
        included, and goes to "/". */
    method Logout()
      modifies this`store, this`route
      ensures store == map[] && route == Some(Home)
      ensures forall role :: !Admits(store, role)
      ensures GetItem(store, SupplierProductsKey) == None
    {
      store := map[];
      route := Some(Home);
    }
  }
}
