/** The supplier dashboard page: its state (`products`, the add form
    `newProduct`, `isAddingProduct`, the displayed phone), the browser store it
    reads and writes, and its handlers: the entry effect (session gate, then
    load or seed the catalog), add, delete, toggle stock and logout. Each
    handler is one atomic step; `navigate` is recorded in `route`. */
module SupplierPage {
  import opened Wrappers
  import opened BrowserStore
  import opened Session
  import opened SupplierCatalog
  import SupplierSeed

  /** What the entry effect does with `getItem('supplierProducts')`. */
  datatype Load =
    | UseSaved(items: seq<Product>)  // a saved catalog: shown as it is
    | Seed                           // nothing (or the empty string) saved: install the seed catalog
    | Unreadable                     // text that is not a product list: `JSON.parse` would throw

  function LoadFrom(saved: Option<Value>): (r: Load)
    ensures r == Seed <==> !Truthy(saved)
    ensures r.UseSaved? <==> saved.Some? && saved.value.ProductList?
    ensures r.UseSaved? ==> r.items == saved.value.items
  {
    match saved
    case None => Seed
    case Some(ProductList(items)) => UseSaved(items)
    case Some(Text(s)) => if s == "" then Seed else Unreadable
  }

  class SupplierDashboard {
    var products: seq<Product>
    var isAddingProduct: bool
    var userPhone: string
    var newProduct: Draft
    var store: Store
    var route: Option<Route>

    /** The stored catalog is the one on screen. */
    predicate Synced()
      reads this
    {
      GetItem(store, SupplierProductsKey) == Some(ProductList(products))
    }

    /** The "Total Products" counter. */
    function TotalCount(): nat
      reads this
    {
      |products|
    }

    /** The "In Stock" counter. */
    function InStockCount(): (n: nat)
      reads this
      ensures n <= TotalCount()
    {
      |InStock(products)|
    }

    /** The "Out of Stock" counter; with "In Stock" it adds up to the total. */
    function OutOfStockCount(): (n: nat)
      reads this
      ensures InStockCount() + n == TotalCount()
    {
      CountsAddUp(products);
      |OutOfStock(products)|
    }

    /** The page before its entry effect has run. */
    constructor(initial: Store)
      ensures products == [] && !isAddingProduct && userPhone == "" && newProduct == EmptyDraft
      ensures store == initial && route == None
    {
      products := [];
      isAddingProduct := false;
      userPhone := "";
      newProduct := EmptyDraft;
      store := initial;
      route := None;
    }

    /** The entry effect: a visitor who is not a signed-in supplier is sent to
        "/" and nothing is loaded; otherwise the saved catalog is shown, or the
        seed catalog is installed and saved when there is none. */
    method Mount()
      modifies this
      ensures newProduct == old(newProduct) && isAddingProduct == old(isAddingProduct)
      ensures !Admits(old(store), SupplierRole) ==>
        route == Some(Home) && products == old(products) && store == old(store) && userPhone == old(userPhone)
      ensures Admits(old(store), SupplierRole) ==>
        && route == old(route)
        && userPhone == TextOrEmpty(GetItem(old(store), UserPhoneKey))
        && match LoadFrom(GetItem(old(store), SupplierProductsKey))
           case UseSaved(items) => products == items && store == old(store) && Synced()
           case Seed =>
             products == SupplierSeed.SeedCatalog()
             && store == old(store)[SupplierProductsKey := ProductList(products)] && Synced()
           case Unreadable => products == old(products) && store == old(store)
    {
      if !Admits(store, SupplierRole) {
        route := Some(Home);
        return;
      }
      userPhone := TextOrEmpty(GetItem(store, UserPhoneKey));
      match LoadFrom(GetItem(store, SupplierProductsKey))
      case UseSaved(items) =>
        products := items;
      case Seed =>
        products := SupplierSeed.SeedCatalog();
        store := store[SupplierProductsKey := ProductList(products)];
      case Unreadable =>
    }

    /** Typing in the add form (each field's `onChange` replaces the draft). */
    method EditDraft(d: Draft)
      modifies this`newProduct
      ensures newProduct == d
    {
      newProduct := d;
    }

    /** The "Add Product" and "Cancel" buttons. */
    method SetAddingProduct(open: bool)
      modifies this`isAddingProduct
      ensures isAddingProduct == open
    {
      isAddingProduct := open;
    }

    /** `handleAddProduct`. An empty name or price text changes nothing.
        Otherwise the product built from the draft, with id `id` (the
        `Date.now()` string) and price `price` (what `parseFloat` read from
        the price text), is appended and saved, and the form is reset and
        closed. A fresh `id` keeps the ids unique. */
    method AddProduct(id: string, price: real)
      modifies this
      ensures userPhone == old(userPhone) && route == old(route)
      ensures Rejects(old(newProduct)) ==>
        && products == old(products) && store == old(store)
        && newProduct == old(newProduct) && isAddingProduct == old(isAddingProduct)
      ensures !Rejects(old(newProduct)) ==>
        && products == old(products) + [FromDraft(old(newProduct), id, price)]
        && store == old(store)[SupplierProductsKey := ProductList(products)]
        && Synced()
        && newProduct == EmptyDraft && !isAddingProduct
      ensures UniqueIds(old(products)) && FreshId(old(products), id) ==> UniqueIds(products)
    {
      if Rejects(newProduct) {
        return;
      }
      var product := FromDraft(newProduct, id, price);
      if UniqueIds(products) && FreshId(products, id) {
        AppendFreshKeepsUnique(products, product);
      }
      products := products + [product];
      store := store[SupplierProductsKey := ProductList(products)];
      newProduct := EmptyDraft;
      isAddingProduct := false;
    }

    /** `handleDeleteProduct`: drops every product with id `id`, keeps the
        rest in order, and saves the list. */
    method DeleteProduct(id: string)
      modifies this`products, this`store
      ensures products == WithoutId(old(products), id)
      ensures store == old(store)[SupplierProductsKey := ProductList(products)] && Synced()
      ensures UniqueIds(old(products)) ==> UniqueIds(products)
    {
      if UniqueIds(products) {
        WithoutIdKeepsUnique(products, id);
      }
      products := WithoutId(products, id);
      store := store[SupplierProductsKey := ProductList(products)];
    }

    /** `toggleStockStatus`: flips the stock flag of the products with id
        `id` and saves the list. */
    method ToggleStockStatus(id: string)
      modifies this`products, this`store
      ensures products == ToggleStock(old(products), id)
      ensures store == old(store)[SupplierProductsKey := ProductList(products)] && Synced()
      ensures UniqueIds(old(products)) ==> UniqueIds(products)
    {
      ToggleStockKeepsIds(products, id);
      products := ToggleStock(products, id);
      store := store[SupplierProductsKey := ProductList(products)];
    }

    /** `handleLogout`: removes the three session keys, keeps the saved
        catalog, and goes to "/". */
    method Logout()
      modifies this`store, this`route
      ensures store == SignOut(old(store)) && route == Some(Home)
      ensures !Admits(store, SupplierRole) && !Admits(store, VendorRole)
      ensures old(Synced()) ==> Synced()
    {
      store := SignOut(store);
      route := Some(Home);
    }
  }
}
