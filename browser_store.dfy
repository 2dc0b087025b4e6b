/** The browser's `localStorage` as the pages use it: a map from keys to
    values. Session flags are text; the supplier's catalog is kept as the
    product list itself (its JSON text is not modelled). */
module BrowserStore {
  import opened Wrappers
  import SupplierCatalog

  datatype Value = Text(text: string) | ProductList(items: seq<SupplierCatalog.Product>)

  type Store = map<string, Value>

  /** The four keys the pages read and write. */
  const IsLoggedInKey: string := "isLoggedIn"
  const UserTypeKey: string := "userType"
  const UserPhoneKey: string := "userPhone"
  const SupplierProductsKey: string := "supplierProducts"

  /** `localStorage.getItem(key)`: the value, or `None` (JavaScript's null). */
  function GetItem(store: Store, key: string): (v: Option<Value>)
    ensures v.Some? <==> key in store
    ensures v.Some? ==> v.value == store[key]
  {
    if key in store then Some(store[key]) else None
  }

  /** JavaScript truthiness of what `getItem` returned: null and the empty
      string are falsy; a serialised product list is never the empty string. */
  predicate Truthy(v: Option<Value>) {
    match v
    case None => false
    case Some(Text(s)) => s != ""
    case Some(ProductList(_)) => true
  }

  /** `getItem(key) || ""` for a text value. */
  function TextOrEmpty(v: Option<Value>): string {
    match v
    case Some(Text(s)) => s
    case _ => ""
  }
}
