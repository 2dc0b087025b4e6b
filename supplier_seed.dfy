/** The demonstration catalog the supplier dashboard installs when no
    catalog is saved yet (kept apart from the list operations, whose proofs
    do not need its text). */
module SupplierSeed {
  import opened Wrappers
  import opened SupplierCatalog

  function SeedCatalog(): seq<Product> {
    [ Product("1", "Fresh Red Tomatoes", "ताज़े लाल टमाटर", 18.0, "per kg",
              "Direct from farm, perfect for chaat and cooking. Hand-picked this morning.",
              "vegetables", true, Some("2025-01-30"), Some("2025-01-27")),
      Product("2", "Premium Green Chillies", "प्रीमियम हरी मिर्च", 60.0, "per kg",
              "Fresh, hot green chillies perfect for street food vendors. Very spicy and fresh.",
              "spices", true, Some("2025-02-02"), Some("2025-01-26")) ]
  }

  /** The seed holds two products with distinct ids ("1" and "2"), both in stock. */
  lemma SeedCatalogSpec()
    ensures |SeedCatalog()| == 2 && UniqueIds(SeedCatalog())
    ensures |InStock(SeedCatalog())| == 2 && OutOfStock(SeedCatalog()) == []
  {
    var s := SeedCatalog();
    assert s[0].id != s[1].id;
  }
}
