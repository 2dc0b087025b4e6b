/** The six street-food products the vendor dashboard shows once its
    session gate has passed (kept apart from the search and contact logic,
    whose proofs do not need its text). */
module VendorListings {
  import opened Wrappers
  import opened VendorCatalog

  function StreetFoodProducts(): seq<Listing> {
    [
      Listing("1", "Fresh Tomatoes", "ताज़े टमाटर", "किसान डायरेक्ट फार्म",
              18.0, "per kg", 4.8, "1.2 km - आपके पास", "9876543210",
              true, Some(15.0), Some(10), true, "आज सुबह की फसल",
              ["chaat", "sandwich", "dosa"]),
      Listing("2", "Onions (Medium)", "प्याज (मध्यम)", "वेजिटेबल मंडी डायरेक्ट",
              22.0, "per kg", 4.6, "2.1 km - थोक मार्केट", "9876543211",
              true, Some(18.0), Some(5), true, "कल की फसल",
              ["chaat", "parathas", "tea"]),
      Listing("3", "Green Chillies", "हरी मिर्च (तेज़)", "मसाला किंग",
              60.0, "per kg", 4.9, "800m - स्पाइस मार्केट", "9876543212",
              true, Some(50.0), Some(2), true, "बिल्कुल ताज़ी",
              ["chaat", "dosa", "parathas"]),
      Listing("4", "Pure Mustard Oil", "शुद्ध सरसों का तेल", "तेल वाला भाई",
              140.0, "per liter", 4.7, "1.5 km - ऑयल शॉप", "9876543213",
              true, Some(130.0), Some(5), true, "ताज़ा निकाला गया",
              ["parathas", "chaat", "frying"]),
      Listing("5", "Refined Flour (Maida)", "मैदा (बारीक)", "आटा चक्की वाले",
              35.0, "per kg", 4.4, "3.2 km - मिल एरिया", "9876543214",
              true, Some(28.0), Some(10), true, "आज पिसा गया",
              ["dosa", "parathas", "batter"]),
      Listing("6", "Fresh Coriander", "हरा धनिया", "हरी सब्जी वाला",
              25.0, "per bundle", 4.5, "900m - सब्जी मंडी", "9876543215",
              true, None, None, true, "सुबह 6 बजे की कटी",
              ["chaat", "garnishing"])
    ]
  }
}
