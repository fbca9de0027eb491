/** The bundled catalog (constants.tsx), in cents and tenths. It is fixture
    data: its `reviewCount` and `rating` fields do not agree with its
    review lists. */
module Seed {
  import opened Types

  function Categories(): seq<Category>
  {
    [ Category("1", "Phones & Tablets", "fa-mobile-screen-button", "phones"),
      Category("2", "Electronics", "fa-tv", "electronics"),
      Category("3", "Fashion", "fa-shirt", "fashion"),
      Category("4", "Computing", "fa-laptop", "computing"),
      Category("5", "Home & Office", "fa-couch", "home"),
      Category("6", "Health & Beauty", "fa-pump-soap", "beauty"),
      Category("7", "Supermarket", "fa-cart-shopping", "supermarket"),
      Category("8", "Baby Products", "fa-baby", "baby") ]
  }

  function P1(): Product
  {
    Product("p1", "Samsung Galaxy S23 " + "Ultra 5G - 256GB - " + "Phantom Black", "Samsung", 95000, Some(120000),
      "https://picsum.photos/seed/s23/400/400", "phones", 48, 154, Some(true),
      "The ultimate " + "flagship smartphone " + "with " + "high-performance " + "camera and S-Pen. " + "Features a 6.8-inch " + "Dynamic AMOLED 2X " + "display, Snapdragon " + "8 Gen 2 for Galaxy, " + "and a revolutionary " + "200MP camera system.",
      Some("Best Seller"),
      Some([ Review("r1", "John Doe", 5, "Incredible camera! " + "The zoom is out of " + "this world.", "2023-10-12"),
             Review("r2", "Alice Smith", 4, "Great phone, but " + "quite large for " + "small hands.", "2023-11-05") ]))
  }

  function P2(): Product
  {
    Product("p2", "Apple iPhone 15 Pro " + "Max - 256GB - " + "Natural Titanium", "Apple", 119900, None,
      "https://picsum.photos/seed/iphone15/400/400", "phones", 49, 89, Some(true),
      "Experience the " + "power of Titanium " + "and the most " + "advanced chip in a " + "smartphone. A " + "Grade-5 titanium " + "design makes this " + "the lightest Pro " + "model ever. " + "Advanced camera " + "system with 5x " + "optical zoom.",
      None,
      Some([ Review("r3", "Sarah K.", 5, "The titanium feel " + "is amazing. Super " + "fast!", "2023-12-01") ]))
  }

  function P3(): Product
  {
    Product("p3", "HP Pavilion 15 - " + "Intel Core i5 - 8GB " + "RAM - 512GB SSD", "HP", 55000, Some(65000),
      "https://picsum.photos/seed/hp/400/400", "computing", 45, 42, None,
      "Perfect for " + "productivity and " + "entertainment on " + "the go. Equipped " + "with a powerful " + "Intel Core " + "processor, a crisp " + "15.6-inch display, " + "and long-lasting " + "battery life.",
      Some("Flash Sale"), Some([]))
  }

  function P4(): Product
  {
    Product("p4", "Men's Casual " + "Sneakers - " + "Breathable Mesh - " + "White", "Generic", 2500, Some(4500),
      "https://picsum.photos/seed/sneakers/400/400", "fashion", 42, 312, None,
      "Comfortable and " + "stylish sneakers " + "for everyday wear. " + "Lightweight mesh " + "upper provides " + "breathability while " + "the padded collar " + "offers extra " + "comfort.",
      None,
      Some([ Review("r4", "Mike Ross", 4, "Very comfortable " + "for walking, " + "slightly small fit.", "2023-09-15") ]))
  }

  function P5(): Product
  {
    Product("p5", "Smart 4K UHD LED TV " + "- 55 Inch - HDR10", "Generic", 39900, Some(50000),
      "https://picsum.photos/seed/tv/400/400", "electronics", 46, 67, Some(true),
      "Cinematic quality " + "picture and smart " + "features for your " + "living room. 4K " + "Ultra HD " + "resolution, HDR10 " + "support, and " + "built-in streaming " + "apps.",
      None, Some([]))
  }

  function P6(): Product
  {
    Product("p6", "Non-Stick Cookware " + "Set - 12 Pieces - " + "Granite Coating", "Generic", 8500, None,
      "https://picsum.photos/seed/pots/400/400", "home", 44, 18, None,
      "Durable and " + "easy-to-clean " + "cookware for the " + "modern kitchen. " + "Includes various " + "sized pots and pans " + "with heat-resistant " + "handles and " + "tempered glass lids.",
      None, Some([]))
  }

  function P7(): Product
  {
    Product("p7", "Organic Shea Butter " + "- 500g - Raw & " + "Unrefined", "SheaNature", 1200, Some(1800),
      "https://picsum.photos/seed/shea/400/400", "beauty", 47, 220, None,
      "Pure natural shea " + "butter for skin and " + "hair care. Rich in " + "vitamins and fatty " + "acids, perfect for " + "moisturizing and " + "soothing dry skin.",
      None, Some([]))
  }

  function P8(): Product
  {
    Product("p8", "Washing Machine - " + "7kg Front Load - " + "Silver", "Generic", 31000, None,
      "https://picsum.photos/seed/washing/400/400", "home", 43, 25, Some(true),
      "Energy-efficient " + "washing machine " + "with multiple wash " + "programs. 1200 RPM " + "spin speed, child " + "lock feature, and " + "delay start " + "function.",
      None, Some([]))
  }

  function Products(): seq<Product>
  {
    [P1(), P2(), P3(), P4(), P5(), P6(), P7(), P8()]
  }
}
