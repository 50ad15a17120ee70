/** The product catalog: a constant list of three products with lookup by
    barcode, case-insensitive search on name or brand, and recommendations
    drawn from the certified products. */
module Catalog {
  import opened Wrappers
  import opened Lists
  import opened Text

  /** Cruelty-free certification status. */
  datatype Certification = Certified | NotCertified | Unknown

  /** Composition grade, A best and E worst. */
  datatype Grade = A | B | C | D | E

  datatype Product = Product(
    id: string,
    name: string,
    brand: string,
    barcode: string,
    crueltyFree: Certification,
    compositionGrade: Grade,
    ingredients: seq<string>,
    image: Option<string>,
    description: Option<string>,
    alternatives: Option<seq<Product>>)

  /** The catalog, in the order every list view and search shows it. */
  const MockProducts: seq<Product> := [
    Product(
      "1", "Organic Face Cream", "Green Beauty", "1234567890123", Certified, A,
      ["Aqua", "Aloe Vera", "Jojoba Oil", "Vitamin E", "Glycerin"],
      Some("https://images.pexels.com/photos/4465124/pexels-photo-4465124.jpeg?auto=compress&cs=tinysrgb&dpr=1&w=500"),
      Some("Natural organic face cream with certified cruelty-free ingredients."),
      Some([])),
    Product(
      "2", "Moisturizing Shampoo", "HairCare Plus", "9876543210987", NotCertified, C,
      ["Water", "Sodium Lauryl Sulfate", "Cocamidopropyl Betaine", "Fragrance", "Parabens"],
      Some("https://images.pexels.com/photos/4465831/pexels-photo-4465831.jpeg?auto=compress&cs=tinysrgb&dpr=1&w=500"),
      Some("Moisturizing shampoo for all hair types."),
      None),
    Product(
      "3", "Natural Lip Balm", "Pure Lips", "5555666677778", Certified, A,
      ["Beeswax", "Coconut Oil", "Shea Butter", "Vitamin E"],
      Some("https://images.pexels.com/photos/5069432/pexels-photo-5069432.jpeg?auto=compress&cs=tinysrgb&dpr=1&w=500"),
      Some("100% natural lip balm with organic ingredients."),
      None)
  ]

  /** Product ids and barcodes are pairwise distinct, so each identifies at
      most one product (and the catalog itself has no duplicates). */
  lemma CatalogKeysDistinct()
    ensures forall i, j :: 0 <= i < j < |MockProducts| ==>
      MockProducts[i].id != MockProducts[j].id && MockProducts[i].barcode != MockProducts[j].barcode
    ensures NoDup(MockProducts)
  {
  }

  /** The catalog holds products "1", "2" and "3", in that order. */
  lemma CatalogIds()
    ensures |MockProducts| == 3
    ensures MockProducts[0].id == "1" && MockProducts[1].id == "2" && MockProducts[2].id == "3"
  {
  }

  /** Products "1" and "3" are certified cruelty-free, product "2" is not. */
  lemma CatalogCertification()
    ensures |MockProducts| == 3
    ensures MockProducts[0].crueltyFree == Certified && MockProducts[1].crueltyFree == NotCertified
    ensures MockProducts[2].crueltyFree == Certified
  {
  }

  /** Exact match on the barcode; `None` stands for the `null` the source
      returns on a miss. */
  function FindProductByBarcode(barcode: string): (r: Option<Product>)
    ensures r.Some? ==> r.value in MockProducts && r.value.barcode == barcode
    ensures r.None? <==> forall p :: p in MockProducts ==> p.barcode != barcode
  {
    FindFirst((p: Product) => p.barcode == barcode, MockProducts)
  }

  /** A hit is THE product with that barcode: no other catalog entry has it. */
  lemma BarcodeLookupUnique(barcode: string, p: Product)
    requires p in MockProducts && p.barcode == barcode
    ensures FindProductByBarcode(barcode) == Some(p)
  {
    CatalogKeysDistinct();
    FindFirstUnique((q: Product) => q.barcode == barcode, MockProducts, p);
  }

  /** The barcode of the simulated scan finds product "1"; an unregistered
      barcode finds nothing. */
  lemma KnownBarcodes()
    ensures FindProductByBarcode("1234567890123") == Some(MockProducts[0])
    ensures MockProducts[0].id == "1"
    ensures FindProductByBarcode("0000000000000") == None
  {
    BarcodeLookupUnique("1234567890123", MockProducts[0]);
  }

  /** Lookup by product id, as the history screen does with `find`. */
  function FindProductById(id: string): (r: Option<Product>)
    ensures r.Some? ==> r.value in MockProducts && r.value.id == id
    ensures r.None? <==> forall p :: p in MockProducts ==> p.id != id
  {
    FindFirst((p: Product) => p.id == id, MockProducts)
  }

  /** Ids are keys: looking up the id of a catalog product finds that product. */
  lemma IdLookupUnique(p: Product)
    requires p in MockProducts
    ensures FindProductById(p.id) == Some(p)
  {
    CatalogKeysDistinct();
    FindFirstUnique((q: Product) => q.id == p.id, MockProducts, p);
  }

  /** The catalog products whose id is listed in `ids`, in catalog order: the
      filter the favorites and custom-list screens apply. Neither the order
      of `ids`, nor duplicates in it, nor unknown ids show through. */
  function ProductsWithIds(ids: seq<string>): (r: seq<Product>)
    ensures forall p :: p in r <==> p in MockProducts && p.id in ids
    ensures Subsequence(r, MockProducts) && NoDup(r)
  {
    CatalogKeysDistinct();
    FilterNoDup((p: Product) => p.id in ids, MockProducts);
    Filter((p: Product) => p.id in ids, MockProducts)
  }

  /** `ProductsWithIds` spelled out over the three catalog entries. */
  lemma ProductsWithIdsSpelled(ids: seq<string>)
    ensures |MockProducts| == 3
    ensures ProductsWithIds(ids) ==
              (if "1" in ids then [MockProducts[0]] else [])
              + (if "2" in ids then [MockProducts[1]] else [])
              + (if "3" in ids then [MockProducts[2]] else [])
  {
    CatalogIds();
    FilterOfThree((p: Product) => p.id in ids, MockProducts);
  }

  /** The search criterion: the lower-cased name or brand includes the
      (already lower-cased) query. */
  predicate Matches(p: Product, lowercaseQuery: string) {
    Contains(Lower(p.name), lowercaseQuery) || Contains(Lower(p.brand), lowercaseQuery)
  }

  /** Case-insensitive substring search on name or brand, in catalog order. */
  function SearchProducts(query: string): (r: seq<Product>)
    ensures forall p :: p in r <==> p in MockProducts && Matches(p, Lower(query))
    ensures Subsequence(r, MockProducts)
  {
    var lowercaseQuery := Lower(query);
    Filter((p: Product) => Matches(p, lowercaseQuery), MockProducts)
  }

  /** The search does not depend on the case of the query. */
  lemma SearchCaseInsensitive(query: string)
    ensures SearchProducts(query) == SearchProducts(Lower(query))
  {
    LowerIdempotent(query);
    FilterExt((p: Product) => Matches(p, Lower(query)),
              (p: Product) => Matches(p, Lower(Lower(query))), MockProducts);
  }

  /** Every string includes the empty string, so the empty query returns the
      whole catalog; screens must guard against blank queries themselves. */
  lemma SearchEmptyQuery()
    ensures SearchProducts("") == MockProducts
  {
    var f := (p: Product) => Matches(p, Lower(""));
    forall p | p in MockProducts ensures f(p) {
      ContainsEmpty(Lower(p.name));
    }
    FilterKeepsAll(f, MockProducts);
  }

  /** The certified products, cut to the first three when a non-empty
      category is given (the category value itself is never looked at). */
  function GetRecommendations(category: Option<string>): (r: seq<Product>)
    ensures forall p :: p in r ==> p in MockProducts && p.crueltyFree == Certified
    ensures Subsequence(r, MockProducts)
    ensures category.Some? && category.value != "" ==> |r| <= 3
  {
    var filtered := Filter((p: Product) => p.crueltyFree == Certified, MockProducts);
    if category.Some? && category.value != "" then
      PrefixSubsequence(filtered, |Take(filtered, 3)|);
      SubsequenceTrans(Take(filtered, 3), filtered, MockProducts);
      Take(filtered, 3)
    else
      filtered
  }

  /** Without a category (or with the falsy empty string) the result is
      exactly the certified products. */
  lemma RecommendationsWithoutCategory(category: Option<string>)
    requires category.None? || category.value == ""
    ensures forall p :: p in GetRecommendations(category) <==> p in MockProducts && p.crueltyFree == Certified
  {
  }

  /** Any two non-empty categories give the same recommendations. */
  lemma RecommendationsIgnoreCategory(c1: string, c2: string)
    requires c1 != "" && c2 != ""
    ensures GetRecommendations(Some(c1)) == GetRecommendations(Some(c2))
  {
  }

  /** Products "1" and "3" are the certified ones. */
  lemma CertifiedProducts()
    ensures Filter((p: Product) => p.crueltyFree == Certified, MockProducts) == [MockProducts[0], MockProducts[2]]
  {
    CatalogCertification();
    FilterOfThree((p: Product) => p.crueltyFree == Certified, MockProducts);
    assert [MockProducts[0]] + [] + [MockProducts[2]] == [MockProducts[0], MockProducts[2]];
  }

  /** With this catalog every call recommends products "1" and "3": only two
      products are certified, so the cut to three never bites. */
  lemma RecommendationsOnCatalog(category: Option<string>)
    ensures GetRecommendations(category) == [MockProducts[0], MockProducts[2]]
  {
    var certified := Filter((p: Product) => p.crueltyFree == Certified, MockProducts);
    CertifiedProducts();
    assert |certified| == 2 && Take(certified, 3) == certified;
  }
}
