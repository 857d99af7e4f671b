/**
 * The fixed product catalog of the vanilla storefront (cart.js:22-35).
 * Prices are integer euro cents: 89.99 is 8999.
 */
module Catalog {
  import opened Wrappers

  /** A catalog entry; a product is either for sale or for rent, so one of the prices is absent. */
  datatype Product = Product(name: string, salePrice: Option<int>, rentalPrice: Option<int>, image: Option<string>)

  function Sale(name: string, cents: int, image: string): Product {
    Product(name, Some(cents), None, Some(image))
  }

  function Rental(name: string, cents: int, image: string): Product {
    Product(name, None, Some(cents), Some(image))
  }

  const Products: map<string, Product> := map[
    "product-1" := Sale("Vestido Elegante Noir", 8999, "https://images.unsplash.com/photo-1434389677669-e08b4cac3105?w=200&h=200&fit=crop"),
    "product-2" := Sale("Camisa Slim", 4500, "https://images.unsplash.com/photo-1594938298603-c8148c4dae35?w=200&h=200&fit=crop"),
    "product-3" := Sale("Abrigo Wool", 12000, "https://images.unsplash.com/photo-1548036328-c9fa89d128fa?w=200&h=200&fit=crop"),
    "product-5" := Sale("Vestido Floral", 6500, "https://images.unsplash.com/photo-1515886657613-9f3515b0c78f?w=200&h=200&fit=crop"),
    "product-6" := Sale("Falda Plisada", 5500, "https://images.unsplash.com/photo-1485462537746-965f33f7f6a7?w=200&h=200&fit=crop"),
    "product-7" := Sale("Vestido Premium Rosa", 14500, "https://images.unsplash.com/photo-1566174053879-31528523f8ae?w=200&h=200&fit=crop"),
    "rental-1" := Rental("Vestido de Novia Premium", 28000, "https://images.unsplash.com/photo-1566174053879-31528523f8ae?w=200&h=200&fit=crop"),
    "rental-2" := Rental("Vestido Cocktail Rojo", 10800, "https://images.unsplash.com/photo-1539008835657-9e8e9680c956?w=200&h=200&fit=crop"),
    "rental-3" := Rental("Smoking Elegante", 16000, "https://images.unsplash.com/photo-1617137984095-74e4e5e3613f?w=200&h=200&fit=crop"),
    "rental-4" := Rental("Vestido de Gala Largo", 16200, "https://images.unsplash.com/photo-1595777457583-95e059d581b8?w=200&h=200&fit=crop"),
    "rental-5" := Rental("Vestido Fiesta Brillante", 12000, "https://images.unsplash.com/photo-1515886657613-9f3515b0c78f?w=200&h=200&fit=crop"),
    "rental-6" := Rental("Traje Formal Navy", 22500, "https://images.unsplash.com/photo-1603252109303-2751441dd157?w=200&h=200&fit=crop")
  ]

  /** The placeholder used for an id the catalog does not know: a name and nothing else. */
  const Unknown: Product := Product("Producto", None, None, None)

  /**
   * The product data for `id`, falling back to the placeholder. Whatever the
   * id, a price that is present is positive, so a price taken from here is
   * never falsy.
   */
  function Lookup(id: string): (p: Product)
    ensures id in Products ==> p == Products[id]
    ensures id !in Products ==> p.name == "Producto" && p.salePrice.None? && p.rentalPrice.None? && p.image.None?
    ensures p.salePrice.Some? ==> p.salePrice.value > 0
    ensures p.rentalPrice.Some? ==> p.rentalPrice.value > 0
  {
    if id in Products then
      CatalogPricesWellFormed(id);
      Products[id]
    else Unknown
  }

  /** Every catalog product carries exactly one of the two prices, and it is positive. */
  lemma CatalogPricesWellFormed(id: string)
    requires id in Products
    ensures Products[id].salePrice.Some? != Products[id].rentalPrice.Some?
    ensures Products[id].salePrice.Some? ==> Products[id].salePrice.value > 0
    ensures Products[id].rentalPrice.Some? ==> Products[id].rentalPrice.value > 0
  {
  }
}
