/**
 * Concrete sessions against the real catalog, pinning the behaviour the
 * storefront shows a shopper.
 */
module CartScenarios {
  import opened Wrappers
  import opened CartOps
  import opened CartTotals
  import CartLaws

  /** The catalog prices the scenarios rely on. */
  lemma CatalogPrices()
    ensures Catalog.Lookup("product-1").salePrice == Some(8999)
    ensures Catalog.Lookup("rental-2").rentalPrice == Some(10800)
    ensures Catalog.Lookup("rental-1").salePrice == None
  {
  }

  /** Adding a key that a one-line cart already holds raises that line to one more unit. */
  lemma AddAgain(line: Item, id: string, kind: Kind, size: string)
    requires Matches(line, id, kind)
    ensures AddToCart([line], id, kind, size, None, None) == [line.(quantity := line.quantity + 1)]
  {
    assert HasKey([line], id, kind) by { assert Matches([line][0], id, kind); }
  }

  /** Adding a key that a one-line cart does not hold appends the new line. */
  lemma AddOther(line: Item, id: string, kind: Kind, size: string)
    requires !Matches(line, id, kind)
    ensures AddToCart([line], id, kind, size, None, None) == [line, NewItem(id, kind, size, None, None)]
  {
  }

  /**
   * Two purchases of a product sold at `sale` cents and one day's rental
   * of a product rented at `rent` cents.
   */
  lemma MixedCart(buy: string, rent: string, sale: int, rate: int)
    requires Catalog.Lookup(buy).salePrice == Some(sale)
    requires Catalog.Lookup(rent).rentalPrice == Some(rate)
    ensures var c := AddToCart(AddToCart(AddToCart([], buy, Compra, "M", None, None),
                                          buy, Compra, "M", None, None),
                               rent, Alquiler, "M", None, None);
            && PurchaseTotal(c) == 2 * sale
            && RentalTotal(c) == rate
  {
    var first := NewItem(buy, Compra, "M", None, None);
    var dress := first.(quantity := 2);
    var rental := NewItem(rent, Alquiler, "M", None, None);
    assert AddToCart([], buy, Compra, "M", None, None) == [first];
    AddAgain(first, buy, Compra, "M");
    AddOther(dress, rent, Alquiler, "M");
    TotalsOfConcat([dress], [rental]);
    assert [dress][1..] == [] && [rental][1..] == [];
  }

  /**
   * Two purchases of the 89.99 dress and one day's rental of the 108.00
   * cocktail dress come to 287.98.
   */
  lemma MixedCartTotal()
    ensures var c := AddToCart(AddToCart(AddToCart([], "product-1", Compra, "M", None, None),
                                          "product-1", Compra, "M", None, None),
                               "rental-2", Alquiler, "M", None, None);
            GrandTotal(c) == 28798
  {
    CatalogPrices();
    MixedCart("product-1", "rental-2", 8999, 10800);
  }

  /**
   * Adding the same product and type again, even in another size, keeps
   * one line with the first size and quantity 2.
   */
  lemma SecondSizeIsDiscarded(id: string, kind: Kind)
    ensures var c := AddToCart(AddToCart([], id, kind, "M", None, None), id, kind, "L", None, None);
            |c| == 1 && c[0].size == "M" && c[0].quantity == 2
  {
    var c1 := AddToCart([], id, kind, "M", None, None);
    assert Matches(c1[0], id, kind);
  }

  /** The same product bought and rented gives two separate lines. */
  lemma TypesAreSeparate(id: string)
    ensures var c := AddToCart(AddToCart([], id, Compra, "M", None, None), id, Alquiler, "M", None, None);
            |c| == 2 && c[0].kind == Compra && c[1].kind == Alquiler && c[0].quantity == 1 && c[1].quantity == 1
  {
    var c1 := AddToCart([], id, Compra, "M", None, None);
    assert !Matches(c1[0], id, Alquiler);
  }

  /**
   * Buying a rental-only product without a price stores no price, so the
   * line adds nothing to the totals.
   */
  lemma RentalOnlyBoughtIsFree()
    ensures var c := AddToCart([], "rental-1", Compra, "M", None, None);
            c[0].price == None && GrandTotal(c) == 0
  {
    var c := AddToCart([], "rental-1", Compra, "M", None, None);
    assert c[1..] == [];
  }
}
