/** Concrete carts and what the normaliser makes of them. */
module Scenarios {
  import opened Wrappers
  import opened Cart
  import opened Normalizer

  /** A named entry with a price and a quantity of two. */
  lemma MugIsPricedInCents()
    ensures Normalize(List([CartEntry(Some("Mug"), None, Finite(9.99), Some(Finite(2.0)))]))
            == Success([LineItem("usd", "Mug", 999, 2)])
  {
    var es := [CartEntry(Some("Mug"), None, Finite(9.99), Some(Finite(2.0)))];
    assert Cents(9.99) == 999;
    assert (2.0).Floor == 2;
    assert NormalizeEntry(es[0], 0) == Success(LineItem("usd", "Mug", 999, 2));
    assert MapFrom(es, 1) == Success([]);
    assert [NormalizeEntry(es[0], 0).value] + [] == [NormalizeEntry(es[0], 0).value];
  }

  /** A negative price is rejected under the entry's title. */
  lemma NegativePriceIsRejected()
    ensures Normalize(List([CartEntry(None, Some("Book"), Finite(-5.0), Some(Finite(1.0)))]))
            == Failure(InvalidPrice("Book"))
  {
  }

  lemma EmptyCartIsRejected()
    ensures Normalize(List([])) == Failure(NoProducts)
    ensures Normalize(Absent) == Failure(NoProducts)
    ensures Normalize(NotAnArray) == Failure(NoProducts)
  {
  }

  /** An entry with no usable name at index 1 is called "Item 2", and its
      missing quantity counts as one. */
  lemma NamelessEntryGetsPosition()
    ensures Normalize(List([CartEntry(Some("Mug"), None, Finite(1.0), None),
                            CartEntry(Some(""), None, Finite(2.5), None)]))
            == Success([LineItem("usd", "Mug", 100, 1), LineItem("usd", "Item 2", 250, 1)])
  {
    var es := [CartEntry(Some("Mug"), None, Finite(1.0), None),
               CartEntry(Some(""), None, Finite(2.5), None)];
    assert Decimal.Render(2) == "2";
    assert Placeholder(1) == "Item 2";
    assert Cents(1.0) == 100;
    assert Cents(2.5) == 250;
    assert (1.0).Floor == 1;
    assert NormalizeEntry(es[0], 0) == Success(LineItem("usd", "Mug", 100, 1));
    assert NormalizeEntry(es[1], 1) == Success(LineItem("usd", "Item 2", 250, 1));
    assert MapFrom(es, 2) == Success([]);
    assert [LineItem("usd", "Item 2", 250, 1)] + [] == [LineItem("usd", "Item 2", 250, 1)];
    assert MapFrom(es, 1) == Success([LineItem("usd", "Item 2", 250, 1)]);
    assert [LineItem("usd", "Mug", 100, 1)] + [LineItem("usd", "Item 2", 250, 1)]
        == [LineItem("usd", "Mug", 100, 1), LineItem("usd", "Item 2", 250, 1)];
  }

  /** A positive price below half a cent is accepted and rounds to zero. */
  lemma TinyPriceRoundsToZero()
    ensures Normalize(List([CartEntry(Some("Sticker"), None, Finite(0.004), None)]))
            == Success([LineItem("usd", "Sticker", 0, 1)])
  {
    var es := [CartEntry(Some("Sticker"), None, Finite(0.004), None)];
    assert Cents(0.004) == 0;
    assert (1.0).Floor == 1;
    assert NormalizeEntry(es[0], 0) == Success(LineItem("usd", "Sticker", 0, 1));
    assert MapFrom(es, 1) == Success([]);
    assert [NormalizeEntry(es[0], 0).value] + [] == [NormalizeEntry(es[0], 0).value];
  }

  /** An entry wrong in both price and quantity is reported for its price;
      a fractional quantity alone is reported as such. */
  lemma PriceIsCheckedBeforeQuantity()
    ensures Normalize(List([CartEntry(Some("Pen"), None, NotANumber, Some(Finite(0.0)))]))
            == Failure(InvalidPrice("Pen"))
    ensures Normalize(List([CartEntry(Some("Pen"), None, Finite(1.0), Some(Finite(1.5)))]))
            == Failure(InvalidQuantity("Pen"))
  {
    assert (1.5).Floor == 1;
  }
}
