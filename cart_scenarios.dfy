/** Concrete runs of the cart operations, with product records as strings. */
module CartScenarios {
  import opened CartModel

  /** An empty cart and a stock of 5: the product gets a one-unit line. */
  lemma EmptyCartAddsOneUnit()
    ensures AddStep([], 1, Some(5), Some("sneaker")) == Step(Ok, [LineItem(1, "sneaker", 1)])
  {
  }

  /** One unit in the cart and a stock of 1: the second unit is refused. */
  lemma AddBeyondStockRefused()
    ensures AddStep([LineItem(1, "sneaker", 1)], 1, Some(1), Some("sneaker"))
         == Step(AddFailed, [LineItem(1, "sneaker", 1)])
  {
  }

  lemma RemoveLastLine()
    ensures RemoveStep([LineItem(1, "sneaker", 2)], 1) == Step(Ok, [])
  {
  }

  lemma RemoveFromEmptyCartFails()
    ensures RemoveStep<string>([], 99) == Step(RemoveFailed, [])
  {
  }

  lemma UpdateWithinStock()
    ensures UpdateStep([LineItem(1, "sneaker", 1)], 1, 5, Some(10))
         == Step(Ok, [LineItem(1, "sneaker", 5)])
  {
  }

  lemma UpdateNegativeIgnored(s: seq<LineItem<string>>, stock: Option<int>)
    ensures UpdateStep(s, 1, -3, stock) == Step(NoOp, s)
  {
  }
}
