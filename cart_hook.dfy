/** The stateful side of the `useCart` hook: the cart state the provider
    holds, and the three operations that copy it, change the copy and commit
    the copy. The results of the remote reads (stock amount, product record)
    are passed in; the returned outcome stands for the notification. */
module CartHook {
  import opened CartModel

  /** Linear search for the first line with the given id (`find` /
      `findIndex`), -1 when there is none. */
  method FindIndex<M>(cart: seq<LineItem<M>>, productId: int) returns (index: int)
    ensures index == FirstIndex(cart, productId)
  {
    index := 0;
    while index < |cart|
      invariant 0 <= index <= |cart|
      invariant forall j :: 0 <= j < index ==> cart[j].id != productId
    {
      if cart[index].id == productId {
        return;
      }
      index := index + 1;
    }
    index := -1;
  }

  class CartProvider<M> {
    /** The committed cart, in insertion order. */
    var cart: seq<LineItem<M>>

    ghost predicate Valid()
      reads this
    {
      WellFormed(cart)
    }

    /** Starts from the stored cart when storage holds one, else empty. */
    constructor (stored: Option<seq<LineItem<M>>>)
      ensures cart == if stored.Some? then stored.value else []
    {
      cart := if stored.Some? then stored.value else [];
    }

    /** Adds one unit of a product, appending a one-unit line when the
        product is not in the cart yet. */
    method AddProduct(productId: int, stock: Option<int>, product: Option<M>) returns (outcome: Outcome)
      modifies this
      ensures Step(outcome, cart) == AddStep(old(cart), productId, stock, product)
      ensures outcome == Ok || (outcome == AddFailed && cart == old(cart))
      ensures old(Valid()) ==> Valid()
    {
      var updatedCart := cart;
      var index := FindIndex(updatedCart, productId);
      if stock.None? {
        return AddFailed;
      }
      var currentAmount := if index >= 0 then updatedCart[index].amount else 0;
      var amount := currentAmount + 1;
      if amount > stock.value {
        return AddFailed;
      }
      if index >= 0 {
        updatedCart := updatedCart[index := updatedCart[index].(amount := amount)];
      } else {
        if product.None? {
          return AddFailed;
        }
        updatedCart := updatedCart + [LineItem(productId, product.value, 1)];
      }
      if Valid() {
        AddPreservesWellFormed(cart, productId, stock, product);
      }
      cart := updatedCart;
      outcome := Ok;
    }

    /** Removes the first line of a product. */
    method RemoveProduct(productId: int) returns (outcome: Outcome)
      modifies this
      ensures Step(outcome, cart) == RemoveStep(old(cart), productId)
      ensures outcome == Ok || (outcome == RemoveFailed && cart == old(cart))
      ensures old(Valid()) ==> Valid() && !Contains(cart, productId)
    {
      var updatedCart := cart;
      var productIndex := FindIndex(updatedCart, productId);
      if productIndex >= 0 {
        updatedCart := updatedCart[..productIndex] + updatedCart[productIndex + 1..];
        if Valid() {
          RemovePreservesWellFormed(cart, productId);
        }
        cart := updatedCart;
        outcome := Ok;
      } else {
        outcome := RemoveFailed;
      }
    }

    /** Sets the number of units of a product already in the cart. */
    method UpdateProductAmount(productId: int, amount: int, stock: Option<int>) returns (outcome: Outcome)
      modifies this
      ensures Step(outcome, cart) == UpdateStep(old(cart), productId, amount, stock)
      ensures outcome == Ok || cart == old(cart)
      ensures amount <= 0 ==> outcome == NoOp
      ensures old(Valid()) ==> Valid()
    {
      if amount <= 0 {
        return NoOp;
      }
      if stock.None? {
        return UpdateFailed;
      }
      if amount > stock.value {
        return UpdateOutOfStock;
      }
      var updatedCart := cart;
      var index := FindIndex(updatedCart, productId);
      if index >= 0 {
        updatedCart := updatedCart[index := updatedCart[index].(amount := amount)];
        if Valid() {
          UpdatePreservesWellFormed(cart, productId, amount, stock);
        }
        cart := updatedCart;
        outcome := Ok;
      } else {
        outcome := UpdateFailed;
      }
    }
  }
}
