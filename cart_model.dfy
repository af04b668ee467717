/** Value-level model of the cart kept by the `useCart` hook: the line items,
    the invariant the hook is meant to keep, and the effect of each of the
    three cart mutations (add one unit, remove a line, set a line's amount)
    as a function from the committed cart and the results of the remote
    reads to the reported outcome and the cart committed afterwards. */
module CartModel {

  datatype Option<T> = None | Some(value: T)

  /** One line of the cart: the product id, the rest of the product's
      fields (opaque here), and how many units are in the cart. */
  datatype LineItem<M> = LineItem(id: int, meta: M, amount: int)

  /** What an operation reports. `Ok` commits a new cart; `NoOp` returns
      silently; the other four are the distinct error kinds the hook
      surfaces to the user, each leaving the cart as it was. */
  datatype Outcome = Ok | NoOp | AddFailed | RemoveFailed | UpdateOutOfStock | UpdateFailed

  /** The outcome of one call together with the cart committed after it. */
  datatype Step<M> = Step(outcome: Outcome, cart: seq<LineItem<M>>)

  predicate Contains<M>(s: seq<LineItem<M>>, id: int)
  {
    exists i :: 0 <= i < |s| && s[i].id == id
  }

  predicate UniqueIds<M>(s: seq<LineItem<M>>)
  {
    forall i, j :: 0 <= i < j < |s| ==> s[i].id != s[j].id
  }

  predicate PositiveAmounts<M>(s: seq<LineItem<M>>)
  {
    forall i :: 0 <= i < |s| ==> s[i].amount >= 1
  }

  /** The cart invariant: no product appears on two lines, and no line
      holds fewer than one unit. */
  predicate WellFormed<M>(s: seq<LineItem<M>>)
  {
    UniqueIds(s) && PositiveAmounts(s)
  }

  /** Position of the first line with the given id, or -1 when there is
      none (what `Array.prototype.findIndex` answers; `find` returns the
      element at this position). */
  function FirstIndex<M>(s: seq<LineItem<M>>, id: int): (r: int)
    ensures -1 <= r < |s|
    ensures r >= 0 ==> s[r].id == id
    ensures forall j :: 0 <= j < |s| && (r < 0 || j < r) ==> s[j].id != id
  {
    if s == [] then -1
    else if s[0].id == id then 0
    else
      var k := FirstIndex(s[1..], id);
      if k < 0 then -1 else k + 1
  }

  /** The cart with line `i` holding `a` units instead. */
  function WithAmount<M>(s: seq<LineItem<M>>, i: nat, a: int): seq<LineItem<M>>
    requires i < |s|
  {
    s[i := s[i].(amount := a)]
  }

  /** The cart with line `i` taken out (`splice(i, 1)`). */
  function Without<M>(s: seq<LineItem<M>>, i: nat): seq<LineItem<M>>
    requires i < |s|
  {
    s[..i] + s[i + 1..]
  }

  /** Units of the product already in the cart (0 when it has no line). */
  function CurrentAmount<M>(s: seq<LineItem<M>>, id: int): int
  {
    var k := FirstIndex(s, id);
    if k >= 0 then s[k].amount else 0
  }

  /** `addProduct`: `stock` is the amount read from the stock endpoint and
      `product` the record read from the product endpoint (`None` when the
      request failed). */
  function AddStep<M>(s: seq<LineItem<M>>, id: int, stock: Option<int>, product: Option<M>): (r: Step<M>)
    ensures r.outcome == Ok || r.outcome == AddFailed
    ensures r.outcome == AddFailed ==> r.cart == s
  {
    var k := FirstIndex(s, id);
    if stock.None? then Step(AddFailed, s)
    else
      var amount := CurrentAmount(s, id) + 1;
      if amount > stock.value then Step(AddFailed, s)
      else if k >= 0 then Step(Ok, WithAmount(s, k, amount))
      else if product.None? then Step(AddFailed, s)
      else Step(Ok, s + [LineItem(id, product.value, 1)])
  }

  /** `removeProduct`: no remote read. */
  function RemoveStep<M>(s: seq<LineItem<M>>, id: int): (r: Step<M>)
    ensures r.outcome == Ok || r.outcome == RemoveFailed
    ensures r.outcome == RemoveFailed ==> r.cart == s
  {
    var k := FirstIndex(s, id);
    if k >= 0 then Step(Ok, Without(s, k)) else Step(RemoveFailed, s)
  }

  /** `updateProductAmount`: `stock` is consulted only for a positive amount. */
  function UpdateStep<M>(s: seq<LineItem<M>>, id: int, amount: int, stock: Option<int>): (r: Step<M>)
    ensures r.outcome in {Ok, NoOp, UpdateOutOfStock, UpdateFailed}
    ensures r.outcome != Ok ==> r.cart == s
  {
    if amount <= 0 then Step(NoOp, s)
    else if stock.None? then Step(UpdateFailed, s)
    else if amount > stock.value then Step(UpdateOutOfStock, s)
    else
      var k := FirstIndex(s, id);
      if k >= 0 then Step(Ok, WithAmount(s, k, amount)) else Step(UpdateFailed, s)
  }

  // ---------------------------------------------------------------------
  // Finding a line

  lemma FirstIndexFinds<M>(s: seq<LineItem<M>>, id: int)
    ensures FirstIndex(s, id) >= 0 <==> Contains(s, id)
  {
  }

  // ---------------------------------------------------------------------
  // addProduct

  /** The stock boundary: the add succeeds exactly when the units already in
      the cart plus one do not exceed the stock (equality is accepted) and,
      for a product not yet in the cart, its record could be read. */
  lemma AddStockBoundary<M>(s: seq<LineItem<M>>, id: int, n: int, product: Option<M>)
    ensures AddStep(s, id, Some(n), product).outcome == Ok
        <==> CurrentAmount(s, id) + 1 <= n && (Contains(s, id) || product.Some?)
  {
  }

  /** A failed stock read, or a failed product read for a product not yet in
      the cart, reports the add error and keeps the cart. */
  lemma AddFetchFailure<M>(s: seq<LineItem<M>>, id: int, stock: Option<int>, product: Option<M>)
    requires stock.None? || (!Contains(s, id) && product.None?)
    ensures AddStep(s, id, stock, product) == Step(AddFailed, s)
  {
  }

  /** Adding a product already in the cart bumps its line by one unit and
      leaves the length, the order and every other line as they were. */
  lemma AddExisting<M>(s: seq<LineItem<M>>, id: int, n: int, product: Option<M>)
    requires Contains(s, id)
    requires CurrentAmount(s, id) + 1 <= n
    ensures var k, r := FirstIndex(s, id), AddStep(s, id, Some(n), product);
      && 0 <= k
      && r.outcome == Ok
      && |r.cart| == |s|
      && r.cart[k] == LineItem(id, s[k].meta, s[k].amount + 1)
      && (forall j :: 0 <= j < |s| && j != k ==> r.cart[j] == s[j])
  {
  }

  /** Adding a product not yet in the cart, with stock for at least one unit
      and its record read, appends exactly one line holding one unit. */
  lemma AddNew<M>(s: seq<LineItem<M>>, id: int, n: int, m: M)
    requires !Contains(s, id)
    requires n >= 1
    ensures AddStep(s, id, Some(n), Some(m)) == Step(Ok, s + [LineItem(id, m, 1)])
  {
  }

  /** After a successful add the product's line never holds more units
      than the stock read during that call. */
  lemma AddWithinStock<M>(s: seq<LineItem<M>>, id: int, stock: Option<int>, product: Option<M>)
    requires AddStep(s, id, stock, product).outcome == Ok
    ensures var c := AddStep(s, id, stock, product).cart;
      && stock.Some?
      && Contains(c, id)
      && c[FirstIndex(c, id)].amount <= stock.value
  {
    var c := AddStep(s, id, stock, product).cart;
    var k := FirstIndex(s, id);
    if k >= 0 {
      assert c[k].id == id;
      assert FirstIndex(c, id) == k;
    } else {
      assert c[|s|].id == id;
      assert FirstIndex(c, id) == |s|;
    }
  }

  lemma AddPreservesWellFormed<M>(s: seq<LineItem<M>>, id: int, stock: Option<int>, product: Option<M>)
    requires WellFormed(s)
    ensures WellFormed(AddStep(s, id, stock, product).cart)
  {
  }

  /** A successful add puts exactly one more unit in the cart. */
  lemma AddCountsOneUnit<M>(s: seq<LineItem<M>>, id: int, stock: Option<int>, product: Option<M>)
    requires AddStep(s, id, stock, product).outcome == Ok
    ensures Quantity(AddStep(s, id, stock, product).cart) == Quantity(s) + 1
  {
    var k := FirstIndex(s, id);
    if k >= 0 {
      QuantityWithAmount(s, k, s[k].amount + 1);
    } else {
      QuantityAppend(s, LineItem(id, product.value, 1));
    }
  }

  // ---------------------------------------------------------------------
  // removeProduct

  /** Removing a product in the cart deletes its first line and keeps the
      others in their order. */
  lemma RemovePresent<M>(s: seq<LineItem<M>>, id: int)
    requires Contains(s, id)
    ensures var k, r := FirstIndex(s, id), RemoveStep(s, id);
      && 0 <= k
      && r.outcome == Ok
      && r.cart == s[..k] + s[k + 1..]
      && |r.cart| == |s| - 1
  {
  }

  lemma RemoveAbsent<M>(s: seq<LineItem<M>>, id: int)
    requires !Contains(s, id)
    ensures RemoveStep(s, id) == Step(RemoveFailed, s)
  {
  }

  /** On a well-formed cart, a remove keeps the invariant and leaves no line
      of the product behind. */
  lemma RemovePreservesWellFormed<M>(s: seq<LineItem<M>>, id: int)
    requires WellFormed(s)
    ensures WellFormed(RemoveStep(s, id).cart)
    ensures !Contains(RemoveStep(s, id).cart, id)
  {
  }

  /** A successful remove takes out exactly the units of the removed line. */
  lemma RemoveCountsLine<M>(s: seq<LineItem<M>>, id: int)
    requires Contains(s, id)
    ensures Quantity(RemoveStep(s, id).cart) == Quantity(s) - s[FirstIndex(s, id)].amount
  {
    FirstIndexFinds(s, id);
    QuantityWithout(s, FirstIndex(s, id));
  }

  /** Round trip: removing a product that an add has just put in a cart
      that did not hold it gives back the cart as it was. */
  lemma AddThenRemove<M>(s: seq<LineItem<M>>, id: int, stock: Option<int>, product: Option<M>)
    requires !Contains(s, id)
    requires AddStep(s, id, stock, product).outcome == Ok
    ensures RemoveStep(AddStep(s, id, stock, product).cart, id) == Step(Ok, s)
  {
    FirstIndexFinds(s, id);
    var c := AddStep(s, id, stock, product).cart;
    assert c[|s|].id == id;
    assert FirstIndex(c, id) == |s|;
    assert Without(c, |s|) == s;
  }

  // ---------------------------------------------------------------------
  // updateProductAmount

  /** An amount of zero or less is ignored whatever the product and the
      stock: no error and no change. */
  lemma UpdateNonPositiveIsNoOp<M>(s: seq<LineItem<M>>, id: int, amount: int, stock: Option<int>)
    requires amount <= 0
    ensures UpdateStep(s, id, amount, stock) == Step(NoOp, s)
  {
  }

  /** The stock is checked before the cart: a failed stock read is the
      generic update error, an amount above the stock is the out-of-stock
      error even for a product not in the cart, and only then does a
      missing product give the generic update error. */
  lemma UpdateRejections<M>(s: seq<LineItem<M>>, id: int, amount: int, stock: Option<int>)
    requires amount > 0
    ensures stock.None? ==> UpdateStep(s, id, amount, stock) == Step(UpdateFailed, s)
    ensures stock.Some? && amount > stock.value ==>
      UpdateStep(s, id, amount, stock) == Step(UpdateOutOfStock, s)
    ensures stock.Some? && amount <= stock.value && !Contains(s, id) ==>
      UpdateStep(s, id, amount, stock) == Step(UpdateFailed, s)
  {
  }

  /** For a product in the cart and a positive amount, the update succeeds
      exactly when the amount does not exceed the stock (no +1 offset). */
  lemma UpdateStockBoundary<M>(s: seq<LineItem<M>>, id: int, amount: int, n: int)
    requires Contains(s, id)
    requires amount > 0
    ensures UpdateStep(s, id, amount, Some(n)).outcome == Ok <==> amount <= n
  {
  }

  /** A successful update sets the product's line to the requested amount
      and changes nothing else. */
  lemma UpdateSetsAmount<M>(s: seq<LineItem<M>>, id: int, amount: int, n: int)
    requires Contains(s, id)
    requires 0 < amount <= n
    ensures var k, r := FirstIndex(s, id), UpdateStep(s, id, amount, Some(n));
      && 0 <= k
      && r.outcome == Ok
      && |r.cart| == |s|
      && r.cart[k] == LineItem(id, s[k].meta, amount)
      && (forall j :: 0 <= j < |s| && j != k ==> r.cart[j] == s[j])
  {
  }

  lemma UpdatePreservesWellFormed<M>(s: seq<LineItem<M>>, id: int, amount: int, stock: Option<int>)
    requires WellFormed(s)
    ensures WellFormed(UpdateStep(s, id, amount, stock).cart)
  {
  }

  /** Setting the same amount twice is the same as setting it once. */
  lemma UpdateIdempotent<M>(s: seq<LineItem<M>>, id: int, amount: int, stock: Option<int>)
    ensures var c := UpdateStep(s, id, amount, stock).cart;
      UpdateStep(c, id, amount, stock).cart == c
  {
    var k := FirstIndex(s, id);
    if 0 < amount && stock.Some? && amount <= stock.value && k >= 0 {
      var c := WithAmount(s, k, amount);
      assert c[k].id == id;
      assert FirstIndex(c, id) == k;
    }
  }

  // ---------------------------------------------------------------------
  // Sequences of calls

  /** One call of the hook with the results of its remote reads. */
  datatype Call<M> =
    | Add(id: int, stock: Option<int>, product: Option<M>)
    | Remove(id: int)
    | Update(id: int, amount: int, stock: Option<int>)

  function Apply<M>(s: seq<LineItem<M>>, c: Call<M>): Step<M>
  {
    match c
    case Add(id, stock, product) => AddStep(s, id, stock, product)
    case Remove(id) => RemoveStep(s, id)
    case Update(id, amount, stock) => UpdateStep(s, id, amount, stock)
  }

  /** The cart committed after the calls run one after another. */
  function Run<M>(s: seq<LineItem<M>>, calls: seq<Call<M>>): seq<LineItem<M>>
    decreases |calls|
  {
    if calls == [] then s else Run(Apply(s, calls[0]).cart, calls[1..])
  }

  lemma ApplyPreservesWellFormed<M>(s: seq<LineItem<M>>, c: Call<M>)
    requires WellFormed(s)
    ensures WellFormed(Apply(s, c).cart)
  {
    match c
    case Add(id, stock, product) => AddPreservesWellFormed(s, id, stock, product);
    case Remove(id) => RemovePreservesWellFormed(s, id);
    case Update(id, amount, stock) => UpdatePreservesWellFormed(s, id, amount, stock);
  }

  /** Whatever calls run, and whatever the remote reads answer, a
      well-formed cart stays well-formed: ids stay unique and every line
      holds at least one unit. */
  lemma {:induction false} RunPreservesWellFormed<M>(s: seq<LineItem<M>>, calls: seq<Call<M>>)
    requires WellFormed(s)
    ensures WellFormed(Run(s, calls))
    decreases |calls|
  {
    if calls != [] {
      ApplyPreservesWellFormed(s, calls[0]);
      RunPreservesWellFormed(Apply(s, calls[0]).cart, calls[1..]);
    }
  }

  /** Starting from an empty cart, no sequence of calls ever puts the same
      product on two lines. */
  lemma FromEmptyIdsStayUnique<M>(calls: seq<Call<M>>)
    ensures UniqueIds(Run([], calls))
  {
    RunPreservesWellFormed([], calls);
  }

  // ---------------------------------------------------------------------
  // Units in the cart

  /** Total number of units over all lines. */
  function Quantity<M>(s: seq<LineItem<M>>): int
  {
    if s == [] then 0 else s[0].amount + Quantity(s[1..])
  }

  lemma {:induction false} QuantityConcat<M>(a: seq<LineItem<M>>, b: seq<LineItem<M>>)
    ensures Quantity(a + b) == Quantity(a) + Quantity(b)
    decreases |a|
  {
    if a != [] {
      assert (a + b)[1..] == a[1..] + b;
      QuantityConcat(a[1..], b);
    } else {
      assert a + b == b;
    }
  }

  lemma QuantityAppend<M>(s: seq<LineItem<M>>, x: LineItem<M>)
    ensures Quantity(s + [x]) == Quantity(s) + x.amount
  {
    QuantityConcat(s, [x]);
  }

  lemma {:induction false} QuantityWithout<M>(s: seq<LineItem<M>>, i: nat)
    requires i < |s|
    ensures Quantity(Without(s, i)) == Quantity(s) - s[i].amount
    decreases i
  {
    if i == 0 {
      assert Without(s, 0) == s[1..];
    } else {
      assert Without(s, i)[1..] == Without(s[1..], i - 1);
      QuantityWithout(s[1..], i - 1);
    }
  }

  lemma {:induction false} QuantityWithAmount<M>(s: seq<LineItem<M>>, i: nat, a: int)
    requires i < |s|
    ensures Quantity(WithAmount(s, i, a)) == Quantity(s) - s[i].amount + a
    decreases i
  {
    if i > 0 {
      assert WithAmount(s, i, a)[1..] == WithAmount(s[1..], i - 1, a);
      QuantityWithAmount(s[1..], i - 1, a);
    }
  }
}
