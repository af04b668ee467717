# Cart mutations of the `useCart` hook

This project models the shopping cart of the RocketShoes storefront (`src/hooks/useCart.tsx`).
The cart is an ordered list of line items `{ id, ...productFields, amount }`. Three operations
change it:

- `addProduct` reads the stock of the product and adds one unit. It raises the amount of the
  product's line, or it reads the product record and appends a line holding one unit.
- `removeProduct` deletes the product's line.
- `updateProductAmount` ignores a non-positive amount. Otherwise it reads the stock, refuses an
  amount above it, and sets the amount of the product's line.

Each operation copies the committed cart, changes the copy, and commits the copy. On every failure
it leaves the committed cart alone and shows one of four distinct error notifications.

The project has three modules:

- `CartModel` (`cart_model.dfy`) models the operations as values. It holds the line items, the cart
  invariant `WellFormed` (ids unique, every amount at least 1), and `AddStep`, `RemoveStep` and
  `UpdateStep`. Each of these maps the committed cart and the answers of the remote reads to an
  `Outcome` and the cart committed afterwards. The lemmas prove the stock boundaries, the failure
  policy, what a successful call changes and what it does not, that every call keeps the invariant,
  and that an add of a new product followed by a remove gives back the original cart.
- `CartHook` (`cart_hook.dfy`) models the provider's state. `CartProvider` is a class with a mutable
  `cart: seq<LineItem<M>>` field. Each method follows its source function step by step, in that
  function's own order. The line search is a loop (`FindIndex`).
  - `AddProduct`: copy, find the line, check the stock, change the copy, commit.
  - `RemoveProduct`: copy, find the line, delete it from the copy, commit. It reads no stock.
  - `UpdateProductAmount`: guard against a non-positive amount, check the stock, then copy, find
    the line, change the copy, commit.

  Each method's `ensures` ties its outcome and its new `cart` to the `CartModel` function. Each method also states that a failure
  keeps the cart and that the invariant is preserved.
- `CartScenarios` (`cart_scenarios.dfy`) works through concrete runs of the operations.

The remote reads become parameters: `stock: Option<int>` for `GET /stock/:id` and
`product: Option<M>` for `GET /products/:id`. `None` stands for a failed request. The product
fields other than `id` are the opaque type parameter `M`. The notification becomes the returned
`Outcome`:

| outcome | meaning |
|---|---|
| `Ok` | the new cart was committed |
| `NoOp` | silent return, for a non-positive update amount |
| `AddFailed` | the add-error notification |
| `RemoveFailed` | the remove-error notification |
| `UpdateOutOfStock` | the out-of-stock notification |
| `UpdateFailed` | the generic update-error notification |

## Model

| member | source | states |
|---|---|---|
| `CartModel.FirstIndex` | src/hooks/useCart.tsx:56 | the first position whose line has the id, or -1: every earlier line (every line, for -1) has another id |
| `CartModel.FirstIndexFinds` | src/hooks/useCart.tsx:92 | the search finds a position exactly when some line carries the id |
| `CartHook.FindIndex` | src/hooks/useCart.tsx:90 | the linear search returns the first matching position, or -1 |
| `CartModel.AddStep` | src/hooks/useCart.tsx:53-85 | an add reports only success or the add error, and the add error always comes with the cart unchanged; the units already in the cart are `CurrentAmount` (:61), and an existing line is bumped through `WithAmount` (:70) |
| `CartModel.RemoveStep` | src/hooks/useCart.tsx:87-101 | a remove reports only success or the remove error, and the remove error comes with the cart unchanged; the line is taken out through `Without`, the model of `splice(i, 1)` (:93) |
| `CartModel.UpdateStep` | src/hooks/useCart.tsx:103-134 | an update reports success, no-op, out-of-stock or the generic error; everything but success leaves the cart unchanged; the amount is set through `WithAmount` (:125) |
| `CartModel.AddStockBoundary` | src/hooks/useCart.tsx:60-67 | with the stock read, an add succeeds if and only if the units in the cart plus one are at most the stock (equality accepted) and, for a product not in the cart, its record was read |
| `CartModel.AddFetchFailure` | src/hooks/useCart.tsx:58-83 | a failed stock read, or a failed product read for a product not in the cart, gives the add error and the unchanged cart |
| `CartModel.AddExisting` | src/hooks/useCart.tsx:69-70 | adding a product in the cart sets its line's amount to the old amount plus one, keeps its id and fields, and leaves the length and all other lines unchanged |
| `CartModel.AddNew` | src/hooks/useCart.tsx:71-78 | adding a product not in the cart, with stock at least 1 and its record read, commits exactly the old cart with one line `(id, record, 1)` appended |
| `CartModel.AddWithinStock` | src/hooks/useCart.tsx:60-81 | after a successful add, the product's line holds no more units than the stock read in that call |
| `CartModel.AddPreservesWellFormed` | src/hooks/useCart.tsx:69-78 | an add keeps ids unique and every amount at least 1 |
| `CartModel.AddCountsOneUnit` | src/hooks/useCart.tsx:61-78 | a successful add puts exactly one more unit in the cart |
| `CartModel.RemovePresent` | src/hooks/useCart.tsx:90-94 | removing a product in the cart commits the cart with its first line deleted: one line shorter, the rest in their order |
| `CartModel.RemoveAbsent` | src/hooks/useCart.tsx:92-99 | removing a product not in the cart gives the remove error and the unchanged cart |
| `CartModel.RemovePreservesWellFormed` | src/hooks/useCart.tsx:89-94 | on a well-formed cart a remove keeps the invariant and leaves no line with the removed id |
| `CartModel.RemoveCountsLine` | src/hooks/useCart.tsx:93 | a successful remove takes out exactly the units of the removed line |
| `CartModel.AddThenRemove` | src/hooks/useCart.tsx:74-93 | removing a product that an add has just appended gives back the original cart, with success |
| `CartModel.UpdateNonPositiveIsNoOp` | src/hooks/useCart.tsx:108-110 | an amount of zero or less is a silent no-op whatever the id and the stock |
| `CartModel.UpdateRejections` | src/hooks/useCart.tsx:112-132 | for a positive amount: a failed stock read gives the generic error; an amount above the stock gives the out-of-stock error, even for a product not in the cart; otherwise a missing product gives the generic error; each keeps the cart |
| `CartModel.UpdateStockBoundary` | src/hooks/useCart.tsx:116-119 | for a product in the cart and a positive amount, the update succeeds if and only if the amount is at most the stock (no +1 offset) |
| `CartModel.UpdateSetsAmount` | src/hooks/useCart.tsx:121-126 | a successful update sets the product's line to the amount, keeps its id and fields, and leaves every other line and the length unchanged |
| `CartModel.UpdatePreservesWellFormed` | src/hooks/useCart.tsx:108-126 | an update keeps ids unique and every amount at least 1 |
| `CartModel.UpdateIdempotent` | src/hooks/useCart.tsx:122-126 | repeating an update with the same amount and stock does not change the cart again |
| `CartModel.ApplyPreservesWellFormed` | src/hooks/useCart.tsx:53-134 | any single call of the three operations keeps the invariant |
| `CartModel.RunPreservesWellFormed` | src/hooks/useCart.tsx:53-134 | any sequence of calls, with any answers from the remote reads, keeps a well-formed cart well-formed |
| `CartModel.FromEmptyIdsStayUnique` | src/hooks/useCart.tsx:32 | starting from the empty cart, no sequence of calls puts one product on two lines |
| `CartHook.CartProvider.constructor` | src/hooks/useCart.tsx:25-33 | the provider starts from the stored cart when storage holds one, else from the empty cart |
| `CartHook.CartProvider.AddProduct` | src/hooks/useCart.tsx:53-85 | the outcome and the new cart are those of `AddStep` on the old cart; on failure the outcome is the add error and the cart is unchanged; the invariant is preserved |
| `CartHook.CartProvider.RemoveProduct` | src/hooks/useCart.tsx:87-101 | the outcome and the new cart are those of `RemoveStep`; on failure the outcome is the remove error and the cart is unchanged; a valid cart stays valid and loses every line of the id |
| `CartHook.CartProvider.UpdateProductAmount` | src/hooks/useCart.tsx:103-134 | the outcome and the new cart are those of `UpdateStep`; a non-positive amount is a no-op; anything but success leaves the cart unchanged; the invariant is preserved |
| `CartScenarios.EmptyCartAddsOneUnit` | src/hooks/useCart.tsx:71-81 | an add to the empty cart with stock 5 commits one line with one unit |
| `CartScenarios.AddBeyondStockRefused` | src/hooks/useCart.tsx:62-66 | with one unit in the cart and stock 1, a second add is refused and the cart is unchanged |
| `CartScenarios.RemoveLastLine` | src/hooks/useCart.tsx:90-94 | removing the only line leaves the empty cart |
| `CartScenarios.RemoveFromEmptyCartFails` | src/hooks/useCart.tsx:95-99 | a remove on the empty cart gives the remove error |
| `CartScenarios.UpdateWithinStock` | src/hooks/useCart.tsx:121-126 | setting amount 5 with stock 10 commits the line with 5 units |
| `CartScenarios.UpdateNegativeIgnored` | src/hooks/useCart.tsx:108-110 | an amount of -3 is a no-op on any cart |

## Left out

- React wiring (`createContext`, the provider's JSX, `useContext`/`useCart`) is UI framework plumbing and is not modelled.
- Reading and writing `localStorage`, with `JSON.parse`/`JSON.stringify`, is browser I/O. The constructor takes the already-parsed stored cart, or `None` when storage holds nothing. Malformed stored data, which the source does not handle, is not modelled.
- The `useRef`/`useEffect` persistence trigger depends on React render cycles and reference identity. In the source every committed cart (outcome `Ok`) is a new array and is then written to storage. The model does not represent the write.
- The network requests are replaced by their results, passed as parameters. Any failed request is `None`. A response without a numeric `amount` field, which JavaScript's `>` would quietly accept, is not modelled.
- The notification wording is not modelled. Only the error kind is returned as the `Outcome`.
- Async suspension, and the last-write-wins race between overlapping calls, are concurrency and are not modelled. Each call is one atomic step.
- Amounts are unbounded integers. JavaScript numbers are doubles, so fractional amounts and precision limits are not modelled.
- The source mutates `amount` on a line object that the copied array shares with the previous state. The model builds each committed cart as a new sequence. Aliasing between the old and new state is therefore not captured, and the previous cart value stays intact.
- CartModel.AddNew: the source builds the new line by spreading the fetched product record, so its `id` is the record's own `id`. The model uses the requested id. It assumes that the product endpoint answers with the product that was asked for. CartModel.AddPreservesWellFormed, CartModel.RunPreservesWellFormed and CartModel.FromEmptyIdsStayUnique (ids stay unique) rest on the same assumption. The source never checks the fetched `id`, so a record with another product's id would put that id on two lines.
- CartModel.Quantity (the total number of units) is not in the source. It is a reference measure used to state what an add and a remove do to the cart's contents.
