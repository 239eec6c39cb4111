# Shopping-cart engine — a verified Dafny model

This project models the cart engine of a storefront client, the `CartProvider`
in `src/hooks/useCart.tsx`. The cart is an ordered list of `{id, amount}`
entries. It is loaded from one local-storage key when the provider starts. Three
mutations change it:

- `addProduct` checks the remote stock record. It then adds one unit to an
  existing entry, or appends a new entry with one unit taken from the catalog
  record.
- `removeProduct` deletes the first entry with the given id.
- `updateProductAmount` sets an entry's quantity after checking the amount, the
  entry and the stock.

After a successful mutation the whole cart is written to storage and published.
Any failure is caught, and cart and storage stay as they were.

The model has two modules:

- `CartSpec` (`cart_spec.dfy`) holds the values. `Item` is a cart entry and
  `Outcome` is a new cart or an `Error`. It gives the reference definition of
  each mutation on values (`Add`, `Remove`, `Update`) and the lemmas that state
  what the mutations mean. These cover exact effects, failure conditions in both
  directions, "nothing else changes", order, unit totals, stock bounds and the
  two cart invariants: unique ids and amounts of at least 1.
- `CartProvider` (`cart_provider.dfy`) holds the engine as the source runs it.
  The class `Provider` has the fields `cart` and `stored`, the latter being the
  snapshot under the storage key. Its constructor is the start-up load. `Commit`
  is the storage write followed by `setCart`. `AddProduct`, `RemoveProduct` and
  `UpdateProductAmount` copy the cart, locate the entry with the loop in
  `FindIndex` (the source's `find` and `findIndex`), change the copy and commit
  it. Each method is proved against the matching `CartSpec` function. On
  success, cart and snapshot both become the function's result. On failure, the
  method returns that error and changes neither field. Each method also keeps
  `Synced()` (snapshot equals cart) and `Valid()` (additionally a well-formed
  cart). `ScenarioAddUpToStock` walks through the five-adds-then-rejection
  scenario on a `Provider`.

The remote lookups are parameters of the methods. `stock: Option<int>` is the
answer of `GET /stock/{id}` and `product: Option<Item>` is the answer of
`GET /products/{id}`. `None` stands for an empty answer or a failed request. In
both cases the source leaves the state unchanged.

Points where the model departs from the code, or makes a choice the code leaves
open:

- **Value semantics instead of a shallow copy.** `[...cart]` (lines 50, 93, 120)
  copies only the array. So `cartInProduct.amount++` (line 61) and
  `product.amount = amount` (line 134) also change the entry objects of the
  previous state. Line 135 serialises `cart` instead of `products`, but the two
  arrays share the changed object, so the stored text is that of the new cart.
  The model states the observable result directly: the new cart is the old one
  with one entry replaced, and the snapshot is the new cart.
- **Line 73 is dropped.** The `stockProduct.amount < 1` check can never fire,
  because line 46 has already rejected `stockProduct.amount <= 0` (integer
  stock). `Add` and `AddProduct` leave it out.
- **Missing stock in an update.** Line 130 reads `stock.amount` without checking
  that the record exists. An empty answer throws a `TypeError`, which the catch
  block swallows without changing state. The model reports this as
  `StockMissing`.
- **The catalog record's id.** Line 76 appends whatever record the catalog
  returns. Adding keeps ids unique only if that record has the requested id.
  The predicate `CatalogAnswers` states this as a hypothesis of
  `AddPreservesWellFormed`, `AddWithinStock`, `AddKeepsOrder` and the `Valid()`
  clause of `AddProduct`. It is not a precondition of the operation.
- **Start-up loads without checks.** The constructor does not validate the
  stored snapshot (lines 29-30). It establishes `Valid()` only when the snapshot
  is absent or well-formed.
- **Error tags stand in for messages.** `StockMissing` models the first
  "Erro na adição do produto" (line 43) and the update `TypeError`. `OutOfStock`
  models lines 47, 58 and 131. `ProductNotFound` models line 70. `NotInCart`
  models lines 99 and 125. `InvalidAmount` models line 117.

## Model

| member | source | states |
|---|---|---|
| CartSpec.IndexOf | src/hooks/useCart.tsx:52-54 | the position found is the first entry with the id, every earlier entry has another id, and it is past the end exactly when the id is absent |
| CartProvider.FindIndex | src/hooks/useCart.tsx:94-96 | linear search returns -1 exactly when no entry has the id, otherwise the index of the first matching entry (equal to `IndexOf`) |
| CartSpec.AddNewAppends | src/hooks/useCart.tsx:64-81 | adding an absent id with positive stock and a catalog record succeeds, appends exactly one entry `Item(p.id, 1)` and keeps all earlier entries in order |
| CartSpec.AddExistingIncrements | src/hooks/useCart.tsx:52-63 | adding a present id whose amount is below the positive stock succeeds, adds exactly 1 to that entry, and keeps the length and every other entry |
| CartSpec.AddFailures | src/hooks/useCart.tsx:42-74 | add fails with StockMissing iff there is no stock record; with OutOfStock iff stock is at most 0 or the existing entry already holds at least the stock; with ProductNotFound iff the id is new and the catalog has no record; no other error occurs |
| CartSpec.AddAddsOneUnit | src/hooks/useCart.tsx:52-81 | every successful add raises the cart's total number of units by exactly one |
| CartSpec.AddWithinStock | src/hooks/useCart.tsx:56-81 | after a successful add, the product's entry exists and holds no more than the fetched stock |
| CartSpec.AddPreservesWellFormed | src/hooks/useCart.tsx:50-81 | a successful add keeps ids unique and amounts at least 1, when the catalog answers with the requested product |
| CartSpec.AddKeepsOrder | src/hooks/useCart.tsx:61-81 | a successful add keeps the cart's id sequence, or extends it by the new id at the end |
| CartSpec.RemoveDeletesFirst | src/hooks/useCart.tsx:93-102 | remove fails with NotInCart iff the id is absent; otherwise the result is one shorter, equals the cart before the first match and the cart after it |
| CartSpec.RemoveLeavesNoEntry | src/hooks/useCart.tsx:94-102 | in a cart with unique ids, no entry with the removed id remains |
| CartSpec.RemoveDropsUnits | src/hooks/useCart.tsx:102 | a successful remove lowers the total number of units by exactly the removed entry's amount |
| CartSpec.RemovePreservesWellFormed | src/hooks/useCart.tsx:93-105 | a successful remove keeps ids unique and amounts at least 1 |
| CartSpec.UpdateFailures | src/hooks/useCart.tsx:116-132 | update fails with InvalidAmount iff amount <= 0, with NotInCart iff the id is absent, with StockMissing iff there is no stock record, with OutOfStock iff amount exceeds the stock, and succeeds iff none of these holds |
| CartSpec.UpdateSetsAmount | src/hooks/useCart.tsx:122-136 | a successful update sets the matching entry to `Item(id, amount)` and keeps the length, the id sequence and every other entry |
| CartSpec.UpdateChangesUnits | src/hooks/useCart.tsx:134 | a successful update changes the total number of units by the new amount minus the entry's old amount |
| CartSpec.UpdatePreservesWellFormed | src/hooks/useCart.tsx:116-136 | a successful update keeps ids unique and amounts at least 1 |
| CartSpec.ScenarioAddSteps | src/hooks/useCart.tsx:36-82 | on an empty cart with stock 5 the first add gives `[{1,1}]`, at 4 units an add gives 5, and at 5 units it fails with OutOfStock |
| CartSpec.ScenarioUpdateAndRemove | src/hooks/useCart.tsx:111-136 | updating `[{1,3}]` to 7 with stock 10 gives `[{1,7}]`, and removing id 1 from `[{1,2}]` gives the empty cart |
| CartProvider.Provider.constructor | src/hooks/useCart.tsx:26-34 | at start-up the cart is the stored snapshot when there is one and empty otherwise, and memory and storage agree |
| CartProvider.Provider.Commit | src/hooks/useCart.tsx:104-105 | the storage key receives the full new cart and the new cart is published, so snapshot and cart are equal |
| CartProvider.Provider.AddProduct | src/hooks/useCart.tsx:36-89 | on success the cart and the snapshot both become `Add(old cart, …)`; on failure the method returns the error and neither field changes; keeps `Synced` and `Valid` |
| CartProvider.Provider.RemoveProduct | src/hooks/useCart.tsx:91-109 | on success the cart and the snapshot both become `Remove(old cart, id)`; on failure the method returns NotInCart and neither field changes; keeps `Synced` and `Valid` |
| CartProvider.Provider.UpdateProductAmount | src/hooks/useCart.tsx:111-140 | on success the cart and the snapshot both become `Update(old cart, …)`; on failure the method returns the error and neither field changes; keeps `Synced` and `Valid` |

## Left out

- React context, the provider component and the `useCart` hook (lines 1-25, 142-155): framework wiring with no cart logic.
- `toast.error` notifications and their Portuguese texts (lines 85-87, 107, 138): a one-way user-interface channel, represented only by the returned `Error` tag.
- The `error.response` branch (line 84): it only adds a second toast when a request fails at the transport level. A failed request is folded into the `None` answer of the lookup, and the state is unchanged as for every failure.
- The HTTP calls themselves (lines 38, 65, 128): their answers are method parameters.
- JSON serialisation and `localStorage` internals: the snapshot is modelled as a copy of the cart, so the serialisation round trip is taken as the identity. A stored empty string, which line 29 treats as absent, is not modelled. Nothing is claimed about corrupt snapshots, because line 30 does not catch parse errors.
- Asynchronous interleaving, including the lost update between overlapping calls: each operation is modelled as atomic.
- Numbers are modelled as unbounded integers. JavaScript's floating-point amounts (fractional or non-finite values) are not modelled.
- The aliasing of entry objects between the old and the new cart (lines 50, 61, 120, 134): the model uses values, so it does not capture the in-place change of objects the previous state still references.
