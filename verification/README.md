# Shopping-cart store (RocketShoes `CartProvider`)

A Dafny model of the cart logic of the storefront's `CartProvider`
(`src/hooks/useCart.tsx`). The cart is an ordered list of products kept
unique by product id, held in memory and mirrored into local storage. Three
operations change it:

- `addProduct(productId)`: when the id is already in the cart, it hands over
  to `updateProductAmount` with that product's amount plus one. Otherwise it
  fetches the product from the catalog and appends it with amount 1.
- `removeProduct(productId)`: filters the id out. An absent id is an error.
- `updateProductAmount({productId, amount})`: returns at once for
  `amount <= 0`. It fetches the live stock and refuses amounts above it.
  Otherwise it sets the amount of the matching product and leaves every other
  product as it was.

The model is functional. A `Store` holds the in-memory `cart` and the
`stored` copy. Each operation is a pure function from a store to a `Step`:
the new store plus an `Outcome` tag. The collaborators become parameters:

- the product fetch is a `Fetch<ProductData>`: `Fetched(data)` or `FetchError`;
- the stock fetch is a `Fetch<int>`;
- the success of `localStorage.setItem` is a `writeOk` flag;
- each toast becomes an `Outcome`, and `CartNotices.Notify` maps it to the
  message shown.

Modules:

- `CartTypes` (`cart_types.dfy`): products, catalog answers, outcomes, the
  store, and the `Unique` and `Mirrored` invariants.
- `CartList` (`cart_list.dfy`): the list logic. `Find` models `find`,
  `RemoveId` models `filter` and `SetAmount` models `map`. Lemmas cover
  order, identifiers and uniqueness.
- `CartStore` (`cart_store.dfy`): the three operations and the commit, which
  is `setCart` followed by the storage write.
- `CartProperties` (`cart_properties.dfy`): properties that relate several
  calls or that depend on ids being unique.
- `CartNotices` (`cart_notices.dfy`): which toast each outcome shows.
- `CartSession` (`cart_session.dfy`): a sequence of operations, with the
  invariants the sequence keeps.
- `CartAtomic` (`cart_atomic.dfy`): the same operations with a commit that
  rolls memory back when the storage write throws (see "## Findings").

Each operation first computes a `Plan`: either stop with an outcome, or write
a new cart. `Settle` then carries the plan out through `Commit`, which sets
memory and then storage. `CartAtomic` carries the same plans out through
`CommitRollback`.

### Behaviours of the code the model keeps

- **Write failures.** The operations are not all-or-nothing. `setCart(newCart)` runs before `localStorage.setItem`. If the
  write throws, the catch block reports the operation's generic error, but
  the in-memory cart has already changed and storage still holds the old
  list. The model gives this case its own outcome, `WriteFailed(op)`. In that
  case `cart` is the new list and `stored` is the old one. Memory and storage
  are proved equal only when the write succeeds. This is recorded under
  "## Findings", and `CartAtomic` (`cart_atomic.dfy`) models the
  all-or-nothing commit with a rollback.
- **The new product's id.** On the append path, the new product's id is the
  `id` the catalog returned (`{...productData, amount: 1}`), not the
  `productId` argument. The model keeps the fetched id. The lemmas that
  promise uniqueness, or a last element carrying `productId`, assume the
  catalog answers with the product that was asked for (`CatalogAnswers`).
- **Updating an absent id.** `updateProductAmount` on an id that is not in
  the cart still fetches the stock, checks it and writes the list back
  unchanged. So it can report out-of-stock or a fetch error for a product
  that is not in the cart. A successful write also brings the stored copy
  back in line with memory.
- **Increment notices.** When `addProduct` increments a product already in
  the cart, the notice comes from the update. A success is silent, and a
  failure shows the update's error message rather than the add's.

## Model

| member | source | states |
|---|---|---|
| CartList.Find | src/hooks/useCart.tsx:37 | The answer is nothing exactly when no product has the id. Otherwise it is a position holding the id, and every earlier position holds a different id. |
| CartList.RemoveId | src/hooks/useCart.tsx:65 | The result contains no product with the id. A product is in the result exactly when it was in the cart with a different id. The result is shorter when the id was present. It equals the cart when the id was absent. |
| CartList.SetAmount | src/hooks/useCart.tsx:95-104 | The length is kept. At each position, a product with the id gets the new amount and keeps every other field. Every other product is unchanged. |
| CartList.RemoveIdAppend | src/hooks/useCart.tsx:65 | Filtering a concatenation is the concatenation of the filtered parts, so the products that remain keep their original order. |
| CartList.RemoveIdAt | src/hooks/useCart.tsx:62-67 | In a cart with unique ids, removing the id found at position k gives the cart with exactly that one element cut out. The length drops by one. |
| CartList.RemoveIdKeepsUnique | src/hooks/useCart.tsx:65 | Filtering keeps ids unique. |
| CartList.SetAmountKeepsIds | src/hooks/useCart.tsx:95-104 | Replacing amounts keeps the id at every position. It keeps the id present or absent as before, and keeps ids unique in both directions. With the id absent, the cart is unchanged. |
| CartList.SetAmountAt | src/hooks/useCart.tsx:95-104 | In a cart with unique ids, the update is the cart with only position k given the new amount. |
| CartStore.UpdateProductAmount | src/hooks/useCart.tsx:78-111 | Each outcome is tied to its condition by an if-and-only-if. `amount <= 0` gives Ignored. A failed stock fetch gives FetchFailed(Update). `amount > stock` gives OutOfStock. Otherwise the result is Updated, or WriteFailed(Update) when the write fails. On Ignored, FetchFailed and OutOfStock the store is unchanged. Otherwise the length is kept and only products with the id get the new amount. With the id absent, the cart is unchanged. Storage equals memory after Updated and keeps its old value after a failed write. |
| CartStore.AddProduct | src/hooks/useCart.tsx:35-58 | When the id is present, the result is the update to the found product's amount plus one. When the id is absent and the fetch fails, the store is unchanged and the result is FetchFailed(Add). When the id is absent and the fetch succeeds, the cart grows by one. The earlier elements are unchanged and the last is the fetched product with amount 1. The outcome is Added, or WriteFailed(Add) with storage unchanged. |
| CartStore.RemoveProduct | src/hooks/useCart.tsx:60-76 | The outcome is NotFound exactly when the id is absent, and then the store is unchanged. When the id is present, the new cart is the filtered cart on any cart, unique or not, so the other products keep their order (`RemoveIdAppend`). No product with the id remains, exactly the products with other ids are kept, and the cart is shorter. Storage follows memory when the write succeeds. |
| CartStore.Commit | src/hooks/useCart.tsx:50-51 | Memory always becomes the new cart. Storage equals it when the write succeeds and keeps its old value when the write throws. The same commit appears at lines 66-67 and 106-107. |
| CartTypes.WithAmount | src/hooks/useCart.tsx:47 | The new product carries the fetched catalog record unchanged (`DataOf` gives it back) and has the given amount. |
| CartNotices.FailureMessage | src/hooks/useCart.tsx:55-56 | Each operation's catch block has its own message, distinct from the other operations' messages, the success messages and the out-of-stock message. The other catch blocks are at lines 73-74 and 108-109. |
| CartProperties.FindUnique | src/hooks/useCart.tsx:37 | In a cart with unique ids, `find` returns the only position holding the id. |
| CartProperties.AddNewProduct | src/hooks/useCart.tsx:42-52 | Adding an absent id, when the catalog answers and the write succeeds, gives Added. The cart is one longer and the last element has that id and amount 1. Every earlier element is unchanged. Ids stay unique and storage equals memory. |
| CartProperties.AddExistingProduct | src/hooks/useCart.tsx:37-40 | Adding a present id equals the update to its amount plus one, whatever the product fetch would return. With enough stock and a working write, it raises only that product's amount by one and keeps memory and storage equal. |
| CartProperties.RemovePresentProduct | src/hooks/useCart.tsx:62-68 | In a cart with unique ids, removing a present id cuts out exactly that element and keeps the order. The cart is one shorter and ids stay unique. |
| CartProperties.UpdateSkipsLookup | src/hooks/useCart.tsx:84-86 | A non-positive amount gives Ignored with the store unchanged, whatever the stock answer or the write result. |
| CartProperties.UpdatePresentProduct | src/hooks/useCart.tsx:95-107 | In a cart with unique ids, an update within stock changes only the matched product's amount. The outcome is Updated and storage equals memory. |
| CartProperties.AddKeepsUnique | src/hooks/useCart.tsx:37-48 | Adding keeps ids unique, on the increment path and on the append path, given that the catalog answers with the requested product. |
| CartProperties.RemoveKeepsUnique | src/hooks/useCart.tsx:65 | Removing keeps ids unique. |
| CartProperties.UpdateKeepsUnique | src/hooks/useCart.tsx:95-104 | Updating an amount keeps ids unique. |
| CartProperties.OperationsKeepMirror | src/hooks/useCart.tsx:50-109 | With a successful write, every operation leaves storage equal to memory. Every outcome that is neither a commit nor a write failure leaves the store untouched. |
| CartProperties.StockExample | src/hooks/useCart.tsx:88-104 | Take a cart [{id 1, amount 2}] with stock 5. Amount 3 gives [{id 1, amount 3}]. Amount 6 leaves the cart unchanged and gives OutOfStock. |
| CartNotices.Notify | src/hooks/useCart.tsx:52-109 | Success toasts appear exactly for Added and Removed. The add toast (line 52) appears exactly for Added, and the remove toast (line 68) exactly for Removed. Updated and Ignored are silent. Out-of-stock has its own message and never shows the generic error. Fetch and write failures show their operation's error, and a missing id on remove shows the remove error. |
| CartNotices.AddExistingNotifiesAsUpdate | src/hooks/useCart.tsx:39-40 | Incrementing a product already in the cart never shows the add toasts. It is silent, out-of-stock, or the update error. |
| CartNotices.AddNewNotifies | src/hooks/useCart.tsx:43-56 | Adding a new id shows the added toast exactly when the fetch and the write both succeed. Otherwise it shows the add error. |
| CartSession.Run | src/hooks/useCart.tsx:113-116 | Over any sequence of the three operations, ids stay unique while the catalog answers with the requested product. Memory and storage stay equal while every write succeeds. |
| CartAtomic.CommitRollback | src/hooks/useCart.tsx:50-56 | The corrected commit. A successful write sets memory and storage to the new cart, and a throwing write leaves the store exactly as it was. |
| CartAtomic.AddProductAtomic | src/hooks/useCart.tsx:35-58 | Same outcome as `addProduct`. Same store whenever it commits. The old store on every other outcome. |
| CartAtomic.RemoveProductAtomic | src/hooks/useCart.tsx:60-76 | Same outcome as `removeProduct`. Same store whenever it commits. The old store on every other outcome. |
| CartAtomic.UpdateProductAmountAtomic | src/hooks/useCart.tsx:78-111 | Same outcome as `updateProductAmount`. Same store whenever it commits. The old store on every other outcome. |
| CartAtomic.WriteFailureLeavesStale | src/hooks/useCart.tsx:50-56 | As written, adding a new id to a mirrored cart when the write throws gives WriteFailed(Add). Memory has changed and storage no longer equals it. |
| CartAtomic.AtomicOperationsAllOrNothing | src/hooks/useCart.tsx:50-109 | With the rollback commit, each operation keeps memory and storage equal whether or not the write succeeds. Every outcome other than a commit leaves the store untouched. |
| CartAtomic.RunAtomic | src/hooks/useCart.tsx:113-116 | With the rollback commit, memory and storage stay equal across any sequence of operations, failed writes included. Ids stay unique while the catalog answers with the requested product. |
| CartAtomic.ApplyAtomicKeepsInvariants | src/hooks/useCart.tsx:113-116 | A single operation with the rollback commit keeps memory and storage equal unconditionally, and keeps ids unique when the catalog is honest. |
| CartSession.ApplyKeepsInvariants | src/hooks/useCart.tsx:113-116 | A single operation keeps ids unique when the catalog is honest, and keeps storage equal to memory when its write succeeds. |

## Findings

| source | as written | input that shows it | evidently intended | confidence | as-written member | corrected member |
|---|---|---|---|---|---|---|
| src/hooks/useCart.tsx:50-56 (also 66-74 and 106-109) | `setCart(newCart)` runs before `localStorage.setItem`, and the catch block rolls nothing back. A throwing write shows the error toast, but memory holds the new cart and storage the old one. | A mirrored empty cart, `addProduct(1)`, the product fetch succeeds and `setItem` throws (for example, storage quota exceeded). Memory becomes `[product 1 with amount 1]`, storage stays `[]`, and "add failed" is shown. | Each operation either commits to memory and storage or leaves both unchanged. Memory and storage are equal after every operation. | medium; not executed | CartAtomic.WriteFailureLeavesStale | CartAtomic.AtomicOperationsAllOrNothing |

The rest of the model (`CartStore`, `CartProperties`, `CartSession`) follows
the code as written. `CartAtomic` reuses the same plans with the corrected
commit, and `CartAtomic.RunAtomic` proves the intended invariant for whole
sessions.

## Left out

- React wiring (`createContext`, `useState`, `useContext`, the provider's JSX): this is UI framework plumbing. The cart value is the `Store` passed in and returned.
- The initial load from `localStorage` and JSON parse/stringify (`src/hooks/useCart.tsx:25-33`): foreign-library serialisation. Storage is modelled as a plain copy of the list, so the serialise-then-reload round trip is not modelled.
- The `api.get` HTTP calls: they become the `Fetch` parameters. The `id` field of the stock record is ignored, as in the code.
- `async` behaviour: the model leaves out interleaving, including the stale-snapshot race between overlapping calls and the un-awaited `updateProductAmount` call inside `addProduct`. Each operation is applied to the store as a whole.
- Toast texts: only which message is shown is modelled (`CartNotices.Message`).
- Floating-point `price` and `amount`: `amount` is an unbounded integer and `price` is carried without being inspected. NaN comparisons and non-integer amounts are not modelled.
- `src/types.ts`, which declares `Product` and `Stock`, is not part of this model. The cart logic reads only `id` and `amount`. The fields `name`, `price` and `imageUrl` stand for the rest of the catalog record, which is carried unchanged.
