/** The cart store: the three mutating operations of the cart provider over
    the in-memory cart and its persisted copy. Catalog answers and the success
    of the persistence write are parameters; notifications are outcome tags. */
module CartStore {
  import opened CartTypes
  import opened CartList

  /** What an operation decides before it touches the store: stop with an
      outcome, or write `newCart` and report `done` when the write succeeds. */
  datatype Plan = Stop(outcome: Outcome) | Write(op: Op, newCart: seq<Product>, done: Outcome)

  /** `setCart(newCart)` followed by the storage write. The in-memory cart is
      set first, so a write that throws leaves the stored copy as it was. */
  function Commit(s: Store, newCart: seq<Product>, writeOk: bool): (r: Store)
    ensures r.cart == newCart
    ensures writeOk ==> Mirrored(r)
    ensures !writeOk ==> r.stored == s.stored
  {
    Store(newCart, if writeOk then newCart else s.stored)
  }

  /** Carries out a plan as the provider does: a write goes through `Commit`,
      and a write that throws lands in the operation's catch block. */
  function Settle(s: Store, p: Plan, writeOk: bool): Step
  {
    match p
    case Stop(o) => Step(s, o)
    case Write(op, newCart, done) =>
      Step(Commit(s, newCart, writeOk), if writeOk then done else WriteFailed(op))
  }

  /** The decisions of `updateProductAmount`, up to its write. */
  function UpdatePlan(cart: seq<Product>, productId: int, amount: int, stock: Fetch<int>): Plan
  {
    if amount <= 0 then Stop(Ignored)
    else
      match stock
      case FetchError => Stop(FetchFailed(Update))
      case Fetched(available) =>
        if amount > available then Stop(OutOfStock)
        else Write(Update, SetAmount(cart, productId, amount), Updated)
  }

  /** The decisions of `addProduct`, up to its write. */
  function AddPlan(cart: seq<Product>, productId: int, product: Fetch<ProductData>, stock: Fetch<int>): Plan
  {
    match Find(cart, productId)
    case Some(k) => UpdatePlan(cart, productId, cart[k].amount + 1, stock)
    case None =>
      match product
      case FetchError => Stop(FetchFailed(Add))
      case Fetched(data) => Write(Add, cart + [WithAmount(data, 1)], Added)
  }

  /** The decisions of `removeProduct`, up to its write. */
  function RemovePlan(cart: seq<Product>, productId: int): Plan
  {
    match Find(cart, productId)
    case None => Stop(NotFound)
    case Some(_) => Write(Remove, RemoveId(cart, productId), Removed)
  }

  /** `updateProductAmount({productId, amount})` given the stock answer for
      `productId` and whether the storage write succeeds. */
  function UpdateProductAmount(s: Store, productId: int, amount: int, stock: Fetch<int>, writeOk: bool): (r: Step)
    // which branch is taken
    ensures r.outcome == Ignored <==> amount <= 0
    ensures r.outcome == FetchFailed(Update) <==> 0 < amount && stock.FetchError?
    ensures r.outcome == OutOfStock <==> 0 < amount && stock.Fetched? && amount > stock.value
    ensures r.outcome == Updated <==> 0 < amount && stock.Fetched? && amount <= stock.value && writeOk
    ensures r.outcome == WriteFailed(Update) <==>
              0 < amount && stock.Fetched? && amount <= stock.value && !writeOk
    // nothing changes on the early returns and on a failed stock request
    ensures r.outcome in {Ignored, FetchFailed(Update), OutOfStock} ==> r.store == s
    // the new cart: same length, identifiers and order; only `productId` changes
    ensures r.outcome in {Updated, WriteFailed(Update)} ==>
              && |r.store.cart| == |s.cart|
              && forall i :: 0 <= i < |s.cart| ==>
                   r.store.cart[i] == (if s.cart[i].id == productId
                                       then s.cart[i].(amount := amount) else s.cart[i])
    ensures !HasId(s.cart, productId) ==> r.store.cart == s.cart
    // storage follows memory only when the write succeeds
    ensures r.outcome == Updated ==> Mirrored(r.store)
    ensures r.outcome == WriteFailed(Update) ==> r.store.stored == s.stored
  {
    Settle(s, UpdatePlan(s.cart, productId, amount, stock), writeOk)
  }

  /** `addProduct(productId)` given the catalog answer for the product, the
      stock answer used when the product is already in the cart, and whether
      the storage write succeeds. */
  function AddProduct(s: Store, productId: int, product: Fetch<ProductData>, stock: Fetch<int>, writeOk: bool): (r: Step)
    // an id already in the cart: the update with the found amount plus one
    ensures Find(s.cart, productId).Some? ==>
              r == UpdateProductAmount(s, productId, s.cart[Find(s.cart, productId).value].amount + 1, stock, writeOk)
    // a new id: the fetched product is appended with amount one
    ensures !HasId(s.cart, productId) && product.FetchError? ==> r == Step(s, FetchFailed(Add))
    ensures !HasId(s.cart, productId) && product.Fetched? ==>
              && |r.store.cart| == |s.cart| + 1
              && r.store.cart[..|s.cart|] == s.cart
              && r.store.cart[|s.cart|] == WithAmount(product.value, 1)
              && r.outcome == (if writeOk then Added else WriteFailed(Add))
              && r.store.stored == (if writeOk then r.store.cart else s.stored)
  {
    Settle(s, AddPlan(s.cart, productId, product, stock), writeOk)
  }

  /** `removeProduct(productId)` given whether the storage write succeeds. */
  function RemoveProduct(s: Store, productId: int, writeOk: bool): (r: Step)
    // an absent id is an error and changes nothing
    ensures r.outcome == NotFound <==> !HasId(s.cart, productId)
    ensures !HasId(s.cart, productId) ==> r.store == s
    // a present id: the cart is filtered, which keeps the other products in
    // order (see `RemoveIdAppend`), and no product with the id remains
    ensures HasId(s.cart, productId) ==>
              && r.outcome == (if writeOk then Removed else WriteFailed(Remove))
              && r.store.cart == RemoveId(s.cart, productId)
              && !HasId(r.store.cart, productId)
              && |r.store.cart| < |s.cart|
              && (forall p :: p in r.store.cart <==> p in s.cart && p.id != productId)
              && r.store.stored == (if writeOk then r.store.cart else s.stored)
  {
    Settle(s, RemovePlan(s.cart, productId), writeOk)
  }
}
