/** The all-or-nothing commit the cart operations are meant to have. In the
    provider the in-memory cart is set before the storage write, so a write
    that throws reports failure while memory already holds the new cart. Here
    a failed write rolls memory back, so an operation either commits to both
    copies or changes neither. The decisions of each operation are the same
    plans the provider follows; only the commit differs. */
module CartAtomic {
  import opened CartTypes
  import opened CartStore
  import opened CartSession

  /** A commit that restores the previous store when the write throws. */
  function CommitRollback(s: Store, newCart: seq<Product>, writeOk: bool): (r: Store)
    ensures writeOk ==> r.cart == newCart && Mirrored(r)
    ensures !writeOk ==> r == s
  {
    if writeOk then Store(newCart, newCart) else s
  }

  /** Carries out a plan with the rolling-back commit. */
  function SettleRollback(s: Store, p: Plan, writeOk: bool): Step
  {
    match p
    case Stop(o) => Step(s, o)
    case Write(op, newCart, done) =>
      Step(CommitRollback(s, newCart, writeOk), if writeOk then done else WriteFailed(op))
  }

  /** `addProduct` with the rolling-back commit: the same outcome as the
      provider, the same store whenever it commits, the old store otherwise. */
  function AddProductAtomic(s: Store, productId: int, product: Fetch<ProductData>, stock: Fetch<int>, writeOk: bool): (r: Step)
    ensures r.outcome == AddProduct(s, productId, product, stock, writeOk).outcome
    ensures Committed(r.outcome) ==> r == AddProduct(s, productId, product, stock, writeOk)
    ensures !Committed(r.outcome) ==> r.store == s
  {
    SettleRollback(s, AddPlan(s.cart, productId, product, stock), writeOk)
  }

  /** `removeProduct` with the rolling-back commit. */
  function RemoveProductAtomic(s: Store, productId: int, writeOk: bool): (r: Step)
    ensures r.outcome == RemoveProduct(s, productId, writeOk).outcome
    ensures Committed(r.outcome) ==> r == RemoveProduct(s, productId, writeOk)
    ensures !Committed(r.outcome) ==> r.store == s
  {
    SettleRollback(s, RemovePlan(s.cart, productId), writeOk)
  }

  /** `updateProductAmount` with the rolling-back commit. */
  function UpdateProductAmountAtomic(s: Store, productId: int, amount: int, stock: Fetch<int>, writeOk: bool): (r: Step)
    ensures r.outcome == UpdateProductAmount(s, productId, amount, stock, writeOk).outcome
    ensures Committed(r.outcome) ==> r == UpdateProductAmount(s, productId, amount, stock, writeOk)
    ensures !Committed(r.outcome) ==> r.store == s
  {
    SettleRollback(s, UpdatePlan(s.cart, productId, amount, stock), writeOk)
  }

  /** As written, a throwing write on the append path reports the add error
      while memory holds the new product and storage holds the old cart. */
  lemma WriteFailureLeavesStale(s: Store, productId: int, data: ProductData, stock: Fetch<int>)
    requires Mirrored(s) && !HasId(s.cart, productId)
    ensures var r := AddProduct(s, productId, Fetched(data), stock, false);
            && r.outcome == WriteFailed(Add)
            && r.store.cart != s.cart
            && !Mirrored(r.store)
  {
  }

  /** With the rolling-back commit, every operation is all-or-nothing: an
      outcome that is not a commit leaves memory and storage untouched, and
      memory and storage stay equal whether or not the write succeeds. */
  lemma AtomicOperationsAllOrNothing(s: Store, productId: int, amount: int, product: Fetch<ProductData>, stock: Fetch<int>, writeOk: bool)
    requires Mirrored(s)
    ensures var r := AddProductAtomic(s, productId, product, stock, writeOk);
            Mirrored(r.store) && (!Committed(r.outcome) ==> r.store == s)
    ensures var r := RemoveProductAtomic(s, productId, writeOk);
            Mirrored(r.store) && (!Committed(r.outcome) ==> r.store == s)
    ensures var r := UpdateProductAmountAtomic(s, productId, amount, stock, writeOk);
            Mirrored(r.store) && (!Committed(r.outcome) ==> r.store == s)
  {
  }

  /** One event with the rolling-back commit. */
  function ApplyAtomic(s: Store, e: Event): Step
  {
    match e
    case AddEvent(id, product, stock, w) => AddProductAtomic(s, id, product, stock, w)
    case RemoveEvent(id, w) => RemoveProductAtomic(s, id, w)
    case UpdateEvent(id, amount, stock, w) => UpdateProductAmountAtomic(s, id, amount, stock, w)
  }

  /** A session with the rolling-back commit keeps memory and storage equal
      through any sequence of events, failed writes included, and keeps
      identifiers unique while the catalog is honest. */
  function RunAtomic(s: Store, events: seq<Event>): (r: Store)
    ensures Mirrored(s) ==> Mirrored(r)
    ensures Unique(s.cart) && (forall i :: 0 <= i < |events| ==> Honest(events[i]))
            ==> Unique(r.cart)
    decreases |events|
  {
    if |events| == 0 then s
    else
      ApplyAtomicKeepsInvariants(s, events[0]);
      RunAtomic(ApplyAtomic(s, events[0]).store, events[1..])
  }

  /** One atomic event keeps both invariants; unlike the provider's commit,
      memory and storage stay equal even when the write throws. */
  lemma ApplyAtomicKeepsInvariants(s: Store, e: Event)
    ensures Mirrored(s) ==> Mirrored(ApplyAtomic(s, e).store)
    ensures Unique(s.cart) && Honest(e) ==> Unique(ApplyAtomic(s, e).store.cart)
  {
    ApplyKeepsInvariants(s, e);
    if Mirrored(s) {
      match e
      case AddEvent(id, product, stock, w) =>
        AtomicOperationsAllOrNothing(s, id, 0, product, stock, w);
      case RemoveEvent(id, w) =>
        AtomicOperationsAllOrNothing(s, id, 0, FetchError, FetchError, w);
      case UpdateEvent(id, amount, stock, w) =>
        AtomicOperationsAllOrNothing(s, id, amount, FetchError, stock, w);
    }
  }
}
