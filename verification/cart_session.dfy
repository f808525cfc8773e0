/** A session of the cart provider: the cart is mutated only by the three
    operations, one after another, each with its own catalog answers and
    storage write result. */
module CartSession {
  import opened CartTypes
  import opened CartStore
  import opened CartProperties

  /** One call of an operation together with what its collaborators answer. */
  datatype Event =
    | AddEvent(productId: int, product: Fetch<ProductData>, stock: Fetch<int>, writeOk: bool)
    | RemoveEvent(productId: int, writeOk: bool)
    | UpdateEvent(productId: int, amount: int, stock: Fetch<int>, writeOk: bool)

  /** The catalog answers every product request of the event with the
      product asked for. */
  predicate Honest(e: Event)
  {
    e.AddEvent? ==> CatalogAnswers(e.product, e.productId)
  }

  function Apply(s: Store, e: Event): Step
  {
    match e
    case AddEvent(id, product, stock, w) => AddProduct(s, id, product, stock, w)
    case RemoveEvent(id, w) => RemoveProduct(s, id, w)
    case UpdateEvent(id, amount, stock, w) => UpdateProductAmount(s, id, amount, stock, w)
  }

  /** The store after the events, applied in order. Identifiers stay unique
      as long as the catalog is honest, and memory and storage stay equal as
      long as every write succeeds. */
  function Run(s: Store, events: seq<Event>): (r: Store)
    ensures Unique(s.cart) && (forall i :: 0 <= i < |events| ==> Honest(events[i]))
            ==> Unique(r.cart)
    ensures Mirrored(s) && (forall i :: 0 <= i < |events| ==> events[i].writeOk)
            ==> Mirrored(r)
    decreases |events|
  {
    if |events| == 0 then s
    else
      ApplyKeepsInvariants(s, events[0]);
      Run(Apply(s, events[0]).store, events[1..])
  }

  /** One event keeps identifiers unique when the catalog is honest, and
      keeps memory and storage equal when its write succeeds. */
  lemma ApplyKeepsInvariants(s: Store, e: Event)
    ensures Unique(s.cart) && Honest(e) ==> Unique(Apply(s, e).store.cart)
    ensures Mirrored(s) && e.writeOk ==> Mirrored(Apply(s, e).store)
  {
    match e
    case AddEvent(id, product, stock, w) =>
      if Unique(s.cart) && Honest(e) {
        AddKeepsUnique(s, id, product, stock, w);
      }
      if Mirrored(s) {
        OperationsKeepMirror(s, id, 0, product, stock, w);
      }
    case RemoveEvent(id, w) =>
      if Unique(s.cart) {
        RemoveKeepsUnique(s, id, w);
      }
    case UpdateEvent(id, amount, stock, w) =>
      if Unique(s.cart) {
        UpdateKeepsUnique(s, id, amount, stock, w);
      }
  }
}
