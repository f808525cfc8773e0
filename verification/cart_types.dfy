/** Data model of the shopping cart: products, the cart store (the in-memory
    list and its persisted mirror), the answers of the catalog service and the
    outcome of each cart operation. */
module CartTypes {

  /** A product held in the cart. `price` is carried verbatim and never
      inspected; `amount` is the quantity held in the cart. */
  datatype Product = Product(id: int, name: string, price: real, imageUrl: string, amount: int)

  /** What the catalog returns for `GET /products/{id}`: a product without a
      cart amount. */
  datatype ProductData = ProductData(id: int, name: string, price: real, imageUrl: string)

  /** The answer of a catalog request: either the fetched value or a transport
      or HTTP error (an unknown id included). */
  datatype Fetch<T> = Fetched(value: T) | FetchError

  /** An optional value: `find` answers with a match or with nothing. */
  datatype Option<T> = None | Some(value: T)

  /** The three mutating operations of the cart store. */
  datatype Op = Add | Remove | Update

  /** What an operation did; the store maps each tag to a notification. */
  datatype Outcome =
    | Added                 // a new product was appended and persisted
    | Removed               // a product was filtered out and persisted
    | Updated               // an amount was replaced and persisted (silent)
    | Ignored               // a non-positive amount: returns before any lookup
    | OutOfStock            // requested amount exceeds the live stock
    | NotFound              // remove of an id that is not in the cart
    | FetchFailed(op: Op)   // the catalog request of `op` failed
    | WriteFailed(op: Op)   // the persistence write of `op` threw

  /** The in-memory cart and the copy held by the persistence store. */
  datatype Store = Store(cart: seq<Product>, stored: seq<Product>)

  /** The store after an operation together with what the operation did. */
  datatype Step = Step(store: Store, outcome: Outcome)

  /** The catalog record of a product: everything but its cart amount. */
  function DataOf(p: Product): ProductData
  {
    ProductData(p.id, p.name, p.price, p.imageUrl)
  }

  /** `{...productData, amount}`: the fetched record, carried unchanged, with
      the given cart amount. */
  function WithAmount(d: ProductData, amount: int): (p: Product)
    ensures DataOf(p) == d && p.amount == amount
  {
    Product(d.id, d.name, d.price, d.imageUrl, amount)
  }

  /** Some product of `cart` has identifier `id`. */
  predicate HasId(cart: seq<Product>, id: int)
  {
    exists i :: 0 <= i < |cart| && cart[i].id == id
  }

  /** No two products of `cart` share an identifier. */
  predicate Unique(cart: seq<Product>)
  {
    forall i, j :: 0 <= i < j < |cart| ==> cart[i].id != cart[j].id
  }

  /** The persisted copy equals the in-memory cart. */
  predicate Mirrored(s: Store)
  {
    s.stored == s.cart
  }

  /** Outcomes after which the new cart was written to memory and storage. */
  predicate Committed(o: Outcome)
  {
    o.Added? || o.Removed? || o.Updated?
  }
}
