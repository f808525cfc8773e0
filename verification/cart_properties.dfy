/** Properties of the cart operations that relate several calls or rely on
    the cart keeping its identifiers unique. */
module CartProperties {
  import opened CartTypes
  import opened CartList
  import opened CartStore

  /** The catalog answers a product request with the product asked for. */
  predicate CatalogAnswers(product: Fetch<ProductData>, productId: int)
  {
    product.Fetched? ==> product.value.id == productId
  }

  /** In a cart with unique identifiers, `find` lands on the only position
      holding the identifier. */
  lemma FindUnique(cart: seq<Product>, id: int, k: nat)
    requires Unique(cart)
    requires k < |cart| && cart[k].id == id
    ensures Find(cart, id) == Some(k)
  {
  }

  /** Adding an id that is not in the cart appends the fetched product with
      amount one after the untouched earlier products, keeps identifiers
      unique and leaves memory and storage equal. */
  lemma AddNewProduct(s: Store, productId: int, data: ProductData, stock: Fetch<int>)
    requires Unique(s.cart) && !HasId(s.cart, productId)
    requires data.id == productId
    ensures var r := AddProduct(s, productId, Fetched(data), stock, true);
            && r.outcome == Added
            && |r.store.cart| == |s.cart| + 1
            && r.store.cart[|s.cart|].id == productId
            && r.store.cart[|s.cart|].amount == 1
            && (forall i :: 0 <= i < |s.cart| ==> r.store.cart[i] == s.cart[i])
            && Unique(r.store.cart)
            && Mirrored(r.store)
  {
  }

  /** Adding an id already in the cart at position `k` is the amount update
      to that product's amount plus one, whatever the catalog would answer
      for the product; with enough stock and a working write it raises that
      product's amount by one and changes nothing else. */
  lemma AddExistingProduct(s: Store, productId: int, k: nat, product: Fetch<ProductData>, stock: Fetch<int>, writeOk: bool)
    requires Unique(s.cart)
    requires k < |s.cart| && s.cart[k].id == productId
    ensures AddProduct(s, productId, product, stock, writeOk)
            == UpdateProductAmount(s, productId, s.cart[k].amount + 1, stock, writeOk)
    ensures var n := s.cart[k].amount + 1;
            0 < n && stock.Fetched? && n <= stock.value && writeOk ==>
              AddProduct(s, productId, product, stock, writeOk)
              == Step(Store(s.cart[k := s.cart[k].(amount := n)], s.cart[k := s.cart[k].(amount := n)]), Updated)
  {
    var n := s.cart[k].amount + 1;
    FindUnique(s.cart, productId, k);
    assert AddPlan(s.cart, productId, product, stock) == UpdatePlan(s.cart, productId, n, stock);
    assert AddProduct(s, productId, product, stock, writeOk)
           == Settle(s, UpdatePlan(s.cart, productId, n, stock), writeOk)
           == UpdateProductAmount(s, productId, n, stock, writeOk);
    if 0 < n && stock.Fetched? && n <= stock.value && writeOk {
      var c := s.cart[k := s.cart[k].(amount := n)];
      SetAmountAt(s.cart, productId, n, k);
      assert AddProduct(s, productId, product, stock, writeOk) == Step(Store(c, c), Updated);
    }
  }

  /** Removing the identifier at position `k` of a cart with unique
      identifiers drops exactly that product, keeps the rest in order,
      shortens the cart by one and keeps identifiers unique. */
  lemma RemovePresentProduct(s: Store, productId: int, k: nat, writeOk: bool)
    requires Unique(s.cart)
    requires k < |s.cart| && s.cart[k].id == productId
    ensures var r := RemoveProduct(s, productId, writeOk);
            && r.store.cart == s.cart[..k] + s.cart[k + 1..]
            && |r.store.cart| == |s.cart| - 1
            && Unique(r.store.cart)
  {
    RemoveIdAt(s.cart, productId, k);
    RemoveIdKeepsUnique(s.cart, productId);
  }

  /** A non-positive amount returns before the stock lookup: the result does
      not depend on the stock answer nor on the storage. */
  lemma UpdateSkipsLookup(s: Store, productId: int, amount: int, stock1: Fetch<int>, stock2: Fetch<int>, w1: bool, w2: bool)
    requires amount <= 0
    ensures UpdateProductAmount(s, productId, amount, stock1, w1)
            == UpdateProductAmount(s, productId, amount, stock2, w2)
            == Step(s, Ignored)
  {
  }

  /** In a cart with unique identifiers, a successful update replaces the
      amount of the one product found at position `k`. */
  lemma UpdatePresentProduct(s: Store, productId: int, k: nat, amount: int, available: int)
    requires Unique(s.cart)
    requires k < |s.cart| && s.cart[k].id == productId
    requires 0 < amount <= available
    ensures var r := UpdateProductAmount(s, productId, amount, Fetched(available), true);
            && r.outcome == Updated
            && r.store.cart == s.cart[k := s.cart[k].(amount := amount)]
            && Mirrored(r.store)
  {
  }

  /** Adding keeps product identifiers unique, provided the catalog answers
      a product request with the product asked for. */
  lemma AddKeepsUnique(s: Store, productId: int, product: Fetch<ProductData>, stock: Fetch<int>, writeOk: bool)
    requires Unique(s.cart)
    requires CatalogAnswers(product, productId)
    ensures Unique(AddProduct(s, productId, product, stock, writeOk).store.cart)
  {
    match Find(s.cart, productId)
    case Some(k) =>
      SetAmountKeepsIds(s.cart, productId, s.cart[k].amount + 1);
    case None =>
      if product.Fetched? {
        var c := AddProduct(s, productId, product, stock, writeOk).store.cart;
        assert c == s.cart + [WithAmount(product.value, 1)];
        forall i, j | 0 <= i < j < |c| ensures c[i].id != c[j].id {
          if j == |s.cart| {
            assert c[i] == s.cart[i];
          }
        }
      }
  }

  /** Removing keeps product identifiers unique. */
  lemma RemoveKeepsUnique(s: Store, productId: int, writeOk: bool)
    requires Unique(s.cart)
    ensures Unique(RemoveProduct(s, productId, writeOk).store.cart)
  {
    RemoveIdKeepsUnique(s.cart, productId);
  }

  /** Updating an amount keeps product identifiers unique. */
  lemma UpdateKeepsUnique(s: Store, productId: int, amount: int, stock: Fetch<int>, writeOk: bool)
    requires Unique(s.cart)
    ensures Unique(UpdateProductAmount(s, productId, amount, stock, writeOk).store.cart)
  {
    SetAmountKeepsIds(s.cart, productId, amount);
  }

  /** When storage writes succeed every operation leaves memory and storage
      equal; an operation that neither commits nor fails its write leaves
      both untouched. */
  lemma OperationsKeepMirror(s: Store, productId: int, amount: int, product: Fetch<ProductData>, stock: Fetch<int>, writeOk: bool)
    requires Mirrored(s)
    ensures writeOk ==> Mirrored(UpdateProductAmount(s, productId, amount, stock, writeOk).store)
    ensures writeOk ==> Mirrored(RemoveProduct(s, productId, writeOk).store)
    ensures writeOk ==> Mirrored(AddProduct(s, productId, product, stock, writeOk).store)
    ensures var r := UpdateProductAmount(s, productId, amount, stock, writeOk);
            !Committed(r.outcome) && !r.outcome.WriteFailed? ==> r.store == s
    ensures var r := RemoveProduct(s, productId, writeOk);
            !Committed(r.outcome) && !r.outcome.WriteFailed? ==> r.store == s
    ensures var r := AddProduct(s, productId, product, stock, writeOk);
            !Committed(r.outcome) && !r.outcome.WriteFailed? ==> r.store == s
  {
  }

  /** The worked example: a cart holding product 1 with amount 2 and a stock
      of 5 accepts amount 3 and refuses amount 6 as out of stock. */
  lemma StockExample(p: Product)
    requires p.id == 1 && p.amount == 2
    ensures UpdateProductAmount(Store([p], [p]), 1, 3, Fetched(5), true)
            == Step(Store([p.(amount := 3)], [p.(amount := 3)]), Updated)
    ensures UpdateProductAmount(Store([p], [p]), 1, 6, Fetched(5), true)
            == Step(Store([p], [p]), OutOfStock)
  {
  }
}
