/** The pure list logic inside the cart operations: `find`, `filter` and `map`
    over the cart, each keyed by product identifier. */
module CartList {
  import opened CartTypes

  /** `cart.find(p => p.id === id)`, as the position of the first product
      with identifier `id`. */
  function Find(cart: seq<Product>, id: int): (r: Option<nat>)
    ensures r.None? <==> !HasId(cart, id)
    ensures r.Some? ==> r.value < |cart| && cart[r.value].id == id
    ensures r.Some? ==> forall j :: 0 <= j < r.value ==> cart[j].id != id
  {
    if |cart| == 0 then None
    else if cart[0].id == id then Some(0)
    else
      match Find(cart[1..], id)
      case None => None
      case Some(k) => Some(k + 1)
  }

  /** `cart.filter(p => p.id !== id)`: drops every product with identifier
      `id` and keeps the others in their order. */
  function RemoveId(cart: seq<Product>, id: int): (r: seq<Product>)
    ensures |r| <= |cart|
    ensures HasId(cart, id) ==> |r| < |cart|
    ensures !HasId(r, id)
    ensures forall p :: p in r <==> p in cart && p.id != id
    ensures !HasId(cart, id) ==> r == cart
  {
    if |cart| == 0 then []
    else if cart[0].id == id then RemoveId(cart[1..], id)
    else [cart[0]] + RemoveId(cart[1..], id)
  }

  /** `cart.map(p => p.id === id ? {...p, amount} : p)`: gives every product
      with identifier `id` the new amount and leaves the others as they are. */
  function SetAmount(cart: seq<Product>, id: int, amount: int): (r: seq<Product>)
    ensures |r| == |cart|
    ensures forall i :: 0 <= i < |cart| ==>
              r[i] == (if cart[i].id == id then cart[i].(amount := amount) else cart[i])
  {
    if |cart| == 0 then []
    else [if cart[0].id == id then cart[0].(amount := amount) else cart[0]]
         + SetAmount(cart[1..], id, amount)
  }

  /** A cart with a first product is unique exactly when the rest is unique
      and does not repeat the first product's identifier. */
  lemma UniqueCons(p: Product, cart: seq<Product>)
    ensures Unique([p] + cart) <==> !HasId(cart, p.id) && Unique(cart)
  {
    var c := [p] + cart;
    if Unique(c) {
      forall j | 0 <= j < |cart| ensures cart[j].id != p.id {
        assert c[0] == p && c[j + 1] == cart[j];
        assert c[0].id != c[j + 1].id;
      }
      forall i, j | 0 <= i < j < |cart| ensures cart[i].id != cart[j].id {
        assert c[i + 1] == cart[i] && c[j + 1] == cart[j];
      }
    }
    if !HasId(cart, p.id) && Unique(cart) {
      forall i, j | 0 <= i < j < |c| ensures c[i].id != c[j].id {
        assert c[j] == cart[j - 1];
      }
    }
  }

  /** Filtering distributes over concatenation, which is what keeping the
      remaining products in their original order amounts to. */
  lemma {:induction false} RemoveIdAppend(a: seq<Product>, b: seq<Product>, id: int)
    ensures RemoveId(a + b, id) == RemoveId(a, id) + RemoveId(b, id)
  {
    if |a| == 0 {
      assert a + b == b;
    } else {
      assert (a + b)[1..] == a[1..] + b;
      RemoveIdAppend(a[1..], b, id);
    }
  }

  /** In a cart with unique identifiers, removing the identifier found at
      position `k` yields the cart without exactly that product, in order. */
  lemma RemoveIdAt(cart: seq<Product>, id: int, k: nat)
    requires Unique(cart)
    requires k < |cart| && cart[k].id == id
    ensures RemoveId(cart, id) == cart[..k] + cart[k + 1..]
    ensures |RemoveId(cart, id)| == |cart| - 1
  {
    var pre, post := cart[..k], cart[k + 1..];
    assert !HasId(pre, id) by {
      forall j | 0 <= j < |pre| ensures pre[j].id != id {
        assert pre[j] == cart[j];
      }
    }
    assert !HasId(post, id) by {
      forall j | 0 <= j < |post| ensures post[j].id != id {
        assert post[j] == cart[k + 1 + j];
      }
    }
    assert RemoveId([cart[k]], id) == [];
    calc {
      RemoveId(cart, id);
      { assert cart == pre + ([cart[k]] + post); }
      RemoveId(pre + ([cart[k]] + post), id);
      { RemoveIdAppend(pre, [cart[k]] + post, id); }
      RemoveId(pre, id) + RemoveId([cart[k]] + post, id);
      { RemoveIdAppend([cart[k]], post, id); }
      pre + post;
    }
  }

  /** Filtering a cart with unique identifiers keeps them unique. */
  lemma {:induction false} RemoveIdKeepsUnique(cart: seq<Product>, id: int)
    requires Unique(cart)
    ensures Unique(RemoveId(cart, id))
  {
    if |cart| > 0 {
      assert cart == [cart[0]] + cart[1..];
      UniqueCons(cart[0], cart[1..]);
      RemoveIdKeepsUnique(cart[1..], id);
      var rest := RemoveId(cart[1..], id);
      if cart[0].id != id {
        assert !HasId(rest, cart[0].id) by {
          forall j | 0 <= j < |rest| ensures rest[j].id != cart[0].id {
            assert rest[j] in cart[1..];
          }
        }
        UniqueCons(cart[0], rest);
      }
    }
  }

  /** Replacing amounts keeps every identifier at its position, hence keeps
      them unique, and changes nothing when the identifier is absent. */
  lemma SetAmountKeepsIds(cart: seq<Product>, id: int, amount: int)
    ensures forall i :: 0 <= i < |cart| ==> SetAmount(cart, id, amount)[i].id == cart[i].id
    ensures HasId(SetAmount(cart, id, amount), id) <==> HasId(cart, id)
    ensures Unique(cart) <==> Unique(SetAmount(cart, id, amount))
    ensures !HasId(cart, id) ==> SetAmount(cart, id, amount) == cart
  {
  }

  /** In a cart with unique identifiers, the update touches exactly the
      product found at position `k`. */
  lemma SetAmountAt(cart: seq<Product>, id: int, amount: int, k: nat)
    requires Unique(cart)
    requires k < |cart| && cart[k].id == id
    ensures SetAmount(cart, id, amount) == cart[k := cart[k].(amount := amount)]
  {
  }
}
