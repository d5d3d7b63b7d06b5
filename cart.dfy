/** Cart aggregation (`get_cart_total` and `get_cart_items`,
    server.py:92-106): each cart entry is a product id, resolved against the
    catalog when the cart is read; entries that do not resolve are skipped
    and never fail. */
module Cart {

  import opened Wrappers
  import opened Catalog
  import Text

  /** The products the cart entries resolve to, in cart order, duplicates
      kept, unresolved entries skipped. */
  function Resolved(cart: seq<string>, products: seq<Product>): (r: seq<Product>)
    ensures |r| <= |cart|
    ensures forall k :: 0 <= k < |r| ==> r[k] in products && r[k].id in cart
  {
    if cart == [] then []
    else
      var rest := Resolved(cart[..|cart| - 1], products);
      match Lookup(products, cart[|cart| - 1])
      case Some(p) => rest + [p]
      case None => rest
  }

  /** The sum of the prices of `ps`. */
  function SumPrices(ps: seq<Product>): real {
    if ps == [] then 0.0 else SumPrices(ps[..|ps| - 1]) + ps[|ps| - 1].price
  }

  /** What `get_cart_total` computes: the prices of the resolved entries.
      An empty cart costs nothing, and with a catalog of non-negative
      prices no cart costs less than nothing. */
  function Total(cart: seq<string>, products: seq<Product>): (r: real)
    ensures cart == [] ==> r == 0.0
    ensures (forall k :: 0 <= k < |products| ==> products[k].price >= 0.0) ==> r >= 0.0
  {
    var items := Resolved(cart, products);
    SumPricesNonNegative(items, products);
    SumPrices(items)
  }

  /** Products drawn from a catalog of non-negative prices add up to a
      non-negative sum. */
  lemma {:induction false} SumPricesNonNegative(ps: seq<Product>, products: seq<Product>)
    requires forall k :: 0 <= k < |ps| ==> ps[k] in products
    ensures (forall k :: 0 <= k < |products| ==> products[k].price >= 0.0) ==> SumPrices(ps) >= 0.0
  {
    if ps != [] {
      SumPricesNonNegative(ps[..|ps| - 1], products);
    }
  }

  /** One more cart entry adds its product, or nothing when it does not
      resolve. */
  lemma ResolvedSnoc(cart: seq<string>, id: string, products: seq<Product>)
    ensures Resolved(cart + [id], products)
         == Resolved(cart, products) + (match Lookup(products, id) case Some(p) => [p] case None => [])
  {
    assert (cart + [id])[..|cart|] == cart;
  }

  lemma {:induction false} SumPricesConcat(a: seq<Product>, b: seq<Product>)
    ensures SumPrices(a + b) == SumPrices(a) + SumPrices(b)
  {
    if b != [] {
      SumPricesConcat(a, b[..|b| - 1]);
      assert (a + b)[..|a + b| - 1] == a + b[..|b| - 1];
    } else {
      assert a + b == a;
    }
  }

  /** Resolution works entry by entry: a cart made of two parts resolves
      to the two parts' products, in order. */
  lemma {:induction false} ResolvedConcat(a: seq<string>, b: seq<string>, products: seq<Product>)
    ensures Resolved(a + b, products) == Resolved(a, products) + Resolved(b, products)
  {
    if b == [] {
      assert a + b == a;
    } else {
      var b' := b[..|b| - 1];
      var id := b[|b| - 1];
      assert b == b' + [id];
      assert a + b == (a + b') + [id];
      ResolvedConcat(a, b', products);
      ResolvedSnoc(a + b', id, products);
      ResolvedSnoc(b', id, products);
      Text.ConcatAssoc(Resolved(a, products), Resolved(b', products),
                       match Lookup(products, id) case Some(p) => [p] case None => []);
    }
  }

  /** A stale entry anywhere in the cart changes neither the items nor the
      total. */
  lemma StaleEntryIgnored(a: seq<string>, id: string, b: seq<string>, products: seq<Product>)
    requires Lookup(products, id).None?
    ensures Resolved(a + [id] + b, products) == Resolved(a + b, products)
    ensures Total(a + [id] + b, products) == Total(a + b, products)
  {
    ResolvedConcat(a + [id], b, products);
    ResolvedConcat(a, b, products);
    ResolvedSnoc(a, id, products);
  }

  /** Adding a product that resolves raises the total by its price. */
  lemma TotalSnoc(cart: seq<string>, id: string, products: seq<Product>, p: Product)
    requires Lookup(products, id) == Some(p)
    ensures Total(cart + [id], products) == Total(cart, products) + p.price
  {
    ResolvedSnoc(cart, id, products);
    SumPricesConcat(Resolved(cart, products), [p]);
  }

  /** The total over one more prefix entry: its price when it resolves,
      the same total when it does not. */
  lemma TotalPrefixStep(cart: seq<string>, i: nat, products: seq<Product>)
    requires i < |cart|
    ensures Lookup(products, cart[i]).Some? ==>
              Total(cart[..i + 1], products) == Total(cart[..i], products) + Lookup(products, cart[i]).value.price
    ensures Lookup(products, cart[i]).None? ==> Total(cart[..i + 1], products) == Total(cart[..i], products)
  {
    assert cart[..i + 1] == cart[..i] + [cart[i]];
    ResolvedSnoc(cart[..i], cart[i], products);
    if Lookup(products, cart[i]).Some? {
      TotalSnoc(cart[..i], cart[i], products, Lookup(products, cart[i]).value);
    }
  }

  /** When every entry resolves, the items are the entries' products one for
      one, in cart order and with duplicates. */
  lemma {:induction false} ResolvedAllFound(cart: seq<string>, products: seq<Product>)
    requires forall k :: 0 <= k < |cart| ==> Lookup(products, cart[k]).Some?
    ensures |Resolved(cart, products)| == |cart|
    ensures forall k :: 0 <= k < |cart| ==> Resolved(cart, products)[k] == Lookup(products, cart[k]).value
  {
    if cart != [] {
      var n := |cart| - 1;
      var init := cart[..n];
      assert forall k :: 0 <= k < n ==> init[k] == cart[k];
      ResolvedAllFound(init, products);
      var r, r0 := Resolved(cart, products), Resolved(init, products);
      ResolvedLastFound(cart, products);
      forall k | 0 <= k < |cart|
        ensures r[k] == Lookup(products, cart[k]).value
      {
        if k < n {
          assert r[k] == r0[k];
        }
      }
    }
  }

  /** The step of `ResolvedAllFound`: a last entry that resolves adds its product. */
  lemma ResolvedLastFound(cart: seq<string>, products: seq<Product>)
    requires cart != [] && Lookup(products, cart[|cart| - 1]).Some?
    ensures Resolved(cart, products)
         == Resolved(cart[..|cart| - 1], products) + [Lookup(products, cart[|cart| - 1]).value]
  {
  }

  /** A cart none of whose entries resolve has no items and total zero. */
  lemma {:induction false} ResolvedNoneFound(cart: seq<string>, products: seq<Product>)
    requires forall k :: 0 <= k < |cart| ==> Lookup(products, cart[k]).None?
    ensures Resolved(cart, products) == []
    ensures Total(cart, products) == 0.0
  {
    if cart != [] {
      ResolvedNoneFound(cart[..|cart| - 1], products);
    }
  }
}
