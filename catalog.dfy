/** The product catalog and `find_product_by_id` (server.py:86-90). The
    catalog is read from products.json by the source; here it is an input
    sequence of product records. */
module Catalog {

  import opened Wrappers

  /** A catalog entry. Prices are exact decimals. */
  datatype Product = Product(id: string, name: string, brand: string, category: string, price: real)

  /** The product the linear lookup returns: the first one with that id, or
      none when no product has it. */
  function Lookup(products: seq<Product>, id: string): (r: Option<Product>)
    ensures r.None? <==> forall i :: 0 <= i < |products| ==> products[i].id != id
    ensures r.Some? ==> r.value.id == id && r.value in products
  {
    if products == [] then None
    else if products[0].id == id then Some(products[0])
    else Lookup(products[1..], id)
  }

  /** When several products share an id, the earliest one is found. */
  lemma {:induction false} LookupFindsFirst(products: seq<Product>, id: string, i: nat)
    requires i < |products| && products[i].id == id
    requires forall j :: 0 <= j < i ==> products[j].id != id
    ensures Lookup(products, id) == Some(products[i])
  {
    if i > 0 {
      LookupFindsFirst(products[1..], id, i - 1);
    }
  }

  /** `find_product_by_id`: scans the catalog in order and stops at the
      first product whose id is `id`. */
  method FindProductById(products: seq<Product>, id: string) returns (r: Option<Product>)
    ensures r == Lookup(products, id)
  {
    var i := 0;
    while i < |products|
      invariant 0 <= i <= |products|
      invariant Lookup(products[i..], id) == Lookup(products, id)
    {
      if products[i].id == id {
        return Some(products[i]);
      }
      assert products[i..][1..] == products[i + 1..];
      i := i + 1;
    }
    return None;
  }
}
