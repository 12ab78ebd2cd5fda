/** Properties of the cart join and of the cart totals. */
module CartProperties {
  import opened Wrappers
  import opened Cart

  /** The lookup takes the FIRST product carrying the id, whatever follows it. */
  lemma {:induction false} LookupIsFirstMatch(products: seq<Product>, id: string, i: nat)
    requires i < |products| && products[i].id == id
    requires forall j :: 0 <= j < i ==> products[j].id != id
    ensures Lookup(products, id) == Some(products[i])
  {
    MatchingHead(products, id, i);
  }

  lemma {:induction false} MatchingHead(products: seq<Product>, id: string, i: nat)
    requires i < |products| && products[i].id == id
    requires forall j :: 0 <= j < i ==> products[j].id != id
    ensures |Matching(products, id)| > 0 && Matching(products, id)[0] == products[i]
  {
    if i > 0 {
      MatchingHead(products[1..], id, i - 1);
    }
  }

  /** Each joined item carries the first catalog product with its id. */
  lemma GeneratedItemIsFirstMatch(cart: seq<CartEntry>, products: seq<Product>, k: nat, i: nat)
    requires k < |GenerateCartItemsFrom(cart, products)|
    requires i < |products| && products[i].id == GenerateCartItemsFrom(cart, products)[k].productId
    requires forall j :: 0 <= j < i ==> products[j].id != products[i].id
    ensures GenerateCartItemsFrom(cart, products)[k].product == products[i]
  {
    LookupIsFirstMatch(products, products[i].id, i);
  }

  /** Stripping the product data off the joined cart gives back exactly the
      cart entries that name a catalog product, with their quantities, in
      cart order: unknown entries are dropped and nothing else changes. */
  lemma {:induction false} GenerateCartItemsFromKeepsKnownEntries(cart: seq<CartEntry>, products: seq<Product>)
    ensures Entries(GenerateCartItemsFrom(cart, products)) == KnownEntries(cart, products)
  {
    if cart != [] {
      var rest := GenerateCartItemsFrom(cart[1..], products);
      GenerateCartItemsFromKeepsKnownEntries(cart[1..], products);
      var found := Lookup(products, cart[0].productId);
      if found.Some? {
        var item := CartItem(found.value, cart[0].productId, cart[0].qty);
        assert GenerateCartItemsFrom(cart, products) == [item] + rest;
        assert KnownEntries(cart, products) == [cart[0]] + KnownEntries(cart[1..], products);
        EntriesCons(item, rest);
      } else {
        assert GenerateCartItemsFrom(cart, products) == rest;
        assert KnownEntries(cart, products) == KnownEntries(cart[1..], products);
      }
    }
  }

  lemma EntriesCons(item: CartItem, rest: seq<CartItem>)
    ensures Entries([item] + rest) == [item.Entry()] + Entries(rest)
  {
    var l := [item] + rest;
    assert forall k :: 0 < k < |l| ==> l[k] == rest[k - 1];
  }

  lemma {:induction false} KnownEntriesMembership(cart: seq<CartEntry>, products: seq<Product>, e: CartEntry)
    ensures e in KnownEntries(cart, products) <==> e in cart && InCatalog(products, e.productId)
  {
    if cart != [] {
      KnownEntriesMembership(cart[1..], products, e);
      assert cart == [cart[0]] + cart[1..];
    }
  }

  /** A cart entry shows up in the joined cart (same product id and
      quantity) exactly when it is in the cart and its product is in the catalog. */
  lemma GenerateCartItemsFromMembership(cart: seq<CartEntry>, products: seq<Product>, e: CartEntry)
    ensures e in Entries(GenerateCartItemsFrom(cart, products)) <==> e in cart && InCatalog(products, e.productId)
  {
    GenerateCartItemsFromKeepsKnownEntries(cart, products);
    KnownEntriesMembership(cart, products, e);
  }

  /** When every entry names a catalog product, no entry is dropped. */
  lemma GenerateCartItemsFromAllKnown(cart: seq<CartEntry>, products: seq<Product>)
    requires forall k :: 0 <= k < |cart| ==> InCatalog(products, cart[k].productId)
    ensures |GenerateCartItemsFrom(cart, products)| == |cart|
    ensures Entries(GenerateCartItemsFrom(cart, products)) == cart
  {
    GenerateCartItemsFromKeepsKnownEntries(cart, products);
    KnownEntriesAllKnown(cart, products);
  }

  lemma {:induction false} KnownEntriesAllKnown(cart: seq<CartEntry>, products: seq<Product>)
    requires forall k :: 0 <= k < |cart| ==> InCatalog(products, cart[k].productId)
    ensures KnownEntries(cart, products) == cart
  {
    if cart != [] {
      assert InCatalog(products, cart[0].productId);
      KnownEntriesAllKnown(cart[1..], products);
    }
  }

  /** The join works entry by entry: it distributes over concatenation of carts. */
  lemma {:induction false} GenerateCartItemsFromAppend(a: seq<CartEntry>, b: seq<CartEntry>, products: seq<Product>)
    ensures GenerateCartItemsFrom(a + b, products) == GenerateCartItemsFrom(a, products) + GenerateCartItemsFrom(b, products)
  {
    if a == [] {
      assert a + b == b;
    } else {
      assert (a + b)[1..] == a[1..] + b;
      GenerateCartItemsFromAppend(a[1..], b, products);
    }
  }

  /** The cart value is additive over concatenation. */
  lemma {:induction false} CartValueAppend(a: seq<CartItem>, b: seq<CartItem>)
    ensures CartValue(a + b) == CartValue(a) + CartValue(b)
  {
    if b == [] {
      assert a + b == a;
    } else {
      assert (a + b)[..|a + b| - 1] == a + b[..|b| - 1];
      CartValueAppend(a, b[..|b| - 1]);
    }
  }

  /** The item count is additive over concatenation. */
  lemma {:induction false} ItemCountAppend(a: seq<CartItem>, b: seq<CartItem>)
    ensures ItemCount(a + b) == ItemCount(a) + ItemCount(b)
  {
    if b == [] {
      assert a + b == a;
    } else {
      assert (a + b)[..|a + b| - 1] == a + b[..|b| - 1];
      ItemCountAppend(a, b[..|b| - 1]);
    }
  }

  /** With non-negative costs and quantities the cart value is non-negative. */
  lemma {:induction false} CartValueNonNegative(items: seq<CartItem>)
    requires forall k :: 0 <= k < |items| ==> items[k].product.cost >= 0 && items[k].qty >= 0
    ensures CartValue(items) >= 0
  {
    if items != [] {
      CartValueNonNegative(items[..|items| - 1]);
    }
  }

  /** With non-negative quantities the item count is non-negative. */
  lemma {:induction false} ItemCountNonNegative(items: seq<CartItem>)
    requires forall k :: 0 <= k < |items| ==> items[k].qty >= 0
    ensures ItemCount(items) >= 0
  {
    if items != [] {
      ItemCountNonNegative(items[..|items| - 1]);
    }
  }

  /** The "+" and "−" buttons undo each other: pressing one on the line the
      other produced asks again for the line's original quantity. */
  lemma QuantityButtonsUndoEachOther(item: CartItem)
    ensures HandleDelete(item.(qty := HandleAdd(item).qty)) == QuantityRequest(item.product.id, item.qty, false)
    ensures HandleAdd(item.(qty := HandleDelete(item).qty)) == QuantityRequest(item.product.id, item.qty, false)
  {
  }

  /** Catalog a:100, b:50 and cart a×2, b×1: value 250, three items. */
  lemma TotalsExample()
    ensures var products := [Product("a", "", "", 100, 0, ""), Product("b", "", "", 50, 0, "")];
            var items := GenerateCartItemsFrom([CartEntry("a", 2), CartEntry("b", 1)], products);
            CartValue(items) == 250 && ItemCount(items) == 3
  {
    var pa := Product("a", "", "", 100, 0, "");
    var pb := Product("b", "", "", 50, 0, "");
    var products := [pa, pb];
    LookupIsFirstMatch(products, "a", 0);
    LookupIsFirstMatch(products, "b", 1);
    var cart := [CartEntry("a", 2), CartEntry("b", 1)];
    assert GenerateCartItemsFrom(cart[1..], products) == [CartItem(pb, "b", 1)] + GenerateCartItemsFrom(cart[2..], products);
    var items := GenerateCartItemsFrom(cart, products);
    assert items == [CartItem(pa, "a", 2), CartItem(pb, "b", 1)];
    assert items[..1] == [CartItem(pa, "a", 2)];
    assert items[..1][..0] == [];
    assert CartValue(items[..1]) == CartValue([]) + 200;
    assert ItemCount(items[..1]) == ItemCount([]) + 2;
  }
}
