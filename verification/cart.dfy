/** The pure cart logic of the storefront: joining the server's sparse cart
    against the product catalog, and the aggregates shown under the cart. */
module Cart {
  import opened Wrappers

  /** A catalog product; `id` is the backend's `_id`. Costs are whole numbers here. */
  datatype Product = Product(id: string, name: string, category: string, cost: int, rating: int, image: string)

  /** One line of the server's sparse cart. */
  datatype CartEntry = CartEntry(productId: string, qty: int)

  /** A cart line joined with its product: the product's fields plus the
      entry's `productId` and `qty`. */
  datatype CartItem = CartItem(product: Product, productId: string, qty: int) {
    /** The sparse entry this item carries. */
    function Entry(): CartEntry {
      CartEntry(productId, qty)
    }
  }

  /** Some product of the catalog has id `id`. */
  predicate InCatalog(products: seq<Product>, id: string) {
    exists i :: 0 <= i < |products| && products[i].id == id
  }

  /** The products whose id is `id`, in catalog order (the `filter` of the lookup). */
  function Matching(products: seq<Product>, id: string): (r: seq<Product>)
    ensures |r| <= |products|
    ensures forall k :: 0 <= k < |r| ==> r[k].id == id && r[k] in products
    ensures |r| > 0 <==> InCatalog(products, id)
  {
    if products == [] then []
    else
      var rest := Matching(products[1..], id);
      assert InCatalog(products, id) <==> products[0].id == id || InCatalog(products[1..], id) by {
        if InCatalog(products[1..], id) {
          var i :| 0 <= i < |products[1..]| && products[1..][i].id == id;
          assert products[i + 1].id == id;
        }
        if InCatalog(products, id) && products[0].id != id {
          var i :| 0 <= i < |products| && products[i].id == id;
          assert products[1..][i - 1].id == id;
        }
      }
      if products[0].id == id then [products[0]] + rest else rest
  }

  /** The product a cart entry resolves to: the head of the matching
      products, or nothing when no product has that id. */
  function Lookup(products: seq<Product>, id: string): (r: Option<Product>)
    ensures r.None? <==> !InCatalog(products, id)
    ensures r.Some? ==> r.value.id == id && r.value in products
  {
    var matches := Matching(products, id);
    if |matches| > 0 then Some(matches[0]) else None
  }

  /** generateCartItemsFrom: every cart entry whose product is in the catalog,
      in cart order, joined with the first product carrying its id. */
  function GenerateCartItemsFrom(cart: seq<CartEntry>, products: seq<Product>): (r: seq<CartItem>)
    ensures |r| <= |cart|
    ensures cart == [] || products == [] ==> r == []
    ensures forall k :: 0 <= k < |r| ==> r[k].productId == r[k].product.id
    ensures forall k {:trigger Lookup(products, r[k].productId)} ::
              0 <= k < |r| ==> Lookup(products, r[k].productId) == Some(r[k].product)
  {
    if cart == [] then []
    else
      var rest := GenerateCartItemsFrom(cart[1..], products);
      match Lookup(products, cart[0].productId)
      case None => rest
      case Some(p) => [CartItem(p, cart[0].productId, cart[0].qty)] + rest
  }

  /** The sparse entries carried by a list of cart items, in order. */
  function Entries(items: seq<CartItem>): seq<CartEntry> {
    seq(|items|, k requires 0 <= k < |items| => items[k].Entry())
  }

  /** The cart entries that name a catalog product, in cart order. */
  function KnownEntries(cart: seq<CartEntry>, products: seq<Product>): seq<CartEntry> {
    if cart == [] then []
    else if InCatalog(products, cart[0].productId) then [cart[0]] + KnownEntries(cart[1..], products)
    else KnownEntries(cart[1..], products)
  }

  /** Sum of `cost * qty` over the items. */
  function CartValue(items: seq<CartItem>): int {
    if items == [] then 0
    else CartValue(items[..|items| - 1]) + items[|items| - 1].product.cost * items[|items| - 1].qty
  }

  /** Sum of `qty` over the items. */
  function ItemCount(items: seq<CartItem>): int {
    if items == [] then 0
    else ItemCount(items[..|items| - 1]) + items[|items| - 1].qty
  }

  /** getTotalCartValue: the running total of `cost * qty` over the items. */
  method GetTotalCartValue(items: seq<CartItem>) returns (total: int)
    ensures total == CartValue(items)
  {
    total := 0;
    var i := 0;
    while i < |items|
      invariant 0 <= i <= |items|
      invariant total == CartValue(items[..i])
    {
      assert items[..i + 1][..i] == items[..i];
      total := total + items[i].product.cost * items[i].qty;
      i := i + 1;
    }
    assert items[..i] == items;
  }

  /** getTotalItems: the running total of `qty` over the items. */
  method GetTotalItems(items: seq<CartItem>) returns (count: int)
    ensures count == ItemCount(items)
  {
    count := 0;
    var i := 0;
    while i < |items|
      invariant 0 <= i <= |items|
      invariant count == ItemCount(items[..i])
    {
      assert items[..i + 1][..i] == items[..i];
      count := count + items[i].qty;
      i := i + 1;
    }
    assert items[..i] == items;
  }

  /** What a quantity button of the cart passes to the quantity handler:
      the product id, the requested quantity and the duplicate-check option. */
  datatype QuantityRequest = QuantityRequest(productId: string, qty: int, preventDuplicate: bool)

  /** The "+" button of a cart line: one more of the line's product, with
      the duplicate check off. */
  function HandleAdd(item: CartItem): (r: QuantityRequest)
    ensures r.productId == item.product.id && !r.preventDuplicate
    ensures r.qty > item.qty && r.qty - item.qty == 1
  {
    QuantityRequest(item.product.id, item.qty + 1, false)
  }

  /** The "−" button of a cart line: one fewer of the line's product, with
      the duplicate check off. */
  function HandleDelete(item: CartItem): (r: QuantityRequest)
    ensures r.productId == item.product.id && !r.preventDuplicate
    ensures r.qty < item.qty && item.qty - r.qty == 1
  {
    QuantityRequest(item.product.id, item.qty - 1, false)
  }

  /** The request of a cart line's "+" (`increment`) or "−" button. */
  function ButtonRequest(item: CartItem, increment: bool): (r: QuantityRequest)
    ensures r.productId == item.product.id && !r.preventDuplicate
    ensures increment <==> r.qty > item.qty
    ensures r.qty == item.qty + 1 || r.qty == item.qty - 1
  {
    if increment then HandleAdd(item) else HandleDelete(item)
  }
}
