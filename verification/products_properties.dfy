/** Properties of the catalog page's transitions, one call at a time and
    over whole sequences of events. */
module ProductsProperties {
  import opened Wrappers
  import opened Cart
  import opened Products

  /** The cart's "+" and "−" buttons always reach the server: the line is in
      the list checked for duplicates, yet the check is skipped, and exactly
      one POST asks for the line's quantity plus or minus one. The joined
      lines name their own product (`GenerateCartItemsFrom` guarantees it). */
  lemma QuantityButtonsBypassDuplicateCheck(s: ViewState, token: Option<string>, items: seq<CartItem>, line: nat,
                                            increment: bool, reply: Outcome<seq<CartEntry>>)
    requires Truthy(token)
    requires line < |items| && items[line].product.id == items[line].productId
    ensures InCart(Entries(items), items[line].productId)
    ensures Requests(QuantityClick(s, token, items, line, increment, reply).effects)
            == [PostCart(token.value, CartEntry(items[line].productId, items[line].qty + (if increment then 1 else -1)))]
    ensures QuantityClick(s, token, items, line, increment, reply).state
            == (if reply.Success? then s.(cart := reply.data) else s)
  {
    LineIsInItsOwnEntries(items, line);
    ButtonRequestNamesLine(items[line], increment);
    AddToCartWithoutOptionsPosts(s, token, Entries(items), items[line].productId,
                                 items[line].qty + (if increment then 1 else -1), reply);
  }

  /** A line of the joined cart is among the entries the cart passes on. */
  lemma LineIsInItsOwnEntries(items: seq<CartItem>, line: nat)
    requires line < |items|
    ensures InCart(Entries(items), items[line].productId)
  {
    assert Entries(items)[line].productId == items[line].productId;
  }

  /** The request of a joined line's button names the line's own product id. */
  lemma ButtonRequestNamesLine(item: CartItem, increment: bool)
    requires item.product.id == item.productId
    ensures ButtonRequest(item, increment)
            == QuantityRequest(item.productId, item.qty + (if increment then 1 else -1), false)
  {
  }

  /** With a token and falsy options, `addToCart` always posts. */
  lemma AddToCartWithoutOptionsPosts(s: ViewState, token: Option<string>, items: seq<CartEntry>, productId: string,
                                     qty: int, reply: Outcome<seq<CartEntry>>)
    requires Truthy(token)
    ensures Requests(AddToCart(s, token, items, productId, qty, false, reply).effects)
            == [PostCart(token.value, CartEntry(productId, qty))]
    ensures AddToCart(s, token, items, productId, qty, false, reply).state
            == (if reply.Success? then s.(cart := reply.data) else s)
  {
  }

  /** A product card's "Add to cart" sends a request exactly when the cards
      are shown, the token is truthy and the product is not yet in the cart;
      the request then asks for one of that product. */
  lemma AddToCartClickedSendsIff(s: ViewState, token: Option<string>, card: nat, reply: Outcome<seq<CartEntry>>)
    ensures var r := Apply(s, AddToCartClicked(token, card, reply));
            Requests(r.effects) != [] <==>
              CardsShown(s) && card < |s.filtered| && Truthy(token) && !InCart(s.cart, s.filtered[card].id)
    ensures var r := Apply(s, AddToCartClicked(token, card, reply));
            Requests(r.effects) != [] ==> Requests(r.effects) == [PostCart(token.value, CartEntry(s.filtered[card].id, 1))]
    ensures var r := Apply(s, AddToCartClicked(token, card, reply));
            Requests(r.effects) == [] ==> r.state == s
  {
    assert Requests([]) == [];
  }

  /** Three concrete calls: a duplicate add with a token, an add without a
      token, and a decrement of a one-item line to zero. */
  lemma AddToCartExamples(s: ViewState, reply: Outcome<seq<CartEntry>>)
    ensures var r := AddToCart(s, Some("t"), [CartEntry("x", 1)], "x", 1, true, reply);
            r.state == s && Requests(r.effects) == []
    ensures var r := AddToCart(s, None, [], "x", 1, true, reply);
            r.state == s && Requests(r.effects) == [] && Notices(r.effects) == [Notice(Warning, LoginMessage)]
    ensures var r := AddToCart(s, Some("t"), [CartEntry("x", 1)], "x", 0, false, reply);
            && Requests(r.effects) == [PostCart("t", CartEntry("x", 0))]
            && (reply.Success? ==> r.state.cart == reply.data)
  {
    assert [CartEntry("x", 1)][0].productId == "x";
  }

  /** Of two settled searches, a later success decides the displayed list
      and the flag, whatever the earlier one did: the last response wins. */
  lemma SearchLastSuccessWins(s: ViewState, text1: string, response1: Outcome<seq<Product>>,
                              text2: string, products: seq<Product>)
    ensures PerformSearch(PerformSearch(s, text1, response1).state, text2, Success(products)).state
            == PerformSearch(s, text2, Success(products)).state
  {
  }

  /** A search that settles before the catalog load loses its list to it:
      the load resets the displayed list to the complete catalog, but the
      "no products found" flag the search left behind survives the load. */
  lemma LoadCatalogOverridesEarlierSearch(s: ViewState, text: string, response: Outcome<seq<Product>>,
                                          catalog: Outcome<seq<Product>>)
    ensures LoadCatalog(PerformSearch(s, text, response).state, catalog).state.filtered
            == LoadCatalog(s, catalog).state.complete
    ensures LoadCatalog(PerformSearch(s, text, response).state, catalog).state.noProductsFound
            == PerformSearch(s, text, response).state.noProductsFound
  {
  }

  /** The catalog load and the cart fetch of the initial load touch disjoint
      parts of the state, so the order in which they settle does not matter. */
  lemma LoadAndFetchCommute(s: ViewState, catalog: Outcome<seq<Product>>, token: Option<string>,
                            reply: Outcome<seq<CartEntry>>)
    ensures LoadCatalog(FetchCart(s, token, reply).state, catalog).state
            == FetchCart(LoadCatalog(s, catalog).state, token, reply).state
  {
  }

  /** The cart list the server sent back with an event, if it sent one. */
  function ServerCart(e: Event): Option<seq<CartEntry>> {
    match e
    case CartSettled(_, Success(cart)) => Some(cart)
    case AddToCartClicked(_, _, Success(cart)) => Some(cart)
    case QuantityClicked(_, _, _, Success(cart)) => Some(cart)
    case _ => None
  }

  /** The page is loading exactly until the catalog call settles. */
  lemma {:induction false} RunLoadingUntilCatalogSettles(s: ViewState, events: seq<Event>)
    ensures Run(s, events).loading <==> s.loading && forall i :: 0 <= i < |events| ==> !events[i].CatalogSettled?
    decreases |events|
  {
    if events != [] {
      var next := Apply(s, events[0]).state;
      assert next.loading == (s.loading && !events[0].CatalogSettled?);
      RunLoadingUntilCatalogSettles(next, events[1..]);
      assert forall i :: 1 <= i < |events| ==> events[i] == events[1..][i - 1];
    }
  }

  /** From the page's starting state, no product card can be clicked before
      the catalog call settles. */
  lemma CardsHiddenUntilCatalogSettles(events: seq<Event>)
    requires forall i :: 0 <= i < |events| ==> !events[i].CatalogSettled?
    ensures !CardsShown(Run(Initial, events))
  {
    RunLoadingUntilCatalogSettles(Initial, events);
  }

  /** The server is the only source of the cart: after any events the local
      cart is the one the page started with or a list the server sent. */
  lemma {:induction false} RunCartComesFromServer(s: ViewState, events: seq<Event>)
    ensures Run(s, events).cart == s.cart
            || exists i :: 0 <= i < |events| && ServerCart(events[i]) == Some(Run(s, events).cart)
    decreases |events|
  {
    if events != [] {
      var next := Apply(s, events[0]).state;
      assert next.cart == s.cart || ServerCart(events[0]) == Some(next.cart);
      RunCartComesFromServer(next, events[1..]);
      if Run(next, events[1..]).cart != next.cart {
        var i :| 0 <= i < |events[1..]| && ServerCart(events[1..][i]) == Some(Run(next, events[1..]).cart);
        assert events[i + 1] == events[1..][i];
      }
    }
  }

  /** Only the catalog load writes the complete catalog. */
  lemma {:induction false} RunCompleteComesFromLoad(s: ViewState, events: seq<Event>)
    ensures Run(s, events).complete == s.complete
            || exists i :: 0 <= i < |events| && events[i].CatalogSettled?
                 && PerformAPICall(events[i].catalog).0 == Run(s, events).complete
    decreases |events|
  {
    if events != [] {
      var next := Apply(s, events[0]).state;
      assert next.complete == s.complete
             || (events[0].CatalogSettled? && PerformAPICall(events[0].catalog).0 == next.complete);
      RunCompleteComesFromLoad(next, events[1..]);
      if Run(next, events[1..]).complete != next.complete {
        var i :| 0 <= i < |events[1..]| && events[1..][i].CatalogSettled?
                 && PerformAPICall(events[1..][i].catalog).0 == Run(next, events[1..]).complete;
        assert events[i + 1] == events[1..][i];
      }
    }
  }
}
