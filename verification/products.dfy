/** The catalog page: its view state, the catalog load, the search, the cart
    fetch and the add-to-cart policy, each a pure transition that returns the
    next view state and the effects it emits. A network call is represented
    by the way it settled, passed in as an `Outcome`. */
module Products {
  import opened Wrappers
  import opened Cart

  datatype Variant = Warning | Error

  /** A snackbar notification. */
  datatype Notice = Notice(variant: Variant, message: string)

  /** The backend calls the page makes. */
  datatype Request =
    | GetProducts
    | SearchProducts(text: string)
    | GetCart(token: string)
    | PostCart(token: string, body: CartEntry)

  /** What a transition does besides changing the view state. */
  datatype Effect = Send(request: Request) | Notify(notice: Notice)

  /** The page's React state: the complete catalog, the displayed (searched)
      catalog, the sparse cart, and the two display flags. */
  datatype ViewState = ViewState(
    complete: seq<Product>,
    filtered: seq<Product>,
    cart: seq<CartEntry>,
    loading: bool,
    noProductsFound: bool)

  datatype Step = Step(state: ViewState, effects: seq<Effect>)

  /** The state the page starts in, before any call has settled. */
  const Initial := ViewState([], [], [], true, false)

  const LoginMessage := "Login to add an item to the Cart"
  const DuplicateMessage := "Item already in cart. Use the cart sidebar to update quantity or remove item."
  const BackendMessage := "Something went wrong. Check that the backend is running, reachable and returns valid JSON."

  /** A request followed by a notification. */
  function SendThenNotify(request: Request, notice: Notice): (effects: seq<Effect>)
    ensures Requests(effects) == [request] && Notices(effects) == [notice]
  {
    var effects := [Send(request), Notify(notice)];
    assert effects[1..] == [Notify(notice)] && effects[1..][1..] == [];
    assert Requests(effects[1..]) == [] && Notices(effects[1..]) == [notice];
    effects
  }

  /** The requests among the effects, in order. */
  function Requests(effects: seq<Effect>): seq<Request> {
    if effects == [] then []
    else (if effects[0].Send? then [effects[0].request] else []) + Requests(effects[1..])
  }

  /** The notifications among the effects, in order. */
  function Notices(effects: seq<Effect>): seq<Notice> {
    if effects == [] then []
    else (if effects[0].Notify? then [effects[0].notice] else []) + Notices(effects[1..])
  }

  /** JavaScript truthiness of the token read from local storage: it is
      falsy when absent (`null`) and when empty. */
  predicate Truthy(token: Option<string>) {
    token.Some? && token.value != ""
  }

  /** performAPICall: fetch the whole catalog; every failure yields the
      empty list, with the backend's message or the generic one as an error. */
  function PerformAPICall(response: Outcome<seq<Product>>): (r: (seq<Product>, seq<Effect>))
    ensures response.Success? ==> r.0 == response.data && Notices(r.1) == []
    ensures !response.Success? ==> r.0 == [] && |Notices(r.1)| == 1 && Notices(r.1)[0].variant == Error
    ensures response.ResponseError? ==> Notices(r.1) == [Notice(Error, response.message)]
    ensures response.TransportError? ==> Notices(r.1) == [Notice(Error, BackendMessage)]
    ensures Requests(r.1) == [GetProducts]
  {
    match response
    case Success(products) => (products, [Send(GetProducts)])
    case ResponseError(message) => ([], SendThenNotify(GetProducts, Notice(Error, message)))
    case TransportError => ([], SendThenNotify(GetProducts, Notice(Error, BackendMessage)))
  }

  /** The initial load once the catalog call settles: loading ends and both
      the complete and the displayed catalog become the fetched list. */
  function LoadCatalog(s: ViewState, response: Outcome<seq<Product>>): (r: Step)
    ensures !r.state.loading
    ensures r.state.complete == r.state.filtered == (if response.Success? then response.data else [])
    ensures r.state.cart == s.cart && r.state.noProductsFound == s.noProductsFound
    ensures Requests(r.effects) == [GetProducts]
  {
    var (products, effects) := PerformAPICall(response);
    Step(s.(loading := false, complete := products, filtered := products), effects)
  }

  /** fetchCart: without a token nothing is requested; otherwise the cart is
      requested and, if the call succeeds, the local cart becomes the
      server's list. A failure is not caught, so it changes nothing. */
  function FetchCart(s: ViewState, token: Option<string>, response: Outcome<seq<CartEntry>>): (r: Step)
    ensures !Truthy(token) ==> r == Step(s, [])
    ensures Truthy(token) ==> Requests(r.effects) == [GetCart(token.value)] && Notices(r.effects) == []
    ensures r.state == s.(cart := r.state.cart)
    ensures r.state.cart == (if Truthy(token) && response.Success? then response.data else s.cart)
  {
    if !Truthy(token) then Step(s, [])
    else
      var effects := [Send(GetCart(token.value))];
      match response
      case Success(cart) => Step(s.(cart := cart), effects)
      case _ => Step(s, effects)
  }

  /** performSearch: a success shows its list and clears the "no products"
      flag; an error response sets the flag and keeps the displayed list; a
      transport failure only notifies. */
  function PerformSearch(s: ViewState, text: string, response: Outcome<seq<Product>>): (r: Step)
    ensures r.state == s.(filtered := r.state.filtered, noProductsFound := r.state.noProductsFound)
    ensures Requests(r.effects) == [SearchProducts(text)]
    ensures response.Success? ==> r.state.filtered == response.data && !r.state.noProductsFound
    ensures response.ResponseError? ==> r.state.filtered == s.filtered && r.state.noProductsFound
    ensures response.TransportError? ==> r.state == s && Notices(r.effects) == [Notice(Error, BackendMessage)]
    ensures !response.TransportError? ==> Notices(r.effects) == []
  {
    var request := SearchProducts(text);
    match response
    case Success(products) => Step(s.(filtered := products, noProductsFound := false), [Send(request)])
    case ResponseError(_) => Step(s.(noProductsFound := true), [Send(request)])
    case TransportError => Step(s, SendThenNotify(request, Notice(Error, BackendMessage)))
  }

  /** Some entry carries the product id. */
  predicate InCart(items: seq<CartEntry>, productId: string) {
    exists i :: 0 <= i < |items| && items[i].productId == productId
  }

  /** isItemInCart: a pass over every entry that raises a flag when an
      entry carries the product id. */
  method IsItemInCart(items: seq<CartEntry>, productId: string) returns (isPresent: bool)
    ensures isPresent == InCart(items, productId)
  {
    isPresent := false;
    var k := 0;
    while k < |items|
      invariant 0 <= k <= |items|
      invariant isPresent == InCart(items[..k], productId)
    {
      assert items[..k + 1] == items[..k] + [items[k]];
      assert items[..k + 1][k] == items[k];
      if items[k].productId == productId {
        isPresent := true;
      }
      k := k + 1;
    }
    assert items[..k] == items;
  }

  /** addToCart: the login check, then the duplicate check (only when
      `options` is truthy), then one POST of `{productId, qty}` as given; a
      successful reply replaces the whole local cart. */
  function AddToCart(s: ViewState, token: Option<string>, items: seq<CartEntry>, productId: string,
                     qty: int, options: bool, response: Outcome<seq<CartEntry>>): (r: Step)
    ensures r.state == s.(cart := r.state.cart)
    ensures !Truthy(token) ==> r.state == s && Requests(r.effects) == [] && Notices(r.effects) == [Notice(Warning, LoginMessage)]
    ensures Truthy(token) && options && InCart(items, productId) ==>
              r.state == s && Requests(r.effects) == [] && Notices(r.effects) == [Notice(Warning, DuplicateMessage)]
    ensures Requests(r.effects) != [] <==>
              Truthy(token) && !(options && InCart(items, productId))
    ensures Requests(r.effects) != [] ==>
              && Requests(r.effects) == [PostCart(token.value, CartEntry(productId, qty))]
              && Notices(r.effects) == []
              && r.state.cart == (if response.Success? then response.data else s.cart)
  {
    if !Truthy(token) then
      Step(s, [Notify(Notice(Warning, LoginMessage))])
    else if InCart(items, productId) && options then
      Step(s, [Notify(Notice(Warning, DuplicateMessage))])
    else
      var effects := [Send(PostCart(token.value, CartEntry(productId, qty)))];
      match response
      case Success(cart) => Step(s.(cart := cart), effects)
      case _ => Step(s, effects)
  }

  /** Something that happens to the page: a call settling, or a click whose
      call settled with the given reply. */
  datatype Event =
    | CatalogSettled(catalog: Outcome<seq<Product>>)
    | CartSettled(token: Option<string>, reply: Outcome<seq<CartEntry>>)
    | SearchSettled(text: string, catalog: Outcome<seq<Product>>)
      /** "Add to cart" on the `card`-th displayed product. */
    | AddToCartClicked(token: Option<string>, card: nat, reply: Outcome<seq<CartEntry>>)
      /** "+" (`increment`) or "−" on the `line`-th line of the joined cart. */
    | QuantityClicked(token: Option<string>, line: nat, increment: bool, reply: Outcome<seq<CartEntry>>)

  /** Product cards are shown only once loading is over and no search
      reported "no products found". */
  predicate CardsShown(s: ViewState) {
    !s.loading && !s.noProductsFound
  }

  /** One event applied to the page. Clicking a card or a cart line that is
      not displayed does nothing; clicks and cart fetches change only the
      cart, and only a settled catalog call changes the complete catalog or
      ends loading. */
  function Apply(s: ViewState, e: Event): (r: Step)
    ensures !e.CatalogSettled? ==> r.state.loading == s.loading && r.state.complete == s.complete
    ensures e.AddToCartClicked? || e.QuantityClicked? || e.CartSettled? ==> r.state == s.(cart := r.state.cart)
    ensures e.AddToCartClicked? && (!CardsShown(s) || e.card >= |s.filtered|) ==> r == Step(s, [])
    ensures e.QuantityClicked? && e.line >= |GenerateCartItemsFrom(s.cart, s.complete)| ==> r == Step(s, [])
  {
    match e
    case CatalogSettled(catalog) => LoadCatalog(s, catalog)
    case CartSettled(token, reply) => FetchCart(s, token, reply)
    case SearchSettled(text, catalog) => PerformSearch(s, text, catalog)
    case AddToCartClicked(token, card, reply) =>
      if !CardsShown(s) || card >= |s.filtered| then Step(s, [])
      else AddToCart(s, token, s.cart, s.filtered[card].id, 1, true, reply)
    case QuantityClicked(token, line, increment, reply) =>
      QuantityClick(s, token, GenerateCartItemsFrom(s.cart, s.complete), line, increment, reply)
  }

  /** The cart panel's quantity handler: the `line`-th of the joined cart
      lines `items` asks `addToCart` for its "+" or "−" request, passing the
      joined lines as the items to check. A line that is not displayed does
      nothing; without a token the login warning is shown; otherwise, since
      the options are `false`, exactly one POST asks for the line's product
      with its quantity plus or minus one. */
  function QuantityClick(s: ViewState, token: Option<string>, items: seq<CartItem>, line: nat, increment: bool,
                         reply: Outcome<seq<CartEntry>>): (r: Step)
    ensures line >= |items| ==> r == Step(s, [])
    ensures r.state == s.(cart := r.state.cart)
    ensures line < |items| && !Truthy(token) ==>
              r.state == s && Requests(r.effects) == [] && Notices(r.effects) == [Notice(Warning, LoginMessage)]
    ensures line < |items| && Truthy(token) ==>
              && Requests(r.effects)
                 == [PostCart(token.value, CartEntry(items[line].product.id,
                                                     items[line].qty + (if increment then 1 else -1)))]
              && Notices(r.effects) == []
              && r.state.cart == (if reply.Success? then reply.data else s.cart)
  {
    if line >= |items| then Step(s, [])
    else
      var q := ButtonRequest(items[line], increment);
      AddToCart(s, token, Entries(items), q.productId, q.qty, q.preventDuplicate, reply)
  }

  /** The state after a sequence of events. */
  function Run(s: ViewState, events: seq<Event>): ViewState
    decreases |events|
  {
    if events == [] then s else Run(Apply(s, events[0]).state, events[1..])
  }
}
