/** The server's in-memory state (server.py:56-60) and the routes and
    helpers that read or change it: the cart, the intent mandates, the
    order history and the product last added. The catalog, the clock and
    the random generator are passed in. */
module Server {

  import opened Wrappers
  import opened Text
  import opened Catalog
  import opened Cart
  import opened Mandates
  import opened Intents
  import opened ReplyParser

  /** What `POST /api/cart/add` reports: the product added, the new cart
      size and the intent mandate that fires for it (so "auto_buy_triggered"
      is `mandate.Some?`), or that no product has the id. */
  datatype AddOutcome =
    | Added(product: Product, cartCount: nat, mandate: Option<IntentMandate>)
    | ProductNotFound

  class Shop {
    /** `user_profile`, never changed. */
    const user: UserProfile
    /** `cart`: product ids, in the order they were added, duplicates kept. */
    var cart: seq<string>
    /** `intent_mandates`, in the order they were registered. */
    var intentMandates: seq<IntentMandate>
    /** `order_history`, in the order the orders were created. */
    var orderHistory: seq<Order>
    /** `last_mentioned_product`. */
    var lastMentioned: Option<Product>

    /** Nothing sets a mandate's status after registration, so every
        registered intent mandate stays ACTIVE, and every recorded order is
        CONFIRMED. */
    ghost predicate Valid()
      reads this
    {
      (forall i :: 0 <= i < |intentMandates| ==> intentMandates[i].status == Active)
      && (forall i :: 0 <= i < |orderHistory| ==> orderHistory[i].status == Confirmed)
    }

    /** The state at start-up: everything empty. */
    constructor (user: UserProfile)
      ensures Valid()
      ensures this.user == user && cart == [] && intentMandates == []
      ensures orderHistory == [] && lastMentioned == None
    {
      this.user := user;
      cart := [];
      intentMandates := [];
      orderHistory := [];
      lastMentioned := None;
    }

    // -------------------------------------------------------------------
    // Reading the cart (server.py:92-106)
    // -------------------------------------------------------------------

    /** `get_cart_total`: the prices of the entries that resolve. */
    method CartTotal(products: seq<Product>) returns (total: real)
      ensures total == Total(cart, products)
    {
      total := 0.0;
      var i := 0;
      while i < |cart|
        invariant 0 <= i <= |cart|
        invariant total == Total(cart[..i], products)
      {
        var product := FindProductById(products, cart[i]);
        TotalPrefixStep(cart, i, products);
        if product.Some? {
          total := total + product.value.price;
        }
        i := i + 1;
      }
      assert cart[..i] == cart;
    }

    /** `get_cart_items`: the products the entries resolve to. */
    method CartItems(products: seq<Product>) returns (items: seq<Product>)
      ensures items == Resolved(cart, products)
    {
      items := [];
      var i := 0;
      while i < |cart|
        invariant 0 <= i <= |cart|
        invariant items == Resolved(cart[..i], products)
      {
        var product := FindProductById(products, cart[i]);
        assert cart[..i + 1] == cart[..i] + [cart[i]];
        ResolvedSnoc(cart[..i], cart[i], products);
        if product.Some? {
          items := items + [product.value];
        }
        i := i + 1;
      }
      assert cart[..i] == cart;
    }

    // -------------------------------------------------------------------
    // Intent mandates (server.py:193-227)
    // -------------------------------------------------------------------

    /** `check_intent_mandates`: the first registered mandate that is ACTIVE
        and whose conditions the product meets. In a valid registry every
        mandate is ACTIVE, so only the conditions decide. */
    method CheckIntentMandates(product: Product) returns (r: Option<IntentMandate>)
      ensures r == MatchOf(intentMandates, product)
      ensures Valid() ==>
                forall i :: 0 <= i < |intentMandates| ==>
                  (Matches(intentMandates[i], product)
                   <==> CategoryAllows(intentMandates[i].conditions, product)
                        && PriceAllows(intentMandates[i].conditions, product))
    {
      var i := 0;
      while i < |intentMandates|
        invariant 0 <= i <= |intentMandates|
        invariant forall j :: 0 <= j < i ==> !Matches(intentMandates[j], product)
      {
        var mandate := intentMandates[i];
        var skip := false;
        if mandate.status != Active {
          skip := true;
        } else if mandate.conditions.category.Some?
                  && Lower(mandate.conditions.category.value) != Lower(product.category) {
          skip := true;
        } else if mandate.conditions.maxPrice.Some? && product.price > mandate.conditions.maxPrice.value {
          skip := true;
        }
        if !skip {
          FirstMatchIsLowest(intentMandates, product, i);
          return Some(mandate);
        }
        i := i + 1;
      }
      return None;
    }

    /** `create_intent_mandate`: registers a new ACTIVE mandate after the
        existing ones and returns it. */
    method CreateIntentMandate(conditions: Conditions, idDraws: seq<nat>, createdAt: string,
                               validUntil: string)
      returns (m: IntentMandate)
      requires Valid()
      requires ValidDraws(idDraws, 12, LowerAlnum)
      modifies this
      ensures Valid()
      ensures m == NewIntentMandate(user.userId, conditions, idDraws, createdAt, validUntil)
      ensures intentMandates == old(intentMandates) + [m]
      ensures cart == old(cart) && orderHistory == old(orderHistory) && lastMentioned == old(lastMentioned)
      ensures forall p :: MatchOf(intentMandates, p)
                       == if MatchOf(old(intentMandates), p).Some? then MatchOf(old(intentMandates), p)
                          else if Matches(m, p) then Some(m) else None
    {
      m := NewIntentMandate(user.userId, conditions, idDraws, createdAt, validUntil);
      intentMandates := intentMandates + [m];
      forall p ensures MatchOf(intentMandates, p)
                    == if MatchOf(old(intentMandates), p).Some? then MatchOf(old(intentMandates), p)
                       else if Matches(m, p) then Some(m) else None
      {
        FirstMatchAfterRegister(old(intentMandates), m, p);
      }
    }

    // -------------------------------------------------------------------
    // Changing the cart (server.py:348-376)
    // -------------------------------------------------------------------

    /** `POST /api/cart/add`: appends the id when it names a product,
        remembers that product and reports the intent mandate that fires
        for it; otherwise changes nothing. */
    method AddToCart(products: seq<Product>, productId: string) returns (out: AddOutcome)
      requires Valid()
      modifies this
      ensures Valid()
      ensures intentMandates == old(intentMandates) && orderHistory == old(orderHistory)
      ensures Lookup(products, productId).None? ==>
                out == ProductNotFound && cart == old(cart) && lastMentioned == old(lastMentioned)
      ensures Lookup(products, productId).Some? ==>
                var p := Lookup(products, productId).value;
                && cart == old(cart) + [productId]
                && lastMentioned == Some(p)
                && out == Added(p, |cart|, MatchOf(intentMandates, p))
                && Total(cart, products) == Total(old(cart), products) + p.price
    {
      var product := FindProductById(products, productId);
      if product.Some? {
        TotalSnoc(cart, productId, products, product.value);
        cart := cart + [productId];
        lastMentioned := product;
        var matching := CheckIntentMandates(product.value);
        return Added(product.value, |cart|, matching);
      }
      return ProductNotFound;
    }

    /** The cart change `POST /api/chat` makes from a parsed classifier
        reply: an ADD_TO_CART reply with a product id adds that product as
        the add route does; any other reply leaves the cart alone. The
        parsed id is a non-empty digit string by its type, so the route's
        truthiness test on it is the test that an id was parsed. */
    method ChatAddToCart(products: seq<Product>, reply: Reply) returns (out: Option<AddOutcome>)
      requires Valid()
      modifies this
      ensures Valid()
      ensures intentMandates == old(intentMandates) && orderHistory == old(orderHistory)
      ensures (reply.intent != "ADD_TO_CART" || reply.productId.None?) ==>
                out.None? && cart == old(cart) && lastMentioned == old(lastMentioned)
      ensures reply.intent == "ADD_TO_CART" && reply.productId.Some? ==>
                var id := reply.productId.value;
                && out.Some?
                && (Lookup(products, id).None? ==>
                      out.value == ProductNotFound && cart == old(cart) && lastMentioned == old(lastMentioned))
                && (Lookup(products, id).Some? ==>
                      cart == old(cart) + [id] && lastMentioned == Lookup(products, id)
                      && out.value == Added(Lookup(products, id).value, |cart|,
                                            MatchOf(intentMandates, Lookup(products, id).value)))
    {
      if reply.intent == "ADD_TO_CART" && reply.productId.Some? {
        var added := AddToCart(products, reply.productId.value);
        return Some(added);
      }
      return None;
    }

    /** `POST /api/cart/clear`. */
    method ClearCart()
      requires Valid()
      modifies this
      ensures Valid()
      ensures cart == []
      ensures intentMandates == old(intentMandates) && orderHistory == old(orderHistory)
      ensures lastMentioned == old(lastMentioned)
    {
      cart := [];
    }

    // -------------------------------------------------------------------
    // Checkout (server.py:112-191, 378-417)
    // -------------------------------------------------------------------

    /** `create_cart_mandate`: a snapshot of the resolved cart, its total,
        and the profile's default payment method and address. */
    method CreateCartMandate(products: seq<Product>, idDraws: seq<nat>, createdAt: string)
      returns (r: Result<CartMandate, CheckoutError>)
      requires ValidDraws(idDraws, 12, LowerAlnum)
      ensures r == NewCartMandate(user, cart, products, idDraws, createdAt)
    {
      var items: seq<CartItem> := [];
      var i := 0;
      while i < |cart|
        invariant 0 <= i <= |cart|
        invariant items == Snapshots(Resolved(cart[..i], products))
      {
        var product := FindProductById(products, cart[i]);
        assert cart[..i + 1] == cart[..i] + [cart[i]];
        ResolvedSnoc(cart[..i], cart[i], products);
        if product.Some? {
          var p := product.value;
          assert Resolved(cart[..i + 1], products) == Resolved(cart[..i], products) + [p];
          assert Resolved(cart[..i + 1], products)[..|Resolved(cart[..i + 1], products)| - 1]
              == Resolved(cart[..i], products);
          items := items + [CartItem(p.id, p.name, p.price)];
        }
        i := i + 1;
      }
      assert cart[..i] == cart;
      var total := CartTotal(products);
      var pm := DefaultPaymentMethod(user.paymentMethods);
      if pm.None? {
        return Err(NoDefaultPaymentMethod);
      }
      r := Ok(CartMandate(
        MandateId(idDraws), PendingApproval, createdAt, user.userId, items, total, Currency,
        pm.value, user.shippingAddress, None, None, None));
    }

    /** `POST /api/checkout/mandate`: refuses an empty cart, otherwise
        builds the cart mandate. The test is on the cart's entries, not on
        the products they resolve to. */
    method CreateCheckoutMandate(products: seq<Product>, idDraws: seq<nat>, createdAt: string)
      returns (r: Result<CartMandate, CheckoutError>)
      requires ValidDraws(idDraws, 12, LowerAlnum)
      ensures cart == [] ==> r == Err(CartEmpty)
      ensures cart != [] ==> r == NewCartMandate(user, cart, products, idDraws, createdAt)
    {
      if cart == [] {
        return Err(CartEmpty);
      }
      r := CreateCartMandate(products, idDraws, createdAt);
    }

    /** `create_order`: builds the order and appends it to the history. */
    method CreateOrder(cm: CartMandate, pm: PaymentMandate, idDraws: seq<nat>, createdAt: string,
                       estimatedDelivery: string)
      returns (o: Order)
      requires Valid()
      requires ValidDraws(idDraws, 8, UpperAlnum)
      modifies this
      ensures Valid()
      ensures o == BuildOrder(user, cm, pm, idDraws, createdAt, estimatedDelivery)
      ensures orderHistory == old(orderHistory) + [o]
      ensures cart == old(cart) && intentMandates == old(intentMandates)
      ensures lastMentioned == old(lastMentioned)
    {
      o := BuildOrder(user, cm, pm, idDraws, createdAt, estimatedDelivery);
      orderHistory := orderHistory + [o];
    }

    /** `POST /api/checkout/approve`: with no mandate, an error and no
        change; otherwise sign, pay, record the order, empty the cart. */
    method ApproveCheckout(mandate: Option<CartMandate>, c: ApprovalInputs)
      returns (r: Result<Approval, CheckoutError>)
      requires Valid()
      requires WellFormed(c)
      modifies this
      ensures Valid()
      ensures mandate.None? ==>
                r == Err(NoMandateProvided) && cart == old(cart) && orderHistory == old(orderHistory)
      ensures mandate.Some? ==>
                r == Ok(Checkout(user, mandate.value, c))
                && cart == [] && orderHistory == old(orderHistory) + [r.value.order]
      ensures intentMandates == old(intentMandates) && lastMentioned == old(lastMentioned)
    {
      if mandate.None? {
        return Err(NoMandateProvided);
      }
      var signed := SignMandate(mandate.value, user.userId, c.approvedAt, c.signedAt);
      var payment := ProcessPayment(signed, c.paymentIdDraws, c.processedAt, c.authDraws);
      var order := CreateOrder(signed, payment, c.orderIdDraws, c.orderCreatedAt, c.estimatedDelivery);
      cart := [];
      r := Ok(Approval(signed, payment, order));
    }
  }
}
