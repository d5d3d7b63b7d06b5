/** The mandate chain (server.py:68-79, 112-191): a cart mandate is issued
    PENDING_APPROVAL from a snapshot of the cart, signed to APPROVED, paid by
    a COMPLETED payment mandate, and recorded as a CONFIRMED order whose
    verification block points back at every link of the chain. Random ids
    and codes come in as the draws the random generator made; timestamps
    come in as strings. */
module Mandates {

  import opened Wrappers
  import opened Text
  import opened Fingerprint
  import opened Catalog
  import opened Cart

  // ---------------------------------------------------------------------
  // Random ids and codes (`random.choices(alphabet, k=n)`)
  // ---------------------------------------------------------------------

  const LowerAlnum: string := "abcdefghijklmnopqrstuvwxyz0123456789"
  const UpperAlnum: string := "ABCDEFGHIJKLMNOPQRSTUVWXYZ0123456789"
  const DecimalDigits: string := "0123456789"

  /** `count` draws, each an index into `alphabet`. */
  predicate ValidDraws(draws: seq<nat>, count: nat, alphabet: string) {
    |draws| == count && forall i :: 0 <= i < |draws| ==> draws[i] < |alphabet|
  }

  /** The characters `random.choices` picked, in the order drawn. */
  function Choices(alphabet: string, draws: seq<nat>): (r: string)
    requires forall i :: 0 <= i < |draws| ==> draws[i] < |alphabet|
    ensures |r| == |draws|
    ensures forall i :: 0 <= i < |r| ==> r[i] in alphabet
  {
    seq(|draws|, i requires 0 <= i < |draws| => alphabet[draws[i]])
  }

  /** `generate_mandate_id`: "mandate_" and twelve lowercase letters or digits. */
  function MandateId(draws: seq<nat>): (r: string)
    requires ValidDraws(draws, 12, LowerAlnum)
    ensures |r| == 20 && StartsWith(r, "mandate_")
    ensures forall i :: 8 <= i < |r| ==> r[i] in LowerAlnum
  {
    "mandate_" + Choices(LowerAlnum, draws)
  }

  /** `generate_order_id`: "order_" and eight uppercase letters or digits. */
  function OrderId(draws: seq<nat>): (r: string)
    requires ValidDraws(draws, 8, UpperAlnum)
    ensures |r| == 14 && StartsWith(r, "order_")
    ensures forall i :: 6 <= i < |r| ==> r[i] in UpperAlnum
  {
    "order_" + Choices(UpperAlnum, draws)
  }

  /** The payment authorisation code: exactly six decimal digits. */
  function AuthorizationCode(draws: seq<nat>): (r: string)
    requires ValidDraws(draws, 6, DecimalDigits)
    ensures |r| == 6 && AllDigits(r)
  {
    Choices(DecimalDigits, draws)
  }

  // ---------------------------------------------------------------------
  // The user profile (server.py:27-53)
  // ---------------------------------------------------------------------

  datatype PaymentMethod = PaymentMethod(
    id: string, kind: string, brand: Option<string>, lastFour: Option<string>,
    email: Option<string>, isDefault: bool)

  datatype Address = Address(street: string, city: string, state: string, zip: string, country: string)

  datatype UserProfile = UserProfile(
    userId: string, name: string, email: string,
    paymentMethods: seq<PaymentMethod>, shippingAddress: Address)

  /** The simulated user the server is started with. */
  const DemoProfile: UserProfile := UserProfile(
    "user_12345", "Ayush", "ayush@example.com",
    [ PaymentMethod("pm_1", "credit_card", Some("Visa"), Some("4242"), None, true),
      PaymentMethod("pm_2", "paypal", None, None, Some("ayush@paypal.com"), false) ],
    Address("123 Main Street", "Mumbai", "Maharashtra", "400001", "India"))

  /** `next(pm for pm in payment_methods if pm["is_default"])`: the first
      method flagged default; none when no method is (where Python raises
      StopIteration). */
  function DefaultPaymentMethod(pms: seq<PaymentMethod>): (r: Option<PaymentMethod>)
    ensures r.None? <==> forall i :: 0 <= i < |pms| ==> !pms[i].isDefault
    ensures r.Some? ==> r.value.isDefault && r.value in pms
  {
    if pms == [] then None
    else if pms[0].isDefault then Some(pms[0])
    else DefaultPaymentMethod(pms[1..])
  }

  /** When several methods are flagged default, the earliest one is taken. */
  lemma {:induction false} DefaultPaymentMethodFindsFirst(pms: seq<PaymentMethod>, i: nat)
    requires i < |pms| && pms[i].isDefault
    requires forall j :: 0 <= j < i ==> !pms[j].isDefault
    ensures DefaultPaymentMethod(pms) == Some(pms[i])
  {
    if i > 0 {
      DefaultPaymentMethodFindsFirst(pms[1..], i - 1);
    }
  }

  /** The demo profile has a default method: its Visa card. */
  lemma DemoProfileHasDefault()
    ensures DefaultPaymentMethod(DemoProfile.paymentMethods) == Some(DemoProfile.paymentMethods[0])
  {
  }

  // ---------------------------------------------------------------------
  // Records of the chain
  // ---------------------------------------------------------------------

  /** One line of a cart mandate: a by-value copy of the product's id, name
      and price. */
  datatype CartItem = CartItem(productId: string, name: string, price: real)

  datatype MandateStatus = PendingApproval | Approved

  datatype CartMandate = CartMandate(
    mandateId: string,
    status: MandateStatus,
    createdAt: string,
    userId: string,
    cartItems: seq<CartItem>,
    totalAmount: real,
    currency: string,
    paymentMethod: PaymentMethod,
    shippingAddress: Address,
    signature: Option<string>,      // JSON null until approved
    approvedAt: Option<string>,     // key absent until approved
    userSignature: Option<string>)  // key absent until approved

  datatype PaymentStatus = Completed

  datatype PaymentMandate = PaymentMandate(
    paymentMandateId: string,
    cartMandateId: string,
    amount: real,
    currency: string,
    paymentMethodToken: string,
    merchantId: string,
    processedAt: string,
    status: PaymentStatus,
    authorizationCode: string)

  datatype OrderStatus = Confirmed

  datatype Customer = Customer(userId: string, name: string, email: string)

  datatype PaymentSummary = PaymentSummary(methodType: string, authorizationCode: string, paymentMandateId: string)

  /** The AP2 verification block: the audit trail from an order back to its
      authorisation chain. */
  datatype Verification = Verification(
    cartMandateId: string, cartMandateSignature: Option<string>,
    userSignature: Option<string>, paymentMandateId: string)

  datatype Order = Order(
    orderId: string,
    status: OrderStatus,
    createdAt: string,
    customer: Customer,
    items: seq<CartItem>,
    total: real,
    currency: string,
    shippingAddress: Address,
    payment: PaymentSummary,
    verification: Verification,
    estimatedDelivery: string)

  const Currency: string := "USD"
  const MerchantId: string := "merchant_ucp_demo"

  // ---------------------------------------------------------------------
  // Canonical forms that get signed (keys in sorted order)
  // ---------------------------------------------------------------------

  function PaymentMethodValue(pm: PaymentMethod): Value {
    Obj(OptStr("brand", pm.brand) + OptStr("email", pm.email)
        + [("id", Str(pm.id)), ("is_default", Bool(pm.isDefault))]
        + OptStr("last_four", pm.lastFour) + [("type", Str(pm.kind))])
  }

  function AddressValue(a: Address): Value {
    Obj([("city", Str(a.city)), ("country", Str(a.country)), ("state", Str(a.state)),
         ("street", Str(a.street)), ("zip", Str(a.zip))])
  }

  function CartItemValue(item: CartItem): Value {
    Obj([("name", Str(item.name)), ("price", Num(item.price)), ("product_id", Str(item.productId))])
  }

  function StatusName(s: MandateStatus): string {
    match s
    case PendingApproval => "PENDING_APPROVAL"
    case Approved => "APPROVED"
  }

  function CartMandateValue(m: CartMandate): Value {
    Obj(OptStr("approved_at", m.approvedAt)
        + [ ("cart_items", List(seq(|m.cartItems|, i requires 0 <= i < |m.cartItems| => CartItemValue(m.cartItems[i])))),
            ("created_at", Str(m.createdAt)),
            ("currency", Str(m.currency)),
            ("mandate_id", Str(m.mandateId)),
            ("mandate_type", Str("CART_MANDATE")),
            ("payment_method", PaymentMethodValue(m.paymentMethod)),
            ("shipping_address", AddressValue(m.shippingAddress)),
            ("signature", StrOrNull(m.signature)),
            ("status", Str(StatusName(m.status))),
            ("total_amount", Num(m.totalAmount)),
            ("user_id", Str(m.userId)) ]
        + OptStr("user_signature", m.userSignature))
  }

  // ---------------------------------------------------------------------
  // Cart mandate (server.py:112-139)
  // ---------------------------------------------------------------------

  /** The line a cart mandate keeps for a product. */
  function Snapshot(p: Product): CartItem {
    CartItem(p.id, p.name, p.price)
  }

  /** The lines for a sequence of products, one for one. */
  function Snapshots(ps: seq<Product>): (items: seq<CartItem>)
    ensures |items| == |ps|
    ensures forall i :: 0 <= i < |ps| ==> items[i] == Snapshot(ps[i])
  {
    if ps == [] then [] else Snapshots(ps[..|ps| - 1]) + [Snapshot(ps[|ps| - 1])]
  }

  function SumItemPrices(items: seq<CartItem>): real {
    if items == [] then 0.0 else SumItemPrices(items[..|items| - 1]) + items[|items| - 1].price
  }

  /** The lines of a snapshot add up to the products' prices. */
  lemma {:induction false} SnapshotsTotal(ps: seq<Product>)
    ensures SumItemPrices(Snapshots(ps)) == SumPrices(ps)
  {
    if ps != [] {
      SnapshotsTotal(ps[..|ps| - 1]);
      assert Snapshots(ps)[..|ps| - 1] == Snapshots(ps[..|ps| - 1]);
    }
  }

  /** The mandate's total is the sum of its own lines. */
  predicate TotalMatchesItems(m: CartMandate) {
    m.totalAmount == SumItemPrices(m.cartItems)
  }

  /** The terms a user approves: every field except status and signatures. */
  predicate SameTerms(a: CartMandate, b: CartMandate) {
    a.mandateId == b.mandateId && a.createdAt == b.createdAt && a.userId == b.userId
    && a.cartItems == b.cartItems && a.totalAmount == b.totalAmount && a.currency == b.currency
    && a.paymentMethod == b.paymentMethod && a.shippingAddress == b.shippingAddress
  }

  /** The failures the checkout routes report with `"success": False`, and
      the StopIteration `create_cart_mandate` raises when the profile has no
      default payment method. */
  datatype CheckoutError = CartEmpty | NoMandateProvided | NoDefaultPaymentMethod

  /** `create_cart_mandate`: a PENDING_APPROVAL mandate, unsigned, holding a
      by-value snapshot of the resolved cart whose lines add up to its total,
      paid with the profile's default method and shipped to its address. */
  function NewCartMandate(user: UserProfile, cart: seq<string>, products: seq<Product>,
                          idDraws: seq<nat>, createdAt: string): (r: Result<CartMandate, CheckoutError>)
    requires ValidDraws(idDraws, 12, LowerAlnum)
    ensures r.Err? <==> DefaultPaymentMethod(user.paymentMethods).None?
    ensures r.Err? ==> r.error == NoDefaultPaymentMethod
    ensures r.Ok? ==> var m := r.value;
      && m.status == PendingApproval && m.signature.None?
      && m.approvedAt.None? && m.userSignature.None?
      && m.cartItems == Snapshots(Resolved(cart, products))
      && m.totalAmount == Total(cart, products) && TotalMatchesItems(m)
      && m.paymentMethod == DefaultPaymentMethod(user.paymentMethods).value
      && m.paymentMethod.isDefault
      && m.shippingAddress == user.shippingAddress && m.userId == user.userId
      && StartsWith(m.mandateId, "mandate_") && m.currency == Currency
  {
    SnapshotsTotal(Resolved(cart, products));
    match DefaultPaymentMethod(user.paymentMethods)
    case None => Err(NoDefaultPaymentMethod)
    case Some(pm) =>
      Ok(CartMandate(
        MandateId(idDraws), PendingApproval, createdAt, user.userId,
        Snapshots(Resolved(cart, products)), Total(cart, products), Currency,
        pm, user.shippingAddress, None, None, None))
  }

  /** The checkout route refuses only a cart with no entries: a cart whose
      entries all name products no longer in the catalog still yields a
      mandate, with no lines and a total of zero. */
  lemma StaleCartMandate(user: UserProfile, cart: seq<string>, products: seq<Product>,
                         idDraws: seq<nat>, createdAt: string)
    requires ValidDraws(idDraws, 12, LowerAlnum)
    requires DefaultPaymentMethod(user.paymentMethods).Some?
    requires forall k :: 0 <= k < |cart| ==> Lookup(products, cart[k]).None?
    ensures NewCartMandate(user, cart, products, idDraws, createdAt).Ok?
    ensures NewCartMandate(user, cart, products, idDraws, createdAt).value.cartItems == []
    ensures NewCartMandate(user, cart, products, idDraws, createdAt).value.totalAmount == 0.0
  {
    ResolvedNoneFound(cart, products);
  }

  // ---------------------------------------------------------------------
  // Approval (server.py:141-146)
  // ---------------------------------------------------------------------

  /** `f"sig_{user_id}_{generate_signature({'user': user_id, 'time': t})}"`. */
  function UserSignature(userId: string, time: string): (r: string)
    ensures StartsWith(r, "sig_" + userId + "_")
    ensures |r| == |userId| + 21
  {
    "sig_" + userId + "_" + Sig(Obj([("time", Str(time)), ("user", Str(userId))]))
  }

  /** The mandate `sign_mandate` leaves behind: APPROVED, stamped, signed
      over its approved content, attributed to the user, terms untouched. */
  function ApprovedCopy(m: CartMandate, userId: string, approvedAt: string, signedAt: string): (r: CartMandate)
    ensures r.status == Approved && r.approvedAt == Some(approvedAt)
    ensures r.signature.Some? && |r.signature.value| == 16
    ensures r.userSignature == Some(UserSignature(userId, signedAt))
    ensures SameTerms(r, m)
  {
    var stamped := m.(status := Approved, approvedAt := Some(approvedAt));
    stamped.(signature := Some(Sig(CartMandateValue(stamped))),
             userSignature := Some(UserSignature(userId, signedAt)))
  }

  /** The signature covers the mandate as it stood after the status and
      approval time were set and before the signature fields were written. */
  lemma SignatureCoversApprovedState(m: CartMandate, userId: string, approvedAt: string, signedAt: string)
    ensures var r := ApprovedCopy(m, userId, approvedAt, signedAt);
            r.signature == Some(Sig(CartMandateValue(r.(signature := m.signature, userSignature := m.userSignature))))
  {
  }

  /** `sign_mandate`: the fields are written one after the other, so the
      signature is computed with status and approval time already set. */
  method SignMandate(m: CartMandate, userId: string, approvedAt: string, signedAt: string)
    returns (signed: CartMandate)
    ensures signed == ApprovedCopy(m, userId, approvedAt, signedAt)
  {
    signed := m;
    signed := signed.(status := Approved);
    signed := signed.(approvedAt := Some(approvedAt));
    signed := signed.(signature := Some(Sig(CartMandateValue(signed))));
    signed := signed.(userSignature := Some(UserSignature(userId, signedAt)));
  }

  // ---------------------------------------------------------------------
  // Payment (server.py:148-160)
  // ---------------------------------------------------------------------

  /** `"tok_" + generate_signature(payment_method)`: a function of the
      payment method alone, so equal methods give equal tokens. */
  function PaymentToken(pm: PaymentMethod): (t: string)
    ensures |t| == 20 && StartsWith(t, "tok_")
  {
    "tok_" + Sig(PaymentMethodValue(pm))
  }

  /** The payment pays for exactly this cart mandate. */
  predicate PaysFor(p: PaymentMandate, m: CartMandate) {
    p.cartMandateId == m.mandateId && p.amount == m.totalAmount && p.currency == m.currency
  }

  /** `process_payment`: a COMPLETED payment mandate for the cart mandate.
      The status of `m` is not checked. */
  function ProcessPayment(m: CartMandate, idDraws: seq<nat>, processedAt: string, authDraws: seq<nat>)
    : (p: PaymentMandate)
    requires ValidDraws(idDraws, 12, LowerAlnum) && ValidDraws(authDraws, 6, DecimalDigits)
    ensures p.status == Completed && PaysFor(p, m)
    ensures |p.authorizationCode| == 6 && AllDigits(p.authorizationCode)
    ensures p.paymentMethodToken == PaymentToken(m.paymentMethod)
    ensures StartsWith(p.paymentMandateId, "mandate_") && p.merchantId == MerchantId
  {
    PaymentMandate(
      MandateId(idDraws), m.mandateId, m.totalAmount, m.currency,
      PaymentToken(m.paymentMethod), MerchantId, processedAt, Completed,
      AuthorizationCode(authDraws))
  }

  // ---------------------------------------------------------------------
  // Order (server.py:162-191)
  // ---------------------------------------------------------------------

  /** The order carries the cart mandate's terms and names every link of
      the chain that authorised it. */
  predicate AuditTrail(o: Order, cm: CartMandate, pm: PaymentMandate) {
    o.items == cm.cartItems && o.total == cm.totalAmount && o.currency == cm.currency
    && o.shippingAddress == cm.shippingAddress
    && o.payment == PaymentSummary(cm.paymentMethod.kind, pm.authorizationCode, pm.paymentMandateId)
    && o.verification == Verification(cm.mandateId, cm.signature, cm.userSignature, pm.paymentMandateId)
  }

  /** The order dict `create_order` builds. It does not check that the
      payment mandate names the cart mandate. */
  function BuildOrder(user: UserProfile, cm: CartMandate, pm: PaymentMandate, idDraws: seq<nat>,
                      createdAt: string, estimatedDelivery: string): (o: Order)
    requires ValidDraws(idDraws, 8, UpperAlnum)
    ensures o.status == Confirmed && AuditTrail(o, cm, pm)
    ensures o.customer == Customer(user.userId, user.name, user.email)
    ensures StartsWith(o.orderId, "order_")
  {
    Order(
      OrderId(idDraws), Confirmed, createdAt, Customer(user.userId, user.name, user.email),
      cm.cartItems, cm.totalAmount, cm.currency, cm.shippingAddress,
      PaymentSummary(cm.paymentMethod.kind, pm.authorizationCode, pm.paymentMandateId),
      Verification(cm.mandateId, cm.signature, cm.userSignature, pm.paymentMandateId),
      estimatedDelivery)
  }

  // ---------------------------------------------------------------------
  // The whole approval (server.py:392-417)
  // ---------------------------------------------------------------------

  /** What the random generator and the clock supply to one approval. */
  datatype ApprovalInputs = ApprovalInputs(
    approvedAt: string, signedAt: string,
    paymentIdDraws: seq<nat>, processedAt: string, authDraws: seq<nat>,
    orderIdDraws: seq<nat>, orderCreatedAt: string, estimatedDelivery: string)

  predicate WellFormed(c: ApprovalInputs) {
    ValidDraws(c.paymentIdDraws, 12, LowerAlnum) && ValidDraws(c.authDraws, 6, DecimalDigits)
    && ValidDraws(c.orderIdDraws, 8, UpperAlnum)
  }

  datatype Approval = Approval(signed: CartMandate, payment: PaymentMandate, order: Order)

  /** Sign, pay, order: the three records `approve_checkout` returns. Each
      link names the one before it, the amounts agree along the chain, and a
      mandate whose total matched its lines yields an order whose total
      matches its lines. */
  function Checkout(user: UserProfile, m: CartMandate, c: ApprovalInputs): (a: Approval)
    requires WellFormed(c)
    ensures a.signed == ApprovedCopy(m, user.userId, c.approvedAt, c.signedAt)
    ensures a.payment.status == Completed && PaysFor(a.payment, a.signed)
    ensures a.order.status == Confirmed && AuditTrail(a.order, a.signed, a.payment)
    ensures a.order.verification.cartMandateId == a.payment.cartMandateId == m.mandateId
    ensures a.order.verification.cartMandateSignature.Some?
    ensures a.order.total == a.payment.amount == m.totalAmount
    ensures TotalMatchesItems(m) ==> a.order.total == SumItemPrices(a.order.items)
  {
    var signed := ApprovedCopy(m, user.userId, c.approvedAt, c.signedAt);
    var payment := ProcessPayment(signed, c.paymentIdDraws, c.processedAt, c.authDraws);
    Approval(signed, payment,
             BuildOrder(user, signed, payment, c.orderIdDraws, c.orderCreatedAt, c.estimatedDelivery))
  }
}
