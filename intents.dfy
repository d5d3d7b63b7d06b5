/** The intent mandate registry (server.py:193-227): standing rules "buy
    when the category is X and the price at most Y", kept in registration
    order, matched first-come-first-served against a product. */
module Intents {

  import opened Wrappers
  import opened Text
  import opened Fingerprint
  import opened Catalog
  import opened Mandates

  /** The conditions mapping: an optional category and an optional
      inclusive price ceiling. */
  datatype Conditions = Conditions(category: Option<string>, maxPrice: Option<real>)

  datatype IntentStatus = Active | Expired | Revoked

  datatype IntentMandate = IntentMandate(
    mandateId: string,
    status: IntentStatus,
    createdAt: string,
    userId: string,
    conditions: Conditions,
    maxAmount: real,
    currency: string,
    validUntil: string,
    signature: string)

  /** The spending ceiling of a mandate without a "max_price" condition. */
  const DefaultMaxAmount: real := 100.0

  function ConditionsValue(c: Conditions): Value {
    Obj(OptStr("category", c.category)
        + (match c.maxPrice case Some(x) => [("max_price", Num(x))] case None => []))
  }

  /** The mandate `create_intent_mandate` registers: ACTIVE, carrying the
      conditions it was given, its ceiling the "max_price" condition or 100,
      signed over the conditions. */
  function NewIntentMandate(userId: string, conditions: Conditions, idDraws: seq<nat>,
                            createdAt: string, validUntil: string): (m: IntentMandate)
    requires ValidDraws(idDraws, 12, LowerAlnum)
    ensures m.status == Active && m.conditions == conditions && m.userId == userId
    ensures conditions.maxPrice.Some? ==> m.maxAmount == conditions.maxPrice.value
    ensures conditions.maxPrice.None? ==> m.maxAmount == DefaultMaxAmount
    ensures |m.signature| == 16 && m.signature == Sig(ConditionsValue(conditions))
    ensures StartsWith(m.mandateId, "mandate_") && m.currency == Currency
  {
    IntentMandate(
      MandateId(idDraws), Active, createdAt, userId, conditions,
      match conditions.maxPrice case Some(x) => x case None => DefaultMaxAmount,
      Currency, validUntil, Sig(ConditionsValue(conditions)))
  }

  /** Category condition: absent, or equal to the product's category once
      both are lower-cased. */
  predicate CategoryAllows(c: Conditions, p: Product)
    ensures c.category.None? ==> CategoryAllows(c, p)
    ensures c.category.Some? && Upper(c.category.value) == Upper(p.category) ==> CategoryAllows(c, p)
  {
    if c.category.None? then true
    else
      LowerOfUpper(c.category.value);
      LowerOfUpper(p.category);
      Lower(c.category.value) == Lower(p.category)
  }

  /** Price condition: absent, or an inclusive upper bound on the price. */
  predicate PriceAllows(c: Conditions, p: Product)
    ensures c.maxPrice == Some(p.price) ==> PriceAllows(c, p)
    ensures c.maxPrice.Some? && c.maxPrice.value < p.price ==> !PriceAllows(c, p)
  {
    c.maxPrice.None? || p.price <= c.maxPrice.value
  }

  /** A mandate fires for a product when it is ACTIVE and every condition
      it states holds. */
  predicate Matches(m: IntentMandate, p: Product)
    ensures m.status != Active ==> !Matches(m, p)
    ensures m.status == Active && m.conditions == Conditions(None, None) ==> Matches(m, p)
  {
    m.status == Active && CategoryAllows(m.conditions, p) && PriceAllows(m.conditions, p)
  }

  /** The position of the mandate `check_intent_mandates` returns: the
      lowest index that matches, none when no mandate matches. */
  function FirstMatch(ms: seq<IntentMandate>, p: Product): (r: Option<nat>)
    ensures r.None? <==> forall i :: 0 <= i < |ms| ==> !Matches(ms[i], p)
    ensures r.Some? ==> r.value < |ms| && Matches(ms[r.value], p)
    ensures r.Some? ==> forall j :: 0 <= j < r.value ==> !Matches(ms[j], p)
  {
    if ms == [] then None
    else if Matches(ms[0], p) then Some(0)
    else match FirstMatch(ms[1..], p)
      case None => None
      case Some(k) => Some(k + 1)
  }

  /** The mandate at that position. */
  function MatchOf(ms: seq<IntentMandate>, p: Product): (r: Option<IntentMandate>)
    ensures r.None? <==> forall i :: 0 <= i < |ms| ==> !Matches(ms[i], p)
    ensures r.Some? ==> r.value in ms && Matches(r.value, p)
  {
    match FirstMatch(ms, p)
    case None => None
    case Some(k) => Some(ms[k])
  }

  /** The first match is the lowest matching position, and only that. */
  lemma FirstMatchIsLowest(ms: seq<IntentMandate>, p: Product, k: nat)
    requires k < |ms| && Matches(ms[k], p)
    requires forall j :: 0 <= j < k ==> !Matches(ms[j], p)
    ensures FirstMatch(ms, p) == Some(k)
  {
  }

  /** Registering a mandate never takes precedence over an earlier one that
      already matches: the new mandate is returned only when nothing before
      it matches. */
  lemma FirstMatchAfterRegister(ms: seq<IntentMandate>, m: IntentMandate, p: Product)
    ensures FirstMatch(ms + [m], p)
         == if FirstMatch(ms, p).Some? then FirstMatch(ms, p)
            else if Matches(m, p) then Some(|ms|) else None
  {
    var ms' := ms + [m];
    assert forall i :: 0 <= i < |ms| ==> ms'[i] == ms[i];
    match FirstMatch(ms, p)
    case Some(k) =>
      FirstMatchIsLowest(ms', p, k);
    case None =>
      if Matches(m, p) {
        FirstMatchIsLowest(ms', p, |ms|);
      } else {
        assert forall i :: 0 <= i < |ms'| ==> !Matches(ms'[i], p);
      }
  }

  /** The category is compared without regard to case: an upper-cased
      product category matches the same mandates. */
  lemma MatchIgnoresCategoryCase(m: IntentMandate, p: Product)
    ensures Matches(m, p) <==> Matches(m, p.(category := Upper(p.category)))
  {
    LowerOfUpper(p.category);
  }
}
