/** The search boxes of the order, user and product lists: each list shows
    the records one of whose fields includes the search term, compared
    without regard to case, in their original order. */
module Search {
  import opened Js
  import opened Lists
  import opened Text
  import OrderReducers
  import ProductStore

  /** A user as the user list shows it. */
  datatype User = User(name: string, email: string, role: Option<string>)

  /** `haystack.toLowerCase().includes(term.toLowerCase())`. */
  predicate Mentions(haystack: string, term: string) {
    Includes(Lower(haystack), Lower(term))
  }

  // ---------------------------------------------------------------------
  // Orders

  /** An order matches when its id's decimal digits include the lower-cased
      term, or its customer's name (empty when absent), or its status,
      mentions the term. */
  predicate OrderMatches(o: OrderReducers.Order, term: string) {
    || Includes(DecimalString(o.id), Lower(term))
    || Mentions(OrElse(o.customerName, ""), term)
    || Mentions(o.status, term)
  }

  function OrderMatcher(term: string): OrderReducers.Order -> bool {
    o => OrderMatches(o, term)
  }

  /** The order list's filter; an absent order list shows nothing. */
  function FilterOrders(orders: Option<seq<OrderReducers.Order>>, term: string): (r: seq<OrderReducers.Order>)
    ensures orders.None? ==> r == []
    ensures orders.Some? ==>
      && IsSubseq(r, orders.value)
      && (forall o :: o in r ==> OrderMatches(o, term))
      && (forall k :: 0 <= k < |orders.value| && OrderMatches(orders.value[k], term) ==> orders.value[k] in r)
      && (forall o :: multiset(r)[o] == if OrderMatches(o, term) then multiset(orders.value)[o] else 0)
  {
    if orders.Some? then
      FilterIsSubseq(orders.value, OrderMatcher(term));
      FilterCounts(orders.value, OrderMatcher(term));
      Filter(orders.value, OrderMatcher(term))
    else []
  }

  // ---------------------------------------------------------------------
  // Users

  /** A user matches on name, e-mail, or role when the user has one. */
  predicate UserMatches(u: User, term: string) {
    || Mentions(u.name, term)
    || Mentions(u.email, term)
    || (Truthy(u.role) && Mentions(u.role.value, term))
  }

  function UserMatcher(term: string): User -> bool {
    u => UserMatches(u, term)
  }

  /** The user list's filter. */
  function FilterUsers(users: seq<User>, term: string): (r: seq<User>)
    ensures IsSubseq(r, users)
    ensures forall u :: u in r ==> UserMatches(u, term)
    ensures forall k :: 0 <= k < |users| && UserMatches(users[k], term) ==> users[k] in r
    ensures forall u :: multiset(r)[u] == if UserMatches(u, term) then multiset(users)[u] else 0
    ensures forall u :: u in r && !Truthy(u.role) ==> Mentions(u.name, term) || Mentions(u.email, term)
  {
    FilterIsSubseq(users, UserMatcher(term));
    FilterCounts(users, UserMatcher(term));
    Filter(users, UserMatcher(term))
  }

  // ---------------------------------------------------------------------
  // Products

  /** A product matches on name, or on category when it has one. */
  predicate ProductMatches(p: ProductStore.Product, term: string) {
    || Mentions(p.name, term)
    || (Truthy(p.category) && Mentions(p.category.value, term))
  }

  function ProductMatcher(term: string): ProductStore.Product -> bool {
    p => ProductMatches(p, term)
  }

  /** The product list's filter. */
  function FilterProducts(products: seq<ProductStore.Product>, term: string): (r: seq<ProductStore.Product>)
    ensures IsSubseq(r, products)
    ensures forall p :: p in r ==> ProductMatches(p, term)
    ensures forall k :: 0 <= k < |products| && ProductMatches(products[k], term) ==> products[k] in r
    ensures forall p :: multiset(r)[p] == if ProductMatches(p, term) then multiset(products)[p] else 0
    ensures forall p :: p in r && !Truthy(p.category) ==> Mentions(p.name, term)
  {
    FilterIsSubseq(products, ProductMatcher(term));
    FilterCounts(products, ProductMatcher(term));
    Filter(products, ProductMatcher(term))
  }

  // ---------------------------------------------------------------------
  // Properties of the three searches

  /** An empty search box shows every record. */
  lemma EmptySearchShowsAll(orders: seq<OrderReducers.Order>, users: seq<User>, products: seq<ProductStore.Product>)
    ensures FilterOrders(Some(orders), "") == orders
    ensures FilterUsers(users, "") == users
    ensures FilterProducts(products, "") == products
  {
    assert Lower("") == "";
    forall k | 0 <= k < |orders| ensures OrderMatcher("")(orders[k]) {
      IncludesEmpty(Lower(orders[k].status));
    }
    FilterKeepsAll(orders, OrderMatcher(""));
    forall k | 0 <= k < |users| ensures UserMatcher("")(users[k]) {
      IncludesEmpty(Lower(users[k].name));
    }
    FilterKeepsAll(users, UserMatcher(""));
    forall k | 0 <= k < |products| ensures ProductMatcher("")(products[k]) {
      IncludesEmpty(Lower(products[k].name));
    }
    FilterKeepsAll(products, ProductMatcher(""));
  }

  /** The case of the search term does not matter. */
  lemma SearchIgnoresCase(orders: Option<seq<OrderReducers.Order>>, users: seq<User>, products: seq<ProductStore.Product>, term: string)
    ensures FilterOrders(orders, Lower(term)) == FilterOrders(orders, term)
    ensures FilterUsers(users, Lower(term)) == FilterUsers(users, term)
    ensures FilterProducts(products, Lower(term)) == FilterProducts(products, term)
  {
    LowerIdempotent(term);
    if orders.Some? {
      FilterAgree(orders.value, OrderMatcher(Lower(term)), OrderMatcher(term));
    }
    FilterAgree(users, UserMatcher(Lower(term)), UserMatcher(term));
    FilterAgree(products, ProductMatcher(Lower(term)), ProductMatcher(term));
  }

  /** Whatever mentions a longer term mentions every part of it. */
  lemma MentionsNarrows(haystack: string, longer: string, shorter: string)
    requires Includes(longer, shorter)
    requires Mentions(haystack, longer)
    ensures Mentions(haystack, shorter)
  {
    LowerKeepsIncludes(longer, shorter);
    IncludesTransitive(Lower(haystack), Lower(longer), Lower(shorter));
  }

  /** Typing more into a search box only narrows the list: every record
      shown for a term is also shown for any part of it. */
  lemma LongerTermNarrows(orders: Option<seq<OrderReducers.Order>>, users: seq<User>, products: seq<ProductStore.Product>, longer: string, shorter: string)
    requires Includes(longer, shorter)
    ensures forall o :: o in FilterOrders(orders, longer) ==> o in FilterOrders(orders, shorter)
    ensures forall u :: u in FilterUsers(users, longer) ==> u in FilterUsers(users, shorter)
    ensures forall p :: p in FilterProducts(products, longer) ==> p in FilterProducts(products, shorter)
  {
    forall o | o in FilterOrders(orders, longer) ensures o in FilterOrders(orders, shorter) {
      if Includes(DecimalString(o.id), Lower(longer)) {
        LowerKeepsIncludes(longer, shorter);
        IncludesTransitive(DecimalString(o.id), Lower(longer), Lower(shorter));
      } else if Mentions(OrElse(o.customerName, ""), longer) {
        MentionsNarrows(OrElse(o.customerName, ""), longer, shorter);
      } else {
        MentionsNarrows(o.status, longer, shorter);
      }
      assert multiset(FilterOrders(orders, shorter))[o] > 0;
    }
    forall u | u in FilterUsers(users, longer) ensures u in FilterUsers(users, shorter) {
      if Mentions(u.name, longer) {
        MentionsNarrows(u.name, longer, shorter);
      } else if Mentions(u.email, longer) {
        MentionsNarrows(u.email, longer, shorter);
      } else {
        MentionsNarrows(u.role.value, longer, shorter);
      }
      assert multiset(FilterUsers(users, shorter))[u] > 0;
    }
    forall p | p in FilterProducts(products, longer) ensures p in FilterProducts(products, shorter) {
      if Mentions(p.name, longer) {
        MentionsNarrows(p.name, longer, shorter);
      } else {
        MentionsNarrows(p.category.value, longer, shorter);
      }
      assert multiset(FilterProducts(products, shorter))[p] > 0;
    }
  }
}
