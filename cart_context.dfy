/**
 * The cart provider of src/contexts/CartContext.tsx: a read-modify-write
 * over the `cart` table followed by a full refetch that replaces the
 * provider's `cartItems`. Each awaited remote call is one atomic step, and
 * which calls fail is given as a `Faults` record.
 *
 * The After* functions state what each operation leaves behind, as a
 * function of the state before it; the methods of CartProvider perform the
 * same steps in place and are proved to end in that state.
 */
module CartContext {
  import opened Common
  import opened Catalog
  import opened CartTable
  import opened Remote

  /** Which remote calls of one operation come back with an error. */
  datatype Faults = Faults(productFails: bool, lookupFails: bool, writeFails: bool, refetchFails: bool)

  /** The cart table, the store's id counter, and the provider's published state. */
  datatype Session = Session(cart: seq<CartRow>, nextId: nat, cartItems: seq<CartItem>, loading: bool)

  ghost predicate Consistent(s: Session, products: seq<Product>) {
    Wellformed(s.cart, products, s.nextId)
  }

  /** The row-to-`CartItem` conversion applied to the fetched rows. */
  function ToItem(x: CartRow, products: seq<Product>): CartItem
    requires WithId(products, x.productId) != []
  {
    CartItem(x.id, x.productId, x.quantity, WithId(products, x.productId)[0])
  }

  /** The user's lines as `fetchCartItems` reads them: `cart` filtered on the user, joined with `products`. */
  function View(t: seq<CartRow>, products: seq<Product>, u: UserId): seq<CartItem>
    requires forall x :: x in t ==> WithId(products, x.productId) != []
  {
    var rows := Select(t, ByUser(u));
    seq(|rows|, i requires 0 <= i < |rows| => ToItem(rows[i], products))
  }

  /** `fetchCartItems`: on success the fetched view replaces `cartItems`; on error it is kept. */
  function AfterFetch(s: Session, products: seq<Product>, user: Option<UserId>, fails: bool): (r: Session)
    requires Consistent(s, products)
    ensures user.None? ==> r == s
    ensures user.Some? ==> r.cart == s.cart && r.nextId == s.nextId && !r.loading
    ensures user.Some? && fails ==> r.cartItems == s.cartItems
    ensures user.Some? && !fails ==> |r.cartItems| == |Select(s.cart, ByUser(user.value))|
    ensures Consistent(r, products)
  {
    if user.None? then s
    else if fails then s.(loading := false)
    else s.(cartItems := View(s.cart, products, user.value), loading := false)
  }

  /**
   * What the refetch at the end of an operation leaves: loading has ended,
   * and `cartItems` is the user's view of the table, or, when the refetch
   * fails, the items shown before.
   */
  ghost predicate Refetched(r: Session, before: seq<CartItem>, products: seq<Product>, u: UserId, fails: bool)
    requires Consistent(r, products)
  {
    && !r.loading
    && (fails ==> r.cartItems == before)
    && (!fails ==> r.cartItems == View(r.cart, products, u))
  }

  /** `addToCart(p)`. */
  function AfterAdd(s: Session, products: seq<Product>, user: Option<UserId>, p: ProductId, f: Faults): (r: Session)
    requires Consistent(s, products)
    ensures user.None? ==> r == s
    ensures user.Some? && (f.productFails || |WithId(products, p)| != 1) ==> r == s.(loading := false)
    ensures user.Some? && (f.lookupFails || f.writeFails) ==> r == s.(loading := false)
    ensures Consistent(r, products)
    ensures user.Some? && !f.productFails && |WithId(products, p)| == 1 && !f.lookupFails && !f.writeFails ==>
      && r.cart == AddLine(s.cart, user.value, p, s.nextId)
      && r.nextId == (if Select(s.cart, ByUserAndProduct(user.value, p)) == [] then s.nextId + 1 else s.nextId)
      && Refetched(r, s.cartItems, products, user.value, f.refetchFails)
  {
    if user.None? then s
    else if f.productFails || |WithId(products, p)| != 1 then s.(loading := false)
    else
      var u := user.value;
      var existing := Select(s.cart, ByUserAndProduct(u, p));
      AtMostOneLine(s.cart, u, p);
      if f.lookupFails || |existing| > 1 || f.writeFails then s.(loading := false)
      else
        AddLineKeepsWellformed(s.cart, u, p, products, s.nextId);
        var written := s.(cart := AddLine(s.cart, u, p, s.nextId),
                          nextId := if existing == [] then s.nextId + 1 else s.nextId);
        AfterFetch(written, products, user, f.refetchFails)
  }

  /** `removeFromCart(id)`: delete the line with that id owned by the user. */
  function AfterRemove(s: Session, products: seq<Product>, user: Option<UserId>, id: LineId, f: Faults): (r: Session)
    requires Consistent(s, products)
    ensures user.None? ==> r == s
    ensures user.Some? && f.writeFails ==> r == s.(loading := false)
    ensures user.Some? && !f.writeFails ==>
      forall x :: x in r.cart <==> x in s.cart && !(x.id == id && x.userId == user.value)
    ensures Consistent(r, products)
    ensures user.Some? && !f.writeFails ==> Refetched(r, s.cartItems, products, user.value, f.refetchFails)
  {
    if user.None? then s
    else if f.writeFails then s.(loading := false)
    else
      DeleteKeepsWellformed(s.cart, ByIdAndUser(id, user.value), products, s.nextId);
      AfterFetch(s.(cart := Delete(s.cart, ByIdAndUser(id, user.value))), products, user, f.refetchFails)
  }

  /** `updateQuantity(id, q)`: negative is refused, 0 removes, anything else is written. */
  function AfterUpdate(s: Session, products: seq<Product>, user: Option<UserId>, id: LineId, q: int, f: Faults): (r: Session)
    requires Consistent(s, products)
    ensures user.None? || q < 0 ==> r == s
    ensures q == 0 ==> r == AfterRemove(s, products, user, id, f)
    ensures user.Some? && q >= 1 && !f.writeFails ==>
      && |r.cart| == |s.cart|
      && forall i :: 0 <= i < |s.cart| ==>
           r.cart[i] == if s.cart[i].id == id && s.cart[i].userId == user.value
                        then s.cart[i].(quantity := q) else s.cart[i]
    ensures user.Some? && q >= 1 && f.writeFails ==> r == s.(loading := false)
    ensures Consistent(r, products)
    ensures user.Some? && q >= 1 && !f.writeFails ==> Refetched(r, s.cartItems, products, user.value, f.refetchFails)
  {
    if user.None? || q < 0 then s
    else if q == 0 then AfterRemove(s, products, user, id, f)
    else if f.writeFails then s.(loading := false)
    else
      UpdateKeepsWellformed(s.cart, ByIdAndUser(id, user.value), q, products, s.nextId);
      AfterFetch(s.(cart := Update(s.cart, ByIdAndUser(id, user.value), q)), products, user, f.refetchFails)
  }

  /** `clearCart`: delete all of the user's lines and empty `cartItems`, without a refetch. */
  function AfterClear(s: Session, products: seq<Product>, user: Option<UserId>, f: Faults): (r: Session)
    requires Consistent(s, products)
    ensures user.None? ==> r == s
    ensures user.Some? && f.writeFails ==> r == s.(loading := false)
    ensures user.Some? && !f.writeFails ==>
      && r.cartItems == [] && !r.loading
      && forall x :: x in r.cart <==> x in s.cart && x.userId != user.value
    ensures Consistent(r, products)
  {
    if user.None? then s
    else if f.writeFails then s.(loading := false)
    else
      DeleteKeepsWellformed(s.cart, ByUser(user.value), products, s.nextId);
      s.(cart := Delete(s.cart, ByUser(user.value)), cartItems := [], loading := false)
  }

  /** The effect keyed on the user: fetch for a signed-in user, otherwise an empty cart. */
  function AfterUserChange(s: Session, products: seq<Product>, user: Option<UserId>, fetchFails: bool): (r: Session)
    requires Consistent(s, products)
    ensures user.None? ==> r.cartItems == [] && !r.loading && r.cart == s.cart
    ensures user.Some? ==> r == AfterFetch(s, products, user, fetchFails)
    ensures Consistent(r, products)
  {
    if user.Some? then AfterFetch(s, products, user, fetchFails)
    else s.(cartItems := [], loading := false)
  }

  // ---------------------------------------------------------------------------
  // Properties of the operations

  /**
   * After a successful refetch `cartItems` lists exactly the user's lines,
   * each with its own id, product id and quantity, joined with its product.
   */
  lemma FetchShowsOwnLines(s: Session, products: seq<Product>, u: UserId)
    requires Consistent(s, products)
    ensures var items := AfterFetch(s, products, Some(u), false).cartItems;
      forall it :: it in items <==>
        exists x :: x in s.cart && x.userId == u && it == ToItem(x, products)
  {
    var rows := Select(s.cart, ByUser(u));
    var items := AfterFetch(s, products, Some(u), false).cartItems;
    forall it | it in items ensures exists x :: x in s.cart && x.userId == u && it == ToItem(x, products) {
      var i :| 0 <= i < |items| && items[i] == it;
      assert rows[i] in rows;
    }
    forall x | x in s.cart && x.userId == u ensures ToItem(x, products) in items {
      assert x in rows;
      var i :| 0 <= i < |rows| && rows[i] == x;
      assert items[i] == ToItem(x, products);
    }
  }

  /**
   * The refetched cart shows at most one item per product, every quantity
   * at least 1, and each item joined with its own product.
   */
  lemma FetchedItemsWellformed(s: Session, products: seq<Product>, u: UserId)
    requires Consistent(s, products)
    ensures var items := AfterFetch(s, products, Some(u), false).cartItems;
      && (forall it :: it in items ==> it.quantity >= 1 && it.product in products && it.product.id == it.productId)
      && (forall i, j :: 0 <= i < j < |items| ==> items[i].productId != items[j].productId)
  {
    var rows := Select(s.cart, ByUser(u));
    var items := AfterFetch(s, products, Some(u), false).cartItems;
    forall it | it in items ensures it.quantity >= 1 && it.product in products && it.product.id == it.productId {
      var i :| 0 <= i < |items| && items[i] == it;
      assert rows[i] in rows;
      assert WithId(products, rows[i].productId)[0] in WithId(products, rows[i].productId);
    }
    SelectKeepsKeys(s.cart, ByUser(u));
    forall i, j | 0 <= i < j < |items| ensures items[i].productId != items[j].productId {
      assert Distinct(rows[i], rows[j]);
      assert rows[i] in rows && rows[j] in rows;
    }
  }

  /** `addToCart(p)` with no line for (u, p) inserts exactly one line, of quantity 1. */
  lemma AddInsertsLine(s: Session, products: seq<Product>, u: UserId, p: ProductId, f: Faults)
    requires Consistent(s, products)
    requires !f.productFails && |WithId(products, p)| == 1 && !f.lookupFails && !f.writeFails
    requires Select(s.cart, ByUserAndProduct(u, p)) == []
    ensures var r := AfterAdd(s, products, Some(u), p, f);
      && r.cart == s.cart + [CartRow(s.nextId, u, p, 1)]
      && Select(r.cart, ByUserAndProduct(u, p)) == [CartRow(s.nextId, u, p, 1)]
  {
    AddLineInserts(s.cart, u, p, s.nextId);
  }

  /**
   * `addToCart(p)` with a line l for (u, p) raises l's quantity by one, adds
   * no line, and leaves every other line as it was.
   */
  lemma AddIncrementsLine(s: Session, products: seq<Product>, u: UserId, p: ProductId, f: Faults, l: CartRow)
    requires Consistent(s, products)
    requires !f.productFails && |WithId(products, p)| == 1 && !f.lookupFails && !f.writeFails
    requires Select(s.cart, ByUserAndProduct(u, p)) == [l]
    ensures var r := AfterAdd(s, products, Some(u), p, f);
      && Select(r.cart, ByUserAndProduct(u, p)) == [l.(quantity := l.quantity + 1)]
      && |r.cart| == |s.cart| && r.nextId == s.nextId
      && forall i :: 0 <= i < |s.cart| && s.cart[i].id != l.id ==> r.cart[i] == s.cart[i]
  {
    AddLineIncrements(s.cart, u, p, s.nextId, l);
  }

  lemma AddKeepsOtherUsers(s: Session, products: seq<Product>, u: UserId, v: UserId, p: ProductId, f: Faults)
    requires Consistent(s, products) && u != v
    ensures Select(AfterAdd(s, products, Some(u), p, f).cart, ByUser(v)) == Select(s.cart, ByUser(v))
  {
    var r := AfterAdd(s, products, Some(u), p, f);
    assert r.cart == s.cart || r.cart == AddLine(s.cart, u, p, s.nextId);
    AddLineKeepsOtherUsers(s.cart, u, p, s.nextId, v);
  }

  lemma UpdateKeepsOtherUsers(s: Session, products: seq<Product>, u: UserId, v: UserId, id: LineId, q: int, f: Faults)
    requires Consistent(s, products) && u != v
    ensures Select(AfterUpdate(s, products, Some(u), id, q, f).cart, ByUser(v)) == Select(s.cart, ByUser(v))
  {
    var r := AfterUpdate(s, products, Some(u), id, q, f);
    if q == 0 {
      RemoveKeepsOtherUsers(s, products, u, v, id, f);
    } else {
      assert r.cart == s.cart || r.cart == Update(s.cart, ByIdAndUser(id, u), q);
      var mine := Select(s.cart, ByUser(v));
      SelectOfUpdate(s.cart, ByIdAndUser(id, u), q, ByUser(v));
      UpdateMiss(mine, ByIdAndUser(id, u), q);
    }
  }

  lemma RemoveKeepsOtherUsers(s: Session, products: seq<Product>, u: UserId, v: UserId, id: LineId, f: Faults)
    requires Consistent(s, products) && u != v
    ensures Select(AfterRemove(s, products, Some(u), id, f).cart, ByUser(v)) == Select(s.cart, ByUser(v))
  {
    var r := AfterRemove(s, products, Some(u), id, f);
    assert r.cart == s.cart || r.cart == Delete(s.cart, ByIdAndUser(id, u));
    DeleteKeepsOtherUsers(s.cart, ByIdAndUser(id, u), u, v);
  }

  lemma ClearKeepsOtherUsers(s: Session, products: seq<Product>, u: UserId, v: UserId, f: Faults)
    requires Consistent(s, products) && u != v
    ensures Select(AfterClear(s, products, Some(u), f).cart, ByUser(v)) == Select(s.cart, ByUser(v))
  {
    var r := AfterClear(s, products, Some(u), f);
    assert r.cart == s.cart || r.cart == Delete(s.cart, ByUser(u));
    DeleteKeepsOtherUsers(s.cart, ByUser(u), u, v);
  }

  /** Removing a line a second time changes nothing more. */
  lemma RemoveIsIdempotent(s: Session, products: seq<Product>, u: UserId, id: LineId, f1: Faults, f2: Faults)
    requires Consistent(s, products)
    requires !f1.writeFails
    ensures var once := AfterRemove(s, products, Some(u), id, f1);
      AfterRemove(once, products, Some(u), id, f2).cart == once.cart
    ensures !f1.refetchFails ==>
      var once := AfterRemove(s, products, Some(u), id, f1);
      AfterRemove(once, products, Some(u), id, f2) == once
  {
    DeleteIdempotent(s.cart, ByIdAndUser(id, u));
  }

  /** After clearing, the user has no lines; a following add gives one line of quantity 1. */
  lemma ClearThenAdd(s: Session, products: seq<Product>, u: UserId, p: ProductId, f: Faults)
    requires Consistent(s, products)
    requires |WithId(products, p)| == 1 && f == Faults(false, false, false, false)
    ensures var cleared := AfterClear(s, products, Some(u), f);
      var added := AfterAdd(cleared, products, Some(u), p, f);
      && Select(cleared.cart, ByUser(u)) == []
      && Select(added.cart, ByUser(u)) == [CartRow(cleared.nextId, u, p, 1)]
      && |added.cartItems| == 1 && added.cartItems[0].productId == p && added.cartItems[0].quantity == 1
  {
    var cleared := AfterClear(s, products, Some(u), f);
    SelectMiss(cleared.cart, ByUser(u));
    SelectMiss(cleared.cart, ByUserAndProduct(u, p));
    AddLineInserts(cleared.cart, u, p, cleared.nextId);
    SelectAppend(cleared.cart, [CartRow(cleared.nextId, u, p, 1)], ByUser(u));
  }

  // ---------------------------------------------------------------------------
  // The provider

  class CartProvider {
    const store: Store
    var user: Option<UserId>
    var cartItems: seq<CartItem>
    var loading: bool

    ghost predicate Valid()
      reads this, store
    {
      store.Valid()
    }

    function State(): Session
      reads this, store
    {
      Session(store.cart, store.nextId, cartItems, loading)
    }

    /** A provider before its first effect has run: no user yet, empty cart, loading. */
    constructor (store: Store)
      requires store.Valid()
      ensures Valid() && this.store == store
      ensures user.None? && cartItems == [] && loading
    {
      this.store := store;
      user := None;
      cartItems := [];
      loading := true;
    }

    /** The signed-in user becomes `u` and the effect keyed on the user runs. */
    method UserChanged(u: Option<UserId>, fetchFails: bool)
      requires Valid()
      modifies this
      ensures Valid() && user == u
      ensures State() == AfterUserChange(old(State()), store.products, u, fetchFails)
    {
      user := u;
      if u.Some? {
        FetchCartItems(fetchFails);
      } else {
        cartItems := [];
        loading := false;
      }
    }

    /** Also what a change notification on the user's cart lines triggers. */
    method FetchCartItems(fails: bool)
      requires Valid()
      modifies this`cartItems, this`loading
      ensures Valid()
      ensures State() == AfterFetch(old(State()), store.products, user, fails)
    {
      if user.None? {
        return;
      }
      loading := true;
      if !fails {
        cartItems := View(store.cart, store.products, user.value);
      }
      loading := false;
    }

    method AddToCart(productId: ProductId, f: Faults)
      requires Valid()
      modifies this`cartItems, this`loading, store`cart, store`nextId
      ensures Valid()
      ensures State() == AfterAdd(old(State()), store.products, user, productId, f)
    {
      if user.None? {
        return;
      }
      var u := user.value;
      loading := true;
      if f.productFails || |WithId(store.products, productId)| != 1 {
        loading := false;
        return;
      }
      var existing := Select(store.cart, ByUserAndProduct(u, productId));
      if f.lookupFails || |existing| > 1 {
        loading := false;
        return;
      }
      if f.writeFails {
        loading := false;
        return;
      }
      AddLineKeepsWellformed(store.cart, u, productId, store.products, store.nextId);
      WriteLine(u, productId);
      FetchCartItems(f.refetchFails);
      loading := false;
    }

    /** The write of `addToCart`: increment the user's line for the product, or insert one. */
    method WriteLine(u: UserId, productId: ProductId)
      modifies store`cart, store`nextId
      ensures store.cart == AddLine(old(store.cart), u, productId, old(store.nextId))
      ensures store.nextId == if Select(old(store.cart), ByUserAndProduct(u, productId)) == []
                              then old(store.nextId) + 1 else old(store.nextId)
    {
      var t, n := store.cart, store.nextId;
      AddLineCases(t, u, productId, n);
      var existing := Select(t, ByUserAndProduct(u, productId));
      if existing == [] {
        store.cart := t + [CartRow(n, u, productId, 1)];
        store.nextId := n + 1;
      } else {
        var line := existing[0];
        store.cart := Update(t, ById(line.id), line.quantity + 1);
      }
    }

    method UpdateQuantity(itemId: LineId, quantity: int, f: Faults)
      requires Valid()
      modifies this`cartItems, this`loading, store`cart
      ensures Valid()
      ensures State() == AfterUpdate(old(State()), store.products, user, itemId, quantity, f)
    {
      if user.None? || quantity < 0 {
        return;
      }
      loading := true;
      if quantity == 0 {
        RemoveFromCart(itemId, f);
        loading := false;
        return;
      }
      if f.writeFails {
        loading := false;
        return;
      }
      UpdateKeepsWellformed(store.cart, ByIdAndUser(itemId, user.value), quantity, store.products, store.nextId);
      store.cart := Update(store.cart, ByIdAndUser(itemId, user.value), quantity);
      FetchCartItems(f.refetchFails);
      loading := false;
    }

    method RemoveFromCart(itemId: LineId, f: Faults)
      requires Valid()
      modifies this`cartItems, this`loading, store`cart
      ensures Valid()
      ensures State() == AfterRemove(old(State()), store.products, user, itemId, f)
    {
      if user.None? {
        return;
      }
      loading := true;
      if f.writeFails {
        loading := false;
        return;
      }
      DeleteKeepsWellformed(store.cart, ByIdAndUser(itemId, user.value), store.products, store.nextId);
      store.cart := Delete(store.cart, ByIdAndUser(itemId, user.value));
      FetchCartItems(f.refetchFails);
      loading := false;
    }

    method ClearCart(f: Faults)
      requires Valid()
      modifies this`cartItems, this`loading, store`cart
      ensures Valid()
      ensures State() == AfterClear(old(State()), store.products, user, f)
    {
      if user.None? {
        return;
      }
      loading := true;
      if f.writeFails {
        loading := false;
        return;
      }
      DeleteKeepsWellformed(store.cart, ByUser(user.value), store.products, store.nextId);
      store.cart := Delete(store.cart, ByUser(user.value));
      cartItems := [];
      loading := false;
    }
  }
}
