/**
 * The `cart` table of the remote store, kept in memory, and the three kinds
 * of request the cart provider sends it: a select, an update of `quantity`
 * and a delete, each narrowed by a chain of `.eq(column, value)` filters.
 * Rows are kept in table order, which is also the order a select returns.
 */
module CartTable {
  import opened Common
  import opened Catalog

  /** A row of `cart` (its timestamps are not modelled). */
  datatype CartRow = CartRow(id: LineId, userId: UserId, productId: ProductId, quantity: int)

  /** The `.eq` filters of one request; an absent column is not filtered on. */
  datatype Query = Query(id: Option<LineId>, userId: Option<UserId>, productId: Option<ProductId>)

  function ById(id: LineId): Query { Query(Some(id), None, None) }
  function ByUser(u: UserId): Query { Query(None, Some(u), None) }
  function ByIdAndUser(id: LineId, u: UserId): Query { Query(Some(id), Some(u), None) }
  function ByUserAndProduct(u: UserId, p: ProductId): Query { Query(None, Some(u), Some(p)) }

  predicate Hits(x: CartRow, q: Query) {
    && (q.id.None? || x.id == q.id.value)
    && (q.userId.None? || x.userId == q.userId.value)
    && (q.productId.None? || x.productId == q.productId.value)
  }

  /** `select('*')` under the query's filters: the rows it hits, in table order. */
  function Select(t: seq<CartRow>, q: Query): (r: seq<CartRow>)
    ensures |r| <= |t|
    ensures forall x :: x in r <==> x in t && Hits(x, q)
  {
    if t == [] then []
    else (if Hits(t[0], q) then [t[0]] else []) + Select(t[1..], q)
  }

  /** `update({quantity: n})` under the query's filters. */
  function Update(t: seq<CartRow>, q: Query, n: int): (r: seq<CartRow>)
    ensures |r| == |t|
    ensures forall i :: 0 <= i < |t| ==> r[i] == if Hits(t[i], q) then t[i].(quantity := n) else t[i]
  {
    if t == [] then []
    else [if Hits(t[0], q) then t[0].(quantity := n) else t[0]] + Update(t[1..], q, n)
  }

  /** `delete()` under the query's filters: the rows it misses stay, in order. */
  function Delete(t: seq<CartRow>, q: Query): (r: seq<CartRow>)
    ensures |r| <= |t|
    ensures forall x :: x in r <==> x in t && !Hits(x, q)
  {
    if t == [] then []
    else (if Hits(t[0], q) then [] else [t[0]]) + Delete(t[1..], q)
  }

  /** Two rows may share the table: different ids, and not the same (user, product). */
  predicate Distinct(a: CartRow, b: CartRow) {
    a.id != b.id && !(a.userId == b.userId && a.productId == b.productId)
  }

  /** Line ids are unique, and there is at most one line per (user, product). */
  ghost predicate UniqueKeys(t: seq<CartRow>) {
    forall i, j :: 0 <= i < j < |t| ==> Distinct(t[i], t[j])
  }

  /**
   * The table invariant the provider keeps: unique keys, every quantity at
   * least 1, every id below the next id the store will hand out, and every
   * line referring to an existing product.
   */
  ghost predicate Wellformed(t: seq<CartRow>, products: seq<Product>, nextId: nat) {
    && UniqueKeys(t)
    && forall x :: x in t ==> x.quantity >= 1 && x.id < nextId && WithId(products, x.productId) != []
  }

  /**
   * The write `addToCart` issues once it has read the user's line for p:
   * raise that line's quantity by one, or insert a line of quantity 1.
   */
  function AddLine(t: seq<CartRow>, u: UserId, p: ProductId, freshId: LineId): seq<CartRow>
  {
    var existing := Select(t, ByUserAndProduct(u, p));
    if existing == [] then t + [CartRow(freshId, u, p, 1)]
    else Update(t, ById(existing[0].id), existing[0].quantity + 1)
  }

  /** The two cases of the write, spelled out. */
  lemma AddLineCases(t: seq<CartRow>, u: UserId, p: ProductId, freshId: LineId)
    ensures var existing := Select(t, ByUserAndProduct(u, p));
      && (existing == [] ==> AddLine(t, u, p, freshId) == t + [CartRow(freshId, u, p, 1)])
      && (existing != [] ==> AddLine(t, u, p, freshId) == Update(t, ById(existing[0].id), existing[0].quantity + 1))
  {
  }

  // ---------------------------------------------------------------------------
  // Algebra of the three requests

  lemma {:induction false} SelectAppend(a: seq<CartRow>, b: seq<CartRow>, q: Query)
    ensures Select(a + b, q) == Select(a, q) + Select(b, q)
  {
    if a == [] {
      assert a + b == b;
    } else {
      assert (a + b)[0] == a[0];
      assert (a + b)[1..] == a[1..] + b;
      SelectAppend(a[1..], b, q);
    }
  }

  /** Updating a quantity never changes which rows a select hits. */
  lemma {:induction false} SelectOfUpdate(t: seq<CartRow>, q: Query, n: int, s: Query)
    ensures Select(Update(t, q, n), s) == Update(Select(t, s), q, n)
  {
    if t != [] {
      var u := Update(t, q, n);
      assert u[1..] == Update(t[1..], q, n);
      SelectOfUpdate(t[1..], q, n, s);
    }
  }

  /** Deleting and selecting commute. */
  lemma {:induction false} SelectOfDelete(t: seq<CartRow>, q: Query, s: Query)
    ensures Select(Delete(t, q), s) == Delete(Select(t, s), q)
  {
    if t != [] {
      var head := if Hits(t[0], q) then [] else [t[0]];
      SelectAppend(head, Delete(t[1..], q), s);
      var sel := if Hits(t[0], s) then [t[0]] else [];
      assert Select(t, s) == sel + Select(t[1..], s);
      DeleteAppend(sel, Select(t[1..], s), q);
      SelectOfDelete(t[1..], q, s);
    }
  }

  lemma {:induction false} DeleteAppend(a: seq<CartRow>, b: seq<CartRow>, q: Query)
    ensures Delete(a + b, q) == Delete(a, q) + Delete(b, q)
  {
    if a == [] {
      assert a + b == b;
    } else {
      assert (a + b)[0] == a[0];
      assert (a + b)[1..] == a[1..] + b;
      DeleteAppend(a[1..], b, q);
    }
  }

  /** A delete that hits nothing leaves the table as it was. */
  lemma {:induction false} DeleteMiss(t: seq<CartRow>, q: Query)
    requires forall x :: x in t ==> !Hits(x, q)
    ensures Delete(t, q) == t
  {
    if t != [] {
      assert t[0] in t;
      DeleteMiss(t[1..], q);
      assert [t[0]] + t[1..] == t;
    }
  }

  /** A select that hits nothing returns no rows. */
  lemma {:induction false} SelectMiss(t: seq<CartRow>, q: Query)
    requires forall x :: x in t ==> !Hits(x, q)
    ensures Select(t, q) == []
  {
    if t != [] {
      assert t[0] in t;
      SelectMiss(t[1..], q);
    }
  }

  /** An update that hits nothing leaves the table as it was. */
  lemma UpdateMiss(t: seq<CartRow>, q: Query, n: int)
    requires forall x :: x in t ==> !Hits(x, q)
    ensures Update(t, q, n) == t
  {
    var r := Update(t, q, n);
    forall i | 0 <= i < |t| ensures r[i] == t[i] {
      assert t[i] in t;
    }
  }

  /** Deleting twice under the same filters removes nothing more. */
  lemma {:induction false} DeleteIdempotent(t: seq<CartRow>, q: Query)
    ensures Delete(Delete(t, q), q) == Delete(t, q)
  {
    DeleteMiss(Delete(t, q), q);
  }

  // ---------------------------------------------------------------------------
  // The invariant

  lemma ConsKeys(x: CartRow, s: seq<CartRow>)
    requires forall y :: y in s ==> Distinct(x, y)
    requires UniqueKeys(s)
    ensures UniqueKeys([x] + s)
  {
    var c := [x] + s;
    forall i, j | 0 <= i < j < |c| ensures Distinct(c[i], c[j]) {
      assert c[j] == s[j - 1];
      if i == 0 {
        assert c[j] in s;
      } else {
        assert c[i] == s[i - 1];
      }
    }
  }

  lemma TailKeys(t: seq<CartRow>)
    requires t != [] && UniqueKeys(t)
    ensures UniqueKeys(t[1..])
    ensures forall y :: y in t[1..] ==> Distinct(t[0], y)
  {
    var rest := t[1..];
    forall i, j | 0 <= i < j < |rest| ensures Distinct(rest[i], rest[j]) {
      assert rest[i] == t[i + 1] && rest[j] == t[j + 1];
    }
    forall y | y in rest ensures Distinct(t[0], y) {
      var j :| 0 <= j < |rest| && rest[j] == y;
      assert t[j + 1] == y;
    }
  }

  lemma {:induction false} DeleteKeepsKeys(t: seq<CartRow>, q: Query)
    requires UniqueKeys(t)
    ensures UniqueKeys(Delete(t, q))
  {
    if t != [] {
      TailKeys(t);
      DeleteKeepsKeys(t[1..], q);
      if !Hits(t[0], q) {
        ConsKeys(t[0], Delete(t[1..], q));
      }
    }
  }

  lemma {:induction false} SelectKeepsKeys(t: seq<CartRow>, q: Query)
    requires UniqueKeys(t)
    ensures UniqueKeys(Select(t, q))
  {
    if t != [] {
      TailKeys(t);
      SelectKeepsKeys(t[1..], q);
      if Hits(t[0], q) {
        ConsKeys(t[0], Select(t[1..], q));
      }
    }
  }

  /** A delete keeps the table invariant. */
  lemma DeleteKeepsWellformed(t: seq<CartRow>, q: Query, products: seq<Product>, nextId: nat)
    requires Wellformed(t, products, nextId)
    ensures Wellformed(Delete(t, q), products, nextId)
  {
    DeleteKeepsKeys(t, q);
  }

  /** An update to a quantity of at least 1 keeps the table invariant. */
  lemma UpdateKeepsWellformed(t: seq<CartRow>, q: Query, n: int, products: seq<Product>, nextId: nat)
    requires Wellformed(t, products, nextId)
    requires n >= 1
    ensures Wellformed(Update(t, q, n), products, nextId)
  {
    var r := Update(t, q, n);
    forall i, j | 0 <= i < j < |r| ensures Distinct(r[i], r[j]) {
      assert Distinct(t[i], t[j]);
    }
    forall x | x in r ensures x.quantity >= 1 && x.id < nextId && WithId(products, x.productId) != [] {
      var i :| 0 <= i < |r| && r[i] == x;
      assert t[i] in t;
    }
  }

  /** Under unique keys, a line id names one row. */
  lemma IdDeterminesRow(t: seq<CartRow>, x: CartRow, y: CartRow)
    requires UniqueKeys(t)
    requires x in t && y in t
    ensures x.id == y.id ==> x == y
  {
    var i :| 0 <= i < |t| && t[i] == x;
    var j :| 0 <= j < |t| && t[j] == y;
    if i < j {
      assert Distinct(t[i], t[j]);
    } else if j < i {
      assert Distinct(t[j], t[i]);
    }
  }

  /** Under unique keys, a user holds at most one line for a product. */
  lemma {:induction false} AtMostOneLine(t: seq<CartRow>, u: UserId, p: ProductId)
    requires UniqueKeys(t)
    ensures |Select(t, ByUserAndProduct(u, p))| <= 1
  {
    if t != [] {
      TailKeys(t);
      AtMostOneLine(t[1..], u, p);
      var rest := Select(t[1..], ByUserAndProduct(u, p));
      if Hits(t[0], ByUserAndProduct(u, p)) {
        forall y | y in t[1..] ensures !Hits(y, ByUserAndProduct(u, p)) {
          assert Distinct(t[0], y);
        }
        SelectMiss(t[1..], ByUserAndProduct(u, p));
      }
    }
  }

  // ---------------------------------------------------------------------------
  // What `addToCart`'s write does to the table

  /** With no line for (u, p), the write inserts exactly one line of quantity 1. */
  lemma AddLineInserts(t: seq<CartRow>, u: UserId, p: ProductId, freshId: LineId)
    requires Select(t, ByUserAndProduct(u, p)) == []
    ensures AddLine(t, u, p, freshId) == t + [CartRow(freshId, u, p, 1)]
    ensures Select(AddLine(t, u, p, freshId), ByUserAndProduct(u, p)) == [CartRow(freshId, u, p, 1)]
  {
    SelectAppend(t, [CartRow(freshId, u, p, 1)], ByUserAndProduct(u, p));
  }

  /**
   * With a line l for (u, p), the write raises l's quantity by one, adds no
   * line, and leaves every other line as it was.
   */
  lemma AddLineIncrements(t: seq<CartRow>, u: UserId, p: ProductId, freshId: LineId, l: CartRow)
    requires UniqueKeys(t)
    requires Select(t, ByUserAndProduct(u, p)) == [l]
    ensures Select(AddLine(t, u, p, freshId), ByUserAndProduct(u, p)) == [l.(quantity := l.quantity + 1)]
    ensures |AddLine(t, u, p, freshId)| == |t|
    ensures forall i :: 0 <= i < |t| && t[i].id != l.id ==> AddLine(t, u, p, freshId)[i] == t[i]
  {
    SelectOfUpdate(t, ById(l.id), l.quantity + 1, ByUserAndProduct(u, p));
  }

  /** The write keeps the table invariant, provided the product exists. */
  lemma AddLineKeepsWellformed(t: seq<CartRow>, u: UserId, p: ProductId, products: seq<Product>, nextId: nat)
    requires Wellformed(t, products, nextId)
    requires WithId(products, p) != []
    ensures var existing := Select(t, ByUserAndProduct(u, p));
      Wellformed(AddLine(t, u, p, nextId), products, if existing == [] then nextId + 1 else nextId)
  {
    var existing := Select(t, ByUserAndProduct(u, p));
    if existing == [] {
      var row := CartRow(nextId, u, p, 1);
      var r := t + [row];
      forall i, j | 0 <= i < j < |r| ensures Distinct(r[i], r[j]) {
        if j == |t| {
          assert r[i] in t && r[i] !in existing;
        } else {
          assert Distinct(t[i], t[j]);
        }
      }
    } else {
      assert existing[0] in t;
      UpdateKeepsWellformed(t, ById(existing[0].id), existing[0].quantity + 1, products, nextId);
    }
  }

  /** The write touches only lines of user u: every other user's lines stay as they were. */
  lemma AddLineKeepsOtherUsers(t: seq<CartRow>, u: UserId, p: ProductId, freshId: LineId, v: UserId)
    requires UniqueKeys(t)
    requires v != u
    ensures Select(AddLine(t, u, p, freshId), ByUser(v)) == Select(t, ByUser(v))
  {
    var existing := Select(t, ByUserAndProduct(u, p));
    if existing == [] {
      var row := CartRow(freshId, u, p, 1);
      assert AddLine(t, u, p, freshId) == t + [row];
      SelectAppend(t, [row], ByUser(v));
      assert Select([row], ByUser(v)) == [];
    } else {
      var l := existing[0];
      assert l in existing;
      assert AddLine(t, u, p, freshId) == Update(t, ById(l.id), l.quantity + 1);
      IncrementKeepsOtherUsers(t, l, v);
    }
  }

  lemma IncrementKeepsOtherUsers(t: seq<CartRow>, l: CartRow, v: UserId)
    requires UniqueKeys(t)
    requires l in t && l.userId != v
    ensures Select(Update(t, ById(l.id), l.quantity + 1), ByUser(v)) == Select(t, ByUser(v))
  {
    var mine := Select(t, ByUser(v));
    SelectOfUpdate(t, ById(l.id), l.quantity + 1, ByUser(v));
    forall x | x in mine ensures !Hits(x, ById(l.id)) {
      IdDeterminesRow(t, x, l);
    }
    UpdateMiss(mine, ById(l.id), l.quantity + 1);
  }

  /** A delete scoped to user u leaves every other user's lines as they were. */
  lemma DeleteKeepsOtherUsers(t: seq<CartRow>, q: Query, u: UserId, v: UserId)
    requires q.userId == Some(u) && v != u
    ensures Select(Delete(t, q), ByUser(v)) == Select(t, ByUser(v))
  {
    SelectOfDelete(t, q, ByUser(v));
    DeleteMiss(Select(t, ByUser(v)), q);
  }
}
