/**
 * The product search of src/pages/Products.tsx: a product is listed when its
 * lowercased name contains the lowercased search term, or when its barcode
 * contains the term as typed. Lowercasing is ASCII only.
 */
module ProductsPage {
  import opened Catalog

  /** ASCII `toLowerCase` on one character. */
  function LowerChar(c: char): char {
    if 'A' <= c <= 'Z' then (c as int + 32) as char else c
  }

  /** ASCII `toLowerCase`. */
  function Lower(s: string): string {
    seq(|s|, i requires 0 <= i < |s| => LowerChar(s[i]))
  }

  /** `t` appears in `s` starting at index `k`. */
  predicate OccursAt(s: string, t: string, k: int) {
    0 <= k && k + |t| <= |s| && s[k..k + |t|] == t
  }

  /** `s.includes(t)`: try each start position in turn. */
  function Includes(s: string, t: string): bool
    decreases |s|
  {
    if |t| > |s| then false
    else if s[..|t|] == t then true
    else Includes(s[1..], t)
  }

  /** `Includes` finds `t` exactly when `t` occurs somewhere in `s`. */
  lemma {:induction false} IncludesOccurs(s: string, t: string)
    ensures Includes(s, t) <==> exists k :: OccursAt(s, t, k)
    decreases |s|
  {
    if |t| > |s| {
    } else if s[..|t|] == t {
      assert OccursAt(s, t, 0);
    } else {
      IncludesOccurs(s[1..], t);
      forall k | OccursAt(s[1..], t, k) ensures OccursAt(s, t, k + 1) {
        assert s[1..][k..k + |t|] == s[k + 1..k + 1 + |t|];
      }
      forall k | OccursAt(s, t, k) ensures OccursAt(s[1..], t, k - 1) {
        assert s[0..|t|] == s[..|t|];
        assert s[1..][k - 1..k - 1 + |t|] == s[k..k + |t|];
      }
    }
  }

  /** Every string includes the empty string. */
  lemma IncludesEmpty(s: string)
    ensures Includes(s, "")
  {
    assert s[..0] == "";
  }

  /** The predicate `filteredProducts` applies to each product. */
  predicate Matches(p: Product, term: string) {
    Includes(Lower(p.name), Lower(term)) || Includes(p.barcode, term)
  }

  /** `products.filter(...)`, in list order. */
  function FilterProducts(products: seq<Product>, term: string): (r: seq<Product>)
    ensures forall p :: p in r <==> p in products && Matches(p, term)
    ensures |r| <= |products|
  {
    if products == [] then []
    else (if Matches(products[0], term) then [products[0]] else []) + FilterProducts(products[1..], term)
  }

  /** `a` is `b` with some elements left out, the rest kept in order. */
  predicate Subsequence<T(==)>(a: seq<T>, b: seq<T>)
    decreases |b|
  {
    if a == [] then true
    else if b == [] then false
    else (a[0] == b[0] && Subsequence(a[1..], b[1..])) || Subsequence(a, b[1..])
  }

  /** The filtered list keeps the products' order. */
  lemma {:induction false} FilterIsSubsequence(products: seq<Product>, term: string)
    ensures Subsequence(FilterProducts(products, term), products)
    decreases |products|
  {
    if products != [] {
      FilterIsSubsequence(products[1..], term);
      var r := FilterProducts(products, term);
      var rest := FilterProducts(products[1..], term);
      if Matches(products[0], term) {
        assert r == [products[0]] + rest;
        assert r[1..] == rest;
      } else {
        assert r == rest;
      }
    }
  }

  /** An empty search lists every product. */
  lemma {:induction false} EmptyTermKeepsAll(products: seq<Product>)
    ensures FilterProducts(products, "") == products
    decreases |products|
  {
    if products != [] {
      IncludesEmpty(products[0].barcode);
      EmptyTermKeepsAll(products[1..]);
    }
  }

  /** A name match does not depend on the case of the term. */
  lemma NameMatchIgnoresCase(p: Product, t1: string, t2: string)
    requires Lower(t1) == Lower(t2)
    ensures Includes(Lower(p.name), Lower(t1)) ==> Matches(p, t2)
  {
  }

  /** A barcode match does: a product "Milk" with barcode "AB12" is found by "AB" and not by "ab". */
  lemma BarcodeMatchIsCaseSensitive(p: Product)
    requires p.barcode == "AB12" && p.name == "Milk"
    ensures Matches(p, "AB") && !Matches(p, "ab")
  {
    assert Lower("ab") == "ab";
    assert Lower("Milk") == "milk";
    assert !Includes("milk", "ab") by {
      assert "milk"[..2] == "mi" && "milk"[1..] == "ilk";
      assert "ilk"[..2] == "il" && "ilk"[1..] == "lk";
      assert "lk"[..2] == "lk" && "lk"[1..] == "k";
    }
    assert !Includes("AB12", "ab") by {
      assert "AB12"[..2] == "AB" && "AB12"[1..] == "B12";
      assert "B12"[..2] == "B1" && "B12"[1..] == "12";
      assert "12"[..2] == "12" && "12"[1..] == "2";
    }
    assert "AB12"[..2] == "AB";
  }

  /** What the page shows. */
  datatype ProductsView = Loading | NoProductsFound | Grid(shown: seq<Product>)

  /** The skeleton while the products load, then the empty message or the filtered grid. */
  function ViewProducts(loading: bool, products: seq<Product>, term: string): (v: ProductsView)
    ensures loading <==> v == Loading
    ensures !loading ==> (v == NoProductsFound <==> forall p :: p in products ==> !Matches(p, term))
    ensures v.Grid? ==> v.shown == FilterProducts(products, term) && v.shown != []
  {
    if loading then Loading
    else
      var shown := FilterProducts(products, term);
      if shown == [] then NoProductsFound
      else
        assert shown[0] in shown;
        Grid(shown)
  }
}
