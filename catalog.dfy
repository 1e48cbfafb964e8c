/**
 * The product catalogue: the product record, the seeded sample list, lookup by id,
 * and the filtering and price sorting that `renderProducts` applies before drawing the grid.
 */
module Catalog {
  import opened Options
  import opened JsString
  import opened Sequences

  /** A product; `tags` is `[]` when the stored record has none (`p.tags || []`). */
  datatype Product = Product(id: string, title: string, price: int, tags: seq<string>, img: string)

  /** The list copied into storage under `bt_products` when that key is absent. */
  const SampleProducts: seq<Product> := [
    Product("p1", "Floral Summer Dress", 999, ["Women", "New", "Casual"],
            "https://images.unsplash.com/photo-1521572163474-6864f9cf17ab?q=80&w=1200&auto=format&fit=crop"),
    Product("p2", "Classic White Tee", 499, ["Men", "Casual"],
            "https://images.unsplash.com/photo-1503342217505-b0a15ec3261c?q=80&w=1200&auto=format&fit=crop"),
    Product("p3", "Lightweight Denim Jacket", 1799, ["Women", "Jackets"],
            "https://images.unsplash.com/photo-1490481651871-ab68de25d43d?q=80&w=1200&auto=format&fit=crop"),
    Product("p4", "Striped Casual Shirt", 699, ["Men", "Casual"],
            "https://images.unsplash.com/photo-1530845641273-5e9b2b0d0abb?q=80&w=1200&auto=format&fit=crop"),
    Product("p5", "Elegant Blazer", 2499, ["Women", "Jackets"],
            "https://images.unsplash.com/photo-1541099649105-f69ad21f3246?q=80&w=1200&auto=format&fit=crop"),
    Product("p6", "Comfort Hoodie", 1199, ["Men", "New"],
            "https://images.unsplash.com/photo-1551854838-9f6d4a0d76d6?q=80&w=1200&auto=format&fit=crop"),
    Product("p7", "Boho Maxi Skirt", 899, ["Women", "Casual"],
            "https://images.unsplash.com/photo-1520975680246-1e6c9a1f3c6f?q=80&w=1200&auto=format&fit=crop"),
    Product("p8", "Tailored Chinos", 1399, ["Men"],
            "https://images.unsplash.com/photo-1520975919479-7f67b6b916bd?q=80&w=1200&auto=format&fit=crop")
  ]

  /** `products.find(x => x.id === id)`: the first product with that id, if any. */
  function FindProduct(products: seq<Product>, id: string): (r: Option<Product>)
    ensures r.None? <==> forall i :: 0 <= i < |products| ==> products[i].id != id
    ensures r.Some? ==> r.value.id == id
    ensures r.Some? ==>
      exists k :: 0 <= k < |products| && products[k] == r.value && forall j :: 0 <= j < k ==> products[j].id != id
  {
    if products == [] then None
    else if products[0].id == id then
      Some(products[0])
    else
      var r := FindProduct(products[1..], id);
      if r.Some? then
        var k :| 0 <= k < |products[1..]| && products[1..][k] == r.value && forall j :: 0 <= j < k ==> products[1..][j].id != id;
        assert products[k + 1] == r.value;
        assert forall j :: 0 <= j < k + 1 ==> products[j].id != id by {
          forall j | 0 <= j < k + 1 ensures products[j].id != id {
            if j > 0 { assert products[j] == products[1..][j - 1]; }
          }
        }
        r
      else
        r
  }

  /** The sample catalogue has eight products with pairwise distinct ids. */
  lemma SampleIdsAreDistinct()
    ensures |SampleProducts| == 8
    ensures forall i, j :: 0 <= i < j < |SampleProducts| ==> SampleProducts[i].id != SampleProducts[j].id
  {
  }

  /* ---------------- filtering ---------------- */

  /** The search text as `renderProducts` uses it: `(value || '').trim().toLowerCase()`. */
  function NormalizeQuery(search: string): string {
    Lower(Trim(search))
  }

  /** Some tag, lower-cased, includes `q`: `(p.tags || []).some(t => t.toLowerCase().includes(q))`. */
  predicate SomeTagIncludes(tags: seq<string>, q: string) {
    exists t :: t in tags && Includes(Lower(t), q)
  }

  /** The callback `renderProducts` passes to `raw.filter`, for a query already normalised. */
  predicate Matches(activeTag: string, q: string, p: Product) {
    if activeTag != "All" && activeTag !in p.tags then false
    else if q == "" then true
    else Includes(Lower(p.title), q) || SomeTagIncludes(p.tags, q)
  }

  /** `raw.filter(...)` with the active tag and the normalised query. */
  function FilterProducts(raw: seq<Product>, activeTag: string, q: string): seq<Product> {
    Filter(p => Matches(activeTag, q, p), raw)
  }

  /**
   * The filtered list is an order-preserving sublist of the catalogue holding exactly the
   * matching products; a tag other than `All` is carried by every kept product; a non-empty
   * query occurs in every kept product's lower-cased title or in one of its lower-cased tags;
   * with `All` and an empty query nothing is dropped.
   */
  lemma {:induction false} FilterProductsSpec(raw: seq<Product>, activeTag: string, search: string)
    ensures var r := FilterProducts(raw, activeTag, NormalizeQuery(search));
      && IsSubsequence(r, raw)
      && (forall p :: multiset(r)[p] == if Matches(activeTag, NormalizeQuery(search), p) then multiset(raw)[p] else 0)
      && (activeTag != "All" ==> forall p :: p in r ==> activeTag in p.tags)
      && (NormalizeQuery(search) != "" ==>
            forall p :: p in r ==>
              Includes(Lower(p.title), NormalizeQuery(search)) ||
              exists t :: t in p.tags && Includes(Lower(t), NormalizeQuery(search)))
      && (activeTag == "All" && NormalizeQuery(search) == "" ==> r == raw)
  {
    var q := NormalizeQuery(search);
    var f := p => Matches(activeTag, q, p);
    FilterIsSubsequence(f, raw);
    FilterCounts(f, raw);
    if activeTag == "All" && q == "" {
      FilterKeepsAll(f, raw);
    }
  }

  /* ---------------- sorting ---------------- */

  /** The comparator handed to `items.sort`: `a.price - b.price` for `low`, `b.price - a.price` for `high`. */
  function Compare(descending: bool, a: Product, b: Product): int {
    if descending then b.price - a.price else a.price - b.price
  }

  /** The comparator lets `a` stay before `b`: `Compare(descending, a, b) <= 0`. */
  predicate Before(descending: bool, a: Product, b: Product) {
    if descending then a.price >= b.price else a.price <= b.price
  }

  /** Prices never increase (`descending`) or never decrease along `s`. */
  predicate InPriceOrder(descending: bool, s: seq<Product>) {
    forall i, j :: 0 <= i < j < |s| ==> Before(descending, s[i], s[j])
  }

  /** Puts `x` in front of the first element the comparator does not place before it. */
  function Insert(descending: bool, x: Product, s: seq<Product>): (r: seq<Product>)
    ensures multiset(r) == multiset(s) + multiset{x}
  {
    if s == [] || Compare(descending, x, s[0]) <= 0 then [x] + s
    else
      assert s == [s[0]] + s[1..];
      [s[0]] + Insert(descending, x, s[1..])
  }

  /** Inserting into a list in price order gives a list in price order. */
  lemma {:induction false} InsertKeepsOrder(descending: bool, x: Product, s: seq<Product>)
    requires InPriceOrder(descending, s)
    ensures InPriceOrder(descending, Insert(descending, x, s))
  {
    if s != [] && Compare(descending, x, s[0]) > 0 {
      var t := Insert(descending, x, s[1..]);
      InsertKeepsOrder(descending, x, s[1..]);
      assert forall y :: y in t ==> Before(descending, s[0], y) by {
        forall y | y in t ensures Before(descending, s[0], y) {
          assert y in multiset(t);
          if y != x {
            assert y in multiset(s[1..]);
            var k :| 0 <= k < |s[1..]| && s[1..][k] == y;
            assert s[k + 1] == y;
          }
        }
      }
      var r := [s[0]] + t;
      forall i, j | 0 <= i < j < |r| ensures Before(descending, r[i], r[j]) {
        if i == 0 {
          assert r[j] == t[j - 1];
          assert r[j] in t;
        } else {
          assert r[i] == t[i - 1] && r[j] == t[j - 1];
        }
      }
    }
  }

  /** `items.sort(cmp)` as a stable sort (ECMAScript 2019 requires `Array.prototype.sort` to be stable). */
  function SortByPrice(descending: bool, s: seq<Product>): (r: seq<Product>)
    ensures multiset(r) == multiset(s)
    ensures InPriceOrder(descending, r)
  {
    if s == [] then []
    else
      assert s == [s[0]] + s[1..];
      var t := SortByPrice(descending, s[1..]);
      InsertKeepsOrder(descending, s[0], t);
      Insert(descending, s[0], t)
  }

  /** The products of `s` whose price is `price`, in their order in `s`. */
  function AtPrice(price: int, s: seq<Product>): seq<Product> {
    Filter((p: Product) => p.price == price, s)
  }

  lemma AtPriceCons(price: int, a: Product, s: seq<Product>)
    ensures AtPrice(price, [a] + s) == (if a.price == price then [a] else []) + AtPrice(price, s)
  {
    FilterCons((p: Product) => p.price == price, a, s);
  }

  /** Inserting `x` keeps the products of any one price in the order they had, with `x` first among them. */
  lemma {:induction false} InsertIsStable(descending: bool, x: Product, s: seq<Product>, price: int)
    ensures AtPrice(price, Insert(descending, x, s)) == AtPrice(price, [x] + s)
  {
    if s != [] && Compare(descending, x, s[0]) > 0 {
      var t := Insert(descending, x, s[1..]);
      assert Insert(descending, x, s) == [s[0]] + t;
      assert s == [s[0]] + s[1..];
      InsertIsStable(descending, x, s[1..], price);
      AtPriceCons(price, s[0], t);
      AtPriceCons(price, x, s[1..]);
      AtPriceCons(price, x, s);
      AtPriceCons(price, s[0], s[1..]);
    }
  }

  /** Sorting is stable: the products of any one price appear in the order they had before sorting. */
  lemma {:induction false} SortIsStable(descending: bool, s: seq<Product>, price: int)
    ensures AtPrice(price, SortByPrice(descending, s)) == AtPrice(price, s)
  {
    if s != [] {
      SortIsStable(descending, s[1..], price);
      var t := SortByPrice(descending, s[1..]);
      assert SortByPrice(descending, s) == Insert(descending, s[0], t);
      InsertIsStable(descending, s[0], t, price);
      AtPriceCons(price, s[0], t);
      AtPriceCons(price, s[0], s[1..]);
      assert s == [s[0]] + s[1..];
    }
  }

  /** What `renderProducts` draws: the filtered catalogue, then sorted by price when `sort` is `low` or `high`. */
  function VisibleProducts(raw: seq<Product>, activeTag: string, search: string, sort: string): seq<Product> {
    var items := FilterProducts(raw, activeTag, NormalizeQuery(search));
    if sort == "low" then SortByPrice(false, items)
    else if sort == "high" then SortByPrice(true, items)
    else items
  }

  /**
   * `low` gives a permutation of the filtered list with non-decreasing prices, `high` one with
   * non-increasing prices, and any other sort value leaves the filtered order as it is.
   */
  lemma VisibleProductsOrder(raw: seq<Product>, activeTag: string, search: string, sort: string)
    ensures var items := FilterProducts(raw, activeTag, NormalizeQuery(search));
      var shown := VisibleProducts(raw, activeTag, search, sort);
      && (sort == "low" ==> multiset(shown) == multiset(items) && InPriceOrder(false, shown))
      && (sort == "high" ==> multiset(shown) == multiset(items) && InPriceOrder(true, shown))
      && (sort != "low" && sort != "high" ==> shown == items)
  {
  }
}
