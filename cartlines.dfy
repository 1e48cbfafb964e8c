/**
 * Cart lines as `addToCart` stores them (one unit per line), removal by product id,
 * and the grouping fold and totalling that `renderCart` and `goToPayment` perform.
 */
module CartLines {
  import opened Options
  import opened Sequences
  import opened Catalog

  /** A stored cart line; `addToCart` always writes `qty` 1, and a grouped entry has the same shape. */
  datatype CartLine = CartLine(id: string, title: string, price: int, img: string, qty: int)

  /** The line `addToCart` pushes for product `p`: `{id, title, price, img, qty: 1}`. */
  function LineFor(p: Product): CartLine {
    CartLine(p.id, p.title, p.price, p.img, 1)
  }

  /* ---------------- removal ---------------- */

  /** `cart.filter(i => i.id !== id)`. */
  function RemoveId(lines: seq<CartLine>, id: string): seq<CartLine> {
    Filter((l: CartLine) => l.id != id, lines)
  }

  /**
   * Removing an id leaves no line with that id, keeps every other line as often as before and
   * in its original relative order, and removing the same id again changes nothing.
   */
  lemma RemoveIdSpec(lines: seq<CartLine>, id: string)
    ensures forall l :: l in RemoveId(lines, id) ==> l.id != id
    ensures forall l: CartLine :: l.id != id ==> multiset(RemoveId(lines, id))[l] == multiset(lines)[l]
    ensures IsSubsequence(RemoveId(lines, id), lines)
    ensures RemoveId(RemoveId(lines, id), id) == RemoveId(lines, id)
  {
    FilterIsSubsequence((l: CartLine) => l.id != id, lines);
    FilterCounts((l: CartLine) => l.id != id, lines);
    FilterIsIdempotent((l: CartLine) => l.id != id, lines);
  }

  /* ---------------- grouping: the reference definition ---------------- */

  /** Some line of `s` is for product `id`. */
  predicate HasId(s: seq<CartLine>, id: string) {
    s != [] && (s[|s| - 1].id == id || HasId(s[..|s| - 1], id))
  }

  /** The position of the first line for `id`. */
  function FirstIndex(s: seq<CartLine>, id: string): (k: nat)
    requires HasId(s, id)
    ensures k < |s| && s[k].id == id
  {
    var p := s[..|s| - 1];
    if HasId(p, id) then
      var k := FirstIndex(p, id);
      assert s[k] == p[k];
      k
    else |s| - 1
  }

  /** The sum of the quantities of the lines for `id`. */
  function QtyOf(s: seq<CartLine>, id: string): int {
    if s == [] then 0
    else QtyOf(s[..|s| - 1], id) + (if s[|s| - 1].id == id then s[|s| - 1].qty else 0)
  }

  /** The sum of price times quantity along `s`. */
  function Amount(s: seq<CartLine>): int {
    if s == [] then 0
    else Amount(s[..|s| - 1]) + s[|s| - 1].price * s[|s| - 1].qty
  }

  /** The distinct product ids of `s`, in the order of their first line. */
  function Ids(s: seq<CartLine>): (r: seq<string>)
    ensures forall id :: id in r <==> HasId(s, id)
  {
    if s == [] then []
    else
      var p, x := s[..|s| - 1], s[|s| - 1];
      if HasId(p, x.id) then Ids(p) else Ids(p) + [x.id]
  }

  /** The grouped entry for `id`: its first line, with the quantity summed over all its lines. */
  function Entry(s: seq<CartLine>, id: string): CartLine
    requires HasId(s, id)
  {
    s[FirstIndex(s, id)].(qty := QtyOf(s, id))
  }

  /** `Object.values(grouped)` as it stands after the fold: the entry of every distinct id, in first-line order. */
  function Grouped(s: seq<CartLine>): seq<CartLine> {
    var ids := Ids(s);
    seq(|ids|, i requires 0 <= i < |ids| => Entry(s, ids[i]))
  }

  /* ---------------- facts about the reference definition ---------------- */

  lemma Snoc(p: seq<CartLine>, x: CartLine)
    ensures (p + [x])[..|p|] == p && (p + [x])[|p|] == x
    ensures forall i :: 0 <= i < |p| ==> (p + [x])[i] == p[i]
  {
  }

  /** `HasId` says that some line carries the id. */
  lemma {:induction false} HasIdAt(s: seq<CartLine>, id: string)
    ensures HasId(s, id) <==> exists i :: 0 <= i < |s| && s[i].id == id
  {
    if s != [] {
      var p := s[..|s| - 1];
      HasIdAt(p, id);
      assert forall i :: 0 <= i < |p| ==> s[i] == p[i];
    }
  }

  /** No line before `FirstIndex(s, id)` is for `id`. */
  lemma {:induction false} FirstIndexIsFirst(s: seq<CartLine>, id: string, j: nat)
    requires HasId(s, id) && j < FirstIndex(s, id)
    ensures s[j].id != id
  {
    var p := s[..|s| - 1];
    assert s[j] == p[j];
    if HasId(p, id) {
      FirstIndexIsFirst(p, id, j);
    } else {
      HasIdAt(p, id);
    }
  }

  /** A product with no line has quantity 0. */
  lemma {:induction false} QtyOfAbsent(s: seq<CartLine>, id: string)
    requires !HasId(s, id)
    ensures QtyOf(s, id) == 0
  {
    if s != [] {
      QtyOfAbsent(s[..|s| - 1], id);
    }
  }

  /** Each id is listed once, and ids are listed in the order of their first lines. */
  lemma {:induction false} IdsInFirstLineOrder(s: seq<CartLine>, i: nat, j: nat)
    requires i < j < |Ids(s)|
    ensures Ids(s)[i] != Ids(s)[j]
    ensures FirstIndex(s, Ids(s)[i]) < FirstIndex(s, Ids(s)[j])
  {
    var p, x := s[..|s| - 1], s[|s| - 1];
    var r := Ids(p);
    if j < |r| {
      IdsInFirstLineOrder(p, i, j);
    } else {
      assert Ids(s) == r + [x.id] && Ids(s)[j] == x.id && Ids(s)[i] == r[i];
      assert r[i] in r;
      assert FirstIndex(p, r[i]) < |p|;
    }
  }

  /**
   * Grouping yields one entry per distinct product id of the cart, in the order of the first
   * line for each id; each entry is that first line (so its title, price and image) with the
   * quantities of all the lines for the id summed.
   */
  lemma GroupedSpec(s: seq<CartLine>)
    ensures forall l :: l in s ==> exists i :: 0 <= i < |Grouped(s)| && Grouped(s)[i].id == l.id
    ensures forall i :: 0 <= i < |Grouped(s)| ==>
      HasId(s, Grouped(s)[i].id) &&
      Grouped(s)[i] == s[FirstIndex(s, Grouped(s)[i].id)].(qty := QtyOf(s, Grouped(s)[i].id))
    ensures forall i, j :: 0 <= i < j < |Grouped(s)| ==>
      Grouped(s)[i].id != Grouped(s)[j].id &&
      FirstIndex(s, Grouped(s)[i].id) < FirstIndex(s, Grouped(s)[j].id)
    ensures forall i :: 0 <= i < |Grouped(s)| ==>
      forall j :: 0 <= j < FirstIndex(s, Grouped(s)[i].id) ==> s[j].id != Grouped(s)[i].id
  {
    var ids, g := Ids(s), Grouped(s);
    assert forall i :: 0 <= i < |g| ==> g[i].id == ids[i];
    forall l | l in s ensures exists i :: 0 <= i < |g| && g[i].id == l.id {
      HasIdAt(s, l.id);
      var i :| 0 <= i < |ids| && ids[i] == l.id;
      assert g[i].id == l.id;
    }
    forall i, j | 0 <= i < j < |g|
      ensures g[i].id != g[j].id && FirstIndex(s, g[i].id) < FirstIndex(s, g[j].id)
    {
      IdsInFirstLineOrder(s, i, j);
    }
    forall i, j | 0 <= i < |g| && 0 <= j < FirstIndex(s, g[i].id) ensures s[j].id != g[i].id {
      FirstIndexIsFirst(s, g[i].id, j);
    }
  }

  /** The entry for `id` after one more line `x`. */
  lemma EntrySnoc(s: seq<CartLine>, x: CartLine, id: string)
    requires HasId(s + [x], id)
    ensures HasId(s, id) ==> Entry(s + [x], id) == Entry(s, id).(qty := Entry(s, id).qty + if x.id == id then x.qty else 0)
    ensures !HasId(s, id) ==> x.id == id && Entry(s + [x], id) == x
  {
    Snoc(s, x);
    if HasId(s, id) {
      assert (s + [x])[FirstIndex(s, id)] == s[FirstIndex(s, id)];
    } else {
      QtyOfAbsent(s, id);
    }
  }

  /* ---------------- grouping and totalling as app.js computes them ---------------- */

  /**
   * The state of the fold after the lines `p`: `keys` lists the dictionary's keys in insertion
   * order, which are the distinct ids of `p`, and each key maps to its grouped entry so far.
   */
  ghost predicate Folded(grouped: map<string, CartLine>, keys: seq<string>, p: seq<CartLine>) {
    && keys == Ids(p)
    && (forall k :: k in grouped <==> k in keys)
    && (forall k :: k in grouped ==> HasId(p, k) && grouped[k] == Entry(p, k))
  }

  /** One iteration of the fold's `forEach` body keeps `Folded`. */
  lemma FoldStep(grouped: map<string, CartLine>, keys: seq<string>, p: seq<CartLine>, it: CartLine,
                 next: map<string, CartLine>, keys': seq<string>)
    requires Folded(grouped, keys, p)
    requires keys' == if it.id in grouped then keys else keys + [it.id]
    requires var seeded := if it.id in grouped then grouped else grouped[it.id := it.(qty := 0)];
      next == seeded[it.id := seeded[it.id].(qty := seeded[it.id].qty + it.qty)]
    ensures Folded(next, keys', p + [it])
  {
    var t := p + [it];
    Snoc(p, it);
    forall k | k in next ensures HasId(t, k) && next[k] == Entry(t, k) {
      EntrySnoc(p, it, k);
    }
  }

  /** Once every line is folded in, reading the values in key order gives the grouping. */
  lemma FoldedValues(grouped: map<string, CartLine>, keys: seq<string>, s: seq<CartLine>, groups: seq<CartLine>)
    requires Folded(grouped, keys, s)
    requires |groups| == |keys| && forall m :: 0 <= m < |keys| ==> groups[m] == grouped[keys[m]]
    ensures groups == Grouped(s)
  {
  }

  /**
   * The fold of `renderCart` and `goToPayment`: a dictionary filled line by line (a new
   * entry is a copy of the line with `qty` 0, then every line adds its `qty`), read back
   * with `Object.values` in key insertion order.
   */
  method GroupById(items: seq<CartLine>) returns (groups: seq<CartLine>)
    ensures groups == Grouped(items)
  {
    var grouped: map<string, CartLine> := map[];
    var keys: seq<string> := [];  // the keys of `grouped` in insertion order
    var i := 0;
    while i < |items|
      invariant 0 <= i <= |items|
      invariant Folded(grouped, keys, items[..i])
    {
      var it := items[i];
      ghost var before, keysBefore := grouped, keys;
      if it.id !in grouped {
        grouped := grouped[it.id := it.(qty := 0)];
        keys := keys + [it.id];
      }
      grouped := grouped[it.id := grouped[it.id].(qty := grouped[it.id].qty + it.qty)];
      FoldStep(before, keysBefore, items[..i], it, grouped, keys);
      assert items[..i + 1] == items[..i] + [it];
      i := i + 1;
    }
    assert items[..i] == items;
    groups := [];
    var j := 0;
    while j < |keys|
      invariant 0 <= j <= |keys|
      invariant |groups| == j
      invariant forall m :: 0 <= m < j ==> groups[m] == grouped[keys[m]]
    {
      groups := groups + [grouped[keys[j]]];
      j := j + 1;
    }
    FoldedValues(grouped, keys, items, groups);
  }

  /** The second loop: `total += it.price * it.qty` over the grouped entries. */
  method TotalOf(groups: seq<CartLine>) returns (total: int)
    ensures total == Amount(groups)
  {
    total := 0;
    var i := 0;
    while i < |groups|
      invariant 0 <= i <= |groups|
      invariant total == Amount(groups[..i])
    {
      assert groups[..i + 1][..i] == groups[..i];
      total := total + groups[i].price * groups[i].qty;
      i := i + 1;
    }
    assert groups[..i] == groups;
  }

  /* ---------------- properties of the grouped total ---------------- */

  /** An empty cart has no entries and total 0. */
  lemma EmptyCartTotal()
    ensures Grouped([]) == [] && Amount(Grouped([])) == 0
  {
  }

  /** Two lines for the same product group into one entry: the first line with the quantities added. */
  lemma GroupedPair(a: CartLine, b: CartLine)
    requires a.id == b.id
    ensures Grouped([a, b]) == [a.(qty := a.qty + b.qty)]
    ensures Amount(Grouped([a, b])) == a.price * (a.qty + b.qty)
  {
    assert [a, b] == [a] + [b];
    assert [a, b][..1] == [a];
    assert Ids([a]) == [a.id];
    assert Ids([a, b]) == [a.id];
    assert QtyOf([a], a.id) == a.qty;
    assert FirstIndex([a, b], a.id) == 0;
    var g := Grouped([a, b]);
    assert |g| == 1 && g[0] == Entry([a, b], a.id);
    assert g[..0] == [];
  }

  /** Every line for the same product has the same price. */
  predicate UniformPrices(s: seq<CartLine>) {
    forall i, j :: 0 <= i < |s| && 0 <= j < |s| && s[i].id == s[j].id ==> s[i].price == s[j].price
  }

  lemma {:induction false} AmountUpdate(g: seq<CartLine>, j: nat, e: CartLine)
    requires j < |g|
    ensures Amount(g[j := e]) == Amount(g) - g[j].price * g[j].qty + e.price * e.qty
  {
    var n := |g| - 1;
    var h := g[j := e];
    if j < n {
      assert h[..n] == g[..n][j := e];
      AmountUpdate(g[..n], j, e);
    } else {
      assert h[..n] == g[..n];
    }
  }

  /** Grouping one more line either adds its quantity to the entry for its id or appends the line. */
  lemma GroupedSnoc(s: seq<CartLine>, x: CartLine) returns (j: nat)
    ensures !HasId(s, x.id) ==> Grouped(s + [x]) == Grouped(s) + [x]
    ensures HasId(s, x.id) ==>
      && j < |Grouped(s)| && Grouped(s)[j] == Entry(s, x.id)
      && Grouped(s + [x]) == Grouped(s)[j := Grouped(s)[j].(qty := Grouped(s)[j].qty + x.qty)]
  {
    j := 0;
    var t := s + [x];
    Snoc(s, x);
    var ids, g, g' := Ids(s), Grouped(s), Grouped(t);
    if !HasId(s, x.id) {
      assert Ids(t) == ids + [x.id];
      forall i | 0 <= i < |g'| ensures g'[i] == (g + [x])[i] {
        EntrySnoc(s, x, Ids(t)[i]);
      }
    } else {
      assert Ids(t) == ids;
      assert x.id in ids;
      j :| 0 <= j < |ids| && ids[j] == x.id;
      var e := g[j := g[j].(qty := g[j].qty + x.qty)];
      forall i | 0 <= i < |g'| ensures g'[i] == e[i] {
        EntrySnoc(s, x, ids[i]);
        if i < j {
          IdsInFirstLineOrder(s, i, j);
        } else if j < i {
          IdsInFirstLineOrder(s, j, i);
        }
      }
      assert g' == e;
      assert g[j].id == x.id;
    }
  }

  /** Adding `x.qty` units to an entry at `x`'s price raises the total by `x.price * x.qty`. */
  lemma AmountAddToEntry(g: seq<CartLine>, j: nat, x: CartLine)
    requires j < |g| && g[j].price == x.price
    ensures Amount(g[j := g[j].(qty := g[j].qty + x.qty)]) == Amount(g) + x.price * x.qty
  {
    AmountUpdate(g, j, g[j].(qty := g[j].qty + x.qty));
    assert g[j].price * (g[j].qty + x.qty) == g[j].price * g[j].qty + x.price * x.qty;
  }

  lemma UniformPrefix(p: seq<CartLine>, x: CartLine)
    requires UniformPrices(p + [x])
    ensures UniformPrices(p)
    ensures HasId(p, x.id) ==> p[FirstIndex(p, x.id)].price == x.price
  {
    Snoc(p, x);
    if HasId(p, x.id) {
      var k := FirstIndex(p, x.id);
      assert (p + [x])[k] == p[k] && (p + [x])[|p|] == x;
    }
  }

  /**
   * With a single price per product the grouped total equals the plain sum of price times
   * quantity over the lines.
   */
  lemma {:induction false} GroupedAmountMatchesLines(s: seq<CartLine>)
    requires UniformPrices(s)
    ensures Amount(Grouped(s)) == Amount(s)
  {
    if s != [] {
      var p, x := s[..|s| - 1], s[|s| - 1];
      assert s == p + [x];
      UniformPrefix(p, x);
      GroupedAmountMatchesLines(p);
      var j := GroupedSnoc(p, x);
      var g := Grouped(p);
      if HasId(p, x.id) {
        AmountAddToEntry(g, j, x);
      } else {
        assert (g + [x])[..|g|] == g;
      }
    }
  }

  /**
   * Why the single-price condition is needed: two lines for one product at different prices
   * are charged twice the first line's price.
   */
  lemma FirstPriceIsCharged(a: CartLine, b: CartLine)
    requires a.id == b.id && a.qty == 1 && b.qty == 1 && a.price != b.price
    ensures Amount(Grouped([a, b])) == 2 * a.price != Amount([a, b])
  {
    GroupedPair(a, b);
    assert [a, b][..1] == [a];
  }

  /** Every line is the line `addToCart` makes for the product `find` returns for its id. */
  predicate FromCatalogue(products: seq<Product>, s: seq<CartLine>) {
    forall i :: 0 <= i < |s| ==>
      FindProduct(products, s[i].id).Some? && s[i] == LineFor(FindProduct(products, s[i].id).value)
  }

  /** Removing lines keeps every remaining line a catalogue line. */
  lemma RemoveKeepsCatalogue(products: seq<Product>, s: seq<CartLine>, id: string)
    requires FromCatalogue(products, s)
    ensures FromCatalogue(products, RemoveId(s, id))
  {
    var r := RemoveId(s, id);
    FilterCounts((l: CartLine) => l.id != id, s);
    forall i | 0 <= i < |r|
      ensures FindProduct(products, r[i].id).Some? && r[i] == LineFor(FindProduct(products, r[i].id).value)
    {
      assert r[i] in r;
      var k :| 0 <= k < |s| && s[k] == r[i];
    }
  }

  /** Lines made by `addToCart` from an unchanged catalogue share a price per product, so the grouped total is the line sum. */
  lemma CatalogueTotal(products: seq<Product>, s: seq<CartLine>)
    requires FromCatalogue(products, s)
    ensures UniformPrices(s)
    ensures Amount(Grouped(s)) == Amount(s)
  {
    GroupedAmountMatchesLines(s);
  }
}
