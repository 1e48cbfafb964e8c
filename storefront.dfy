/**
 * The storefront page as a state machine: the browser's local storage (the keys `bt_products`,
 * `bt_cart`, `bt_checkout`, `bt_orders` and `bt_theme`, each present or absent), the bits of page
 * state the script keeps (the cart badge, the `data-theme` attribute, the active tag filter), and
 * the event handlers that read and rewrite them.
 */
module Storefront {
  import opened Options
  import opened JsString
  import opened Catalog
  import opened CartLines

  /** The summary `goToPayment` stores under `bt_checkout`. */
  datatype Checkout = Checkout(items: seq<CartLine>, total: int)

  /** An order record as the simulated payment appends it to `bt_orders`. */
  datatype Order = Order(id: string, created: string, name: string, email: string,
                         payMethod: string, status: string, amount: int, items: seq<CartLine>)

  /** How `handlePay` ends. */
  datatype PayOutcome =
    | MissingDetails   // name or email empty after trimming
    | Paid(order: Order)   // the demo method: a paid order was recorded
    | NeedsBackend     // `stripe` or `razorpay`: only instructions are shown
    | Unhandled        // any other method value

  /** What `renderCart` fills the drawer with: the grouped entries and the total. */
  datatype CartView = CartView(entries: seq<CartLine>, total: int)

  /** The decimal digits of `n`, as string concatenation renders `Date.now()`. */
  function Decimal(n: nat): (r: string)
    ensures |r| >= 1 && forall i :: 0 <= i < |r| ==> '0' <= r[i] <= '9'
  {
    var d := ['0' + (n % 10) as char];
    if n < 10 then d else Decimal(n / 10) + d
  }

  /** The number a string of decimal digits denotes, most significant digit first. */
  function DigitsValue(r: string): int {
    if r == [] then 0 else DigitsValue(r[..|r| - 1]) * 10 + (r[|r| - 1] as int - '0' as int)
  }

  /** `Decimal(n)` is the decimal numeral of `n`: it denotes `n` and has no leading zero. */
  lemma {:induction false} DecimalIsNumeral(n: nat)
    ensures DigitsValue(Decimal(n)) == n
    ensures n >= 10 ==> Decimal(n)[0] != '0'
  {
    if n >= 10 {
      DecimalIsNumeral(n / 10);
      var r := Decimal(n);
      assert r[..|r| - 1] == Decimal(n / 10);
      assert r[0] == Decimal(n / 10)[0];
    }
  }

  /** A stored or displayed theme read with a `'light'` default: `t || 'light'`. */
  function ThemeOr(t: Option<string>): (r: string)
    ensures r != ""
  {
    if t == None || t.value == "" then "light" else t.value
  }

  /** The next-state rule of `toggleTheme`. */
  function NextTheme(current: string): (next: string)
    ensures next == "light" || next == "dark"
    ensures next != current
    ensures next == "light" <==> current == "dark"
  {
    if current == "dark" then "light" else "dark"
  }

  /** Toggling twice from a shown `light` or `dark` theme comes back to it. */
  lemma ToggleTwiceRestores(shown: Option<string>)
    requires ThemeOr(shown) == "light" || ThemeOr(shown) == "dark"
    ensures NextTheme(ThemeOr(Some(NextTheme(ThemeOr(shown))))) == ThemeOr(shown)
  {
  }

  class Shop {
    var products: Option<seq<Product>>  // bt_products
    var cart: Option<seq<CartLine>>     // bt_cart
    var checkout: Option<Checkout>      // bt_checkout
    var orders: Option<seq<Order>>      // bt_orders
    var theme: Option<string>           // bt_theme
    var themeAttr: Option<string>       // the data-theme attribute of the document element
    var cartCount: int                  // the number shown in the cart badge
    var activeTag: string               // the tag filter of the product grid

    /** `JSON.parse(localStorage.getItem('bt_products') || '[]')`. */
    function Products(): seq<Product>
      reads this
    {
      products.GetOr([])
    }

    /** `getCart()`: the stored lines, or none when the key is absent. */
    function Cart(): seq<CartLine>
      reads this
    {
      cart.GetOr([])
    }

    /** Every cart line is the line `addToCart` makes from the current catalogue. */
    ghost predicate CartFromCatalogue()
      reads this
    {
      FromCatalogue(Products(), Cart())
    }

    /**
     * Loading the script over the given storage: seed the catalogue and the cart when their
     * keys are absent, start with the `All` tag, then (on `DOMContentLoaded`) refresh the
     * badge and apply the stored theme.
     */
    constructor Load(storedProducts: Option<seq<Product>>, storedCart: Option<seq<CartLine>>,
                     storedCheckout: Option<Checkout>, storedOrders: Option<seq<Order>>,
                     storedTheme: Option<string>)
      ensures products == Some(storedProducts.GetOr(SampleProducts))
      ensures cart == Some(storedCart.GetOr([]))
      ensures checkout == storedCheckout && orders == storedOrders && theme == storedTheme
      ensures activeTag == "All"
      ensures cartCount == |Cart()|
      ensures themeAttr == Some(ThemeOr(storedTheme))
      ensures storedProducts == None && storedCart == None ==> CartFromCatalogue()
    {
      products := if storedProducts == None then Some(SampleProducts) else storedProducts;
      cart := if storedCart == None then Some([]) else storedCart;
      checkout, orders, theme := storedCheckout, storedOrders, storedTheme;
      activeTag := "All";
      cartCount := |storedCart.GetOr([])|;
      themeAttr := Some(ThemeOr(storedTheme));
    }

    /* ---------------- theme ---------------- */

    /** `initTheme`: show the stored theme, `light` by default. */
    method InitTheme()
      modifies this`themeAttr
      ensures themeAttr == Some(ThemeOr(theme))
    {
      themeAttr := Some(ThemeOr(theme));
    }

    /** `toggleTheme`: store and show the theme opposite to the one shown. */
    method ToggleTheme()
      modifies this`theme, this`themeAttr
      ensures theme == Some(NextTheme(ThemeOr(old(themeAttr))))
      ensures themeAttr == theme
    {
      var next := NextTheme(ThemeOr(themeAttr));
      theme := Some(next);
      themeAttr := Some(next);
      InitTheme();
    }

    /* ---------------- product grid ---------------- */

    /**
     * The list `renderProducts` draws for the search box text and the sort selector value: the
     * script's statements in order, proved to compute `VisibleProducts`, their value form.
     */
    method RenderProducts(search: string, sort: string) returns (shown: seq<Product>)
      ensures shown == VisibleProducts(Products(), activeTag, search, sort)
    {
      var q := Lower(Trim(search));
      var items := FilterProducts(Products(), activeTag, q);
      if sort == "low" {
        items := SortByPrice(false, items);
      }
      if sort == "high" {
        items := SortByPrice(true, items);
      }
      shown := items;
    }

    /** `applyTag`: set the tag filter and redraw the grid. */
    method ApplyTag(tag: string, search: string, sort: string) returns (shown: seq<Product>)
      modifies this`activeTag
      ensures activeTag == tag
      ensures shown == VisibleProducts(Products(), tag, search, sort)
    {
      activeTag := tag;
      shown := RenderProducts(search, sort);
    }

    /* ---------------- cart ---------------- */

    /** `updateCartCount`: the badge shows the number of stored lines, not the summed quantity. */
    method UpdateCartCount()
      modifies this`cartCount
      ensures cartCount == |Cart()|
    {
      cartCount := |Cart()|;
    }

    /** `saveCart`: store the lines and refresh the badge. */
    method SaveCart(lines: seq<CartLine>)
      modifies this`cart, this`cartCount
      ensures cart == Some(lines)
      ensures cartCount == |lines|
    {
      cart := Some(lines);
      UpdateCartCount();
    }

    /**
     * `addToCart`: for a product in the catalogue, append one unit line copied from it, leaving
     * the earlier lines as they were; for an unknown id, change nothing.
     */
    method AddToCart(productId: string) returns (added: bool)
      modifies this`cart, this`cartCount
      ensures added == FindProduct(Products(), productId).Some?
      ensures added ==> cart == Some(old(Cart()) + [LineFor(FindProduct(Products(), productId).value)])
      ensures added ==> cartCount == |Cart()| == |old(Cart())| + 1
      ensures !added ==> cart == old(cart) && cartCount == old(cartCount)
      ensures old(CartFromCatalogue()) ==> CartFromCatalogue()
    {
      var p := FindProduct(Products(), productId);
      if p == None {
        return false;
      }
      var lines := Cart();
      ghost var line := LineFor(p.value);
      assert FindProduct(Products(), line.id) == p;
      SaveCart(lines + [LineFor(p.value)]);
      added := true;
    }

    /**
     * `renderCart`: the grouped entries and their total (`₹0` and no entries for an empty
     * cart), with the badge refreshed.
     */
    method RenderCart() returns (view: CartView)
      modifies this`cartCount
      ensures view == CartView(Grouped(Cart()), Amount(Grouped(Cart())))
      ensures CartFromCatalogue() ==> view.total == Amount(Cart())
      ensures cartCount == |Cart()|
    {
      var items := Cart();
      if |items| == 0 {
        view := CartView([], 0);
        UpdateCartCount();
        return;
      }
      var groups := GroupById(items);
      var total := TotalOf(groups);
      view := CartView(groups, total);
      if CartFromCatalogue() {
        CatalogueTotal(Products(), items);
      }
      UpdateCartCount();
    }

    /** `removeFromCart`: drop every line for the product, then redraw the cart. */
    method RemoveFromCart(id: string) returns (view: CartView)
      modifies this`cart, this`cartCount
      ensures cart == Some(RemoveId(old(Cart()), id))
      ensures cartCount == |Cart()|
      ensures view == CartView(Grouped(Cart()), Amount(Grouped(Cart())))
      ensures old(CartFromCatalogue()) ==> CartFromCatalogue()
    {
      ghost var before := Cart();
      SaveCart(RemoveId(Cart(), id));
      if FromCatalogue(Products(), before) {
        RemoveKeepsCatalogue(Products(), before, id);
      }
      view := RenderCart();
    }

    /** `clearCart`: when the user confirms, store an empty cart and redraw; otherwise do nothing. */
    method ClearCart(confirmed: bool) returns (view: Option<CartView>)
      modifies this`cart, this`cartCount
      ensures !confirmed ==> view == None && cart == old(cart) && cartCount == old(cartCount)
      ensures confirmed ==> view == Some(CartView([], 0)) && cart == Some([]) && cartCount == 0
    {
      if !confirmed {
        return None;
      }
      SaveCart([]);
      var v := RenderCart();
      view := Some(v);
    }

    /* ---------------- checkout and payment ---------------- */

    /**
     * `goToPayment`: with an empty cart write nothing; otherwise store the grouped entries and
     * their total as the checkout summary.
     */
    method GoToPayment() returns (proceeded: bool)
      modifies this`checkout
      ensures proceeded == (Cart() != [])
      ensures !proceeded ==> checkout == old(checkout)
      ensures proceeded ==> checkout == Some(Checkout(Grouped(Cart()), Amount(Grouped(Cart()))))
      ensures proceeded && CartFromCatalogue() ==> checkout.value.total == Amount(Cart())
    {
      var items := Cart();
      if |items| == 0 {
        return false;
      }
      var groups := GroupById(items);
      var total := TotalOf(groups);
      checkout := Some(Checkout(groups, total));
      if CartFromCatalogue() {
        CatalogueTotal(Products(), items);
      }
      proceeded := true;
    }

    /**
     * `handlePay`. With an empty trimmed name or email nothing changes. With the `demo` method
     * exactly one paid order is appended, its amount and items taken from the checkout summary
     * (0 and no items without one), and the cart and checkout keys are removed. The other
     * methods change nothing. `now` stands for `Date.now()` and `created` for the ISO time.
     */
    method HandlePay(payMethod: string, nameInput: string, emailInput: string, now: nat, created: string)
      returns (outcome: PayOutcome)
      modifies this`orders, this`cart, this`checkout
      ensures Trim(nameInput) == "" || Trim(emailInput) == "" ==>
        outcome == MissingDetails && orders == old(orders) && cart == old(cart) && checkout == old(checkout)
      ensures Trim(nameInput) != "" && Trim(emailInput) != "" && payMethod == "demo" ==>
        && outcome == Paid(Order("ORD" + Decimal(now), created, Trim(nameInput), Trim(emailInput), "demo", "paid",
                                 if old(checkout) == None then 0 else old(checkout).value.total,
                                 if old(checkout) == None then [] else old(checkout).value.items))
        && orders == Some(old(orders).GetOr([]) + [outcome.order])
        && cart == None && checkout == None
      ensures Trim(nameInput) != "" && Trim(emailInput) != "" && payMethod != "demo" ==>
        && outcome == (if payMethod == "stripe" || payMethod == "razorpay" then NeedsBackend else Unhandled)
        && orders == old(orders) && cart == old(cart) && checkout == old(checkout)
    {
      var name, email := Trim(nameInput), Trim(emailInput);
      if name == "" || email == "" {
        return MissingDetails;
      }
      if payMethod == "demo" {
        var summary := checkout;
        var amount := if summary == None then 0 else summary.value.total;
        var items := if summary == None then [] else summary.value.items;
        var order := Order("ORD" + Decimal(now), created, name, email, "demo", "paid", amount, items);
        orders := Some(orders.GetOr([]) + [order]);
        cart := None;
        checkout := None;
        return Paid(order);
      }
      if payMethod == "stripe" || payMethod == "razorpay" {
        return NeedsBackend;
      }
      outcome := Unhandled;
    }
  }
}
