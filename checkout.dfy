/** The checkout page's logic: the cart read from storage, its two totals,
    the colour-to-picture lookup, the empty-cart branch, and the "continue to
    payment" step that records a summary and moves to the confirmation page. */
module Checkout {
  import opened Js
  import opened JsNumber
  import opened Browser

  /** A cart entry as stored under `cart`; a missing quantity is `None`. */
  datatype CartItem = CartItem(
    id: string, name: string, color: string, size: string,
    price: int, quantity: Option<int>)

  const CartKey := "cart"
  const CheckoutDataKey := "checkoutData"

  /** `item.quantity || 1`: a missing or zero quantity counts as one. */
  function Quantity(item: CartItem): (q: int)
    ensures q != 0
  {
    if item.quantity.Some? && item.quantity.value != 0 then item.quantity.value else 1
  }

  /** `item.price * (item.quantity || 1)`. */
  function LineTotal(item: CartItem): int {
    item.price * Quantity(item)
  }

  /** `cart.reduce((total, item) => total + f(item), 0)`: a left fold. */
  function Reduce(cart: seq<CartItem>, f: CartItem -> int): int {
    if |cart| == 0 then 0 else Reduce(cart[..|cart| - 1], f) + f(cart[|cart| - 1])
  }

  /** `getTotalPrice`. */
  function TotalPrice(cart: seq<CartItem>): int {
    Reduce(cart, LineTotal)
  }

  /** `getTotalItems`. */
  function TotalItems(cart: seq<CartItem>): int {
    Reduce(cart, Quantity)
  }

  /** The sum of `f` over the cart, first entry first: the reference
      definition the fold is compared with. */
  function Sum(cart: seq<CartItem>, f: CartItem -> int): int {
    if |cart| == 0 then 0 else f(cart[0]) + Sum(cart[1..], f)
  }

  /** The fold distributes over concatenation of carts. */
  lemma {:induction false} ReduceConcat(a: seq<CartItem>, b: seq<CartItem>, f: CartItem -> int)
    ensures Reduce(a + b, f) == Reduce(a, f) + Reduce(b, f)
    decreases |b|
  {
    if |b| == 0 {
      assert a + b == a;
    } else {
      var b' := b[..|b| - 1];
      assert (a + b)[..|a + b| - 1] == a + b';
      assert (a + b)[|a + b| - 1] == b[|b| - 1];
      ReduceConcat(a, b', f);
    }
  }

  /** The fold equals the sum of `f` over every entry. */
  lemma {:induction false} ReduceIsSum(cart: seq<CartItem>, f: CartItem -> int)
    ensures Reduce(cart, f) == Sum(cart, f)
    decreases |cart|
  {
    if |cart| > 0 {
      assert cart == [cart[0]] + cart[1..];
      ReduceConcat([cart[0]], cart[1..], f);
      assert [cart[0]][..0] == [];
      ReduceIsSum(cart[1..], f);
    }
  }

  /** `getTotalPrice` is the sum of `price × (quantity || 1)` over the cart and
      `getTotalItems` the sum of `quantity || 1`. */
  lemma TotalsAreSums(cart: seq<CartItem>)
    ensures TotalPrice(cart) == Sum(cart, LineTotal)
    ensures TotalItems(cart) == Sum(cart, Quantity)
  {
    ReduceIsSum(cart, LineTotal);
    ReduceIsSum(cart, Quantity);
  }

  /** Both totals of a concatenation are the sums of the parts' totals. */
  lemma TotalsDistribute(a: seq<CartItem>, b: seq<CartItem>)
    ensures TotalPrice(a + b) == TotalPrice(a) + TotalPrice(b)
    ensures TotalItems(a + b) == TotalItems(a) + TotalItems(b)
  {
    ReduceConcat(a, b, LineTotal);
    ReduceConcat(a, b, Quantity);
  }

  /** With positive or missing quantities there are at least as many items
      as entries. */
  lemma {:induction false} TotalItemsCoversEntries(cart: seq<CartItem>)
    requires forall i :: 0 <= i < |cart| ==> cart[i].quantity.None? || cart[i].quantity.value >= 1
    ensures TotalItems(cart) >= |cart|
    decreases |cart|
  {
    if |cart| > 0 {
      var init := cart[..|cart| - 1];
      assert forall i :: 0 <= i < |init| ==> init[i] == cart[i];
      TotalItemsCoversEntries(init);
    }
  }

  /** Non-negative prices and quantities give a non-negative total price. */
  lemma {:induction false} TotalPriceNonNegative(cart: seq<CartItem>)
    requires forall i :: 0 <= i < |cart| ==> cart[i].price >= 0
    requires forall i :: 0 <= i < |cart| ==> cart[i].quantity.None? || cart[i].quantity.value >= 0
    ensures TotalPrice(cart) >= 0
    decreases |cart|
  {
    if |cart| > 0 {
      var init := cart[..|cart| - 1];
      assert forall i :: 0 <= i < |init| ==> init[i] == cart[i];
      TotalPriceNonNegative(init);
      var last := cart[|cart| - 1];
      assert Quantity(last) >= 1;
      assert LineTotal(last) >= 0;
    }
  }

  /** A cart of one `Tee` at 999 with quantity 2. */
  lemma TeeCartExample()
    ensures TotalPrice([CartItem("1", "Tee", "Red", "M", 999, Some(2))]) == 1998
    ensures TotalItems([CartItem("1", "Tee", "Red", "M", 999, Some(2))]) == 2
  {
    var cart := [CartItem("1", "Tee", "Red", "M", 999, Some(2))];
    assert cart[..0] == [];
  }

  const ImageMap: map<string, string> := map[
    "Turquoise Blue" := "/assets/blue-model.png",
    "Grey" := "/assets/white-model.png",
    "Green" := "/assets/green-model.png",
    "Yellow" := "/assets/yellow-model.png",
    "Red" := "/assets/red-model.png",
    "Black" := "/assets/black-model.png",
    "White" := "/assets/white-model.png"]

  /** `getProductImage`: `imageMap[color] || imageMap['White']`; every mapped
      path is non-empty, so the fallback applies exactly to unmapped colours. */
  function ProductImage(color: string): string {
    if color in ImageMap && ImageMap[color] != "" then ImageMap[color] else ImageMap["White"]
  }

  /** A mapped colour gets its own picture; any other gets the white model. */
  lemma ProductImageLookup(color: string)
    ensures color in ImageMap ==> ProductImage(color) == ImageMap[color]
    ensures color !in ImageMap ==> ProductImage(color) == "/assets/white-model.png"
  {
  }

  /** Every answer is one of the mapped pictures. */
  lemma ProductImageIsMapped(color: string)
    ensures ProductImage(color) in ImageMap.Values
  {
    if color in ImageMap {
      assert ImageMap[color] in ImageMap.Values;
    }
    assert ImageMap["White"] in ImageMap.Values;
  }

  /** The cart at mount: `savedCart ? JSON.parse(savedCart) : []`. */
  datatype CartLoad = Loaded(cart: seq<CartItem>) | ParseThrew

  /** The cart the page starts with; `parse` is `JSON.parse` on cart text,
      `None` where it throws (the exception is not caught). */
  function InitialCart(saved: Option<string>, parse: string -> Option<seq<CartItem>>): (r: CartLoad)
    ensures !IsSet(saved) ==> r == Loaded([])
    ensures IsSet(saved) ==> (r == ParseThrew <==> parse(saved.value).None?)
    ensures IsSet(saved) && parse(saved.value).Some? ==> r == Loaded(parse(saved.value).value)
  {
    if IsSet(saved) then
      var parsed := parse(saved.value);
      if parsed.Some? then Loaded(parsed.value) else ParseThrew
    else Loaded([])
  }

  /** The cart the page starts with, read from the `cart` key: an absent key
      gives the empty cart, a stored one its parse. */
  lemma CartAtMount(storage: map<string, string>, parse: string -> Option<seq<CartItem>>)
    ensures CartKey !in storage ==> InitialCart(Lookup(storage, CartKey), parse) == Loaded([])
    ensures CartKey in storage && storage[CartKey] != "" && parse(storage[CartKey]).Some? ==>
              InitialCart(Lookup(storage, CartKey), parse) == Loaded(parse(storage[CartKey]).value)
    ensures CartKey in storage && storage[CartKey] != "" && parse(storage[CartKey]).None? ==>
              InitialCart(Lookup(storage, CartKey), parse) == ParseThrew
  {
  }

  datatype Screen = EmptyCartScreen | CheckoutForm

  /** The page shows the empty-cart notice exactly for an empty cart. */
  function ScreenFor(cart: seq<CartItem>): (s: Screen)
    ensures s == EmptyCartScreen <==> |cart| == 0
    ensures s == EmptyCartScreen ==> TotalPrice(cart) == 0 && TotalItems(cart) == 0
  {
    if |cart| == 0 then EmptyCartScreen else CheckoutForm
  }

  /** `JSON.stringify({items, total, timestamp})`; the timestamp is an ISO
      string, which holds no character JSON escapes. */
  function OrderDataJson(items: int, total: int, timestamp: string): string {
    "{\"items\":" + IntToString(items) + ",\"total\":" + IntToString(total)
    + ",\"timestamp\":\"" + timestamp + "\"}"
  }

  const ConfirmationPath := "/confirmation"

  /** The confirmation location the page navigates to. */
  function ConfirmationRoute(items: int, total: int): string {
    ConfirmationPath + "?" + "items=" + IntToString(items) + "&" + "total=" + IntToString(total)
  }

  /** `handleContinueToPayment`: stores the summary under `checkoutData` and
      navigates to the confirmation page carrying the same two numbers; no
      other key, the cart included, is touched. */
  method ContinueToPayment(w: Window, cart: seq<CartItem>, timestamp: string)
    modifies w
    ensures w.storage == old(w.storage)[CheckoutDataKey := OrderDataJson(TotalItems(cart), TotalPrice(cart), timestamp)]
    ensures w.route == ConfirmationRoute(TotalItems(cart), TotalPrice(cart))
    ensures forall k :: k != CheckoutDataKey ==> Lookup(w.storage, k) == Lookup(old(w.storage), k)
  {
    var items := TotalItems(cart);
    var total := TotalPrice(cart);
    w.SetItem(CheckoutDataKey, OrderDataJson(items, total, timestamp));
    w.Navigate(ConfirmationPath + "?items=" + IntToString(TotalItems(cart)) + "&total=" + IntToString(TotalPrice(cart)));
  }
}
