/** `src/components/CartPage.tsx`: the cart page's quantity buttons, its three totals
    and the checkout decision. The `cart` state and its `localStorage` copy are the
    fields of `CartPageState`. */
module CartPage {
  import opened Wrappers
  import opened Seqs
  import opened Addresses
  import opened Cart

  /** `item.id === id ? { ...item, quantity: item.quantity + delta } : item`. */
  function Bump(x: CartItem, id: int, delta: int): CartItem {
    if x.id == id then x.(quantity := x.quantity + delta) else x
  }

  /** `increaseQuantity`: one more of every entry with the id. */
  function Increase(cart: seq<CartItem>, id: int): (r: seq<CartItem>)
    ensures |r| == |cart|
    ensures forall i :: 0 <= i < |cart| ==>
      && r[i].id == cart[i].id
      && (cart[i].id == id ==> r[i] == cart[i].(quantity := cart[i].quantity + 1))
      && (cart[i].id != id ==> r[i] == cart[i])
  {
    Map(cart, (x: CartItem) => Bump(x, id, 1))
  }

  predicate Positive(x: CartItem) {
    x.quantity > 0
  }

  /** `decreaseQuantity`: one fewer of every entry with the id, then every entry whose
      quantity is not positive is dropped. */
  function Decrease(cart: seq<CartItem>, id: int): (r: seq<CartItem>)
    ensures |r| <= |cart|
    ensures forall x :: x in r ==> x.quantity > 0
    ensures forall x :: x in r ==>
      (x.id != id && x in cart) || (x.id == id && x.(quantity := x.quantity + 1) in cart)
    ensures forall x :: x in cart && x.id != id && x.quantity > 0 ==> x in r
    ensures forall x :: x in cart && x.id == id && x.quantity > 1 ==> x.(quantity := x.quantity - 1) in r
  {
    var bumped := Map(cart, (x: CartItem) => Bump(x, id, -1));
    var r := Filter(bumped, Positive);
    forall x | x in r
      ensures (x.id != id && x in cart) || (x.id == id && x.(quantity := x.quantity + 1) in cart)
    {
      var k :| 0 <= k < |bumped| && bumped[k] == x;
      if cart[k].id == id {
        assert x.(quantity := x.quantity + 1) == cart[k];
      }
    }
    forall x | x in cart && x.id != id && x.quantity > 0
      ensures x in r
    {
      var k :| 0 <= k < |cart| && cart[k] == x;
      assert bumped[k] == x;
    }
    forall x | x in cart && x.id == id && x.quantity > 1
      ensures x.(quantity := x.quantity - 1) in r
    {
      var k :| 0 <= k < |cart| && cart[k] == x;
      assert bumped[k] == x.(quantity := x.quantity - 1);
    }
    r
  }

  /** The survivors of a decrease keep their relative order. */
  lemma DecreaseKeepsOrder(cart: seq<CartItem>, id: int)
    ensures IsSubsequence(Decrease(cart, id), Map(cart, (x: CartItem) => Bump(x, id, -1)))
  {
    FilterIsSubsequence(Map(cart, (x: CartItem) => Bump(x, id, -1)), Positive);
  }

  /** On a cart of positive quantities, a decrease undoes an increase. */
  lemma {:induction false} DecreaseUndoesIncrease(cart: seq<CartItem>, id: int)
    requires QuantitiesPositive(cart)
    ensures Decrease(Increase(cart, id), id) == cart
  {
    if cart != [] {
      DecreaseUndoesIncrease(cart[1..], id);
      var up := Increase(cart, id);
      assert up[1..] == Increase(cart[1..], id);
      var down := Map(up, (x: CartItem) => Bump(x, id, -1));
      assert down[1..] == Map(up[1..], (x: CartItem) => Bump(x, id, -1));
      assert down[0] == cart[0];
    }
  }

  /** `calculateTotalQuantity`. */
  function TotalQuantity(cart: seq<CartItem>): int {
    if cart == [] then 0 else cart[0].quantity + TotalQuantity(cart[1..])
  }

  /** `increaseQuantity` raises the total quantity by the number of entries with the id;
      with unique ids and the id present, by exactly 1. */
  lemma {:induction false} IncreaseTotalQuantity(cart: seq<CartItem>, id: int)
    ensures TotalQuantity(Increase(cart, id)) == TotalQuantity(cart) + CountId(cart, id)
    ensures UniqueIds(cart) && HasId(cart, id) ==> TotalQuantity(Increase(cart, id)) == TotalQuantity(cart) + 1
  {
    if cart != [] {
      IncreaseTotalQuantity(cart[1..], id);
      assert Increase(cart, id)[1..] == Increase(cart[1..], id);
    }
    if UniqueIds(cart) && HasId(cart, id) {
      CountIdUnique(cart, id);
    }
  }

  /** `calculateOriginalTotalPrice`: the sum of `actual_price * quantity`. */
  function OriginalTotal(cart: seq<CartItem>): real {
    if cart == [] then 0.0
    else cart[0].actualPrice * cart[0].quantity as real + OriginalTotal(cart[1..])
  }

  /** The total of a concatenation is the sum of the totals. */
  lemma {:induction false} OriginalTotalAppend(a: seq<CartItem>, b: seq<CartItem>)
    ensures OriginalTotal(a + b) == OriginalTotal(a) + OriginalTotal(b)
  {
    if a == [] {
      assert a + b == b;
    } else {
      assert (a + b)[1..] == a[1..] + b;
      OriginalTotalAppend(a[1..], b);
    }
  }

  /** The unit price `calculateTotalPrice` uses: the fetched `sp_discount` taken as a
      percentage when it is a positive number. */
  function UnitPrice(x: CartItem, discount: Option<int>): real {
    if discount.Some? && discount.value > 0 then x.actualPrice * (1.0 - discount.value as real / 100.0)
    else x.actualPrice
  }

  /** `calculateTotalPrice`. */
  function TotalPrice(cart: seq<CartItem>, discount: Option<int>): real {
    if cart == [] then 0.0
    else UnitPrice(cart[0], discount) * cart[0].quantity as real + TotalPrice(cart[1..], discount)
  }

  /** Without a positive discount the discounted total is the original total. */
  lemma {:induction false} TotalPriceWithoutDiscount(cart: seq<CartItem>, discount: Option<int>)
    requires discount.None? || discount.value <= 0
    ensures TotalPrice(cart, discount) == OriginalTotal(cart)
  {
    if cart != [] {
      TotalPriceWithoutDiscount(cart[1..], discount);
    }
  }

  /** With a positive discount `d` the whole total is scaled by `1 - d/100`. */
  lemma {:induction false} TotalPriceScaled(cart: seq<CartItem>, d: int)
    requires d > 0
    ensures TotalPrice(cart, Some(d)) == OriginalTotal(cart) * (1.0 - d as real / 100.0)
  {
    if cart != [] {
      TotalPriceScaled(cart[1..], d);
      var k := 1.0 - d as real / 100.0;
      var a := cart[0].actualPrice;
      var q := cart[0].quantity as real;
      assert (a * k) * q == (a * q) * k;
      assert (a * q + OriginalTotal(cart[1..])) * k == (a * q) * k + OriginalTotal(cart[1..]) * k;
    }
  }

  /** `/card-details` stores `sp_discount = 1`, so a saved card takes 1% off the cart. */
  lemma SavedCardTakesOnePercent(cart: seq<CartItem>)
    ensures TotalPrice(cart, Some(1)) == OriginalTotal(cart) * 0.99
  {
    TotalPriceScaled(cart, 1);
  }

  /** The query string `/checkout` is opened with. */
  datatype CheckoutQuery = CheckoutQuery(
    productId: int, quantity: int, price: real, colorName: string, colorImg: string, name: string)

  /** Where the cart page's "Place Order" button leads. */
  datatype CartOutcome =
    | RedirectToLogin
    | AddressModal                     // the modal, then `/profile`
    | EmptyCartWarning
    | GoToCheckout(query: CheckoutQuery)
    | CheckoutFailed                  // the address request failed

  /** `handlePlaceOrder`. `address` is the fetched shipping address, `None` when the
      request failed. */
  function PlaceOrder(userId: Option<int>, address: Option<Address>, cart: seq<CartItem>): (r: CartOutcome)
    ensures userId.None? <==> r == RedirectToLogin
    ensures r.GoToCheckout? <==> userId.Some? && address.Some? && IsComplete(address.value) && cart != []
    ensures r == AddressModal <==> userId.Some? && address.Some? && !IsComplete(address.value)
    ensures r == EmptyCartWarning <==> userId.Some? && address.Some? && IsComplete(address.value) && cart == []
    ensures r.GoToCheckout? ==> r.query == CheckoutQuery(cart[0].id, cart[0].quantity, OriginalTotal(cart),
      cart[0].colorName, cart[0].colorImg, cart[0].name)
  {
    if userId.None? then RedirectToLogin
    else if address.None? then CheckoutFailed
    else if !IsComplete(address.value) then AddressModal
    else if |cart| > 0 then
      GoToCheckout(CheckoutQuery(cart[0].id, cart[0].quantity, OriginalTotal(cart),
        cart[0].colorName, cart[0].colorImg, cart[0].name))
    else EmptyCartWarning
  }

  /** The page's state: `cart`, its `localStorage` copy and the fetched discount. */
  class CartPageState {
    var cart: seq<CartItem>
    var stored: seq<CartItem>
    var discount: Option<int>

    /** `updateCart` keeps the stored copy equal to the state. */
    ghost predicate Valid()
      reads this
    {
      stored == cart
    }

    /** The mount effect: the cart is read back from storage; no discount yet. */
    constructor (storedCart: seq<CartItem>)
      ensures Valid() && cart == storedCart && discount.None?
    {
      cart := storedCart;
      stored := storedCart;
      discount := None;
    }

    /** `fetchDiscount`: `sp_discount` becomes the discount as it is. */
    method SetDiscount(spDiscount: int)
      modifies this`discount
      ensures discount == Some(spDiscount)
    {
      discount := Some(spDiscount);
    }

    method UpdateCart(updated: seq<CartItem>)
      modifies this`cart, this`stored
      ensures Valid() && cart == updated
    {
      cart := updated;
      stored := updated;
    }

    method IncreaseQuantity(id: int)
      requires Valid()
      modifies this`cart, this`stored
      ensures Valid() && cart == Increase(old(cart), id)
      ensures QuantitiesPositive(old(cart)) ==> QuantitiesPositive(cart)
    {
      UpdateCart(Increase(cart, id));
    }

    method DecreaseQuantity(id: int)
      requires Valid()
      modifies this`cart, this`stored
      ensures Valid() && cart == Decrease(old(cart), id)
      ensures QuantitiesPositive(cart)
    {
      UpdateCart(Decrease(cart, id));
      assert forall i :: 0 <= i < |cart| ==> cart[i] in cart;
    }
  }
}
