/** `src/components/Checkout.tsx`: the 20% checkout discount and `handlePlaceOrder`,
    which picks the items to order, gates on the user and the address, builds the
    `/orders-cart` payload and, on a 200 reply, clears the cart. */
module Checkout {
  import opened Wrappers
  import opened Addresses
  import opened Cart
  import Server

  /** The query parameters, already decoded; `None` is a missing or empty parameter
      (`parseInt`/`parseFloat` of malformed text is not modelled). */
  datatype Query = Query(
    productId: Option<int>,
    quantity: Option<int>,
    price: Option<real>,
    colorName: string,
    colorImg: string,
    name: string)

  const FixedDiscountPercentage: real := 20.0

  /** `parseFloat(orderDetails.price || "0")`. */
  function QueryPrice(q: Query): real {
    q.price.GetOr(0.0)
  }

  /** `calculateDiscountedPrice`: the price less 20%. */
  function DiscountedPrice(q: Query): (r: real)
    ensures r == QueryPrice(q) * 0.8
    ensures q.price.None? ==> r == 0.0
    ensures QueryPrice(q) >= 0.0 ==> 0.0 <= r <= QueryPrice(q)
  {
    var price := QueryPrice(q);
    price - price * (FixedDiscountPercentage / 100.0)
  }

  /** The single item built from the query (127-139). */
  function QueryItem(q: Query): (item: CartItem)
    requires q.productId.Some?
    ensures item.id == q.productId.value
    ensures item.quantity == if q.quantity.Some? then q.quantity.value else 1
    ensures item.actualPrice == item.strikePrice == QueryPrice(q)
  {
    CartItem(q.productId.value, q.name, q.colorName, q.colorImg, "", QueryPrice(q), QueryPrice(q),
      q.quantity.GetOr(1))
  }

  /** `itemsToOrder`: the query's product when there is one, else the `cart` state. */
  function ItemsToOrder(cart: seq<CartItem>, q: Query): (items: seq<CartItem>)
    ensures q.productId.Some? ==>
      && |items| == 1 && items[0].id == q.productId.value
      && items[0].quantity == (if q.quantity.Some? then q.quantity.value else 1)
      && items[0].actualPrice == items[0].strikePrice == QueryPrice(q)
    ensures q.productId.None? ==> items == cart
  {
    if q.productId.Some? then [QueryItem(q)] else cart
  }

  /** One element of the `orders` array posted to `/orders-cart`. */
  datatype OrderEntry = OrderEntry(
    userId: int, productId: int, quantity: int, price: real, finalPrice: real,
    address: Address, colorName: string, colorImg: string, name: string)

  /** `orderData`: one entry per item. */
  function OrderData(items: seq<CartItem>, userId: int, q: Query, address: Address): (data: seq<OrderEntry>)
    ensures |data| == |items|
    ensures forall i :: 0 <= i < |items| ==>
      && data[i].productId == items[i].id && data[i].quantity == items[i].quantity
      && data[i].colorName == items[i].colorName && data[i].colorImg == items[i].colorImg
      && data[i].name == items[i].name
    ensures forall e :: e in data ==>
      e.userId == userId && e.address == address && e.price == QueryPrice(q) && e.finalPrice == DiscountedPrice(q)
  {
    seq(|items|, i requires 0 <= i < |items| =>
      OrderEntry(userId, items[i].id, items[i].quantity, QueryPrice(q), DiscountedPrice(q), address,
        items[i].colorName, items[i].colorImg, items[i].name))
  }

  /** What `/orders-cart` reads from one entry (it ignores `price`). */
  function AsRequest(e: OrderEntry): Server.CartOrderRequest {
    Server.CartOrderRequest(e.userId, e.productId, e.quantity, e.finalPrice, e.address,
      e.colorName, e.colorImg, e.name)
  }

  /** Every row the server inserts for one checkout carries the same user, address
      snapshot and final price. */
  lemma CheckoutRowsShared(items: seq<CartItem>, userId: int, q: Query, address: Address,
                          rands: seq<real>, firstId: nat)
    requires |rands| >= |items| && forall i :: 0 <= i < |rands| ==> Server.IsRandom(rands[i])
    ensures var data := OrderData(items, userId, q, address);
      var reqs := seq(|data|, i requires 0 <= i < |data| => AsRequest(data[i]));
      forall row :: row in Server.CartRows(reqs, rands, firstId) ==>
        row.userId == userId && row.address == address && row.finalPrice == Some(DiscountedPrice(q))
  {
    var data := OrderData(items, userId, q, address);
    var reqs := seq(|data|, i requires 0 <= i < |data| => AsRequest(data[i]));
    forall row | row in Server.CartRows(reqs, rands, firstId)
      ensures row.userId == userId && row.address == address && row.finalPrice == Some(DiscountedPrice(q))
    {
      var k :| 0 <= k < |reqs| && Server.CartRows(reqs, rands, firstId)[k] == row;
      Server.CartRowsCarryRequests(reqs, rands, firstId, k);
      assert data[k] in data;
    }
  }

  datatype CheckoutOutcome =
    | EmptyCartWarning
    | RedirectToLogin
    | AddressWarning
    | OrderPosted(orders: seq<OrderEntry>)
    | OrderFailed                          // the address request failed

  /** The decision `handlePlaceOrder` reaches. */
  function Outcome(cart: seq<CartItem>, q: Query, userId: Option<int>, address: Option<Address>): (r: CheckoutOutcome)
    ensures r == EmptyCartWarning <==> ItemsToOrder(cart, q) == []
    ensures r == RedirectToLogin <==> ItemsToOrder(cart, q) != [] && userId.None?
    ensures r == AddressWarning <==>
      ItemsToOrder(cart, q) != [] && userId.Some? && address.Some? && !IsComplete(address.value)
    ensures r.OrderPosted? <==>
      ItemsToOrder(cart, q) != [] && userId.Some? && address.Some? && IsComplete(address.value)
    ensures r.OrderPosted? ==> r.orders == OrderData(ItemsToOrder(cart, q), userId.value, q, address.value)
  {
    var items := ItemsToOrder(cart, q);
    if |items| == 0 then EmptyCartWarning
    else if userId.None? then RedirectToLogin
    else if address.None? then OrderFailed
    else if !IsComplete(address.value) then AddressWarning
    else OrderPosted(OrderData(items, userId.value, q, address.value))
  }

  /** The page's state. */
  class CheckoutPage {
    var cart: seq<CartItem>
    var storedCart: seq<CartItem>
    var showModal: bool
    var showPaymentStatus: bool
    var orderProcessed: bool

    /** Nothing ever puts an item into `cart`. */
    ghost predicate Valid()
      reads this
    {
      cart == []
    }

    constructor (stored: seq<CartItem>)
      ensures Valid() && storedCart == stored
      ensures !showModal && !showPaymentStatus && !orderProcessed
    {
      cart := [];
      storedCart := stored;
      showModal := false;
      showPaymentStatus := false;
      orderProcessed := false;
    }

    /** `handlePlaceOrder`. `postStatus` is the status of the delayed `/orders-cart` post.
        Only a 200 clears the cart and marks the order processed. */
    method PlaceOrder(q: Query, userId: Option<int>, address: Option<Address>, postStatus: nat)
      returns (outcome: CheckoutOutcome)
      requires Valid()
      modifies this
      ensures Valid()
      ensures outcome == Outcome(old(cart), q, userId, address)
      ensures !outcome.OrderPosted? ==>
        storedCart == old(storedCart) && showModal == old(showModal)
        && showPaymentStatus == old(showPaymentStatus) && orderProcessed == old(orderProcessed)
      ensures outcome.OrderPosted? && postStatus == 200 ==>
        storedCart == [] && !showModal && showPaymentStatus && orderProcessed
      ensures outcome.OrderPosted? && postStatus != 200 ==>
        storedCart == old(storedCart) && showModal
        && showPaymentStatus == old(showPaymentStatus) && orderProcessed == old(orderProcessed)
    {
      var itemsToOrder := cart;
      if q.productId.Some? {
        itemsToOrder := [QueryItem(q)];
      }
      if |itemsToOrder| == 0 {
        return EmptyCartWarning;
      }
      if userId.None? {
        return RedirectToLogin;
      }
      if address.None? {
        return OrderFailed;
      }
      if !IsComplete(address.value) {
        return AddressWarning;
      }
      var orderData := OrderData(itemsToOrder, userId.value, q, address.value);
      showModal := true;
      if postStatus == 200 {
        storedCart := [];
        cart := [];
        showModal := false;
        showPaymentStatus := true;
        orderProcessed := true;
      }
      outcome := OrderPosted(orderData);
    }
  }

  /** Without a `productId` the checkout page only ever warns: its `cart` is empty. */
  lemma NoProductIdNeverPosts(q: Query, userId: Option<int>, address: Option<Address>)
    requires q.productId.None?
    ensures Outcome([], q, userId, address) == EmptyCartWarning
  {
  }
}
