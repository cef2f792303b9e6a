/** `src/components/ProductDetails.tsx`: adding to the cart, the generated reviews,
    the offers normalisation, the "Buy Now" gating and the stock text. */
module ProductDetails {
  import opened Wrappers
  import opened Text
  import opened Addresses
  import opened Cart
  import CartPage
  import Server

  // ---------------------------------------------------------------------------
  // Add to cart

  /** The position of the first entry with the id, or `|cart|` when there is none. */
  function IndexOfId(cart: seq<CartItem>, id: int): (k: nat)
    ensures k <= |cart|
    ensures k < |cart| ==> cart[k].id == id
    ensures forall i :: 0 <= i < k ==> cart[i].id != id
  {
    if cart == [] then 0
    else if cart[0].id == id then 0
    else 1 + IndexOfId(cart[1..], id)
  }

  /** The cart `handleAddToCart` saves: the first entry with the product's id gets one
      more, or the product is appended with quantity 1. */
  function AddedToCart(cart: seq<CartItem>, p: Server.Product): seq<CartItem> {
    var k := IndexOfId(cart, p.id);
    if k < |cart| then cart[k := cart[k].(quantity := cart[k].quantity + 1)]
    else cart + [FromProduct(p, 1)]
  }

  /** A product already in the cart: same length, its first entry has one more, every
      other entry is unchanged. */
  lemma AddExisting(cart: seq<CartItem>, p: Server.Product)
    requires HasId(cart, p.id)
    ensures var r := AddedToCart(cart, p); var k := IndexOfId(cart, p.id);
      && |r| == |cart| && k < |cart|
      && r[k] == cart[k].(quantity := cart[k].quantity + 1)
      && forall i :: 0 <= i < |cart| && i != k ==> r[i] == cart[i]
  {
  }

  /** A product not in the cart: appended with quantity 1, one entry longer. */
  lemma AddAbsent(cart: seq<CartItem>, p: Server.Product)
    requires !HasId(cart, p.id)
    ensures AddedToCart(cart, p) == cart + [FromProduct(p, 1)]
    ensures |AddedToCart(cart, p)| == |cart| + 1
  {
    assert IndexOfId(cart, p.id) == |cart|;
  }

  /** Adding keeps the ids unique and raises the total quantity by exactly 1. */
  lemma AddKeepsIdsUnique(cart: seq<CartItem>, p: Server.Product)
    requires UniqueIds(cart)
    ensures UniqueIds(AddedToCart(cart, p))
    ensures CartPage.TotalQuantity(AddedToCart(cart, p)) == CartPage.TotalQuantity(cart) + 1
  {
    var k := IndexOfId(cart, p.id);
    if k < |cart| {
      TotalQuantityUpdate(cart, k, cart[k].quantity + 1);
    } else {
      TotalQuantityAppend(cart, FromProduct(p, 1));
    }
  }

  lemma {:induction false} TotalQuantityUpdate(cart: seq<CartItem>, k: nat, q: int)
    requires k < |cart|
    ensures CartPage.TotalQuantity(cart[k := cart[k].(quantity := q)])
      == CartPage.TotalQuantity(cart) - cart[k].quantity + q
  {
    if k > 0 {
      TotalQuantityUpdate(cart[1..], k - 1, q);
      assert cart[k := cart[k].(quantity := q)][1..] == cart[1..][k - 1 := cart[k].(quantity := q)];
    }
  }

  lemma {:induction false} TotalQuantityAppend(cart: seq<CartItem>, x: CartItem)
    ensures CartPage.TotalQuantity(cart + [x]) == CartPage.TotalQuantity(cart) + x.quantity
  {
    if cart == [] {
      assert cart + [x] == [x];
    } else {
      assert (cart + [x])[1..] == cart[1..] + [x];
      TotalQuantityAppend(cart[1..], x);
    }
  }

  /** The stored cart and the shared cart count. */
  class ProductPage {
    var storedCart: seq<CartItem>
    var cartCount: int

    constructor (stored: seq<CartItem>)
      ensures storedCart == stored && cartCount == |stored|
    {
      storedCart := stored;
      cartCount := |stored|;
    }

    /** `handleAddToCart`: search the stored cart, bump or append, save, and set the
        cart count to the number of ENTRIES. */
    method AddToCart(p: Server.Product)
      modifies this
      ensures storedCart == AddedToCart(old(storedCart), p)
      ensures cartCount == |storedCart|
    {
      var items := storedCart;
      var i := 0;
      while i < |items| && items[i].id != p.id
        invariant 0 <= i <= |items|
        invariant forall k :: 0 <= k < i ==> items[k].id != p.id
      {
        i := i + 1;
      }
      IndexOfIdIs(items, p.id, i);
      if i < |items| {
        items := items[i := items[i].(quantity := items[i].quantity + 1)];
      } else {
        items := items + [FromProduct(p, 1)];
      }
      storedCart := items;
      cartCount := |items|;
    }
  }

  /** The linear search finds the position `IndexOfId` names. */
  lemma {:induction false} IndexOfIdIs(cart: seq<CartItem>, id: int, i: nat)
    requires i <= |cart| && (i < |cart| ==> cart[i].id == id)
    requires forall k :: 0 <= k < i ==> cart[k].id != id
    ensures IndexOfId(cart, id) == i
  {
    if cart != [] && i > 0 {
      IndexOfIdIs(cart[1..], id, i - 1);
    }
  }

  /** Adding a product already in a cart with unique ids leaves the count of entries
      unchanged although one more item is in the cart. */
  lemma CountIsEntriesNotItems(cart: seq<CartItem>, p: Server.Product)
    requires UniqueIds(cart) && HasId(cart, p.id)
    ensures |AddedToCart(cart, p)| == |cart|
    ensures CartPage.TotalQuantity(AddedToCart(cart, p)) == CartPage.TotalQuantity(cart) + 1
  {
    AddKeepsIdsUnique(cart, p);
  }

  // ---------------------------------------------------------------------------
  // Generated reviews

  datatype Review = Review(name: string, rating: int, comment: string)

  const FakeNames: seq<string> :=
    ["Alice", "Bob", "Charlie", "David", "Eve", "Jona", "Grace", "Henry", "Ivy", "Kevin"]
  const Adjectives: seq<string> :=
    ["Excellent", "Great", "Good", "Amazing", "Fantastic", "Satisfied", "Impressed", "Decent", "Okay", "Disappointed"]
  const Aspects: seq<string> :=
    ["quality", "price", "performance", "design", "features", "usability", "comfort", "sound", "battery life", "camera"]
  const Sentiments: seq<string> :=
    ["love it", "really like it", "it's okay", "could be better", "not great"]

  predicate IsRandom(r: real) {
    0.0 <= r < 1.0
  }

  /** `options[Math.floor(Math.random() * options.length)]`. */
  function Pick(options: seq<string>, r: real): (s: string)
    requires options != [] && IsRandom(r)
    ensures s in options
  {
    var k := (r * |options| as real).Floor;
    assert k as real <= r * |options| as real < |options| as real;
    options[k]
  }

  /** `generateRandomRating`. */
  function RandomRating(r: real): (k: int)
    requires IsRandom(r)
    ensures 1 <= k <= 5
  {
    (r * 5.0).Floor + 1
  }

  /** The five `Math.random()` draws one review consumes, in the loop's order. */
  datatype ReviewDraw = ReviewDraw(adjective: real, aspect: real, sentiment: real, name: real, rating: real)

  predicate ValidDraw(d: ReviewDraw) {
    IsRandom(d.adjective) && IsRandom(d.aspect) && IsRandom(d.sentiment) && IsRandom(d.name) && IsRandom(d.rating)
  }

  /** One generated review: ``${adjective} ${productName}! The ${aspect} is ${sentiment}.``. */
  function ReviewFor(productName: string, d: ReviewDraw): (r: Review)
    requires ValidDraw(d)
    ensures r.name in FakeNames && 1 <= r.rating <= 5
  {
    Review(Pick(FakeNames, d.name), RandomRating(d.rating),
      Pick(Adjectives, d.adjective) + " " + productName + "! The " + Pick(Aspects, d.aspect)
        + " is " + Pick(Sentiments, d.sentiment) + ".")
  }

  /** `generateRandomReviews(count, productName)`: exactly `count` reviews (none for a
      non-positive count), review `i` built from draw `i`. */
  method GenerateRandomReviews(count: int, productName: string, draws: seq<ReviewDraw>)
    returns (reviews: seq<Review>)
    requires count <= |draws|
    requires forall i :: 0 <= i < |draws| ==> ValidDraw(draws[i])
    ensures |reviews| == if count <= 0 then 0 else count
    ensures forall i :: 0 <= i < |reviews| ==> reviews[i] == ReviewFor(productName, draws[i])
    ensures forall r :: r in reviews ==> 1 <= r.rating <= 5 && r.name in FakeNames
  {
    reviews := [];
    var i := 0;
    while i < count
      invariant 0 <= i <= (if count > 0 then count else 0)
      invariant |reviews| == i
      invariant forall k :: 0 <= k < i ==> reviews[k] == ReviewFor(productName, draws[k])
    {
      reviews := reviews + [ReviewFor(productName, draws[i])];
      i := i + 1;
    }
    forall r | r in reviews
      ensures 1 <= r.rating <= 5 && r.name in FakeNames
    {
      var k :| 0 <= k < |reviews| && reviews[k] == r;
      assert r == ReviewFor(productName, draws[k]);
    }
  }

  /** How many reviews are generated when the product loads (108-110) and when
      "show reviews" runs with the section not yet rendered (168). */
  function InitialReviewCount(reviews: int): (n: int)
    ensures 0 <= n <= 5
    ensures 0 < reviews <= 5 ==> n == reviews
    ensures reviews > 5 ==> n == 5
    ensures reviews <= 0 ==> n == 0
  {
    if reviews > 0 then (if reviews < 5 then reviews else 5) else 0
  }

  function ShownReviewCount(reviews: int): (n: int)
    ensures n <= 5 && (n == 5 || n == reviews)
    ensures reviews > 0 ==> n == InitialReviewCount(reviews)
  {
    if reviews < 5 then reviews else 5
  }

  // ---------------------------------------------------------------------------
  // Offers

  /** The run-time shape of `product.offers`; `Absent` is every falsy value. */
  datatype OffersField = Absent | Text(text: string) | List(items: seq<string>) | OtherValue

  /** What `JSON.parse` makes of a string: an array, another value, or a failure. */
  datatype Parsed = ParsedArray(items: seq<string>) | ParsedOther | ParseFailure

  /** The offers list shown, and the error message set, if any. */
  datatype Offers = Offers(list: seq<string>, error: Option<string>)

  /** The normalisation at 230-251; an empty string is falsy and skipped like `null`. */
  function NormaliseOffers(field: OffersField, parse: string -> Parsed): (r: Offers)
    ensures r.error.Some? ==> r.list == []
    ensures field.Absent? || (field.Text? && IsBlank(field.text)) ==> r == Offers([], None)
    ensures field.List? ==> r == Offers(field.items, None)
    ensures field.Text? && !IsBlank(field.text) ==>
      match parse(field.text)
      case ParsedArray(items) => r == Offers(items, None)
      case ParsedOther => r == Offers([], Some("Parsed offers is not an array."))
      case ParseFailure => r == Offers([], Some("Error parsing offers."))
    ensures field.OtherValue? ==> r == Offers([], Some("Invalid offers data."))
  {
    match field
    case Absent => Offers([], None)
    case Text(text) =>
      TrimEmptyIffBlank(text);
      if text == [] then Offers([], None)
      else if Trim(text) == "" then Offers([], None)
      else
        (match parse(text)
         case ParsedArray(items) => Offers(items, None)
         case ParsedOther => Offers([], Some("Parsed offers is not an array."))
         case ParseFailure => Offers([], Some("Error parsing offers.")))
    case List(items) => Offers(items, None)
    case OtherValue => Offers([], Some("Invalid offers data."))
  }

  /** The offers are empty and error-free for a blank string whatever the parser does. */
  lemma BlankOffersIgnoreParser(text: string, parse1: string -> Parsed, parse2: string -> Parsed)
    requires IsBlank(text)
    ensures NormaliseOffers(Text(text), parse1) == NormaliseOffers(Text(text), parse2) == Offers([], None)
  {
  }

  // ---------------------------------------------------------------------------
  // Buy now and stock

  datatype BuyNowOutcome =
    | LoginWarning                      // the warning, then `/login`
    | AddressModal                      // the modal, then `/profile`
    | GoToCheckout(query: CartPage.CheckoutQuery)
    | BuyNowFailed                      // the address request failed

  /** `handleBuyNow`: checkout with this one product, quantity 1, at its actual price. */
  function BuyNow(userId: Option<int>, address: Option<Address>, p: Server.Product): (r: BuyNowOutcome)
    ensures userId.None? <==> r == LoginWarning
    ensures r == AddressModal <==> userId.Some? && address.Some? && !IsComplete(address.value)
    ensures r.GoToCheckout? <==> userId.Some? && address.Some? && IsComplete(address.value)
    ensures r.GoToCheckout? ==>
      r.query == CartPage.CheckoutQuery(p.id, 1, p.actualPrice, p.colorName, p.colorImg, p.name)
  {
    if userId.None? then LoginWarning
    else if address.None? then BuyNowFailed
    else if !IsComplete(address.value) then AddressModal
    else GoToCheckout(CartPage.CheckoutQuery(p.id, 1, p.actualPrice, p.colorName, p.colorImg, p.name))
  }

  /** The stock line: "Only <n> Stocks Left Hurry Up!" below 55, else "<n> Stocks Left". */
  function StockLabel(stocks: int): (r: string)
    ensures |r| > 0 && (r[0] == 'O' <==> stocks < 55)
  {
    if stocks < 55 then Only + IntToString(stocks) + StocksLeft + HurryUp
    else IntToString(stocks) + StocksLeft
  }

  const Only: string := "Only "
  const StocksLeft: string := " Stocks Left"
  const HurryUp: string := " Hurry Up!"

  /** `t` occurs in `a + t + c` right after `a`. */
  lemma OccursBetween(a: string, t: string, c: string)
    ensures OccursAt(a + t + c, t, |a|)
  {
    assert (a + t + c)[|a|..|a| + |t|] == t;
  }

  /** The urgent wording appears exactly below 55 units, and the count is always shown. */
  lemma StockLabelUrgentIff(stocks: int)
    ensures StockLabel(stocks)[0] == 'O' <==> stocks < 55
    ensures stocks < 55 ==> StockLabel(stocks)[..5] == "Only "
    ensures stocks < 55 ==> StockLabel(stocks) == Only + IntToString(stocks) + StocksLeft + HurryUp
    ensures stocks >= 55 ==> StockLabel(stocks) == IntToString(stocks) + StocksLeft
    ensures Contains(StockLabel(stocks), IntToString(stocks))
  {
    var n := IntToString(stocks);
    var text := StockLabel(stocks);
    assert |Only| == 5 && Only[0] == 'O';
    if stocks < 55 {
      assert text == Only + n + (StocksLeft + HurryUp);
      OccursBetween(Only, n, StocksLeft + HurryUp);
      assert text[..5] == Only;
    } else {
      OccursBetween([], n, StocksLeft);
      assert [] + n + StocksLeft == text;
      assert text[0] == n[0];
    }
    ContainsIff(text, n);
  }
}
