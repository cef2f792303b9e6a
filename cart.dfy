/** The cart entry the storefront keeps in `localStorage` under `"cart"`: a product
    row together with a quantity. */
module Cart {
  import opened Seqs
  import Server

  datatype CartItem = CartItem(
    id: int,
    name: string,
    colorName: string,
    colorImg: string,
    category: string,
    actualPrice: real,
    strikePrice: real,
    quantity: int)

  /** `{ ...product, quantity }`. */
  function FromProduct(p: Server.Product, quantity: int): (x: CartItem)
    ensures x.id == p.id && x.actualPrice == p.actualPrice && x.quantity == quantity
  {
    CartItem(p.id, p.name, p.colorName, p.colorImg, p.category, p.actualPrice, p.strikePrice, quantity)
  }

  /** No two entries share a product id. */
  predicate UniqueIds(cart: seq<CartItem>) {
    forall i, j :: 0 <= i < j < |cart| ==> cart[i].id != cart[j].id
  }

  predicate HasId(cart: seq<CartItem>, id: int) {
    exists i :: 0 <= i < |cart| && cart[i].id == id
  }

  /** The number of entries with the given id. */
  function CountId(cart: seq<CartItem>, id: int): (n: nat)
    ensures n <= |cart|
    ensures n == 0 <==> !HasId(cart, id)
  {
    if cart == [] then 0
    else (if cart[0].id == id then 1 else 0) + CountId(cart[1..], id)
  }

  /** With unique ids, an id that is present occurs exactly once. */
  lemma {:induction false} CountIdUnique(cart: seq<CartItem>, id: int)
    requires UniqueIds(cart) && HasId(cart, id)
    ensures CountId(cart, id) == 1
  {
    if cart[0].id == id {
      assert !HasId(cart[1..], id);
    } else {
      var i :| 0 <= i < |cart| && cart[i].id == id;
      assert cart[1..][i - 1].id == id;
      CountIdUnique(cart[1..], id);
    }
  }

  /** Every entry has a positive quantity. */
  predicate QuantitiesPositive(cart: seq<CartItem>) {
    forall i :: 0 <= i < |cart| ==> cart[i].quantity > 0
  }
}
