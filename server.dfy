/** The REST handlers of `backend/server.js`, modelled on an in-memory copy of the
    four tables (`allproducts`, `users`, `orders`, `wishlist`). Read-only handlers are
    functions of the table contents; handlers that insert, delete or overwrite rows
    are methods of `Store`. A SQL `WHERE` clause is a filter over the table in table
    order, `LIKE '%t%'` is plain substring containment, and a request field that is
    absent, `null` or empty is the empty string (or `None`, or the number 0, for ids),
    which is how JavaScript's `!x` test sees it. Database errors (the 500 replies)
    are not modelled. */
module Server {
  import opened Wrappers
  import opened Seqs
  import opened Text
  import opened Addresses

  /** A row of `allproducts`. */
  datatype Product = Product(
    id: int,
    name: string,
    category: string,
    brand: string,
    colorName: string,
    colorImg: string,
    actualPrice: real,
    strikePrice: real,
    trendingScore: real,
    viewsCount: int,
    ratings: real,
    reviews: int,
    stocks: int)

  /** A JSON reply: a 200 with a body, or an error status with its message. */
  datatype Reply<T> = Ok(value: T) | Error(status: nat, message: string) {
    function Status(): nat {
      if Ok? then 200 else status
    }
  }

  /** `!x` on a numeric field of a JSON body: absent, `null` or 0. */
  predicate Given(x: Option<int>) {
    x.Some? && x.value != 0
  }

  /** `!x` on an id read from the URL (`req.params`, `req.query`): such a value is a
      string, falsy only when absent or empty (`None`); "0" is supplied. */
  predicate Supplied(x: Option<int>) {
    x.Some?
  }

  // ---------------------------------------------------------------------------
  // Catalogue queries

  /** `LOWER(TRIM(category)) = LOWER(TRIM(?))`. */
  predicate SameTrimmedCategory(p: Product, category: string) {
    Lower(Trim(p.category)) == Lower(Trim(category))
  }

  /** `GET /popular-products`: trending score above 75, restricted to one category
      unless the parameter is missing or `"All"`. */
  function PopularProducts(products: seq<Product>, category: string): (r: seq<Product>)
    ensures IsSubsequence(r, products)
    ensures forall p :: p in r <==>
      p in products && Trending(p)
      && (category != "" && category != "All" ==> SameTrimmedCategory(p, category))
    ensures category == "" || category == "All" ==> r == Filter(products, Trending)
  {
    var keep := (p: Product) => Trending(p)
      && (category == "" || category == "All" || SameTrimmedCategory(p, category));
    FilterIsSubsequence(products, keep);
    if category == "" || category == "All" then
      FilterSamePredicate(products, keep, Trending);
      Filter(products, keep)
    else
      Filter(products, keep)
  }

  /** The popularity threshold of `/popular-products`. */
  predicate Trending(p: Product) {
    p.trendingScore > 75.0
  }

  /** `GET /category-products`: 400 without a category, 404 when nothing matches. */
  function CategoryProducts(products: seq<Product>, category: string): (r: Reply<seq<Product>>)
    ensures category == "" ==> r == Error(400, "Category is required")
    ensures r.Error? && category != "" ==>
      r.status == 404 && forall p :: p in products ==> !SameTrimmedCategory(p, category)
    ensures r.Ok? ==>
      && |r.value| > 0 && IsSubsequence(r.value, products)
      && forall p :: p in r.value <==> p in products && SameTrimmedCategory(p, category)
  {
    if category == "" then Error(400, "Category is required")
    else
      var keep := (p: Product) => SameTrimmedCategory(p, category);
      var results := Filter(products, keep);
      FilterIsSubsequence(products, keep);
      if |results| == 0 then Error(404, "No Products found for this category") else Ok(results)
  }

  /** `GET /weekly-deals`: products viewed more than 15000 times, 404 when there are none. */
  function WeeklyDeals(products: seq<Product>): (r: Reply<seq<Product>>)
    ensures r.Error? <==> forall p :: p in products ==> p.viewsCount <= 15000
    ensures r.Error? ==> r.status == 404
    ensures r.Ok? ==>
      && IsSubsequence(r.value, products)
      && forall p :: p in r.value <==> p in products && p.viewsCount > 15000
  {
    var keep := (p: Product) => p.viewsCount > 15000;
    var results := Filter(products, keep);
    FilterIsSubsequence(products, keep);
    if |results| == 0 then Error(404, "No weekly deals found") else Ok(results)
  }

  /** The columns `/filters` selects. */
  datatype FacetRow = FacetRow(brand: string, ratings: real, actualPrice: real)

  function Facet(p: Product): FacetRow {
    FacetRow(p.brand, p.ratings, p.actualPrice)
  }

  /** How `/filters` selects its rows. */
  datatype FilterQuery =
    | ByCategoryKey(key: string)   // LOWER(REPLACE(category, ' ', '')) = key
    | ByNameLike(pattern: string)  // LOWER(name) LIKE '%pattern%'

  predicate HasCategoryKey(p: Product, key: string) {
    SqlNormalise(p.category) == key
  }

  /** The category check of `/filters`: `SELECT COUNT(*) ... WHERE LOWER(REPLACE(category, ' ', '')) = ?`. */
  function CategoryCount(products: seq<Product>, key: string): (n: nat)
    ensures n > 0 <==> exists p :: p in products && HasCategoryKey(p, key)
  {
    var keep := (p: Product) => HasCategoryKey(p, key);
    FilterNonEmptyIff(products, keep);
    |Filter(products, keep)|
  }

  /** The query `/filters` runs, or `None` for the 400 reply. */
  function FilterQueryFor(products: seq<Product>, category: string, search: string): (r: Option<FilterQuery>)
    ensures r.None? <==> category == "" && search == ""
    ensures category != "" ==> r == Some(ByCategoryKey(Normalise(category)))
    ensures category == "" && search != "" ==>
      r == Some(if exists p :: p in products && HasCategoryKey(p, Normalise(search))
                then ByCategoryKey(Normalise(search)) else ByNameLike(Lower(search)))
  {
    if category != "" then Some(ByCategoryKey(Normalise(category)))
    else if search != "" then
      if CategoryCount(products, Normalise(search)) > 0 then Some(ByCategoryKey(Normalise(search)))
      else Some(ByNameLike(Lower(search)))
    else None
  }

  function Selects(q: FilterQuery): Product -> bool {
    match q
    case ByCategoryKey(key) => (p: Product) => HasCategoryKey(p, key)
    case ByNameLike(pattern) => (p: Product) => Contains(Lower(p.name), pattern)
  }

  /** `GET /filters`: the brand, rating and price of every product the query selects. */
  function Filters(products: seq<Product>, category: string, search: string): (r: Reply<seq<FacetRow>>)
    ensures r.Error? <==> category == "" && search == ""
    ensures r.Error? ==> r.status == 400
  {
    match FilterQueryFor(products, category, search)
    case None => Error(400, "Category or Search query is required")
    case Some(q) => Ok(Map(Filter(products, Selects(q)), Facet))
  }

  /** The facets of the rows a predicate selects. */
  function FacetsWhere(products: seq<Product>, keep: Product -> bool): seq<FacetRow> {
    Map(Filter(products, keep), Facet)
  }

  /** A `category` parameter wins over `search`: the rows are those whose space-stripped,
      lowercased category equals the whitespace-stripped, lowercased parameter. */
  lemma FiltersCategoryFirst(products: seq<Product>, category: string, search: string)
    requires category != ""
    ensures Filters(products, category, search)
      == Ok(FacetsWhere(products, (p: Product) => SqlNormalise(p.category) == Normalise(category)))
  {
    FilterSamePredicate(products, Selects(ByCategoryKey(Normalise(category))),
      (p: Product) => SqlNormalise(p.category) == Normalise(category));
  }

  /** Without a category, a search that equals some product's category key is a category
      filter; otherwise it is a lowercased name match in which spaces are NOT stripped. */
  lemma FiltersSearch(products: seq<Product>, search: string)
    requires search != ""
    ensures (exists p :: p in products && SqlNormalise(p.category) == Normalise(search)) ==>
      Filters(products, "", search)
        == Ok(FacetsWhere(products, (p: Product) => SqlNormalise(p.category) == Normalise(search)))
    ensures (forall p :: p in products ==> SqlNormalise(p.category) != Normalise(search)) ==>
      Filters(products, "", search)
        == Ok(FacetsWhere(products, (p: Product) => Contains(Lower(p.name), Lower(search))))
  {
    var key := Normalise(search);
    FilterSamePredicate(products, Selects(ByCategoryKey(key)),
      (p: Product) => SqlNormalise(p.category) == key);
    FilterSamePredicate(products, Selects(ByNameLike(Lower(search))),
      (p: Product) => Contains(Lower(p.name), Lower(search)));
    if exists p :: p in products && SqlNormalise(p.category) == key {
      var p :| p in products && SqlNormalise(p.category) == key;
      assert HasCategoryKey(p, key);
    }
  }

  /** Category strings that normalise alike give the same facets; and a search that
      names an existing category gives the same facets as that category parameter. */
  lemma FiltersNormalisation(products: seq<Product>, c1: string, c2: string, search: string)
    requires c1 != "" && c2 != "" && Normalise(c1) == Normalise(c2)
    requires search != ""
    requires exists p :: p in products && SqlNormalise(p.category) == Normalise(search)
    ensures Filters(products, c1, search) == Filters(products, c2, "")
    ensures Filters(products, "", search) == Filters(products, search, "")
  {
    var p :| p in products && SqlNormalise(p.category) == Normalise(search);
    assert HasCategoryKey(p, Normalise(search));
  }

  /** `GET /filters-category-name`: the category of the first product whose lowercased
      name contains the trimmed search, or `null`. */
  function FiltersCategoryName(products: seq<Product>, search: string): (r: Option<string>)
    ensures Trim(search) == "" ==> r.None?
    ensures r.None? && Trim(search) != "" ==>
      forall p :: p in products ==> !Contains(Lower(p.name), Lower(Trim(search)))
    ensures r.Some? ==>
      exists p :: p in products && p.category == r.value && Contains(Lower(p.name), Lower(Trim(search)))
  {
    var s := Trim(search);
    if s == "" then None
    else
      match Find(products, (p: Product) => Contains(Lower(p.name), Lower(s)))
      case None => None
      case Some(p) => Some(p.category)
  }

  /** The pattern `/products` builds: trimmed, lowercased, whitespace removed. */
  function SearchPattern(rawSearch: string): string {
    StripSpaces(Lower(Trim(rawSearch)))
  }

  /** `REPLACE(LOWER(name), ' ', '') LIKE ? OR REPLACE(LOWER(category), ' ', '') LIKE ?`. */
  predicate MatchesSearch(p: Product, pattern: string) {
    Contains(RemoveBlanks(Lower(p.name)), pattern) || Contains(RemoveBlanks(Lower(p.category)), pattern)
  }

  /** `GET /products?search=`. */
  function SearchProducts(products: seq<Product>, rawSearch: string): (r: seq<Product>)
    ensures IsSubsequence(r, products)
    ensures forall p :: p in r <==> p in products && MatchesSearch(p, SearchPattern(rawSearch))
  {
    var keep := (p: Product) => MatchesSearch(p, SearchPattern(rawSearch));
    FilterIsSubsequence(products, keep);
    Filter(products, keep)
  }

  /** An empty (or all-whitespace) search matches every product. */
  lemma SearchEmptyMatchesAll(products: seq<Product>, rawSearch: string)
    requires SearchPattern(rawSearch) == ""
    ensures SearchProducts(products, rawSearch) == products
  {
    FilterKeepsAll(products, (p: Product) => MatchesSearch(p, SearchPattern(rawSearch)));
  }

  /** `GET /products/:id` and `GET /product-details/:id`. */
  function ProductById(products: seq<Product>, id: int): (r: Reply<Product>)
    ensures r.Ok? <==> exists p :: p in products && p.id == id
    ensures r.Ok? ==> r.value in products && r.value.id == id
    ensures r.Error? ==> r == Error(404, "Product not found")
  {
    match Find(products, (p: Product) => p.id == id)
    case None => Error(404, "Product not found")
    case Some(p) => Ok(p)
  }

  /** `GET /product-variants/:name`: colour variants share the exact display name. */
  function ProductVariants(products: seq<Product>, name: string): (r: seq<Product>)
    ensures IsSubsequence(r, products)
    ensures forall p :: p in r <==> p in products && p.name == name
  {
    var keep := (p: Product) => p.name == name;
    FilterIsSubsequence(products, keep);
    Filter(products, keep)
  }

  /** `GET /similar-products`: at most 8 products of the category other than `excludeId`. */
  function SimilarProducts(products: seq<Product>, category: string, excludeId: int): (r: seq<Product>)
    ensures |r| <= 8
    ensures forall p :: p in r ==> p in products && p.category == category && p.id != excludeId
    ensures r <= Filter(products, (p: Product) => p.category == category && p.id != excludeId)
    ensures |r| < 8 ==> forall p :: p in products && p.category == category && p.id != excludeId ==> p in r
  {
    Prefix(Filter(products, (p: Product) => p.category == category && p.id != excludeId), 8)
  }

  // ---------------------------------------------------------------------------
  // Users

  /** A row of `users`; the encrypted card columns are not modelled. */
  datatype User = User(
    id: int,
    name: string,
    email: string,
    mobileNumber: string,
    password: string,
    address: Address,
    profilePic: string,
    spDiscount: int,
    expiryMonth: int,
    expiryYear: int)

  /** The `user` object a successful login or signup returns: only `id` and `name`. */
  datatype UserSummary = UserSummary(id: int, name: string)

  /** The lookup column `/login-user` uses, chosen by the client's `isEmail` flag. */
  predicate HasIdentifier(u: User, identifier: string, isEmail: bool) {
    if isEmail then u.email == identifier else u.mobileNumber == identifier
  }

  /** `POST /login-user`. */
  function LoginUser(users: seq<User>, identifier: string, password: string, isEmail: bool): (r: Reply<UserSummary>)
    ensures r.Error? ==> r.status == 400
  {
    if identifier == "" || password == "" then
      Error(400, "Email/Mobile number and password are required!")
    else
      match Find(users, (u: User) => HasIdentifier(u, identifier, isEmail))
      case None => Error(400, "User not found! Please check your credentials.")
      case Some(u) =>
        if u.password == password then Ok(UserSummary(u.id, u.name))
        else Error(400, "Incorrect password!")
  }

  /** Login succeeds exactly when both fields are given, some user has the identifier in
      the chosen column, and the FIRST such row stores exactly the submitted password;
      it then returns that row's id and name. */
  lemma LoginSucceedsIff(users: seq<User>, identifier: string, password: string, isEmail: bool)
    ensures var matches := Filter(users, (u: User) => HasIdentifier(u, identifier, isEmail));
      var r := LoginUser(users, identifier, password, isEmail);
      && (r.Ok? <==> identifier != "" && password != "" && |matches| > 0 && matches[0].password == password)
      && (r.Ok? ==> r.value == UserSummary(matches[0].id, matches[0].name))
      && (identifier != "" && password != "" && |matches| == 0 ==>
            r == Error(400, "User not found! Please check your credentials."))
      && (identifier != "" && password != "" && |matches| > 0 && matches[0].password != password ==>
            r == Error(400, "Incorrect password!"))
  {
    FindIsFirstOfFilter(users, (u: User) => HasIdentifier(u, identifier, isEmail));
  }

  /** `GET /shipping-address/:userId`. */
  function ShippingAddress(users: seq<User>, userId: Option<int>): (r: Reply<Address>)
    ensures !Supplied(userId) ==> r.Error? && r.status == 400
    ensures Supplied(userId) ==> (r.Ok? <==> exists u :: u in users && u.id == userId.value)
    ensures Supplied(userId) && r.Error? ==> r == Error(404, "Address not found.")
    ensures r.Ok? ==> exists u :: u in users && u.id == userId.value && u.address == r.value
  {
    if !Supplied(userId) then Error(400, "User ID is required.")
    else
      match Find(users, (u: User) => u.id == userId.value)
      case None => Error(404, "Address not found.")
      case Some(u) => Ok(u.address)
  }

  /** `GET /users/:userId`: a stored picture file name is served under `/uploads/`. */
  function UserProfile(users: seq<User>, userId: int): (r: Reply<User>)
    ensures r.Ok? <==> exists u :: u in users && u.id == userId
    ensures r.Error? ==> r.status == 404
    ensures r.Ok? ==> exists u :: u in users && u.id == userId && r.value == u.(profilePic :=
      if u.profilePic == "" then "" else "/uploads/" + u.profilePic)
  {
    match Find(users, (u: User) => u.id == userId)
    case None => Error(404, "User not found")
    case Some(u) =>
      Ok(u.(profilePic := if u.profilePic == "" then "" else "/uploads/" + u.profilePic))
  }

  /** The projection `GET /users-email/:userId` returns. */
  datatype EmailDiscount = EmailDiscount(email: string, spDiscount: int)

  /** `GET /users-email/:userId`. */
  function UserEmail(users: seq<User>, userId: int): (r: Reply<EmailDiscount>)
    ensures r.Ok? <==> exists u :: u in users && u.id == userId
    ensures r.Error? ==> r.status == 404
    ensures r.Ok? ==>
      exists u :: u in users && u.id == userId && r.value == EmailDiscount(u.email, u.spDiscount)
  {
    match Find(users, (u: User) => u.id == userId)
    case None => Error(404, "User not found")
    case Some(u) => Ok(EmailDiscount(u.email, u.spDiscount))
  }

  /** The rows an `UPDATE users ... WHERE id = ?` matches (its `affectedRows`). */
  function MatchedUsers(users: seq<User>, userId: int): (n: nat)
    ensures n == 0 <==> forall u :: u in users ==> u.id != userId
  {
    FilterNonEmptyIff(users, (u: User) => u.id == userId);
    |Filter(users, (u: User) => u.id == userId)|
  }

  /** `UPDATE users SET ... WHERE id = userId`, with `f` giving the new row. */
  function UpdateUser(users: seq<User>, userId: int, f: User -> User): (r: seq<User>)
    ensures |r| == |users|
    ensures forall i :: 0 <= i < |users| ==> r[i] == if users[i].id == userId then f(users[i]) else users[i]
  {
    Map(users, (u: User) => if u.id == userId then f(u) else u)
  }

  /** Right after signup, logging in by the same email and password returns the new
      user, provided no earlier row has that email. */
  lemma LoginAfterSignup(users: seq<User>, u: User)
    requires u.email != "" && u.password != ""
    requires forall v :: v in users ==> v.email != u.email
    ensures LoginUser(users + [u], u.email, u.password, true) == Ok(UserSummary(u.id, u.name))
  {
    var p := (v: User) => HasIdentifier(v, u.email, true);
    FilterAppend(users, [u], p);
    FilterNonEmptyIff(users, p);
    assert Filter([u], p) == [u] by {
      assert [u][1..] == [];
    }
    FindIsFirstOfFilter(users + [u], p);
  }

  /** After `/shipping-address` stores `a` for an existing user, reading the address
      back gives `a`. */
  lemma ShippingAddressRoundTrip(users: seq<User>, userId: int, a: Address)
    requires exists u :: u in users && u.id == userId
    ensures ShippingAddress(UpdateUser(users, userId, (u: User) => u.(address := a)), Some(userId)) == Ok(a)
  {
    var after := UpdateUser(users, userId, (u: User) => u.(address := a));
    var u :| u in users && u.id == userId;
    var k :| 0 <= k < |users| && users[k] == u;
    assert after[k].id == userId && after[k] in after;
    forall v | v in after && v.id == userId
      ensures v.address == a
    {
      var j :| 0 <= j < |after| && after[j] == v;
      assert users[j].id == userId;
    }
  }

  // ---------------------------------------------------------------------------
  // Wishlist queries

  /** A row of `wishlist`. */
  datatype WishlistRow = WishlistRow(userId: int, productEntryId: int)

  /** At most one row per (user, product) pair: the invariant the pre-insert check keeps. */
  predicate PairsUnique(w: seq<WishlistRow>) {
    forall i, j :: 0 <= i < j < |w| ==> w[i] != w[j]
  }

  /** `GET /wishlist/check`: membership of the pair; the tables are not touched. */
  function WishlistCheck(wishlist: seq<WishlistRow>, userId: Option<int>, productId: Option<int>): (r: Reply<bool>)
    ensures !Supplied(userId) || !Supplied(productId) ==> r == Error(400, "Missing userId or productId")
    ensures Supplied(userId) && Supplied(productId) ==>
      r == Ok(WishlistRow(userId.value, productId.value) in wishlist)
  {
    if !Supplied(userId) || !Supplied(productId) then Error(400, "Missing userId or productId")
    else
      var row := WishlistRow(userId.value, productId.value);
      var existing := Filter(wishlist, (w: WishlistRow) => w == row);
      FilterNonEmptyIff(wishlist, (w: WishlistRow) => w == row);
      Ok(|existing| > 0)
  }

  function EntryId(w: WishlistRow): int {
    w.productEntryId
  }

  /** The product ids of a user's wishlist rows, in table order. */
  function WishlistIds(wishlist: seq<WishlistRow>, userId: int): (ids: seq<int>)
    ensures forall id :: id in ids <==> WishlistRow(userId, id) in wishlist
  {
    var mine := Filter(wishlist, (w: WishlistRow) => w.userId == userId);
    var ids := Map(mine, EntryId);
    forall id | id in ids
      ensures WishlistRow(userId, id) in wishlist
    {
      var k :| 0 <= k < |ids| && ids[k] == id;
      assert mine[k] in mine;
      assert mine[k] == WishlistRow(userId, id);
    }
    forall id | WishlistRow(userId, id) in wishlist
      ensures id in ids
    {
      var w := WishlistRow(userId, id);
      assert w in mine;
      var k :| 0 <= k < |mine| && mine[k] == w;
      assert ids[k] == id;
    }
    ids
  }

  /** A product row with the `isInWishlist` flag added. */
  datatype WishlistProduct = WishlistProduct(product: Product, isInWishlist: bool)

  function Flagged(p: Product): WishlistProduct {
    WishlistProduct(p, true)
  }

  /** `GET /wishlist?userId=`: every product whose id is on the user's wishlist, each
      flagged `isInWishlist = true`; an empty list when there is none. */
  function WishlistFetch(products: seq<Product>, wishlist: seq<WishlistRow>, userId: Option<int>): (r: Reply<seq<WishlistProduct>>)
    ensures !Supplied(userId) ==> r == Error(400, "Missing userId")
    ensures Supplied(userId) ==> r.Ok? && |r.value| <= |products|
    ensures r.Ok? ==> forall x :: x in r.value ==> x.isInWishlist
    ensures r.Ok? ==> forall p :: p in products ==>
      (WishlistProduct(p, true) in r.value <==> WishlistRow(userId.value, p.id) in wishlist)
    ensures r.Ok? ==> forall x :: x in r.value ==> x.product in products
  {
    if !Supplied(userId) then Error(400, "Missing userId")
    else
      var ids := WishlistIds(wishlist, userId.value);
      if |ids| > 0 then
        var out := Map(Filter(products, IdIn(ids)), Flagged);
        FlaggedProducts(products, ids);
        Ok(out)
      else
        Ok([])
  }

  /** `p.id` is one of `ids`. */
  function IdIn(ids: seq<int>): Product -> bool {
    (p: Product) => p.id in ids
  }

  /** The flagged products whose id is listed: exactly those, all flagged. */
  lemma FlaggedProducts(products: seq<Product>, ids: seq<int>)
    ensures var out := Map(Filter(products, IdIn(ids)), Flagged);
      && |out| <= |products|
      && (forall x :: x in out ==> x.isInWishlist && x.product in products)
      && (forall p :: p in products ==> (WishlistProduct(p, true) in out <==> p.id in ids))
  {
    var rows := Filter(products, IdIn(ids));
    var out := Map(rows, Flagged);
    forall x | x in out
      ensures x.isInWishlist && x.product in products
    {
      var k :| 0 <= k < |out| && out[k] == x;
      assert x == Flagged(rows[k]) && rows[k] in rows;
    }
    forall p | p in products
      ensures WishlistProduct(p, true) in out <==> p.id in ids
    {
      if p.id in ids {
        assert p in rows;
        var k :| 0 <= k < |rows| && rows[k] == p;
        assert out[k] == WishlistProduct(p, true);
      }
      if WishlistProduct(p, true) in out {
        var k :| 0 <= k < |out| && out[k] == WishlistProduct(p, true);
        assert rows[k] == p && p in rows;
      }
    }
  }

  /** Right after `/wishlist/add` inserts a pair, `/wishlist/check` reports it. */
  lemma CheckAfterAdd(wishlist: seq<WishlistRow>, userId: int, productId: int)
    ensures WishlistCheck(wishlist + [WishlistRow(userId, productId)], Some(userId), Some(productId)) == Ok(true)
  {
    assert (wishlist + [WishlistRow(userId, productId)])[|wishlist|] == WishlistRow(userId, productId);
  }

  /** After `/wishlist/remove`, `/wishlist/check` reports the pair absent, and every
      other pair keeps its answer. */
  lemma CheckAfterRemove(wishlist: seq<WishlistRow>, userId: int, productId: int, otherUser: int, otherProduct: int)
    ensures var after := Filter(wishlist, (w: WishlistRow) => w != WishlistRow(userId, productId));
      && WishlistCheck(after, Some(userId), Some(productId)) == Ok(false)
      && (WishlistRow(otherUser, otherProduct) != WishlistRow(userId, productId) ==>
            WishlistCheck(after, Some(otherUser), Some(otherProduct))
              == WishlistCheck(wishlist, Some(otherUser), Some(otherProduct)))
  {
  }

  // ---------------------------------------------------------------------------
  // Orders

  /** A row of `orders`. `/orders` fills `price`, `/orders-cart` fills `finalPrice`.
      The address is the snapshot sent with the request (its JSON text is not modelled). */
  datatype OrderRow = OrderRow(
    id: nat,
    userId: int,
    productId: int,
    orderCode: string,
    quantity: int,
    price: Option<real>,
    finalPrice: Option<real>,
    address: Address,
    colorName: string,
    colorImg: string,
    name: string)

  /** The body of `POST /orders`. */
  datatype OrderRequest = OrderRequest(
    userId: int, productId: int, quantity: int, price: real, address: Address,
    colorName: string, colorImg: string, name: string)

  /** One element of the `orders` array of `POST /orders-cart`. */
  datatype CartOrderRequest = CartOrderRequest(
    userId: int, productId: int, quantity: int, finalPrice: real, address: Address,
    colorName: string, colorImg: string, name: string)

  predicate IsRandom(r: real) {
    0.0 <= r < 1.0
  }

  /** `Math.floor(100000 + Math.random() * 900000)` for the random value `r`. */
  function OrderNumber(r: real): (n: nat)
    requires IsRandom(r)
    ensures 100000 <= n <= 999999
  {
    (100000.0 + r * 900000.0).Floor
  }

  /** `` `ORD-${...}` ``: the tracking code of a new order row. */
  function OrderCode(r: real): string
    requires IsRandom(r)
  {
    "ORD-" + NatToString(OrderNumber(r))
  }

  /** Every order code is `ORD-` followed by six digits that read as a number in
      100000..999999. */
  lemma OrderCodeFormat(r: real)
    requires IsRandom(r)
    ensures var code := OrderCode(r);
      && |code| == 10 && code[..4] == "ORD-" && AllDigits(code[4..])
      && 100000 <= ParseDigits(code[4..]) <= 999999
  {
    var n := OrderNumber(r);
    assert Pow10(5) == 100000 && Pow10(6) == 1000000;
    NatToStringLength(n, 6);
    ParseNatToString(n);
    assert OrderCode(r)[4..] == NatToString(n);
  }

  /** The code is not derived from the row id, and distinct draws can give the same
      code, so nothing makes order codes unique. */
  lemma OrderCodesMayCollide()
    ensures IsRandom(0.0) && IsRandom(0.000001)
    ensures OrderCode(0.0) == OrderCode(0.000001) == "ORD-100000"
  {
    assert OrderNumber(0.0) == 100000;
    assert OrderNumber(0.000001) == 100000;
    assert NatToString(1) == "1";
    assert NatToString(10) == "10";
    assert NatToString(100) == "100";
    assert NatToString(1000) == "1000";
    assert NatToString(10000) == "10000";
    assert NatToString(100000) == "100000";
  }

  /** The row `/orders-cart` inserts for one element. */
  function CartRow(o: CartOrderRequest, r: real, id: nat): OrderRow
    requires IsRandom(r)
  {
    OrderRow(id, o.userId, o.productId, OrderCode(r), o.quantity, None, Some(o.finalPrice),
      o.address, o.colorName, o.colorImg, o.name)
  }

  /** The rows `/orders-cart` inserts, one per element, with consecutive insert ids. */
  function CartRows(reqs: seq<CartOrderRequest>, rands: seq<real>, firstId: nat): (rows: seq<OrderRow>)
    requires |rands| >= |reqs| && forall i :: 0 <= i < |rands| ==> IsRandom(rands[i])
    ensures |rows| == |reqs|
  {
    seq(|reqs|, i requires 0 <= i < |reqs| => CartRow(reqs[i], rands[i], firstId + i))
  }

  /** One more cart element adds one more row at the end. */
  lemma CartRowsSnoc(reqs: seq<CartOrderRequest>, rands: seq<real>, firstId: nat, i: nat)
    requires |rands| >= |reqs| && forall k :: 0 <= k < |rands| ==> IsRandom(rands[k])
    requires i < |reqs|
    ensures CartRows(reqs[..i + 1], rands, firstId)
      == CartRows(reqs[..i], rands, firstId) + [CartRow(reqs[i], rands[i], firstId + i)]
  {
    var a := CartRows(reqs[..i + 1], rands, firstId);
    var b := CartRows(reqs[..i], rands, firstId) + [CartRow(reqs[i], rands[i], firstId + i)];
    assert |a| == |b|;
    forall k | 0 <= k < |a| ensures a[k] == b[k] {
      assert reqs[..i + 1][k] == reqs[k];
      if k < i {
        assert reqs[..i][k] == reqs[k];
      }
    }
  }

  /** Row `i` of a cart insertion carries element `i`'s fields, its address snapshot
      unchanged, a well-formed order code and the insert id `firstId + i`. */
  lemma CartRowsCarryRequests(reqs: seq<CartOrderRequest>, rands: seq<real>, firstId: nat, i: nat)
    requires |rands| >= |reqs| && forall k :: 0 <= k < |rands| ==> IsRandom(rands[k])
    requires i < |reqs|
    ensures var row := CartRows(reqs, rands, firstId)[i];
      && row.id == firstId + i
      && row.userId == reqs[i].userId && row.productId == reqs[i].productId
      && row.quantity == reqs[i].quantity && row.finalPrice == Some(reqs[i].finalPrice)
      && row.price.None? && row.address == reqs[i].address
      && row.colorName == reqs[i].colorName && row.colorImg == reqs[i].colorImg
      && row.name == reqs[i].name
      && |row.orderCode| == 10 && row.orderCode[..4] == "ORD-" && AllDigits(row.orderCode[4..])
  {
    OrderCodeFormat(rands[i]);
  }

  /** `GET /orders/:userId`: the user's orders, `[]` when there are none. */
  function OrdersOfUser(orders: seq<OrderRow>, userId: int): (r: seq<OrderRow>)
    ensures IsSubsequence(r, orders)
    ensures forall o :: o in r <==> o in orders && o.userId == userId
  {
    var keep := (o: OrderRow) => o.userId == userId;
    FilterIsSubsequence(orders, keep);
    Filter(orders, keep)
  }

  function Range(first: nat, n: nat): (r: seq<nat>)
    ensures |r| == n && forall i :: 0 <= i < n ==> r[i] == first + i
  {
    seq(n, i requires 0 <= i < n => first + i)
  }

  /** User ids are positive, below `next` and increasing in insertion order. */
  predicate UserIdsBelow(users: seq<User>, next: int) {
    && (forall i :: 0 <= i < |users| ==> 0 < users[i].id < next)
    && (forall i, j :: 0 <= i < j < |users| ==> users[i].id < users[j].id)
  }

  /** An update that keeps every id keeps the ids in order. */
  lemma UpdateKeepsUserIds(users: seq<User>, userId: int, f: User -> User, next: int)
    requires UserIdsBelow(users, next)
    requires forall u: User :: f(u).id == u.id
    ensures UserIdsBelow(UpdateUser(users, userId, f), next)
  {
    var r := UpdateUser(users, userId, f);
    assert forall i :: 0 <= i < |r| ==> r[i].id == users[i].id;
  }

  /** Inserting a user with the next id keeps the ids in order. */
  lemma InsertUserKeepsIds(users: seq<User>, u: User, next: int)
    requires UserIdsBelow(users, next) && u.id == next > 0
    ensures UserIdsBelow(users + [u], next + 1)
  {
    var r := users + [u];
    forall i | 0 <= i < |r| ensures 0 < r[i].id < next + 1 {
      if i < |users| { assert r[i] == users[i]; }
    }
    forall i, j | 0 <= i < j < |r| ensures r[i].id < r[j].id {
      assert r[i] == users[i];
      if j < |users| { assert r[j] == users[j]; } else { assert r[j] == u; }
    }
  }

  /** Order ids are positive, below `next` and increasing in insertion order. */
  predicate OrderIdsBelow(orders: seq<OrderRow>, next: nat) {
    && (forall i :: 0 <= i < |orders| ==> 0 < orders[i].id < next)
    && (forall i, j :: 0 <= i < j < |orders| ==> orders[i].id < orders[j].id)
  }

  /** Inserting a row with the next id keeps the ids in order. */
  lemma InsertOrderKeepsIds(orders: seq<OrderRow>, row: OrderRow, next: nat)
    requires OrderIdsBelow(orders, next) && row.id == next > 0
    ensures OrderIdsBelow(orders + [row], next + 1)
  {
    var o := orders + [row];
    forall i | 0 <= i < |o| ensures 0 < o[i].id < next + 1 {
      if i < |orders| { assert o[i] == orders[i]; }
    }
    forall i, j | 0 <= i < j < |o| ensures o[i].id < o[j].id {
      assert o[i] == orders[i];
      if j < |orders| { assert o[j] == orders[j]; } else { assert o[j] == row; }
    }
  }

  lemma RangeSnoc(first: nat, n: nat)
    ensures Range(first, n + 1) == Range(first, n) + [first + n]
  {
    var a := Range(first, n + 1);
    var b := Range(first, n) + [first + n];
    forall k | 0 <= k < n + 1 ensures a[k] == b[k] {
      if k < n { assert b[k] == Range(first, n)[k]; }
    }
  }

  // ---------------------------------------------------------------------------
  // The store: handlers that change tables

  /** The reply of `POST /signup-register`: 201 with the new user, or 400. */
  datatype SignupReply = Registered(user: UserSummary) | SignupRejected(status: nat, message: string)

  class Store {
    var products: seq<Product>
    var users: seq<User>
    var orders: seq<OrderRow>
    var wishlist: seq<WishlistRow>
    /** The next AUTO_INCREMENT value of `users.id` and `orders.id`. */
    var nextUserId: nat
    var nextOrderId: nat

    /** Insert ids are increasing and below the counters; wishlist pairs are unique. */
    ghost predicate Valid()
      reads this
    {
      && PairsUnique(wishlist)
      && nextUserId > 0 && nextOrderId > 0
      && UserIdsBelow(users, nextUserId)
      && OrderIdsBelow(orders, nextOrderId)
    }

    constructor (catalogue: seq<Product>)
      ensures Valid()
      ensures products == catalogue && users == [] && orders == [] && wishlist == []
    {
      products := catalogue;
      users := [];
      orders := [];
      wishlist := [];
      nextUserId := 1;
      nextOrderId := 1;
    }

    /** `POST /wishlist/add`: check, then insert. */
    method WishlistAdd(productEntryId: Option<int>, userId: Option<int>) returns (status: nat)
      requires Valid()
      modifies this`wishlist
      ensures Valid()
      ensures !Given(productEntryId) || !Given(userId) ==> status == 400 && wishlist == old(wishlist)
      ensures Given(productEntryId) && Given(userId) ==>
        var row := WishlistRow(userId.value, productEntryId.value);
        if row in old(wishlist) then status == 409 && wishlist == old(wishlist)
        else status == 200 && wishlist == old(wishlist) + [row]
    {
      if !Given(productEntryId) || !Given(userId) {
        return 400;
      }
      var row := WishlistRow(userId.value, productEntryId.value);
      var existing := Filter(wishlist, (w: WishlistRow) => w == row);
      FilterNonEmptyIff(wishlist, (w: WishlistRow) => w == row);
      if |existing| > 0 {
        return 409;
      }
      assert row !in wishlist;
      wishlist := wishlist + [row];
      status := 200;
    }

    /** `POST /wishlist/remove`: delete every row of the pair. */
    method WishlistRemove(productEntryId: Option<int>, userId: Option<int>) returns (status: nat)
      requires Valid()
      modifies this`wishlist
      ensures Valid()
      ensures !Given(productEntryId) || !Given(userId) ==> status == 400 && wishlist == old(wishlist)
      ensures Given(productEntryId) && Given(userId) ==>
        var row := WishlistRow(userId.value, productEntryId.value);
        && wishlist == Filter(old(wishlist), (w: WishlistRow) => w != row)
        && (status == 200 <==> row in old(wishlist))
        && (status == 404 <==> row !in old(wishlist))
    {
      if !Given(productEntryId) || !Given(userId) {
        return 400;
      }
      var row := WishlistRow(userId.value, productEntryId.value);
      var before := wishlist;
      wishlist := Filter(wishlist, (w: WishlistRow) => w != row);
      FilterDropsIff(before, (w: WishlistRow) => w != row);
      FilterUniquePreserved(before, (w: WishlistRow) => w != row);
      var affectedRows := |before| - |wishlist|;
      status := if affectedRows > 0 then 200 else 404;
    }

    /** `POST /orders`: one row with a fresh tracking code, which is returned. */
    method PlaceOrder(o: OrderRequest, r: real) returns (orderCode: string)
      requires Valid() && IsRandom(r)
      modifies this`orders, this`nextOrderId
      ensures Valid()
      ensures orderCode == OrderCode(r)
      ensures nextOrderId == old(nextOrderId) + 1
      ensures orders == old(orders) + [OrderRow(old(nextOrderId), o.userId, o.productId, orderCode,
        o.quantity, Some(o.price), None, o.address, o.colorName, o.colorImg, o.name)]
    {
      orderCode := OrderCode(r);
      var row := OrderRow(nextOrderId, o.userId, o.productId, orderCode,
        o.quantity, Some(o.price), None, o.address, o.colorName, o.colorImg, o.name);
      InsertOrderKeepsIds(orders, row, nextOrderId);
      orders := orders + [row];
      nextOrderId := nextOrderId + 1;
    }

    /** `POST /orders-cart`: `None` stands for a body whose `orders` is not an array.
        The inserts run one after another; `rands` are the `Math.random()` draws. */
    method PlaceCartOrders(requested: Option<seq<CartOrderRequest>>, rands: seq<real>)
      returns (reply: Reply<seq<nat>>)
      requires Valid()
      requires requested.Some? ==> |rands| >= |requested.value|
      requires forall i :: 0 <= i < |rands| ==> IsRandom(rands[i])
      modifies this`orders, this`nextOrderId
      ensures Valid()
      ensures requested.None? || requested.value == [] ==>
        reply == Error(400, "No orders found in request") && orders == old(orders)
        && nextOrderId == old(nextOrderId)
      ensures requested.Some? && requested.value != [] ==>
        && orders == old(orders) + CartRows(requested.value, rands, old(nextOrderId))
        && nextOrderId == old(nextOrderId) + |requested.value|
        && reply == Ok(Range(old(nextOrderId), |requested.value|))
    {
      if requested.None? || requested.value == [] {
        return Error(400, "No orders found in request");
      }
      var reqs := requested.value;
      var first := nextOrderId;
      var ids: seq<nat> := [];
      var i := 0;
      while i < |reqs|
        invariant 0 <= i <= |reqs|
        invariant nextOrderId == first + i
        invariant orders == old(orders) + CartRows(reqs[..i], rands, first)
        invariant ids == Range(first, i)
        invariant OrderIdsBelow(orders, nextOrderId)
      {
        var row := CartRow(reqs[i], rands[i], nextOrderId);
        CartRowsSnoc(reqs, rands, first, i);
        InsertOrderKeepsIds(orders, row, nextOrderId);
        AppendAssoc(old(orders), CartRows(reqs[..i], rands, first), [row]);
        orders := orders + [row];
        RangeSnoc(first, i);
        ids := ids + [nextOrderId];
        nextOrderId := nextOrderId + 1;
        i := i + 1;
      }
      assert reqs[..i] == reqs;
      reply := Ok(ids);
    }

    /** `POST /signup-register`: every field required; no uniqueness check on email or mobile. */
    method SignupRegister(name: string, email: string, mobileNumber: string, password: string)
      returns (reply: SignupReply)
      requires Valid()
      modifies this`users, this`nextUserId
      ensures Valid()
      ensures name == "" || email == "" || mobileNumber == "" || password == "" ==>
        reply == SignupRejected(400, "All fields are required.") && users == old(users)
        && nextUserId == old(nextUserId)
      ensures name != "" && email != "" && mobileNumber != "" && password != "" ==>
        && reply == Registered(UserSummary(old(nextUserId), name))
        && users == old(users) + [User(old(nextUserId), name, email, mobileNumber, password,
             NoAddress, "", 0, 0, 0)]
        && nextUserId == old(nextUserId) + 1
    {
      if name == "" || email == "" || mobileNumber == "" || password == "" {
        return SignupRejected(400, "All fields are required.");
      }
      var id := nextUserId;
      var u := User(id, name, email, mobileNumber, password, NoAddress, "", 0, 0, 0);
      InsertUserKeepsIds(users, u, nextUserId);
      users := users + [u];
      nextUserId := nextUserId + 1;
      reply := Registered(UserSummary(id, name));
    }

    /** Preserves `Valid` across an `UPDATE users` that keeps every id. */
    method ApplyUserUpdate(userId: int, f: User -> User) returns (affectedRows: nat)
      requires Valid()
      requires forall u: User :: f(u).id == u.id
      modifies this`users
      ensures Valid()
      ensures users == UpdateUser(old(users), userId, f)
      ensures affectedRows == MatchedUsers(old(users), userId)
    {
      affectedRows := MatchedUsers(users, userId);
      UpdateKeepsUserIds(users, userId, f, nextUserId);
      users := UpdateUser(users, userId, f);
    }

    /** `POST /shipping-address`: all six fields required; 404 when no row has the id.
        The address form posts the `localStorage` user id, a string, so "0" is supplied. */
    method SetShippingAddress(userId: Option<int>, a: Address) returns (status: nat)
      requires Valid()
      modifies this`users
      ensures Valid()
      ensures !Supplied(userId) || !IsComplete(a) ==> status == 400 && users == old(users)
      ensures Supplied(userId) && IsComplete(a) ==>
        && users == UpdateUser(old(users), userId.value, (u: User) => u.(address := a))
        && (status == 404 <==> forall u :: u in old(users) ==> u.id != userId.value)
        && (status == 200 <==> exists u :: u in old(users) && u.id == userId.value)
    {
      if !Supplied(userId) || !IsComplete(a) {
        return 400;
      }
      var affected := ApplyUserUpdate(userId.value, (u: User) => u.(address := a));
      status := if affected == 0 then 404 else 200;
    }

    /** `PUT /users/:userId`: overwrites every profile column with the submitted values,
        so a field left out of the request is written as empty. */
    method UpdateProfile(userId: int, name: string, email: string, mobileNumber: string,
                         a: Address, profilePic: string) returns (status: nat)
      requires Valid()
      modifies this`users
      ensures Valid()
      ensures users == UpdateUser(old(users), userId, (u: User) =>
        u.(name := name, email := email, mobileNumber := mobileNumber, address := a, profilePic := profilePic))
      ensures status == 404 <==> forall u :: u in old(users) ==> u.id != userId
      ensures status == 200 <==> exists u :: u in old(users) && u.id == userId
    {
      var affected := ApplyUserUpdate(userId, (u: User) =>
        u.(name := name, email := email, mobileNumber := mobileNumber, address := a, profilePic := profilePic));
      status := if affected == 0 then 404 else 200;
    }

    /** `PUT /users/:userId/profile_pic`: `None` stands for a request without a file;
        only the stored file name is modelled, not the upload itself. */
    method UpdateProfilePic(userId: int, fileName: Option<string>) returns (status: nat)
      requires Valid()
      modifies this`users
      ensures Valid()
      ensures fileName.None? ==> status == 400 && users == old(users)
      ensures fileName.Some? ==>
        && users == UpdateUser(old(users), userId, (u: User) => u.(profilePic := fileName.value))
        && (status == 404 <==> forall u :: u in old(users) ==> u.id != userId)
        && (status == 200 <==> exists u :: u in old(users) && u.id == userId)
    {
      if fileName.None? {
        return 400;
      }
      var affected := ApplyUserUpdate(userId, (u: User) => u.(profilePic := fileName.value));
      status := if affected == 0 then 404 else 200;
    }

    /** `POST /card-details`: without an encryption key the reply is 500; otherwise the
        user's expiry is stored and `sp_discount` set to 1 (the encrypted card number
        and CVV columns are not modelled). */
    method CardDetails(userId: int, expiryMonth: int, expiryYear: int, encryptionKey: string)
      returns (status: nat)
      requires Valid()
      modifies this`users
      ensures Valid()
      ensures encryptionKey == "" ==> status == 500 && users == old(users)
      ensures encryptionKey != "" ==>
        && users == UpdateUser(old(users), userId, (u: User) =>
             u.(spDiscount := 1, expiryMonth := expiryMonth, expiryYear := expiryYear))
        && (status == 404 <==> forall u :: u in old(users) ==> u.id != userId)
        && (status == 200 <==> exists u :: u in old(users) && u.id == userId)
    {
      if encryptionKey == "" {
        return 500;
      }
      var affected := ApplyUserUpdate(userId, (u: User) =>
        u.(spDiscount := 1, expiryMonth := expiryMonth, expiryYear := expiryYear));
      status := if affected == 0 then 404 else 200;
    }
  }

  /** Deleting rows keeps the pairs unique and leaves every other row in place. */
  lemma {:induction false} FilterUniquePreserved(w: seq<WishlistRow>, p: WishlistRow -> bool)
    requires PairsUnique(w)
    ensures PairsUnique(Filter(w, p))
  {
    if w != [] {
      FilterUniquePreserved(w[1..], p);
      assert w[0] !in w[1..];
      assert w[0] !in Filter(w[1..], p);
    }
  }
}
