/**
 * The application state container (index.tsx): the catalogue, the category
 * labels, the shop settings, the order ledger, the cart, the signed-in user
 * and the catalogue filter. The derived values (visible products, cart
 * badge count, a user's orders, line merging) are functions; the handlers
 * that replace state through React setters are methods of `App`.
 */
module Shop {
  import opened Wrappers
  import opened Types
  import opened Text
  import Seqs
  import CartSidebar

  /** The wildcard category label: no category restriction. */
  const AllCategory: string := "All"
  /** The one administrator address. */
  const AdminEmail: string := "admin@akshop.com"
  /** The administrator password when the settings hold none. */
  const DefaultAdminPassword: string := "admin123"
  const AdminAvatar: string := "https://api.dicebear.com/7.x/avataaars/svg?seed=admin"
  const AvatarPrefix: string := "https://api.dicebear.com/7.x/avataaars/svg?seed="

  // ---------------------------------------------------------------------------
  // Cart lines

  function Quantity(item: CartItem): nat {
    item.quantity
  }

  /** The cart badge: `cart.reduce((acc, item) => acc + item.quantity, 0)`. */
  function CartCount(cart: seq<CartItem>): nat {
    Seqs.SumOf(cart, Quantity)
  }

  /** A line is the one being added when the product id and the serialised option map agree. */
  predicate Matches(item: CartItem, id: string, opts: Option<Selection>) {
    item.product.id == id && item.selectedOptions == opts
  }

  /** The merge key of a line. */
  function Key(item: CartItem): (string, Option<Selection>) {
    (item.product.id, item.selectedOptions)
  }

  /** No two cart lines share a product id and an option map. */
  ghost predicate DistinctKeys(cart: seq<CartItem>) {
    Seqs.DistinctBy(cart, Key)
  }

  predicate HasMatch(cart: seq<CartItem>, id: string, opts: Option<Selection>) {
    exists i :: 0 <= i < |cart| && Matches(cart[i], id, opts)
  }

  /** How many lines match. */
  function MatchCount(cart: seq<CartItem>, id: string, opts: Option<Selection>): nat
    decreases |cart|
  {
    if cart == [] then 0
    else (if Matches(cart[0], id, opts) then 1 else 0) + MatchCount(cart[1..], id, opts)
  }

  function WithQuantity(item: CartItem, q: nat): CartItem {
    item.(quantity := q)
  }

  /**
   * `addToCart`'s cart update: when some line matches, every matching line's
   * quantity rises by one and nothing else changes; otherwise one new line
   * with quantity 1 is appended. Either way a matching line is then present.
   */
  function AddLine(cart: seq<CartItem>, product: Product, opts: Option<Selection>): (r: seq<CartItem>)
    ensures HasMatch(cart, product.id, opts) ==>
      && |r| == |cart|
      && (forall i :: 0 <= i < |cart| ==> Key(r[i]) == Key(cart[i]) && r[i].product == cart[i].product)
      && (forall i :: 0 <= i < |cart| ==>
            r[i].quantity == cart[i].quantity + if Matches(cart[i], product.id, opts) then 1 else 0)
    ensures !HasMatch(cart, product.id, opts) ==> r == cart + [CartItem(product, 1, opts)]
    ensures HasMatch(r, product.id, opts)
  {
    if HasMatch(cart, product.id, opts) then
      seq(|cart|, i requires 0 <= i < |cart| =>
        if Matches(cart[i], product.id, opts) then WithQuantity(cart[i], cart[i].quantity + 1) else cart[i])
    else
      var r := cart + [CartItem(product, 1, opts)];
      assert Matches(r[|cart|], product.id, opts);
      r
  }

  /** In a cart without repeated keys at most one line matches. */
  lemma {:induction false} DistinctKeysMatchAtMostOnce(cart: seq<CartItem>, id: string, opts: Option<Selection>)
    requires DistinctKeys(cart)
    ensures MatchCount(cart, id, opts) <= 1
    ensures MatchCount(cart, id, opts) == 1 <==> HasMatch(cart, id, opts)
    decreases |cart|
  {
    if cart != [] {
      var tail := cart[1..];
      assert DistinctKeys(tail) by {
        forall i, j | 0 <= i < j < |tail| ensures Key(tail[i]) != Key(tail[j]) {
          assert tail[i] == cart[i + 1] && tail[j] == cart[j + 1];
        }
      }
      DistinctKeysMatchAtMostOnce(tail, id, opts);
      assert HasMatch(cart, id, opts) <==> Matches(cart[0], id, opts) || HasMatch(tail, id, opts) by {
        if HasMatch(tail, id, opts) {
          var k :| 0 <= k < |tail| && Matches(tail[k], id, opts);
          assert cart[k + 1] == tail[k];
        }
        if HasMatch(cart, id, opts) && !Matches(cart[0], id, opts) {
          var k :| 0 <= k < |cart| && Matches(cart[k], id, opts);
          assert tail[k - 1] == cart[k];
        }
      }
      if Matches(cart[0], id, opts) {
        forall k | 0 <= k < |tail| ensures !Matches(tail[k], id, opts) {
          assert Key(cart[0]) != Key(cart[k + 1]);
          assert tail[k] == cart[k + 1];
        }
      }
    }
  }

  /** Each add raises the badge count by the number of merged lines, or by 1 for a new line. */
  lemma {:induction false} AddLineCountGeneral(cart: seq<CartItem>, product: Product, opts: Option<Selection>)
    ensures CartCount(AddLine(cart, product, opts))
      == CartCount(cart) + if HasMatch(cart, product.id, opts) then MatchCount(cart, product.id, opts) else 1
  {
    var r := AddLine(cart, product, opts);
    if HasMatch(cart, product.id, opts) {
      BumpCount(cart, r, product.id, opts);
    } else {
      Seqs.SumOfAppend(cart, [CartItem(product, 1, opts)], Quantity);
    }
  }

  /** Raising every matching line by one raises the count by the number of matches. */
  lemma {:induction false} BumpCount(cart: seq<CartItem>, r: seq<CartItem>, id: string, opts: Option<Selection>)
    requires |r| == |cart|
    requires forall i :: 0 <= i < |cart| ==>
      r[i].quantity == cart[i].quantity + (if Matches(cart[i], id, opts) then 1 else 0)
    ensures CartCount(r) == CartCount(cart) + MatchCount(cart, id, opts)
    decreases |cart|
  {
    if cart != [] {
      BumpCount(cart[1..], r[1..], id, opts);
    }
  }

  /**
   * In a cart without repeated keys, adding a product whose line `i` matches
   * updates that one line, raising its quantity by 1, and leaves every other
   * line as it was. `AddLineCount` gives the effect on the badge count.
   */
  lemma AddLineMerges(cart: seq<CartItem>, product: Product, opts: Option<Selection>, i: nat)
    requires DistinctKeys(cart)
    requires i < |cart| && Matches(cart[i], product.id, opts)
    ensures AddLine(cart, product, opts) == cart[i := WithQuantity(cart[i], cart[i].quantity + 1)]
  {
    var r := AddLine(cart, product, opts);
    forall j | 0 <= j < |cart| && j != i ensures !Matches(cart[j], product.id, opts) {
      if j < i { assert Key(cart[j]) != Key(cart[i]); } else { assert Key(cart[i]) != Key(cart[j]); }
    }
  }

  /** Adding to a cart without repeated keys raises the badge count by exactly 1. */
  lemma AddLineCount(cart: seq<CartItem>, product: Product, opts: Option<Selection>)
    requires DistinctKeys(cart)
    ensures CartCount(AddLine(cart, product, opts)) == CartCount(cart) + 1
  {
    AddLineCountGeneral(cart, product, opts);
    DistinctKeysMatchAtMostOnce(cart, product.id, opts);
  }

  /** Adding never creates two lines with the same product id and option map. */
  lemma AddLineKeepsKeysDistinct(cart: seq<CartItem>, product: Product, opts: Option<Selection>)
    requires DistinctKeys(cart)
    ensures DistinctKeys(AddLine(cart, product, opts))
  {
    var r := AddLine(cart, product, opts);
    if !HasMatch(cart, product.id, opts) {
      forall i, j | 0 <= i < j < |r| ensures Key(r[i]) != Key(r[j]) {
        if j == |cart| {
          assert !Matches(cart[i], product.id, opts);
        }
      }
    }
  }

  /** Merging into line `i` raises the cart total by one unit of that line's price. */
  lemma AddLineTotalMerged(cart: seq<CartItem>, product: Product, opts: Option<Selection>, i: nat)
    requires DistinctKeys(cart)
    requires i < |cart| && Matches(cart[i], product.id, opts)
    ensures CartSidebar.CartTotal(AddLine(cart, product, opts))
      == CartSidebar.CartTotal(cart) + CartSidebar.UnitPrice(cart[i].product)
  {
    var x := WithQuantity(cart[i], cart[i].quantity + 1);
    AddLineMerges(cart, product, opts, i);
    Seqs.SumOfUpdate(cart, i, x, CartSidebar.LineSubtotal);
    OneMoreUnit(CartSidebar.UnitPrice(cart[i].product), cart[i].quantity);
  }

  lemma OneMoreUnit(u: nat, q: nat)
    ensures u * (q + 1) == u * q + u
  {
  }

  /** Appending a new line raises the cart total by one unit of the product's price. */
  lemma AddLineTotalAppended(cart: seq<CartItem>, product: Product, opts: Option<Selection>)
    requires !HasMatch(cart, product.id, opts)
    ensures CartSidebar.CartTotal(AddLine(cart, product, opts))
      == CartSidebar.CartTotal(cart) + CartSidebar.UnitPrice(product)
  {
    var x := CartItem(product, 1, opts);
    CartSidebar.CartTotalAppend(cart, [x]);
    assert [x][1..] == [];
    assert CartSidebar.CartTotal([x]) == CartSidebar.LineSubtotal(x);
  }

  /** An absent option map and an empty one are different lines: adding with `None` beside a `Some([])` line appends. */
  lemma AbsentAndEmptyOptionsDiffer(product: Product, q: nat)
    ensures AddLine([CartItem(product, q, Some([]))], product, None)
      == [CartItem(product, q, Some([])), CartItem(product, 1, None)]
  {
    assert !Matches(CartItem(product, q, Some([])), product.id, None);
  }

  /** The cart after `n` identical adds, starting from `cart`. */
  function AddRepeatedly(cart: seq<CartItem>, product: Product, opts: Option<Selection>, n: nat): seq<CartItem>
    decreases n
  {
    if n == 0 then cart else AddLine(AddRepeatedly(cart, product, opts, n - 1), product, opts)
  }

  /** `n` identical adds to an empty cart give one line whose quantity is `n`. */
  lemma {:induction false} RepeatedAddsMerge(product: Product, opts: Option<Selection>, n: nat)
    requires n >= 1
    ensures AddRepeatedly([], product, opts, n) == [CartItem(product, n, opts)]
  {
    if n > 1 {
      RepeatedAddsMerge(product, opts, n - 1);
      var prev := AddRepeatedly([], product, opts, n - 1);
      assert Matches(prev[0], product.id, opts);
    }
  }

  /** Adds of one product with two different option maps give two lines. */
  lemma DifferentOptionsGiveSeparateLines(product: Product, a: Option<Selection>, b: Option<Selection>)
    requires a != b
    ensures AddLine(AddLine([], product, a), product, b) == [CartItem(product, 1, a), CartItem(product, 1, b)]
  {
    assert AddLine([], product, a) == [CartItem(product, 1, a)];
    assert !Matches(CartItem(product, 1, a), product.id, b);
  }

  /**
   * The sidebar's remove: drops every line with the product id, whatever its
   * options, and keeps the other lines in their order.
   */
  function RemoveLines(cart: seq<CartItem>, id: string): (r: seq<CartItem>)
    ensures forall item :: item in r ==> item.product.id != id
    ensures forall item :: item in cart && item.product.id != id ==> item in r
    ensures Seqs.IsSubsequence(r, cart)
    ensures forall x {:trigger multiset(r)[x]} :: multiset(r)[x] == if x.product.id != id then multiset(cart)[x] else 0
  {
    Seqs.Filter(cart, (item: CartItem) => item.product.id != id)
  }

  /** Removing keeps the keys distinct. */
  lemma RemoveLinesKeepsKeysDistinct(cart: seq<CartItem>, id: string)
    requires DistinctKeys(cart)
    ensures DistinctKeys(RemoveLines(cart, id))
  {
    Seqs.FilterKeepsDistinct(cart, (item: CartItem) => item.product.id != id, Key);
  }

  /** Removing the product of every line empties the cart: total and count drop to 0. */
  lemma RemoveLastProduct(cart: seq<CartItem>, id: string)
    requires forall i :: 0 <= i < |cart| ==> cart[i].product.id == id
    ensures RemoveLines(cart, id) == []
    ensures CartSidebar.CartTotal(RemoveLines(cart, id)) == 0 && CartCount(RemoveLines(cart, id)) == 0
  {
    assert forall item :: item in cart ==> item.product.id == id;
  }

  /** The quantity update: sets `qty` on every line with the product id and changes nothing else. */
  function SetQuantity(cart: seq<CartItem>, id: string, qty: nat): (r: seq<CartItem>)
    ensures |r| == |cart|
    ensures forall i :: 0 <= i < |cart| ==> Key(r[i]) == Key(cart[i]) && r[i].product == cart[i].product
    ensures forall i :: 0 <= i < |cart| && cart[i].product.id == id ==> r[i].quantity == qty
    ensures forall i :: 0 <= i < |cart| && cart[i].product.id != id ==> r[i] == cart[i]
  {
    seq(|cart|, i requires 0 <= i < |cart| => if cart[i].product.id == id then WithQuantity(cart[i], qty) else cart[i])
  }

  /** Every cart line has a positive quantity. */
  ghost predicate PositiveQuantities(cart: seq<CartItem>) {
    forall i :: 0 <= i < |cart| ==> cart[i].quantity >= 1
  }

  /** A quantity update keeps the keys distinct, and keeps quantities positive when the new quantity is. */
  lemma SetQuantityKeepsInvariants(cart: seq<CartItem>, id: string, qty: nat)
    ensures DistinctKeys(cart) ==> DistinctKeys(SetQuantity(cart, id, qty))
    ensures PositiveQuantities(cart) && qty >= 1 ==> PositiveQuantities(SetQuantity(cart, id, qty))
  {
    var r := SetQuantity(cart, id, qty);
    if DistinctKeys(cart) {
      forall i, j | 0 <= i < j < |r| ensures Key(r[i]) != Key(r[j]) {
        assert Key(r[i]) == Key(cart[i]) && Key(r[j]) == Key(cart[j]);
      }
    }
  }

  /**
   * The cart drawer's buttons act per product, not per line: with two lines of
   * one product (different options), a button pressed on one line sets the
   * requested quantity on both.
   */
  lemma QuantityButtonsActOnEveryLineOfTheProduct(p: Product, a: Selection, b: Selection, qa: nat, qb: nat,
                                                  button: CartSidebar.QuantityButton)
    requires a != b
    ensures var cart := [CartItem(p, qa, Some(a)), CartItem(p, qb, Some(b))];
      var q := CartSidebar.RequestedQuantity(button, qa);
      SetQuantity(cart, p.id, q) == [CartItem(p, q, Some(a)), CartItem(p, q, Some(b))]
      && RemoveLines(cart, p.id) == []
  {
    var cart := [CartItem(p, qa, Some(a)), CartItem(p, qb, Some(b))];
    RemoveLastProduct(cart, p.id);
  }

  // ---------------------------------------------------------------------------
  // Catalogue filter

  /** The search matches when the lower-cased name or description contains the lower-cased term. */
  predicate MatchesSearch(p: Product, term: string) {
    Contains(Lower(p.name), Lower(term)) || Contains(Lower(p.description), Lower(term))
  }

  /** `'All'` matches every category; any other selection only itself. */
  predicate MatchesCategory(p: Product, selected: string) {
    selected == AllCategory || p.category == selected
  }

  /** `filteredProducts`: the products matching both the search and the category, in catalogue order. */
  function FilteredProducts(products: seq<Product>, term: string, selected: string): (r: seq<Product>)
    ensures Seqs.IsSubsequence(r, products)
    ensures forall p :: p in r <==> p in products && MatchesSearch(p, term) && MatchesCategory(p, selected)
    ensures forall p {:trigger multiset(r)[p]} ::
      multiset(r)[p] == (if MatchesSearch(p, term) && MatchesCategory(p, selected) then multiset(products)[p] else 0)
  {
    Seqs.Filter(products, (p: Product) => MatchesSearch(p, term) && MatchesCategory(p, selected))
  }

  /** With an empty search and the `'All'` category every product is shown. */
  lemma EmptySearchShowsEverything(products: seq<Product>)
    ensures FilteredProducts(products, "", AllCategory) == products
  {
    assert Lower("") == "";
    forall p | p in products ensures MatchesSearch(p, "") {
      ContainsEmpty(Lower(p.name));
    }
  }

  /** The search ignores letter case: a term and its lower-cased form show the same products. */
  lemma SearchIgnoresCase(products: seq<Product>, term: string, selected: string)
    ensures FilteredProducts(products, term, selected) == FilteredProducts(products, Lower(term), selected)
  {
    LowerIdempotent(term);
    Seqs.FilterCongruent(products,
      (p: Product) => MatchesSearch(p, term) && MatchesCategory(p, selected),
      (p: Product) => MatchesSearch(p, Lower(term)) && MatchesCategory(p, selected));
  }

  // ---------------------------------------------------------------------------
  // Orders

  /** `userOrders`: the orders placed under the signed-in user's email; none when nobody is signed in. */
  function UserOrders(orders: seq<Order>, user: Option<User>): (r: seq<Order>)
    ensures user.None? ==> r == []
    ensures user.Some? ==> forall o :: o in r <==> o in orders && o.userEmail == user.value.email
    ensures Seqs.IsSubsequence(r, orders)
  {
    Seqs.Filter(orders, (o: Order) => user.Some? && o.userEmail == user.value.email)
  }

  /** An order placed by the user heads that user's list, ahead of their earlier orders. */
  lemma NewOrderHeadsUserOrders(o: Order, orders: seq<Order>, u: User)
    requires o.userEmail == u.email
    ensures UserOrders([o] + orders, Some(u)) == [o] + UserOrders(orders, Some(u))
  {
    Seqs.FilterCons(o, orders, (x: Order) => Some(u).Some? && x.userEmail == Some(u).value.email);
  }

  // ---------------------------------------------------------------------------
  // Sign-in

  /** `settings.adminPassword || 'admin123'`: the stored password unless it is absent or empty; never empty. */
  function AdminPasswordInEffect(settings: ShopSettings): (r: string)
    ensures r != ""
    ensures settings.adminPassword.Some? && settings.adminPassword.value != "" ==> r == settings.adminPassword.value
    ensures settings.adminPassword.None? || settings.adminPassword == Some("") ==> r == DefaultAdminPassword
  {
    if settings.adminPassword.Some? && settings.adminPassword.value != "" then settings.adminPassword.value
    else DefaultAdminPassword
  }

  /** The email names the administrator, ignoring letter case. */
  predicate IsAdminEmail(email: string) {
    Lower(email) == AdminEmail
  }

  /** The administrator check ignores case: any spelling of the address in capitals qualifies. */
  lemma AdminEmailIgnoresCase(email: string)
    requires Lower(email) == Lower(AdminEmail)
    ensures IsAdminEmail(email)
  {
    assert Lower(AdminEmail) == AdminEmail;
  }

  /** A capitalised spelling of the administrator address, as typed, is recognised. */
  lemma CapitalisedAdminEmail()
    ensures IsAdminEmail("ADMIN@AkShop.COM")
  {
    AdminEmailIgnoresCase("ADMIN@AkShop.COM");
  }

  // ---------------------------------------------------------------------------
  // Reviews

  /** The review as posted: `user?.id || 'v'`, `user?.name || 'Visitor'`, and the rating as given. */
  function NewReview(user: Option<User>, id: string, rating: int, comment: string, date: string): (r: Review)
    ensures r.rating == rating && r.comment == comment && r.id == id && r.date == date
    ensures r.userId == if user.Some? && user.value.id != "" then user.value.id else "v"
    ensures r.userName == if user.Some? && user.value.name != "" then user.value.name else "Visitor"
    ensures r.userAvatar.None?
  {
    Review(id,
      if user.Some? && user.value.id != "" then user.value.id else "v",
      if user.Some? && user.value.name != "" then user.value.name else "Visitor",
      None, rating, comment, date)
  }

  /** `p` with `review` at the head of its list and its cached count one higher (a missing count counts as 0). */
  function Reviewed(p: Product, review: Review): Product {
    p.(reviews := Some([review] + p.reviews.GetOr([])),
       reviewsCount := Some(p.reviewsCount.GetOr(0) + 1))
  }

  /**
   * The catalogue after a review: exactly the products with the given id get
   * the review in front and a count one higher; all others are unchanged.
   */
  function WithReview(products: seq<Product>, pid: string, review: Review): (r: seq<Product>)
    ensures |r| == |products|
    ensures forall i :: 0 <= i < |products| && products[i].id != pid ==> r[i] == products[i]
    ensures forall i :: 0 <= i < |products| && products[i].id == pid ==>
      && r[i].reviews == Some([review] + products[i].reviews.GetOr([]))
      && r[i].reviewsCount == Some(products[i].reviewsCount.GetOr(0) + 1)
      && r[i] == products[i].(reviews := r[i].reviews, reviewsCount := r[i].reviewsCount)
  {
    seq(|products|, i requires 0 <= i < |products| => if products[i].id == pid then Reviewed(products[i], review) else products[i])
  }

  /** A first review of a product whose count is 0 makes the count 1 and the list one entry long. */
  lemma FirstReview(p: Product, review: Review)
    requires p.reviewsCount == Some(0) && p.reviews.GetOr([]) == []
    ensures WithReview([p], p.id, review) == [p.(reviews := Some([review]), reviewsCount := Some(1))]
  {
    assert [review] + p.reviews.GetOr([]) == [review];
    assert Reviewed(p, review) == p.(reviews := Some([review]), reviewsCount := Some(1));
  }

  // ---------------------------------------------------------------------------
  // The state container

  datatype View = ShopView | AdminView

  class App {
    var products: seq<Product>
    var categories: seq<string>
    var settings: ShopSettings
    var orders: seq<Order>
    var cart: seq<CartItem>
    var user: Option<User>
    var isCartOpen: bool
    var isAuthModalOpen: bool
    var selectedProduct: Option<Product>
    var searchTerm: string
    var selectedCategory: string
    var currentView: View

    /**
     * Cart keys are distinct, no category label repeats, and `'All'` is
     * listed. The state loaded from storage need not satisfy it; every handler
     * that changes the cart or the category labels preserves it, and no other
     * handler touches those fields.
     */
    ghost predicate Valid()
      reads this
    {
      && DistinctKeys(cart)
      && Seqs.DistinctBy(categories, (c: string) => c)
      && AllCategory in categories
    }

    /** The state as loaded from storage (or the seed data): nobody signed in, no filter, shop view. */
    constructor (products: seq<Product>, categories: seq<string>, settings: ShopSettings,
                 orders: seq<Order>, cart: seq<CartItem>)
      ensures this.products == products && this.categories == categories && this.settings == settings
      ensures this.orders == orders && this.cart == cart
      ensures user.None? && !isCartOpen && !isAuthModalOpen && selectedProduct.None?
      ensures searchTerm == "" && selectedCategory == AllCategory && currentView == ShopView
    {
      this.products, this.categories, this.settings := products, categories, settings;
      this.orders, this.cart := orders, cart;
      user, isCartOpen, isAuthModalOpen, selectedProduct := None, false, false, None;
      searchTerm, selectedCategory, currentView := "", AllCategory, ShopView;
    }

    /** The products the shop page lists. */
    function Visible(): seq<Product>
      reads this
    {
      FilteredProducts(products, searchTerm, selectedCategory)
    }

    /** The admin panel replaces the shop page only for an administrator. */
    predicate ShowsAdminPanel()
      reads this
    {
      currentView == AdminView && user.Some? && user.value.isAdmin == Some(true)
    }

    /** `handleSearchChange`. */
    method SetSearchTerm(term: string)
      modifies this`searchTerm
      ensures searchTerm == term
      ensures Visible() == FilteredProducts(products, term, selectedCategory)
    {
      searchTerm := term;
    }

    /** A category button: selects the category as the filter. */
    method SelectCategory(cat: string)
      modifies this`selectedCategory
      ensures selectedCategory == cat
      ensures forall p :: p in Visible() ==> MatchesCategory(p, cat)
    {
      selectedCategory := cat;
    }

    /** `handleReset`: clears the search and the category filter, so every product is listed. */
    method Reset()
      modifies this`searchTerm, this`selectedCategory
      ensures searchTerm == "" && selectedCategory == AllCategory
      ensures Visible() == products
    {
      searchTerm := "";
      selectedCategory := AllCategory;
      EmptySearchShowsEverything(products);
    }

    /**
     * `addToCart`: merges into the line with the same product id and option
     * map or appends a new line; the badge count rises by exactly 1 in a
     * cart without repeated keys.
     */
    method AddToCart(product: Product, opts: Option<Selection>)
      modifies this`cart
      ensures cart == AddLine(old(cart), product, opts)
      ensures old(DistinctKeys(cart)) ==> DistinctKeys(cart) && CartCount(cart) == old(CartCount(cart)) + 1
      ensures old(Valid()) ==> Valid()
      ensures HasMatch(cart, product.id, opts)
    {
      if DistinctKeys(cart) {
        AddLineKeepsKeysDistinct(cart, product, opts);
        AddLineCount(cart, product, opts);
      }
      cart := AddLine(cart, product, opts);
    }

    /** The detail view's add: adds with the chosen options and closes the detail view. */
    method AddToCartFromDetail(product: Product, opts: Selection)
      modifies this`cart, this`selectedProduct
      ensures cart == AddLine(old(cart), product, Some(opts))
      ensures old(DistinctKeys(cart)) ==> DistinctKeys(cart) && CartCount(cart) == old(CartCount(cart)) + 1
      ensures old(Valid()) ==> Valid()
      ensures selectedProduct.None?
    {
      AddToCart(product, Some(opts));
      selectedProduct := None;
    }

    /** The drawer's remove: drops every line of the product. */
    method RemoveFromCart(id: string)
      modifies this`cart
      ensures cart == RemoveLines(old(cart), id)
      ensures forall item :: item in cart ==> item.product.id != id
      ensures old(DistinctKeys(cart)) ==> DistinctKeys(cart)
      ensures old(Valid()) ==> Valid()
    {
      if DistinctKeys(cart) {
        RemoveLinesKeepsKeysDistinct(cart, id);
      }
      cart := RemoveLines(cart, id);
    }

    /** The drawer's quantity update: sets `qty` on every line of the product. */
    method UpdateQuantity(id: string, qty: nat)
      modifies this`cart
      ensures cart == SetQuantity(old(cart), id, qty)
      ensures old(DistinctKeys(cart)) ==> DistinctKeys(cart)
      ensures old(Valid()) ==> Valid()
      ensures old(PositiveQuantities(cart)) && qty >= 1 ==> PositiveQuantities(cart)
    {
      SetQuantityKeepsInvariants(cart, id, qty);
      cart := SetQuantity(cart, id, qty);
    }

    /**
     * `handleLogin`: the administrator address (any case) signs in as admin and
     * opens the admin view only with the password in effect, and is refused
     * otherwise without any change; any other address always signs in as a
     * regular user under the lower-cased email.
     */
    method Login(name: string, email: string, password: Option<string>, freshId: string) returns (ok: bool)
      modifies this`user, this`currentView
      ensures IsAdminEmail(email) ==> (ok <==> password == Some(AdminPasswordInEffect(settings)))
      ensures IsAdminEmail(email) && ok ==>
        && user == Some(User("admin-id", AdminEmail, name, Some(AdminAvatar), Some(true), None))
        && currentView == AdminView && ShowsAdminPanel()
      ensures !ok ==> user == old(user) && currentView == old(currentView)
      ensures !IsAdminEmail(email) ==>
        && ok
        && user == Some(User(freshId, Lower(email), name, Some(AvatarPrefix + name), Some(false), None))
        && currentView == old(currentView) && !ShowsAdminPanel()
    {
      if IsAdminEmail(email) {
        if password == Some(AdminPasswordInEffect(settings)) {
          user := Some(User("admin-id", Lower(email), name, Some(AdminAvatar), Some(true), None));
          currentView := AdminView;
          return true;
        } else {
          return false;
        }
      } else {
        user := Some(User(freshId, Lower(email), name, Some(AvatarPrefix + name), Some(false), None));
        return true;
      }
    }

    /** `handleLogout`. */
    method Logout()
      modifies this`user, this`currentView
      ensures user.None? && currentView == ShopView && !ShowsAdminPanel()
    {
      user := None;
      currentView := ShopView;
    }

    /** The admin button and the panel's exit switch views. */
    method SetView(v: View)
      modifies this`currentView
      ensures currentView == v
      ensures ShowsAdminPanel() <==> v == AdminView && user.Some? && user.value.isAdmin == Some(true)
    {
      currentView := v;
    }

    /** Opening the sign-in form (the navbar button). */
    method OpenAuthModal()
      modifies this`isAuthModalOpen
      ensures isAuthModalOpen
    {
      isAuthModalOpen := true;
    }

    /** Closing the sign-in form. */
    method CloseAuthModal()
      modifies this`isAuthModalOpen
      ensures !isAuthModalOpen
    {
      isAuthModalOpen := false;
    }

    /** Opening a product's detail view. */
    method SelectProduct(p: Option<Product>)
      modifies this`selectedProduct
      ensures selectedProduct == p
    {
      selectedProduct := p;
    }

    /**
     * `handleCheckout`: with nobody signed in only the sign-in form opens;
     * otherwise one pending order holding the cart and its total is put in
     * front of the ledger, the cart is emptied and the drawer closed. An empty
     * cart is not refused.
     */
    method Checkout(token: string, date: string)
      modifies this`orders, this`cart, this`isCartOpen, this`isAuthModalOpen
      ensures old(Valid()) ==> Valid()
      ensures old(user).None? ==>
        orders == old(orders) && cart == old(cart) && isCartOpen == old(isCartOpen) && isAuthModalOpen
      ensures old(user).Some? ==>
        && orders == [Order("ORD-" + token, user.value.name, user.value.email, old(cart),
                            CartSidebar.CartTotal(old(cart)), date, Pending)] + old(orders)
        && cart == [] && !isCartOpen && isAuthModalOpen == old(isAuthModalOpen)
        && UserOrders(orders, user) == [orders[0]] + UserOrders(old(orders), user)
    {
      if user.None? {
        isAuthModalOpen := true;
        return;
      }
      var u := user.value;
      var order := Order("ORD-" + token, u.name, u.email, cart, CartSidebar.CartTotal(cart), date, Pending);
      var before := orders;
      orders := [order] + orders;
      cart := [];
      isCartOpen := false;
      assert DistinctKeys(cart);
      NewOrderHeadsUserOrders(order, before, u);
      assert user == Some(u) && orders[0] == order;
    }

    /** `addCategory`: appends the label unless it is already listed. */
    method AddCategory(cat: string)
      modifies this`categories
      ensures categories == if cat in old(categories) then old(categories) else old(categories) + [cat]
      ensures cat in categories
      ensures old(Valid()) ==> Valid()
    {
      if cat !in categories {
        categories := categories + [cat];
      }
    }

    /**
     * `deleteCategory`: `'All'` is never deleted; any other label is removed
     * and, if it was the active filter, the filter falls back to `'All'`.
     */
    method DeleteCategory(cat: string)
      modifies this`categories, this`selectedCategory
      ensures cat == AllCategory ==> categories == old(categories) && selectedCategory == old(selectedCategory)
      ensures cat != AllCategory ==>
        && categories == Seqs.Filter(old(categories), (c: string) => c != cat)
        && cat !in categories
        && selectedCategory == if old(selectedCategory) == cat then AllCategory else old(selectedCategory)
      ensures old(Valid()) ==> Valid()
    {
      if cat == AllCategory {
        return;
      }
      if Valid() {
        Seqs.FilterKeepsDistinct(categories, (c: string) => c != cat, (c: string) => c);
      }
      categories := Seqs.Filter(categories, (c: string) => c != cat);
      if selectedCategory == cat {
        selectedCategory := AllCategory;
      }
    }

    /** The admin panel's add: the new product goes in front of the catalogue. */
    method AddProduct(p: Product)
      modifies this`products
      ensures products == [p] + old(products)
    {
      products := [p] + products;
    }

    /** The admin panel's delete: drops every product with the id. */
    method DeleteProduct(id: string)
      modifies this`products
      ensures products == Seqs.Filter(old(products), (p: Product) => p.id != id)
      ensures forall p :: p in products <==> p in old(products) && p.id != id
    {
      products := Seqs.Filter(products, (p: Product) => p.id != id);
    }

    /**
     * The detail view's review callback: the review (with the rating as given)
     * goes in front of the product's list, its count rises by one, and the
     * detail view closes.
     */
    method SubmitReview(pid: string, rating: int, comment: string, reviewId: string, date: string)
      modifies this`products, this`selectedProduct
      ensures products == WithReview(old(products), pid, NewReview(user, reviewId, rating, comment, date))
      ensures selectedProduct.None?
    {
      products := WithReview(products, pid, NewReview(user, reviewId, rating, comment, date));
      selectedProduct := None;
    }

    /** The admin panel's settings callback. */
    method UpdateSettings(s: ShopSettings)
      modifies this`settings
      ensures settings == s
    {
      settings := s;
    }
  }
}
