/**
 * The product detail view (components/ProductDetailModal.tsx): the sale-price
 * rule it displays, the option picker, the add-to-cart button and the review
 * form.
 */
module ProductDetail {
  import opened Wrappers
  import opened Types
  import CartSidebar
  import Shop

  /** `discountPrice && discountPrice < price`: a non-zero discount strictly below the list price. */
  predicate HasDiscount(p: Product) {
    p.discountPrice.Some? && p.discountPrice.value != 0 && p.discountPrice.value < p.price
  }

  /**
   * The price the detail view shows: the discount when `HasDiscount`, else the
   * list price. It never exceeds the list price, and is below it exactly when
   * a discount applies.
   */
  function FinalPrice(p: Product): (r: nat)
    ensures r <= p.price
    ensures r < p.price <==> HasDiscount(p)
    ensures r == p.price || Some(r) == p.discountPrice
  {
    if HasDiscount(p) then p.discountPrice.value else p.price
  }

  /** The cart's rule and the detail view's rule agree whenever a real discount applies. */
  lemma PriceRulesAgreeOnDiscount(p: Product)
    requires HasDiscount(p)
    ensures CartSidebar.UnitPrice(p) == FinalPrice(p) == p.discountPrice.value
  {
  }

  /**
   * The two rules differ exactly for a discount price above the list price:
   * the cart then charges that higher price while the detail view shows the
   * list price.
   */
  lemma PriceRulesDisagreement(p: Product)
    ensures CartSidebar.UnitPrice(p) != FinalPrice(p) <==> p.discountPrice.Some? && p.discountPrice.value > p.price
    ensures CartSidebar.UnitPrice(p) >= FinalPrice(p)
  {
  }

  // ---------------------------------------------------------------------------
  // Chosen options

  /** The option names, in insertion order. */
  function Names(sel: Selection): (r: seq<string>)
    ensures |r| == |sel|
    ensures forall i :: 0 <= i < |sel| ==> r[i] == sel[i].0
    decreases |sel|
  {
    if sel == [] then [] else [sel[0].0] + Names(sel[1..])
  }

  /** `selectedOptions[name]`: the value stored under the first entry with that name. */
  function Lookup(sel: Selection, name: string): (r: Option<string>)
    ensures r.Some? <==> name in Names(sel)
    ensures r.Some? ==> (name, r.value) in sel
    decreases |sel|
  {
    if sel == [] then None
    else if sel[0].0 == name then Some(sel[0].1)
    else Lookup(sel[1..], name)
  }

  /** No option name occurs twice, as in a JavaScript object. */
  ghost predicate UniqueNames(sel: Selection) {
    forall i, j :: 0 <= i < j < |sel| ==> sel[i].0 != sel[j].0
  }

  /**
   * `{ ...prev, [name]: value }`: an existing entry for `name` is replaced in
   * place; otherwise the pair is appended.
   */
  function SetOption(sel: Selection, name: string, value: string): (r: Selection)
    ensures (name, value) in r
    ensures |sel| <= |r| <= |sel| + 1
    decreases |sel|
  {
    if sel == [] then [(name, value)]
    else if sel[0].0 == name then [(name, value)] + sel[1..]
    else [sel[0]] + SetOption(sel[1..], name, value)
  }

  /** Choosing keeps the names in their order, with `name` appended at the end when it is new. */
  lemma {:induction false} NamesAfterSetOption(sel: Selection, name: string, value: string)
    ensures Names(SetOption(sel, name, value)) == if name in Names(sel) then Names(sel) else Names(sel) + [name]
    decreases |sel|
  {
    if sel != [] {
      var r := SetOption(sel, name, value);
      if sel[0].0 == name {
        assert r[1..] == sel[1..];
      } else {
        NamesAfterSetOption(sel[1..], name, value);
        assert r[1..] == SetOption(sel[1..], name, value);
      }
    }
  }

  /** After choosing, `name` maps to the chosen value and every other name keeps its value. */
  lemma {:induction false} LookupAfterSetOption(sel: Selection, name: string, value: string, other: string)
    ensures Lookup(SetOption(sel, name, value), other) == if other == name then Some(value) else Lookup(sel, other)
    decreases |sel|
  {
    if sel != [] && sel[0].0 != name {
      LookupAfterSetOption(sel[1..], name, value, other);
      var r := SetOption(sel, name, value);
      assert r[1..] == SetOption(sel[1..], name, value);
    }
  }

  /** Choosing an option never repeats a name. */
  lemma SetOptionKeepsNamesUnique(sel: Selection, name: string, value: string)
    requires UniqueNames(sel)
    ensures UniqueNames(SetOption(sel, name, value))
  {
    var r := SetOption(sel, name, value);
    NamesAfterSetOption(sel, name, value);
    var n := Names(sel);
    var m := Names(r);
    forall i, j | 0 <= i < j < |r| ensures r[i].0 != r[j].0 {
      assert m[i] == r[i].0 && m[j] == r[j].0;
      if name in n {
        assert n[i] == sel[i].0 && n[j] == sel[j].0;
      } else if j < |sel| {
        assert n[i] == sel[i].0 && n[j] == sel[j].0;
      } else {
        assert m[j] == name && m[i] == n[i];
      }
    }
  }

  /** Choosing again for the same option replaces the earlier choice rather than adding a second entry. */
  lemma ChoosingTwiceKeepsOneEntry(sel: Selection, name: string, a: string, b: string)
    ensures SetOption(SetOption(sel, name, a), name, b) == SetOption(sel, name, b)
    decreases |sel|
  {
    if sel != [] && sel[0].0 != name {
      ChoosingTwiceKeepsOneEntry(sel[1..], name, a, b);
    }
  }

  // ---------------------------------------------------------------------------
  // The view's own state

  class DetailView {
    var product: Product
    var rating: int
    var comment: string
    var selectedOptions: Selection

    /** Opening the view: rating 5, empty comment, no option chosen (`{}`). */
    constructor (product: Product)
      ensures this.product == product && rating == 5 && comment == "" && selectedOptions == []
    {
      this.product := product;
      rating, comment, selectedOptions := 5, "", [];
    }

    /** `handleOptionChange`. */
    method ChooseOption(name: string, value: string)
      modifies this`selectedOptions
      ensures selectedOptions == SetOption(old(selectedOptions), name, value)
      ensures Lookup(selectedOptions, name) == Some(value)
      ensures forall other :: other != name ==> Lookup(selectedOptions, other) == Lookup(old(selectedOptions), other)
      ensures old(UniqueNames(selectedOptions)) ==> UniqueNames(selectedOptions)
    {
      if UniqueNames(selectedOptions) {
        SetOptionKeepsNamesUnique(selectedOptions, name, value);
      }
      forall other {
        LookupAfterSetOption(selectedOptions, name, value, other);
      }
      selectedOptions := SetOption(selectedOptions, name, value);
    }

    /** A star button. */
    method SetRating(star: int)
      modifies this`rating
      ensures rating == star
    {
      rating := star;
    }

    /** Typing in the comment box. */
    method SetComment(text: string)
      modifies this`comment
      ensures comment == text
    {
      comment := text;
    }

    /**
     * The add-to-cart button: the current option map is passed, never an
     * absent one (so an untouched picker adds with `Some([])`), and the view
     * closes.
     */
    method AddToCart(app: Shop.App)
      modifies app`cart, app`selectedProduct
      ensures app.cart == Shop.AddLine(old(app.cart), product, Some(selectedOptions))
      ensures app.selectedProduct.None?
    {
      app.AddToCartFromDetail(product, selectedOptions);
    }

    /**
     * `handleSubmitReview`: nothing happens without a signed-in user;
     * otherwise the review goes to the shop and the form resets to an empty
     * comment and 5 stars.
     */
    method SubmitReview(app: Shop.App, reviewId: string, date: string)
      modifies this`rating, this`comment, app`products, app`selectedProduct
      ensures old(app.user).None? ==>
        && app.products == old(app.products) && app.selectedProduct == old(app.selectedProduct)
        && rating == old(rating) && comment == old(comment)
      ensures old(app.user).Some? ==>
        && app.products == Shop.WithReview(old(app.products), product.id,
                                           Shop.NewReview(app.user, reviewId, old(rating), old(comment), date))
        && app.selectedProduct.None?
        && rating == 5 && comment == ""
    {
      if app.user.None? {
        return;
      }
      app.SubmitReview(product.id, rating, comment, reviewId, date);
      comment := "";
      rating := 5;
    }
  }
}
