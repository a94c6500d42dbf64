/**
 * The administrator's panel (components/AdminPanel.tsx): the new-product form
 * with its validation and comma-separated feature list, the category form,
 * the settings form with its password override, and the gross-sales figure.
 */
module AdminPanel {
  import opened Wrappers
  import opened Types
  import Text
  import Seqs
  import Shop

  // ---------------------------------------------------------------------------
  // Feature list

  /** Each piece with its surrounding whitespace removed. */
  function TrimAll(pieces: seq<string>): (r: seq<string>)
    ensures |r| == |pieces|
    ensures forall i :: 0 <= i < |pieces| ==> r[i] == Text.Trim(pieces[i])
  {
    seq(|pieces|, i requires 0 <= i < |pieces| => Text.Trim(pieces[i]))
  }

  /** The trimmed pieces are empty or trimmed at both ends, and hold no character their pieces lacked. */
  lemma TrimAllFacts(pieces: seq<string>, c: char)
    requires forall i :: 0 <= i < |pieces| ==> c !in pieces[i]
    ensures forall f :: f in TrimAll(pieces) ==>
      && c !in f
      && (f == "" || (!Text.IsWhitespace(f[0]) && !Text.IsWhitespace(f[|f| - 1])))
  {
    var t := TrimAll(pieces);
    forall f | f in t
      ensures c !in f
      ensures f == "" || (!Text.IsWhitespace(f[0]) && !Text.IsWhitespace(f[|f| - 1]))
    {
      var i :| 0 <= i < |t| && t[i] == f;
      assert f == Text.Trim(pieces[i]);
    }
  }

  predicate NonEmpty(f: string) {
    f != ""
  }

  /**
   * `featuresText.split(',').map(f => f.trim()).filter(f => f !== '')`: the
   * non-empty trimmed pieces, in order. No feature is empty, starts or ends
   * with whitespace or holds a comma, and there are at most one more
   * features than commas.
   */
  function ParseFeatures(text: string): (r: seq<string>)
    ensures forall f :: f in r ==>
      && f != ""
      && !Text.IsWhitespace(f[0]) && !Text.IsWhitespace(f[|f| - 1])
      && ',' !in f
    ensures |r| <= Text.CountChar(text, ',') + 1
    ensures forall f :: f in r <==> f != "" && f in TrimAll(Text.Split(text, ','))
    ensures Seqs.IsSubsequence(r, TrimAll(Text.Split(text, ',')))
  {
    var pieces := Text.Split(text, ',');
    var trimmed := TrimAll(pieces);
    TrimAllFacts(pieces, ',');
    var r := Seqs.Filter(trimmed, NonEmpty);
    assert forall f :: f in r <==> f in trimmed && f != "";
    r
  }

  /**
   * Writing a list of features with commas and parsing it gives the list back,
   * when every feature is non-empty, already trimmed and free of commas.
   */
  lemma {:induction false} ParseJoinedFeatures(features: seq<string>)
    requires forall i :: 0 <= i < |features| ==>
      features[i] != "" && Text.Trim(features[i]) == features[i] && ',' !in features[i]
    ensures ParseFeatures(Text.Join(features, ',')) == features
  {
    var text := Text.Join(features, ',');
    assert ParseFeatures(text) == Seqs.Filter(TrimAll(Text.Split(text, ',')), NonEmpty);
    if features == [] {
      EmptyTextHasNoFeatures();
    } else {
      Text.SplitJoin(features, ',');
      assert TrimAll(features) == features;
      assert forall f :: f in features ==> NonEmpty(f);
    }
  }

  /** An empty features box gives no features. */
  lemma EmptyTextHasNoFeatures()
    ensures Seqs.Filter(TrimAll(Text.Split("", ',')), NonEmpty) == []
  {
    assert Text.Split("", ',') == [""];
    assert Text.Trim("") == "";
    assert TrimAll([""]) == [""];
  }

  /** A blank or comma-only features box gives no features. */
  lemma BlankFeatures(text: string)
    requires forall k :: 0 <= k < |text| ==> text[k] == ',' || Text.IsWhitespace(text[k])
    ensures ParseFeatures(text) == []
  {
    var pieces := Text.Split(text, ',');
    Text.JoinSplit(text, ',');
    forall i | 0 <= i < |pieces| ensures Text.Trim(pieces[i]) == "" {
      PieceOfBlankText(text, pieces, i);
    }
  }

  /** In a box of only commas and white space, every piece trims to the empty string. */
  lemma PieceOfBlankText(text: string, pieces: seq<string>, i: nat)
    requires pieces == Text.Split(text, ',')
    requires forall k :: 0 <= k < |text| ==> text[k] == ',' || Text.IsWhitespace(text[k])
    requires i < |pieces|
    ensures Text.Trim(pieces[i]) == ""
  {
    PieceChars(text, ',', i);
    var p := pieces[i];
    forall k | 0 <= k < |p| ensures Text.IsWhitespace(p[k]) {
      assert p[k] in text;
      assert p[k] != ',';
    }
  }

  /** The characters of a piece come from the split text. */
  lemma {:induction false} PieceChars(s: string, sep: char, i: nat)
    requires i < |Text.Split(s, sep)|
    ensures forall c :: c in Text.Split(s, sep)[i] ==> c in s
    decreases |s|
  {
    if s != [] {
      var rest := Text.Split(s[1..], sep);
      if s[0] == sep {
        if i > 0 {
          PieceChars(s[1..], sep, i - 1);
        }
      } else {
        if i == 0 {
          PieceChars(s[1..], sep, 0);
        } else {
          PieceChars(s[1..], sep, i);
        }
      }
      forall c | c in s[1..] ensures c in s { }
    }
  }

  // ---------------------------------------------------------------------------
  // New product

  /**
   * The new-product form. A price box that is empty or holds no number reads
   * as 0 here; both are falsy in the form's check.
   */
  datatype Draft = Draft(
    name: string,
    price: nat,
    discountPrice: Option<nat>,
    category: string,
    description: string,
    image: string,
    mockupImage: string,
    imageFit: ImageFit,
    isFeatured: bool,
    options: seq<ProductOption>)

  /** `categories[1] || 'Electronics'`: the second label when there is a non-empty one. */
  function DefaultCategory(categories: seq<string>): (r: string)
    ensures |categories| >= 2 && categories[1] != "" ==> r == categories[1]
    ensures |categories| < 2 || categories[1] == "" ==> r == "Electronics"
    ensures r != ""
  {
    if |categories| >= 2 && categories[1] != "" then categories[1] else "Electronics"
  }

  /** The form as opened and as reset after an add. */
  function BlankDraft(categories: seq<string>): (r: Draft)
    ensures r.name == "" && r.price == 0 && r.image == ""
    ensures r.category == DefaultCategory(categories)
  {
    Draft("", 0, None, DefaultCategory(categories), "", "", "", Contain, false, [])
  }

  /** The check before an add: a photo, a name and a non-zero price. */
  predicate IsComplete(d: Draft) {
    d.image != "" && d.name != "" && d.price != 0
  }

  /** A blank form is never accepted. */
  lemma BlankDraftIsIncomplete(categories: seq<string>)
    ensures !IsComplete(BlankDraft(categories))
  {
  }

  /**
   * The product an accepted form creates: the form's fields, the given id,
   * rating 5, a review count of 0, no reviews yet and the parsed features.
   */
  function BuildProduct(d: Draft, id: string, features: seq<string>): (r: Product)
    ensures r.id == id && r.rating == 5.0 && r.reviewsCount == Some(0) && r.reviews.None?
    ensures r.features == Some(features)
    ensures r.name == d.name && r.price == d.price && r.image == d.image && r.category == d.category
    ensures r.discountPrice == d.discountPrice && r.description == d.description
    ensures r.mockupImage == Some(d.mockupImage) && r.imageFit == Some(d.imageFit)
    ensures r.isFeatured == Some(d.isFeatured) && r.options == Some(d.options)
  {
    Product(id, d.name, d.description, d.price, d.discountPrice, d.category, d.image,
            Some(d.mockupImage), Some(d.imageFit), 5.0, Some(0), None, Some(features),
            Some(d.options), Some(d.isFeatured))
  }

  /** A product created from an accepted form has a name, a photo and a price of at least 1. */
  lemma BuiltProductIsValid(d: Draft, id: string, features: seq<string>)
    requires IsComplete(d)
    ensures var p := BuildProduct(d, id, features);
      p.name != "" && p.image != "" && p.price >= 1
  {
  }

  // ---------------------------------------------------------------------------
  // Settings

  /**
   * `handleSettingsSave`'s settings: the edited ones, with the password
   * replaced by the new one, untrimmed, only when it is not blank.
   */
  function SavedSettings(temp: ShopSettings, newPass: string): (r: ShopSettings)
    ensures Text.Trim(newPass) != "" ==> r.adminPassword == Some(newPass)
    ensures Text.Trim(newPass) == "" ==> r.adminPassword == temp.adminPassword
    ensures r.(adminPassword := temp.adminPassword) == temp
  {
    if Text.Trim(newPass) != "" then temp.(adminPassword := Some(newPass)) else temp
  }

  /**
   * After a save, the administrator password in effect is the new password
   * when it is not blank, and otherwise the working copy's password, which
   * after an earlier save in the same panel need not be the one stored (see
   * `StaleCopyRevertsPassword`).
   */
  lemma SavedPasswordTakesEffect(temp: ShopSettings, newPass: string)
    ensures Text.Trim(newPass) != "" ==> Shop.AdminPasswordInEffect(SavedSettings(temp, newPass)) == newPass
    ensures Text.Trim(newPass) == "" ==>
      Shop.AdminPasswordInEffect(SavedSettings(temp, newPass)) == Shop.AdminPasswordInEffect(temp)
  {
    if newPass == "" {
      assert Text.Trim(newPass) == "";
    }
  }

  /**
   * The panel's working copy is taken once, when the panel opens, and a save
   * does not refresh it. So after a save that changes the password, a later
   * save with a blank password box stores the working copy's old password
   * again: the password in effect reverts.
   */
  lemma StaleCopyRevertsPassword(temp: ShopSettings, newPass: string, blank: string)
    requires Text.Trim(newPass) != "" && Text.Trim(blank) == ""
    requires Shop.AdminPasswordInEffect(temp) != newPass
    ensures Shop.AdminPasswordInEffect(SavedSettings(temp, newPass)) == newPass
    ensures Shop.AdminPasswordInEffect(SavedSettings(temp, blank)) != newPass
  {
    SavedPasswordTakesEffect(temp, newPass);
    SavedPasswordTakesEffect(temp, blank);
  }

  /** The revert on concrete input: no stored password, save "secret", then save with an empty box. */
  lemma SecondBlankSaveRestoresDefault()
    ensures var temp := ShopSettings("", "", "", "", "", "", None);
      && Shop.AdminPasswordInEffect(SavedSettings(temp, "secret")) == "secret"
      && Shop.AdminPasswordInEffect(SavedSettings(temp, "")) == Shop.DefaultAdminPassword
  {
    var temp := ShopSettings("", "", "", "", "", "", None);
    StaleCopyRevertsPassword(temp, "secret", "");
  }

  /**
   * With the working copy refreshed to what each save stores, a password
   * change survives any number of later saves with a blank box.
   */
  lemma {:induction false} SyncedSavesKeepPassword(temp: ShopSettings, newPass: string, blanks: nat)
    requires Text.Trim(newPass) != ""
    ensures Shop.AdminPasswordInEffect(SavedRepeatedly(SavedSettings(temp, newPass), blanks)) == newPass
    decreases blanks
  {
    SavedPasswordTakesEffect(temp, newPass);
    if blanks > 0 {
      SyncedSavesKeepPassword(temp, newPass, blanks - 1);
      SavedPasswordTakesEffect(SavedRepeatedly(SavedSettings(temp, newPass), blanks - 1), "");
    }
  }

  /** `n` saves with an empty password box, each starting from what the previous one stored. */
  function SavedRepeatedly(stored: ShopSettings, n: nat): ShopSettings
    decreases n
  {
    if n == 0 then stored else SavedSettings(SavedRepeatedly(stored, n - 1), "")
  }

  // ---------------------------------------------------------------------------
  // Dashboard and category lists

  function OrderTotal(o: Order): nat {
    o.total
  }

  /** `orders.reduce((acc, o) => acc + o.total, 0)`. */
  function GrossSales(orders: seq<Order>): (r: nat)
    ensures orders == [] ==> r == 0
  {
    Seqs.SumOf(orders, OrderTotal)
  }

  /** A new order at the head of the ledger raises gross sales by its total. */
  lemma GrossSalesOfNewOrder(o: Order, orders: seq<Order>)
    ensures GrossSales([o] + orders) == GrossSales(orders) + o.total
  {
    assert ([o] + orders)[1..] == orders;
  }

  /** No single order's total exceeds gross sales. */
  lemma {:induction false} OrderWithinGrossSales(orders: seq<Order>, i: nat)
    requires i < |orders|
    ensures orders[i].total <= GrossSales(orders)
    decreases i
  {
    if i > 0 {
      OrderWithinGrossSales(orders[1..], i - 1);
    }
  }

  /** The category labels other than `'All'`: those with a delete control, and the choices for a new product. */
  function NonWildcard(categories: seq<string>): (r: seq<string>)
    ensures Shop.AllCategory !in r
    ensures forall c :: c in r <==> c in categories && c != Shop.AllCategory
    ensures Seqs.IsSubsequence(r, categories)
  {
    Seqs.Filter(categories, (c: string) => c != Shop.AllCategory)
  }

  // ---------------------------------------------------------------------------
  // The panel's form state

  class AdminForms {
    var draft: Draft
    var featuresText: string
    var isAdding: bool
    var newCatName: string
    var tempSettings: ShopSettings
    var newPass: string

    /** Opening the panel: a blank product form and the current settings to edit. */
    constructor (categories: seq<string>, settings: ShopSettings)
      ensures draft == BlankDraft(categories) && featuresText == "" && !isAdding
      ensures newCatName == "" && tempSettings == settings && newPass == ""
    {
      draft, featuresText, isAdding := BlankDraft(categories), "", false;
      newCatName, tempSettings, newPass := "", settings, "";
    }

    /** The form inputs (name, prices, category, description, images, fit, featured flag). */
    method EditDraft(d: Draft)
      modifies this`draft
      ensures draft == d
    {
      draft := d;
    }

    method SetFeaturesText(text: string)
      modifies this`featuresText
      ensures featuresText == text
    {
      featuresText := text;
    }

    /** The add button on the inventory tab, and the form's cancel. */
    method SetAdding(open: bool)
      modifies this`isAdding
      ensures isAdding == open
    {
      isAdding := open;
    }

    method SetNewCatName(text: string)
      modifies this`newCatName
      ensures newCatName == text
    {
      newCatName := text;
    }

    method EditSettings(s: ShopSettings)
      modifies this`tempSettings
      ensures tempSettings == s
    {
      tempSettings := s;
    }

    method SetNewPass(text: string)
      modifies this`newPass
      ensures newPass == text
    {
      newPass := text;
    }

    /**
     * `handleAddSubmit`: an incomplete form changes nothing; a complete one
     * puts the new product, with id `"P-" + token`, in front of the catalogue,
     * closes and resets the form. Every product added this way is valid.
     */
    method HandleAddSubmit(app: Shop.App, token: string)
      modifies this`draft, this`featuresText, this`isAdding, app`products
      ensures !IsComplete(old(draft)) ==>
        && app.products == old(app.products)
        && draft == old(draft) && featuresText == old(featuresText) && isAdding == old(isAdding)
      ensures IsComplete(old(draft)) ==>
        && app.products == [BuildProduct(old(draft), "P-" + token, ParseFeatures(old(featuresText)))] + old(app.products)
        && app.products[0].name != "" && app.products[0].image != "" && app.products[0].price >= 1
        && draft == BlankDraft(app.categories) && featuresText == "" && !isAdding
    {
      if !IsComplete(draft) {
        return;
      }
      var features := ParseFeatures(featuresText);
      app.AddProduct(BuildProduct(draft, "P-" + token, features));
      isAdding := false;
      draft := BlankDraft(app.categories);
      featuresText := "";
    }

    /**
     * `handleAddCategory`: a blank name changes nothing; otherwise the
     * trimmed name is added (once) and the box cleared.
     */
    method HandleAddCategory(app: Shop.App)
      modifies this`newCatName, app`categories
      ensures Text.Trim(old(newCatName)) == "" ==>
        app.categories == old(app.categories) && newCatName == old(newCatName)
      ensures Text.Trim(old(newCatName)) != "" ==>
        && var cat := Text.Trim(old(newCatName));
        && app.categories == (if cat in old(app.categories) then old(app.categories) else old(app.categories) + [cat])
        && cat in app.categories
        && newCatName == ""
      ensures old(app.Valid()) ==> app.Valid()
    {
      var cat := Text.Trim(newCatName);
      if cat != "" {
        app.AddCategory(cat);
        newCatName := "";
      }
    }

    /**
     * `handleSettingsSave`: the edited settings are stored, with the new
     * password only when it is not blank, and the password box is cleared.
     */
    method HandleSettingsSave(app: Shop.App)
      modifies this`newPass, app`settings
      ensures app.settings == SavedSettings(tempSettings, old(newPass)) && newPass == ""
      ensures Text.Trim(old(newPass)) != "" ==> Shop.AdminPasswordInEffect(app.settings) == old(newPass)
      ensures Text.Trim(old(newPass)) == "" ==>
        Shop.AdminPasswordInEffect(app.settings) == Shop.AdminPasswordInEffect(tempSettings)
    {
      SavedPasswordTakesEffect(tempSettings, newPass);
      app.UpdateSettings(SavedSettings(tempSettings, newPass));
      newPass := "";
    }

    /**
     * The save as evidently intended: as `HandleSettingsSave`, but the working
     * copy is refreshed to the stored settings, so a later save with a blank
     * box keeps the password now in effect.
     */
    method HandleSettingsSaveSynced(app: Shop.App)
      modifies this`newPass, this`tempSettings, app`settings
      ensures app.settings == SavedSettings(old(tempSettings), old(newPass)) && newPass == ""
      ensures tempSettings == app.settings
      ensures Text.Trim(old(newPass)) != "" ==> Shop.AdminPasswordInEffect(app.settings) == old(newPass)
      ensures Text.Trim(old(newPass)) == "" && old(tempSettings.adminPassword) == old(app.settings.adminPassword) ==>
        Shop.AdminPasswordInEffect(app.settings) == old(Shop.AdminPasswordInEffect(app.settings))
    {
      SavedPasswordTakesEffect(tempSettings, newPass);
      var saved := SavedSettings(tempSettings, newPass);
      app.UpdateSettings(saved);
      tempSettings := saved;
      newPass := "";
    }
  }
}
