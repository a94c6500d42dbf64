# Akshop storefront — a Dafny model of its commerce state

Akshop is a single-page React storefront. Its whole state lives in memory: a
product catalogue, category labels, shop settings, an order ledger, a cart,
the signed-in user and the catalogue filter. This project models the rules
that change that state or derive values from it, and proves what they promise.

The model has one module per source component:

- `Shop` models `index.tsx`. Its `App` class has the state fields. Its methods are
  the handlers: add to cart, remove, quantity update, sign-in, sign-out,
  checkout, category add and delete, product add and delete, review
  submission and settings update. The derived values are pure functions: the
  filtered catalogue, the cart badge count and a user's orders.
- `CartSidebar` models `components/CartSidebar.tsx`: the unit price rule
  `discountPrice || price`, line subtotals, the cart total, and the quantity
  its minus and plus buttons request.
- `ProductDetail` models `components/ProductDetailModal.tsx`: the sale-price
  rule `hasDiscount`/`finalPrice`, the option picker, and the `DetailView`
  class, whose state is the chosen options, the star rating and the comment.
- `AuthModal` models `components/AuthModal.tsx`: the `LoginForm` class with
  its guarded submit and the administrator-address test.
- `AdminPanel` models `components/AdminPanel.tsx`:
  - product-form validation;
  - comma-separated feature parsing;
  - new-product defaults;
  - the settings password override;
  - gross sales;
  - the `AdminForms` class holding the panel's form state.
- `Types` models `types.ts`. `Text` models the JavaScript string built-ins
  the core relies on: `toLowerCase`, `includes`, `trim`, and `split` on one
  character. Its `Join` is not used by the storefront; it is the inverse of
  `split` that the feature-list round trip is stated with. `Seqs` models
  `Array.prototype.filter` and the summing `reduce`.

A component callback (`onLogin`, `onAddProduct`, …) is modelled as a call to
the corresponding `App` method on the `App` object passed in. Prices are
whole taka (`nat`). An option map is an insertion-ordered list of
(name, value) pairs wrapped in `Option`. "Equal `JSON.stringify` output" is
therefore sequence equality, and an absent map (`None`) differs from an empty
one (`Some([])`). Random ids and date strings are method parameters.

Two behaviours of the code that a reader might not expect:

- **Cart price.** The detail view shows a discount only when the discount
  price is non-zero and below the list price (components/ProductDetailModal.tsx:45).
  The cart and the checkout charge `discountPrice || price` without that check
  (components/CartSidebar.tsx:23, index.tsx:133), so a non-zero discount price
  above the list price is charged. `ProductDetail.PriceRulesDisagreement`
  states exactly when the two rules differ.
- **Remove and quantity update.** The drawer's remove and quantity buttons
  pass only the product id (components/CartSidebar.tsx:74-84), so they act on
  every line with that product id, whatever its options.
- **Quantity clamping.** `App.UpdateQuantity` stores the quantity it is
  given. The clamp to at least 1 lives only in the drawer's minus button
  (`CartSidebar.RequestedQuantity`).

## Model

| member | source | states |
|---|---|---|
| CartSidebar.UnitPrice | components/CartSidebar.tsx:23 | the unit price is the discount price whenever that is present and non-zero, otherwise the list price; it is 0 only for a free product |
| CartSidebar.LineSubtotal | components/CartSidebar.tsx:23 | a line costs its unit price times its quantity (a definition) |
| CartSidebar.CartTotal | index.tsx:133 | the cart total, as the drawer shows and the checkout records it: the sum of the line subtotals (a definition; see `CartTotalAppend` and `CartTotalZero`) |
| CartSidebar.CartTotalAppend | components/CartSidebar.tsx:23 | the cart total is additive over concatenation and an empty cart totals 0 |
| CartSidebar.CartTotalZero | components/CartSidebar.tsx:23 | the total is 0 exactly when every line subtotal is 0 |
| CartSidebar.RequestedQuantity | components/CartSidebar.tsx:73-81 | minus requests `max(1, q-1)` and plus requests `q+1`; no button ever requests less than 1, and minus on a line at 1 keeps it at 1 |
| Shop.CartCount | index.tsx:167 | the badge: the sum of the line quantities (a definition; its properties are `AddLineCountGeneral` and `AddLineCount`) |
| Shop.Matches | index.tsx:73-76 | a line is merged into when its product id and its serialised option map both equal the added ones (a definition) |
| Shop.AddLine | index.tsx:71-85 | when a line has the same product id and option map, the length and every line's key and product are kept, and every matching line's quantity rises by one while every other line's stays; otherwise exactly one line with quantity 1 is appended; either way a matching line is present |
| Shop.DistinctKeysMatchAtMostOnce | index.tsx:73-76 | in a cart without repeated (id, option map) keys, at most one line matches, and one does exactly when a match exists |
| Shop.AddLineCountGeneral | index.tsx:71-85 | the badge count rises by the number of merged lines, or by 1 for a new line |
| Shop.BumpCount | index.tsx:78-82 | raising each matching line by one raises the count by the number of matches |
| Shop.AddLineMerges | index.tsx:77-83 | with distinct keys and line `i` matching, the add changes only line `i`, raising its quantity by 1 |
| Shop.AddLineCount | index.tsx:71-85 | with distinct keys, every add raises the badge count by exactly 1 |
| Shop.AddLineKeepsKeysDistinct | index.tsx:71-85 | adding never creates two lines with the same key |
| Shop.AddLineTotalMerged | index.tsx:77-83 | merging into line `i` raises the cart total by one unit price of that line |
| Shop.AddLineTotalAppended | index.tsx:84 | appending raises the cart total by one unit price of the product |
| Shop.AbsentAndEmptyOptionsDiffer | index.tsx:75 | adding with no option map next to a line holding an empty map appends a second line |
| Shop.RepeatedAddsMerge | index.tsx:71-85 | `n` identical adds to an empty cart give one line of quantity `n` |
| Shop.DifferentOptionsGiveSeparateLines | index.tsx:73-84 | two adds of one product with different option maps give two lines |
| Shop.RemoveLines | index.tsx:394 | no line with the id remains; every other line is kept, in order, with as many copies as before |
| Shop.RemoveLinesKeepsKeysDistinct | index.tsx:394 | removal keeps keys distinct |
| Shop.RemoveLastProduct | index.tsx:394 | removing the only product in the cart leaves it empty, with total 0 and count 0 |
| Shop.SetQuantity | index.tsx:395 | every line with the id gets the quantity; every other line is unchanged; the length and the keys are kept |
| Shop.SetQuantityKeepsInvariants | index.tsx:395 | a quantity update keeps keys distinct, and keeps quantities positive when the new one is |
| Shop.QuantityButtonsActOnEveryLineOfTheProduct | components/CartSidebar.tsx:74-84 | a button on one of two lines of a product sets both lines; remove drops both |
| Shop.FilteredProducts | index.tsx:58-65 | the result is an order-preserving subsequence; a product is in it exactly when its lower-cased name or description contains the lower-cased term and its category matches, with `'All'` matching every category; each listed product appears as often as in the catalogue |
| Shop.EmptySearchShowsEverything | index.tsx:58-65 | an empty term with `'All'` lists every product |
| Shop.SearchIgnoresCase | index.tsx:60-61 | a term and its lower-cased form list the same products |
| Shop.UserOrders | index.tsx:168 | the orders whose email is the user's, in ledger order; none when nobody is signed in |
| Shop.NewOrderHeadsUserOrders | index.tsx:137 | a new order of the user heads that user's list, ahead of their earlier orders |
| Shop.AdminPasswordInEffect | index.tsx:92 | the stored password unless it is absent or empty, else `'admin123'`; never empty |
| Shop.IsAdminEmail | index.tsx:91 | the lower-cased email is `admin@akshop.com` (a definition; see `AdminEmailIgnoresCase`) |
| Shop.AdminEmailIgnoresCase | index.tsx:91 | any capitalisation of `admin@akshop.com` is the administrator address |
| Shop.CapitalisedAdminEmail | index.tsx:91 | `ADMIN@AkShop.COM` is recognised as the administrator address |
| Shop.NewReview | index.tsx:410 | the review keeps the rating and comment as given; the author is the user's id and name, or `'v'` and `'Visitor'` |
| Shop.WithReview | index.tsx:408-414 | exactly the products with the id get the review in front and a count one higher (a missing count counts as 0); all others are unchanged |
| Shop.FirstReview | index.tsx:411 | the first review of a product makes its count 1 and its list one entry long |
| Shop.App.constructor | index.tsx:20-47 | the loaded state, with nobody signed in, no filter and the shop view |
| Shop.App.ShowsAdminPanel | index.tsx:170 | the panel replaces the shop page exactly when the view is the admin view and the user is an administrator (a definition) |
| Shop.App.SetSearchTerm | index.tsx:67-69 | the term is stored, and the listing is the filter with that term |
| Shop.App.SelectCategory | index.tsx:221 | every listed product matches the selected category |
| Shop.App.Reset | index.tsx:149-153 | the search and the category are cleared, and every product is listed |
| Shop.App.AddToCart | index.tsx:71-88 | the cart becomes `AddLine` of the old cart; with distinct keys they stay distinct and the count rises by 1; the state invariant (distinct cart keys, distinct labels, `'All'` listed) is preserved |
| Shop.App.AddToCartFromDetail | index.tsx:406 | the add, with the option map present, then the detail view closes; the state invariant (distinct cart keys, distinct labels, `'All'` listed) is preserved |
| Shop.App.RemoveFromCart | index.tsx:394 | the cart loses every line of the product; keys stay distinct; the state invariant (distinct cart keys, distinct labels, `'All'` listed) is preserved |
| Shop.App.UpdateQuantity | index.tsx:395 | every line of the product gets the quantity; keys stay distinct and quantities positive for a positive request; the state invariant (distinct cart keys, distinct labels, `'All'` listed) is preserved |
| Shop.App.Login | index.tsx:90-121 | the administrator address succeeds exactly with the password in effect, giving the admin user and the admin view; a refusal changes nothing; any other address always signs in a regular user under the lower-cased email |
| Shop.App.Logout | index.tsx:144-147 | nobody is signed in and the shop view is shown |
| Shop.App.SetView | index.tsx:184 | the view is set; the panel shows only for an administrator |
| Shop.App.OpenAuthModal | index.tsx:197 | the sign-in form opens |
| Shop.App.CloseAuthModal | index.tsx:399 | the sign-in form closes |
| Shop.App.SelectProduct | index.tsx:263 | the detail view shows the product, or closes |
| Shop.App.Checkout | index.tsx:123-142 | with nobody signed in only the sign-in form opens; otherwise one pending order with the old cart and its total is prepended, the cart empties, the drawer closes, and the order heads the user's orders; the state invariant (distinct cart keys, distinct labels, `'All'` listed) is preserved |
| Shop.App.AddCategory | index.tsx:155-159 | the label is appended only when absent, so no duplicate arises |
| Shop.App.DeleteCategory | index.tsx:161-165 | `'All'` is a no-op; any other label is removed, and the filter falls back to `'All'` if it was selected |
| Shop.App.AddProduct | index.tsx:180 | the product goes in front of the catalogue |
| Shop.App.DeleteProduct | index.tsx:181 | exactly the products with the id are dropped |
| Shop.App.SubmitReview | index.tsx:407-416 | the catalogue gets the review as in `WithReview` and the detail view closes |
| Shop.App.UpdateSettings | index.tsx:179 | the settings are replaced |
| ProductDetail.HasDiscount | components/ProductDetailModal.tsx:45 | the discount price is present, non-zero and below the list price (a definition) |
| ProductDetail.FinalPrice | components/ProductDetailModal.tsx:45-46 | the shown price never exceeds the list price; it is below it exactly when `hasDiscount` holds, and it is the list or the discount price |
| ProductDetail.PriceRulesAgreeOnDiscount | components/ProductDetailModal.tsx:45-46 | when the discount is present, non-zero and below the list price, the cart and the detail view use the same price |
| ProductDetail.PriceRulesDisagreement | components/CartSidebar.tsx:23 | the two rules differ exactly when the discount price exceeds the list price, and the cart's price is never the lower one |
| ProductDetail.Lookup | components/ProductDetailModal.tsx:136 | a name has a value exactly when it was chosen, and the value is one chosen for it |
| ProductDetail.SetOption | components/ProductDetailModal.tsx:40-42 | the chosen pair is present and at most one entry is added |
| ProductDetail.NamesAfterSetOption | components/ProductDetailModal.tsx:40-42 | the names keep their order; a new name is appended at the end |
| ProductDetail.LookupAfterSetOption | components/ProductDetailModal.tsx:40-42 | the chosen name maps to the new value and every other name keeps its value |
| ProductDetail.SetOptionKeepsNamesUnique | components/ProductDetailModal.tsx:40-42 | choosing never repeats a name |
| ProductDetail.ChoosingTwiceKeepsOneEntry | components/ProductDetailModal.tsx:40-42 | choosing twice for one option equals choosing the second value once |
| ProductDetail.DetailView.constructor | components/ProductDetailModal.tsx:25-28 | the form opens with rating 5, an empty comment and no option chosen |
| ProductDetail.DetailView.ChooseOption | components/ProductDetailModal.tsx:40-42 | the picked name gets the value, every other name keeps its value, and names stay unique |
| ProductDetail.DetailView.SetRating | components/ProductDetailModal.tsx:200 | the star is stored |
| ProductDetail.DetailView.SetComment | components/ProductDetailModal.tsx:205 | the comment is stored |
| ProductDetail.DetailView.AddToCart | components/ProductDetailModal.tsx:181 | the current option map, never an absent one, is added, and the view closes |
| ProductDetail.DetailView.SubmitReview | components/ProductDetailModal.tsx:32-38 | without a user nothing changes; otherwise the review is posted and the form resets to an empty comment and 5 stars |
| AuthModal.LoginForm.constructor | components/AuthModal.tsx:12-14 | the fields start empty |
| AuthModal.LoginForm.ShowsPasswordField | components/AuthModal.tsx:70 | the password field shows exactly for the administrator address, in any letter case (a definition) |
| AuthModal.LoginForm.SetName | components/AuthModal.tsx:55 | the name is stored |
| AuthModal.LoginForm.SetEmail | components/AuthModal.tsx:28 | the email is stored; the password field shows exactly for the administrator address, ignoring case |
| AuthModal.LoginForm.SetPassword | components/AuthModal.tsx:79 | the password is stored |
| AuthModal.LoginForm.Submit | components/AuthModal.tsx:18-26 | without a name or an email nothing happens; otherwise sign-in is attempted and the form closes exactly when it succeeds; a regular address signs in a regular user under the lower-cased email and keeps the view; the administrator address with the password in effect signs in the `admin-id` user with the administrator avatar and shows the panel, and with any other password changes nothing; an empty password never signs in the administrator |
| AdminPanel.TrimAll | components/AdminPanel.tsx:78 | each piece is trimmed, in order |
| AdminPanel.TrimAllFacts | components/AdminPanel.tsx:78 | trimmed pieces are empty or trimmed at both ends, and gain no character |
| AdminPanel.ParseFeatures | components/AdminPanel.tsx:78 | no feature is empty, has surrounding white space or holds a comma; there are at most one more features than commas; a string is a feature exactly when it is a non-empty trimmed piece; order is kept |
| AdminPanel.ParseJoinedFeatures | components/AdminPanel.tsx:78 | parsing the comma-joined list of non-empty, trimmed, comma-free features gives the list back |
| AdminPanel.EmptyTextHasNoFeatures | components/AdminPanel.tsx:78 | an empty box gives no features |
| AdminPanel.BlankFeatures | components/AdminPanel.tsx:78 | a box of only commas and white space gives no features |
| AdminPanel.PieceOfBlankText | components/AdminPanel.tsx:78 | each piece of such a box trims to the empty string |
| AdminPanel.PieceChars | components/AdminPanel.tsx:78 | every character of a piece comes from the split text |
| AdminPanel.DefaultCategory | components/AdminPanel.tsx:50 | the second label when present and non-empty, else `'Electronics'`; never empty |
| AdminPanel.BlankDraft | components/AdminPanel.tsx:46-57 | the blank form has no name, no image, price 0 and the default category |
| AdminPanel.IsComplete | components/AdminPanel.tsx:72 | a form is accepted exactly when it has a photo, a name and a non-zero price (a definition) |
| AdminPanel.BlankDraftIsIncomplete | components/AdminPanel.tsx:72 | a blank form is never accepted |
| AdminPanel.BuildProduct | components/AdminPanel.tsx:80-86 | the new product has rating 5, a review count of 0, no reviews, the parsed features, the given id and every other field from the form |
| AdminPanel.BuiltProductIsValid | components/AdminPanel.tsx:72-86 | a product built from an accepted form has a name, an image and a price of at least 1 |
| AdminPanel.SavedSettings | components/AdminPanel.tsx:103-109 | the password is replaced, untrimmed, only when it is not blank after trimming; every other field comes from the edited settings |
| AdminPanel.SavedPasswordTakesEffect | components/AdminPanel.tsx:106-107 | after a save with a non-blank password, that password signs in the administrator; with a blank one the password in effect is the working copy's, which is not always the one stored (see Findings) |
| AdminPanel.StaleCopyRevertsPassword | components/AdminPanel.tsx:38 | as written: a password change followed by a save with a blank box, both from the same working copy, puts the working copy's older password back in effect |
| AdminPanel.SecondBlankSaveRestoresDefault | components/AdminPanel.tsx:103-109 | as written: with no stored password, saving "secret" and then saving with an empty box leaves `'admin123'` in effect |
| AdminPanel.SyncedSavesKeepPassword | components/AdminPanel.tsx:103-109 | corrected: when each save starts from what the previous one stored, a password change survives any number of saves with a blank box |
| AdminPanel.GrossSales | components/AdminPanel.tsx:188 | gross sales are 0 with no orders |
| AdminPanel.GrossSalesOfNewOrder | components/AdminPanel.tsx:188 | a new order raises gross sales by its total |
| AdminPanel.OrderWithinGrossSales | components/AdminPanel.tsx:188 | no order's total exceeds gross sales |
| AdminPanel.NonWildcard | components/AdminPanel.tsx:246 | `'All'` never gets a delete control nor appears among the new product's category choices; every other label does, in order |
| AdminPanel.AdminForms.constructor | components/AdminPanel.tsx:38-57 | the panel opens with a blank product form and the current settings to edit |
| AdminPanel.AdminForms.EditDraft | components/AdminPanel.tsx:415-455 | the product form holds the edited values |
| AdminPanel.AdminForms.SetFeaturesText | components/AdminPanel.tsx:448 | the features text is stored |
| AdminPanel.AdminForms.SetAdding | components/AdminPanel.tsx:165 | the product form opens or closes |
| AdminPanel.AdminForms.SetNewCatName | components/AdminPanel.tsx:234 | the category name box is stored |
| AdminPanel.AdminForms.EditSettings | components/AdminPanel.tsx:290-294 | the edited settings are stored |
| AdminPanel.AdminForms.SetNewPass | components/AdminPanel.tsx:285 | the password box is stored |
| AdminPanel.AdminForms.HandleAddSubmit | components/AdminPanel.tsx:70-92 | an incomplete form changes nothing; a complete one prepends the built product with id `"P-" + token`, which has a name, an image and a positive price, then closes and resets the form |
| AdminPanel.AdminForms.HandleAddCategory | components/AdminPanel.tsx:94-101 | a blank name changes nothing; otherwise the trimmed name is added once and the box is cleared |
| AdminPanel.AdminForms.HandleSettingsSave | components/AdminPanel.tsx:103-112 | as written: the working copy, with the new password when it is not blank, is stored and the box is cleared; the password in effect becomes the new one when it is not blank, else the working copy's, and the working copy is not refreshed |
| AdminPanel.AdminForms.HandleSettingsSaveSynced | components/AdminPanel.tsx:103-112 | corrected: the same save, which also refreshes the working copy to what it stored; a blank box then keeps the password in effect |
| Text.Lower | index.tsx:60-61 | the same length, each character lower-cased, none upper-case left, other characters kept |
| Text.Contains | index.tsx:60-61 | `includes` holds exactly when the term occurs at some position |
| Text.Trim | components/AdminPanel.tsx:78 | the result is a piece of the string with only white space removed around it; it neither starts nor ends with white space; it is empty exactly for all-white-space input |
| Text.Split | components/AdminPanel.tsx:78 | one more piece than separators, and no piece holds the separator |
| Text.JoinSplit | components/AdminPanel.tsx:78 | joining the pieces with the separator gives the text back |
| Text.SplitJoin | components/AdminPanel.tsx:78 | splitting the join of separator-free pieces gives the pieces back |

## Findings

| source | as written | input that shows it | evidently intended | confidence | as-written member | corrected member |
|---|---|---|---|---|---|---|
| components/AdminPanel.tsx:38 | the settings form's working copy is taken once, when the panel opens, and `handleSettingsSave` (lines 103-109) never refreshes it, so a save with a blank password box stores the working copy's password again | no stored password; save with new password `secret`; save again with the box empty: the password in effect is `admin123` again | a save with a blank box keeps the password currently in effect | high; not executed | AdminPanel.StaleCopyRevertsPassword | AdminPanel.AdminForms.HandleSettingsSaveSynced |

## Left out

- Persistence: the `localStorage` load and save effects (index.tsx:20-39, 52-56). The state is modelled as already loaded.
- Alerts, toasts, scrolling, the order-history drawer flag and all rendering: presentation only.
- Image upload through `FileReader` (components/AdminPanel.tsx:59-68): a browser I/O callback. The image fields are plain strings in the form.
- The chat assistant (components/ChatBot.tsx, services/geminiService.ts): a network call to a third-party service. It is not part of this model.
- The users list and its delete button: the list is always empty and the delete is a no-op (index.tsx:177-178).
- Random ids and date strings are parameters (`freshId`, `token`, `reviewId`, `date`). The model does not capture that they are random, nor how they are formatted. `Math.random` can repeat an id; the model does not exclude that either.
- Text.Lower: lower-cases ASCII letters only; JavaScript's `toLowerCase` also maps non-ASCII letters.
- Prices and ratings: JavaScript numbers are modelled as whole numbers (`nat`) and the 5.0 rating as a real constant; fractional and negative prices are not modelled.
- AdminPanel.Draft: a price box holding no number (`NaN`) is modelled as price 0. Both are falsy in the validation check, so they are rejected alike.
- Browser form checks (`required`, `type="email"`, `type="number"`) are not modelled; the handlers' own checks are.
- Object key order: a JavaScript object lists integer-like keys first. The option map is modelled as purely insertion-ordered.
- Star ratings come from buttons 1 to 5, but the review callback stores any integer it is given. DetailView.SetRating accepts any integer for that reason.
- The detail view's WhatsApp link and image toggle are display only, and so is the product card (components/ProductCard.tsx).
