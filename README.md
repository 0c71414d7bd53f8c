# Pine Store storefront, modelled in Dafny

Pine Store is a single-page shop for pineapple products. Shoppers browse
a catalogue split into featured, top-rated and regular sections. They
search by name and fill a cart that never exceeds the stock. Checkout
validates an address and a card or UPI payment and places an order that
debits the stock. Customers sign up and log in against a small user
store, and one hard-wired administrator edits products, orders, blog
posts and payment settings.

This project models that core:

- the user, order and product stores (`db.ts`);
- the application controller's handlers and derived values (`App.tsx`);
- the checkout form, the login modal and the product card
  (`components/Checkout.tsx`, `components/LoginModal.tsx`,
  `components/ProductCard.tsx`).

Module layout:

- `Types` — the records.
- `Wrappers` — `Option`.
- `Seqs`, `Sorting` and `Text` — the JavaScript array and string operations
  the code relies on, defined once: `find`, `findIndex`, `filter`, a stable
  descending `sort`, `toLowerCase`, `trim`, `includes` and stripping `\s`.
- `Db` — the user store and product store as classes with `modifies`
  frames, plus the order query.
- `CartRules` — cart arithmetic and the add/update/remove rules, with the
  cart invariant: one line per product, each quantity positive and within
  that product's stock.
- `AdminEdits` — the list edits behind the admin handlers.
- `Sections` — search and the three catalogue sections.
- `Storefront` — the controller as class `App`. Its fields are the
  controller's state, and its methods are the handlers, each stating the
  whole new state through a ghost `State()` record.
- `Checkout`, `Login`, `ProductCards` — the three interactive components as
  classes over their local state. They call the `App` handlers their
  callbacks lead to.

Design notes:

- Dates and ids that the code takes from `Date.now()` / `new Date()` are a
  `now: int` parameter. Prices and ratings are `real`.
- The admin "update product" replaces every product with the id in the
  controller's list, but only the first in the store. `AdminEdits.ReplaceProductAgreesWithStore`
  proves the two agree while ids are unique, and `Storefront.App.Synced`
  is the invariant that the controller's list and the store stay equal.
- Three behaviours worth noting:
  - new feedback goes in front of the list (App.tsx:202);
  - admin login leaves a logged-in customer logged in (App.tsx:69-73);
  - an order placed while logged out has no user id (App.tsx:168).
- Ids come from the clock and nothing checks them for uniqueness. Two
  products added in the same millisecond share an id. Several results
  therefore assume unique ids (`Types.UniqueIds`):
  - `Sections.SectionsCoverSearch`;
  - `CartRules.OrderKeepsStockNonNegative`;
  - `AdminEdits.ReplaceProductAgreesWithStore`.

  With a shared id, a matching non-featured product outside the top four
  that shares its id with a top-rated product is in no section
  (App.tsx:298-302); `Sections.SharedIdLosesProduct` exhibits such a
  catalogue.
- In the source, the controller's product list starts as the very array the
  product store holds (App.tsx:17, db.ts:121-123), and the store's
  `updateProduct` writes into that array in place (db.ts:128). The model
  keeps the two as separate values, `App.products` and `catalog.products`,
  and states their agreement as the invariant `Storefront.App.Synced`.

## Model

| member | source | states |
|---|---|---|
| Db.HashPassword | db.ts:6 | the stored hash is the fixed prefix `hashed_` followed by the password itself, so it determines the password |
| Db.VerifyPasswordUnique | db.ts:53-55 | at most one password verifies against a stored hash |
| Db.FindUserByEmail | db.ts:45-47 | the user found has the e-mail up to ASCII case and is the first such user; none is found exactly when no user's e-mail matches |
| Db.FindUserById | db.ts:49-51 | the user found is the first in the store with that id; none exactly when no user has it |
| Db.UserDatabase.GetUserByEmail | db.ts:45-47 | delegates to `Db.FindUserByEmail` over the stored users, so it returns the first match up to case |
| Db.UserDatabase.GetUserById | db.ts:49-51 | delegates to `Db.FindUserById` over the stored users, so it returns the first user with the id |
| Db.VerifyPassword | db.ts:53-55 | a password verifies exactly when its hash is the stored one |
| Db.UserDatabase.constructor | db.ts:18-20 | the store starts with the loaded users |
| Db.UserDatabase.AddUser | db.ts:57-70 | an e-mail already present (up to case) returns nothing and leaves the users unchanged; otherwise a user with id `now`, the name, the e-mail and the hashed password is appended, verifies with that password and is what an e-mail lookup returns; e-mails stay unique |
| Db.GetOrdersByUserId | db.ts:101-103 | the result is exactly the given user's orders, with their multiplicities, newest first |
| Db.ReplaceFirstById | db.ts:125-131 | no product with the id leaves the list unchanged; otherwise only the first product with that id is replaced; the length and the id list are kept |
| Db.ProductStore.constructor | db.ts:106-115 | the catalogue starts with the loaded products |
| Db.ProductStore.GetAllProducts | db.ts:121-123 | the store's catalogue as it now stands (the sharing of that array with the controller is under "## Left out") |
| Db.ProductStore.UpdateProduct | db.ts:125-131 | the stored list becomes that first-match replacement |
| Db.FromNewProduct | db.ts:133-138 | the new product carries exactly the submitted form data, the given id and rating 0 |
| Db.FromDataOfUnrated | db.ts:133-138 | an unrated product is rebuilt exactly from its form data and id |
| Db.ProductStore.AddProduct | db.ts:133-142 | the new product carries the given data, id `now` and rating 0, and is put in front of the list |
| Types.PrependFreshKeepsUnique | db.ts:139 | putting a product with an unused id in front keeps ids unique |
| CartRules.FindProduct | App.tsx:98 | the product found is the first listed with that id; none exactly when no product has it |
| CartRules.FindLine | App.tsx:102 | the line found is the first in the cart for that product; none exactly when no line is |
| CartRules.EffectivePrice | App.tsx:248-250 | a set, nonzero sale price below the list price is what is charged; in every other case the list price is; the charge never exceeds the list price |
| CartRules.CartCount | App.tsx:246 | the sum of the line quantities; with positive quantities it is at least the number of lines |
| CartRules.CartTotal | App.tsx:247-252 | the sum of price times quantity over the lines; never negative when no charged price or quantity is |
| CartRules.CartCountAppend | App.tsx:246 | the item count of two carts together is the sum of their counts |
| CartRules.CartTotalAppend | App.tsx:247-252 | the subtotal of two carts together is the sum of their subtotals |
| CartRules.SubtotalExample | App.tsx:247-252 | two of a product at 10 on sale for 8, plus one at 5, cost 21 |
| CartRules.LineQuantity | App.tsx:102-103 | in a cart with one line per product, each line is what the lookup finds and its quantity is the amount in the cart |
| CartRules.AddToCart | App.tsx:97-124 | an unlisted product is ignored; the amount added is the request capped by the stock left after what is already in the cart; zero or less is refused; otherwise an existing line is increased or a new line is appended |
| CartRules.AddToCartKeepsConsistent | App.tsx:97-124 | adding keeps the cart invariant, raises that product's quantity and the count by the amount added, and leaves other products untouched |
| CartRules.IncreaseLine | App.tsx:115-121 | every line of the product gains the amount; all other lines, and every line's product, are unchanged |
| CartRules.SetLineQuantity | App.tsx:139-143 | every line of the product takes the new quantity; all other lines, and every line's product, are unchanged |
| CartRules.IncreaseLineCount | App.tsx:115-121 | increasing an existing line raises the count by the amount; increasing a missing one changes nothing |
| CartRules.RemoveFromCart | App.tsx:147-149 | exactly the lines of other products remain, with their multiplicities |
| CartRules.RemoveFromCartIdempotent | App.tsx:147-149 | removing a product twice is the same as removing it once |
| CartRules.RemoveKeepsUnique | App.tsx:147-149 | removal keeps one line per product |
| CartRules.RemoveKeepsConsistent | App.tsx:147-149 | removal keeps the cart invariant, leaves the removed product with no quantity and leaves other products' quantities unchanged |
| CartRules.UpdateQuantity | App.tsx:126-145 | a quantity of zero or less removes the line; more than a listed product's stock is refused; otherwise that product's line gets the new quantity |
| CartRules.UpdateQuantityKeepsConsistent | App.tsx:126-145 | an accepted update keeps the cart invariant and sets only that product's quantity |
| CartRules.DecrementOne | App.tsx:173-184 | a product loses from its stock exactly the quantity the cart holds of it, and nothing else about it changes |
| CartRules.DecrementStock | App.tsx:172-186 | the catalogue keeps its length and order, and each product's stock drops by the cart's quantity of it |
| CartRules.OrderKeepsStockNonNegative | App.tsx:172-186 | with the cart invariant and unique ids, debiting the cart never takes a stock below zero and never raises one |
| AdminEdits.ReplaceById | App.tsx:208 | every record with the edit's id becomes the edit and every other record stays in its place; the length is kept |
| AdminEdits.ReplaceProduct | App.tsx:206-209 | the controller's product edit, the replace-by-id over products |
| AdminEdits.ReplaceProductAgreesWithStore | App.tsx:206-209 | with unique ids, replacing every match (the controller) equals replacing the first match (the store), and ids stay unique |
| AdminEdits.SetOrderStatus | App.tsx:216-218 | orders with the id take the new status and keep every other field; other orders are unchanged |
| AdminEdits.ToggleOrderComplete | App.tsx:220-222 | orders with the id flip their completion flag and keep every other field; other orders are unchanged |
| AdminEdits.ToggleTwiceRestores | App.tsx:220-222 | toggling an order's completion twice restores the orders |
| AdminEdits.SetOrderStatusIdempotent | App.tsx:216-218 | setting a status twice equals setting it once; only orders with that id change, and only in status |
| AdminEdits.ReplacePost | App.tsx:233-235 | the blog-post edit, the replace-by-id over posts |
| AdminEdits.ReplacePostKeepsIds | App.tsx:233-235 | editing a post keeps every id in place, puts the edit in the list exactly when its id was present, and is idempotent |
| AdminEdits.DeletePost | App.tsx:237-239 | exactly the posts with other ids remain, with their multiplicities |
| AdminEdits.NewPost | App.tsx:224-231 | the new post carries exactly the submitted form data, with the clock's id and the day's date |
| Sections.MatchesSearch | App.tsx:290-291 | a product matches when its lower-cased name contains the lower-cased term |
| Sections.SearchIgnoresCase | App.tsx:290-291 | matching ignores the case of the term, and the empty term matches every product |
| Sections.SearchResults | App.tsx:291 | exactly the matching products, with their multiplicities |
| Sections.TopFour | App.tsx:295-297 | four products, or all when fewer, drawn from the catalogue (a sub-multiset) and ordered by rating, highest first |
| Sections.Partition | App.tsx:290-302 | the three sections as the product page computes them; their properties are the lemmas below |
| Sections.SectionMembers | App.tsx:290-302 | featured are exactly the matching featured products; regular the matching non-featured ones outside top rated; top rated are among the four best rated |
| Sections.SectionsDisjoint | App.tsx:293-302 | no product is in two sections |
| Sections.SectionsCoverSearch | App.tsx:290-302 | with unique ids, every product matching the search is in some section and every section member matches |
| Sections.SharedIdLosesProduct | App.tsx:290-302 | four better-rated non-featured products, one sharing its id with a fifth, leave that fifth product matching the empty search but in none of the three sections |
| Sections.TopFourIsBestRated | App.tsx:295-297 | at most four products are taken, all from the catalogue, and none left out rates higher than one taken |
| Sections.TopRatedIsBestRated | App.tsx:295-298 | top rated holds at most four non-featured matching products, and no product outside the four best rated outranks one of them |
| Storefront.WithoutToast | App.tsx:65-67 | exactly the toasts with other ids remain, with their multiplicities |
| Storefront.PlacedOrder | App.tsx:157-169 | a new order is pending and incomplete, holds the cart, customer, costs, method names and total, has id and date `now`, and carries the user's id exactly when someone is logged in |
| Storefront.WriteThrough | App.tsx:172-186 | the store after `dbUpdateProduct` is called, in list order, on every product that has a cart line: same length and the same ids as before, and unchanged when no product has a cart line |
| Storefront.WriteThroughPrefix | App.tsx:172-186 | writing each debited product back to the store, one by one over a prefix, leaves the store debited on that prefix and unchanged after it |
| Storefront.WriteThroughIsDecrement | App.tsx:172-186 | writing all of them back leaves the store equal to the debited list, and ids stay unique |
| Storefront.OrderEffects | App.tsx:172-186 | from a synchronised store the write-back equals the debit; and with the cart invariant, no stock goes below zero |
| Storefront.UserOrders | App.tsx:253 | no orders when logged out; otherwise exactly the orders carrying the user's id, with their multiplicities, newest first |
| Storefront.RenderContent | App.tsx:255-302 | checkout exactly for the checkout view, showing the cart and its subtotal; the blog view shows the posts; the dashboard exactly for the admin view when admin, access denied exactly for the admin view otherwise; the account page exactly for the account view when logged in, showing the user and `UserOrders` (their orders, with multiplicities, newest first), and the log-in prompt exactly when logged out; the products view shows the three sections of `Sections.Partition` over the search term |
| Storefront.ViewAfterLogout | App.tsx:83-85 | logout never leaves the account, checkout or admin view, and keeps any other view |
| Storefront.App.constructor | App.tsx:17-42 | the initial state: the catalogue's products, the posts and orders given, empty cart, feedback, search and toasts, the products view, nothing open, no admin and the saved user |
| Storefront.App.AddToast | App.tsx:61-63 | appends a toast with id `now`; nothing else changes |
| Storefront.App.RemoveToast | App.tsx:65-67 | drops the toasts with that id; nothing else changes |
| Storefront.App.HandleAdminLoginSuccess | App.tsx:69-73 | admin on, admin view, modal closed, and the dashboard is what renders |
| Storefront.App.HandleLoginSuccess | App.tsx:75-78 | the user is logged in and the modal closed |
| Storefront.App.HandleLogout | App.tsx:80-86 | user and admin cleared, the view moved off pages that need them, and neither the dashboard nor an account renders |
| Storefront.App.HandleSignUp | App.tsx:88-95 | refused, changing nothing, exactly when the e-mail is taken; otherwise the new user is stored and logged in |
| Storefront.App.HandleAddToCart | App.tsx:97-124 | follows the add rule: unlisted is ignored, refusal adds the stock error toast, success sets the cart and adds the "added" toast; the cart invariant is kept |
| Storefront.App.HandleUpdateCartQuantity | App.tsx:126-145 | follows the update rule, with the unavailable-quantity toast on refusal; the cart invariant is kept |
| Storefront.App.HandleRemoveFromCart | App.tsx:147-149 | the product's lines leave the cart; the cart invariant is kept |
| Storefront.App.HandleProceedToCheckout | App.tsx:151-154 | the cart panel closes and the checkout view opens |
| Storefront.App.BackToStore | App.tsx:261-264 | the view returns to products and nothing else changes |
| Storefront.App.WriteStockBack | App.tsx:172-186 | the loop writes each debited product back to the store in list order |
| Storefront.App.HandlePlaceOrder | App.tsx:156-189 | the order is put in front of the orders, products are debited by the cart, the cart empties, and the store receives the same debits; store sync and non-negative stock are kept |
| Storefront.App.HandleAddFeedback | App.tsx:191-203 | an unlisted product changes nothing; otherwise feedback with the product's name goes in front |
| Storefront.App.HandleUpdateProduct | App.tsx:206-209 | the controller replaces every match and the store the first; store sync is kept |
| Storefront.App.HandleAddProduct | App.tsx:211-214 | the store's new product goes in front in both lists; sync is kept when the new id is unused |
| Storefront.App.HandleUpdateOrderStatus | App.tsx:216-218 | orders become the status edit; nothing else changes |
| Storefront.App.HandleToggleOrderComplete | App.tsx:220-222 | orders become the completion toggle; nothing else changes |
| Storefront.App.HandleAddBlogPost | App.tsx:224-231 | a post with id `now` and today's date goes in front |
| Storefront.App.HandleUpdateBlogPost | App.tsx:233-235 | posts become the edit |
| Storefront.App.HandleDeleteBlogPost | App.tsx:237-239 | posts lose that id |
| Storefront.App.HandleUpdatePaymentSettings | App.tsx:241-243 | the settings are replaced |
| Storefront.App.Navigate | App.tsx:26 | only the view changes |
| Storefront.App.SetSearchTerm | App.tsx:33 | only the search term changes |
| Storefront.App.SetCartOpen | App.tsx:25 | only the cart panel flag changes |
| Storefront.App.SetLoginModalOpen | App.tsx:38 | only the login modal flag changes |
| Checkout.SelectedShipping | components/Checkout.tsx:73-78 | every shipping id finds its listed option, so the non-null assertion holds |
| Checkout.ShippingCosts | components/Checkout.tsx:16-19 | Standard costs 5 and Express 15 |
| Checkout.GrandTotal | components/Checkout.tsx:79 | the grand total exceeds the subtotal by the shipping cost |
| Checkout.PaymentNameOf | components/Checkout.tsx:124 | card maps to "Credit Card" and UPI to "UPI", both ways |
| Checkout.SetField | components/Checkout.tsx:81-83 | the named field takes the value and every other field keeps its own |
| Checkout.CustomerOf | components/Checkout.tsx:123 | the customer details are the five address fields of the form |
| Checkout.ExpiryIsMonthSlashYear | components/Checkout.tsx:100 | an expiry passes exactly when it is two digits for a month from 1 to 12, a slash and two digits |
| Checkout.IsUpiIdIffSplit | components/Checkout.tsx:105 | a UPI id passes exactly when it splits at some `@` into two non-empty runs of word characters, dots and hyphens |
| Checkout.ValidateForm | components/Checkout.tsx:89-109 | a field is flagged exactly when its check fails, and with its own message |
| Checkout.AddressChecks | components/Checkout.tsx:91-95 | name, address, city and state are flagged exactly when blank, and the ZIP exactly when off the five-digit (plus four) pattern |
| Checkout.PaymentChecks | components/Checkout.tsx:97-106 | the card fields are flagged only under card payment, each exactly when its pattern fails; the UPI id only under UPI |
| Checkout.NoErrorsIffValid | components/Checkout.tsx:89-122 | the error map is empty exactly when every check for the chosen method passes |
| Checkout.CardFieldsIgnoredUnderUpi | components/Checkout.tsx:97-106 | under UPI the card fields do not affect the errors |
| Checkout.UpiIgnoredUnderCard | components/Checkout.tsx:97-106 | under card payment the UPI id does not affect the errors |
| Checkout.CheckoutForm.constructor | components/Checkout.tsx:54-76 | empty form, with the name prefilled for a logged-in user; standard shipping, card payment, no errors, not submitted |
| Checkout.CheckoutForm.HandleChange | components/Checkout.tsx:81-87 | the field takes the value and its error entry is cleared; the rest is unchanged |
| Checkout.CheckoutForm.SelectShipping | components/Checkout.tsx:241 | only the shipping method changes |
| Checkout.CheckoutForm.SelectPaymentMethod | components/Checkout.tsx:176-177 | only the payment method changes |
| Checkout.CheckoutForm.HandleSubmit | components/Checkout.tsx:111-128 | an empty cart returns to the store without validating; otherwise the errors are recorded, and with none the order is placed with the address, the option's cost and name, subtotal plus shipping and the method's name, and the form is marked submitted; the store receives the same stock debits, and store sync and non-negative stock are kept |
| Login.DecideLogin | components/LoginModal.tsx:30-48 | the admin pair logs in the admin whatever the store holds; otherwise a user logs in exactly when the e-mail is found up to case and the password verifies, and that user is the first stored match `getUserByEmail` returns; anything else is an error |
| Login.AdminIgnoresUserStore | components/LoginModal.tsx:35-39 | the admin credentials succeed against any user store |
| Login.SignUpThenLogin | components/LoginModal.tsx:50-64 | after a successful sign-up, logging in with the same e-mail and password logs in that new user |
| Login.CheckSignUp | components/LoginModal.tsx:52-59 | mismatched passwords are refused first; then a password under six characters; otherwise sign-up goes ahead |
| Login.ViewButtonsReachability | components/LoginModal.tsx:91-185 | no button leads to "reset sent"; from "reset sent" the only way is back to login; the forgot-password view is reached only from login |
| Login.SetAuthField | components/LoginModal.tsx:24-26 | the named field takes the value and the others keep theirs |
| Login.LoginModal.constructor | components/LoginModal.tsx:15-22 | the login view, no error, empty fields |
| Login.LoginModal.HandleChange | components/LoginModal.tsx:24-28 | the field takes the value and the error clears |
| Login.LoginModal.Show | components/LoginModal.tsx:91-185 | a visible view button switches to its target view and clears the error |
| Login.LoginModal.HandleForgotPassword | components/LoginModal.tsx:66-74 | always moves to "reset sent" with no error, whether or not the e-mail exists |
| Login.LoginModal.Close | components/LoginModal.tsx:170 | the controller closes the modal |
| Login.LoginModal.HandleLogin | components/LoginModal.tsx:30-48 | admin success, user success or the invalid-credentials error, as the login decision says, with the controller updated accordingly |
| Login.LoginModal.HandleSignUp | components/LoginModal.tsx:50-64 | a mismatch or short password sets its message and changes nothing else; a taken e-mail sets the exists message; otherwise the user is created and logged in |
| ProductCards.IsOutOfStock | components/ProductCard.tsx:32 | a product is out of stock exactly when its stock is zero |
| ProductCards.IsOnSale | components/ProductCard.tsx:33 | a product is on sale exactly when a sale price is set, positive and below the list price |
| ProductCards.DisplayPrice | components/ProductCard.tsx:33-34 | the card shows a sale price exactly when it is positive and below the list price, otherwise the list price |
| ProductCards.DisplayPriceIsChargedPrice | components/ProductCard.tsx:33-34 | for a sale price that is unset or non-negative, the card shows the unit price the cart charges |
| ProductCards.NegativeSalePriceDiverges | components/ProductCard.tsx:33-34 | a product at 10 with sale price -1 shows 10 on the card but is charged -1 in the cart |
| ProductCards.RatingToDisplay | components/ProductCard.tsx:57 | the hovered star wins, then the submitted rating, then the product rating rounded down |
| ProductCards.AtMostOneRating | components/ProductCard.tsx:51-71 | a sequence of star clicks sends at most one rating, the first click, and none once rated |
| ProductCards.ProductCard.constructor | components/ProductCard.tsx:28-30 | not added, no hover, no rating |
| ProductCards.ProductCard.HandleAddToCartClick | components/ProductCard.tsx:38-49 | out of stock does nothing; logged out opens the login modal; otherwise one unit goes through the add rule, the card shows "added", and a successful add raises the cart count by one and keeps the cart invariant |
| ProductCards.ProductCard.MouseEnterStar | components/ProductCard.tsx:69 | hovering sets the hover star unless already rated |
| ProductCards.ProductCard.MouseLeaveStar | components/ProductCard.tsx:70 | leaving clears the hover star unless already rated |
| ProductCards.ProductCard.ClickStar | components/ProductCard.tsx:51-71 | the first click records the rating and sends feedback through the controller; later clicks change nothing |
| Text.TrimEmptyIffBlank | components/Checkout.tsx:91-94 | a string trims to empty exactly when every character is whitespace |
| Text.StripWhitespaceAppend | components/Checkout.tsx:99 | removing whitespace distributes over concatenation |
| Text.StripWhitespaceNoop | components/Checkout.tsx:99 | removing whitespace from a string with none leaves it unchanged |
| Sorting.SortDesc | App.tsx:296 | the result is a permutation of the input in non-increasing key order |
| Sorting.SortDescOfSorted | App.tsx:296 | a list already in non-increasing key order is returned unchanged |

## Left out

- Persistence: `localStorage` reads and writes, the JSON parsing and its error paths, and the `useEffect` hooks that save state. The stores' constructors take the loaded lists as parameters.
- The clock: `Date.now()` and `new Date()` are the `now` parameter. The blog date from `toLocaleDateString` is the `today` parameter. Order dates are kept as the same number.
- The toast and "added" timers (`setTimeout`), the empty-cart `alert` and the `console.log` calls.
- React itself: re-rendering, batched or stale state updates, and event objects. Each handler is modelled as running to completion on the current state.
- Markup, styling and the presentational components (header, cart panel, blog page, account page, admin dashboard, settings tab, toasts). They only display state or call the handlers modelled here.
- Regular expressions: each pattern is restated as a character-class predicate (`IsZip`, `CardNumberOk`, `ExpiryOk`, `CvcOk`, `IsUpiId`).
- Floating point: prices, totals and ratings are exact reals. The source's rounding, and `toFixed` in the display, are not modelled.
- `discountPercent` on the product card: it is only displayed text.
- Text.ToLower: maps only ASCII letters.
- String lengths count Dafny characters, where JavaScript counts UTF-16 code units. This matters only for the six-character password minimum on non-BMP input.
- Checkout.Fails: tests a text field with `IsBlank`, where the source tests that its `trim()` is empty. `Text.TrimEmptyIffBlank` proves the two are the same.
- Shipping ids: the checkout's shipping method is an enumeration of the two listed ids instead of a free string, because the radios can only select a listed id.
- Checkout.CheckoutForm.HandleChange: setting an error to `null` is modelled as removing the entry. Both read as "no error".
- Sorting.SortDesc: does not state stability, although the insertion sort it uses is stable.
- Storefront.App.HandleUpdateProduct: does not keep the cart invariant, because an admin can lower a product's stock below what a cart already holds. The source does not guard against this either.
- Storefront.App.HandleAddProduct: keeps the stores synchronised only when the new id is unused, because the source takes the id from the clock without checking it.
- Aliasing between the controller's product list and the store's array: until the controller first replaces its list, the store's in-place writes also show through the controller's list. The model keeps two values and does not capture this sharing; `Storefront.App.Synced` states when they agree.
