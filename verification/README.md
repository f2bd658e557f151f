# E-Mart storefront: cart totals and page state machines in Dafny

This project models the logic inside the storefront's React pages. The
client-side store and the backend are outside the model: every store action
(`addToCart`, `updateStuff`, `getProductDetails`, `underControl`, ...) is
treated as an opaque event that a page emits with its payload.

- **Cart drawer** (`Cart.jsx`, module `Cart`). The drawer computes three
  `reduce` folds over `currentUser.cartDetails`: the number of units, the
  total at maximum retail price (MRP), and the payable total. Each fold is
  modelled as the left fold it is (`Reduce`). It is proved equal to a
  right-recursive sum (`Sum`). On top of that the model proves:
  - additivity over concatenation and independence from item order;
  - that the discount is the sum of the per-line savings, and is non-negative
    when every line costs no more than its MRP;
  - that the per-card totals add up to the summary's total;
  - which parts of the drawer appear for an empty or non-empty cart;
  - which store event each button emits.

  The drawer never changes the cart itself.
- **Top bar** (`Navbar.jsx`, module `Navbar`): the badge count, which is the
  drawer's fold, or absent when there is no user or no cart. Also modelled:
  the sections each role sees, the avatar initial, the first-name greeting,
  and the open/close state of the drawer and menus (class `NavbarMenus`).
- **Customer product page** (`ViewOrder.jsx`, module `ViewOrder`). Class
  `ReviewPanel` holds the review form state. Its operations are the
  rating-checked submit, the prioritised reaction to the store's `status`,
  `responseReview` and `error`, and the review menu and its delete request.
  Pure functions cover who is offered a review's menu and the customer-only
  controls.
- **Seller product page** (`ViewProductSeller.jsx`, module
  `ViewProductSeller`). Class `EditPanel` holds the edit toggle, the form,
  the loader, the popup and the remove-all dialog. Pure functions cover the
  prefill from `productDetails` (with JavaScript's `x || ''` on falsy
  values), the nested `fields` payload, and the browser's gate on the
  `required` fields. A round trip is proved for a product with every field
  present, no empty text and non-zero amounts: the unedited form can be
  submitted and sends back the product as loaded.

Shared records and actions are in `store.dfy`, and `Option` is in
`wrappers.dfy`. Prices and quantities are mathematical integers.

## Model

| member | source | states |
|---|---|---|
| `Cart.ReduceIsSum` | frontend/src/pages/customer/components/Cart.jsx:38-40 | a `reduce` fold with `total + f(item)` from any start value adds exactly the sum of `f` over the items to it |
| `Cart.SumConcat` | frontend/src/pages/customer/components/Cart.jsx:38-40 | the sum over a concatenation of item lists is the sum of the two sums |
| `Cart.SumPermutation` | frontend/src/pages/customer/components/Cart.jsx:38-40 | two item lists with the same items in any order have the same sum |
| `Cart.TotalQuantity` | frontend/src/pages/customer/components/Cart.jsx:38 | `totalQuantity` is the sum of the quantities, 0 for an empty cart |
| `Cart.TotalOriginalPrice` | frontend/src/pages/customer/components/Cart.jsx:39 | `totalOGPrice` is the sum of quantity × MRP, 0 for an empty cart |
| `Cart.TotalPayable` | frontend/src/pages/customer/components/Cart.jsx:40 | `totalNewPrice` is the sum of quantity × cost, i.e. of the per-line totals, 0 for an empty cart |
| `Cart.SavingsSum` | frontend/src/pages/customer/components/Cart.jsx:162 | the MRP total minus the payable total equals the sum over lines of quantity × (MRP − cost) |
| `Cart.Discount` | frontend/src/pages/customer/components/Cart.jsx:162 | the displayed discount `totalOGPrice - totalNewPrice` is the sum of the per-line savings |
| `Cart.DiscountNonNegative` | frontend/src/pages/customer/components/Cart.jsx:162 | if every line has a non-negative quantity and cost ≤ MRP, the discount is ≥ 0 and the payable total ≤ the MRP total (the code does not enforce this) |
| `Cart.QuantityCountsLines` | frontend/src/pages/customer/components/Cart.jsx:38 | if every line holds at least one unit, the unit count is at least the number of lines, and it is 0 exactly when the cart is empty |
| `Cart.TotalsAdditive` | frontend/src/pages/customer/components/Cart.jsx:38-40 | all three totals and the discount are additive over concatenation of carts |
| `Cart.TotalsOrderIndependent` | frontend/src/pages/customer/components/Cart.jsx:38-40 | all three totals and the discount are unchanged by reordering the lines |
| `Cart.WorkedExample` | frontend/src/pages/customer/components/Cart.jsx:38-40 | a two-line cart (2 × 100/80, 1 × 50/50) has 3 units, 250 at MRP, 210 payable and a discount of 40 |
| `Cart.LinesShowEachItem` | frontend/src/pages/customer/components/Cart.jsx:97-114 | one card per line, in order, each showing quantity × cost; the card totals sum to `totalNewPrice` |
| `Cart.Render` | frontend/src/pages/customer/components/Cart.jsx:82-201 | the empty-cart message appears iff the cart is empty; scroll-to-top, summary, checkout and bottom actions appear iff it is non-empty; the summary's item count, MRP total, discount and total are the sums of quantity, quantity × MRP, quantity × (MRP − cost) and quantity × cost over the lines; the total equals the sum of the card totals and MRP total − discount |
| `Cart.Press` | frontend/src/pages/customer/components/Cart.jsx:26-36 | −1/+1 exist only on a rendered line and emit `removeFromCart`/`addToCart` of exactly that line; Clear Cart exists only for a non-empty cart and emits `removeAllFromCart`; no press yields a new cart |
| `Navbar.BadgeCount` | frontend/src/pages/Navbar.jsx:56 | absent exactly when there is no user or no `cartDetails`; otherwise the drawer's `totalQuantity` of that cart, 0 for an empty cart |
| `Navbar.VisibleSections` | frontend/src/pages/Navbar.jsx:207-258 | Login is shown iff the role is null; cart badge and account menu iff the role is "Customer"; never both; any other role sees neither |
| `Navbar.Initial` | frontend/src/pages/Navbar.jsx:319 | the avatar letter is the name's first character (empty for an empty name) |
| `Navbar.FirstName` | frontend/src/pages/Navbar.jsx:330 | the greeting is a prefix of the name with no space, followed in the name by a space or by nothing |
| `Navbar.FirstNameIsFirstWord` | frontend/src/pages/Navbar.jsx:330 | a name without a space is shown whole; otherwise the greeting stops before the first space |
| `Navbar.NavbarMenus.constructor` | frontend/src/pages/Navbar.jsx:68-75 | drawer closed and all three menu anchors null initially |
| `Navbar.NavbarMenus.OpenCart` | frontend/src/pages/Navbar.jsx:78-80 | opens the drawer, menus unchanged |
| `Navbar.NavbarMenus.CloseCart` | frontend/src/pages/Navbar.jsx:82-84 | closes the drawer (also the drawer's own close calls), menus unchanged |
| `Navbar.NavbarMenus.OpenNavMenu` | frontend/src/pages/Navbar.jsx:87-89 | anchors the navigation menu at the clicked element, nothing else changes |
| `Navbar.NavbarMenus.CloseNavMenu` | frontend/src/pages/Navbar.jsx:91-93 | clears the navigation anchor, nothing else changes |
| `Navbar.NavbarMenus.OpenUserMenu` | frontend/src/pages/Navbar.jsx:96-98 | anchors the account menu, which is then open; nothing else changes |
| `Navbar.NavbarMenus.CloseUserMenu` | frontend/src/pages/Navbar.jsx:100-102 | clears the account anchor, which closes the menu; nothing else changes |
| `Navbar.NavbarMenus.OpenSigninMenu` | frontend/src/pages/Navbar.jsx:105-107 | anchors the sign-in menu, which is then open; nothing else changes |
| `Navbar.NavbarMenus.CloseSigninMenu` | frontend/src/pages/Navbar.jsx:109-111 | clears the sign-in anchor, which closes the menu; nothing else changes |
| `ViewOrder.ReviewerOf` | frontend/src/pages/customer/pages/ViewOrder.jsx:50 | the reviewer is the current user's id, absent when no user is signed in |
| `ViewOrder.OffersReviewMenu` | frontend/src/pages/customer/pages/ViewOrder.jsx:189 | a review offers Edit/Delete only when a user is signed in and is its reviewer |
| `ViewOrder.MenuOnlyForAuthor` | frontend/src/pages/customer/pages/ViewOrder.jsx:189 | two sessions that are both offered a review's menu belong to the same user, its author |
| `ViewOrder.CustomerControls` | frontend/src/pages/customer/pages/ViewOrder.jsx:107-116 | the review form and Add to Cart exist iff the role is "Customer" |
| `ViewOrder.AddToCartButton` | frontend/src/pages/customer/pages/ViewOrder.jsx:111-115 | for a customer the button emits `addToCart(productDetails)`; other roles have no button |
| `ViewOrder.RejectsRatingAsWritten` | frontend/src/pages/customer/pages/ViewOrder.jsx:55 | the guard as written rejects exactly a rating equal to 0: a rating of 0 is rejected, and every other value, `null` included, passes |
| `ViewOrder.ClearedRatingPassesAsWritten` | frontend/src/pages/customer/pages/ViewOrder.jsx:40-42 | a cleared (`null`) rating passes the guard as written although no rating is selected |
| `ViewOrder.RatingGuardCorrected` | frontend/src/pages/customer/pages/ViewOrder.jsx:55-57 | the corrected guard rejects exactly 0 and `null`, rejects all that the original rejects, and accepts every star count 1–5 |
| `ViewOrder.ReviewPanel.constructor` | frontend/src/pages/customer/pages/ViewOrder.jsx:24-30 | rating 0, empty comment and message, popup hidden, no menu |
| `ViewOrder.ReviewPanel.ChangeRating` | frontend/src/pages/customer/pages/ViewOrder.jsx:40-42 | stores the widget's new rating, `null` included; nothing else changes |
| `ViewOrder.ReviewPanel.ChangeComment` | frontend/src/pages/customer/pages/ViewOrder.jsx:137 | stores the typed comment; nothing else changes |
| `ViewOrder.ReviewPanel.Submit` | frontend/src/pages/customer/pages/ViewOrder.jsx:52-64 | with an empty comment the `required` field (line 138) stops the submit and nothing changes; otherwise without a rating: message "Please select a rating.", popup shown, nothing sent, rating and comment kept; with one: exactly `{rating, comment, reviewer}` sent as "addReview", then rating 0 and comment '' |
| `ViewOrder.ReviewPanel.OnStoreChange` | frontend/src/pages/customer/pages/ViewOrder.jsx:66-77 | "updated" refetches and resets the store and sets no message; else `responseReview` shows the already-reviewed message; else `error` shows "Network Error"; else nothing |
| `ViewOrder.ReviewPanel.OpenMenu` | frontend/src/pages/customer/pages/ViewOrder.jsx:32-34 | anchors the review menu; the form and popup are unchanged |
| `ViewOrder.ReviewPanel.CloseMenu` | frontend/src/pages/customer/pages/ViewOrder.jsx:36-38 | clears the review menu anchor; the form and popup are unchanged |
| `ViewOrder.ReviewPanel.DeleteFromMenu` | frontend/src/pages/customer/pages/ViewOrder.jsx:44-48 | sends a payload holding only `reviewId` as "deleteProductReview", then closes the menu |
| `ViewProductSeller.AmountOrBlank` | frontend/src/pages/seller/pages/ViewProductSeller.jsx:60-62 | an amount is kept iff present and non-zero; a missing amount or 0 becomes '' |
| `ViewProductSeller.Prefilled` | frontend/src/pages/seller/pages/ViewProductSeller.jsx:49-64 | each text field becomes the product's value or ''; MRP, cost and discount are replaced only when the product has a price, otherwise they keep their previous values |
| `ViewProductSeller.Payload` | frontend/src/pages/seller/pages/ViewProductSeller.jsx:66-78 | the `fields` object is a product update carrying the six text fields unchanged and the three price inputs nested under `price` |
| `ViewProductSeller.UntouchedFormRoundTrip` | frontend/src/pages/seller/pages/ViewProductSeller.jsx:49-78 | for a product with every field present and non-zero amounts, the prefilled form passes the required-field gate exactly when no text field is empty, and its payload describes exactly that product, whatever the form held before |
| `ViewProductSeller.ZeroAmountBlocksSubmit` | frontend/src/pages/seller/pages/ViewProductSeller.jsx:60-62 | a 0 MRP is prefilled as '', and the required field then blocks the unedited submit |
| `ViewProductSeller.EditReachesPayload` | frontend/src/pages/seller/pages/ViewProductSeller.jsx:66-78 | editing any one of the nine fields changes exactly that field of the payload (a price input under `price`) and nothing else |
| `ViewProductSeller.OffersRemoveAll` | frontend/src/pages/seller/pages/ViewProductSeller.jsx:260-272 | "Remove All Reviews" (and the review list) appear iff the product has at least one review |
| `ViewProductSeller.EditPanel.constructor` | frontend/src/pages/seller/pages/ViewProductSeller.jsx:20-45 | edit panel closed, form empty, loader off, no message, popup and dialog hidden |
| `ViewProductSeller.EditPanel.ButtonText` | frontend/src/pages/seller/pages/ViewProductSeller.jsx:21 | the toggle reads 'Cancel' exactly when the panel is open, else 'Edit product details' |
| `ViewProductSeller.EditPanel.Toggle` | frontend/src/pages/seller/pages/ViewProductSeller.jsx:155 | flips `showTab`; nothing else changes |
| `ViewProductSeller.EditPanel.OnProductDetails` | frontend/src/pages/seller/pages/ViewProductSeller.jsx:49-64 | the form becomes the prefill of the previous form from the product; nothing else changes |
| `ViewProductSeller.EditPanel.EditField` | frontend/src/pages/seller/pages/ViewProductSeller.jsx:172-244 | a field's `onChange`, possible only while the panel is open, replaces that one field of the form; nothing else changes |
| `ViewProductSeller.EditPanel.Submit` | frontend/src/pages/seller/pages/ViewProductSeller.jsx:80-84 | only while the panel is open and the button is enabled: with an empty field (every field is `required`, lines 172-244) nothing is sent and the loader stays off; otherwise the loader goes on, which disables the button, and the form's payload is sent as "ProductUpdate"; the form and the rest of the state are unchanged |
| `ViewProductSeller.EditPanel.OnStoreChange` | frontend/src/pages/seller/pages/ViewProductSeller.jsx:98-111 | "updated"/"deleted": loader off, panel closed, popup "Done Successfully", refetch then `underControl`; else an error: loader off, popup "Network Error", panel unchanged; else nothing |
| `ViewProductSeller.EditPanel.DeleteReview` | frontend/src/pages/seller/pages/ViewProductSeller.jsx:86-92 | sends a payload holding only `reviewId` as "deleteProductReview" |
| `ViewProductSeller.EditPanel.AskRemoveAll` | frontend/src/pages/seller/pages/ViewProductSeller.jsx:262-264 | opens the confirmation dialog with "Do you want to delete all reviews?" |
| `ViewProductSeller.EditPanel.ConfirmRemoveAll` | frontend/src/pages/seller/pages/ViewProductSeller.jsx:94-96 | sends `deleteStuff` for the product with "deleteAllProductReviews" |

## Left out

- Store reducers and thunks. `addToCart`, `removeFromCart`, `removeAllFromCart`, `underControl`, `getProductDetails`, `updateStuff`, `deleteStuff` and `updateCustomer` are not part of this model. They appear only as emitted events. So merge-by-id, drop-at-zero and the add/remove round trips of the cart are not modelled.
- Network and persistence. This covers the `updateCustomer` dispatch on a customer session (Navbar.jsx:61-66) and on Buy Now and Checkout (Cart.jsx:47-59).
- Navigation, scrolling and logging: `navigate`, `scrollIntoView`, `console.log`.
- The fetch of the product when a page mounts (ViewOrder.jsx:20-22, ViewProductSeller.jsx:23-25). It is an opaque store event with no local state.
- Page-level `loading` and "Product not found" guards. They only choose what to render.
- The `Popup` and `AlertDialogSlide` components, which hide the popup and the dialog, are not part of this model.
- The `price` state of ViewProductSeller.jsx (line 52) is only logged, so it is not modelled.
- `productDetails` is always an object here. Lines 59 and 260 dereference it without a guard, and the store's initial value is not part of this model.
- Numbers are integers. JavaScript's floating point, `NaN` and string/number coercion of the price text fields are not modelled. A price field is `''` or an integer amount.
- The relation between `discountPercent` and MRP/cost: the code never relates them, so none is assumed.
- `Navbar.BadgeCount` uses one `None` for both `null` and `undefined`. It also ignores that MUI's badge hides a count of 0.
- `Navbar.Initial`: `String(name)` of a missing name is not modelled, because the name is always a string here.
- `Navbar.Initial`: strings are sequences of Unicode scalar values, not UTF-16 code units. For a name starting with a character outside the Basic Multilingual Plane (an emoji, say), `charAt(0)` shows a lone surrogate, while the model shows the whole character.
- `Cart.Render`, and the drawer's totals: the drawer assumes `currentUser.cartDetails` is present. Cart.jsx:24 and 38-40 read it without a guard, so an absent cart makes the source throw a TypeError. The model does not treat an absent cart as empty, because the source does not either. Only the top bar's badge (`Navbar.BadgeCount`) handles the absent case.
- The browser's `required` check is modelled as "no field is empty". A whitespace-only value passes it as it does in the browser, and any further browser constraint validation is not modelled.
- `ViewOrder.ReviewPanel.Submit` uses the corrected rating guard (see Findings). The guard as written is `ViewOrder.RejectsRatingAsWritten`.
- Styling, theme objects, and the other pages (Home, Profile, ShowProducts, seller dashboard and charts, ViewProduct) are presentation only and not modelled.

## Findings

| source | as written | input that shows it | evidently intended | confidence | as-written member | corrected member |
|---|---|---|---|---|---|---|
| frontend/src/pages/customer/pages/ViewOrder.jsx:55 | the submit guard rejects only `rating === 0`, but `handleRatingChange` (lines 40-42) stores whatever the rating widget reports | type a comment, pick 4 stars, click the fourth star again (MUI's `Rating` then reports `null`), submit: `null === 0` is false, so a review with rating `null` is sent | a review is sent only with a selected rating; "Please select a rating." otherwise | medium, not executed; relies on the rating widget reporting `null` when the selected value is clicked again | `ViewOrder.ClearedRatingPassesAsWritten` | `ViewOrder.RatingGuardCorrected` |
