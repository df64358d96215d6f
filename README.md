# Vue product widget — verified model

This project models the logic of a small Vue product page (`js/main.js`):

- the `product` component: a fixed list of sock variants, the index of the
  selected variant, and the facts computed from it (title, image, sale flag,
  stock, shipping). It also handles the two cart buttons and the
  `review-submitted` event;
- the `product-review` form: four fields validated by JavaScript
  truthiness. A submit either emits a review record or builds an ordered
  list of error messages;
- the `product-tabs` panel: which of four tabs is shown, and `saveComment`,
  which marks one review as saved;
- the root instance: the `premium` flag and the cart, a list of variant ids
  handled by push and pop.

Modules:

- `JsValues`: JavaScript values with falsiness made explicit. `JsText` is
  `undefined`, `null` or a string; `JsNumber` is `null` or an integer.
  It also holds the decimal conversion that a template literal applies to
  an array index.
- `ReviewForm`: `Submit`, a function that specifies one submit, and the
  class `ProductReview`, whose `OnSubmit` updates the form's fields in place
  as the component does.
- `ReviewStore`: the review entries and the `ReviewList` class. This is the
  one `reviews` array that the product owns and shares by reference with
  the tabs.
- `Catalog`: the class `Product`. `SubmitReview` connects the form to the
  product's review list.
- `Tabs`: the class `ProductTabs` and the local-storage key of a saved
  comment.
- `RootApp`: the class `App` with its cart.

In these places the model keeps the code's exact behaviour:

- `inStock` returns the variant's quantity, and templates test it for
  truthiness. So a variant counts as in stock when its quantity is
  non-zero, not only when it is positive.
- A record that comes from the form has no `comment` or `isSaved`
  property, so those read as `undefined`. It does not get an empty comment.
- `saveComment` has no "already saved" error. Saving again marks the entry
  saved again and writes the storage key again.
- Selecting a tab or a variant has no error path. The only callers are
  click and hover handlers generated for the entries of `tabs` and
  `variants`, so the valid index or name is a precondition.

## Model

| member | source | states |
|---|---|---|
| `ReviewForm.Submit` | js/main.js:186-205 | a record is emitted exactly when name, review, rating and recommend are all truthy; recommend is never changed |
| `ReviewForm.ValidSubmit` | js/main.js:187-198 | on a complete form: exactly one record equal to the four fields is emitted, errors are empty, name/review/rating become null, recommend is kept |
| `ReviewForm.InvalidSubmit` | js/main.js:199-204 | on an incomplete form: nothing is emitted, none of the four fields changes, and errors are the messages of the missing fields in the fixed order |
| `ReviewForm.MissingErrorsSelected` | js/main.js:200-203 | the four conditional pushes produce exactly the message list "Name required.", "Review required.", "Rating required.", "Recommendation required." filtered by the missing fields |
| `ReviewForm.ErrorBounds` | js/main.js:187-204 | errors are empty exactly when the submit is valid; otherwise they hold one message per missing field, between 1 and 4 |
| `ReviewForm.ErrorForEachMissingField` | js/main.js:199-204 | each message is in the error list exactly when its field is falsy and the submit fails |
| `ReviewForm.ErrorsForgetEarlierSubmits` | js/main.js:187 | errors are reset on every submit: earlier messages have no influence on the outcome |
| `ReviewForm.ResubmitAfterValid` | js/main.js:188-198 | submitting again right after a valid submit emits nothing and reports exactly name, review and rating as missing |
| `ReviewForm.ProductReview.constructor` | js/main.js:176-184 | the form starts with all four fields null and no errors |
| `ReviewForm.ProductReview.OnSubmit` | js/main.js:186-205 | updating the fields in place yields exactly the new form and the emitted record that `Submit` specifies |
| `ReviewStore.FromSubmission` | js/main.js:189-194 | the stored entry carries the emitted record's four fields, is not saved, and has no comment |
| `ReviewStore.Saved` | js/main.js:287-291 | saving entry i marks it saved, keeps its comment and every other field, and leaves every other entry and the length unchanged |
| `ReviewStore.SavedIdempotent` | js/main.js:287-291 | saving the same entry twice is the same as saving it once |
| `ReviewStore.SavedCommutes` | js/main.js:287-291 | saves of two entries give the same list in either order |
| `ReviewStore.SavedKeepsEarlierSaves` | js/main.js:290 | saving never unsaves an entry and changes nothing of an entry except its saved flag |
| `ReviewStore.ReviewList.Push` | js/main.js:105 | push appends the entry at the end |
| `ReviewStore.ReviewList.MarkSaved` | js/main.js:290 | the list becomes `Saved` of the old list |
| `Catalog.ShippingFor` | js/main.js:121-127 | shipping is "Free" exactly when premium, and the standard 2.99 otherwise |
| `Catalog.Product.Shipping` | js/main.js:121-127 | the product's shipping is free exactly when its premium prop is set, and the standard 2.99 otherwise |
| `Catalog.Product.constructor` | js/main.js:45-84 | initial data: brand "Vue Mastery", product "Socks", the two sock variants, the first selected, one seed review |
| `Catalog.Product.Title` | js/main.js:109-111 | the title is the brand, one space, then the product name |
| `Catalog.Product.AddToCart` | js/main.js:86-89 | the emitted id is the selected variant's id, and nothing changes |
| `Catalog.Product.DeleteFromCart` | js/main.js:90-93 | the emitted id is the selected variant's id, and nothing changes |
| `Catalog.Product.UpdateProduct` | js/main.js:97-120 | after selecting index i, the computed `Image`, `Sale` and `InStock` (js/main.js:112-120) read variant i: its image, its sale flag, and a value that is truthy exactly when its quantity is non-zero; the id the cart buttons emit is variant i's; the title and shipping do not change |
| `Catalog.Product.OnReviewSubmitted` | js/main.js:103-106 | the submitted record is appended at the end, and the earlier reviews are unchanged |
| `Catalog.SubmitReview` | js/main.js:186-205 | one submit delivered to the product: the review list grows by the emitted record exactly when the form was complete, and is unchanged otherwise |
| `JsValues.ParseDecimalOfDecimal` | js/main.js:289 | reading back the decimal string of an index gives the index |
| `JsValues.DecimalInjective` | js/main.js:289 | distinct indexes have distinct decimal strings |
| `Tabs.CommentKey` | js/main.js:289 | the storage key is "comment-" followed by the index in decimal |
| `Tabs.CommentKeysDistinct` | js/main.js:289 | different reviews are saved under different storage keys |
| `Tabs.ProductTabs.constructor` | js/main.js:277-284 | the tabs are the four named panels, and "Reviews" is shown first |
| `Tabs.ProductTabs.SelectTab` | js/main.js:239 | clicking a tab shows that tab, and the shown tab is always one of the tabs |
| `Tabs.ProductTabs.SaveComment` | js/main.js:287-291 | records one storage write of the entry's comment under its key, then marks only that entry saved; the shown tab does not change |
| `RootApp.Popped` | js/main.js:337-339 | pop removes only the last id; an empty cart stays empty |
| `RootApp.DeleteUndoesAdd` | js/main.js:334-339 | adding an id and then deleting restores the cart exactly |
| `RootApp.DeleteKeepsPrefix` | js/main.js:337-339 | after a delete the cart is a prefix of the old cart, one shorter unless it was empty |
| `RootApp.App.constructor` | js/main.js:329-332 | premium starts true and the cart starts empty |
| `RootApp.App.UpdateCart` | js/main.js:334-336 | the id is appended at the end, so the cart grows by one and keeps the old ids as a prefix |
| `RootApp.App.DeleteCart` | js/main.js:337-339 | the cart becomes `Popped` of the old cart; it never fails |

## Left out

- Templates, `v-model` binding, reactivity and rendering (js/main.js:10-44, 133-175, 215-219, 236-275, 306-316). These are the view layer. In particular, the textarea that edits a review's comment is not modelled, so a comment keeps the value it had.
- The `eventBus` publish/subscribe object (js/main.js:1, 104, 195). `Catalog.SubmitReview` delivers the emitted record by a direct call instead, as the single subscriber would.
- `localStorage.setItem` (js/main.js:289) is recorded only as a ghost log of (key, value) pairs. The conversion of the value to a string is not modelled.
- `console.log` in `updateProduct` (js/main.js:99) is output only.
- Shipping's 2.99 is a whole number of cents (299), not a floating-point number.
- Product's own `updateCart` (js/main.js:94-96) calls `push` on the number `cart: 0`, so it would throw. Nothing shown calls it.
- The `detail-tabs` component (js/main.js:296-323) has no logic. Its template reads `selectedTab` and `details`, which it does not define.
- Which root handlers are bound to the product's `add-to-cart` and `delete-from-cart` events. That wiring is in an HTML page that is not part of this model.
- How the root's `premium` reaches the product's prop. `Catalog.Product.constructor` takes it as a parameter.
- Data that no logic reads is left out: `description`, `altText`, `link`, `inventory`, the top-level `onSale`, `details`, `sizes` (js/main.js:47-54, 71), and the tabs' `reverse` and `search` (js/main.js:281-282).
- Only integer ratings are modelled. `NaN`, which is also falsy, cannot occur from the rating `<select>`.
- Rating range 1..5 is enforced only by the `<select>` options (js/main.js:153-159), so the validator checks presence only.
- `ReviewStore.FromSubmission`: an entry that came from the form has no `isSaved` property, which reads as `undefined`; the model stores `false` instead. The only reader is the truthiness test of the template (js/main.js:250), which treats both alike.
- Review entries are values inside the shared `ReviewList`. Aliasing of the individual review objects between the event payload and the list is not modelled; nothing else holds them.
