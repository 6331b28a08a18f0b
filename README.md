# Seller marketplace: verified model of the seller back end and the shop pages

This project models the logic of an Indian handicraft marketplace, written in Dafny. The marketplace has an Express/MySQL back end and a React front end. The model covers three areas:

- **Seller controller.** Adding and updating products, listing them, writing order statuses, payouts and their analytics, payment methods, and the seller's tax record. The MySQL tables are the fields of one class, `SellerController.SellerStore`. Each statement is modelled by its effect on those tables.
- **Shopper-side state.** The cart context, the cart page, the three-step checkout wizard, the product search, the FAQ search and accordion, and the string helpers.
- **Seller-side pages.** The product form, the order list, the product manager, branch management and the payout statement.

## Data and modules

- **Shared modules.**
  - `Values` holds `Option`.
  - `Text` holds lower-casing, `includes`, `join`, the decimal rendering of integers, character counts and code-unit string order.
  - `Seqs` holds `filter`, a stable comparator sort proved sorted and a permutation, and sums.
- **One module per source file.** Each keeps the file's own names: `CartContext`, `CartPage`, `CheckoutPage`, `AddProduct`, `Orders`, `ManageProducts`, `BranchManagement`, `PayoutsAnalytics`, `ProductsPage`, `FAQPage`, `Helpers` and `SellerController`.
- **State.**
  - Pages whose handlers replace one state cell with a new value are modelled as functions from the old state to the new one.
  - The checkout wizard, the product form and the seller's tables change step by step. They are classes whose methods modify fields.
- **Money** is an exact `real` in the seller controller, the cart and the checkout. The seller pages' sample data holds whole rupees, so there money is an `int`: order amounts (`Orders`), product prices and cost prices (`ManageProducts`) and payout amounts (`PayoutsAnalytics`). Counts and ids are `int`.
- **Request bodies** are ordered lists of key/value pairs. A value is `Undefined`, `Null`, a boolean, a number, `NaN`, a string or a list. JavaScript's truthiness, `||` and number conversion are written out for these values.

## Model

| member | source | states |
|---|---|---|
| CartContext.AddToCart | client/src/context/CartContext.js:26-38 | An id already in the cart keeps the length and bumps that item to `(quantity \|\| 1) + 1`. A new id is appended at the end with quantity 1. |
| CartContext.Bump | client/src/context/CartContext.js:28-34 | Only the items with the given id change, and only in quantity. |
| CartContext.AddToCartSums | client/src/context/CartContext.js:26-38 | Adding to a valid cart raises the item count by exactly 1. The total rises by the product's price once. |
| CartContext.BumpSums | client/src/context/CartContext.js:28-34 | Bumping a present id adds 1 to the count and that item's price to the total. |
| CartContext.AppendSums | client/src/context/CartContext.js:36 | An appended item adds its `quantity \|\| 1` to the count and its line price to the total. |
| CartContext.NotPresentUnchanged | client/src/context/CartContext.js:30-34 | The bump is the identity when the id is absent, so `find` deciding the branch is consistent with `map`. |
| CartContext.AddToCartValid | client/src/context/CartContext.js:26-38 | Adding keeps ids unique and quantities at least 1. |
| CartContext.RemoveFromCart | client/src/context/CartContext.js:40-42 | Keeps exactly the items whose id differs, and only items of the cart. |
| CartContext.RemoveFromCartValid | client/src/context/CartContext.js:40-42 | Removing keeps the cart valid. |
| CartContext.RemoveFromCartTotal | client/src/context/CartContext.js:40-62 | The old total equals the total after removal plus the total of the removed items. |
| CartContext.SetQuantity | client/src/context/CartContext.js:49-53 | Same length. Only the matching items change, and only their quantity. |
| CartContext.SetQuantityUnchanged | client/src/context/CartContext.js:49-53 | Setting the quantity of an absent id changes nothing. |
| CartContext.UpdateQuantity | client/src/context/CartContext.js:44-54 | A quantity of 0 or less is exactly `removeFromCart`. Otherwise only the matching item's quantity changes. |
| CartContext.UpdateQuantityValid | client/src/context/CartContext.js:44-54 | Updating keeps the cart valid. |
| CartContext.UpdateQuantityCount | client/src/context/CartContext.js:44-66 | A positive update of a present id changes the count by the new quantity minus the old one. |
| CartContext.ClearCart | client/src/context/CartContext.js:56-58 | The cart is empty, and its total and count are 0. |
| CartContext.ValidTail | client/src/context/CartContext.js:26-58 | The rest of a valid cart is valid and does not hold the first item's id. |
| CartPage.HandleQuantityChange | client/src/pages/CartPage.js:13-17 | A positive quantity is forwarded to `updateQuantity`. Anything else leaves the cart as it is, so the cart's length never changes here. |
| CartPage.DecrementEffect | client/src/pages/CartPage.js:71 | "−" at quantity 1 does nothing. Above 1 it lowers that item's quantity by one and changes nothing else. |
| CartPage.IncrementCount | client/src/pages/CartPage.js:75 | "+" on an item raises the cart count by exactly 1 and keeps the cart valid. |
| CartPage.FirstWithId | client/src/pages/CartPage.js:71-75 | In a valid cart the quantity found for an item's id is that item's own quantity. |
| CartPage.LineTotalsAddUp | client/src/pages/CartPage.js:80-98 | The displayed line totals add up to the context's `getTotalPrice()` for a valid cart. |
| CartPage.SummaryAgainstCheckout | client/src/pages/CartPage.js:98-115 | The summary total is subtotal plus 18 % tax. The checkout's total differs from it exactly by the checkout's shipping charge, because the cart page shows shipping as FREE. |
| CheckoutPage.Shipping | client/src/pages/CheckoutPage.js:46 | Shipping is 0 if and only if the subtotal exceeds 500 (strictly), and 60 otherwise. |
| CheckoutPage.TotalBreakdown | client/src/pages/CheckoutPage.js:44-48 | The total is 118 % of the subtotal, plus 60 unless the subtotal exceeds 500. Tax is charged on the subtotal only. |
| CheckoutPage.SubtotalIsCartTotal | client/src/pages/CheckoutPage.js:44-45 | For a valid cart the checkout's subtotal and item count equal the cart context's total and count. |
| CheckoutPage.CheckoutWizard.constructor | client/src/pages/CheckoutPage.js:11-38 | The wizard starts at step 1 with empty fields, no error and not loading. |
| CheckoutPage.CheckoutWizard.Edit | client/src/pages/CheckoutPage.js:50-56 | Editing replaces the form data and nothing else. |
| CheckoutPage.CheckoutWizard.NextStep | client/src/pages/CheckoutPage.js:58-77 | Step 1 with a blank shipping field stays put with the shipping error. Step 2 without `sameAsShipping` and with a blank billing field stays put with the billing error. Otherwise the step advances by one with the error cleared. The step stays within 1..3. |
| CheckoutPage.CheckoutWizard.PreviousStep | client/src/pages/CheckoutPage.js:79-81 | Back (offered only above step 1, lines 478-482) lowers the step by one and keeps it at least 1. |
| CheckoutPage.CheckoutWizard.Submit | client/src/pages/CheckoutPage.js:83-112 | A blank card number, expiry or CVV sets the payment error and places nothing. Otherwise the order is placed with the checkout total and the shipping address of line 103. Loading ends either way. |
| CheckoutPage.CheckoutWizard.SubmitForm | client/src/pages/CheckoutPage.js:155 | Before step 3 it acts as Next: nothing is placed, a failed step check sets that step's error and keeps the step, a passed one clears the error and advances. At step 3 it acts as the payment submit: the step stays, loading ends false, and an order with the checkout total, the shipping address and the cart lines is placed if and only if the card fields are filled; otherwise the payment error is set. |
| AddProduct.SellingPriceBounds | client/src/pages/seller/AddProduct.js:106-110 | For each offered GST rate (line 52) the preview lies between the cost and 128 % of it. It equals the cost exactly when the rate or the cost is 0. An unparseable rate counts as 0 and an unparseable cost gives 0. |
| AddProduct.HsnFor | client/src/pages/seller/AddProduct.js:63-70 | An unknown category gives '9999'. A known category with a non-empty code gives the code of its first entry. |
| AddProduct.CategoryNamesDistinct | client/src/pages/seller/AddProduct.js:39-50 | The category table names each category once. |
| AddProduct.HsnLookup | client/src/pages/seller/AddProduct.js:39-70 | Every listed category gets its own code. Any other name, the empty one included, gets '9999'. |
| AddProduct.DropIndex | client/src/pages/seller/AddProduct.js:102-104 | Removes exactly position `index`, keeping the others in order. An index out of range changes nothing. |
| AddProduct.AsWrittenRejectsAll | client/src/pages/seller/AddProduct.js:126 | With `price` still '' the validation as written rejects every form. |
| AddProduct.RequiredFilledAccepts | client/src/pages/seller/AddProduct.js:126 | The corrected check accepts any form whose name, category, cost price and quantity are filled. The check as written rejects the same form. |
| AddProduct.SetField | client/src/pages/seller/AddProduct.js:55-61 | The named field gets the value, and every other named field keeps its value. Price, address, currency and location are never touched. |
| AddProduct.AddProductForm.constructor | client/src/pages/seller/AddProduct.js:9-37 | Starts from the initial form, with no previews, no message and not loading. |
| AddProduct.AddProductForm.InputChange | client/src/pages/seller/AddProduct.js:55-61 | Applies `SetField`. Previews, message and loading are unchanged. |
| AddProduct.AddProductForm.AddressChange | client/src/pages/seller/AddProduct.js:72-81 | Changes one address field only. |
| AddProduct.AddProductForm.CategoryChange | client/src/pages/seller/AddProduct.js:63-70 | Sets the category and the HSN code looked up for it. |
| AddProduct.AddProductForm.ImageUpload | client/src/pages/seller/AddProduct.js:83-100 | More than 5 images in all is rejected with the error message and leaves the previews unchanged. Otherwise the files are appended in order. At most 5 previews exist at any time. |
| AddProduct.AddProductForm.RemoveImage | client/src/pages/seller/AddProduct.js:102-104 | The previews lose exactly that position. |
| AddProduct.AddProductForm.RemoveButtonPress | client/src/pages/seller/AddProduct.js:102-176 | The remove button (line 368) has no `type` inside the form, so a press removes that preview and then submits, with the corrected required-field check, on the remaining previews: an incomplete form keeps the form and gets the required-fields error; a complete one with no preview left gets the image error; otherwise the product is reported added and the form and previews are reset. |
| AddProduct.AddProductForm.Submit | client/src/pages/seller/AddProduct.js:119-176 | With the corrected required-field check (cost price in place of the never-written price, see Findings): a blank required field, or no image, gives the matching error and keeps the form. A success gives the success message, resets the form to the values of lines 147-169 and empties the previews. |
| Orders.Actions | client/src/pages/seller/Orders.js:226-249 | Delivered and cancelled orders offer no action. Every offered status moves the order forward. Cancel is offered exactly for processing and in-transit orders. |
| Orders.PressBounded | client/src/pages/seller/Orders.js:226-249 | Pressing offered buttons never moves an order backwards, and after two presses nothing changes. |
| Orders.UpdateOrderStatus | client/src/pages/seller/Orders.js:78-80 | Same length and order. The orders with that id get the new status and keep every other field. All other orders are unchanged. |
| Orders.UpdateOnlyStatus | client/src/pages/seller/Orders.js:78-112 | Only the status changes, and the revenue figure is unaffected. |
| Orders.FilteredOrders | client/src/pages/seller/Orders.js:70-76 | Keeps exactly the orders matching the status filter and the term. The id match is case-sensitive; the customer and product matches ignore case. |
| Orders.FilteredOrdersSplit | client/src/pages/seller/Orders.js:70-76 | The filter works piece by piece, so it keeps the orders' relative order. |
| Orders.FilteredOrdersAll | client/src/pages/seller/Orders.js:70-76 | 'all' with an empty term shows every order. |
| Orders.StatsPartition | client/src/pages/seller/Orders.js:106-112 | Processing, in-transit and delivered together never exceed the total. |
| Orders.RevenueIgnoresStatus | client/src/pages/seller/Orders.js:111 | Revenue depends on the amounts only, whatever the statuses. |
| Orders.ExportRows | client/src/pages/seller/Orders.js:83-95 | A header row, then one 9-field row per filtered order in filtered order. |
| Orders.ExportShape | client/src/pages/seller/Orders.js:82-96 | When no field holds a line break, the CSV has exactly one line per shown order after the header. |
| ManageProducts.LeTotalPreorder | client/src/pages/seller/ManageProducts.js:74-85 | Each of the four comparators is total and transitive, so the sort is well defined. |
| ManageProducts.FilteredProducts | client/src/pages/seller/ManageProducts.js:67-85 | The list shown is a permutation of the filtered list. |
| ManageProducts.FilteredProductsSpec | client/src/pages/seller/ManageProducts.js:67-85 | The list shows exactly the matching products. A match means name or category contains the term ignoring case, and the status matches unless the filter is 'all'. The list is sorted by the chosen key, e.g. descending by price. |
| ManageProducts.HandleEdit | client/src/pages/seller/ManageProducts.js:87-90 | Enters edit mode for that product with a copy of every field. Merging the copy gives the product back. |
| ManageProducts.HandleSaveEdit | client/src/pages/seller/ManageProducts.js:92-95 | Merges the edit into the products with that id only, and leaves edit mode. |
| ManageProducts.EditThenSave | client/src/pages/seller/ManageProducts.js:87-95 | Editing a product's price and saving changes that product's price and nothing else in the catalogue. |
| ManageProducts.HandleDelete | client/src/pages/seller/ManageProducts.js:97-100 | Keeps exactly the products with another id and closes the confirmation. |
| ManageProducts.ToggleStatus | client/src/pages/seller/ManageProducts.js:102-108 | Flips active/inactive for the matching id only. |
| ManageProducts.ToggleTwice | client/src/pages/seller/ManageProducts.js:102-108 | Toggling twice restores the list, and one toggle changes the matching statuses. |
| ManageProducts.HeaderTotalsIgnoreSort | client/src/pages/seller/ManageProducts.js:133-135 | Count, total sales and total revenue are taken over the filtered products, and the sort does not change them. |
| ManageProducts.ExportRowsShape | client/src/pages/seller/ManageProducts.js:111-122 | A header row, then one 8-field row per displayed product, in display order. |
| ManageProducts.ExportShape | client/src/pages/seller/ManageProducts.js:110-123 | With no line break in names or categories, the CSV has exactly one line per displayed product after the header. |
| BranchManagement.NextId | client/src/pages/seller/BranchManagement.js:70 | The new id is at least 1, above every existing id, and one above the largest of them (or 1 for no branches). |
| BranchManagement.HandleSubmit | client/src/pages/seller/BranchManagement.js:57-91 | While editing, the form is merged into the branch with `editingId` only, and editing ends. Otherwise a new branch is appended with a fresh id, 0 products, 0 staff and active. Either way the form is reset and hidden. |
| BranchManagement.HandleSubmitKeepsIds | client/src/pages/seller/BranchManagement.js:57-91 | Submitting keeps branch ids unique. An edit keeps every id; an add keeps the old branches as they were. |
| BranchManagement.HandleEdit | client/src/pages/seller/BranchManagement.js:93-107 | Loads the branch's fields into the form (merging them back gives the branch), sets `editingId` and shows the form. |
| BranchManagement.EditThenSubmitUnchanged | client/src/pages/seller/BranchManagement.js:57-107 | Editing a branch and submitting without changes leaves the branches as they were. |
| BranchManagement.HandleDelete | client/src/pages/seller/BranchManagement.js:109-112 | Keeps exactly the branches with another id and clears the selection. |
| BranchManagement.HandleToggleActive | client/src/pages/seller/BranchManagement.js:114-118 | Flips `isActive` of the matching branches only. |
| BranchManagement.ToggleActiveEffect | client/src/pages/seller/BranchManagement.js:114-147 | Toggling twice restores the list, and a toggle leaves the product and staff totals unchanged. |
| BranchManagement.SameCounts | client/src/pages/seller/BranchManagement.js:143-147 | Lists that agree position by position on products and staff have the same totals. |
| BranchManagement.StatsFacts | client/src/pages/seller/BranchManagement.js:135-147 | Active branches never outnumber all branches. Adding a branch raises the total and the active count by one and leaves the product and staff totals unchanged. |
| PayoutsAnalytics.HandleRequestPayout | client/src/pages/seller/PayoutsAnalytics.js:70-74 | A request acts, announcing that amount, if and only if the amount is positive. |
| PayoutsAnalytics.PayoutRow | client/src/pages/seller/PayoutsAnalytics.js:82-90 | A payout's row has seven fields: id, date, amount, status, method, bank, reference. |
| PayoutsAnalytics.StatementRows | client/src/pages/seller/PayoutsAnalytics.js:77-96 | The statement has `payouts.length + 10` rows, with the payouts' rows in list order after the four heading rows. |
| PayoutsAnalytics.StatementLines | client/src/pages/seller/PayoutsAnalytics.js:77-97 | With no line break in the dates or the payout fields, the joined statement has exactly `payouts.length + 10` lines. |
| PayoutsAnalytics.PayoutLineCommas | client/src/pages/seller/PayoutsAnalytics.js:97 | Joining adds exactly six commas to those already in the fields: nothing is quoted. |
| ProductsPage.FilterProducts | client/src/pages/ProductsPage.js:37-60 | The result holds exactly the products whose name contains a non-empty term (ignoring case) and whose `price \|\| 0` lies in the range, both ends included. Each appears as often as fetched. The fetched order is kept for 'newest'; the result is ascending for 'price-low' and descending for 'price-high'. |
| ProductsPage.FilterStages | client/src/pages/ProductsPage.js:41-50 | The search stage (only for a non-empty term) followed by the range stage keeps exactly the selected products, in the fetched order. |
| ProductsPage.AscendingOrder | client/src/pages/ProductsPage.js:53-54 | Sorting with the 'price-low' comparator leaves prices never falling along the list. |
| ProductsPage.DescendingOrder | client/src/pages/ProductsPage.js:55-56 | Sorting with the 'price-high' comparator leaves prices never rising along the list. |
| ProductsPage.NoFilterShowsAll | client/src/pages/ProductsPage.js:41-50 | No term and a range covering every price show the catalogue as fetched. |
| FAQPage.NarrowAll | client/src/pages/FAQPage.js:120-127 | Every category is narrowed to its matching items, in order. |
| FAQPage.ShownAreNarrowed | client/src/pages/FAQPage.js:119-128 | Every shown category is a listed one narrowed to its matches, with at least one item. |
| FAQPage.ShownItemsMatch | client/src/pages/FAQPage.js:122-126 | Every shown item has the term in its question or answer, ignoring case. |
| FAQPage.MatchingCategoryShown | client/src/pages/FAQPage.js:119-128 | A category with a matching item is shown. |
| FAQPage.EmptySearchShowsAll | client/src/pages/FAQPage.js:119-128 | An empty search shows every non-empty category in full, in order. |
| FAQPage.ToggleExpand | client/src/pages/FAQPage.js:130-136 | The item's key shows the opposite of what it showed. Every other entry is unchanged. |
| FAQPage.KeyInjective | client/src/pages/FAQPage.js:131 | Different (category, item) positions have different keys. |
| FAQPage.ToggleOthers | client/src/pages/FAQPage.js:130-136 | Toggling one item never opens or closes another. |
| FAQPage.ToggleTwice | client/src/pages/FAQPage.js:130-136 | Toggling the same item twice shows everything as before. |
| Helpers.TruncateText | client/src/utils/helpers.js:19-22 | Text no longer than the limit is returned unchanged. Longer text becomes its first `limit` characters plus "...". |
| Helpers.ValidateEmailIff | client/src/utils/helpers.js:25-28 | The check holds if and only if the address has no whitespace and exactly one '@', with a non-empty part before it and, after it, a '.' with non-empty parts on both sides. |
| Helpers.ValidateEmailSound | client/src/utils/helpers.js:25-28 | Every accepted address has that shape. |
| Helpers.ValidateEmailComplete | client/src/utils/helpers.js:25-28 | Every address of that shape is accepted. |
| Helpers.DigitsOnly | client/src/utils/helpers.js:33 | Stripping the non-digits leaves digits only. |
| Helpers.DigitsOnlyFilter | client/src/utils/helpers.js:33 | Stripping gives exactly the input's digits, in their order: the input filtered by the digit test. |
| Helpers.DigitsOnlyLength | client/src/utils/helpers.js:33 | The stripped text is as long as the input has digits. |
| Helpers.ValidatePhone | client/src/utils/helpers.js:31-34 | True if and only if the string holds exactly 10 digits. |
| Helpers.GetErrorMessage | client/src/utils/helpers.js:37-45 | The response's message if truthy, else the error's message if truthy, else the fixed default. The result is never empty. |
| Helpers.IsEmpty | client/src/utils/helpers.js:51-53 | True if and only if the object has no keys. |
| SellerController.SellingPrice | server/controller/seller.controller.js:136 | Defined if and only if both inputs parse. The price exceeds the cost by cost × rate / 100 and is at least the cost for non-negative inputs. |
| SellerController.SellerStore.AddProduct | server/controller/seller.controller.js:109-192 | A falsy required field (0 included) is a 400 and inserts nothing. Otherwise one row is appended with the selling price and the columns of lines 158-174, and its id and price are returned. Other tables are untouched. |
| SellerController.OtherFieldTexts | server/controller/seller.controller.js:203-207 | The loop yields one `key = ?` text and one parameter per remaining body key, in body order. |
| SellerController.PushNamedFields | server/controller/seller.controller.js:209-227 | Each of the four named fields that is defined appends its `column = ?` entry and its value, in the order cost, GST rate, price, quantity, status; the price entry comes only with a GST rate. |
| SellerController.PushIfDefined | server/controller/seller.controller.js:210-213 | A defined field appends its `column = ?` entry and its value; an `undefined` one leaves both lists as they were. |
| SellerController.PushGst | server/controller/seller.controller.js:214-219 | A defined GST rate appends `gst_rate = ?` and `price = ?`, with the rate and `cost_price * (1 + gst_rate / 100)` as values; otherwise nothing is appended. |
| SellerController.BuildUpdate | server/controller/seller.controller.js:200-233 | The statement is `UPDATE products SET` with the assembled list, then `WHERE id = ?`. The parameters are the assignments' values, then the id. |
| SellerController.AssignmentsSplit | server/controller/seller.controller.js:203-229 | The SET list is the body's other keys, then the four named fields, then the `updatedAt` stamp. |
| SellerController.PlaceholdersMatch | server/controller/seller.controller.js:200-233 | The statement holds exactly one '?' per parameter when no body key holds a '?'. |
| SellerController.SetListCount | server/controller/seller.controller.js:203-229 | The joined SET list holds one '?' per assignment parameter. |
| SellerController.QueryCount | server/controller/seller.controller.js:233 | The text around the list adds exactly one '?', for the id. |
| SellerController.FieldTextCount | server/controller/seller.controller.js:205-229 | A SET entry holds a '?' exactly when it takes a parameter. |
| SellerController.PlaceholdersOfTexts | server/controller/seller.controller.js:200-229 | The entries together hold as many '?' as they take parameters. |
| SellerController.ParamsAppend | server/controller/seller.controller.js:200-229 | Parameters of consecutive assignments are concatenated. |
| SellerController.OtherSetsAppend | server/controller/seller.controller.js:204-207 | The loop handles the body entry by entry. |
| SellerController.OtherSetsColumns | server/controller/seller.controller.js:198-207 | Each regular entry names a body key other than the four taken out. |
| SellerController.ApplyAppend | server/controller/seller.controller.js:233-234 | Applying a SET list is applying its parts in turn. |
| SellerController.ApplyUntouched | server/controller/seller.controller.js:233-234 | A column the list does not name keeps its value. |
| SellerController.UpdatedAtStamped | server/controller/seller.controller.js:229 | Every update leaves `updatedAt` at the current time. |
| SellerController.PriceKeptWithoutGst | server/controller/seller.controller.js:210-219 | Without `gst_rate` (and no `price` key) the price keeps its value, whatever `cost_price` says. |
| SellerController.PriceFromGst | server/controller/seller.controller.js:214-219 | With `gst_rate` the price becomes `cost_price × (1 + gst_rate/100)` of the body; NaN when `cost_price` is absent. |
| SellerController.UpdateRows | server/controller/seller.controller.js:233-234 | Only the row with that id changes, by applying the SET list. Ids and the other rows are kept. |
| SellerController.SellerStore.UpdateProduct | server/controller/seller.controller.js:195-244 | A NaN parameter fails as a 500 and writes nothing. Otherwise the product rows become `UpdateRows` of the built assignments and the reply is 200. |
| SellerController.OrderClause | server/controller/seller.controller.js:83-94 | The ORDER BY is one of six fixed clauses, and it is `createdAt DESC` exactly when the sort key is none of the five mapped ones. |
| SellerController.AddClause | server/controller/seller.controller.js:72-80 | An optional filter appends its clause and its parameters together or not at all, so the statement keeps one '?' per parameter. |
| SellerController.GetSellerProducts | server/controller/seller.controller.js:65-106 | The statement has one '?' per parameter. The seller id comes first, then the wrapped term twice when a search is given, then the status when given. The statement ends with the chosen ORDER BY clause. |
| SellerController.SelectClauseCount | server/controller/seller.controller.js:70 | The base statement holds one placeholder. |
| SellerController.SearchClauseCount | server/controller/seller.controller.js:74 | The search clause holds two placeholders. |
| SellerController.StatusClauseCount | server/controller/seller.controller.js:79 | The status clause holds one placeholder. |
| SellerController.OrderByCount | server/controller/seller.controller.js:91-93 | The ORDER BY clause holds none. |
| SellerController.ParseStatus | server/controller/seller.controller.js:313-319 | Accepts exactly the four status strings, and each reads back as the status it names. |
| SellerController.StampOrder | server/controller/seller.controller.js:321-328 | Sets the status. `shipped_date` is stamped only for in_transit and `delivery_date` only for delivered; every other column is kept, whatever the current status. |
| SellerController.UpdateOrderRows | server/controller/seller.controller.js:329-330 | Only the order with that id is stamped. |
| SellerController.SellerStore.UpdateOrderStatus | server/controller/seller.controller.js:308-340 | An invalid status is a 400 and writes nothing. Otherwise the orders become `UpdateOrderRows` and the reply is 200. |
| SellerController.RevenueAfterStatus | server/controller/seller.controller.js:320-330 | After a status write, a seller's delivered revenue is the old one, minus that seller's delivered orders with that id, plus all that seller's orders with that id when the new status is 'delivered'. |
| SellerController.RevenueUnaffected | server/controller/seller.controller.js:329-330 | A status write for an id no order has leaves every seller's delivered revenue unchanged. |
| SellerController.Split | server/controller/seller.controller.js:550-552 | Commission plus net is the amount, the commission is 10 % of it, and a positive amount gives a net strictly between 0 and the amount. |
| SellerController.SellerStore.RequestPayout | server/controller/seller.controller.js:538-591 | A missing, zero or negative amount is a 400 and writes nothing. Otherwise one pending payout with the 10 % split is appended and its net returned. |
| SellerController.ComputeAnalytics | server/controller/seller.controller.js:598-613 | Total revenue is the sum over the seller's delivered orders. The commission is 10 % of it. The average order value times the seller's order count is the total of all their orders, whatever the status, and it is 0 when they have no orders. The pending and paid-out figures are the sums over pending payouts and over the net of completed ones. |
| SellerController.RevenueWithinOrders | server/controller/seller.controller.js:598-601 | With no negative amounts, delivered revenue lies between 0 and the total of all the seller's orders. |
| SellerController.SellerStore.PayoutAnalytics | server/controller/seller.controller.js:594-613 | The figures come from the current tables: delivered revenue with its 10 % commission, and the pending and paid-out payout totals. |
| SellerController.PayoutAppend | server/controller/seller.controller.js:599-600 | A new payout adds its amount to its seller's pending total only while pending, and its net to the paid-out total only once completed. |
| SellerController.ClearDefaults | server/controller/seller.controller.js:683-687 | Every method of the seller loses its default flag. All other rows and fields are kept. |
| SellerController.WithMethodDefaults | server/controller/seller.controller.js:682-711 | Adding keeps at most one default per seller. A method added as default is its seller's only one, and other sellers' methods are untouched. |
| SellerController.Masked | server/controller/seller.controller.js:719 | Four asterisks followed by the last four characters, or the whole number when shorter. |
| SellerController.SellerStore.AddPaymentMethod | server/controller/seller.controller.js:663-726 | A falsy account field is a 400 and writes nothing. Otherwise the seller's defaults are cleared if `is_default` is truthy and the row is appended with `is_default \|\| false`; the reply is 201 with the masked number. |
| SellerController.OneDefaultCons | server/controller/seller.controller.js:683-687 | At most one default per seller holds for a list if and only if it holds for its tail and the head clashes with no default there. |
| SellerController.DeleteKeepsOneDefault | server/controller/seller.controller.js:733-734 | Deleting keeps at most one default per seller and removes every method with that id. |
| SellerController.SellerStore.DeletePaymentMethod | server/controller/seller.controller.js:729-744 | Removes the methods with that id and replies 200. The other tables are untouched. |
| SellerController.UpsertExactlyOne | server/controller/seller.controller.js:779-802 | After the upsert exactly one row belongs to the seller and it holds the given fields. Other sellers' rows are unchanged, and there is still at most one row per seller. |
| SellerController.SellerStore.UpdateTaxInfo | server/controller/seller.controller.js:774-812 | The tax table becomes the upsert of the seller's row, and the reply is 200. |
| Text.ContainsIff | client/src/pages/seller/ManageProducts.js:69-70 | `includes` holds exactly when some position starts a copy of the term. |
| Text.JoinCount | client/src/pages/seller/Orders.js:96 | Joining n strings with a one-character separator adds exactly n − 1 separators. |
| Text.CsvLines | client/src/pages/seller/ManageProducts.js:123 | Rows whose fields hold no line break give exactly one line per row. |
| Text.ParseShowNat | client/src/pages/FAQPage.js:131 | The decimal rendering of a number reads back as that number. |
| Seqs.Filter | client/src/pages/seller/ManageProducts.js:68-73 | The result holds the elements satisfying the test, each only if present, and is a sub-multiset of the input. |
| Seqs.FilterFilter | client/src/pages/ProductsPage.js:41-50 | Two filters in a row are one filter by both tests. |
| Seqs.SortSorted | client/src/pages/seller/ManageProducts.js:74-85 | The sort's result is ordered whenever the comparator is a total preorder. |
| Seqs.Sort | client/src/pages/ProductsPage.js:53-57 | The sort's result is a permutation of its input. |
| Seqs.SumOfSort | client/src/pages/seller/ManageProducts.js:133-135 | Sorting does not change any sum over the list. |

## Left out

- Database, network and storage I/O is not modelled:
  - the MySQL driver and its SQL engine;
  - `fetch` in the product page;
  - `localStorage` persistence of the cart (client/src/context/CartContext.js:9-24);
  - the CSV download mechanics (Blob, object URL, anchor click);
  - `alert`, `navigate` and the simulated delays.
  
  Each statement is modelled by its effect on the in-memory tables.
- Time and randomness are parameters:
  - the current time (`new Date()`, `CURRENT_TIMESTAMP`) is `now`;
  - the `PAY-${Date.now()}` payout number is `payoutNumber`;
  - the random order id of the checkout is `orderId`;
  - the images a `FileReader` finishes loading arrive as a list, in file order.

  The asynchronous completion order of the readers is not modelled.
- Concurrency and transactions are not modelled. The clear-then-insert of `addPaymentMethod` and the select-then-write of `updateTaxInfo` are sequential.
- Rounding and formatting are not modelled: `toFixed(2)`, `toLocaleString`, `Intl.NumberFormat`, `formatIndianCurrency`, `formatPrice`, `formatDate`, and the checkout's rounding of tax and total. Money is exact.
- `delay` and `debounce` (client/src/utils/helpers.js:48, 56-66) are timers and are not modelled.
- Number parsing is partial. `parseFloat`, `Number()` and JavaScript arithmetic on strings are modelled only for the empty string and plain digit strings. Other strings are NaN in the model.
- String collation is simplified. `localeCompare` in the product manager's name sort is modelled as code-unit order, and `toLowerCase` lowers ASCII letters only.
- Product ratings are kept in tenths, so the CSV's `p.rating` is rendered from an integer.
- Route ids (`seller_id`, `product_id`, `order_id`, `method_id` in the URL) are integers in the model; the handlers receive them as strings.
- SQL LIKE wildcards in the search term are not modelled, nor query-string values that are arrays.
- `sortMap[sort]` for a key inherited from `Object.prototype` is not modelled.
- Body keys are taken in the body's order. JavaScript's ordering of integer-like keys first in `Object.entries`, and duplicate keys, are not modelled.
- SQL failures are modelled only where a NaN reaches a statement: the price of an update with `gst_rate` but no `cost_price`, the selling price of `addProduct` and the amount of `requestPayout` each give a 500 with nothing written, and `addPaymentMethod` fails after its insert for a non-string account number. Other SQL errors (unknown columns, type errors) are not modelled.
- `JSON.stringify` of list columns is modelled as an opaque value.
- The other controller handlers are not part of this model: `getDashboardStats`, `deleteProduct`, `getSellerOrders`, `getOrderStats`, `getSellerBranches`, `addBranch`, `updateBranch`, `deleteBranch`, `getPayouts`, `getPaymentMethods` and `getTaxInfo`.
- The product page's effect lists `selectedCategory` among its dependencies (client/src/pages/ProductsPage.js:60). No such variable is declared in that file. As written, the page therefore throws a ReferenceError on every render, and no handler of the page can run. There is no error boundary around the page. The model describes the filtering the effect performs, as if the binding were left out; it does not model the failed render.
- On the product form, the category `<select>` is wired to `handleInputChange` (client/src/pages/seller/AddProduct.js:226-230), not to `handleCategoryChange`. Both handlers are modelled (`InputChange` and `CategoryChange`), but the page as written never updates the HSN code from the category.
- The category options (client/src/pages/seller/AddProduct.js:232-234) render the entries of the category table, which are objects: each option's value is "[object Object]", and an object is not a valid React child, so as written rendering the form throws ("Objects are not valid as a React child"). There is no error boundary around the page, so none of its handlers can run as written. The model describes the handlers as if the options rendered each entry's name, and takes the category as the name the seller means to pick.
- ManageProducts.EditPrice, ManageProducts.EditCostPrice, ManageProducts.EditQuantity: they take an integer. The inline edits store `parseFloat`/`parseInt` of the box (client/src/pages/seller/ManageProducts.js:225, 236, 247), so a fraction, or NaN from a cleared box, can reach `handleSaveEdit`, the sort comparator and the totals; the model does not capture those values.
- SellerController.UpdateRows: a row keeps its `id` even when the body carries an `id` key. In the source `id = ?` is then an ordinary entry of the SET list and would change the row's key.
- Strings are sequences of Dafny characters. JavaScript's `length` and `substring` count UTF-16 code units, so lengths differ for characters outside the Basic Multilingual Plane.
- Helpers.TruncateText: the length is always given; the default `length = 100` (client/src/utils/helpers.js:19) is not modelled.
- CartContext.AddToCart: only the id, name and price of a product are stored. Other product fields that `{...product}` copies are not modelled.
- CartContext.Valid: quantities are at least 1 in every reachable cart. A missing or zero quantity, which `|| 1` reads as 1, is covered only in the sums (`Or1`), not in the validity lemmas.
- CheckoutPage.TotalBreakdown: states the total before the `toFixed(2)` rounding of tax and total.
- BranchManagement.HandleSubmit: a branch whose id is 0 would be falsy as `editingId` and be treated as a new branch. Generated ids start at 1, so only the sample data could hold such an id.

## Findings

| source | as written | input that shows it | evidently intended | confidence | as-written member | corrected member |
|---|---|---|---|---|---|---|
| client/src/pages/seller/AddProduct.js:126 | Submit requires `formData.price` to be truthy. No input of the form writes `price`, which starts as '' (line 13), so every submit is rejected with "Please fill all required fields". | Any form, e.g. name "Shawl", cost price "500", quantity "3", one image and any non-empty category (as written the category list cannot set one, see Left out): the check fails on `price`. Every press of an image's remove button submits too, and ends with the same message. | Require the cost price, which the form does collect, so that a filled form can be submitted. | not executed | AddProduct.AsWrittenRejectsAll | AddProduct.RequiredFilledAccepts |
