# A verified model of the storefront's core

The system is an online storefront. A React client lets customers browse a
catalogue, keep a cart, place orders and track them. It lets sellers manage
their products and the orders that contain them. A Spring Boot server keeps
the users, sellers, admins, products, cart lines and orders in relational
tables and exposes them as REST endpoints. This project models the core of
both sides in Dafny and proves properties of that model.

How the model is shaped:

- **Server tables.** Each table is a class that holds its rows as a `seq` and
  the next identity value as a field. Its methods (`Save`, `DeleteById`,
  `UpdateStock`, `AddToCart`, `CreateOrder`, …) change those fields. Each
  method is proved against a function of the old rows (`Saved`, `Added`,
  `StockAfter`, …), and lemmas state what those functions keep: distinct ids,
  "every other row is unchanged", "what is saved is what `findById` returns".
- **Controllers.** Each endpoint is a method or function that returns
  `Http.Reply`. A reply is 200 with a body, 400 with an optional body, 404,
  204, or a server error when an exception escapes the handler. Every branch
  of the Java code maps to a constructor of `Reply`.
- **Client stores and pages.** React state is a class with one field per
  `useState`. A handler for an asynchronous call receives the gateway's reply
  as a parameter, so every success and failure path can be stated.
  Rendering decisions (what is shown, disabled or coloured) are pure
  functions.
- **Values.** Money is an integer number of hundredths of the currency unit.
  Java `int` arithmetic wraps explicitly through `Int32`. JavaScript
  truthiness (`||`, `&&`, `!x`) and Java's string `+` on a null operand are spelled
  out wherever the source relies on them.

## Model

| member | source | states |
|---|---|---|
| CartStore.FindProductIndex | ECOMMERCE-FRONTEND-REACT/src/context/CartContext.jsx:55-59 | the index found is the first line whose `productId`, or nested `product.id`, resolves to the product; none is found exactly when no line resolves to it |
| CartStore.IsInCart | ECOMMERCE-FRONTEND-REACT/src/context/CartContext.jsx:133-139 | true exactly when some line resolves to the product id |
| CartStore.ItemQuantity | ECOMMERCE-FRONTEND-REACT/src/context/CartContext.jsx:141-148 | the `quantity` field of the first line resolving to the product, and 0 when the product is not in the cart |
| CartStore.ReplaceById | ECOMMERCE-FRONTEND-REACT/src/context/CartContext.jsx:87-89 | same length; every line with the id becomes the updated line and every other line is kept in place |
| CartStore.RemoveById | ECOMMERCE-FRONTEND-REACT/src/context/CartContext.jsx:100 | no line with the id is left and the list does not grow |
| CartStore.LoadedItems | ECOMMERCE-FRONTEND-REACT/src/context/CartContext.jsx:30-36 | the fetched array when the fetch returns an array; the empty list when it returns anything else or throws |
| CartStore.CartProvider.constructor | ECOMMERCE-FRONTEND-REACT/src/context/CartContext.jsx:9-11 | no user, an empty cart, not loading |
| CartStore.CartProvider.OnUserChange | ECOMMERCE-FRONTEND-REACT/src/context/CartContext.jsx:14-20 | a signed-in user triggers the fetch of their cart and the list becomes what it loaded; signing out empties the list without any gateway call |
| CartStore.CartProvider.LoadCartItems | ECOMMERCE-FRONTEND-REACT/src/context/CartContext.jsx:22-40 | without a user nothing is called or changed; otherwise the user's cart is fetched, the list is replaced by the loaded items and loading ends false |
| CartStore.CartProvider.AddToCart | ECOMMERCE-FRONTEND-REACT/src/context/CartContext.jsx:42-76 | without a user no call and no change; otherwise the add is sent for this user, product and quantity; once it returns, the product's existing line is replaced by the returned line or the returned line is appended; a failed add changes nothing |
| CartStore.CartProvider.UpdateCartItem | ECOMMERCE-FRONTEND-REACT/src/context/CartContext.jsx:78-95 | a quantity of 0 or less becomes a removal of the line; otherwise the update is sent, and only a truthy reply replaces the lines with that id |
| CartStore.CartProvider.RemoveFromCart | ECOMMERCE-FRONTEND-REACT/src/context/CartContext.jsx:97-106 | the delete is sent; once acknowledged the lines with the id are filtered out; a failure changes nothing |
| CartStore.CartProvider.ClearCart | ECOMMERCE-FRONTEND-REACT/src/context/CartContext.jsx:108-118 | without a user nothing happens; otherwise the clear is sent for the user and an acknowledgement empties the list |
| CartStore.CartTotalAppend | ECOMMERCE-FRONTEND-REACT/src/context/CartContext.jsx:120-127 | the total of two lists laid end to end is the sum of their totals |
| CartStore.ItemCountAppend | ECOMMERCE-FRONTEND-REACT/src/context/CartContext.jsx:129-131 | the item count of two lists laid end to end is the sum of their counts |
| CartStore.CartTotalExamples | ECOMMERCE-FRONTEND-REACT/src/context/CartContext.jsx:120-131 | an empty cart totals 0 with 0 items; lines 100 x 2 and 50 x 1 total 250 with 3 items |
| CartStore.CartTotalReplace | ECOMMERCE-FRONTEND-REACT/src/context/CartContext.jsx:120-131 | replacing one line moves the total and the count by exactly that line's difference |
| CartStore.CartTotalNonNegative | ECOMMERCE-FRONTEND-REACT/src/context/CartContext.jsx:120-131 | with non-negative prices and quantities the total and the count are non-negative |
| CartStore.AddedLineShape | ECOMMERCE-FRONTEND-REACT/src/context/CartContext.jsx:56-69 | adding a product already in the cart keeps the length; adding a new product appends the line; the returned line is in the list either way |
| CartStore.AddedLineKeepsOneLinePerProduct | ECOMMERCE-FRONTEND-REACT/src/context/CartContext.jsx:56-69 | when the returned line is for the added product, no product ever gets a second line |
| CartStore.AddedLineIsFound | ECOMMERCE-FRONTEND-REACT/src/context/CartContext.jsx:56-69 | after an add the product is in the cart and its quantity reads as the returned line's |
| CartStore.ReplaceByIdUnknownId | ECOMMERCE-FRONTEND-REACT/src/context/CartContext.jsx:87-89 | replacing an id no line carries leaves the list as it was |
| CartStore.RemoveByIdUnknownId | ECOMMERCE-FRONTEND-REACT/src/context/CartContext.jsx:100 | removing an id no line carries leaves the list as it was |
| CartStore.RemoveByIdMultiset | ECOMMERCE-FRONTEND-REACT/src/context/CartContext.jsx:100 | the result is a sub-multiset of the list, and every line with another id keeps its multiplicity |
| CartStore.RemoveByIdMembers | ECOMMERCE-FRONTEND-REACT/src/context/CartContext.jsx:100 | a line is kept exactly when it was in the list and its id differs |
| CartStore.RemoveByIdTotals | ECOMMERCE-FRONTEND-REACT/src/context/CartContext.jsx:100-131 | with unique ids, removing a line takes exactly its contribution off the total and the count |
| CartStore.RemoveByIdDropsOne | ECOMMERCE-FRONTEND-REACT/src/context/CartContext.jsx:100 | with unique ids, removing line k's id leaves exactly the lines before and after it, in order |
| CartStore.RemoveByIdSplit | ECOMMERCE-FRONTEND-REACT/src/context/CartContext.jsx:100 | filtering distributes over concatenation |
| CartPage.ShippingCost | ECOMMERCE-FRONTEND-REACT/src/pages/Cart.jsx:15 | the fee is 0 exactly when the subtotal is strictly above 500, and otherwise 50 |
| CartPage.FinalTotal | ECOMMERCE-FRONTEND-REACT/src/pages/Cart.jsx:16 | the total is never below the subtotal, at most one fee above it, and equal to it exactly above 500 |
| CartPage.FreeShippingHintAsWritten | ECOMMERCE-FRONTEND-REACT/src/pages/Cart.jsx:115-119 | the hint as written: shown exactly when shipping is charged, and names the amount that brings the subtotal to exactly 500 |
| CartPage.FreeShippingHintFallsShort | ECOMMERCE-FRONTEND-REACT/src/pages/Cart.jsx:115-119 | adding the amount the hint names still leaves the order paying the fee |
| CartPage.FreeShippingHintExample | ECOMMERCE-FRONTEND-REACT/src/pages/Cart.jsx:115-119 | a subtotal of 400.00 is told to add 100.00, and 500.00 still pays 50.00 |
| CartPage.FreeShippingHint | ECOMMERCE-FRONTEND-REACT/src/pages/Cart.jsx:115-119 | the corrected hint: shown exactly when shipping is charged; adding it makes shipping free and one hundredth less does not |
| CartPage.FreeShippingHintIsLeast | ECOMMERCE-FRONTEND-REACT/src/pages/Cart.jsx:115-119 | no smaller addition than the corrected hint makes shipping free |
| CartPage.Render | ECOMMERCE-FRONTEND-REACT/src/pages/Cart.jsx:32-132 | signed out gives the login prompt, loading the spinner; otherwise the badge shows exactly when the item count is positive, the clear button and the summary appear exactly when the cart has lines, and the summary's subtotal is the store's total; the summary's hint is the page's own `500 - total` (see `SummaryConsistent`) |
| CartPage.SummaryConsistent | ECOMMERCE-FRONTEND-REACT/src/pages/Cart.jsx:13-119 | every summary shown has total = subtotal + shipping, free shipping exactly above 500, and the hint exactly when a fee is charged; the hint as the page writes it brings the subtotal to exactly 500, which is still charged |
| CartPage.ShippingBoundaryExamples | ECOMMERCE-FRONTEND-REACT/src/pages/Cart.jsx:15-16 | a subtotal of exactly 500 pays the fee, 500.01 ships free, and the totals are 550 and 500.01 |
| CartItemRow.ProductName | ECOMMERCE-FRONTEND-REACT/src/components/cart/CartItem.jsx:9 | the flat name when truthy, else the nested product's, else "Product"; never empty |
| CartItemRow.SoldByUndefinedUndefined | ECOMMERCE-FRONTEND-REACT/src/components/cart/CartItem.jsx:15-65 | as written, a line with no seller information is labelled "Sold by: undefined undefined" |
| CartItemRow.SoldByIgnoresSellerBusinessName | ECOMMERCE-FRONTEND-REACT/src/components/cart/CartItem.jsx:16-65 | as written, a flat line that carries both a personal and a business name is labelled by the personal name: the gateway's business-name field is never read |
| CartItemRow.SellerName | ECOMMERCE-FRONTEND-REACT/src/components/cart/CartItem.jsx:15 | corrected: the flat name, else "first last" only when the nested seller has both parts; absent without seller information, never empty |
| CartItemRow.BusinessName | ECOMMERCE-FRONTEND-REACT/src/components/cart/CartItem.jsx:16 | corrected: the gateway's business name when present, else the other two spellings; never empty |
| CartItemRow.SoldBy | ECOMMERCE-FRONTEND-REACT/src/components/cart/CartItem.jsx:62-65 | corrected: no label without seller information; the gateway's business name wins whenever present; otherwise the business name, else the personal name |
| CartItemRow.QuantityChange | ECOMMERCE-FRONTEND-REACT/src/components/cart/CartItem.jsx:18-22 | an update of the line to the new quantity is asked for exactly when it is 1 to 10 |
| CartItemRow.RemoveClick | ECOMMERCE-FRONTEND-REACT/src/components/cart/CartItem.jsx:24-28 | the removal of this line is asked for exactly when the user confirms |
| CartItemRow.StepperKeepsRange | ECOMMERCE-FRONTEND-REACT/src/components/cart/CartItem.jsx:78-104 | from a quantity of 1 to 10, minus asks for q-1 exactly from 2 and plus for q+1 exactly up to 9; minus is disabled exactly at 1 and plus exactly at 10 |
| CartItemRow.QuantityControlsBounded | ECOMMERCE-FRONTEND-REACT/src/components/cart/CartItem.jsx:78-104 | every call a quantity control makes updates this line to a quantity of 1 to 10 |
| CartItemRow.MinusIgnoredAboveEleven | ECOMMERCE-FRONTEND-REACT/src/components/cart/CartItem.jsx:18-86 | a line above 11 keeps an enabled minus button that asks for nothing |
| CartItemRow.TypedQuantityParses | ECOMMERCE-FRONTEND-REACT/src/components/cart/CartItem.jsx:87-95 | typing n of 1 to 10, optionally followed by non-digits, updates to n; typing 0 updates to 1; typing more than 10 asks for nothing |
| CartItemRow.TypedTextIsOne | ECOMMERCE-FRONTEND-REACT/src/components/cart/CartItem.jsx:90 | typing text that does not start a number updates to 1 |
| CartItemRow.LineTotalShown | ECOMMERCE-FRONTEND-REACT/src/components/cart/CartItem.jsx:111 | the line total is price times quantity when the quantity is present and NaN otherwise |
| Checkout.InitialForm | ECOMMERCE-FRONTEND-REACT/src/pages/Checkout.jsx:14-21 | card payment, empty card fields, and the user's address as the shipping address when there is one, else empty |
| Checkout.WithField | ECOMMERCE-FRONTEND-REACT/src/pages/Checkout.jsx:28-31 | the named field takes the typed value and every other field is unchanged |
| Checkout.FormErrors | ECOMMERCE-FRONTEND-REACT/src/pages/Checkout.jsx:41-68 | each field is in the error map exactly when its own check fails, with that check's message: the address whenever blank; card number, expiry, CVV and holder only for card payment; never the payment method |
| Checkout.ValidIffAcceptable | ECOMMERCE-FRONTEND-REACT/src/pages/Checkout.jsx:41-72 | the form validates exactly when it is acceptable: a non-blank address and, for card payment, 16 digits ignoring spaces, a non-blank expiry, a 3-character CVV and a non-blank holder |
| Checkout.NonCardChecksAddressOnly | ECOMMERCE-FRONTEND-REACT/src/pages/Checkout.jsx:44-68 | without card payment only the address can be in error, and the form validates exactly when the address is not blank |
| Checkout.CardDigits | ECOMMERCE-FRONTEND-REACT/src/pages/Checkout.jsx:144 | the value with spaces and non-digits removed holds only digits |
| Checkout.FirstMatch | ECOMMERCE-FRONTEND-REACT/src/pages/Checkout.jsx:145-146 | the first run of 4 to 16 digits: empty for fewer than 4 digits, otherwise a prefix of 4 to 16 digits that is all of them or the first 16 |
| Checkout.Chunks | ECOMMERCE-FRONTEND-REACT/src/pages/Checkout.jsx:149-151 | the pieces are non-empty, at most 4 characters long, and empty exactly for an empty match |
| Checkout.FormatCardNumber | ECOMMERCE-FRONTEND-REACT/src/pages/Checkout.jsx:143-158 | the loop over the match in steps of four returns what the formatter function defines |
| Checkout.JoinChunksShape | ECOMMERCE-FRONTEND-REACT/src/pages/Checkout.jsx:149-154 | joining the pieces gives the match back once spaces are removed, with one space after every fourth character except the last, at positions 4, 9, 14 |
| Checkout.JoinChunksUnspaced | ECOMMERCE-FRONTEND-REACT/src/pages/Checkout.jsx:149-154 | removing the spaces from the joined pieces gives the match, and the joined length is that of the match plus one space per extra piece |
| Checkout.JoinChunksSpacing | ECOMMERCE-FRONTEND-REACT/src/pages/Checkout.jsx:149-154 | the joined pieces have a space exactly at the positions 4, 9, 14 and so on |
| Checkout.FormattedShape | ECOMMERCE-FRONTEND-REACT/src/pages/Checkout.jsx:143-158 | the output holds only digits and spaces, groups of four with spaces at positions 4, 9, 14 once 4 digits are typed, the first match (or the raw digits below 4) once spaces are removed, and at most 19 characters |
| Checkout.DigitsOfSpacedGroups | ECOMMERCE-FRONTEND-REACT/src/pages/Checkout.jsx:149-154 | every character of the grouped match other than a space is a digit |
| Checkout.FormatIdempotent | ECOMMERCE-FRONTEND-REACT/src/pages/Checkout.jsx:143-166 | formatting an already formatted value changes nothing |
| Checkout.FormattedCardNumberValidation | ECOMMERCE-FRONTEND-REACT/src/pages/Checkout.jsx:51-226 | a card number entered through the formatter passes the 16-digit check exactly when at least 16 digits were typed, and it fits the field's maximum length of 19 |
| Checkout.FailureToast | ECOMMERCE-FRONTEND-REACT/src/pages/Checkout.jsx:131-137 | the server's message when there is one, else the error's own message, else the generic text |
| Checkout.AfterReply | ECOMMERCE-FRONTEND-REACT/src/pages/Checkout.jsx:104-137 | an order with an id announces "Order #id placed successfully!" and goes to the success page with the id; an order without an id goes to the order list; a failure toasts the message |
| Checkout.PlaceOrderButton | ECOMMERCE-FRONTEND-REACT/src/pages/Checkout.jsx:294-299 | the button is disabled exactly while loading or with an empty cart, and when not loading its label shows the cart total |
| Checkout.CheckoutTotalOmitsShipping | ECOMMERCE-FRONTEND-REACT/src/pages/Checkout.jsx:168-298 | the checkout shows the bare cart total, which is less than the cart page's final total by exactly its shipping fee |
| Checkout.CheckoutPage.constructor | ECOMMERCE-FRONTEND-REACT/src/pages/Checkout.jsx:14-24 | the initial form, no errors, not loading |
| Checkout.CheckoutPage.HandleInputChange | ECOMMERCE-FRONTEND-REACT/src/pages/Checkout.jsx:26-39 | the field takes the value; its error is blanked exactly when it was set and truthy, and the other errors are kept |
| Checkout.CheckoutPage.HandleCardNumberChange | ECOMMERCE-FRONTEND-REACT/src/pages/Checkout.jsx:160-166 | the card number becomes the formatted input and nothing else changes |
| Checkout.CheckoutPage.ValidateForm | ECOMMERCE-FRONTEND-REACT/src/pages/Checkout.jsx:41-72 | the errors become the form's error map, and the result is true exactly when the form is acceptable |
| Checkout.CheckoutPage.HandleSubmit | ECOMMERCE-FRONTEND-REACT/src/pages/Checkout.jsx:74-141 | an invalid form stops before anything is sent; an empty cart gives the empty-cart toast; otherwise the order is created for the user with the form's address and payment method, what follows depends on the reply, and loading ends false |
| SessionUser.Merge | ECOMMERCE-FRONTEND-REACT/src/services/authService.js:78 | the spread merge holds every property of either object, the second object's value winning on shared keys |
| SessionUser.Tagged | ECOMMERCE-FRONTEND-REACT/src/services/authService.js:20-54 | the user spread with a `role` property, which overrides any role it carried |
| SessionUser.View | ECOMMERCE-FRONTEND-REACT/src/pages/Products.jsx:91 | the role the pages read is the stored `role` string, and absent when the record carries none |
| SessionUser.TaggedCustomer | ECOMMERCE-FRONTEND-REACT/src/services/authService.js:20-24 | a user tagged "USER" is seen by the pages as a customer whatever role it carried; a user tagged "SELLER" reads as a seller |
| AuthService.SessionStorage.constructor | ECOMMERCE-FRONTEND-REACT/src/services/authService.js:66-70 | the storage starts with the given stored user |
| AuthService.SessionStorage.GetCurrentUser | ECOMMERCE-FRONTEND-REACT/src/services/authService.js:67-70 | the stored user when the key is present, and null exactly when it is absent |
| AuthService.SessionStorage.Login | ECOMMERCE-FRONTEND-REACT/src/services/authService.js:15-31 | a successful reply carrying a user stores that user tagged "USER" and returns the reply with the tagged user; any other reply stores nothing and is returned unchanged |
| AuthService.SessionStorage.LoginSeller | ECOMMERCE-FRONTEND-REACT/src/services/authService.js:44-59 | a successful reply carrying a seller stores that seller tagged "SELLER"; the reply always comes back untagged |
| AuthService.SessionStorage.Register | ECOMMERCE-FRONTEND-REACT/src/services/authService.js:5-41 | registration replies pass through unchanged |
| AuthService.SessionStorage.Logout | ECOMMERCE-FRONTEND-REACT/src/services/authService.js:62-64 | nothing is stored afterwards |
| AuthService.SessionStorage.UpdateUser | ECOMMERCE-FRONTEND-REACT/src/services/authService.js:73-84 | once the update request succeeds, the stored user (an empty object when none) is merged with the sent data; a failure stores nothing |
| AuthService.LoginThenGetCurrentUser | ECOMMERCE-FRONTEND-REACT/src/services/authService.js:15-70 | after a customer logs in, the current user reads back as that user tagged "USER", a customer |
| AuthService.LogoutThenGetCurrentUser | ECOMMERCE-FRONTEND-REACT/src/services/authService.js:62-70 | after logout no user reads back |
| AuthContext.LoginErrorMessage | ECOMMERCE-FRONTEND-REACT/src/context/AuthContext.jsx:38-48 | the server's message, else the error's message, else by status: 404 "Server not available. Please try again later.", 400 "Invalid email or password", else "Login failed" |
| AuthContext.AsOutcome | ECOMMERCE-FRONTEND-REACT/src/context/AuthContext.jsx:21-36 | a thrown request is a failure, and a reply passes through |
| AuthContext.AuthProvider.constructor | ECOMMERCE-FRONTEND-REACT/src/context/AuthContext.jsx:8-9 | no user yet, and loading |
| AuthContext.AuthProvider.Start | ECOMMERCE-FRONTEND-REACT/src/context/AuthContext.jsx:11-18 | the user becomes the stored user, or none; loading ends; the state mirrors the storage |
| AuthContext.AuthProvider.Login | ECOMMERCE-FRONTEND-REACT/src/context/AuthContext.jsx:20-53 | a successful reply with a user makes the tagged user the state and the stored user and reports success; otherwise the state is kept and the reply's message or "Login failed" is reported; a thrown error reports the prioritised message; a mirrored state stays mirrored |
| AuthContext.AuthProvider.LoginSeller | ECOMMERCE-FRONTEND-REACT/src/context/AuthContext.jsx:72-89 | a successful reply makes the seller, tagged "SELLER", the state (an empty seller when the reply has none); a refused reply reports its message; a thrown error reports the server's message or "Seller login failed" |
| AuthContext.AuthProvider.Register | ECOMMERCE-FRONTEND-REACT/src/context/AuthContext.jsx:55-106 | the reply's success, with its message on a refusal; a thrown error reports the server's message or the fallback text |
| AuthContext.AuthProvider.Logout | ECOMMERCE-FRONTEND-REACT/src/context/AuthContext.jsx:108-112 | no user, nothing stored, the state mirrors the storage |
| AuthContext.AuthProvider.UpdateUser | ECOMMERCE-FRONTEND-REACT/src/context/AuthContext.jsx:114-123 | once the request succeeds the sent data is merged over the previous user, in the state and in storage; a failure rethrows and keeps both |
| AuthContext.SellerLoginWithoutSeller | ECOMMERCE-FRONTEND-REACT/src/context/AuthContext.jsx:72-79 | a successful seller login whose reply carries no seller makes the state a bare seller tag while storage stays empty, so the two no longer agree |
| ProductsPage.Filtered | ECOMMERCE-FRONTEND-REACT/src/pages/Products.jsx:36-44 | a product is kept exactly when it matches the search, the category, both price bounds and the stock switch; the kept list is a sub-multiset of the fetched one |
| ProductsPage.KeyGreaterStrictOrder | ECOMMERCE-FRONTEND-REACT/src/pages/Products.jsx:45-61 | the comparison behind the sort is a strict weak order for every key: irreflexive, transitive, and ties are interchangeable |
| ProductsPage.StrOrderFacts | ECOMMERCE-FRONTEND-REACT/src/pages/Products.jsx:52-58 | lexicographic order on the lower-cased strings is irreflexive, transitive and total |
| ProductsPage.KeyLeTotalPreorder | ECOMMERCE-FRONTEND-REACT/src/pages/Products.jsx:45-61 | for every key and direction the order the sort establishes is total and transitive |
| ProductsPage.KeyGreaterTransitiveLe | ECOMMERCE-FRONTEND-REACT/src/pages/Products.jsx:57-61 | in either direction, "not after" is transitive |
| ProductsPage.NotGreaterTransitive | ECOMMERCE-FRONTEND-REACT/src/pages/Products.jsx:46-58 | "not greater" by a key is transitive |
| ProductsPage.NotLessTransitive | ECOMMERCE-FRONTEND-REACT/src/pages/Products.jsx:52-58 | "not less" on strings is transitive |
| ProductsPage.VisibleIsSortedFilter | ECOMMERCE-FRONTEND-REACT/src/pages/Products.jsx:36-62 | the listed products are a permutation of the kept ones, exactly the fetched products the filter keeps, ordered by the selected key in the selected direction |
| ProductsPage.VisibleByPrice | ECOMMERCE-FRONTEND-REACT/src/pages/Products.jsx:49-61 | sorted by price ascending cheaper products come first; descending they come last |
| ProductsPage.VisibleByName | ECOMMERCE-FRONTEND-REACT/src/pages/Products.jsx:52-58 | sorted by name ascending, the lower-cased names are in lexicographic order |
| ProductsPage.EmptySearchMatchesAll | ECOMMERCE-FRONTEND-REACT/src/pages/Products.jsx:37-38 | the empty search term matches every product |
| ProductsPage.HiddenOutOfStock | ECOMMERCE-FRONTEND-REACT/src/pages/Products.jsx:42 | with out-of-stock products hidden, no product with a stock of 0 or less is listed |
| ProductsPage.DefaultsKeepEverything | ECOMMERCE-FRONTEND-REACT/src/pages/Products.jsx:13-44 | under the default filters every fetched product is kept, in order |
| ProductsPage.ClearFilters | ECOMMERCE-FRONTEND-REACT/src/pages/Products.jsx:66-73 | every filter returns to its default, under which the list shows every product |
| ProductsPage.Categories | ECOMMERCE-FRONTEND-REACT/src/pages/Products.jsx:64 | each category of the fetched products is listed exactly once, and nothing else |
| ProductsPage.CategoriesFirstOccurrence | ECOMMERCE-FRONTEND-REACT/src/pages/Products.jsx:64 | a category already listed keeps its place when another product with it arrives |
| ProductsPage.HandleAddToCart | ECOMMERCE-FRONTEND-REACT/src/pages/Products.jsx:85-97 | exactly a signed-in customer adds the product, always one unit |
| ProductsPage.EnabledButtonAdds | ECOMMERCE-FRONTEND-REACT/src/pages/Products.jsx:358-362 | an enabled add button always leads to a one-unit add |
| ProductsPage.AfterFetch | ECOMMERCE-FRONTEND-REACT/src/pages/Products.jsx:24-34 | a fetched list replaces the products and a failed fetch keeps them |
| ProductCard.HandleAddToCart | ECOMMERCE-FRONTEND-REACT/src/components/product/ProductCard.jsx:12-25 | any signed-in user adds one unit of the product; without a user nothing is added |
| ProductCard.CardGateIgnoresRole | ECOMMERCE-FRONTEND-REACT/src/components/product/ProductCard.jsx:12-25 | a seller adds from a card although the catalogue page refuses them |
| ProductCard.ImageSource | ECOMMERCE-FRONTEND-REACT/src/components/product/ProductCard.jsx:33-37 | the placeholder exactly when the URL is absent or blank (or is the placeholder itself); otherwise the product's own URL |
| ProductCard.BlankUrlDiffersFromDetails | ECOMMERCE-FRONTEND-REACT/src/components/product/ProductCard.jsx:35-37 | a whitespace-only URL is replaced on the card but used as it is on the details page |
| ProductCard.Badge | ECOMMERCE-FRONTEND-REACT/src/components/product/ProductCard.jsx:44-53 | "Out of Stock" exactly at stock 0 and "Low Stock" exactly for 1 to 5 |
| ProductCard.Excerpt | ECOMMERCE-FRONTEND-REACT/src/components/product/ProductCard.jsx:71-73 | a description of at most 100 characters is shown whole; a longer one becomes its first 100 characters and "..." |
| ProductCard.ExcerptBounded | ECOMMERCE-FRONTEND-REACT/src/components/product/ProductCard.jsx:71-73 | the excerpt is at most 103 characters and starts like the description |
| ProductCard.CardFooter | ECOMMERCE-FRONTEND-REACT/src/components/product/ProductCard.jsx:88-114 | the login link exactly without a user; the in-cart badge with the cart quantity exactly for a signed-in user with the product in the cart; otherwise the add button, disabled exactly while adding or at stock 0 |
| ProductDetails.PurchaseControls | ECOMMERCE-FRONTEND-REACT/src/components/product/ProductDetails.jsx:157-208 | the login button exactly without a user; the quantity form exactly for a signed-in user, a product in stock and not yet in the cart; the in-cart badge with the cart quantity exactly when it is in the cart |
| ProductDetails.Badge | ECOMMERCE-FRONTEND-REACT/src/components/product/ProductDetails.jsx:139-146 | out of stock exactly at stock 0 or less; otherwise the count, marked low exactly for 1 to 5 |
| ProductDetails.SoldBy | ECOMMERCE-FRONTEND-REACT/src/components/product/ProductDetails.jsx:150-155 | a seller line exactly when the product has a seller, showing the business name when it is truthy |
| ProductDetails.ImageSource | ECOMMERCE-FRONTEND-REACT/src/components/product/ProductDetails.jsx:96 | the product's URL unless it is absent or empty, else the placeholder |
| ProductDetails.DetailsState.constructor | ECOMMERCE-FRONTEND-REACT/src/components/product/ProductDetails.jsx:15-18 | no product yet, loading, a quantity of 1, not adding |
| ProductDetails.DetailsState.FetchProduct | ECOMMERCE-FRONTEND-REACT/src/components/product/ProductDetails.jsx:24-35 | a reply replaces the product; a failure keeps it and leads back to the list; loading ends |
| ProductDetails.DetailsState.HandleQuantityChange | ECOMMERCE-FRONTEND-REACT/src/components/product/ProductDetails.jsx:54-59 | the quantity takes a parsed value exactly when it lies between 1 and the stock, and otherwise stays; it is always at least 1 |
| ProductDetails.DetailsState.HandleAddToCart | ECOMMERCE-FRONTEND-REACT/src/components/product/ProductDetails.jsx:37-52 | without a user it only leads to login; otherwise the selected quantity of the product is added and the selection resets to 1 |
| OrderView.IndexOf | ECOMMERCE-FRONTEND-REACT/src/pages/OrderDetails.jsx:222 | the first position of the value, and -1 exactly when it is absent |
| OrderView.ItemsSumAppend | ECOMMERCE-FRONTEND-REACT/src/pages/OrderDetails.jsx:112-115 | the item sum of two item lists laid end to end is the sum of their sums |
| OrderView.CalculateTotalOfItems | ECOMMERCE-FRONTEND-REACT/src/pages/OrderDetails.jsx:112-115 | an order's total is the sum of its line totals, price times quantity; no item list and an empty one both give 0 |
| OrderView.ItemsSumNonNegative | ECOMMERCE-FRONTEND-REACT/src/pages/OrderDetails.jsx:112-115 | with non-negative prices and quantities the total is non-negative |
| OrderView.StatusBadgeColor | ECOMMERCE-FRONTEND-REACT/src/pages/OrderDetails.jsx:53-61 | each of the four statuses gets its own colour, in step order warning, primary, info, success; any other status is secondary |
| OrdersPage.NewerFirstTotalPreorder | ECOMMERCE-FRONTEND-REACT/src/pages/Orders.jsx:25 | the date comparator orders orders totally and transitively |
| OrdersPage.ByDateDescending | ECOMMERCE-FRONTEND-REACT/src/pages/Orders.jsx:25 | the list is a permutation of the fetched orders, newest first, and orders with the same date keep the order they were fetched in |
| OrdersPage.ByDateDescendingStable | ECOMMERCE-FRONTEND-REACT/src/pages/Orders.jsx:25 | the comparator returns 0 for equal dates and the sort is stable, so each date's orders appear in their fetched order |
| OrdersPage.AfterEffect | ECOMMERCE-FRONTEND-REACT/src/pages/Orders.jsx:13-32 | without a user nothing is fetched and nothing changes; with one, loading ends, a reply becomes the list (a permutation of it) and a failure keeps the list |
| OrdersPage.NoUserKeepsSpinner | ECOMMERCE-FRONTEND-REACT/src/pages/Orders.jsx:11-17 | without a user the spinner never goes away |
| OrdersPage.StatusColor | ECOMMERCE-FRONTEND-REACT/src/pages/Orders.jsx:34-43 | the colour is one of the six the switch names |
| OrdersPage.StatusColorIgnoresCase | ECOMMERCE-FRONTEND-REACT/src/pages/Orders.jsx:35 | the colour does not depend on the status's letter case |
| OrdersPage.LowerOfLower | ECOMMERCE-FRONTEND-REACT/src/pages/Orders.jsx:35 | lower-casing twice is lower-casing once |
| OrdersPage.ConfirmedColoursDiffer | ECOMMERCE-FRONTEND-REACT/src/pages/Orders.jsx:37 | a confirmed order is "info" on the history page but "primary" on the details page |
| OrdersPage.ShippedColoursDiffer | ECOMMERCE-FRONTEND-REACT/src/pages/Orders.jsx:38 | a shipped order is "primary" on the history page but "info" on the details page |
| OrdersPage.PendingColoursAgree | ECOMMERCE-FRONTEND-REACT/src/pages/Orders.jsx:36 | a pending order is "warning" on both pages |
| OrdersPage.DeliveredColoursAgree | ECOMMERCE-FRONTEND-REACT/src/pages/Orders.jsx:39 | a delivered order is "success" on both pages |
| OrdersPage.ItemCount | ECOMMERCE-FRONTEND-REACT/src/pages/Orders.jsx:109 | the number of items, and 0 when the order has no item list |
| OrderDetails.ProgressPercentage | ECOMMERCE-FRONTEND-REACT/src/pages/OrderDetails.jsx:73-81 | 25 per step reached: 25, 50, 75, 100 along the four steps; 0 exactly for any other status |
| OrderDetails.ProgressIncreases | ECOMMERCE-FRONTEND-REACT/src/pages/OrderDetails.jsx:73-81 | progress strictly increases along the four steps |
| OrderDetails.StepActiveIff | ECOMMERCE-FRONTEND-REACT/src/pages/OrderDetails.jsx:221-223 | a known status activates exactly the steps up to its own; an unknown status activates none |
| OrderDetails.CancelledActivatesNoStep | ECOMMERCE-FRONTEND-REACT/src/pages/OrderDetails.jsx:221-223 | a cancelled order activates no status step |
| OrderDetails.TimelineOfShipped | ECOMMERCE-FRONTEND-REACT/src/pages/OrderDetails.jsx:425-427 | a shipped order completes exactly the first three tracking steps, never "Out for Delivery"; a delivered one completes all five |
| OrderDetails.DeliveryOffset | ECOMMERCE-FRONTEND-REACT/src/pages/OrderDetails.jsx:83-100 | an estimate exactly for the four known statuses |
| OrderDetails.DeliveryEstimate | ECOMMERCE-FRONTEND-REACT/src/pages/OrderDetails.jsx:83-100 | no estimate exactly for unknown statuses; otherwise the order day plus 5, 3, 1 or 0 days |
| OrderDetails.DeliveryOffsetDecreases | ECOMMERCE-FRONTEND-REACT/src/pages/OrderDetails.jsx:83-100 | the further an order has progressed, the nearer its estimated day |
| OrderDetails.ItemName | ECOMMERCE-FRONTEND-REACT/src/pages/OrderDetails.jsx:288 | the nested product name when truthy, else the flat name, else "Product"; never empty |
| OrderDetails.Load | ECOMMERCE-FRONTEND-REACT/src/pages/OrderDetails.jsx:20-51 | loading always ends; without an order id the page reports it; a failed fetch reports the failure; a null reply shows no order; an order is shown only when the viewer is its own user or a seller |
| OrderDetails.Render | ECOMMERCE-FRONTEND-REACT/src/pages/OrderDetails.jsx:117-163 | the spinner exactly while loading, the error exactly when one is set, "not found" exactly without an order, else the details with the computed total as subtotal and total and the status's progress |
| OrderDetails.OthersCannotView | ECOMMERCE-FRONTEND-REACT/src/pages/OrderDetails.jsx:38-42 | a customer who is not the order's owner never sees its details, and is told they lack permission |
| OrderSuccess.ResolveOrderId | ECOMMERCE-FRONTEND-REACT/src/pages/OrderSuccess.jsx:14 | a truthy navigation-state id wins; otherwise a non-empty query parameter; otherwise there is no id |
| OrderSuccess.AfterLoad | ECOMMERCE-FRONTEND-REACT/src/pages/OrderSuccess.jsx:20-45 | loading always ends; without an id nothing is fetched; a failed fetch records the fixed message and leaves the order null; a reply becomes the order |
| OrderSuccess.Render | ECOMMERCE-FRONTEND-REACT/src/pages/OrderSuccess.jsx:62-230 | spinner while loading, then the error card, then the generic thank-you without an id, else the confirmation with the order's total and badge |
| OrderSuccess.NoIdShowsThanks | ECOMMERCE-FRONTEND-REACT/src/pages/OrderSuccess.jsx:20-27 | without an id the page is the generic thank-you, whatever a fetch would have returned |
| OrderSuccess.FailedFetchShowsError | ECOMMERCE-FRONTEND-REACT/src/pages/OrderSuccess.jsx:38-44 | a failed fetch always shows the error card, never the confirmation |
| OrderSuccess.FirstRenderIsSpinner | ECOMMERCE-FRONTEND-REACT/src/pages/OrderSuccess.jsx:9-11 | before the effect has run the page is the spinner |
| OrderSuccess.ItemName | ECOMMERCE-FRONTEND-REACT/src/pages/OrderSuccess.jsx:191 | a shown item name is never empty; the flat product name wins when present |
| SellerDashboard.StatusCount | ECOMMERCE-FRONTEND-REACT/src/pages/SellerDashboard.jsx:35-39 | a status count never exceeds the number of orders |
| SellerDashboard.SoldOrders | ECOMMERCE-FRONTEND-REACT/src/pages/SellerDashboard.jsx:42-44 | exactly the orders whose status is CONFIRMED, SHIPPED or DELIVERED |
| SellerDashboard.ComputeStatistics | ECOMMERCE-FRONTEND-REACT/src/pages/SellerDashboard.jsx:28-59 | total orders is the number of orders; the four status counts add up to at most that; the completed figure is the number of sold orders; the revenue card equals the sum of the per-order seller totals |
| SellerDashboard.StatusCountsBounded | ECOMMERCE-FRONTEND-REACT/src/pages/SellerDashboard.jsx:35-39 | each order has one status, so the four counts together never exceed the number of orders |
| SellerDashboard.CompletedCountsSoldOrders | ECOMMERCE-FRONTEND-REACT/src/pages/SellerDashboard.jsx:265 | "Completed Orders" (confirmed + shipped + delivered) is the number of sold orders |
| SellerDashboard.FirstQuantity | ECOMMERCE-FRONTEND-REACT/src/pages/SellerDashboard.jsx:376 | the quantity of the first item for the product, or 0 when no item is for it |
| SellerDashboard.ProductSoldAtMostTotalSold | ECOMMERCE-FRONTEND-REACT/src/pages/SellerDashboard.jsx:371-377 | with non-negative quantities, a seller's product never shows more sold than the "Items Sold" card (which counts only sold orders and the seller's products) |
| SellerDashboard.FirstQuantityAtMostOwn | ECOMMERCE-FRONTEND-REACT/src/pages/SellerDashboard.jsx:45-48 | within one order, the first item's quantity for one of the seller's products is at most the seller's quantity in that order |
| SellerDashboard.OwnQuantityNonNegative | ECOMMERCE-FRONTEND-REACT/src/pages/SellerDashboard.jsx:45-48 | with non-negative quantities the seller's quantity in an order is non-negative |
| SellerDashboard.SellerItems | ECOMMERCE-FRONTEND-REACT/src/pages/SellerDashboard.jsx:475-477 | the `filter` of the order's items by the seller's products: exactly those items, in their order and with their repetitions; no items when the order has none |
| SellerDashboard.OwnItems | ECOMMERCE-FRONTEND-REACT/src/pages/SellerDashboard.jsx:475-477 | the library filter of the items by the seller's products: exactly those items, in order and with their repetitions |
| SellerDashboard.OwnRevenueIsTotalOfOwnItems | ECOMMERCE-FRONTEND-REACT/src/pages/SellerDashboard.jsx:29-33 | an order's contribution to revenue is the total of its seller items |
| SellerDashboard.RevenueIsSumOfOrderTotals | ECOMMERCE-FRONTEND-REACT/src/pages/SellerDashboard.jsx:29-33 | the revenue card is the sum of the per-order totals of the orders table, over orders of every status |
| SellerDashboard.OrderOfDto | ECOMMERCE-FRONTEND-REACT/src/pages/SellerDashboard.jsx:127-130 | an order of the `getOrdersBySeller` reply keeps its id and status, and its items are each DTO item read in turn |
| SellerDashboard.OrdersOfDtos | ECOMMERCE-FRONTEND-REACT/src/pages/SellerDashboard.jsx:127-130 | the dashboard's orders are the reply's orders, one for one and in order |
| SellerDashboard.NothingOwnedInItems | ECOMMERCE-FRONTEND-REACT/src/pages/SellerDashboard.jsx:29-33 | items that name no product add nothing to revenue or quantity, none is a seller item, and no product has a first quantity among them |
| SellerDashboard.NothingOwnedInOrders | ECOMMERCE-FRONTEND-REACT/src/pages/SellerDashboard.jsx:28-48 | orders whose items name no product give revenue 0, 0 items sold, no "sold" figure and no seller items in any row |
| SellerDashboard.ServerOrdersShowNothingSoldAsWritten | ECOMMERCE-FRONTEND-REACT/src/pages/SellerDashboard.jsx:28-48 | read as the page does (`item.product?.id` of a DTO that only has `productId`), the server's orders always give revenue 0, 0 items sold, a "sold" figure of 0 for every product and no seller items |
| SellerDashboard.ItemOfDtoOwned | ECOMMERCE-FRONTEND-REACT/src/pages/SellerDashboard.jsx:31 | read by `productId`, an item is the seller's exactly when one of the seller's products has that id; read as written, no item is |
| SellerDashboard.ItemsReadByProductId | ECOMMERCE-FRONTEND-REACT/src/pages/SellerDashboard.jsx:29-33 | read by `productId`, an order's seller revenue and quantity are those of its DTO items whose product is one of the seller's |
| SellerDashboard.TotalsReadByProductId | ECOMMERCE-FRONTEND-REACT/src/pages/SellerDashboard.jsx:28-48 | read by `productId`, the revenue over all orders and the quantity over sold orders are the seller's figures in the server's orders |
| SellerDashboard.StatisticsReadByProductId | ECOMMERCE-FRONTEND-REACT/src/pages/SellerDashboard.jsx:28-59 | read by `productId`, the revenue card and the "Items Sold" card show the seller's revenue over every order and quantity over confirmed, shipped and delivered orders, as the server's DTOs give them |
| SellerDashboard.ConfirmedOrderCountedOnlyWhenReadByProductId | ECOMMERCE-FRONTEND-REACT/src/pages/SellerDashboard.jsx:28-48 | a confirmed order of 2 units at 100 of the seller's product gives revenue 0 and 0 items sold as written, and 200 and 2 when read by `productId` |
| SellerDashboard.ActiveProducts | ECOMMERCE-FRONTEND-REACT/src/pages/SellerDashboard.jsx:275 | at most the number of products, and all of them exactly when every product has stock above zero |
| SellerDashboard.StatusBadge | ECOMMERCE-FRONTEND-REACT/src/pages/SellerDashboard.jsx:508-513 | "danger" exactly for a status outside the four known ones |
| SellerDashboard.HandleStatusChange | ECOMMERCE-FRONTEND-REACT/src/pages/SellerDashboard.jsx:115-119 | an update is requested exactly when the new status differs from the current one, and then for that order and status |
| SellerDashboard.WithStatus | ECOMMERCE-FRONTEND-REACT/src/pages/SellerDashboard.jsx:92-100 | the same orders in the same order; those with the id get the new status and every other order is unchanged |
| SellerDashboard.WithStatusUnknownId | ECOMMERCE-FRONTEND-REACT/src/pages/SellerDashboard.jsx:92-100 | an id no order has leaves the list unchanged |
| SellerDashboard.WithStatusIdempotent | ECOMMERCE-FRONTEND-REACT/src/pages/SellerDashboard.jsx:92-100 | applying the same status update twice is the same as once |
| SellerDashboard.OwnRevenueOfStatusChange | ECOMMERCE-FRONTEND-REACT/src/pages/SellerDashboard.jsx:29-33 | a status change never changes the revenue card, which counts orders of every status |
| SellerDashboard.Fetched | ECOMMERCE-FRONTEND-REACT/src/pages/SellerDashboard.jsx:121-139 | the list is non-empty only for a signed-in seller and an array reply, and is then exactly that array; no user, a failure or a non-array reply gives the empty list |
| SellerDashboard.DashboardState.constructor | ECOMMERCE-FRONTEND-REACT/src/pages/SellerDashboard.jsx:10-15 | both lists start empty and both spinners on |
| SellerDashboard.DashboardState.FetchProducts | ECOMMERCE-FRONTEND-REACT/src/pages/SellerDashboard.jsx:66-81 | asks only for a signed-in seller; products become the fetched list and the orders are untouched |
| SellerDashboard.DashboardState.FetchOrders | ECOMMERCE-FRONTEND-REACT/src/pages/SellerDashboard.jsx:121-139 | asks only for a signed-in seller; orders become the fetched list and the products are untouched |
| SellerDashboard.DashboardState.UpdateOrderStatus | ECOMMERCE-FRONTEND-REACT/src/pages/SellerDashboard.jsx:83-113 | after an accepted update the order with the id gets the new status locally; a refused update changes nothing |
| RegisterForm.WithField | ECOMMERCE-FRONTEND-REACT/src/components/auth/Register.jsx:30-33 | the edited field takes the new value and every other field keeps its value |
| RegisterForm.EmailPatternShape | ECOMMERCE-FRONTEND-REACT/src/components/auth/Register.jsx:53 | an address the pattern accepts has an '@', a later '.', and at least five characters |
| RegisterForm.EmailPatternAccepts | ECOMMERCE-FRONTEND-REACT/src/components/auth/Register.jsx:53 | a plain address such as a@b.co is accepted |
| RegisterForm.EmailPatternUnanchored | ECOMMERCE-FRONTEND-REACT/src/components/auth/Register.jsx:53 | the pattern is unanchored: an address inside other text is accepted |
| RegisterForm.EmailPatternNeedsDot | ECOMMERCE-FRONTEND-REACT/src/components/auth/Register.jsx:53 | an address without a '.' after the '@' is rejected |
| RegisterForm.EmailPatternNeedsTextBeforeAt | ECOMMERCE-FRONTEND-REACT/src/components/auth/Register.jsx:53 | a space just before the only '@' is rejected |
| RegisterForm.SpaceBeforeOnlyAt | ECOMMERCE-FRONTEND-REACT/src/components/auth/Register.jsx:53 | any string whose only '@' follows a space is rejected |
| RegisterForm.EmailWitness | ECOMMERCE-FRONTEND-REACT/src/components/auth/Register.jsx:53 | a non-space character, '@', a non-empty non-space run, '.', and a non-space character anywhere in the string suffice |
| RegisterForm.FormErrors | ECOMMERCE-FRONTEND-REACT/src/components/auth/Register.jsx:43-89 | the error map has an entry exactly for each field that fails its check, with that check's non-empty message |
| RegisterForm.ValidIffAcceptable | ECOMMERCE-FRONTEND-REACT/src/components/auth/Register.jsx:43-89 | the error map is empty exactly when username, names and e-mail are non-blank, the e-mail matches, the password has at least six characters and equals the confirmation, and on the seller tab the three business fields are non-blank |
| RegisterForm.UnacceptableHasAnError | ECOMMERCE-FRONTEND-REACT/src/components/auth/Register.jsx:47-86 | a form failing any demand has at least one error |
| RegisterForm.AcceptableHasNoErrors | ECOMMERCE-FRONTEND-REACT/src/components/auth/Register.jsx:47-86 | a form meeting every demand has no error at all |
| RegisterForm.MismatchIsAlwaysAnError | ECOMMERCE-FRONTEND-REACT/src/components/auth/Register.jsx:63-65 | a confirmation that differs from the password is an error on either tab, whatever else the form holds |
| RegisterForm.CustomerIgnoresBusinessFields | ECOMMERCE-FRONTEND-REACT/src/components/auth/Register.jsx:76-86 | on the customer tab the business fields never affect validation |
| RegisterForm.Payload | ECOMMERCE-FRONTEND-REACT/src/components/auth/Register.jsx:103-124 | the customer payload carries the seven user fields as typed; the seller payload adds the three business fields |
| RegisterForm.PayloadIgnoresConfirmation | ECOMMERCE-FRONTEND-REACT/src/components/auth/Register.jsx:103-124 | the confirmation is never sent: the payload does not depend on it |
| RegisterForm.RegisterPage.constructor | ECOMMERCE-FRONTEND-REACT/src/components/auth/Register.jsx:10-26 | the form starts empty, without errors, on the customer tab and not loading |
| RegisterForm.RegisterPage.HandleInputChange | ECOMMERCE-FRONTEND-REACT/src/components/auth/Register.jsx:28-41 | the field takes the value; a shown error on that field is blanked and every other error is kept |
| RegisterForm.RegisterPage.SelectTab | ECOMMERCE-FRONTEND-REACT/src/components/auth/Register.jsx:149 | only the active tab changes |
| RegisterForm.RegisterPage.ValidateForm | ECOMMERCE-FRONTEND-REACT/src/components/auth/Register.jsx:43-90 | the errors become the form's error map and the result is true exactly when the form is acceptable |
| RegisterForm.RegisterPage.HandleSubmit | ECOMMERCE-FRONTEND-REACT/src/components/auth/Register.jsx:92-134 | an invalid form makes no call; a valid one calls the tab's registration with its payload; only a successful reply leads to the login page; loading ends either way |
| BackendAccounts.FindAccount | ECOMMERCE-BACKEND-SPRINGBOOT/src/main/java/com/ecommerce/klu/service/SellerService.java:20-22 | the position of the first row with the id, or none exactly when no row has it |
| BackendAccounts.FindAccountAt | ECOMMERCE-BACKEND-SPRINGBOOT/src/main/java/com/ecommerce/klu/service/SellerService.java:20-22 | the first row carrying the id is the one found |
| BackendAccounts.AccountById | ECOMMERCE-BACKEND-SPRINGBOOT/src/main/java/com/ecommerce/klu/service/SellerService.java:20-22 | `findById`: a row of the table with that id, or none exactly when no row has it |
| BackendAccounts.EmailTaken | ECOMMERCE-BACKEND-SPRINGBOOT/src/main/java/com/ecommerce/klu/repository/UserRepository.java:14 | `existsByEmail`: true exactly when some row has that e-mail |
| BackendAccounts.UsernameTaken | ECOMMERCE-BACKEND-SPRINGBOOT/src/main/java/com/ecommerce/klu/repository/UserRepository.java:13 | `existsByUsername`: true exactly when some row has that username |
| BackendAccounts.Credentials | ECOMMERCE-BACKEND-SPRINGBOOT/src/main/java/com/ecommerce/klu/repository/UserRepository.java:12 | exactly the rows with that e-mail and password, which have distinct ids when the table does |
| BackendAccounts.LoginMatch | ECOMMERCE-BACKEND-SPRINGBOOT/src/main/java/com/ecommerce/klu/service/SellerService.java:32-34 | no matching row is an empty result, one is that row, and more than one makes the query throw; a returned row has the e-mail and password asked for |
| BackendAccounts.SavedEffect | ECOMMERCE-BACKEND-SPRINGBOOT/src/main/java/com/ecommerce/klu/service/SellerService.java:36-47 | after `save` the saved row is what `findById` returns for its id, every other row is kept, and ids stay distinct and below the next identity value |
| BackendAccounts.SavedReplaces | ECOMMERCE-BACKEND-SPRINGBOOT/src/main/java/com/ecommerce/klu/service/SellerService.java:45-47 | saving an account whose id is in the table replaces that row and keeps the others |
| BackendAccounts.ReplacedWellFormed | ECOMMERCE-BACKEND-SPRINGBOOT/src/main/java/com/ecommerce/klu/service/SellerService.java:45-47 | replacing a row by one with the same id keeps the ids distinct |
| BackendAccounts.SavedAppends | ECOMMERCE-BACKEND-SPRINGBOOT/src/main/java/com/ecommerce/klu/service/SellerService.java:41-43 | saving an account with an unknown id inserts it under the next identity value |
| BackendAccounts.LoginFindsSaved | ECOMMERCE-BACKEND-SPRINGBOOT/src/main/java/com/ecommerce/klu/service/SellerService.java:32-43 | once an account is saved with an e-mail no other row has, logging in with its e-mail and password finds exactly that row |
| BackendAccounts.WithoutAccount | ECOMMERCE-BACKEND-SPRINGBOOT/src/main/java/com/ecommerce/klu/service/SellerService.java:49-51 | `deleteById` keeps exactly the rows with other ids |
| BackendAccounts.AccountService.constructor | ECOMMERCE-BACKEND-SPRINGBOOT/src/main/java/com/ecommerce/klu/repository/UserRepository.java:9 | the table starts empty |
| BackendAccounts.AccountService.ExistsByEmail | ECOMMERCE-BACKEND-SPRINGBOOT/src/main/java/com/ecommerce/klu/service/SellerService.java:57-59 | true exactly when some row has that e-mail |
| BackendAccounts.AccountService.ExistsByUsername | ECOMMERCE-BACKEND-SPRINGBOOT/src/main/java/com/ecommerce/klu/service/SellerService.java:53-55 | true exactly when some row has that username |
| BackendAccounts.AccountService.GetById | ECOMMERCE-BACKEND-SPRINGBOOT/src/main/java/com/ecommerce/klu/service/SellerService.java:20-22 | a row with that id, or none exactly when no row has it |
| BackendAccounts.AccountService.Login | ECOMMERCE-BACKEND-SPRINGBOOT/src/main/java/com/ecommerce/klu/service/SellerService.java:32-34 | the query's outcome: none, the one matching row, or a throw when several match |
| BackendAccounts.AccountService.Save | ECOMMERCE-BACKEND-SPRINGBOOT/src/main/java/com/ecommerce/klu/service/SellerService.java:41-47 | the table becomes the saved table, the saved row is returned, and the identity value advances only on an insert |
| BackendAccounts.AccountService.DeleteById | ECOMMERCE-BACKEND-SPRINGBOOT/src/main/java/com/ecommerce/klu/service/SellerService.java:49-51 | exactly the row with the id is dropped; a missing id changes nothing |
| AuthReplies.CheckUnique | ECOMMERCE-BACKEND-SPRINGBOOT/src/main/java/com/ecommerce/klu/controller/UserController.java:25-35 | which check stops `register`: a taken e-mail first, even when the username is taken too; a taken username only when the e-mail is free; else none |
| AuthReplies.Refusal | ECOMMERCE-BACKEND-SPRINGBOOT/src/main/java/com/ecommerce/klu/controller/UserController.java:25-35 | the 400 body: success false and "Email already exists" or "Username already exists" |
| AuthReplies.LoginReply | ECOMMERCE-BACKEND-SPRINGBOOT/src/main/java/com/ecommerce/klu/controller/UserController.java:53-67 | 200 with the account exactly when the query finds one; 400 with "Invalid email or password" exactly when it finds none; a server error when it throws |
| AuthReplies.LoginReplyOnTable | ECOMMERCE-BACKEND-SPRINGBOOT/src/main/java/com/ecommerce/klu/controller/UserController.java:45-68 | login succeeds exactly when one row has that e-mail and password, and returns that row; it refuses exactly when no row does |
| AuthReplies.Register | ECOMMERCE-BACKEND-SPRINGBOOT/src/main/java/com/ecommerce/klu/controller/UserController.java:21-43 | a refused registration stores nothing and names the first failed check; otherwise the account is saved and returned with success true and the controller's message |
| AuthReplies.Login | ECOMMERCE-BACKEND-SPRINGBOOT/src/main/java/com/ecommerce/klu/controller/SellerController.java:45-68 | succeeds exactly when one row matches, with success true, "Login successful" and that row; refuses with "Invalid email or password" exactly when none does |
| AuthReplies.GetById | ECOMMERCE-BACKEND-SPRINGBOOT/src/main/java/com/ecommerce/klu/controller/SellerController.java:80-84 | the row with the id, or 404 exactly when there is none |
| AuthReplies.Update | ECOMMERCE-BACKEND-SPRINGBOOT/src/main/java/com/ecommerce/klu/controller/UserController.java:81-90 | a missing account is 404 and changes nothing; otherwise the body, with its id forced to the path id, is saved over the row and returned |
| AuthReplies.UpdateEffect | ECOMMERCE-BACKEND-SPRINGBOOT/src/main/java/com/ecommerce/klu/controller/SellerController.java:86-95 | after an update the row with the path id is the body and every other account is kept |
| UserController.Register | ECOMMERCE-BACKEND-SPRINGBOOT/src/main/java/com/ecommerce/klu/controller/UserController.java:21-43 | e-mail checked before username; a refusal stores nothing; success stores the user and answers "User registered successfully" with it |
| UserController.BindUserAsWritten | ECOMMERCE-BACKEND-SPRINGBOOT/src/main/java/com/ecommerce/klu/model/User.java:18-19 | the bound user has no password and otherwise equals the body sent |
| UserController.RegisteredUserCannotLogInAsWritten | ECOMMERCE-BACKEND-SPRINGBOOT/src/main/java/com/ecommerce/klu/model/User.java:18-19 | as written, a user who registers with a password is stored without it, and logging in with that password is refused |
| UserController.RegisterThenLogin | ECOMMERCE-BACKEND-SPRINGBOOT/src/main/java/com/ecommerce/klu/controller/UserController.java:37-67 | with the password kept, a registered user logs in with the e-mail and password sent and gets the stored row back |
| SellerController.Register | ECOMMERCE-BACKEND-SPRINGBOOT/src/main/java/com/ecommerce/klu/controller/SellerController.java:21-43 | e-mail checked before username; a refusal stores nothing; success stores the seller with role "SELLER", whatever role was sent, and answers "Seller registered successfully" |
| SellerController.RegisteredSellerLogsIn | ECOMMERCE-BACKEND-SPRINGBOOT/src/main/java/com/ecommerce/klu/service/SellerService.java:32-39 | a registered seller logs in with the e-mail and password sent and holds the "SELLER" role |
| AdminController.Register | ECOMMERCE-BACKEND-SPRINGBOOT/src/main/java/com/ecommerce/klu/controller/AdminController.java:41-63 | e-mail checked before username; a refusal stores nothing; success stores the admin with role "ADMIN" and answers "Admin registered successfully" |
| AdminController.CreateSeller | ECOMMERCE-BACKEND-SPRINGBOOT/src/main/java/com/ecommerce/klu/controller/AdminController.java:106-116 | a taken e-mail or username is a 400 with no body that stores nothing; otherwise the seller is saved as given, role included, and returned |
| AdminController.UpdateOrderStatus | ECOMMERCE-BACKEND-SPRINGBOOT/src/main/java/com/ecommerce/klu/controller/AdminController.java:136-143 | a missing order is 404 and changes nothing; otherwise the order gets the status and is returned |
| BackendCart.OfUser | ECOMMERCE-BACKEND-SPRINGBOOT/src/main/java/com/ecommerce/klu/repository/CartItemRepository.java:13 | `findByUser`: exactly the user's rows |
| BackendCart.WithoutUser | ECOMMERCE-BACKEND-SPRINGBOOT/src/main/java/com/ecommerce/klu/repository/CartItemRepository.java:15 | `deleteByUser` keeps exactly the rows of other users |
| BackendCart.WithoutId | ECOMMERCE-BACKEND-SPRINGBOOT/src/main/java/com/ecommerce/klu/service/CartService.java:50-52 | `deleteById` keeps exactly the rows with other ids |
| BackendCart.FindLine | ECOMMERCE-BACKEND-SPRINGBOOT/src/main/java/com/ecommerce/klu/repository/CartItemRepository.java:14 | `findByUserAndProduct`: the first row for that user and product, or none exactly when there is no such row |
| BackendCart.FindId | ECOMMERCE-BACKEND-SPRINGBOOT/src/main/java/com/ecommerce/klu/service/CartService.java:41 | `findById`: a row with the id, or none exactly when no row has it |
| BackendCart.AddedWellFormed | ECOMMERCE-BACKEND-SPRINGBOOT/src/main/java/com/ecommerce/klu/service/CartService.java:24-38 | adding keeps ids distinct and at most one row per user and product; the identity value moves only on an insert |
| BackendCart.AddedLine | ECOMMERCE-BACKEND-SPRINGBOOT/src/main/java/com/ecommerce/klu/service/CartService.java:24-38 | after an add the user has a row for the product with the merged quantity, keeping the old row's id when there was one; every other row is as it was; the table grows only on an insert |
| BackendCart.UpdatedLine | ECOMMERCE-BACKEND-SPRINGBOOT/src/main/java/com/ecommerce/klu/service/CartService.java:40-48 | on a known id that row takes exactly the quantity and keeps id, user and product; other rows are as they were; an unknown id changes nothing |
| BackendCart.UpdatedWellFormed | ECOMMERCE-BACKEND-SPRINGBOOT/src/main/java/com/ecommerce/klu/service/CartService.java:40-48 | updating a quantity keeps the table's invariant |
| BackendCart.FilteredWellFormed | ECOMMERCE-BACKEND-SPRINGBOOT/src/main/java/com/ecommerce/klu/service/CartService.java:50-56 | deleting rows keeps the table's invariant |
| BackendCart.ClearedCarts | ECOMMERCE-BACKEND-SPRINGBOOT/src/main/java/com/ecommerce/klu/service/CartService.java:54-56 | after `clearCart` the user's cart is empty and every other user's cart is exactly as it was, order included |
| BackendCart.UserLinesDistinctProducts | ECOMMERCE-BACKEND-SPRINGBOOT/src/main/java/com/ecommerce/klu/service/CartService.java:25-37 | a user's rows name pairwise different products |
| BackendCart.CartService.constructor | ECOMMERCE-BACKEND-SPRINGBOOT/src/main/java/com/ecommerce/klu/repository/CartItemRepository.java:12 | the table starts empty |
| BackendCart.CartService.GetCartItemsByUser | ECOMMERCE-BACKEND-SPRINGBOOT/src/main/java/com/ecommerce/klu/service/CartService.java:20-22 | exactly the user's rows |
| BackendCart.CartService.AddToCart | ECOMMERCE-BACKEND-SPRINGBOOT/src/main/java/com/ecommerce/klu/service/CartService.java:24-38 | an existing row's quantity is raised by the amount (Java `Integer` addition) and the same row is returned; otherwise a row with exactly that quantity is inserted; no bound on the quantity; the invariant is kept |
| BackendCart.CartService.UpdateCartItem | ECOMMERCE-BACKEND-SPRINGBOOT/src/main/java/com/ecommerce/klu/service/CartService.java:40-48 | a known row takes the quantity and is returned; an unknown id returns null and changes nothing; no bound on the quantity |
| BackendCart.CartService.RemoveFromCart | ECOMMERCE-BACKEND-SPRINGBOOT/src/main/java/com/ecommerce/klu/service/CartService.java:50-52 | only the row with that id is deleted |
| BackendCart.CartService.ClearCart | ECOMMERCE-BACKEND-SPRINGBOOT/src/main/java/com/ecommerce/klu/service/CartService.java:54-56 | every row of the user and no other row is deleted |
| CartController.SellerName | ECOMMERCE-BACKEND-SPRINGBOOT/src/main/java/com/ecommerce/klu/controller/CartController.java:57 | "first last" as Java's `+` writes it (null parts as "null"), or null without a seller |
| CartController.LineDto | ECOMMERCE-BACKEND-SPRINGBOOT/src/main/java/com/ecommerce/klu/controller/CartController.java:44-60 | the DTO's id and quantity come from the line, name, price and stock from the product's current row, seller name and business name from its seller; no DTO when the product row is gone |
| CartController.LineDtos | ECOMMERCE-BACKEND-SPRINGBOOT/src/main/java/com/ecommerce/klu/controller/CartController.java:37-40 | one DTO per line, in the lines' order, or a failure when any line fails |
| CartController.CartReply | ECOMMERCE-BACKEND-SPRINGBOOT/src/main/java/com/ecommerce/klu/controller/CartController.java:31-42 | 404 exactly for an unknown user; otherwise one DTO per line of the user, in table order, with the line's id, product and quantity |
| CartController.GetCartItems | ECOMMERCE-BACKEND-SPRINGBOOT/src/main/java/com/ecommerce/klu/controller/CartController.java:31-42 | 404 exactly when the user does not exist |
| CartController.AddToCart | ECOMMERCE-BACKEND-SPRINGBOOT/src/main/java/com/ecommerce/klu/controller/CartController.java:62-75 | a 400 with no body that adds nothing unless both the user and the product exist; otherwise the line is merged or inserted and returned with the merged quantity and the product's price |
| CartController.UpdateCartItem | ECOMMERCE-BACKEND-SPRINGBOOT/src/main/java/com/ecommerce/klu/controller/CartController.java:77-86 | 404 exactly when the service finds no line; otherwise the updated line, with the quantity given |
| CartController.RemoveFromCart | ECOMMERCE-BACKEND-SPRINGBOOT/src/main/java/com/ecommerce/klu/controller/CartController.java:88-92 | always 204; only the line with that id is deleted |
| CartController.ClearCart | ECOMMERCE-BACKEND-SPRINGBOOT/src/main/java/com/ecommerce/klu/controller/CartController.java:94-102 | 404 and no change for an unknown user; otherwise 204 and the user's lines are deleted |
| CartController.ClearedCartReadsEmpty | ECOMMERCE-BACKEND-SPRINGBOOT/src/main/java/com/ecommerce/klu/controller/CartController.java:31-102 | after `clearCart` the user's cart reads back empty and every other user's cart reads as before |
| CartController.AddedLineReadsBack | ECOMMERCE-BACKEND-SPRINGBOOT/src/main/java/com/ecommerce/klu/controller/CartController.java:31-75 | after `addToCart` the user's cart, when it reads back, lists the product with the merged quantity |
| BackendProducts.FindProduct | ECOMMERCE-BACKEND-SPRINGBOOT/src/main/java/com/ecommerce/klu/service/ProductService.java:22-24 | the position of the first product with the id, or none exactly when no product has it |
| BackendProducts.ProductById | ECOMMERCE-BACKEND-SPRINGBOOT/src/main/java/com/ecommerce/klu/service/ProductService.java:22-24 | `findById`: a product with the id, or none exactly when no product has it |
| BackendProducts.WithoutProduct | ECOMMERCE-BACKEND-SPRINGBOOT/src/main/java/com/ecommerce/klu/service/ProductService.java:55-57 | `deleteById` keeps exactly the products with other ids |
| BackendProducts.Available | ECOMMERCE-BACKEND-SPRINGBOOT/src/main/java/com/ecommerce/klu/service/ProductService.java:42-44 | exactly the products with stock above zero |
| BackendProducts.NameSearch | ECOMMERCE-BACKEND-SPRINGBOOT/src/main/java/com/ecommerce/klu/service/ProductService.java:38-40 | exactly the products whose name contains the keyword, ignoring case |
| BackendProducts.InCategory | ECOMMERCE-BACKEND-SPRINGBOOT/src/main/java/com/ecommerce/klu/service/ProductService.java:26-28 | exactly the products of that category |
| BackendProducts.OfBrand | ECOMMERCE-BACKEND-SPRINGBOOT/src/main/java/com/ecommerce/klu/service/ProductService.java:30-32 | exactly the products of that brand |
| BackendProducts.OfSeller | ECOMMERCE-BACKEND-SPRINGBOOT/src/main/java/com/ecommerce/klu/service/ProductService.java:34-36 | exactly the products whose seller row has that id |
| BackendProducts.StockUpdatedEffect | ECOMMERCE-BACKEND-SPRINGBOOT/src/main/java/com/ecommerce/klu/service/ProductService.java:59-66 | the targeted product's stock drops by exactly the quantity, with no floor at zero; no other product changes; an unknown id changes nothing |
| BackendProducts.StockCanGoNegative | ECOMMERCE-BACKEND-SPRINGBOOT/src/main/java/com/ecommerce/klu/service/ProductService.java:63 | ordering 5 of a product with 2 in stock leaves -3 |
| BackendProducts.ProductByIdAfterStockUpdate | ECOMMERCE-BACKEND-SPRINGBOOT/src/main/java/com/ecommerce/klu/service/ProductService.java:59-66 | a stock update changes what `findById` returns only for the targeted id, and only in its stock |
| BackendProducts.StockUpdatedWellFormed | ECOMMERCE-BACKEND-SPRINGBOOT/src/main/java/com/ecommerce/klu/service/ProductService.java:59-66 | a stock update keeps the table's invariant |
| BackendProducts.SavedEffect | ECOMMERCE-BACKEND-SPRINGBOOT/src/main/java/com/ecommerce/klu/service/ProductService.java:46-53 | after `save` the saved row is what `findById` returns for its id, every product with another id is kept, and the invariant holds |
| BackendProducts.FindProductAt | ECOMMERCE-BACKEND-SPRINGBOOT/src/main/java/com/ecommerce/klu/service/ProductService.java:22-24 | the first row carrying the id is the one found |
| BackendProducts.SavedReplaces | ECOMMERCE-BACKEND-SPRINGBOOT/src/main/java/com/ecommerce/klu/service/ProductService.java:50-53 | saving a product whose id is in the table replaces exactly that row |
| BackendProducts.SavedAppends | ECOMMERCE-BACKEND-SPRINGBOOT/src/main/java/com/ecommerce/klu/service/ProductService.java:46-48 | saving a product with an unknown id appends it under the next identity value |
| BackendProducts.WithoutProductWellFormed | ECOMMERCE-BACKEND-SPRINGBOOT/src/main/java/com/ecommerce/klu/service/ProductService.java:55-57 | deleting keeps the table's invariant |
| BackendProducts.ProductService.constructor | ECOMMERCE-BACKEND-SPRINGBOOT/src/main/java/com/ecommerce/klu/repository/ProductRepository.java:10 | the table starts empty |
| BackendProducts.ProductService.GetProductById | ECOMMERCE-BACKEND-SPRINGBOOT/src/main/java/com/ecommerce/klu/service/ProductService.java:22-24 | a product with the id, or none exactly when there is none |
| BackendProducts.ProductService.GetAvailableProducts | ECOMMERCE-BACKEND-SPRINGBOOT/src/main/java/com/ecommerce/klu/service/ProductService.java:42-44 | exactly the products with stock above zero |
| BackendProducts.ProductService.SearchProducts | ECOMMERCE-BACKEND-SPRINGBOOT/src/main/java/com/ecommerce/klu/service/ProductService.java:38-40 | exactly the products whose name contains the keyword, ignoring case |
| BackendProducts.ProductService.UpdateStock | ECOMMERCE-BACKEND-SPRINGBOOT/src/main/java/com/ecommerce/klu/service/ProductService.java:59-66 | the table becomes the stock-updated table (Java `Integer` subtraction) and keeps its invariant |
| BackendProducts.ProductService.Save | ECOMMERCE-BACKEND-SPRINGBOOT/src/main/java/com/ecommerce/klu/service/ProductService.java:46-53 | the table becomes the saved table, the saved row is returned, and the identity value advances only on an insert |
| BackendProducts.ProductService.DeleteProduct | ECOMMERCE-BACKEND-SPRINGBOOT/src/main/java/com/ecommerce/klu/service/ProductService.java:55-57 | exactly the product with the id is dropped |
| ProductController.GetProductById | ECOMMERCE-BACKEND-SPRINGBOOT/src/main/java/com/ecommerce/klu/controller/ProductController.java:29-33 | the stored product with the id, or 404 exactly when there is none |
| ProductController.GetProductsBySeller | ECOMMERCE-BACKEND-SPRINGBOOT/src/main/java/com/ecommerce/klu/controller/ProductController.java:45-52 | 404 exactly for an unknown seller; otherwise exactly that seller's products |
| ProductController.CreateProduct | ECOMMERCE-BACKEND-SPRINGBOOT/src/main/java/com/ecommerce/klu/controller/ProductController.java:64-79 | an unknown seller is a 400 with no body that stores nothing; otherwise the seller row is attached and the product saved and returned |
| ProductController.CreatedProductListed | ECOMMERCE-BACKEND-SPRINGBOOT/src/main/java/com/ecommerce/klu/controller/ProductController.java:45-79 | a created product is listed among its seller's products |
| ProductController.UpdateProduct | ECOMMERCE-BACKEND-SPRINGBOOT/src/main/java/com/ecommerce/klu/controller/ProductController.java:81-91 | a missing product is 404 and changes nothing; otherwise the body is saved under the path id with the stored product's seller |
| ProductController.UpdateKeepsOwner | ECOMMERCE-BACKEND-SPRINGBOOT/src/main/java/com/ecommerce/klu/controller/ProductController.java:81-88 | an update never changes ownership: the product with the path id is the body with the old seller and every other product is kept |
| ProductController.DeleteProduct | ECOMMERCE-BACKEND-SPRINGBOOT/src/main/java/com/ecommerce/klu/controller/ProductController.java:93-97 | always 204; exactly the product with the id is dropped |
| BackendOrders.OrderLinesShape | ECOMMERCE-BACKEND-SPRINGBOOT/src/main/java/com/ecommerce/klu/service/OrderService.java:94-102 | one order item per cart row, in cart order, with the row's product and quantity, the product's price at ordering time, and consecutive ids |
| BackendOrders.LinesTotalIsItemsTotal | ECOMMERCE-BACKEND-SPRINGBOOT/src/main/java/com/ecommerce/klu/service/OrderService.java:104-111 | the order's total is Σ price × quantity over the items it was given, 0 for an empty cart |
| BackendOrders.StockAfterKeepsPrices | ECOMMERCE-BACKEND-SPRINGBOOT/src/main/java/com/ecommerce/klu/service/OrderService.java:108 | stock updates keep every product's presence and price, so later rows see the same prices |
| BackendOrders.StockUpdatedAt | ECOMMERCE-BACKEND-SPRINGBOOT/src/main/java/com/ecommerce/klu/service/OrderService.java:108 | one `updateStock` changes exactly the row with that id |
| BackendOrders.StockStepAt | ECOMMERCE-BACKEND-SPRINGBOOT/src/main/java/com/ecommerce/klu/service/OrderService.java:108 | one more `updateStock` keeps a row's stock equal to the Java `Integer` wrap of its old stock minus what has been ordered of it |
| BackendOrders.StockLoweredStep | ECOMMERCE-BACKEND-SPRINGBOOT/src/main/java/com/ecommerce/klu/service/OrderService.java:94-109 | one more loop step keeps every product's stock at its old stock minus the quantity ordered so far |
| BackendOrders.StockAfterEffect | ECOMMERCE-BACKEND-SPRINGBOOT/src/main/java/com/ecommerce/klu/service/OrderService.java:94-109 | after the loop each product's stock is its old stock minus the total quantity ordered of it, and nothing else about any product has changed |
| BackendOrders.Extend | ECOMMERCE-BACKEND-SPRINGBOOT/src/main/java/com/ecommerce/klu/service/OrderService.java:94-109 | one more cart row extends the items, the total and the stock updates by exactly that row |
| BackendOrders.OrderedQuantityOfDistinct | ECOMMERCE-BACKEND-SPRINGBOOT/src/main/java/com/ecommerce/klu/service/OrderService.java:94-109 | when each product is in at most one row, its ordered quantity is that row's quantity |
| BackendOrders.OrderedQuantityAbsent | ECOMMERCE-BACKEND-SPRINGBOOT/src/main/java/com/ecommerce/klu/service/OrderService.java:94-109 | a product in no row has an ordered quantity of zero |
| BackendOrders.FindOrder | ECOMMERCE-BACKEND-SPRINGBOOT/src/main/java/com/ecommerce/klu/service/OrderService.java:126 | the position of the first order with the id, or none exactly when no order has it |
| BackendOrders.OrderById | ECOMMERCE-BACKEND-SPRINGBOOT/src/main/java/com/ecommerce/klu/service/OrderService.java:42-44 | `findById`: an order with the id, or none exactly when no order has it |
| BackendOrders.StatusSetEffect | ECOMMERCE-BACKEND-SPRINGBOOT/src/main/java/com/ecommerce/klu/service/OrderService.java:125-133 | any status string is stored on the order with that id, with no transition check, and nothing else changes; a missing order changes nothing |
| BackendOrders.NewerOrSameTotalPreorder | ECOMMERCE-BACKEND-SPRINGBOOT/src/main/java/com/ecommerce/klu/repository/OrderRepository.java:15 | ordering by date, newest first, is total and transitive |
| BackendOrders.OrdersOfUserSorted | ECOMMERCE-BACKEND-SPRINGBOOT/src/main/java/com/ecommerce/klu/repository/OrderRepository.java:15 | the user's orders come back newest first, each exactly once, and only the user's |
| BackendOrders.OrdersOfSellerSorted | ECOMMERCE-BACKEND-SPRINGBOOT/src/main/java/com/ecommerce/klu/repository/OrderRepository.java:17-18 | the seller's orders come back newest first, each once, exactly those holding one of the seller's products |
| BackendOrders.OrdersWithStatus | ECOMMERCE-BACKEND-SPRINGBOOT/src/main/java/com/ecommerce/klu/repository/OrderRepository.java:14 | exactly the orders with that status |
| BackendOrders.ItemDto | ECOMMERCE-BACKEND-SPRINGBOOT/src/main/java/com/ecommerce/klu/service/OrderService.java:169-188 | `price` is the snapshot stored on the item and `productPrice` the product's current price; a missing product or seller makes the conversion fail |
| BackendOrders.ItemDtos | ECOMMERCE-BACKEND-SPRINGBOOT/src/main/java/com/ecommerce/klu/service/OrderService.java:147-149 | one item DTO per item, in item order, or a failure when any conversion fails |
| BackendOrders.OrderDtoOf | ECOMMERCE-BACKEND-SPRINGBOOT/src/main/java/com/ecommerce/klu/service/OrderService.java:144-167 | a null item list becomes the empty list; otherwise the item DTOs in order; id, user, status, total and date are the order's |
| BackendOrders.OrderDtos | ECOMMERCE-BACKEND-SPRINGBOOT/src/main/java/com/ecommerce/klu/service/OrderService.java:36-40 | one DTO per order, in order, or a failure when any conversion fails |
| BackendOrders.OrderService.constructor | ECOMMERCE-BACKEND-SPRINGBOOT/src/main/java/com/ecommerce/klu/service/OrderService.java:23-30 | the order table starts empty, over the given cart and product services |
| BackendOrders.OrderService.GetOrderById | ECOMMERCE-BACKEND-SPRINGBOOT/src/main/java/com/ecommerce/klu/service/OrderService.java:42-44 | an order with the id, or none exactly when there is none |
| BackendOrders.OrderService.PlaceItems | ECOMMERCE-BACKEND-SPRINGBOOT/src/main/java/com/ecommerce/klu/service/OrderService.java:89-109 | the loop makes the items and the running total of the cart rows and lowers each product's stock by its row |
| BackendOrders.OrderService.CreateOrder | ECOMMERCE-BACKEND-SPRINGBOOT/src/main/java/com/ecommerce/klu/service/OrderService.java:81-116 | the new order carries one item per cart row, the total Σ price × quantity and the new stocks; the user's cart, and no other, is emptied; the order is appended to the table |
| BackendOrders.OrderService.UpdateOrderStatus | ECOMMERCE-BACKEND-SPRINGBOOT/src/main/java/com/ecommerce/klu/service/OrderService.java:125-133 | null and no change for a missing order; otherwise the order gets the status, with no transition check, and is returned |
| BackendOrders.OrderService.DeleteOrder | ECOMMERCE-BACKEND-SPRINGBOOT/src/main/java/com/ecommerce/klu/service/OrderService.java:140-142 | exactly the orders with other ids are kept |
| BackendOrders.StockAfterDistinct | ECOMMERCE-BACKEND-SPRINGBOOT/src/main/java/com/ecommerce/klu/service/OrderService.java:94-109 | when each product is in at most one row, each product's stock drops by its row's quantity and a product without a row is unchanged |
| BackendOrders.CreateOrderStock | ECOMMERCE-BACKEND-SPRINGBOOT/src/main/java/com/ecommerce/klu/service/OrderService.java:81-116 | placing an order takes each product's stock down by its single row in the user's cart, and leaves products not in the cart as they were |
| OrderController.ListReply | ECOMMERCE-BACKEND-SPRINGBOOT/src/main/java/com/ecommerce/klu/service/OrderService.java:36-40 | 200 with one DTO per order, in order, unless a conversion fails |
| OrderController.ListReplyNewestFirst | ECOMMERCE-BACKEND-SPRINGBOOT/src/main/java/com/ecommerce/klu/service/OrderService.java:54-58 | converting a newest-first list keeps it newest first |
| OrderController.GetAllOrders | ECOMMERCE-BACKEND-SPRINGBOOT/src/main/java/com/ecommerce/klu/controller/OrderController.java:25-28 | every order, in table order |
| OrderController.GetOrderById | ECOMMERCE-BACKEND-SPRINGBOOT/src/main/java/com/ecommerce/klu/controller/OrderController.java:30-34 | 404 exactly when no order has the id; otherwise that order's DTO |
| OrderController.UserOrdersListed | ECOMMERCE-BACKEND-SPRINGBOOT/src/main/java/com/ecommerce/klu/service/OrderService.java:50-58 | the list of a user's orders is newest first and holds only the user's orders |
| OrderController.GetOrdersByUser | ECOMMERCE-BACKEND-SPRINGBOOT/src/main/java/com/ecommerce/klu/controller/OrderController.java:36-43 | 404 exactly for an unknown user; otherwise that user's orders, all of them the user's, newest first |
| OrderController.GetOrdersByStatus | ECOMMERCE-BACKEND-SPRINGBOOT/src/main/java/com/ecommerce/klu/controller/OrderController.java:45-48 | the orders with exactly that status |
| OrderController.SellerOrdersListed | ECOMMERCE-BACKEND-SPRINGBOOT/src/main/java/com/ecommerce/klu/service/OrderService.java:70-78 | the list of a seller's orders is newest first and each holds one of the seller's products |
| OrderController.GetOrdersBySeller | ECOMMERCE-BACKEND-SPRINGBOOT/src/main/java/com/ecommerce/klu/controller/OrderController.java:50-53 | the orders holding one of the seller's products, newest first |
| OrderController.CreateOrder | ECOMMERCE-BACKEND-SPRINGBOOT/src/main/java/com/ecommerce/klu/controller/OrderController.java:55-65 | an unknown user is a 400 with no body and nothing changes; otherwise one order is appended, the user's cart is emptied, stocks drop, and the reply carries the new id, the user and the total |
| OrderController.UpdateOrderStatus | ECOMMERCE-BACKEND-SPRINGBOOT/src/main/java/com/ecommerce/klu/controller/OrderController.java:67-74 | 404 exactly for a missing order; otherwise the status is set and the order returned with it |
| OrderController.DeleteOrder | ECOMMERCE-BACKEND-SPRINGBOOT/src/main/java/com/ecommerce/klu/controller/OrderController.java:76-80 | always 204; exactly the orders with other ids are kept |
| Int32.Wrap | ECOMMERCE-BACKEND-SPRINGBOOT/src/main/java/com/ecommerce/klu/service/CartService.java:29 | Java's 32-bit result: always in range, congruent to the exact result, and equal to it when that fits |
| Int32.Add | ECOMMERCE-BACKEND-SPRINGBOOT/src/main/java/com/ecommerce/klu/service/CartService.java:29 | Java `Integer` addition: in range, and the exact sum whenever that fits |
| Int32.Sub | ECOMMERCE-BACKEND-SPRINGBOOT/src/main/java/com/ecommerce/klu/service/ProductService.java:63 | Java `Integer` subtraction: in range, and the exact difference whenever that fits |
| Int32.SubOfWrap | ECOMMERCE-BACKEND-SPRINGBOOT/src/main/java/com/ecommerce/klu/service/OrderService.java:108 | two wrapped subtractions in a row give the wrap of the exact total difference |
| Entities.JavaString | ECOMMERCE-BACKEND-SPRINGBOOT/src/main/java/com/ecommerce/klu/controller/CartController.java:57 | a string operand of Java's `+` as written: the value, or "null" for a null |
| JsText.TrimStart | ECOMMERCE-FRONTEND-REACT/src/pages/Checkout.jsx:44 | a suffix of the input that starts with no white space, having dropped only white space |
| JsText.TrimEnd | ECOMMERCE-FRONTEND-REACT/src/pages/Checkout.jsx:44 | a prefix of the input that ends with no white space, having dropped only white space |
| JsText.TrimEmptyIffBlank | ECOMMERCE-FRONTEND-REACT/src/pages/Checkout.jsx:44 | `trim()` is empty exactly when the string is empty or all white space |
| JsText.TrimHasNoOuterSpace | ECOMMERCE-FRONTEND-REACT/src/pages/Checkout.jsx:44 | a non-empty trimmed string neither starts nor ends with white space |
| JsText.RemoveSpaces | ECOMMERCE-FRONTEND-REACT/src/pages/Checkout.jsx:51 | no longer than the input and free of white space |
| JsText.RemoveSpacesOfSpaceFree | ECOMMERCE-FRONTEND-REACT/src/pages/Checkout.jsx:51 | a string without white space is unchanged |
| JsText.RemoveSpacesAppend | ECOMMERCE-FRONTEND-REACT/src/pages/Checkout.jsx:51 | removing white space distributes over concatenation |
| JsText.OnlyDigits | ECOMMERCE-FRONTEND-REACT/src/pages/Checkout.jsx:144 | no longer than the input and made of digits only |
| JsText.OnlyDigitsOfDigits | ECOMMERCE-FRONTEND-REACT/src/pages/Checkout.jsx:144 | a string of digits is unchanged |
| JsText.OnlyDigitsIgnoresSpaces | ECOMMERCE-FRONTEND-REACT/src/pages/Checkout.jsx:144 | removing white space first does not change which digits remain |
| JsText.ToLower | ECOMMERCE-FRONTEND-REACT/src/pages/Products.jsx:37 | the same length, each character lower-cased |
| JsText.ContainsEmpty | ECOMMERCE-FRONTEND-REACT/src/pages/Products.jsx:37 | every string includes the empty string |
| JsText.StrLessIrreflexive | ECOMMERCE-FRONTEND-REACT/src/pages/Products.jsx:57-61 | no string is less than itself |
| JsText.StrLessTransitive | ECOMMERCE-FRONTEND-REACT/src/pages/Products.jsx:57-61 | string order is transitive |
| JsText.StrLessTotal | ECOMMERCE-FRONTEND-REACT/src/pages/Products.jsx:57-61 | any two different strings are ordered one way or the other |
| JsText.LeadingDigits | ECOMMERCE-FRONTEND-REACT/src/components/cart/CartItem.jsx:90 | the longest prefix of digits |
| JsText.ParseInt | ECOMMERCE-FRONTEND-REACT/src/components/cart/CartItem.jsx:90 | NaN exactly when no digit follows the leading white space and sign |
| JsText.NatToString | ECOMMERCE-FRONTEND-REACT/src/components/cart/CartItem.jsx:89 | the decimal digits of the number, non-empty and without a leading zero |
| JsText.DigitsValueOfNatToString | ECOMMERCE-FRONTEND-REACT/src/components/cart/CartItem.jsx:89-90 | reading back the digits of a number gives the number |
| JsText.ParseIntOfNatToString | ECOMMERCE-FRONTEND-REACT/src/components/cart/CartItem.jsx:89-90 | parsing a number's digits, whatever follows them, gives the number |
| JsText.ParseIntNaN | ECOMMERCE-FRONTEND-REACT/src/components/cart/CartItem.jsx:90 | a string not starting with a digit after white space and sign parses to NaN |
| JsText.IntToString | ECOMMERCE-FRONTEND-REACT/src/components/cart/CartItem.jsx:89 | `String(n)`: the digits of `n`, with a minus sign when it is negative |
| Sorting.Insert | ECOMMERCE-FRONTEND-REACT/src/pages/Products.jsx:45-62 | a permutation of the list with the element added |
| Sorting.SortBy | ECOMMERCE-FRONTEND-REACT/src/pages/Products.jsx:45-62 | a permutation of the input |
| Sorting.InsertSorted | ECOMMERCE-FRONTEND-REACT/src/pages/Products.jsx:45-62 | inserting into a sorted list keeps it sorted |
| Sorting.SortBySorted | ECOMMERCE-FRONTEND-REACT/src/pages/Products.jsx:45-62 | sorting by a total preorder yields a permutation of the input ordered by it |
| Sorting.InsertKeepsTies | ECOMMERCE-FRONTEND-REACT/src/pages/Orders.jsx:25 | inserting an element after the elements it ties with keeps the relative order of every group of tied elements |
| Sorting.SortByStable | ECOMMERCE-FRONTEND-REACT/src/pages/Orders.jsx:25 | the sort is stable: the elements tied with any given one appear in the same order as in the input |

## Left out

- Toasts, `alert`, `window.confirm`, navigation, console logging and the server's `System.out` lines are side effects. Where a handler's branch depends on them, the model returns which one is taken; their text and timing are left out.
- Dates and locale formatting are left out: `toLocaleString`, `toFixed`, `toLocaleDateString`, `LocalDateTime.now()` and the `updatedAt` stamps. An order date is an integer timestamp, and the delivery estimate is a count of days.
- Floating point is left out. Prices are integer hundredths, so `parseFloat` of a price bound is a number, an empty text or NaN, and nothing in between.
- The discount badge of the catalogue (Products.jsx, the `Math.round` of the percentage off) and `getSortLabel` only format text, so they are not modelled.
- ProductsPage.VisibleIsSortedFilter: states that the list is a permutation of the kept products and is ordered by the key. It does not state the order of products with equal keys, because the comparator returns only 1 or -1 and the result then depends on the browser's sort algorithm.
- BackendOrders.OrdersOfUserSorted: the order of orders with the same date is not stated, because the database does not fix it.
- In-place sorts (`Array.prototype.sort`, JPA `ORDER BY`) are modelled as functions on sequences. The model does not capture the sorting in place or aliasing of the sorted array.
- The seller dashboard's refetch after a failed status update is not modelled. `toast` is not imported there, so the `catch` block throws before the refetch runs.
- The seller dashboard's product form (`handleSubmit`, `handleEdit` and `handleDelete`) is not modelled. It only forwards the form to the product endpoints, which are modelled on the server side.
- The stock badge of the seller dashboard's product rows only picks a colour and is not modelled; the catalogue's and the card's stock badges are.
- Concurrency, the order in which asynchronous replies arrive, React's batching of state updates and `@Transactional` rollback are left out. Each handler runs to completion with its gateway reply as a parameter.
- HTTP plumbing is left out: `api.js`, its interceptors and the service wrappers (`productService.js`, `cartService.js`, `orderService.js`, `sellerService.js`). The pages receive the decoded reply.
- The pages Home, Navbar, Footer and Login.jsx are not part of this model. They only render and forward to the modelled context.
- Entity fields that no modelled branch reads are dropped: phone, address (except the checkout's pre-filled address), `createdAt`, `updatedAt`, `businessAddress`, and the customer name and e-mail columns of `OrderDTO`.
- A product's seller is the `Seller` row attached when the product was created. Later edits to that seller row are not reflected in it.
- Upper- and lower-case mapping covers ASCII letters only; there is no Unicode case folding.
- Strings are sequences of Unicode characters, so a length or a substring counts characters. JavaScript's `length` and `substring` count UTF-16 code units, where a character outside the Basic Multilingual Plane counts twice: "abcd😀" has length 6 in the page and 5 in the model. This affects the description excerpt (ProductCard.jsx:71-73), the password length rule (Register.jsx:59) and the CVV length rule (Checkout.jsx:61).
- JsText.ParseInt: reads decimal digits only. Without a radix, `parseInt` reads a "0x" prefix as hexadecimal ("0x1A" is 26, "0x" alone is NaN), while the model reads the "0" and stops. Both call sites (CartItem.jsx:90 and ProductDetails.jsx:55) read `type="number"` inputs, which never deliver an "x", so the prefix is not modelled.
- A product's description is always a string in the model. The server may send a null description. The catalogue search (Products.jsx:38) then throws on `toLowerCase`, and the card's excerpt (ProductCard.jsx:71) throws on `length`. That failure is not modelled.
- Ids are unbounded integers, so overflow of Java `Long` identity values is not modelled. Stock and quantity arithmetic wraps at 32 bits as Java `int` does.
- The serialisation of response bodies is left out, including whether a password appears in a JSON reply.
- UserService.java and the entity classes Order, Product, CartItem, OrderItem and Admin are not part of this model. UserService is taken to pass straight to its repository, as SellerService and AdminService do. The role set at user registration is therefore the `User` field initialiser.
- BackendOrders.OrderService.CreateOrder: requires every cart row's product to exist. A dangling product id in a cart row would fail in `createOrder`, and that failure is not modelled. Reading such an order or cart line back is modelled as a server error in the DTO conversion.
- BackendOrders.OrderService.CreateOrder: the two `save` calls of `createOrder` (before and after the items are attached) are combined into one insert. Only the final row is observable.
- The list endpoints `getAllUsers`, `getAllSellers`, `getAllAdmins` and `getAllProducts` only return the table, so they are not modelled. The product queries by category, brand, keyword and availability are modelled as service functions; their one-line controller endpoints are not.
- The admin delete endpoints and the user and seller `deleteById` endpoints always return 204 after `AccountService.DeleteById`, which is modelled. The endpoints themselves are not.
- `findByUser` and the other derived queries without an `ORDER BY` are taken to return rows in insertion order.
- OrderController.CreateOrder: requires every product named by a known user's cart rows to exist, because a dangling product id in the cart fails inside `createOrder`, and that failure is not modelled.
- BackendOrders.OrderService.CreateOrder: the status and date a new order starts with come from an `OrderDefaults` parameter, because the `Order` entity's initialisers and the clock are not part of this model.

## Findings

| source | as written | input that shows it | evidently intended | confidence | as-written member | corrected member |
|---|---|---|---|---|---|---|
| ECOMMERCE-FRONTEND-REACT/src/pages/Cart.jsx:115-119 | the hint asks for `500 - subtotal` more, while free shipping needs a subtotal above 500 | a subtotal of 400.00 is told to add 100.00, and with 500.00 the fee is still charged | name an amount after which shipping is free | not executed | CartPage.FreeShippingHintFallsShort | CartPage.FreeShippingHintIsLeast |
| ECOMMERCE-FRONTEND-REACT/src/components/cart/CartItem.jsx:15 | the seller line concatenates first and last name without checking that they exist | a line without seller data shows "Sold by: undefined undefined" | show no seller name when there is none | not executed | CartItemRow.SoldByUndefinedUndefined | CartItemRow.SoldBy |
| ECOMMERCE-FRONTEND-REACT/src/components/cart/CartItem.jsx:16 | reads `businessName`, while the cart DTO carries `sellerBusinessName` | a line whose seller has a business name shows the person's name instead | show the business name the server sends | not executed | CartItemRow.SoldByIgnoresSellerBusinessName | CartItemRow.BusinessName |
| ECOMMERCE-BACKEND-SPRINGBOOT/src/main/java/com/ecommerce/klu/model/User.java:18-19 | `@JsonIgnore` on the password also drops it when a request body is read | registering with any password stores no password, and logging in with that password is refused | keep the password on input and hide it only on output | not executed | UserController.RegisteredUserCannotLogInAsWritten | UserController.RegisterThenLogin |
| ECOMMERCE-FRONTEND-REACT/src/pages/SellerDashboard.jsx:28-48 | the statistics, the "sold" column and the seller items match `item.product?.id`, while the `getOrdersBySeller` reply carries OrderItemDTO, which has a flat `productId` and no `product` | a confirmed order of 2 units at 100.00 of the seller's own product shows revenue 0 and 0 items sold | match the item's `productId`, giving revenue 200.00 and 2 items sold | not executed | SellerDashboard.ServerOrdersShowNothingSoldAsWritten | SellerDashboard.StatisticsReadByProductId |
