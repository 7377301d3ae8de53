# Ecommerce Follow-Along: a Dafny model of its validators and state updates

This project models the parts of the e-commerce application that carry
logic. The rest of the application is HTTP, database and browser plumbing.

- **Account schema** (`UserModel`). The password-strength test, the e-mail
  pattern and the year-difference age test are modelled. So are the rules
  that switch the password and date-of-birth checks off for Google sign-ins.
  Mongoose's validation of one account document is modelled as the set of
  schema paths that fail.
- **Product API** (`ProductController`). Create and update share two body
  checks: a truthiness check, then a non-negativity check. The product
  collection is a class holding a map from id to product. It has create,
  list, get, update and delete, and answers 404 for a missing id.
- **Order API** (`OrderController`). Order creation looks the caller up by
  e-mail, snapshots the request items into order lines and appends the
  order. Listing filters the stored orders by user.
- **Product page** (`ProductPage`). The quantity selector is clamped against
  the stock. The image carousel steps with modular arithmetic.
- **Cart page** (`CartPage`). The cart entries are updated by increase,
  decrease and remove, each after the server has answered. The page also
  has a productId guard and the cart total.
- **Product upload form** (`ProductUploadForm`). The form holds six text
  fields and two parallel lists: image files and preview URLs. Submitting
  flattens it into the multipart body.
- **Profile page** (`ProfilePage`). The address list has an add handler with
  an all-fields guard, a form reset and a filter-based remove.

`JsSemantics` gives the JavaScript behaviour these files rely on:

- `Array.prototype.map` and `filter`, and filtering one position out;
- `parseInt` with radix 10;
- the remainder operator `%`, which truncates toward zero.

The surroundings are parameters:

- the outcome of each server call;
- whether the auth cookie is set;
- the ids the database assigns;
- `Date.now()` and the current year;
- the object URLs the browser creates.

Prices are whole numbers of cents.

The code has no stock check, no stock decrement, no order cancellation and
no server-side recomputation of the order total. This model follows the
code: `createOrder`
stores the client's `totalAmount` as given, and no operation touches stock.

## Model

| member | source | states |
|---|---|---|
| `UserModel.Test` | backend/models/userModel.js:5-8 | One class test is true exactly when some character of the string is in the class. |
| `UserModel.ValidatePassword` | backend/models/userModel.js:3-10 | A password passes exactly when it has an upper-case letter, a lower-case letter, a digit and one of `!@#$%^&*(){}<>?`. |
| `UserModel.ValidPasswordExtends` | backend/models/userModel.js:4-9 | Appending characters to a valid password keeps it valid. |
| `UserModel.AlnumRun` | backend/models/userModel.js:23 | The pattern body `[a-zA-Z0-9]*` matches a whole string exactly when every character is an ASCII letter or digit. |
| `UserModel.MatchesEmailPattern` | backend/models/userModel.js:23 | An e-mail matches exactly when it is non-empty and all ASCII letters and digits. Any e-mail with `@` or `.` is rejected. |
| `UserModel.UsualEmailRejected` | backend/models/userModel.js:23 | Every `name@host` address fails the e-mail path of the schema. |
| `UserModel.ValidateAge` | backend/models/userModel.js:12-16 | The age test passes exactly when the birth year is at most the current year minus 18. |
| `UserModel.AgeIgnoresMonthAndDay` | backend/models/userModel.js:12-16 | Two birth dates in the same year always get the same answer. |
| `UserModel.AdultsAccepted` | backend/models/userModel.js:12-16 | Everyone aged 18 or more in completed years passes. |
| `UserModel.AcceptedAgeRange` | backend/models/userModel.js:12-16 | The test accepts exactly the people aged 18 or more, plus the 17-year-olds whose 18th birthday is later in the current year. |
| `UserModel.SeventeenYearOldAccepted` | backend/models/userModel.js:12-16 | A person born on 31 December 2008 is 17 on 1 January 2026 and still passes. |
| `UserModel.PasswordRequired` | backend/models/userModel.js:27-29 | A password is required exactly when `googleId` is absent or empty. |
| `UserModel.PasswordValidator` | backend/models/userModel.js:31-34 | With a `googleId` any password passes. Without one, the password test decides. |
| `UserModel.DobRequired` | backend/models/userModel.js:40-42 | A date of birth is required exactly when `googleId` is absent or empty. |
| `UserModel.DobValidator` | backend/models/userModel.js:44-47 | With a `googleId` any date passes. Without one, the age test decides. |
| `UserModel.ValidationErrors` | backend/models/userModel.js:18-50 | The e-mail path fails exactly when the e-mail is missing or does not match. With a `googleId`, neither the password path nor the date-of-birth path fails. Without one, each fails exactly when its value is missing or fails its test. |
| `ProductController.CheckBody` | backend/controllers/productController.js:8-15 | The body is "missing fields" exactly when some field is absent, empty or 0. It is "negative values" exactly when all fields are truthy and price or stock is negative. It passes exactly when all strings are non-empty, images are present, and price and stock are at least 1. |
| `ProductController.Status` | backend/controllers/productController.js:53-71 | A missing product answers 404. Every other failure (missing fields, a negative value, a validation error) answers 400. |
| `ProductController.ZeroIsMissing` | backend/controllers/productController.js:8-15 | A price or stock of 0 is reported as missing, never as negative. |
| `ProductController.ToProduct` | backend/controllers/productController.js:17-20 | A product built from an accepted body has price and stock of at least 1 and carries every field of the body: name, price, stock, description, category and images. |
| `ProductController.ProductStore.constructor` | backend/controllers/productController.js:1 | The product collection starts empty, so every stored product trivially has price and stock of at least 1. |
| `ProductController.ProductStore.Create` | backend/controllers/productController.js:4-24 | A failed check or a schema rejection returns that error and leaves the store unchanged. Otherwise the product is stored under the new id and every stored product keeps price and stock at least 1. |
| `ProductController.ProductStore.GetAll` | backend/controllers/productController.js:27-34 | Returns every stored product under its own id, and no other id. |
| `ProductController.ProductStore.GetById` | backend/controllers/productController.js:37-47 | An absent id gives 404. A present id gives its product. |
| `ProductController.ProductStore.Update` | backend/controllers/productController.js:50-72 | Runs the same checks as create, in the same order. Then the schema runs, then the lookup. An absent id gives 404 with the store unchanged. Otherwise only that id's product is replaced. |
| `ProductController.ProductStore.Delete` | backend/controllers/productController.js:75-85 | An absent id gives 404 and changes nothing. Otherwise exactly that id is removed. |
| `OrderController.FindUserByEmail` | backend/controllers/orderController.js:9-13 | Finds nothing exactly when no user has the e-mail. Otherwise returns the first user with it. |
| `OrderController.OrderItemsCopy` | backend/controllers/orderController.js:17-25 | The order lines have the items' length and order. Line i copies `_id`, name, quantity, price and image from item i. |
| `OrderController.OrdersOfMembership` | backend/controllers/orderController.js:56 | An order is listed for a user exactly when it is stored and belongs to that user. |
| `OrderController.OrdersOfAppend` | backend/controllers/orderController.js:27-34 | Appending an order adds it at the end of its owner's list. Every other user's list is unchanged. |
| `OrderController.OrderStore.constructor` | backend/controllers/orderController.js:1 | The order collection starts empty. |
| `OrderController.OrderStore.CreateOrder` | backend/controllers/orderController.js:4-44 | An unknown e-mail gives 404 and stores nothing. A missing items array or a failed save gives 500 and stores nothing. Otherwise exactly one order is appended, with the user's id, the item snapshot and the client's `totalAmount` unchanged. |
| `OrderController.OrderStore.GetUserOrders` | backend/controllers/orderController.js:46-66 | An unknown e-mail gives 404. Otherwise returns exactly the caller's stored orders, in stored order. |
| `JsSemantics.ParseIntString` | frontend/src/pages/Product.js:15 | `parseInt` reads the decimal text of any integer back to that integer, whatever non-digit text follows. Integers here are exact, so this holds in JavaScript for magnitudes below 2^53. |
| `JsSemantics.Rem` | frontend/src/pages/Product.js:43 | The remainder takes the sign of the dividend and is smaller than the divisor in magnitude; for a positive divisor it is `a % b` on a non-negative dividend and the negated remainder of `-a` on a negative one. |
| `ProductPage.StockLimitOfNumber` | frontend/src/pages/Product.js:15 | A stock sent as the integer n gives `maxStock` n, for JavaScript numbers of magnitude below 2^53. |
| `ProductPage.ImageModulus` | frontend/src/pages/Product.js:43 | The carousel modulus is at least 1. It equals the image count when there are images. |
| `ProductPage.NextIndex` | frontend/src/pages/Product.js:42-44 | From a non-negative index the next index is in `[0, n)`. From an index in range it is one more, wrapping from the last to 0. |
| `ProductPage.PrevIndex` | frontend/src/pages/Product.js:46-48 | From a non-negative index the previous index is in `[0, n)`. From an index in range it is one less, wrapping from 0 to the last. |
| `ProductPage.NextPrevRoundTrip` | frontend/src/pages/Product.js:42-48 | For an index in range, next then previous gives back the index, and so does previous then next. |
| `ProductPage.ClampQuantity` | frontend/src/pages/Product.js:65-71 | A value above the stock becomes the stock. A value below 1 becomes 1. Any other value is kept. With a stock of at least 1 the result is in `[1, stock]`. |
| `ProductPage.QuantityAfterInput` | frontend/src/pages/Product.js:62-73 | Unparseable input keeps the quantity. Parsed input becomes the clamped value `ClampQuantity` gives, which lies in `[1, stock]` when the stock is at least 1. |
| `ProductPage.TypedQuantityWithoutStock` | frontend/src/pages/Product.js:62-73 | While the stock is 0, typing any positive number sets the quantity to 0. |
| `ProductPage.ProductView.constructor` | frontend/src/pages/Product.js:11-14 | The page starts with empty product data (no stock, no images), quantity 1 and the first image selected. |
| `ProductPage.ProductView.Load` | frontend/src/pages/Product.js:25 | Loading a product replaces its stock and images and keeps the quantity and the selected image. |
| `ProductPage.ProductView.NextImage` | frontend/src/pages/Product.js:42-44 | The selected image becomes the next index and stays within the image count. Nothing else changes. |
| `ProductPage.ProductView.PrevImage` | frontend/src/pages/Product.js:46-48 | The selected image becomes the previous index and stays within the image count. Nothing else changes. |
| `ProductPage.ProductView.SelectImage` | frontend/src/pages/Product.js:106 | A thumbnail click selects that image. |
| `ProductPage.ProductView.IncrementQuantity` | frontend/src/pages/Product.js:50-54 | Adds 1 only below `maxStock`, so a quantity at most `maxStock` stays at most `maxStock`. |
| `ProductPage.ProductView.DecrementQuantity` | frontend/src/pages/Product.js:56-60 | Subtracts 1 only above 1, so a quantity of at least 1 stays at least 1. |
| `ProductPage.ProductView.ChangeQuantity` | frontend/src/pages/Product.js:62-73 | Sets the quantity the typed text gives. With a stock of at least 1 and parseable text, it lands in `[1, maxStock]`. |
| `CartPage.IncreasedAt` | frontend/src/pages/Cart.js:53-59 | Increase keeps the length. Matching entries gain 1. Every other entry is unchanged. |
| `CartPage.DecreasedAt` | frontend/src/pages/Cart.js:82-88 | Decrease keeps the length. Matching entries above 1 lose 1. Entries at 1 and all others are unchanged. |
| `CartPage.UpdatesKeepQuantitiesPositive` | frontend/src/pages/Cart.js:82-88 | If every quantity is at least 1, it stays so after increase, decrease and remove. |
| `CartPage.RemovedMembership` | frontend/src/pages/Cart.js:103-105 | Remove keeps exactly the entries of other products. |
| `CartPage.RemovedConcat` | frontend/src/pages/Cart.js:103-105 | Remove keeps the remaining entries in their original order and number. |
| `CartPage.TotalConcat` | frontend/src/pages/Cart.js:111-114 | The total of two lists joined is the sum of their totals. |
| `CartPage.TotalIncreased` | frontend/src/pages/Cart.js:111-114 | Increase raises the total by the unit prices of the matching entries. |
| `CartPage.TotalRemoved` | frontend/src/pages/Cart.js:111-114 | Remove lowers the total by the subtotals of the matching entries. |
| `CartPage.TotalChangeOfOneEntry` | frontend/src/pages/Cart.js:111-114 | With one entry per product, increasing entry k raises the total by its price. Removing it lowers the total by price times quantity. |
| `CartPage.CartView.constructor` | frontend/src/pages/Cart.js:11-13 | The cart starts with no items, no error and loading on. |
| `CartPage.CartView.FetchCartItems` | frontend/src/pages/Cart.js:15-31 | Without a token or on failure, the error is set with the "Error fetching cart items: " prefix and the items are kept. Otherwise the items are the server's. Loading ends either way. |
| `CartPage.CartView.IncreaseQuantity` | frontend/src/pages/Cart.js:36-63 | A missing token, an empty or "cart" productId, or a failed call sets the error and keeps the items. Otherwise the items become the increased list. |
| `CartPage.CartView.DecreaseQuantity` | frontend/src/pages/Cart.js:65-92 | The same guards as increase. On success the items become the decreased list. |
| `CartPage.CartView.RemoveItem` | frontend/src/pages/Cart.js:94-109 | Guarded by the token only. A failed call keeps the items. On success the items become the filtered list. |
| `ProductUploadForm.KeyName` | frontend/src/components/ProductUploadForm.js:15-23 | No text field is named `images`. |
| `ProductUploadForm.KeyNameInjective` | frontend/src/components/ProductUploadForm.js:15-23 | Different text fields have different keys. |
| `ProductUploadForm.ImageEntriesAt` | frontend/src/components/ProductUploadForm.js:73-75 | Image entry j is the pair (`images`, file j). |
| `ProductUploadForm.SubmissionShape` | frontend/src/components/ProductUploadForm.js:70-79 | The body has 6 + n entries: the six text fields in declaration order with their current text, then one `images` entry per file, in order. |
| `ProductUploadForm.RemovalKeepsPairs` | frontend/src/components/ProductUploadForm.js:58-64 | Removing one position from both lists keeps every remaining file paired with its own preview, in the original order. |
| `JsSemantics.WithoutIndexSpec` | frontend/src/components/ProductUploadForm.js:59 | Filtering out position i cuts out exactly that element when i is in range, and changes nothing otherwise. |
| `ProductUploadForm.UploadForm.constructor` | frontend/src/components/ProductUploadForm.js:15-25 | Every text field starts empty, and there are no files and no previews. |
| `ProductUploadForm.UploadForm.HandleInputChange` | frontend/src/components/ProductUploadForm.js:27-33 | Exactly the named field changes. The file and preview lists keep the same length. |
| `ProductUploadForm.UploadForm.HandleImageChange` | frontend/src/components/ProductUploadForm.js:45-56 | The files and one preview per file are appended in the same order. The lists keep equal lengths. |
| `ProductUploadForm.UploadForm.RemoveImage` | frontend/src/components/ProductUploadForm.js:58-64 | Both lists drop position `index`, or nothing when it is out of range. The lists keep equal lengths. |
| `ProductUploadForm.AppendImageEntries` | frontend/src/components/ProductUploadForm.js:72-76 | The loop over the files appends exactly one `images` entry per file, in order. |
| `ProductUploadForm.UploadForm.Submit` | frontend/src/components/ProductUploadForm.js:66-79 | The loop over the keys builds exactly the body that `SubmissionShape` describes. |
| `ProfilePage.FallbackAddress` | frontend/src/pages/Profile.js:89 | The fallback address has `id` equal to the clock reading and no `_id`. It carries the form's four fields. |
| `ProfilePage.WithoutIdMembership` | frontend/src/pages/Profile.js:122 | An address survives removal exactly when its `id` differs from the argument. |
| `ProfilePage.WithoutIdKeepsOrder` | frontend/src/pages/Profile.js:122 | Removal works piece by piece, so the survivors keep their order. |
| `ProfilePage.RemoveByObjectIdKeepsServerAddresses` | frontend/src/pages/Profile.js:122 | The button passes `_id` while the filter compares `id`. If the addresses the server sends carry an `_id` and no `id`, removing any of them by its `_id` leaves the local list unchanged. |
| `ProfilePage.RemoveFallbackAddress` | frontend/src/pages/Profile.js:122 | Removing a fallback address by its absent `_id` drops every address without an `id` and keeps the fallback. |
| `ProfilePage.ProfileView.constructor` | frontend/src/pages/Profile.js:9-22 | The page starts loading, with empty user data, an empty form and the form hidden. |
| `ProfilePage.ProfileView.FetchUserProfile` | frontend/src/pages/Profile.js:25-61 | Without a token, or with an answer lacking `user`, the data is kept. On failure the placeholder user is shown. Otherwise the name defaults to "User", the e-mail to "" and the addresses to []. Loading ends either way. |
| `ProfilePage.ProfileView.ToggleAddressForm` | frontend/src/pages/Profile.js:179 | The form's visibility flips. |
| `ProfilePage.ProfileView.CancelAddressForm` | frontend/src/pages/Profile.js:220 | The form is hidden and its fields are kept. |
| `ProfilePage.ProfileView.SetField` | frontend/src/pages/Profile.js:193-214 | Exactly the edited field of the form changes. |
| `ProfilePage.ProfileView.AddAddress` | frontend/src/pages/Profile.js:64-104 | An incomplete form, a missing token or a failed call changes nothing. Otherwise exactly one address is appended at the end: the server's, or the fallback. The form is then reset to empty and hidden. |
| `ProfilePage.ProfileView.RemoveAddress` | frontend/src/pages/Profile.js:107-131 | A missing token or a failed call keeps the list. Otherwise exactly the addresses whose `id` differs from the argument are kept, in order. |

## Left out

- HTTP, routing, Express and axios are not modelled. Each server answer is an input of the handler that receives it.
- Database persistence is not modelled. The stores are in-memory classes, and database ids are parameters.
- The product and order schemas are not part of this model. Their validation on save is one boolean input per handler.
- The unique index on `email` and `googleId` is not modelled, because it is enforced by the database.
- A malformed id makes Mongoose throw a cast error. This is not modelled.
- Cookies are not modelled. The auth cookie is a boolean saying whether it is set.
- Password hashing and token signing in the user controller and the auth middleware are not part of this model. They are calls into foreign libraries.
- `Date.now()`, `new Date()` and `URL.createObjectURL` are parameters.
- JSON numbers are whole numbers. Prices are cents.
- Numbers are exact, unbounded integers. Rounding above 2^53, and the exponent form `String` uses from 1e21 on, are not modelled.
- JsSemantics.ParseIntString: holds for every integer in the model, but in JavaScript only for magnitudes below 2^53, because larger numbers are rounded.
- ProductPage.StockLimitOfNumber: holds for every integer in the model, but in JavaScript only below 2^53. A stock of 10^21 or more is written in exponent form, so `maxStock` becomes its leading digit.
- The string-typed fields of a multipart product upload are not modelled.
- `parseInt` is modelled for decimal text with ASCII whitespace only. The `0x` prefix and non-ASCII white space are not modelled.
- `calculateDiscount` and `toFixed` are left out, because they use floating point.
- Re-rendering, stale React closures and concurrent handler calls are not modelled. Each handler runs alone on the current state.
- `console.log`, `alert`, navigation and logout are not modelled, because they have no state the model keeps.
- ProductController.ProductStore.Update: replaces the six checked fields, whereas `findByIdAndUpdate` applies the whole request body.
- CartPage.CartView.FetchCartItems: takes the answer's `cart` to be a list, and does not model an answer without one.
