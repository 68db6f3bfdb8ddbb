# A verified model of the online shop's checkout core

This project is a Dafny model of the core of a Django online shop. It covers:

- order pricing: line cost and weight, the discounted subtotal, the three shipping tiers and the final cost;
- the checkout views: the phone challenge (`verify_phone`, `verify_code`), order creation from the cart, the payment request and the settlement after the payment gateway confirms;
- the catalogue rules: the discounted price a product stores, the slug, the one-rating-per-user upsert with its count and mean, the rating view and the product page counter;
- the sold-count receiver and the price receiver;
- the phone validators of the order and account forms, the checkout form;
- the user manager's `create_user` and `create_superuser`.

There is one module per source file:

| module | file | what it holds |
|---|---|---|
| `Common` | (Python and Django behaviour) | `Option`, `Result`, the uncaught exceptions, request values, `isdigit`, `strip`, `lower`, `int()`, a required `CharField` |
| `AccountModels` | core/account/models.py | `create_user`, `create_superuser`, the `ShopUser` class, the visitor |
| `AccountForms` | core/account/forms.py | the two `clean_phone` hooks |
| `ShopModels` | core/shop/models.py | `Product` (a class) with `save` and `update_rating`, the `RatingTable` class, the price and mean formulas |
| `ShopSignals` | core/shop/signals.py | `calculate_new_price` |
| `ShopViews` | core/shop/views.py | `rate_product`, `product_detail` |
| `OrderModels` | core/order/models.py | `OrderItem`, the `Order` class, the cost functions |
| `OrderForms` | core/order/forms.py | `PhoneVerificationForm`, `OrderCreateForm` |
| `OrderSignals` | core/order/signals.py | `update_product_sold_count` |
| `OrderViews` | core/order/views.py | the session, the five checkout views, the gateway replies, loyalty |

How the model is built:

- Records the code updates in place are classes whose methods name what they modify: `Product`, `Order`, `ShopUser`, the session and the rating table.
- The loops of the source are `while` loops proved against specification functions. These are the item snapshot, the description, the inventory decrement and the sold-count receiver.
- Pure formulas are functions, with lemmas about them.
- Arithmetic is exact. `discount / 100` is a `real`. Python's `int()` of a quotient truncates toward zero and is written out as such.
- These are inputs of the operations:
  - the payment gateway's reply;
  - the random challenge code and temporary password;
  - Django's `slugify`;
  - the primary keys the database assigns;
  - the ORM lookups.

Where the code and the shop's intended design differ, the model follows the code:

- `verify` does not check `order.paid`. A second confirmed call takes the inventory and adds the points again (`OrderViews.VerifyTwice`).
- `send_request` does not check `order.paid` either.
- Settlement is not atomic. A product save that would make its inventory negative, or store a negative discounted price, raises `IntegrityError`. The lines before that product keep their decrements, the points stay and `paid` stays unset (`OrderViews.Settle`).
- `Product.save` computes a negative discounted price for a discount above 100 on a positive price. The `PositiveIntegerField` column refuses it, so such a product cannot be saved at all: not by the product page, the sold-count receiver or the settlement (`ShopModels.Product.Save`).
- The sold count is raised by the `post_save` receiver on order creation, not at settlement. `order_create` saves the order before it has items, so nothing is counted (`OrderViews.OrderCreate`).
- A total of exactly 10,000,000 earns 0 points, not 40. Both bounds at 10,000,000 are strict (`OrderViews.LoyaltyBrackets`).
- Failures such as a missing challenge in the session or a missing `order_id` escape as exceptions rather than structured results.

## Model

| member | source | states |
|---|---|---|
| Common.TruncDiv | core/shop/models.py:81 | `int(a / b)` for a positive divisor is the quotient truncated toward zero: the floor bounds for a non-negative dividend, the ceiling bounds for a negative one |
| Common.IntOf | core/shop/views.py:213-214 | `int()` raises OverflowError exactly for an infinite float; every other failure is TypeError or ValueError, the two the view catches |
| Common.TruncReal | core/shop/views.py:213 | `int()` of a float truncates toward zero: within one below a non-negative value, within one above a negative one |
| Common.CleanCharField | core/order/forms.py:7 | a required `CharField` accepts exactly a present value that is non-empty after stripping, within `max_length` and free of NUL characters, and then yields the stripped value |
| Common.NullCharacterRefused | core/order/forms.py:7 | a NUL inside a short value, or as the whole value, is refused |
| Common.SeparatorStripped | core/order/forms.py:7 | `str.strip()` removes a trailing information separator (U+001C), so an 11-digit phone padded with one is accepted; `int()` refuses the same padding |
| Common.ParseIntLiteral | core/shop/views.py:212-213 | a string holding an information separator (U+001C..U+001F) is never an integer literal, since `int()` skips only the six ASCII spaces |
| AccountModels.LowerAfterDomain | core/account/models.py:18 | lower-casing an address whose domain was already lower-cased gives the same result as lower-casing it directly |
| AccountModels.NormalizeWithAt | core/account/models.py:18 | for an address whose stripped form contains '@', the stored email is the stripped address lower-cased |
| AccountModels.StoredEmailIsLowered | core/account/models.py:18 | the stored email is the whole address lower-cased (stripped exactly when it contains '@') and contains no upper-case ASCII letter |
| AccountModels.CreateUser | core/account/models.py:10-22 | a call without an email raises TypeError; otherwise the record holds the lower-cased normalised email, the password and the extra fields unchanged |
| AccountModels.SetDefault | core/account/models.py:32-34 | `setdefault` keeps an existing value, adds the default for a missing key, and changes no other key |
| AccountModels.CreateSuperuser | core/account/models.py:24-40 | the three flags default to True; an explicit non-True `is_staff` is refused before `is_superuser` is looked at; success exactly when both given flags are True; `is_active=False` passes; every extra field reaches `create_user` unchanged; with known keywords and readable flags the row is stored as staff and superuser, with `is_active` and `is_verified` as given or defaulted |
| AccountModels.StoredFlagBesideDefault | core/account/models.py:32-34 | `setdefault` on one keyword leaves the stored value of every other flag |
| AccountModels.StoredFlagOwnDefault | core/account/models.py:34 | `setdefault` with a flag's own field default leaves the stored flag |
| AccountModels.StoredFlag | core/account/models.py:51-54 | an absent flag takes its field default; a given one is stored exactly when `BooleanField` can read it; None is refused by the NOT NULL column |
| AccountModels.StoredFlags | core/account/models.py:19-21 | the row is stored exactly when every keyword is a field name of `ShopUser` and every flag can be read and is not None; the flags are then the read values or the defaults; an unknown keyword raises TypeError; otherwise an unreadable flag raises ValidationError even beside a None, since every column is converted before the INSERT, and a None with all flags readable is an IntegrityError |
| AccountModels.PhoneOnlyRecord | core/order/views.py:66 | the record `verify_code` passes, a phone alone, is stored active, not staff, not superuser and not verified |
| AccountModels.StoredFlagsExamples | core/account/models.py:51-54 | a record with only a phone keeps the defaults (active, nothing else); "True" and 1 are stored as set; "yes" is refused; None is an IntegrityError; None beside "yes" is a ValidationError; an unknown keyword is a TypeError |
| AccountModels.ShopUser.constructor | core/account/models.py:48-54 | a new account holds the record's email, password and phone keyword, and the flags `StoredFlags` reads from the record's keyword fields; it has no loyalty points |
| AccountForms.CleanPhone | core/account/forms.py:54-69 | "already in use" exactly when the instance is saved and another account holds the number; an accepted phone is unchanged and is an 11-digit number starting with "09" |
| AccountForms.CleanPhonePrecedence | core/account/forms.py:60-68 | the errors come in the order duplicate, not all digits, wrong prefix, wrong length, each exactly when the earlier checks pass and its own fails; acceptance exactly for a mobile number without a clash |
| AccountForms.DuplicateCheckScope | core/account/forms.py:60-62 | an unsaved instance never gets "already in use", and a saved one keeping its own number does not clash with itself |
| AccountForms.AgreesWithChallengeForm | core/account/forms.py:63-69 | without a duplicate, the account hook accepts exactly the phones the order challenge form accepts |
| AccountForms.CreationFormCleanPhoneAsWritten | core/account/forms.py:6-36 | the hook inside `Meta` never runs: the phone is accepted exactly when the model's `CharField` takes it (present, non-blank, at most 11 characters, no NUL) and no account holds it yet; the stripped value is kept |
| AccountForms.CreationFormCleanPhone | core/account/forms.py:21-36 | with the hook in place, a phone is accepted exactly when it is present, its stripped value is a mobile number, and no account holds it yet |
| AccountForms.CreationFormIntendedIsStricter | core/account/forms.py:21-36 | whatever the intended form accepts, the form as written accepts with the same value; a value the written form accepts that is not a mobile number is refused by the intended one |
| AccountForms.CreationFormSkipsPhoneRules | core/account/forms.py:21-36 | "abc" passes the creation form as written and is refused as not all digits by the intended hook |
| AccountForms.CreationFormRefusals | core/account/forms.py:6-19 | both forms refuse a blank phone as required and a number another account holds as not unique |
| OrderForms.CleanPhone | core/order/forms.py:8-13 | a phone is accepted exactly when it is all digits, 11 long and starts with "09"; it is returned unchanged; every failure is the one validation error |
| OrderForms.ValidatePhoneForm | core/order/forms.py:6-13 | the form is valid exactly when a phone was sent and its stripped value is a mobile number; the cleaned phone is the stripped value; a missing phone is "required" |
| OrderForms.PaddedPhoneAccepted | core/order/forms.py:7-11 | a mobile number with surrounding whitespace is accepted and stored without it |
| OrderForms.FormErrors | core/order/forms.py:15-19 | the errors are empty exactly when every field is clean; every failing field is named and every named field fails |
| OrderForms.CleanOrderForm | core/order/forms.py:15-19 | the checkout form is valid exactly when all seven fields are present, non-blank, within their column lengths and free of NUL characters; the order contact holds the stripped values; otherwise the errors are non-empty |
| OrderForms.CheckoutPhoneOnlyLengthLimited | core/order/forms.py:15-19 | the checkout form has no phone rule: "abc" is accepted as the order's phone while the challenge form refuses it |
| OrderModels.SubtotalConcat | core/order/models.py:43 | the subtotal of two runs of lines is the sum of their subtotals |
| OrderModels.TotalWeightConcat | core/order/models.py:48 | the total weight of two runs of lines is the sum of their weights |
| OrderModels.SingleLine | core/order/models.py:76-80 | one line costs price × quantity and weighs weight × quantity |
| OrderModels.TotalCostIsScaledSubtotal | core/order/models.py:42-44 | the total cost is the subtotal scaled by (100 − discount)/100; discount 0 gives the subtotal; a discount in 0..100 gives a cost between 0 and the subtotal |
| OrderModels.PostCostTiers | core/order/models.py:46-54 | shipping is 20000 exactly below 1000 g, 30000 exactly from 1000 g to below 2000 g, 50000 exactly from 2000 g, and nothing else |
| OrderModels.PostCostBoundaries | core/order/models.py:49-54 | 999 g → 20000, 1000 g → 30000, 1999 g → 30000, 2000 g → 50000 |
| OrderModels.PostCostMonotone | core/order/models.py:49-54 | a heavier order never ships for less |
| OrderModels.DiscountSparesShipping | core/order/models.py:56-57 | the final cost exceeds the total cost by the shipping charge whatever the discount; with a discount in 0..100 it is at least the shipping charge |
| OrderModels.CostMethod | core/order/models.py:42-57 | calling a price method by name succeeds exactly for the three names `Order` defines, each giving its cost; any other name raises AttributeError |
| OrderModels.EmptyOrderCosts | core/order/models.py:42-57 | an order without items has total 0, shipping 20000 and final cost 20000 |
| OrderModels.Order.constructor | core/order/models.py:11-25 | a new order is unpaid, has an empty reference id, discount 0, no buyer and no items |
| OrderSignals.CountLine | core/order/signals.py:12-13 | a storable product's sold count grows by the quantity and it is saved; otherwise its row stays as it was |
| OrderSignals.CountLines | core/order/signals.py:10-13 | the loop stops at the first product that cannot be stored, or at the end; the lines before the stop are counted and their products saved; all of them were storable; inventory never changes |
| OrderSignals.UpdateProductSoldCount | core/order/signals.py:7-13 | it succeeds exactly when the order is not new or all its products can be stored; on success each product's sold count grows by the total quantity of its lines and the product is saved; when not created nothing changes; otherwise it stops at the first product that cannot be stored, with the lines before it counted; inventory never changes |
| ShopModels.DiscountedPriceIsFloor | core/shop/models.py:80-81 | for a discount d ≤ 100 the stored price is the largest integer not above original × (100 − d)/100 |
| ShopModels.DiscountedPriceBounds | core/shop/models.py:80-83 | for a discount in 0..100 the price lies between 0 and the original; None or 0 keeps the original; 100 gives 0 |
| ShopModels.NegativePriceNeedsLargeDiscount | core/shop/models.py:80-81 | a negative discounted price needs a discount above 100 on a positive original price |
| ShopModels.NegativePriceExamples | core/shop/models.py:80-81 | 1000 at 110 percent gives −100; 1 at 101 percent truncates to 0; a zero price stays 0 |
| ShopModels.SavedSlugIdempotent | core/shop/models.py:78-79 | a second save leaves the slug the first one set |
| ShopModels.IndexOf | core/shop/models.py:198 | the position found holds the rating for (product, user) and is the first one; none found means no row has that key |
| ShopModels.RatingTable.UpdateOrCreate | core/shop/views.py:221-226 | the table keeps one row per (product, user); the user's score becomes the new one; `created` exactly when there was none; no other user's or product's score changes; the product's count grows by one exactly on creation; scores in 1..5 stay in 1..5 |
| ShopModels.MeanInRange | core/shop/models.py:90-92 | with every score in 1..5, a non-empty list of scores has a mean between 1 and 5 |
| ShopModels.SumBounds | core/shop/models.py:191 | with every score in 1..5, the sum of n scores lies between n and 5n |
| ShopModels.ScoresForInRange | core/shop/models.py:191 | when every row's score is one of the choices 1..5, so is every score of one product |
| ShopModels.Product.constructor | core/shop/models.py:31-53 | a new product starts with zero views, sold count, rating count and average |
| ShopModels.Product.Save | core/shop/models.py:74-84 | the row is written exactly when the discounted price is not negative (the `PositiveIntegerField` of line 45); then an empty slug is filled from the name, a non-empty one is kept, and the stored price is the discounted price; a refused row keeps its slug and price; a discount ≤ 100 is always saved with a price between 0 and the original |
| ShopModels.Product.UpdateRating | core/shop/models.py:86-93 | the count is the number of the product's ratings and the average their mean; no ratings give 0 and 0; scores in 1..5 give an average in 1..5 |
| ShopSignals.SignalMatchesSave | core/shop/signals.py:24-36 | the receiver's price equals the price `save` stores for every discount, including 0 |
| ShopSignals.CalculateNewPrice | core/shop/signals.py:6-36 | only `discount_price` is written; a None or 0 discount gives the original price; otherwise the truncated formula |
| ShopViews.ValidateRating | core/shop/views.py:185-218 | a non-POST is 405, a missing product 404 and an anonymous visitor 401, each exactly when the earlier checks pass; an accepted score is in 1..5 |
| ShopViews.AcceptedScores | core/shop/views.py:212-218 | past the first checks, a score is accepted exactly when `int()` succeeds with a value in 1..5; an `int()` that raises TypeError or ValueError (NaN among them) is `invalid_score`; an infinite score raises OverflowError, which the view does not catch; an integer outside 1..5 is `invalid_score_range` |
| ShopViews.RatingExamples | core/shop/views.py:200-218 | bad JSON, a missing score, "4.5", 6 and 0 are refused; True, 4.7 and " 5 " are coerced to 1, 4 and 5; NaN is `invalid_score` and infinity escapes as OverflowError |
| ShopViews.RateProduct | core/shop/views.py:185-237 | a refused request changes nothing; an accepted one stores the user's score, keeps the count on a re-rating and adds one on a first rating, sets the average to the mean, and answers with the average, the count and the submitted score |
| ShopViews.RatingPercentRange | core/shop/views.py:56 | an unrated product shows 0 percent; an average in 0..5 gives a percentage in 0..100, 20 per star |
| ShopViews.ProductDetail | core/shop/views.py:48-82 | an unknown slug raises DoesNotExist; a product that cannot be stored raises IntegrityError and keeps its count, slug and price; otherwise the view count grows by exactly one, the product is saved, and the page shows the rating percentage and the visitor's own score |
| OrderViews.VerifyPhone | core/order/views.py:29-55 | a logged-in visitor is sent on and an invalid form re-rendered, neither changing the session; a registered phone stores nothing; otherwise the five-digit code and the phone are stored |
| OrderViews.VerifyCodeAsWritten | core/order/views.py:58-84 | the session never changes, a matching code crashes with TypeError, and the visitor never reaches order creation |
| OrderViews.VerifyCode | core/order/views.py:58-84 | an empty, non-numeric or wrong code keeps the challenge for a retry; a numeric code without a challenge raises KeyError; a matching code creates an active account that is not staff, not superuser and not verified, with the session's phone, and deletes both keys |
| OrderViews.SnapshotCopies | core/order/views.py:96-99 | there is exactly one order item per cart entry, in cart order, copying its product, price, quantity and weight |
| OrderViews.CreateItems | core/order/views.py:96-99 | the loop leaves the order's items equal to the cart snapshot |
| OrderViews.PlaceOrder | core/order/views.py:93-99 | the saved order holds the form's contact and the buyer, is unpaid, and has the cart snapshot as its items |
| OrderViews.OrderCreate | core/order/views.py:87-111 | an anonymous visitor goes to login and an invalid form is re-rendered, with the session unchanged; a valid form creates the order with the cart snapshot, records `order_id` and changes no sold count |
| OrderViews.GatewayOutcomeCases | core/order/views.py:152-167 | the gateway confirms exactly on HTTP 200 with Status 100 and the key present; HTTP 200 without the key or without Status raises KeyError; every other failure has its own answer |
| OrderViews.LookupOrder | core/order/views.py:134 | the order is found exactly when the session's `order_id` names a stored order; a missing key raises KeyError |
| OrderViews.DescriptionConcat | core/order/views.py:138-140 | the description of two runs of items is the concatenation of their descriptions, so names appear in item order |
| OrderViews.DescriptionOfOne | core/order/views.py:140 | one item contributes its product name followed by ", " |
| OrderViews.SendRequest | core/order/views.py:130-167 | a failed lookup answers "error"; otherwise the request carries the final cost, the item names and the buyer's phone, and the reply decides the answer; nothing is modified |
| OrderViews.LoyaltyBrackets | core/order/views.py:201-213 | each bracket gives its points exactly on its range: 10, 20, 30, 40, 60; 0 exactly for a total ≤ 0 or of exactly 10,000,000 |
| OrderViews.LoyaltyBoundaries | core/order/views.py:202-213 | 100000 → 10, 100001 → 20, 9999999 → 40, 10000000 → 0, 10000001 → 60, 0 and −1 → 0 |
| OrderViews.LoyaltyAsWritten | core/order/views.py:201-203 | reading `loyalty_points` raises AttributeError for every logged-in buyer |
| OrderViews.AccrueLoyalty | core/order/views.py:201-213 | the buyer's points grow by the bracket of the total |
| OrderViews.TakeLine | core/order/views.py:216-218 | one line's write succeeds exactly when the stock covers the quantity and the product can be stored; then the stock drops by the quantity and the product is saved; otherwise the row stays as it was |
| OrderViews.TakeLines | core/order/views.py:215-218 | the loop stops at the first line whose write would be refused, or at the end; the lines before the stop are taken and their products saved; they were all storable and in stock |
| OrderViews.TakeInventory | core/order/views.py:215-218 | the loop passes every line exactly when there was stock for the whole order and every product can be stored; then every product loses the total quantity of its lines and is saved; otherwise it stops at a line whose product lacks stock or cannot be stored, with the lines before it taken |
| OrderViews.Settle | core/order/views.py:200-222 | an anonymous visitor crashes with nothing changed; otherwise the points grow by the bracket; with enough stock and storable products the inventory is taken, the products saved, and the order paid with the reference id; otherwise IntegrityError with a prefix taken and the paid flag and reference id unchanged |
| OrderViews.VerifyPayload | core/order/views.py:172-177 | the payload is built exactly when the order is found and the amount method is one `Order` defines; a failed lookup gives its error, an unknown method AttributeError |
| OrderViews.VerifyAsWritten | core/order/views.py:170-177 | no request is ever built: a found order raises AttributeError at `get_final_price`, a failed lookup its own error |
| OrderViews.AmountMethodMatters | core/order/views.py:175 | for a found order, `get_final_price` raises AttributeError while `get_final_cost` gives a request for the final cost |
| OrderViews.Verify | core/order/views.py:170-229 | the amount sent is the final cost; any reply but a confirmation leaves the order, the inventory, the prices and the points unchanged; a confirmation by an anonymous visitor raises NotImplementedError with nothing changed; a logged-in buyer gets the points, then success and a paid order with enough stock and storable products, or IntegrityError with a prefix taken and the paid flag and reference id unchanged |
| OrderViews.VerifyConfirmed | core/order/views.py:170-221 | one confirmed request by a logged-in buyer with stock and storable products succeeds, pays the order with the reply's key, adds the points and takes the inventory |
| OrderViews.VerifyTwice | core/order/views.py:170-221 | two confirmed calls for one order, with stock for both, both succeed, take the inventory twice and add the points twice; the second reference id overwrites the first |

## Left out

- The HTTP exchange with the payment gateway (request building, `json.dumps`, headers, URLs, timeouts) is left out. The reply is an input: a status code, the Status field and the Authority or RefID field, a timeout, or a connection error. A body that is not JSON is not modelled. A JSON body without Status is modelled: it raises KeyError.
- OrderViews.Verify: the `requests.post` of `verify` (core/order/views.py:182) passes no timeout, so requests never raises Timeout there. The model still offers the timeout reply as an input, and answers it as the source's `except` would.
- The random challenge code and temporary password are inputs. The code has the stated shape: five digits.
- The coupon branch of `verify` (core/order/views.py:188-199) is left out. `CouponUsage` is not imported and `Order.coupon` is commented out, so the model assumes the cart has no coupon.
- The `Cart` class is not part of this model. The cart is a sequence of entries holding a product, a price, a quantity and a weight.
- The ORM is left out: queries, `get_object_or_404` and the related-product and comment lookups of `product_detail`. Each lookup is an input.
- The uniqueness `IntegrityError` when an account with a taken email or phone is created is not modelled.
- `login()` and the session keys Django's authentication adds are library code and are left out.
- Password hashing is left out: the model stores the raw password that `set_password` would hash.
- Rendering, templates, messages and `print` calls are left out. Redirect targets are route names.
- `order_detail` only renders a page and is left out, as are the admin, url and search modules.
- `isdigit`, `strip` and `lower` are modelled on ASCII characters only. `strip` removes all the ASCII characters `str.isspace()` accepts, including U+001C..U+001F; non-ASCII whitespace such as U+00A0 is kept.
- Floating point is left out: costs, averages and the rating percentage are exact reals. A score that `json.loads` reads as a float is a finite exact real or a non-finite value (infinity or NaN). A real beyond the double range stands for no float: `json.loads` turns such a number into infinity, which the model writes as the non-finite value.
- ShopModels.Product.UpdateRating: the average is the exact mean, not rounded to the two decimals of the `DecimalField(3, 2)`.
- ShopModels.Product.UpdateRating: the `save(update_fields=...)` at the end writes only the two rating columns. The model therefore leaves the slug and the stored price alone.
- ShopSignals.CalculateNewPrice: Django runs the `pre_save` receiver on every save. The model does not attach it to `Product.Save`; it is a method of its own. The attribute it sets is not a column, so nothing else reads it.
- ShopSignals.CalculateNewPrice: the except branch for TypeError and ValueError is not modelled. With integer fields it cannot be reached.
- ShopModels.Product.Save: the object stands for the stored row. When the database refuses the row, Python has already set the slug and the price on the instance, but the request ends, so the model keeps the row's old values.
- ShopModels.Product.Save: the unique constraint on the slug is not modelled. The model has no table of other products, so a `slugify` collision is not caught.
- OrderViews.TakeLines: the loop tests the two column checks before it writes. A refused write changes no row, so the rows end up as they would after the failed save.
- OrderSignals.CountLines: likewise, the loop tests `Storable` before it writes.
- OrderViews.Settle: an order row that fails to save is not modelled.
- Common.CleanCharField: a value that is both too long and holds a NUL gets both errors from Django. The model reports only the length error.
- Common.ParseIntLiteral: Python's `int()` also accepts single underscores between digits ("1_0") and non-ASCII digits. The model refuses both, so the rating view gives such a score its invalid-score answer.
- AccountModels.StoredFlags: values reach the columns only through `BooleanField`'s conversion. The phone is passed as a string, as in every call in this core. A many-to-many keyword such as `groups` is not treated specially.
- OrderViews.VerifyCode: the corrected view takes the new account's email and primary key as parameters. The source has no email to pass.
- The session holds only what these views store: a text code and phone, and an order id. Other writers of those keys are not modelled.
- Concurrency and transactions are left out: `transaction.atomic` in `rate_product`, and two settlements of one order racing.

## Findings

| source | as written | input that shows it | evidently intended | confidence | as-written member | corrected member |
|---|---|---|---|---|---|---|
| core/order/views.py:175 | `verify` takes the amount from `order.get_final_price()`, which `Order` does not define | any request whose session names a stored order | the amount is `order.get_final_cost()`, which `send_request` uses | high, not executed | OrderViews.VerifyAsWritten | OrderViews.Verify |
| core/order/views.py:201-213 | the settlement adds to `request.user.loyalty_points`, a field `ShopUser` does not declare | a logged-in buyer whose payment the gateway confirms | the buyer has a loyalty counter that grows by the bracket of the total | high, not executed | OrderViews.LoyaltyAsWritten | OrderViews.AccrueLoyalty |
| core/order/views.py:66 | `verify_code` calls `create_user(phone=phone)` without the required `email` argument | a POST of the matching numeric code after a challenge | the account is created, the challenge keys are deleted and the visitor goes on to order creation | high, not executed | OrderViews.VerifyCodeAsWritten | OrderViews.VerifyCode |
| core/account/forms.py:21-36 | the creation form's `clean_phone` is defined inside its `Meta` class, so no phone rule runs | phone "abc" on the creation form | the creation form applies the same phone checks as the change form | high, not executed | AccountForms.CreationFormCleanPhoneAsWritten | AccountForms.CreationFormCleanPhone |
