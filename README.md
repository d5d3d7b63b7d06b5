# UCP + AP2 shopping agent: checkout authorisation core

This project models the in-memory core of the UCP + AP2 demo shopping agent
(`ucp-demo-web-v2/server.py`) in Dafny and proves properties of the model.
The core has four parts:

- **The cart.** It is a list of product ids. It is resolved against the
  catalog when it is read, and entries that no longer resolve are skipped.
- **The AP2 mandate chain.** A cart mandate is created PENDING_APPROVAL with a
  by-value snapshot of the cart. Signing moves it to APPROVED. A payment
  mandate is COMPLETED for it. An order records every link of the chain and is
  appended to the order history.
- **The intent-mandate registry.** Standing "auto-buy" rules are registered
  ACTIVE and scanned in registration order for the first one a product meets.
- **The classifier-reply parser.** It reads the INTENT, PRODUCT_ID and
  RESPONSE lines of the language model's reply.

Layout, one module per file:

| file | module | what it holds |
|---|---|---|
| `wrappers.dfy` | `Wrappers` | `Option` and `Result` |
| `text.dfy` | `Text` | the Python string operations the core uses: `strip`, `upper`, `lower`, `split`, `join`, `isdigit`, `startswith` |
| `fingerprint.dfy` | `Fingerprint` | a JSON-like value with sorted keys, and the 16-hex-digit `Sig` that `generate_signature` returns |
| `catalog.dfy` | `Catalog` | products and `find_product_by_id` |
| `cart.dfy` | `Cart` | cart resolution and totals |
| `mandates.dfy` | `Mandates` | ids, the user profile, cart and payment mandates, orders, and the whole approval |
| `intents.dfy` | `Intents` | intent mandates and first-match |
| `reply_parser.dfy` | `ReplyParser` | `parse_gemini_response` and the failure reply it must cope with |
| `server.dfy` | `Server` | the server's global state as the class `Shop`, with the routes that read and change it |

The global lists `cart`, `intent_mandates` and `order_history`, and
`last_mentioned_product`, are fields of `Server.Shop`. Their methods change
them in place and state the whole new state. The scanning loops are methods
whose loop invariants tie them to a specification function:
- `get_cart_total`, `get_cart_items`, `find_product_by_id`;
- `check_intent_mandates`;
- the loop of `create_cart_mandate`;
- the line loop of `parse_gemini_response`.

The properties are then proved about those functions. Record construction is
pure, so `process_payment` and the dictionary `create_order` builds are
functions.

Randomness and the clock are inputs:
- Each id or code is built from a sequence of draws, each draw an index into
  the alphabet `random.choices` would use.
- Each timestamp is a string parameter.

## Model

| member | source | states |
|---|---|---|
| Catalog.Lookup | ucp-demo-web-v2/server.py:86-90 | no product when no product has the id; otherwise a product of the catalog with that id |
| Catalog.LookupFindsFirst | ucp-demo-web-v2/server.py:86-90 | the product found is the first one with the id, in catalog order |
| Catalog.FindProductById | ucp-demo-web-v2/server.py:86-90 | the scan returns exactly what `Lookup` specifies |
| Cart.Resolved | ucp-demo-web-v2/server.py:100-106 | the resolved items are at most as many as the cart entries; each is a catalog product whose id is in the cart |
| Cart.ResolvedSnoc | ucp-demo-web-v2/server.py:100-106 | one more entry adds its product, or nothing when it does not resolve |
| Cart.SumPricesConcat | ucp-demo-web-v2/server.py:92-98 | the price sum of two runs of products is the sum of their sums |
| Cart.ResolvedConcat | ucp-demo-web-v2/server.py:100-106 | resolution works entry by entry, so a cart in two parts resolves to the two parts' products in order |
| Cart.StaleEntryIgnored | ucp-demo-web-v2/server.py:92-106 | an entry that does not resolve, anywhere in the cart, changes neither the items nor the total |
| Cart.TotalSnoc | ucp-demo-web-v2/server.py:92-98 | adding an id that resolves raises the total by that product's price |
| Cart.ResolvedAllFound | ucp-demo-web-v2/server.py:100-106 | when every entry resolves, the items are the entries' products one for one, in cart order, duplicates kept |
| Cart.ResolvedNoneFound | ucp-demo-web-v2/server.py:92-106 | when no entry resolves, the items are empty and the total is 0 |
| Cart.Total | ucp-demo-web-v2/server.py:92-98 | an empty cart costs 0, and with a catalog of non-negative prices no cart costs less than 0 |
| Cart.SumPricesNonNegative | ucp-demo-web-v2/server.py:92-98 | products from a catalog of non-negative prices add up to a non-negative sum |
| Cart.TotalPrefixStep | ucp-demo-web-v2/server.py:94-97 | one more entry of the loop raises the total by its price when it resolves, and leaves it when it does not |
| Server.Shop.constructor | ucp-demo-web-v2/server.py:58-62 | the state starts with an empty cart, no intent mandates, no orders and no last product |
| Server.Shop.CartTotal | ucp-demo-web-v2/server.py:92-98 | `get_cart_total`'s loop returns the price sum of the resolved entries |
| Server.Shop.CartItems | ucp-demo-web-v2/server.py:100-106 | `get_cart_items`'s loop returns the resolved products in cart order |
| Server.Shop.AddToCart | ucp-demo-web-v2/server.py:347-371 | an unknown id changes nothing and reports "not found". A known id is appended, becomes the last product, raises the total by its price, and the reply carries the new cart size and the first intent mandate that fires for it |
| Server.Shop.ChatAddToCart | ucp-demo-web-v2/server.py:463-475 | an ADD_TO_CART reply with a product id changes the cart exactly as the add route does; any other reply leaves the cart alone. The parsed id is a non-empty digit string by its type, which is what the route's truthiness test on it admits |
| Server.Shop.ClearCart | ucp-demo-web-v2/server.py:373-376 | the cart is empty, nothing else changes |
| Mandates.Choices | ucp-demo-web-v2/server.py:68-72 | `random.choices` gives as many characters as draws, each from the alphabet |
| Mandates.MandateId | ucp-demo-web-v2/server.py:68-69 | a mandate id is "mandate_" and 12 lowercase letters or digits |
| Mandates.OrderId | ucp-demo-web-v2/server.py:71-72 | an order id is "order_" and 8 uppercase letters or digits |
| Mandates.AuthorizationCode | ucp-demo-web-v2/server.py:158 | the authorisation code is exactly six decimal digits |
| Mandates.DefaultPaymentMethod | ucp-demo-web-v2/server.py:134 | the first method flagged default; none exactly when no method is flagged, the case where `next` raises |
| Mandates.DefaultPaymentMethodFindsFirst | ucp-demo-web-v2/server.py:134 | when several methods are flagged default, the earliest one is taken |
| Mandates.DemoProfileHasDefault | ucp-demo-web-v2/server.py:27-53 | the built-in profile's default method is its Visa card, so mandate creation cannot fail for it |
| Mandates.Snapshots | ucp-demo-web-v2/server.py:113-121 | one cart line per resolved product, line i holding product i's id, name and price by value |
| Mandates.SnapshotsTotal | ucp-demo-web-v2/server.py:113-132 | the snapshot lines add up to the price sum of the products they copy |
| Mandates.NewCartMandate | ucp-demo-web-v2/server.py:112-139 | the mandate is PENDING_APPROVAL and unsigned. Its lines snapshot the resolved cart, its total is the cart total and equals the sum of its lines, and it uses the profile's default method, address and user. It fails exactly when the profile has no default method |
| Mandates.StaleCartMandate | ucp-demo-web-v2/server.py:378-390 | a non-empty cart none of whose ids resolve still yields a mandate, with no lines and total 0 |
| Server.Shop.CreateCartMandate | ucp-demo-web-v2/server.py:112-139 | the loop and record construction return exactly `NewCartMandate` for the current cart; the cart is not changed |
| Server.Shop.CreateCheckoutMandate | ucp-demo-web-v2/server.py:378-390 | an empty cart is refused with "Cart is empty"; otherwise the result is the cart mandate for the cart |
| Mandates.UserSignature | ucp-demo-web-v2/server.py:145 | the user signature starts with "sig_" + user id + "_" and ends in a 16-character digest |
| Mandates.ApprovedCopy | ucp-demo-web-v2/server.py:141-146 | the signed mandate is APPROVED, carries its approval time, a 16-character signature and the user signature, and keeps every term of the mandate |
| Mandates.SignatureCoversApprovedState | ucp-demo-web-v2/server.py:142-144 | the signature is computed over the mandate with status and approval time already set, before the signature fields are written |
| Mandates.SignMandate | ucp-demo-web-v2/server.py:141-146 | the field-by-field updates leave exactly `ApprovedCopy` |
| Mandates.PaymentToken | ucp-demo-web-v2/server.py:154 | the token is "tok_" and 16 characters computed from the payment method alone |
| Mandates.ProcessPayment | ucp-demo-web-v2/server.py:148-160 | the payment is COMPLETED, names the cart mandate, carries its amount and currency, a six-digit code, the payment method's token and the merchant id |
| Mandates.BuildOrder | ucp-demo-web-v2/server.py:162-189 | the order is CONFIRMED. It carries the mandate's items, total, currency and address, the payment summary, the verification block naming the cart mandate, its signatures and the payment mandate, and the customer |
| Server.Shop.CreateOrder | ucp-demo-web-v2/server.py:162-191 | the history grows by exactly that order, and every earlier order is kept |
| Mandates.Checkout | ucp-demo-web-v2/server.py:392-417 | signing, payment and order chain up: the ids link, the amounts agree, the order is signed, and an order built from a mandate whose total matched its lines has a total matching its own lines |
| Server.Shop.ApproveCheckout | ucp-demo-web-v2/server.py:392-417 | without a mandate, "No mandate provided" and no change. Otherwise the result is `Checkout`, the order is appended to the history and the cart is emptied |
| Intents.NewIntentMandate | ucp-demo-web-v2/server.py:193-208 | the mandate is ACTIVE and holds the given conditions and user. Its ceiling is "max_price" when given, 100 otherwise. It is signed over its conditions and has a "mandate_" id |
| Intents.CategoryAllows | ucp-demo-web-v2/server.py:217-219 | a mandate without a category condition admits every product, and one whose category equals the product's up to case admits it |
| Intents.PriceAllows | ucp-demo-web-v2/server.py:221-223 | the ceiling is inclusive: a product priced exactly at it is admitted, and one above it is refused |
| Intents.Matches | ucp-demo-web-v2/server.py:212-223 | a mandate that is not ACTIVE never fires, and an ACTIVE one without conditions fires for every product |
| Intents.MatchOf | ucp-demo-web-v2/server.py:210-227 | none exactly when no mandate matches; otherwise a registered mandate that matches |
| Server.Shop.CreateIntentMandate | ucp-demo-web-v2/server.py:193-208 | the registry grows by exactly the new mandate, and for every product the match is the old one if there was one, else the new mandate if it matches |
| Intents.FirstMatch | ucp-demo-web-v2/server.py:210-227 | none exactly when no mandate matches; otherwise the lowest matching position |
| Intents.FirstMatchIsLowest | ucp-demo-web-v2/server.py:210-227 | the lowest matching position is the only answer |
| Intents.FirstMatchAfterRegister | ucp-demo-web-v2/server.py:193-227 | a newly registered mandate never shadows an earlier one that matches |
| Intents.MatchIgnoresCategoryCase | ucp-demo-web-v2/server.py:217-219 | upper-casing the product's category changes no match |
| Server.Shop.CheckIntentMandates | ucp-demo-web-v2/server.py:210-227 | the early-return scan returns the mandate at the first matching position, or none; in a valid registry, where every mandate is ACTIVE, only the conditions decide a match |
| Text.LStrip | ucp-demo-web-v2/server.py:297 | the result is a suffix, does not start with whitespace, and only whitespace was dropped |
| Text.RStrip | ucp-demo-web-v2/server.py:297 | the result is a prefix, does not end with whitespace, and only whitespace was dropped |
| Text.RStripAppend | ucp-demo-web-v2/server.py:289 | trailing whitespace is taken from the tail alone when the tail starts with a non-space |
| Text.Strip | ucp-demo-web-v2/server.py:297 | the result neither starts nor ends with whitespace, and it is a stretch of the input with only whitespace before and after it |
| Text.StripIdempotent | ucp-demo-web-v2/server.py:297 | stripping twice is stripping once |
| Text.StripAfterSpace | ucp-demo-web-v2/server.py:300-309 | the space after a keyword's colon disappears when the value is stripped |
| Text.LowerOfUpper | ucp-demo-web-v2/server.py:218 | lower-casing forgets the case the text was written in |
| Text.Upper | ucp-demo-web-v2/server.py:299 | character by character the ASCII upper case, so no lower-case ASCII letter remains |
| Text.UpperIdempotent | ucp-demo-web-v2/server.py:299-300 | upper-casing twice is upper-casing once |
| Text.Lower | ucp-demo-web-v2/server.py:218 | character by character the ASCII lower case, so no upper-case ASCII letter remains |
| Text.Join | ucp-demo-web-v2/server.py:315 | the pieces with one separator between each two: empty for no pieces, otherwise starting with the first piece and as long as the pieces plus one separator fewer than pieces |
| Text.Split | ucp-demo-web-v2/server.py:289 | at least one piece, and no piece contains the separator |
| Text.JoinSplit | ucp-demo-web-v2/server.py:289 | joining the pieces with the separator gives the text back |
| Text.SplitJoin | ucp-demo-web-v2/server.py:289 | splitting joined pieces that lack the separator gives the pieces back |
| Text.SplitAfterPiece | ucp-demo-web-v2/server.py:289 | a piece followed by the separator splits off as the first piece |
| Text.SplitNoSeparator | ucp-demo-web-v2/server.py:289 | text without the separator is a single piece |
| Text.AfterFirst | ucp-demo-web-v2/server.py:300-309 | `split(":", 1)[1]` is the suffix after the first colon |
| Text.AfterKeyword | ucp-demo-web-v2/server.py:299-309 | for a line that passes a keyword test, the text after the first colon is the text after the keyword |
| Text.KeepDigits | ucp-demo-web-v2/server.py:304 | only digits are kept; the result is empty exactly when the input has no digit, and an input of digits only is kept whole |
| Text.KeepDigitsChar | ucp-demo-web-v2/server.py:304 | one character is kept exactly when it is a digit |
| Text.KeepDigitsConcat | ucp-demo-web-v2/server.py:304 | the digits of two texts in a row are the first's digits followed by the second's, so the result is every digit of the input in order |
| ReplyParser.KeywordsEndInTheirOnlyColon | ucp-demo-web-v2/server.py:299-309 | each of "INTENT:", "PRODUCT_ID:" and "RESPONSE:" ends in its only colon |
| ReplyParser.AfterColon | ucp-demo-web-v2/server.py:300-309 | the value of a keyword line is the text after the keyword |
| ReplyParser.ProductDigits | ucp-demo-web-v2/server.py:302-306 | the id is the value's digits whenever it has any and none otherwise, so the "NONE" and empty-value tests never change the outcome; a value of digits only is the id itself |
| ReplyParser.NoneHasNoDigits | ucp-demo-web-v2/server.py:303 | a value that upper-cases to "NONE" has no digit, and a value of digits never upper-cases to "NONE" |
| ReplyParser.Classify | ucp-demo-web-v2/server.py:297-313 | an intent read is upper case, a RESPONSE value is stripped, and any other line is the stripped line |
| ReplyParser.Step | ucp-demo-web-v2/server.py:299-313 | the message lines only grow, by at most one line; the RESPONSE section, once entered, is never left; RESPONSE and other text lines leave intent and product id alone |
| ReplyParser.ClassifiedIntentsUpper | ucp-demo-web-v2/server.py:299-300 | every classified INTENT line carries an upper-case intent |
| ReplyParser.ScanIntentUpper | ucp-demo-web-v2/server.py:291-300 | the intent held by the loop is always upper case |
| ReplyParser.Parse | ucp-demo-web-v2/server.py:288-316 | the parsed intent is always upper case, so the chat route's comparison with "ADD_TO_CART" ignores the case the model wrote |
| ReplyParser.FirstResponse | ucp-demo-web-v2/server.py:307-308 | the position of the first RESPONSE line: none exactly when there is none, otherwise the lowest |
| ReplyParser.ScanIntentDefault | ucp-demo-web-v2/server.py:291-300 | without an INTENT line the intent stays "CHAT" |
| ReplyParser.ScanIntentLast | ucp-demo-web-v2/server.py:299-300 | the last INTENT line decides the intent |
| ReplyParser.ScanProduct | ucp-demo-web-v2/server.py:292-306 | the product id is set exactly when some line sets it, and then it is that line's digits |
| ReplyParser.ScanProductLast | ucp-demo-web-v2/server.py:301-306 | the last line that sets a product id decides it |
| ReplyParser.ContributionsSnoc | ucp-demo-web-v2/server.py:307-313 | a line's contribution to the message is added after the earlier ones |
| ReplyParser.StepMessage | ucp-demo-web-v2/server.py:307-313 | one line enters the response section exactly when it is a RESPONSE line, and adds its contribution once inside |
| ReplyParser.ScanMessage | ucp-demo-web-v2/server.py:294-313 | the loop is inside the response section exactly when a RESPONSE line was read, and has collected exactly the section's text |
| ReplyParser.ParseIntentDefault | ucp-demo-web-v2/server.py:288-316 | the parsed intent is "CHAT" unless an INTENT line occurs |
| ReplyParser.ParseIntentLast | ucp-demo-web-v2/server.py:288-316 | if several INTENT lines occur, the last one wins |
| ReplyParser.ParseProductDigits | ucp-demo-web-v2/server.py:288-316 | the product id is none exactly when no line sets one, and otherwise the digits some PRODUCT_ID line yields |
| ReplyParser.ParseMessage | ucp-demo-web-v2/server.py:315 | the message is the response section joined by spaces, or the whole reply when that is empty or missing |
| ReplyParser.KeywordsAreUpper | ucp-demo-web-v2/server.py:299-307 | the keywords are written in upper case |
| ReplyParser.UpperKeepsKeyword | ucp-demo-web-v2/server.py:299-307 | a line that begins with a keyword passes that keyword's test after upper-casing |
| ReplyParser.KeywordLineStripped | ucp-demo-web-v2/server.py:297 | "KEYWORD: value" with a stripped value is already stripped |
| ReplyParser.ClassifyIntentLine | ucp-demo-web-v2/server.py:299-300 | "INTENT: v" sets the intent to v upper-cased |
| ReplyParser.ClassifyProductLine | ucp-demo-web-v2/server.py:301-306 | "PRODUCT_ID: v" yields the digits of v, nothing for NONE |
| ReplyParser.ClassifyResponseLine | ucp-demo-web-v2/server.py:307-311 | "RESPONSE: v" opens the response section with v |
| ReplyParser.ErrorReply | ucp-demo-web-v2/server.py:286 | the failure reply starts with the line "INTENT: CHAT" and ends with the error text verbatim, unchecked |
| ReplyParser.ErrorReplyLines | ucp-demo-web-v2/server.py:285-289 | for an error text without line breaks, the failure reply splits into its three lines, with the error text's trailing whitespace stripped |
| ReplyParser.ApologyStripped | ucp-demo-web-v2/server.py:286 | the apology is never empty after stripping, and stays on one line when the error text does |
| ReplyParser.ParseChatReply | ucp-demo-web-v2/server.py:288-316 | a reply classified as intent CHAT, no product and one response line parses to exactly that |
| ReplyParser.ErrorReplyClassified | ucp-demo-web-v2/server.py:285-311 | for an error text without line breaks, the failure reply's lines are INTENT CHAT, PRODUCT_ID NONE and the apology |
| ReplyParser.ErrorReplyParsesAsChat | ucp-demo-web-v2/server.py:285-316 | for an error text without line breaks, the reply substituted on a failed model call parses as a CHAT reply without a product, whose message is the apology with the error text, never empty |
| ReplyParser.ReadLine | ucp-demo-web-v2/server.py:297-313 | one turn of the loop's if/elif chain computes exactly the specified step |
| ReplyParser.ScanLines | ucp-demo-web-v2/server.py:291-313 | the `for line in lines` loop ends in exactly the state `Scan` reaches on the classified lines |
| ReplyParser.ParseGeminiResponse | ucp-demo-web-v2/server.py:288-316 | strip, split, scan and the message fallback return exactly `Parse`, whose meaning the lemmas above state |
| Fingerprint.Hex | ucp-demo-web-v2/server.py:76 | a number is written as exactly `width` lowercase hex digits |
| Fingerprint.Sig | ucp-demo-web-v2/server.py:74-76 | a signature is 16 lowercase hex digits and depends only on the value signed |

## Left out

- Flask routing and JSON transport. Only the state changes the routes make are modelled. The read-only routes (`/api/user`, `/api/products`, `/api/cart`, `/api/orders`, `/api/intent-mandates`) and start-up are left out.
- `load_products` reads a file, so the catalog is an input sequence of products.
- `ask_gemini` is an HTTP call to an external model. Only its failure reply is modelled, as `ReplyParser.ErrorReply`.
- Fingerprint.Sig: not SHA-256 over `json.dumps(..., sort_keys=True)`. It is a deterministic stand-in digest of the same length and alphabet over a sorted-key value tree. No property here depends on which hash is used, and collision resistance is not modelled.
- Random ids and codes, and timestamps, are inputs. The draws are indices into the alphabet. The 7-day `valid_until` and 4-day `estimated_delivery` dates are strings passed in, and date formatting is not modelled.
- Prices are exact `real` numbers, not Python floats, so floating-point rounding in totals is not modelled.
- Text.Upper: ASCII letters only. Python's `upper` also maps non-ASCII letters.
- Text.Lower: ASCII letters only. Python's `lower` also maps non-ASCII letters.
- Text.KeepDigits: keeps ASCII digits only. Python's `str.isdigit` also accepts other Unicode digits.
- The chat route's VIEW_CART branch only reads the cart, as `CartItems` and `CartTotal` do. Its BROWSE branch, a substring search for `last_mentioned_product`, is left out. So is `conversation_history`.
- Intent conditions are typed: only "category" and "max_price" are modelled. Other keys in the conditions dictionary are ignored by the matcher and would only be carried along. Conditions of the wrong type, which make the scan raise after the cart has grown, are not modelled; see below.
- Mandates arrive as typed records. A request mandate with missing keys, where Python raises `KeyError`, or an empty dict, which `not mandate` also refuses, is not modelled.
- Server.Shop.ApproveCheckout: `sign_mandate` updates the request's own dictionary in place. The model signs a copy. Nothing else holds that dictionary, so nothing observable is lost.
- `valid_until` of intent mandates is recorded but, as in the source, never checked.
- Requests are handled one at a time. Flask's threading is not modelled.

## Behaviour of the code worth knowing

- **The empty-cart check** (`ucp-demo-web-v2/server.py:382-383`) tests the raw list of ids, not the resolved items. A cart whose every id has left the catalog therefore gets a mandate with no lines and total 0 (`Mandates.StaleCartMandate`).
- **`process_payment`** does not check that the mandate is APPROVED. The model's `Mandates.ProcessPayment` accepts any mandate. `Mandates.Checkout` shows that the approval route only ever passes it a signed one.
- **`create_order`** does not check that the payment mandate names the cart mandate. `Mandates.BuildOrder` likewise accepts any pair. `Mandates.Checkout` shows that the pair built by the approval route is always linked.
- **The failure reply** (`ucp-demo-web-v2/server.py:286`) inserts the exception text unchecked. When that text itself contains line breaks, its later lines are parsed like the model's own: a line "PRODUCT_ID: 7" in it would set a product id, and a line "INTENT: ADD_TO_CART" would change the intent. `ReplyParser.ErrorReplyParsesAsChat` is therefore stated for error texts without line breaks.
- **The "NONE" test on the product id** (`ucp-demo-web-v2/server.py:303`) never changes the outcome: "NONE" has no digits, so the digit filter alone already yields no id (`ReplyParser.ProductDigits`).
- **An intent condition of the wrong type** is accepted when the mandate is registered (`ucp-demo-web-v2/server.py:201`, `ucp-demo-web-v2/server.py:426`). A "max_price" of `null` or `"500"` makes the price comparison raise `TypeError` (`ucp-demo-web-v2/server.py:222`). A category that is not a string makes `.lower()` raise (`ucp-demo-web-v2/server.py:218`). The scan runs only after the id was appended and remembered (`ucp-demo-web-v2/server.py:357-361`, and `ucp-demo-web-v2/server.py:466-472` in the chat route). So the request fails although the cart has grown. The mandate is never removed, so every later add whose scan reaches it fails the same way. The model's typed `Intents.Conditions` cannot express such a value, so this path is not modelled.
- **A profile without a default payment method** makes `create_cart_mandate` raise `StopIteration`. This is modelled as the error `NoDefaultPaymentMethod`. `Mandates.DemoProfileHasDefault` shows that the built-in profile never takes that path.
