# weblarek storefront: domain models and checkout, in Dafny

This project models the client-side core of the weblarek storefront. It has
three domain models: the product catalog (`Products`), the shopping cart
(`Cart`) and the customer draft (`Orders`). It also models the checkout flow
that `src/main.ts` wires around them, minus the DOM, and the logic inside the
card views of `src/components/ui/Card.ts`.

Modules, one per source file or shared concern:

- `Types` (types.dfy): `Product`, `PaymentMethod`, `OrderRequest`, and an `Option` for `null`/`undefined`.
- `Labels` (labels.dfy): the fixed price and button texts that both `main.ts` and `Card.ts` write.
- `Text` (text.dfy): JavaScript `trim()` and its whitespace set. Also the decimal rendering of an integer inside a template literal, with a parser that reads it back.
- `CartModel` (cart.dfy): class `Cart` over a `seq<Product>`. It has the list functions that specify it (`HasId`, `RemoveId`, `Added`, `Total`) and the lemmas about them. A pure run of any operation sequence from the empty cart (`Run`) is included too.
- `ProductsModel` (products.dfy): class `Products` and the first-match lookup `FindById`.
- `OrdersModel` (orders.dfy): class `Orders` and its `validate`.
- `Checkout` (checkout.dfy): `formatPrice`, the step-1 form (`AddressForm`) and the step-2 form (`ContactsForm`) as classes, the preview buy toggle, the basket listing with its delete action, and the catalog load.
- `CardUi` (card.dfy): `formatPrice`, `setCategory` over a sequence of class tokens, the preview button state, and the basket row index.

The two checkout forms are specified against one reference function,
`StatusOf`. Given the list of problems, it disables submission exactly when
the list is non-empty, and it shows the problems joined by `"; "`. The methods
that mirror the source's step-by-step `validate()` are proved to leave exactly
that state.

The network is replaced by parameters. `LoadCatalog` takes the fetched list
(`None` when the fetch failed). `SubmitOrder` takes the outcome of
`createOrder`: the confirmed total, or the text of the error.

Where the code and the design description of the system disagree, the model
follows the code:

- A successful order clears only the cart. `main.ts` never uses `Orders`, so no customer draft is cleared.
- `Products.setItems` accepts duplicate ids.
- None of the models emits change events.
- The step-2 check looks only at email and phone. It does not check the address or payment again.
- `getItems` returns the model's own array, not a copy.

## Model

| member | source | states |
|---|---|---|
| `Types.Ids` | src/main.ts:183 | the id list has one entry per cart item, in cart order |
| `CartModel.RemoveId` | src/components/models/Cart.ts:13 | the filter never lengthens the list; what it keeps is stated by the `RemoveId` lemmas below |
| `CartModel.Total` | src/components/models/Cart.ts:25 | the sum of `price ?? 0`; with no negative prices it is non-negative |
| `CartModel.Added` | src/components/models/Cart.ts:6-10 | the id is present afterwards; the list grows by one exactly when the id was absent, and the earlier items stay in place |
| `CartModel.HasId` | src/components/models/Cart.ts:16-18 | `some` over the list: true iff some item has the id |
| `CartModel.IdSet` | src/components/models/Cart.ts:20-22 | the id set holds exactly the ids some item has |
| `CartModel.TotalAppend` | src/components/models/Cart.ts:24-26 | the total of a concatenation is the sum of the totals |
| `CartModel.RemoveIdMembers` | src/components/models/Cart.ts:12-14 | the filter keeps exactly the items whose id differs |
| `CartModel.RemoveIdAppend` | src/components/models/Cart.ts:12-14 | the filter distributes over concatenation, so kept items keep their relative order |
| `CartModel.RemoveIdAbsent` | src/components/models/Cart.ts:12-14 | removing an id no item has leaves the list unchanged |
| `CartModel.RemoveIdRemoves` | src/components/models/Cart.ts:12-18 | after removal no item has the id |
| `CartModel.RemoveIdDistinct` | src/components/models/Cart.ts:12-14 | removal keeps ids pairwise distinct |
| `CartModel.AddedDistinct` | src/components/models/Cart.ts:6-10 | adding keeps ids pairwise distinct |
| `CartModel.AddedIdempotent` | src/components/models/Cart.ts:6-10 | adding the same product twice equals adding it once |
| `CartModel.AddedContents` | src/components/models/Cart.ts:6-10 | after adding, the id is present; a new id is appended at the end with earlier items in place; a present id leaves the list unchanged |
| `CartModel.AddedTotal` | src/components/models/Cart.ts:6-10 | adding a new product raises the total by its price (0 when null) |
| `CartModel.OthersLackId` | src/components/models/Cart.ts:4 | with distinct ids, no other position carries the id of item `k` |
| `CartModel.RemoveIdSingle` | src/components/models/Cart.ts:12-14 | removing the id of the only item that has it removes just that item |
| `CartModel.RemoveIdAt` | src/components/models/Cart.ts:12-14 | with distinct ids, removing item `k`'s id removes exactly item `k` |
| `CartModel.RemoveIdTotal` | src/components/models/Cart.ts:12-26 | removing an item lowers the total by its price, or by 0 when the price is null |
| `CartModel.CountIsNumberOfIds` | src/components/models/Cart.ts:20-22 | with distinct ids the count is the number of distinct ids |
| `CartModel.RunIdsDistinct` | src/components/models/Cart.ts:4-34 | ids stay pairwise distinct after any sequence of add/remove/clear started on an empty cart |
| `CartModel.Cart.constructor` | src/components/models/Cart.ts:4 | a new cart is empty and satisfies the distinct-ids invariant |
| `CartModel.Cart.AddItem` | src/components/models/Cart.ts:6-10 | the list becomes `Added(old, item)`; the invariant holds; `hasItem(item.id)` is true afterwards |
| `CartModel.Cart.RemoveItem` | src/components/models/Cart.ts:12-14 | the list becomes the filtered list; the invariant holds; `hasItem(id)` is false afterwards |
| `CartModel.Cart.HasItem` | src/components/models/Cart.ts:16-18 | true iff some item in the cart has the id |
| `CartModel.Cart.GetCount` | src/components/models/Cart.ts:20-22 | the count is the list length, which equals the number of distinct ids |
| `CartModel.Cart.GetTotal` | src/components/models/Cart.ts:24-26 | the `reduce` loop computes the sum of prices with null counted as 0 |
| `CartModel.Cart.GetItems` | src/components/models/Cart.ts:28-30 | returns the current list, whose ids are distinct |
| `CartModel.Cart.ClearItems` | src/components/models/Cart.ts:32-34 | afterwards the list is empty, so count and total are 0 |
| `ProductsModel.FindById` | src/components/models/Products.ts:14-16 | `find`: none iff no item has the id; otherwise the item at the first position with that id |
| `ProductsModel.Products.constructor` | src/components/models/Products.ts:4 | a new catalog holds an empty list |
| `ProductsModel.Products.SetItems` | src/components/models/Products.ts:6-8 | the list is replaced by exactly the argument, with no duplicate check |
| `ProductsModel.Products.GetItems` | src/components/models/Products.ts:10-12 | returns the list as last set |
| `ProductsModel.Products.GetById` | src/components/models/Products.ts:14-16 | none iff no item matches; a found item has the id, is in the list, and is the first match |
| `OrdersModel.Orders.constructor` | src/components/models/Orders.ts:18-64 | a fresh draft has all fields absent; its check reports the payment and address messages and `''` for email and phone |
| `OrdersModel.Orders.SetPayment` | src/components/models/Orders.ts:20-22 | sets the payment; the other three fields are unchanged |
| `OrdersModel.Orders.SetAddress` | src/components/models/Orders.ts:24-26 | sets the address; the other three fields are unchanged |
| `OrdersModel.Orders.SetEmail` | src/components/models/Orders.ts:28-30 | sets the email; the other three fields are unchanged |
| `OrdersModel.Orders.SetPhone` | src/components/models/Orders.ts:32-34 | sets the phone; the other three fields are unchanged |
| `OrdersModel.Orders.GetCustomer` | src/components/models/Orders.ts:36-38 | returns a value equal to the draft and changes nothing |
| `OrdersModel.Orders.Clear` | src/components/models/Orders.ts:40-42 | all four fields become absent |
| `OrdersModel.Orders.Validate` | src/components/models/Orders.ts:44-64 | payment message iff unset. Address message iff unset or blank after trimming. Email or phone message iff set and blank. All four keys are present, `''` means valid. A pure function: it mutates nothing and equal drafts give equal results |
| `Text.IsWhitespace` | src/main.ts:157 | the characters `trim()` removes: the ECMAScript WhiteSpace and LineTerminator characters |
| `Text.IsBlank` | src/main.ts:157 | `trim().length === 0`: every character is whitespace |
| `Text.Trim` | src/components/models/Orders.ts:54-62 | `trim()` returns a slice of the input with only whitespace cut at both ends and no whitespace at its ends; it is empty iff the input is all whitespace |
| `Text.NatToDecimal` | src/main.ts:18 | renders digits only, with no leading zero (`0` is exactly `"0"`), and parses back to the number |
| `Text.CanonicalDecimalIsRendering` | src/main.ts:18 | every digit string without a leading zero is the rendering of the number it reads as, so the rendering is the usual decimal numeral and nothing else |
| `Text.IntToDecimal` | src/main.ts:18 | `${value}` is the canonical decimal of a non-negative value, and `-` followed by the canonical decimal of the magnitude of a negative one; it parses back to the value |
| `Text.IntToDecimalInjective` | src/main.ts:18 | distinct integers render differently |
| `Checkout.FormatPrice` | src/main.ts:17-19 | `'Бесценно'` iff the price is null; otherwise the label is the decimal numeral of the value followed by `' синапсов'`, and the value can be read back from it |
| `Checkout.FormatPriceInjective` | src/main.ts:17-19 | distinct prices get distinct labels |
| `Checkout.CardFormatPriceAgrees` | src/components/ui/Card.ts:40-43 | the card views' price label equals main.ts's for every argument, a missing one reading like null |
| `Checkout.Filled` | src/main.ts:157 | an input counts as filled iff it exists and is not all whitespace |
| `Checkout.TrimmedValue` | src/main.ts:185 | the trimmed value, or `''` for a missing input, is empty iff the input is missing or blank, and otherwise has no whitespace at its ends |
| `Checkout.AppendError` | src/main.ts:164 | with no text yet the message alone; otherwise the old text, then `'; '`, then the message, in that order |
| `Checkout.AppendErrorJoin` | src/main.ts:161-165 | appending non-empty messages one by one builds their join by `'; '`, which is what the reference status shows |
| `Checkout.JoinEmpty` | src/main.ts:161-165 | error text joined from non-empty messages is `''` iff there are no messages |
| `Checkout.AddressStepStatus` | src/main.ts:156-165 | next is enabled iff the address is non-blank after trimming and a payment is chosen; the text is `''` when valid, else the address prompt, the payment prompt, or both joined by `'; '` with the address first |
| `Checkout.ContactStepStatus` | src/main.ts:218-227 | pay is enabled iff email and phone are both non-blank; the text is `''` when valid, else the prompts joined by `'; '` with the email first |
| `Checkout.AddressForm.Open` | src/main.ts:154-205 | the form opens with no payment chosen, already validated |
| `Checkout.AddressForm.Validate` | src/main.ts:156-166 | the button flag and error text end up equal to the reference status of the step-1 problems |
| `Checkout.AddressForm.SelectPayment` | src/main.ts:168-173 | records the payment, keeps the address, and revalidates |
| `Checkout.AddressForm.InputAddress` | src/main.ts:177 | records the typed address, keeps the payment, and revalidates |
| `Checkout.AddressForm.Next` | src/main.ts:179-203 | ignored while next is disabled. Otherwise the draft holds the cart ids in order, the payment, the trimmed address, empty email and phone, and the cart total |
| `Checkout.ContactsForm.Open` | src/main.ts:209-262 | the form opens on the step-1 draft, already validated |
| `Checkout.ContactsForm.Validate` | src/main.ts:218-228 | the button flag and error text end up equal to the reference status of the step-2 problems |
| `Checkout.ContactsForm.InputEmail` | src/main.ts:230 | records the typed email and revalidates |
| `Checkout.ContactsForm.InputPhone` | src/main.ts:231 | records the typed phone and revalidates |
| `Checkout.ChargedText` | src/main.ts:248 | the confirmation is `'Списано '` followed by the price label of the confirmed total |
| `Checkout.ContactsForm.SubmitOrder` | src/main.ts:233-256 | ignored while pay is disabled. Otherwise the request is the draft with only email and phone replaced by their trimmed values. Success empties the cart and shows the charged total. Failure keeps the cart and sets the error text to the error |
| `Checkout.PreviewProduct` | src/main.ts:58-59 | the catalog's first match by id when the catalog has the id, otherwise exactly the bundled dataset's first match; none iff neither has the id |
| `Checkout.PreviewButton` | src/main.ts:75-81 | a null price gives a disabled `'Недоступно'` button with no handler; any other price gives a live button labelled `'Удалить из корзины'` when in the cart and `'В корзину'` otherwise |
| `Checkout.Toggled` | src/main.ts:83-87 | a click makes the product present iff it was absent; an absent product is appended at the end |
| `Checkout.ToggledFlips` | src/main.ts:82-87 | a click flips whether the product is in the cart and keeps ids distinct |
| `Checkout.ToggledTwice` | src/main.ts:82-87 | two clicks on a product that was not in the cart give back the original list |
| `Checkout.PreviewClick` | src/main.ts:76-90 | a null price leaves the cart alone; otherwise the item is removed if present and added if absent |
| `Checkout.BasketRows` | src/main.ts:119-128 | one row per item, in order, with the running number, title and price label |
| `Checkout.Basket` | src/main.ts:109-138 | an empty cart shows the empty notice and disables checkout, a non-empty one enables it; the rows are `BasketRows` of the cart; row `i`'s index is the decimal numeral of `i+1`; the total text is the cart total in synapses |
| `Checkout.BasketDelete` | src/main.ts:129-133 | the item leaves the cart and the basket is re-rendered from what remains |
| `Checkout.LoadCatalog` | src/main.ts:273-280 | the catalog becomes the fetched list, or the bundled dataset when the fetch failed |
| `CardUi.FormatPrice` | src/components/ui/Card.ts:40-43 | `'Бесценно'` iff the argument is null or missing; otherwise the decimal numeral of the price followed by `' синапсов'` |
| `CardUi.CategoryMapValuesArePrefixed` | src/utils/constants.ts:11-17 | every class in `categoryMap` starts with `card__category_` |
| `CardUi.WithoutCategoryTokens` | src/components/ui/Card.ts:31-34 | the filtered tokens are no more than the input and none of them starts with `card__category_` |
| `CardUi.AddClass` | src/components/ui/Card.ts:36 | the class is present afterwards, the earlier tokens stay in place, and at most one token is added |
| `CardUi.CategoryClass` | src/components/ui/Card.ts:35-37 | a class is added iff the category is given and is a key of `categoryMap`; it is the mapped class, which carries the category prefix |
| `CardUi.WithCategory` | src/components/ui/Card.ts:29-38 | the mapped class is present when the category is mapped; with no mapped class no category token remains |
| `CardUi.WithoutCategoryTokensMembers` | src/components/ui/Card.ts:31-34 | the filter keeps exactly the tokens not starting with `card__category_` |
| `CardUi.WithoutCategoryTokensAppend` | src/components/ui/Card.ts:31-34 | the filter distributes over concatenation, so kept tokens keep their order |
| `CardUi.WithoutCategoryTokensIdempotent` | src/components/ui/Card.ts:31-34 | filtering twice is filtering once |
| `CardUi.WithCategoryTokens` | src/components/ui/Card.ts:29-38 | non-category tokens are kept in order. The mapped class is present iff the category is a mapped key. No other category token remains, so at most one is present |
| `CardUi.SetCategory` | src/components/ui/Card.ts:29-38 | a null element is left alone; otherwise its tokens become the result of `WithCategory` |
| `CardUi.WithInCart` | src/components/ui/Card.ts:103-105 | only the label changes; it is `'Удалить из корзины'` iff in the cart, otherwise `'В корзину'` |
| `CardUi.WithUnavailable` | src/components/ui/Card.ts:107-110 | the disabled flag becomes the argument; disabling sets `'Недоступно'`, enabling keeps the label |
| `CardUi.Rendered` | src/components/ui/Card.ts:112-127 | with a product, render disables the button iff the price is null; a given `inCart` decides the label, even over `'Недоступно'`; otherwise the button is as before |
| `CardUi.PreviewCard.constructor` | src/components/ui/Card.ts:88-95 | a new preview card has no product and the template's button state |
| `CardUi.PreviewCard.SetProduct` | src/components/ui/Card.ts:25-27 | records the product; the button is unchanged |
| `CardUi.PreviewCard.SetInCart` | src/components/ui/Card.ts:103-105 | only the label changes, to the in-cart or add label |
| `CardUi.PreviewCard.SetDisabledUnavailable` | src/components/ui/Card.ts:107-110 | `true` disables the button and sets `'Недоступно'`; `false` enables it and keeps the text |
| `CardUi.PreviewCard.Render` | src/components/ui/Card.ts:112-129 | the availability step runs when a product is set, then the cart label when `inCart` is given |
| `CardUi.BasketIndexText` | src/components/ui/Card.ts:154 | shows `0` when no index is given; otherwise the decimal numeral of the index (with `-` for a negative one), which reads back to the same number |

## Left out

- Event bus and change events: the models shown emit none, and `base/Events` is not part of this model.
- DOM and view plumbing is not modelled. This covers template cloning, `querySelector`, listeners, `innerHTML`, image and CDN URLs, `renderCatalog`, `updateBasketCounter`, and the `Modal`, `Gallery`, `Header`, `Basket`, `Success` and `Forms` views. They are thin setters over DOM nodes.
- The `button_alt` class toggling on the two payment buttons (src/main.ts:170-171) is a class change on DOM nodes; only the chosen payment is modelled.
- Network and asynchrony: `ShopApi` and `Api` are not part of this model. The catalog fetch and `createOrder` are reduced to the outcome they deliver, which the caller passes in.
- The console self-test block (src/main.ts:288-323) is not modelled.
- Prices are whole numbers. JavaScript floating point, and the way it prints fractions, are not modelled.
- The forms' buttons and error element are taken as present. With a missing button, `if (btn && btn.disabled)` would let a submission through; that path is not modelled. The preview template's button is taken to start enabled.
- Class names are modelled as a sequence of tokens. Splitting on single spaces and `classList`'s ordered-set normalisation (deduplication, dropping empty tokens) are not modelled; `add` is modelled as "append if absent".
- `categoryMap` lookup covers its own keys only. Inherited object keys such as `toString` are not modelled.
- Strings are sequences of Unicode scalar values rather than UTF-16 code units. Every character `trim()` removes lies in the Basic Multilingual Plane, so blankness is the same.
- `CartModel.Cart.GetItems`, `ProductsModel.Products.GetItems`: return the list as a value, so a caller mutating the array the source hands out (and thereby the model) is not captured.
- The `console.log` of the loaded catalog and the `console.error` of a failed fetch (src/main.ts:276, src/main.ts:278) are output only and are not modelled.
- `Text.IntToDecimal`: renders every integer as plain digits. JavaScript writes numbers of 1e21 or more in exponent form (`${1e21}` is `"1e+21"`); prices that large are not modelled.
- `ProductsModel.Products.SetItems`: keeps the argument as a value. The source stores the caller's array by reference, so later changes the caller makes to that array are not captured.
- `Checkout.ContactsForm.SubmitOrder`: the order service's response id is not modelled, only the confirmed total and the error text.
