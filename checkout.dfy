/** The checkout flow of src/main.ts without its DOM: price labels, the two
    order forms (address and payment, then email and phone), the preview's
    buy toggle, the basket listing, and the catalog load. Input elements that
    may be missing from a template are `Option<string>`; the network is
    reduced to the outcome it delivers. */
module Checkout {
  import opened Types
  import opened Text
  import opened CartModel
  import opened ProductsModel
  import opened Labels
  import CardUi

  /** `formatPrice`: "Бесценно" for no price, otherwise the decimal numeral
      of the number followed by " синапсов"; the number can be read back
      from the label. */
  function FormatPrice(value: Option<int>): (r: string)
    ensures r == Priceless <==> value.None?
    ensures value.Some? ==> |r| > |Synapses| && r[|r| - |Synapses|..] == Synapses
    ensures value.Some? ==> r[..|r| - |Synapses|] == IntToDecimal(value.value)
    ensures value.Some? ==> ParseInt(r[..|r| - |Synapses|]) == value.value
  {
    if value.None? then Priceless
    else
      var d := IntToDecimal(value.value);
      assert (d + Synapses)[..|d|] == d;
      assert (d + Synapses)[|d|..] == Synapses;
      d + Synapses
  }

  /** Different prices get different labels. */
  lemma FormatPriceInjective(a: Option<int>, b: Option<int>)
    ensures FormatPrice(a) == FormatPrice(b) ==> a == b
  {
    if FormatPrice(a) == FormatPrice(b) && a.Some? && b.Some? {
      var r := FormatPrice(a);
      assert ParseInt(r[..|r| - |Synapses|]) == a.value;
    }
  }

  /** The card views label prices as `formatPrice` does, a missing price
      argument reading like `null`. */
  lemma CardFormatPriceAgrees(price: CardUi.PriceArg)
    ensures CardUi.FormatPrice(price) == FormatPrice(if price.Value? then Some(price.v) else None)
  {
    if price.Value? {
      var c := CardUi.FormatPrice(price);
      var m := FormatPrice(Some(price.v));
      assert c == c[..|c| - |Synapses|] + c[|c| - |Synapses|..];
      assert m == m[..|m| - |Synapses|] + m[|m| - |Synapses|..];
    }
  }

  // ---------------------------------------------------------------------
  // Form checking shared by both steps

  const AddressPrompt := "Введите адрес доставки"
  const PaymentPrompt := "Выберите способ оплаты"
  const EmailPrompt := "Введите email"
  const PhonePrompt := "Введите телефон"
  const Separator := "; "

  /** `Boolean(input && input.value.trim().length > 0)` */
  predicate Filled(input: Option<string>): (b: bool)
    ensures b <==> input.Some? && !IsBlank(input.value)
  {
    input.Some? && |Trim(input.value)| > 0
  }

  /** `input?.value.trim() || ''` */
  function TrimmedValue(input: Option<string>): (r: string)
    ensures r == "" <==> !Filled(input)
    ensures r != "" ==> !IsWhitespace(r[0]) && !IsWhitespace(r[|r| - 1])
  {
    if input.Some? then Trim(input.value) else ""
  }

  /** `(text ? text + '; ' : '') + message`: how the forms extend their error text. */
  function AppendError(text: string, message: string): (r: string)
    ensures |r| == (if text == "" then 0 else |text| + |Separator|) + |message|
    ensures text == "" ==> r == message
    ensures text != "" ==> r[..|text|] == text && r[|text|..] == Separator + message
  {
    (if text != "" then text + Separator else "") + message
  }

  /** The messages in order, separated by "; ". */
  function Join(messages: seq<string>): string {
    if |messages| == 0 then ""
    else if |messages| == 1 then messages[0]
    else messages[0] + Separator + Join(messages[1..])
  }

  /** The control state one `validate()` call leaves behind. */
  datatype FormStatus = FormStatus(submitDisabled: bool, errorText: string)

  /** Reference behaviour of a form check: submission is blocked exactly when
      something is wrong, and the error text lists every problem in order. */
  function StatusOf(problems: seq<string>): FormStatus {
    FormStatus(problems != [], Join(problems))
  }

  /** Joined non-empty messages are empty only when there are none. */
  lemma {:induction false} JoinEmpty(messages: seq<string>)
    requires forall i :: 0 <= i < |messages| ==> messages[i] != ""
    ensures Join(messages) == "" <==> messages == []
  {
    if |messages| > 1 {
      assert |Join(messages)| >= |messages[0]|;
    }
  }

  /** Extending a joined error text message by message builds the join of
      all the messages: the forms' step-by-step text is `Join`. */
  lemma {:induction false} AppendErrorJoin(messages: seq<string>, m: string)
    requires forall i :: 0 <= i < |messages| ==> messages[i] != ""
    ensures AppendError(Join(messages), m) == Join(messages + [m])
  {
    if messages == [] {
      assert messages + [m] == [m];
    } else if |messages| == 1 {
      assert (messages + [m])[1..] == [m];
    } else {
      var rest := messages[1..];
      assert (messages + [m])[1..] == rest + [m];
      AppendErrorJoin(rest, m);
      JoinEmpty(rest);
    }
  }

  /** What is wrong on the address step, the address first. */
  function AddressStepProblems(address: Option<string>, payment: Option<PaymentMethod>): seq<string> {
    (if Filled(address) then [] else [AddressPrompt]) + (if payment.Some? then [] else [PaymentPrompt])
  }

  /** What is wrong on the contact step, the email first. */
  function ContactStepProblems(email: Option<string>, phone: Option<string>): seq<string> {
    (if Filled(email) then [] else [EmailPrompt]) + (if Filled(phone) then [] else [PhonePrompt])
  }

  /** The address step can go on exactly when the address is not blank and a
      payment method is chosen; otherwise the error text is the address
      prompt, the payment prompt, or both, address first. */
  lemma AddressStepStatus(address: Option<string>, payment: Option<PaymentMethod>)
    ensures var st := StatusOf(AddressStepProblems(address, payment));
      && (!st.submitDisabled <==> address.Some? && !IsBlank(address.value) && payment.Some?)
      && (st.errorText == "" <==> !st.submitDisabled)
      && st.errorText == (
        if payment.Some? then (if Filled(address) then "" else AddressPrompt)
        else if Filled(address) then PaymentPrompt
        else AddressPrompt + Separator + PaymentPrompt)
  {
    var ps := AddressStepProblems(address, payment);
    JoinEmpty(ps);
    if |ps| == 2 {
      assert ps[1..] == [PaymentPrompt];
    }
  }

  /** The contact step can be paid exactly when email and phone are both not
      blank; otherwise the error text lists the email prompt before the
      phone prompt. */
  lemma ContactStepStatus(email: Option<string>, phone: Option<string>)
    ensures var st := StatusOf(ContactStepProblems(email, phone));
      && (!st.submitDisabled <==> email.Some? && !IsBlank(email.value) && phone.Some? && !IsBlank(phone.value))
      && (st.errorText == "" <==> !st.submitDisabled)
      && st.errorText == (
        if Filled(phone) then (if Filled(email) then "" else EmailPrompt)
        else if Filled(email) then PhonePrompt
        else EmailPrompt + Separator + PhonePrompt)
  {
    var ps := ContactStepProblems(email, phone);
    JoinEmpty(ps);
    if |ps| == 2 {
      assert ps[1..] == [PhonePrompt];
    }
  }

  // ---------------------------------------------------------------------
  // Step 1: address and payment (`openOrderStep1`)

  class AddressForm {
    const cart: Cart
    /** The address input's value; `None` when the form has no address input. */
    var address: Option<string>
    /** The local `payment` variable, `''` being `None`. */
    var payment: Option<PaymentMethod>
    var nextDisabled: bool
    var errorText: string

    ghost predicate Valid()
      reads this
    {
      FormStatus(nextDisabled, errorText) == StatusOf(AddressStepProblems(address, payment))
    }

    /** Opening the form: no payment chosen yet, then one `validate()`. */
    constructor Open(cart: Cart, address: Option<string>)
      ensures this.cart == cart && this.address == address && payment == None
      ensures Valid()
    {
      this.cart := cart;
      this.address := address;
      payment := None;
      nextDisabled := true;
      errorText := "";
      new;
      Validate();
    }

    /** The inner `validate()`. */
    method Validate()
      modifies this
      ensures address == old(address) && payment == old(payment)
      ensures Valid()
    {
      var addrOk := Filled(address);
      var payOk := payment.Some?;
      var ok := addrOk && payOk;
      nextDisabled := !ok;
      errorText := "";
      if !addrOk {
        errorText := AddressPrompt;
      }
      if !payOk {
        errorText := AppendError(errorText, PaymentPrompt);
      }
      ghost var ps := AddressStepProblems(address, payment);
      if addrOk && payOk {
        assert ps == [];
      } else if addrOk {
        assert ps == [PaymentPrompt];
      } else if payOk {
        assert ps == [AddressPrompt];
      } else {
        assert ps == [AddressPrompt, PaymentPrompt] && ps[1..] == [PaymentPrompt];
        assert Join(ps[1..]) == PaymentPrompt;
        assert errorText == AddressPrompt + Separator + PaymentPrompt;
      }
    }

    /** A click on the card or cash button. */
    method SelectPayment(m: PaymentMethod)
      modifies this
      ensures payment == Some(m) && address == old(address)
      ensures Valid()
    {
      payment := Some(m);
      Validate();
    }

    /** An `input` event on the address field. */
    method InputAddress(value: string)
      requires address.Some?
      modifies this
      ensures address == Some(value) && payment == old(payment)
      ensures Valid()
    {
      address := Some(value);
      Validate();
    }

    /** Submitting the form or clicking "next": ignored while the button is
        disabled, otherwise the order draft for step 2 — the cart's ids in
        order, the chosen payment, the trimmed address, no contacts yet and
        the cart total. */
    method Next() returns (draft: Option<OrderRequest>)
      requires Valid() && cart.Valid()
      ensures draft.None? <==> nextDisabled
      ensures draft.Some? ==> payment.Some? && draft.value == OrderRequest(
        Ids(cart.items), payment.value, TrimmedValue(address), "", "", Total(cart.items))
    {
      if nextDisabled {
        return None;
      }
      var total := cart.GetTotal();
      draft := Some(OrderRequest(Ids(cart.GetItems()), payment.value, TrimmedValue(address), "", "", total));
    }
  }

  // ---------------------------------------------------------------------
  // Step 2: email and phone, then submission (`openOrderStep2`)

  /** What the order service answers: `res.total` on success, or the text
      `String(err)` of the error it throws. */
  datatype SubmitOutcome = Confirmed(total: int) | Rejected(message: string)

  /** The confirmation text `Списано ${res.total} синапсов`. */
  function ChargedText(total: int): (r: string)
    ensures r == "Списано " + FormatPrice(Some(total))
  {
    "Списано " + IntToDecimal(total) + Synapses
  }

  class ContactsForm {
    const draft: OrderRequest
    var email: Option<string>
    var phone: Option<string>
    var payDisabled: bool
    var errorText: string

    ghost predicate Valid()
      reads this
    {
      FormStatus(payDisabled, errorText) == StatusOf(ContactStepProblems(email, phone))
    }

    /** Opening the form with the draft from step 1, then one `validate()`. */
    constructor Open(draft: OrderRequest, email: Option<string>, phone: Option<string>)
      ensures this.draft == draft && this.email == email && this.phone == phone
      ensures Valid()
    {
      this.draft := draft;
      this.email := email;
      this.phone := phone;
      payDisabled := true;
      errorText := "";
      new;
      Validate();
    }

    /** The inner `validate()`. */
    method Validate()
      modifies this
      ensures email == old(email) && phone == old(phone)
      ensures Valid()
    {
      var emailOk := Filled(email);
      var phoneOk := Filled(phone);
      var ok := emailOk && phoneOk;
      payDisabled := !ok;
      errorText := "";
      if !emailOk {
        errorText := EmailPrompt;
      }
      if !phoneOk {
        errorText := AppendError(errorText, PhonePrompt);
      }
      ghost var ps := ContactStepProblems(email, phone);
      if emailOk && phoneOk {
        assert ps == [];
      } else if emailOk {
        assert ps == [PhonePrompt];
      } else if phoneOk {
        assert ps == [EmailPrompt];
      } else {
        assert ps == [EmailPrompt, PhonePrompt] && ps[1..] == [PhonePrompt];
        assert Join(ps[1..]) == PhonePrompt;
        assert errorText == EmailPrompt + Separator + PhonePrompt;
      }
    }

    method InputEmail(value: string)
      requires email.Some?
      modifies this
      ensures email == Some(value) && phone == old(phone)
      ensures Valid()
    {
      email := Some(value);
      Validate();
    }

    method InputPhone(value: string)
      requires phone.Some?
      modifies this
      ensures phone == Some(value) && email == old(email)
      ensures Valid()
    {
      phone := Some(value);
      Validate();
    }

    /** `submitOrder`. Ignored while the pay button is disabled. Otherwise the
        draft goes out with only its email and phone replaced by the trimmed
        inputs; on success the cart is emptied and the charged total shown,
        on failure the cart is kept and the error text shows the error. */
    method SubmitOrder(cart: Cart, outcome: SubmitOutcome) returns (request: Option<OrderRequest>, confirmation: Option<string>)
      requires cart.Valid()
      modifies this, cart
      ensures cart.Valid()
      ensures email == old(email) && phone == old(phone) && payDisabled == old(payDisabled)
      ensures old(payDisabled) ==>
        request.None? && confirmation.None? && cart.items == old(cart.items) && errorText == old(errorText)
      ensures !old(payDisabled) ==>
        request == Some(draft.(email := TrimmedValue(email), phone := TrimmedValue(phone)))
      ensures !old(payDisabled) && outcome.Confirmed? ==>
        cart.items == [] && confirmation == Some(ChargedText(outcome.total)) && errorText == old(errorText)
      ensures !old(payDisabled) && outcome.Rejected? ==>
        cart.items == old(cart.items) && confirmation.None? && errorText == outcome.message
    {
      if payDisabled {
        return None, None;
      }
      request := Some(draft.(email := TrimmedValue(email), phone := TrimmedValue(phone)));
      match outcome
      case Confirmed(total) =>
        confirmation := Some(ChargedText(total));
        cart.ClearItems();
      case Rejected(message) =>
        confirmation := None;
        errorText := message;
    }
  }

  // ---------------------------------------------------------------------
  // Preview (`openPreview`)

  /** The product a preview shows: the catalog's first match, else the
      bundled dataset's. */
  function PreviewProduct(catalog: seq<Product>, fallback: seq<Product>, id: string): (r: Option<Product>)
    ensures r.None? <==> !HasId(catalog, id) && !HasId(fallback, id)
    ensures r.Some? ==> r.value.id == id && (r.value in catalog || r.value in fallback)
    ensures HasId(catalog, id) ==> r == FindById(catalog, id)
    ensures !HasId(catalog, id) ==> r == FindById(fallback, id)
  {
    match FindById(catalog, id)
    case Some(p) => Some(p)
    case None => FindById(fallback, id)
  }

  /** The preview's buy button as `openPreview` sets it up. */
  datatype BuyButton = BuyButton(disabled: bool, text: string, handlesClick: bool)

  /** A product without a price gets a disabled "Недоступно" button with no
      click handler; any other gets a live button labelled by cart membership.
      The template's button is taken to start enabled. */
  function PreviewButton(p: Product, inCart: bool): (b: BuyButton)
    ensures b.disabled <==> p.price.None?
    ensures b.handlesClick <==> !b.disabled
    ensures b.text == UnavailableLabel <==> p.price.None?
    ensures b.text == InCartLabel <==> p.price.Some? && inCart
    ensures p.price.Some? ==> b.text == (if inCart then InCartLabel else AddLabel)
  {
    if p.price.None? then BuyButton(true, UnavailableLabel, false)
    else BuyButton(false, if inCart then InCartLabel else AddLabel, true)
  }

  /** What a click on a live buy button does to the cart list. */
  function Toggled(s: seq<Product>, p: Product): (r: seq<Product>)
    ensures HasId(r, p.id) == !HasId(s, p.id)
    ensures !HasId(s, p.id) ==> r == s + [p]
  {
    if HasId(s, p.id) then
      RemoveIdRemoves(s, p.id);
      RemoveId(s, p.id)
    else
      Added(s, p)
  }

  /** A click flips whether the product is in the cart and keeps the ids distinct. */
  lemma ToggledFlips(s: seq<Product>, p: Product)
    requires IdsDistinct(s)
    ensures HasId(Toggled(s, p), p.id) == !HasId(s, p.id)
    ensures IdsDistinct(Toggled(s, p))
  {
    if HasId(s, p.id) {
      RemoveIdRemoves(s, p.id);
      RemoveIdDistinct(s, p.id);
    } else {
      AddedContents(s, p);
      AddedDistinct(s, p);
    }
  }

  /** Two clicks on a product that was not in the cart restore the cart. */
  lemma ToggledTwice(s: seq<Product>, p: Product)
    requires !HasId(s, p.id)
    ensures Toggled(Toggled(s, p), p) == s
  {
    AddedContents(s, p);
    assert s + [p] == s + [p] + [];
    RemoveIdSingle(s, p, []);
  }

  /** The click handler of the preview button. */
  method PreviewClick(cart: Cart, p: Product)
    requires cart.Valid()
    modifies cart
    ensures cart.Valid()
    ensures cart.items == if PreviewButton(p, old(cart.HasItem(p.id))).handlesClick
      then Toggled(old(cart.items), p) else old(cart.items)
  {
    if p.price.None? {
      return;
    }
    if cart.HasItem(p.id) {
      cart.RemoveItem(p.id);
    } else {
      cart.AddItem(p);
    }
  }

  // ---------------------------------------------------------------------
  // Basket (`openBasket`)

  const EmptyBasketNotice := "Корзина пуста"

  datatype BasketRow = BasketRow(index: string, title: string, price: string)

  datatype BasketView = BasketView(
    rows: seq<BasketRow>,
    emptyNotice: bool,
    checkoutDisabled: bool,
    totalText: string)

  /** The rows for `items`, numbered from `start + 1`. */
  function BasketRows(items: seq<Product>, start: nat): (rows: seq<BasketRow>)
    ensures |rows| == |items|
    ensures forall i :: 0 <= i < |items| ==>
      rows[i] == BasketRow(IntToDecimal(start + i + 1), items[i].title, FormatPrice(items[i].price))
  {
    if items == [] then []
    else
      [BasketRow(IntToDecimal(start + 1), items[0].title, FormatPrice(items[0].price))]
      + BasketRows(items[1..], start + 1)
  }

  /** The basket for the cart list: an empty cart shows the notice and
      disables checkout; otherwise one row per item, row `i` labelled `i + 1`;
      the total is the cart total in synapses. */
  function Basket(items: seq<Product>): (v: BasketView)
    ensures v.checkoutDisabled <==> items == []
    ensures v.emptyNotice <==> items == []
    ensures |v.rows| == |items|
    ensures v.rows == BasketRows(items, 0)
    ensures forall i :: 0 <= i < |items| ==>
      v.rows[i].index == IntToDecimal(i + 1) && ParseInt(v.rows[i].index) == i + 1
      && v.rows[i].title == items[i].title && v.rows[i].price == FormatPrice(items[i].price)
    ensures v.totalText == IntToDecimal(Total(items)) + Synapses
  {
    if items == [] then BasketView([], true, true, IntToDecimal(0) + Synapses)
    else BasketView(BasketRows(items, 0), false, false, IntToDecimal(Total(items)) + Synapses)
  }

  /** A row's delete button: the item leaves the cart and the basket is
      shown again for what is left. */
  method BasketDelete(cart: Cart, id: string) returns (v: BasketView)
    requires cart.Valid()
    modifies cart
    ensures cart.Valid()
    ensures cart.items == RemoveId(old(cart.items), id) && !cart.HasItem(id)
    ensures v == Basket(cart.items)
  {
    cart.RemoveItem(id);
    v := Basket(cart.GetItems());
  }

  // ---------------------------------------------------------------------
  // Start-up

  /** The catalog load: the fetched list when the request succeeds
      (`Some`), otherwise the bundled dataset. */
  method LoadCatalog(products: Products, fetched: Option<seq<Product>>, fallback: seq<Product>)
    modifies products
    ensures products.items == if fetched.Some? then fetched.value else fallback
  {
    match fetched
    case Some(items) => products.SetItems(items);
    case None => products.SetItems(fallback);
  }
}
