/** Card view helpers (src/components/ui/Card.ts): the price label, the
    category class of a card, the preview's buy button and the basket row
    number. A class attribute is modelled as its sequence of class tokens.
    The card texts are the same literals main.ts uses. */
module CardUi {
  import opened Types
  import opened Text
  import opened Labels

  // ---------------------------------------------------------------------
  // `BaseCard.formatPrice`

  /** The `price?: number | null` argument: left out, `null`, or a number. */
  datatype PriceArg = Undefined | Null | Value(v: int)

  /** "Бесценно" for `null` and for a missing argument, otherwise the
      decimal numeral of the number followed by " синапсов". */
  function FormatPrice(price: PriceArg): (r: string)
    ensures r == Priceless <==> !price.Value?
    ensures price.Value? ==> |r| > |Synapses| && r[|r| - |Synapses|..] == Synapses
    ensures price.Value? ==> r[..|r| - |Synapses|] == IntToDecimal(price.v)
  {
    if price.Null? || price.Undefined? then Priceless
    else
      var d := IntToDecimal(price.v);
      assert (d + Synapses)[..|d|] == d;
      d + Synapses
  }

  // ---------------------------------------------------------------------
  // `BaseCard.setCategory`

  const CategoryPrefix := "card__category_"

  /** `categoryMap` of src/utils/constants.ts. */
  const CategoryMap: map<string, string> := map[
    "софт-скил" := "card__category_soft",
    "хард-скил" := "card__category_hard",
    "кнопка" := "card__category_button",
    "дополнительное" := "card__category_additional",
    "другое" := "card__category_other"]

  /** `t.startsWith('card__category_')` */
  predicate IsCategoryToken(t: string) {
    |CategoryPrefix| <= |t| && t[..|CategoryPrefix|] == CategoryPrefix
  }

  /** `.filter((c) => !c.startsWith('card__category_'))` */
  function WithoutCategoryTokens(tokens: seq<string>): (r: seq<string>)
    ensures |r| <= |tokens|
    ensures forall i :: 0 <= i < |r| ==> !IsCategoryToken(r[i])
  {
    if tokens == [] then []
    else if IsCategoryToken(tokens[0]) then WithoutCategoryTokens(tokens[1..])
    else [tokens[0]] + WithoutCategoryTokens(tokens[1..])
  }

  /** `classList.add(c)`, taken as: appended unless already present. */
  function AddClass(tokens: seq<string>, c: string): (r: seq<string>)
    ensures |r| == if c in tokens then |tokens| else |tokens| + 1
    ensures c in r && r[..|tokens|] == tokens
  {
    if c in tokens then tokens else tokens + [c]
  }

  /** The class the card gets for `category`: the mapped one when the
      category is given and is a key of the map. */
  function CategoryClass(category: Option<string>): (r: Option<string>)
    ensures r.Some? <==> category.Some? && category.value in CategoryMap
    ensures r.Some? ==> r.value == CategoryMap[category.value] && IsCategoryToken(r.value)
  {
    CategoryMapValuesArePrefixed();
    if category.Some? && category.value != "" && category.value in CategoryMap
    then Some(CategoryMap[category.value])
    else None
  }

  /** The class tokens `setCategory` leaves on an element. */
  function WithCategory(tokens: seq<string>, category: Option<string>): (r: seq<string>)
    ensures CategoryClass(category).Some? ==> CategoryClass(category).value in r
    ensures CategoryClass(category).None? ==> forall i :: 0 <= i < |r| ==> !IsCategoryToken(r[i])
  {
    var kept := WithoutCategoryTokens(tokens);
    match CategoryClass(category)
    case Some(c) => AddClass(kept, c)
    case None => kept
  }

  /** Every class in the map carries the category prefix. */
  lemma CategoryMapValuesArePrefixed()
    ensures forall k :: k in CategoryMap ==> IsCategoryToken(CategoryMap[k])
  {
  }

  /** The tokens kept are exactly the non-category ones. */
  lemma {:induction false} WithoutCategoryTokensMembers(tokens: seq<string>)
    ensures forall t :: t in WithoutCategoryTokens(tokens) <==> t in tokens && !IsCategoryToken(t)
  {
    if tokens != [] {
      WithoutCategoryTokensMembers(tokens[1..]);
      assert forall t :: t in tokens <==> t == tokens[0] || t in tokens[1..];
    }
  }

  /** The filter keeps the order: it distributes over concatenation. */
  lemma {:induction false} WithoutCategoryTokensAppend(a: seq<string>, b: seq<string>)
    ensures WithoutCategoryTokens(a + b) == WithoutCategoryTokens(a) + WithoutCategoryTokens(b)
  {
    if a == [] {
      assert a + b == b;
    } else {
      assert (a + b)[0] == a[0];
      assert (a + b)[1..] == a[1..] + b;
      WithoutCategoryTokensAppend(a[1..], b);
    }
  }

  /** Filtering twice is filtering once. */
  lemma {:induction false} WithoutCategoryTokensIdempotent(tokens: seq<string>)
    ensures WithoutCategoryTokens(WithoutCategoryTokens(tokens)) == WithoutCategoryTokens(tokens)
  {
    if tokens != [] {
      WithoutCategoryTokensIdempotent(tokens[1..]);
      if !IsCategoryToken(tokens[0]) {
        var rest := WithoutCategoryTokens(tokens[1..]);
        assert ([tokens[0]] + rest)[1..] == rest;
      }
    }
  }

  /** What `setCategory` does to the class tokens: the non-category tokens
      stay, in their order; the only category token left, if any, is the
      mapped class, which is present exactly when the category is mapped. */
  lemma WithCategoryTokens(tokens: seq<string>, category: Option<string>)
    ensures WithoutCategoryTokens(WithCategory(tokens, category)) == WithoutCategoryTokens(tokens)
    ensures forall t :: t in WithCategory(tokens, category) && IsCategoryToken(t) ==> CategoryClass(category) == Some(t)
    ensures CategoryClass(category).Some? ==> CategoryClass(category).value in WithCategory(tokens, category)
    ensures var r := WithCategory(tokens, category);
      forall i, j :: 0 <= i < j < |r| && IsCategoryToken(r[i]) ==> !IsCategoryToken(r[j])
  {
    var kept := WithoutCategoryTokens(tokens);
    WithoutCategoryTokensMembers(tokens);
    WithoutCategoryTokensIdempotent(tokens);
    match CategoryClass(category)
    case None =>
      forall i | 0 <= i < |kept| ensures !IsCategoryToken(kept[i]) {
        assert kept[i] in kept;
      }
    case Some(c) =>
      CategoryMapValuesArePrefixed();
      assert c !in kept;
      var r := kept + [c];
      WithoutCategoryTokensAppend(kept, [c]);
      assert WithoutCategoryTokens([c]) == [];
      forall i | 0 <= i < |kept| ensures !IsCategoryToken(r[i]) {
        assert r[i] == kept[i] && kept[i] in kept;
      }
  }

  /** A DOM element, as far as its classes go. */
  class Element {
    var classes: seq<string>

    constructor (classes: seq<string>)
      ensures this.classes == classes
    {
      this.classes := classes;
    }
  }

  /** `setCategory(element, category)`; a `null` element is left alone. */
  method SetCategory(element: Element?, category: Option<string>)
    modifies element
    ensures element != null ==> element.classes == WithCategory(old(element.classes), category)
  {
    if element == null {
      return;
    }
    element.classes := WithoutCategoryTokens(element.classes);
    var c := CategoryClass(category);
    if c.Some? {
      element.classes := AddClass(element.classes, c.value);
    }
  }

  // ---------------------------------------------------------------------
  // `PreviewCard` buy button

  datatype ButtonState = ButtonState(disabled: bool, text: string)

  /** `setInCart(inCart)`: only the label changes. */
  function WithInCart(b: ButtonState, inCart: bool): (r: ButtonState)
    ensures r.disabled == b.disabled
    ensures r.text == InCartLabel <==> inCart
    ensures r.text in {InCartLabel, AddLabel}
  {
    b.(text := if inCart then InCartLabel else AddLabel)
  }

  /** `setDisabledUnavailable(disabled)`: the label changes only when disabling. */
  function WithUnavailable(b: ButtonState, disabled: bool): (r: ButtonState)
    ensures r.disabled == disabled
    ensures r.text == if disabled then UnavailableLabel else b.text
  {
    if disabled then ButtonState(true, UnavailableLabel) else b.(disabled := false)
  }

  /** The button after `render`: the availability step when a product is
      set, then the cart label when `inCart` is given. With a product set,
      the button is disabled exactly when the price is `null`; a given
      `inCart` decides the label even over the "Недоступно" label. */
  function Rendered(b: ButtonState, product: Option<Product>, inCart: Option<bool>): (r: ButtonState)
    ensures product.Some? ==> (r.disabled <==> product.value.price.None?)
    ensures product.None? ==> r.disabled == b.disabled
    ensures r.text ==
      if inCart.Some? then (if inCart.value then InCartLabel else AddLabel)
      else if product.Some? && product.value.price.None? then UnavailableLabel
      else b.text
  {
    var b' := if product.Some? then WithUnavailable(b, product.value.price.None?) else b;
    if inCart.Some? then WithInCart(b', inCart.value) else b'
  }

  class PreviewCard {
    var product: Option<Product>
    var buttonDisabled: bool
    var buttonText: string

    function Button(): ButtonState
      reads this
    {
      ButtonState(buttonDisabled, buttonText)
    }

    constructor (button: ButtonState)
      ensures product == None && Button() == button
    {
      product := None;
      buttonDisabled := button.disabled;
      buttonText := button.text;
    }

    method SetProduct(p: Product)
      modifies this
      ensures product == Some(p) && Button() == old(Button())
    {
      product := Some(p);
    }

    method SetInCart(inCart: bool)
      modifies this
      ensures product == old(product) && Button() == WithInCart(old(Button()), inCart)
    {
      buttonText := if inCart then InCartLabel else AddLabel;
    }

    method SetDisabledUnavailable(disabled: bool)
      modifies this
      ensures product == old(product) && Button() == WithUnavailable(old(Button()), disabled)
    {
      buttonDisabled := disabled;
      if disabled {
        buttonText := UnavailableLabel;
      }
    }

    /** The button part of `render(data)`, `data.inCart` being `inCart`. */
    method Render(inCart: Option<bool>)
      modifies this
      ensures product == old(product) && Button() == Rendered(old(Button()), product, inCart)
    {
      if product.Some? {
        SetDisabledUnavailable(product.value.price.None?);
      }
      if inCart.Some? {
        SetInCart(inCart.value);
      }
    }
  }

  // ---------------------------------------------------------------------
  // `BasketCard.render`

  /** `String(data?.index ?? 0)`: the row number shown, 0 when none is given. */
  function BasketIndexText(index: Option<int>): (r: string)
    ensures index.None? ==> r == "0"
    ensures index.GetOr(0) >= 0 ==> r == NatToDecimal(index.GetOr(0))
    ensures index.GetOr(0) < 0 ==> r == "-" + NatToDecimal(-index.GetOr(0))
    ensures ParseInt(r) == index.GetOr(0)
  {
    IntToDecimal(index.GetOr(0))
  }
}
