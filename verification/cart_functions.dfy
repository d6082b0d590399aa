/** Helpers behind the recurring-cart totals: reading subscription data from a
    cart, naming a cart item, and assembling the shipping, coupon and
    first-renewal strings. Price and date formatting belong to the host shop
    and are passed in as functions. */
module CartFunctions {
  import opened PhpStrings

  /** A PHP value of one of the kinds these helpers are modelled on: null, a boolean,
      an integer or a string (floats and arrays are not modelled). */
  datatype Value = Null | Bool(b: bool) | Int(i: int) | Str(s: string)

  /** PHP truthiness: null, false, 0, "" and "0" are the falsy values, and only they. */
  predicate Truthy(v: Value)
    ensures !Truthy(v) <==> v in {Null, Bool(false), Int(0), Str(""), Str("0")}
  {
    match v
    case Null => false
    case Bool(b) => b
    case Int(i) => i != 0
    case Str(s) => !Falsy(s)
  }

  /** Reading a property: a missing one reads as null. */
  function Get(m: map<string, Value>, key: string): (v: Value)
    ensures key in m ==> v == m[key]
    ensures key !in m ==> v == Null
  {
    if key in m then m[key] else Null
  }

  /** `isset($m[$key])`: the key is present and its value is not null, that is, the
      property reads as something other than null. */
  predicate IsSet(m: map<string, Value>, key: string)
    ensures IsSet(m, key) <==> Get(m, key) != Null
    ensures IsSet(m, key) ==> key in m
  {
    key in m && m[key] != Null
  }

  /** One cart item: its own keys, and the properties of its product (`$cart_item['data']`). */
  datatype CartItem = CartItem(entries: map<string, Value>, product: map<string, Value>)

  /** A recurring cart: its own properties and its items, in order. */
  datatype Cart = Cart(properties: map<string, Value>, items: seq<CartItem>)

  /** An item supplies a field through its own key, or else through a truthy product property. */
  predicate Supplies(item: CartItem, field: string) {
    IsSet(item.entries, field) || Truthy(Get(item.product, field))
  }

  /** What an item supplies: its own key takes precedence over its product's property. */
  function SuppliedValue(item: CartItem, field: string): Value {
    if IsSet(item.entries, field) then item.entries[field] else Get(item.product, field)
  }

  /** Item `k` supplies the field and no later item does. */
  predicate IsLastSupplier(items: seq<CartItem>, field: string, k: int) {
    0 <= k < |items| && Supplies(items[k], field)
    && forall j :: k < j < |items| ==> !Supplies(items[j], field)
  }

  /** `wcs_cart_pluck`: the cart's own property if it is set; otherwise the value of the
      last item that supplies the field (the scan never stops early); otherwise the default. */
  method Pluck(cart: Cart, field: string, defaultValue: Value := Int(0)) returns (value: Value)
    ensures IsSet(cart.properties, field) ==> value == cart.properties[field]
    ensures !IsSet(cart.properties, field) && (forall k :: 0 <= k < |cart.items| ==> !Supplies(cart.items[k], field))
      ==> value == defaultValue
    ensures forall k ::
      !IsSet(cart.properties, field) && IsLastSupplier(cart.items, field, k) ==> value == SuppliedValue(cart.items[k], field)
  {
    value := defaultValue;
    if IsSet(cart.properties, field) {
      value := cart.properties[field];
    } else {
      ghost var last := -1;
      var i := 0;
      while i < |cart.items|
        invariant 0 <= i <= |cart.items|
        invariant -1 <= last < i
        invariant last == -1 ==> value == defaultValue
        invariant last >= 0 ==> Supplies(cart.items[last], field) && value == SuppliedValue(cart.items[last], field)
        invariant forall j :: last < j < i ==> !Supplies(cart.items[j], field)
      {
        var item := cart.items[i];
        if IsSet(item.entries, field) {
          value := item.entries[field];
          last := i;
        } else if Truthy(Get(item.product, field)) {
          value := Get(item.product, field);
          last := i;
        }
        i := i + 1;
      }
    }
  }

  /** `wcs_get_cart_item_name`: the product title, followed, when attributes are asked
      for, by the non-empty lines of the item data joined with ", " in parentheses. */
  function CartItemName(title: string, itemData: string, includeAttributes: bool := false): (name: string)
    ensures !includeAttributes ==> name == title
    ensures includeAttributes && (forall line :: line in Split(itemData, '\n') ==> Falsy(line)) ==> name == title
    ensures includeAttributes && (exists line :: line in Split(itemData, '\n') && !Falsy(line))
      ==> name == title + " (" + Join(", ", Kept(Split(itemData, '\n'))) + ")"
  {
    if includeAttributes then
      var lines := Kept(Split(itemData, '\n'));
      JoinOfTruthyParts(", ", lines);
      var attributes := Join(", ", lines);
      if !Falsy(attributes) then title + " (" + attributes + ")" else title
    else
      title
  }

  /** `wcs_cart_print_shipping_input`: the input type and `checked` attribute it prints.
      Only a radio button keeps its type and its checked state; anything else becomes hidden. */
  method ShippingInputAttributes(checkedAttribute: (string, string) -> string, methodId: string,
                                 chosenMethod: string := "", inputType: string := "hidden")
    returns (typeAttribute: string, checked: string)
    ensures typeAttribute == "radio" || typeAttribute == "hidden"
    ensures inputType == "radio" ==> typeAttribute == "radio" && checked == checkedAttribute(methodId, chosenMethod)
    ensures inputType != "radio" ==> typeAttribute == "hidden" && checked == ""
  {
    typeAttribute := inputType;
    if typeAttribute == "radio" {
      checked := checkedAttribute(methodId, chosenMethod);
    } else {
      typeAttribute := "hidden";
      checked := "";
    }
  }

  /** `wcs_cart_totals_shipping_method`: the label of a recurring shipping rate. A positive
      cost is shown without tax when the shop displays prices excluding tax, with tax
      otherwise, and a tax note is added only when the rate carries tax and the cart's
      price entry convention differs from the display. A cost of zero or less is "Free". */
  method ShippingMethodLabel(rateLabel: string, cost: int, shippingTax: int, displayExclTax: bool,
                             pricesIncludeTax: bool, price: int -> string,
                             exTaxOrVat: string, incTaxOrVat: string) returns (text: string)
    ensures rateLabel <= text
    ensures cost <= 0 ==> text == rateLabel + ": Free"
    ensures cost > 0 && displayExclTax ==>
      text == rateLabel + ": " + price(cost)
              + (if shippingTax > 0 && pricesIncludeTax then " <small>" + exTaxOrVat + "</small>" else "")
    ensures cost > 0 && !displayExclTax ==>
      text == rateLabel + ": " + price(cost + shippingTax)
              + (if shippingTax > 0 && !pricesIncludeTax then " <small>" + incTaxOrVat + "</small>" else "")
  {
    text := rateLabel;
    if cost > 0 {
      if displayExclTax {
        text := text + ": " + price(cost);
        if shippingTax > 0 && pricesIncludeTax {
          text := text + " <small>" + exTaxOrVat + "</small>";
        }
      } else {
        text := text + ": " + price(cost + shippingTax);
        if shippingTax > 0 && !pricesIncludeTax {
          text := text + " <small>" + incTaxOrVat + "</small>";
        }
      }
    } else {
      text := text + ": Free";
    }
  }

  /** `wcs_add_cart_first_renewal_payment_date`: appends the first renewal date unless the
      cart's next payment date is exactly the integer 0 (a strict comparison). */
  function AddFirstRenewalPaymentDate(orderTotalHtml: string, nextPaymentDate: Value,
                                      formatDate: Value -> string): (html: string)
    ensures html == orderTotalHtml <==> nextPaymentDate == Int(0)
    ensures nextPaymentDate != Int(0) ==>
      html == orderTotalHtml + "<div class=\"first-payment-date\"><small>First renewal: " + formatDate(nextPaymentDate) + "</small></div>"
  {
    if nextPaymentDate != Int(0) then
      orderTotalHtml + "<div class=\"first-payment-date\"><small>First renewal: " + formatDate(nextPaymentDate) + "</small></div>"
    else
      orderTotalHtml
  }

  /** The coupon's discount text before its filter: a minus sign and the formatted
      amount when the amount is non-zero, else empty. */
  function DiscountHtml(amount: int, price: int -> string): (html: string)
    ensures amount != 0 ==> html == "-" + price(amount)
    ensures amount == 0 ==> html == ""
    ensures Falsy(html) <==> amount == 0
  {
    if amount != 0 then
      var html := "-" + price(amount);
      assert html[0] == '-';
      html
    else
      ""
  }

  /** The value shown for a recurring coupon (`wcs_cart_totals_coupon_html`): the (filtered)
      discount text and, for a free-shipping coupon, a note; empty parts are dropped before
      the parts are joined with ", ". */
  function CouponValue(discountHtml: string, freeShipping: bool): (value: string)
    ensures Falsy(discountHtml) && !freeShipping ==> value == ""
    ensures Falsy(discountHtml) && freeShipping ==> value == "Free shipping coupon"
    ensures !Falsy(discountHtml) && !freeShipping ==> value == discountHtml
    ensures !Falsy(discountHtml) && freeShipping ==> value == discountHtml + ", Free shipping coupon"
  {
    var parts := [discountHtml] + (if freeShipping then ["Free shipping coupon"] else []);
    CouponPartsKept(discountHtml, freeShipping);
    CouponPartsJoined(discountHtml, freeShipping);
    Join(", ", Kept(parts))
  }

  /** The free-shipping note survives the filter on its own and joins to itself. */
  lemma FreeShippingNoteKept()
    ensures Kept(["Free shipping coupon"]) == ["Free shipping coupon"]
    ensures Join(", ", ["Free shipping coupon"]) == "Free shipping coupon"
  {
    assert |"Free shipping coupon"| > 1;
    KeptCons("Free shipping coupon", []);
    assert ["Free shipping coupon"] + [] == ["Free shipping coupon"];
  }

  /** Filtering the coupon's parts drops the discount text exactly when it is falsy,
      and always keeps the free-shipping note. */
  lemma CouponPartsKept(discountHtml: string, freeShipping: bool)
    ensures var note := if freeShipping then ["Free shipping coupon"] else [];
      Kept([discountHtml] + note) == (if Falsy(discountHtml) then [] else [discountHtml]) + note
  {
    if freeShipping {
      FreeShippingNoteKept();
      KeptCons(discountHtml, ["Free shipping coupon"]);
    } else {
      assert [discountHtml] + [] == [discountHtml];
      KeptCons(discountHtml, []);
    }
  }

  /** Joining the discount text with the optional note. */
  lemma CouponPartsJoined(discountHtml: string, freeShipping: bool)
    ensures var note := if freeShipping then ["Free shipping coupon"] else [];
      Join(", ", [discountHtml] + note) == discountHtml + (if freeShipping then ", Free shipping coupon" else "")
  {
    if freeShipping {
      FreeShippingNoteKept();
      JoinCons(", ", discountHtml, ["Free shipping coupon"]);
    } else {
      assert [discountHtml] + [] == [discountHtml];
    }
  }
}
