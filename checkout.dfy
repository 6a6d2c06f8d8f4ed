/**
 * The checkout page (Checkout.jsx): the order form, its validation, the
 * card-number formatter and the submission of the order.
 */
module Checkout {
  import opened Wrappers
  import opened JsText
  import CartStore
  import CartPage

  /** The form state `orderData`. */
  datatype OrderForm = OrderForm(
    shippingAddress: string,
    paymentMethod: string,
    cardNumber: string,
    expiryDate: string,
    cvv: string,
    cardHolderName: string)

  /** The initial form: the user's address when truthy, card payment, empty card fields. */
  function InitialForm(userAddress: Option<string>): (r: OrderForm)
    ensures r.paymentMethod == "CARD"
    ensures r.cardNumber == r.expiryDate == r.cvv == r.cardHolderName == ""
    ensures userAddress.Some? ==> r.shippingAddress == userAddress.value
    ensures userAddress.None? ==> r.shippingAddress == ""
  {
    OrderForm(userAddress.GetOr(""), "CARD", "", "", "", "")
  }

  /** The form's fields, which are also the keys of the error object. */
  datatype Field = ShippingAddress | PaymentMethod | CardNumber | ExpiryDate | Cvv | CardHolderName

  /** The `name` attribute of each field's input. */
  function FieldName(k: Field): string {
    match k
    case ShippingAddress => "shippingAddress"
    case PaymentMethod => "paymentMethod"
    case CardNumber => "cardNumber"
    case ExpiryDate => "expiryDate"
    case Cvv => "cvv"
    case CardHolderName => "cardHolderName"
  }

  /** `{ ...prev, [name]: value }` for one of the form's fields. */
  function WithField(f: OrderForm, k: Field, value: string): (r: OrderForm)
    ensures Get(r, k) == value
    ensures forall k' :: k' != k ==> Get(r, k') == Get(f, k')
  {
    match k
    case ShippingAddress => f.(shippingAddress := value)
    case PaymentMethod => f.(paymentMethod := value)
    case CardNumber => f.(cardNumber := value)
    case ExpiryDate => f.(expiryDate := value)
    case Cvv => f.(cvv := value)
    case CardHolderName => f.(cardHolderName := value)
  }

  /** `orderData[name]`. */
  function Get(f: OrderForm, k: Field): string {
    match k
    case ShippingAddress => f.shippingAddress
    case PaymentMethod => f.paymentMethod
    case CardNumber => f.cardNumber
    case ExpiryDate => f.expiryDate
    case Cvv => f.cvv
    case CardHolderName => f.cardHolderName
  }

  // ---------------------------------------------------------------------
  // Validation

  /** The conditions under which the form is accepted, stated field by field. */
  predicate Acceptable(f: OrderForm) {
    && !IsBlank(f.shippingAddress)
    && (f.paymentMethod == "CARD" ==>
          && !IsBlank(f.cardNumber) && |RemoveSpaces(f.cardNumber)| == 16
          && !IsBlank(f.expiryDate)
          && !IsBlank(f.cvv) && |f.cvv| == 3
          && !IsBlank(f.cardHolderName))
  }

  /** `validateForm`'s `newErrors`: each check contributes the error of its own field. */
  function FormErrors(f: OrderForm): (r: map<Field, string>)
    ensures ShippingAddress in r <==> IsBlank(f.shippingAddress)
    ensures ShippingAddress in r ==> r[ShippingAddress] == "Shipping address is required"
    ensures CardNumber in r <==> f.paymentMethod == "CARD" && (IsBlank(f.cardNumber) || |RemoveSpaces(f.cardNumber)| != 16)
    ensures CardNumber in r ==> r[CardNumber] == (if IsBlank(f.cardNumber) then "Card number is required" else "Card number must be 16 digits")
    ensures ExpiryDate in r <==> f.paymentMethod == "CARD" && IsBlank(f.expiryDate)
    ensures ExpiryDate in r ==> r[ExpiryDate] == "Expiry date is required"
    ensures Cvv in r <==> f.paymentMethod == "CARD" && (IsBlank(f.cvv) || |f.cvv| != 3)
    ensures Cvv in r ==> r[Cvv] == (if IsBlank(f.cvv) then "CVV is required" else "CVV must be 3 digits")
    ensures CardHolderName in r <==> f.paymentMethod == "CARD" && IsBlank(f.cardHolderName)
    ensures CardHolderName in r ==> r[CardHolderName] == "Card holder name is required"
    ensures PaymentMethod !in r
  {
    map k: Field | FieldError(f, k).Some? :: FieldError(f, k).value
  }

  /**
   * The message `validateForm` records under field `k`, if any; only card
   * fields depend on the payment method. `!x.trim()` is `IsBlank(x)` (see
   * `JsText.TrimEmptyIffBlank`).
   */
  function FieldError(f: OrderForm, k: Field): Option<string> {
    var card := f.paymentMethod == "CARD";
    match k
    case ShippingAddress =>
      if IsBlank(f.shippingAddress) then Some("Shipping address is required") else None
    case PaymentMethod => None
    case CardNumber =>
      if !card then None
      else if IsBlank(f.cardNumber) then Some("Card number is required")
      else if |RemoveSpaces(f.cardNumber)| != 16 then Some("Card number must be 16 digits")
      else None
    case ExpiryDate =>
      if card && IsBlank(f.expiryDate) then Some("Expiry date is required") else None
    case Cvv =>
      if !card then None
      else if IsBlank(f.cvv) then Some("CVV is required")
      else if |f.cvv| != 3 then Some("CVV must be 3 digits")
      else None
    case CardHolderName =>
      if card && IsBlank(f.cardHolderName) then Some("Card holder name is required") else None
  }

  /** `validateForm()` returns true exactly when the form is acceptable. */
  lemma ValidIffAcceptable(f: OrderForm)
    ensures FormErrors(f) == map[] <==> Acceptable(f)
  {
    var r := FormErrors(f);
    if !Acceptable(f) {
      if IsBlank(f.shippingAddress) {
        assert ShippingAddress in r;
      } else if IsBlank(f.cardNumber) || |RemoveSpaces(f.cardNumber)| != 16 {
        assert CardNumber in r;
      } else if IsBlank(f.expiryDate) {
        assert ExpiryDate in r;
      } else if IsBlank(f.cvv) || |f.cvv| != 3 {
        assert Cvv in r;
      } else {
        assert CardHolderName in r;
      }
    } else {
      forall k: Field ensures k !in r {
        match k
        case ShippingAddress =>
        case PaymentMethod =>
        case CardNumber =>
        case ExpiryDate =>
        case Cvv =>
        case CardHolderName =>
      }
      assert r.Keys == {};
    }
  }

  /** Without card payment only the shipping address is checked. */
  lemma NonCardChecksAddressOnly(f: OrderForm)
    requires f.paymentMethod != "CARD"
    ensures FormErrors(f).Keys <= {ShippingAddress}
    ensures FormErrors(f) == map[] <==> !IsBlank(f.shippingAddress)
  {
    ValidIffAcceptable(f);
  }

  // ---------------------------------------------------------------------
  // formatCardNumber

  /** The digits of the typed value: `value.replace(/\s+/g, '').replace(/[^0-9]/gi, '')`. */
  function CardDigits(value: string): (r: string)
    ensures AllDigits(r)
  {
    OnlyDigits(RemoveSpaces(value))
  }

  /** `matches && matches[0] || ''` for `v.match(/\d{4,16}/g)` on a string of digits. */
  function FirstMatch(v: string): (r: string)
    requires AllDigits(v)
    ensures |v| < 4 ==> r == []
    ensures |v| >= 4 ==> 4 <= |r| <= 16 && |r| <= |v| && r == v[..|r|] && (|r| == 16 || r == v)
  {
    if |v| < 4 then [] else if |v| <= 16 then v else v[..16]
  }

  /** The parts the loop pushes: consecutive pieces of four characters, the last one possibly shorter. */
  function Chunks(m: string): (r: seq<string>)
    ensures m == [] <==> r == []
    ensures forall k :: 0 <= k < |r| ==> 0 < |r[k]| <= 4
  {
    if m == [] then []
    else if |m| <= 4 then [m]
    else [m[..4]] + Chunks(m[4..])
  }

  /** `parts.join(' ')`. */
  function Join(parts: seq<string>): string {
    if parts == [] then []
    else if |parts| == 1 then parts[0]
    else parts[0] + " " + Join(parts[1..])
  }

  /** What `formatCardNumber(value)` returns. */
  function FormattedCardNumber(value: string): string {
    var v := CardDigits(value);
    var parts := Chunks(FirstMatch(v));
    if |parts| > 0 then Join(parts) else v
  }

  /** `formatCardNumber`, with its loop over the match in steps of four. */
  method FormatCardNumber(value: string) returns (r: string)
    ensures r == FormattedCardNumber(value)
  {
    var v := CardDigits(value);
    var match_ := FirstMatch(v);
    var parts: seq<string> := [];
    var i := 0;
    var len := |match_|;
    while i < len
      invariant 0 <= i
      invariant parts + Chunks(match_[Min(i, len)..]) == Chunks(match_)
    {
      var end := Min(i + 4, len);
      var piece := match_[i..end];
      ChunksStep(match_, i);
      assert Min(i, len) == i;
      assert (parts + [piece]) + Chunks(match_[end..]) == parts + ([piece] + Chunks(match_[end..]));
      parts := parts + [piece];
      i := i + 4;
      assert Min(i, len) == end;
    }
    assert match_[Min(i, len)..] == [];
    assert parts + [] == parts;
    if |parts| > 0 {
      r := Join(parts);
    } else {
      r := v;
    }
  }

  function Min(a: int, b: int): int {
    if a <= b then a else b
  }

  /** One turn of the loop: the chunks from `i` are the piece `[i, i+4)` followed by the chunks after it. */
  lemma ChunksStep(m: string, i: nat)
    requires i < |m|
    ensures Chunks(m[i..]) == [m[i..Min(i + 4, |m|)]] + Chunks(m[Min(i + 4, |m|)..])
  {
    var t := m[i..];
    if |t| <= 4 {
      assert t == m[i..Min(i + 4, |m|)];
      assert m[Min(i + 4, |m|)..] == [];
    } else {
      assert t[..4] == m[i..i + 4];
      assert t[4..] == m[i + 4..];
    }
  }

  /** The joined chunks of `m` are `m` with a space after every fourth character but the last. */
  lemma JoinChunksShape(m: string)
    requires m != []
    requires forall k :: 0 <= k < |m| ==> !IsSpace(m[k])
    ensures RemoveSpaces(Join(Chunks(m))) == m
    ensures |Join(Chunks(m))| == |m| + (|m| - 1) / 4
    ensures forall k :: 0 <= k < |Join(Chunks(m))| ==> (Join(Chunks(m))[k] == ' ' <==> k % 5 == 4)
  {
    JoinChunksUnspaced(m);
    JoinChunksSpacing(m);
  }

  /** Removing the spaces from the joined chunks gives `m` back. */
  lemma {:induction false} JoinChunksUnspaced(m: string)
    requires m != []
    requires forall k :: 0 <= k < |m| ==> !IsSpace(m[k])
    ensures RemoveSpaces(Join(Chunks(m))) == m
    ensures |Join(Chunks(m))| == |m| + (|m| - 1) / 4
  {
    var j := Join(Chunks(m));
    if |m| <= 4 {
      assert j == m;
      RemoveSpacesOfSpaceFree(m);
    } else {
      var rest := m[4..];
      JoinChunksUnspaced(rest);
      var jr := Join(Chunks(rest));
      assert Chunks(m) == [m[..4]] + Chunks(rest);
      assert Chunks(rest) != [];
      assert j == m[..4] + " " + jr;
      RemoveSpacesAppend(m[..4] + " ", jr);
      RemoveSpacesAppend(m[..4], " ");
      RemoveSpacesOfSpaceFree(m[..4]);
      assert RemoveSpaces(" ") == [];
      assert m == m[..4] + rest;
    }
  }

  /** In the joined chunks the spaces sit exactly at positions 4, 9, 14, … */
  lemma {:induction false} JoinChunksSpacing(m: string)
    requires m != []
    requires forall k :: 0 <= k < |m| ==> !IsSpace(m[k])
    ensures forall k :: 0 <= k < |Join(Chunks(m))| ==> (Join(Chunks(m))[k] == ' ' <==> k % 5 == 4)
  {
    var j := Join(Chunks(m));
    if |m| <= 4 {
      assert j == m;
      forall k | 0 <= k < |j| ensures j[k] != ' ' {
        assert j[k] == m[k];
      }
    } else {
      var rest := m[4..];
      JoinChunksSpacing(rest);
      var jr := Join(Chunks(rest));
      assert Chunks(m) == [m[..4]] + Chunks(rest);
      assert Chunks(rest) != [];
      assert j == m[..4] + " " + jr;
      forall k | 0 <= k < |j| ensures j[k] == ' ' <==> k % 5 == 4 {
        if k < 4 {
          assert j[k] == m[k];
        } else if k > 4 {
          assert j[k] == jr[k - 5];
          assert (k - 5) % 5 == k % 5;
        }
      }
    }
  }

  /** The formatter's output: digits in groups of four separated by single spaces. */
  lemma FormattedShape(value: string)
    ensures var r := FormattedCardNumber(value);
      && (forall k :: 0 <= k < |r| ==> IsDigit(r[k]) || r[k] == ' ')
      && (|CardDigits(value)| >= 4 ==> forall k :: 0 <= k < |r| ==> (r[k] == ' ' <==> k % 5 == 4))
      && RemoveSpaces(r) == FirstMatch(CardDigits(value)) + (if |CardDigits(value)| < 4 then CardDigits(value) else [])
      && |r| <= 19
  {
    var v := CardDigits(value);
    var m := FirstMatch(v);
    var r := FormattedCardNumber(value);
    DigitsHaveNoSpace(v);
    if |v| < 4 {
      RemoveSpacesOfSpaceFree(v);
      assert m + v == v;
    } else {
      DigitsHaveNoSpace(m);
      JoinChunksShape(m);
      assert m + [] == m;
      forall k | 0 <= k < |r| ensures IsDigit(r[k]) || r[k] == ' ' {
        if r[k] != ' ' {
          DigitsOfSpacedGroups(m, k);
        }
      }
    }
  }

  lemma DigitsHaveNoSpace(s: string)
    requires AllDigits(s)
    ensures forall k :: 0 <= k < |s| ==> !IsSpace(s[k])
  {
  }

  /** Every non-space of the joined chunks of a digit string is a digit. */
  lemma {:induction false} DigitsOfSpacedGroups(m: string, k: nat)
    requires m != [] && AllDigits(m)
    requires k < |Join(Chunks(m))| && Join(Chunks(m))[k] != ' '
    ensures IsDigit(Join(Chunks(m))[k])
  {
    if |m| > 4 {
      var jr := Join(Chunks(m[4..]));
      assert Chunks(m[4..]) != [];
      assert Join(Chunks(m)) == m[..4] + " " + jr;
      if k > 4 {
        DigitsOfSpacedGroups(m[4..], k - 5);
      }
    }
  }

  /** Formatting an already formatted value changes nothing. */
  lemma FormatIdempotent(value: string)
    ensures FormattedCardNumber(FormattedCardNumber(value)) == FormattedCardNumber(value)
  {
    var v := CardDigits(value);
    var r := FormattedCardNumber(value);
    FormattedShape(value);
    DigitsHaveNoSpace(v);
    if |v| < 4 {
      RemoveSpacesOfSpaceFree(v);
      OnlyDigitsOfDigits(v);
      assert CardDigits(r) == v;
    } else {
      var m := FirstMatch(v);
      DigitsHaveNoSpace(m);
      JoinChunksShape(m);
      OnlyDigitsOfDigits(m);
      assert CardDigits(r) == m;
      assert FirstMatch(m) == m;
    }
  }

  /**
   * A card number entered through the formatter passes the 16-digit check
   * exactly when at least 16 digits were typed, and it always fits the
   * field's `maxLength` of 19.
   */
  lemma FormattedCardNumberValidation(f: OrderForm, typed: string)
    requires f.paymentMethod == "CARD" && f.cardNumber == FormattedCardNumber(typed)
    ensures CardNumber !in FormErrors(f) <==> |CardDigits(typed)| >= 16
    ensures |f.cardNumber| <= 19
  {
    FormattedShape(typed);
    var v := CardDigits(typed);
    var r := f.cardNumber;
    if |v| >= 16 {
      assert |RemoveSpaces(r)| == 16;
      assert !IsBlank(r) by {
        if IsBlank(r) {
          BlankHasNoNonSpace(r);
        }
      }
    }
  }

  lemma BlankHasNoNonSpace(s: string)
    requires IsBlank(s)
    ensures RemoveSpaces(s) == []
  {
  }

  // ---------------------------------------------------------------------
  // The page

  /** The reply of the gateway's create-order call. */
  datatype OrderReply =
    | Created(orderId: Option<int>)
    | Rejected(responseMessage: Option<string>, message: Option<string>)

  /** What a submission does. */
  datatype SubmitEffect =
    | Invalid
    | EmptyCartToast
    | PlaceOrder(userId: int, shippingAddress: string, paymentMethod: string, outcome: AfterOrder)

  /** What follows the create-order call: a toast, and for a success a cleared cart and a navigation. */
  datatype AfterOrder =
    | Placed(toast: string, navigateTo: string, orderId: Option<int>)
    | Failed(toast: string)

  /** The error toast: the server's message, else the error's own message, else a generic text. */
  function FailureToast(responseMessage: Option<string>, message: Option<string>): (r: string)
    ensures responseMessage.Some? && responseMessage.value != "" ==> r == "Order failed: " + responseMessage.value
    ensures !(responseMessage.Some? && responseMessage.value != "") && message.Some? && message.value != "" ==> r == "Order failed: " + message.value
    ensures !(responseMessage.Some? && responseMessage.value != "") && !(message.Some? && message.value != "") ==> r == "Failed to place order. Please try again."
  {
    if responseMessage.Some? && responseMessage.value != "" then "Order failed: " + responseMessage.value
    else if message.Some? && message.value != "" then "Order failed: " + message.value
    else "Failed to place order. Please try again."
  }

  /** What follows an order reply: with an order id, its success page; otherwise the order list. */
  function AfterReply(reply: OrderReply): (r: AfterOrder)
    ensures reply.Created? && reply.orderId.Some? && reply.orderId.value != 0 ==>
              r == Placed("Order #" + IntToString(reply.orderId.value) + " placed successfully!", "/order-success", reply.orderId)
    ensures reply.Created? && !(reply.orderId.Some? && reply.orderId.value != 0) ==>
              r == Placed("Order placed successfully!", "/orders", None)
    ensures reply.Rejected? ==> r == Failed(FailureToast(reply.responseMessage, reply.message))
  {
    match reply
    case Created(id) =>
      if id.Some? && id.value != 0 then Placed("Order #" + IntToString(id.value) + " placed successfully!", "/order-success", id)
      else Placed("Order placed successfully!", "/orders", None)
    case Rejected(rm, m) => Failed(FailureToast(rm, m))
  }

  /** The "Place Order" button: disabled while loading or with an empty cart; its label shows the cart total. */
  datatype PlaceButton = PlaceButton(disabled: bool, shownTotal: Option<int>)

  function PlaceOrderButton(loading: bool, items: seq<CartStore.CartLine>): (r: PlaceButton)
    ensures r.disabled <==> loading || |items| == 0
    ensures loading <==> r.shownTotal.None?
    ensures r.shownTotal.Some? ==> r.shownTotal.value == CartStore.CartTotal(items)
  {
    PlaceButton(loading || |items| == 0, if loading then None else Some(CartStore.CartTotal(items)))
  }

  /**
   * The checkout shows the bare cart total, while the cart page adds the
   * shipping fee: the two differ by exactly the cart page's fee.
   */
  lemma CheckoutTotalOmitsShipping(items: seq<CartStore.CartLine>)
    ensures PlaceOrderButton(false, items).shownTotal == Some(CartStore.CartTotal(items))
    ensures CartPage.FinalTotal(CartStore.CartTotal(items)) - PlaceOrderButton(false, items).shownTotal.value
            == CartPage.ShippingCost(CartStore.CartTotal(items))
  {
  }

  class CheckoutPage {
    var orderData: OrderForm
    var errors: map<Field, string>
    var loading: bool

    constructor (userAddress: Option<string>)
      ensures orderData == InitialForm(userAddress) && errors == map[] && !loading
    {
      orderData := InitialForm(userAddress);
      errors := map[];
      loading := false;
    }

    /** `handleInputChange`: set the field, and blank its error if it had a truthy one. */
    method HandleInputChange(name: Field, value: string)
      modifies this
      ensures orderData == WithField(old(orderData), name, value)
      ensures name in old(errors) && old(errors)[name] != "" ==> errors == old(errors)[name := ""]
      ensures !(name in old(errors) && old(errors)[name] != "") ==> errors == old(errors)
      ensures loading == old(loading)
    {
      orderData := WithField(orderData, name, value);
      if name in errors && errors[name] != "" {
        errors := errors[name := ""];
      }
    }

    /** `handleCardNumberChange`: the card number field only ever holds formatted values. */
    method HandleCardNumberChange(value: string)
      modifies this
      ensures orderData == old(orderData).(cardNumber := FormattedCardNumber(value))
      ensures errors == old(errors) && loading == old(loading)
    {
      var formatted := FormatCardNumber(value);
      orderData := orderData.(cardNumber := formatted);
    }

    /** `validateForm`: replace the errors and report whether there are none. */
    method ValidateForm() returns (valid: bool)
      modifies this
      ensures errors == FormErrors(orderData) && orderData == old(orderData) && loading == old(loading)
      ensures valid <==> Acceptable(orderData)
    {
      errors := FormErrors(orderData);
      ValidIffAcceptable(orderData);
      valid := |errors| == 0;
      assert valid <==> errors == map[];
    }

    /** `handleSubmit`: validate, refuse an empty cart, then create the order for the signed-in user. */
    method HandleSubmit(userId: int, cartItems: seq<CartStore.CartLine>, reply: OrderReply) returns (effect: SubmitEffect)
      modifies this
      ensures orderData == old(orderData) && errors == FormErrors(old(orderData))
      ensures !Acceptable(old(orderData)) ==> effect == Invalid && loading == old(loading)
      ensures Acceptable(old(orderData)) && |cartItems| == 0 ==> effect == EmptyCartToast && loading == old(loading)
      ensures Acceptable(old(orderData)) && |cartItems| > 0 ==>
                !loading && effect == PlaceOrder(userId, orderData.shippingAddress, orderData.paymentMethod, AfterReply(reply))
    {
      var valid := ValidateForm();
      if !valid {
        return Invalid;
      }
      if |cartItems| == 0 {
        return EmptyCartToast;
      }
      loading := true;
      effect := PlaceOrder(userId, orderData.shippingAddress, orderData.paymentMethod, AfterReply(reply));
      loading := false;
    }
  }
}
