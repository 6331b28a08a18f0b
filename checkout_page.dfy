/** The three-step checkout of client/src/pages/CheckoutPage.js: the order
    totals computed from the cart, and the wizard state (`currentStep`,
    `error`, `loading`) that the form handlers update. */
module CheckoutPage {
  import opened Values
  import CartContext

  /** The checkout form (`checkoutData`). */
  datatype CheckoutData = CheckoutData(
    firstName: string, lastName: string, email: string, phone: string,
    address: string, city: string, state: string, country: string, postalCode: string,
    sameAsShipping: bool,
    billingAddress: string, billingCity: string, billingState: string,
    billingCountry: string, billingPostalCode: string,
    cardName: string, cardNumber: string, expiry: string, cvv: string,
    paymentMethod: string)

  /** The form as the page first shows it: every text empty, billing same as
      shipping, paying by card. */
  const InitialData := CheckoutData("", "", "", "", "", "", "", "", "", true,
    "", "", "", "", "", "", "", "", "", "card")

  const ShippingError := "Please fill in all required fields"
  const BillingError := "Please fill in all required billing fields"
  const PaymentError := "Please fill in all payment details"

  /** `subtotal`: the sum of `price * quantity` over the cart. */
  function Subtotal(cart: CartContext.Cart): real
  {
    if cart == [] then 0.0 else cart[0].price * cart[0].quantity as real + Subtotal(cart[1..])
  }

  /** `totalItems`: the sum of the quantities. */
  function TotalItems(cart: CartContext.Cart): int
  {
    if cart == [] then 0 else cart[0].quantity + TotalItems(cart[1..])
  }

  /** `shipping`: free above 500, otherwise 60. */
  function Shipping(subtotal: real): (r: real)
    ensures r == 0.0 <==> subtotal > 500.0
    ensures r == 0.0 || r == 60.0
  {
    if subtotal > 500.0 then 0.0 else 60.0
  }

  /** `tax`: 18% GST, levied on the subtotal only. */
  function Tax(subtotal: real): real
  {
    subtotal * 18.0 / 100.0
  }

  /** `total`: subtotal, shipping and tax. */
  function Total(cart: CartContext.Cart): real
  {
    var s := Subtotal(cart);
    s + Shipping(s) + Tax(s)
  }

  /** The grand total is the subtotal with 18% added, plus 60 exactly when
      the subtotal is 500 or less; shipping is never taxed. */
  lemma TotalBreakdown(cart: CartContext.Cart)
    ensures Subtotal(cart) > 500.0 ==> Total(cart) == Subtotal(cart) * 118.0 / 100.0
    ensures Subtotal(cart) <= 500.0 ==> Total(cart) == Subtotal(cart) * 118.0 / 100.0 + 60.0
  {
  }

  /** On any cart the cart operations can build, the checkout's subtotal and
      item count agree with the cart's own `getTotalPrice` and `getCartCount`
      (the checkout does not apply `|| 1` to the quantity, but every quantity
      in such a cart is at least 1). */
  lemma {:induction false} SubtotalIsCartTotal(cart: CartContext.Cart)
    requires CartContext.Valid(cart)
    ensures Subtotal(cart) == CartContext.TotalPrice(cart)
    ensures TotalItems(cart) == CartContext.CartCount(cart)
  {
    if cart != [] {
      CartContext.ValidTail(cart);
      SubtotalIsCartTotal(cart[1..]);
    }
  }

  /** `isStep1Valid`: the six required shipping fields are filled in. */
  predicate Step1Valid(d: CheckoutData)
  {
    d.firstName != "" && d.lastName != "" && d.email != "" && d.address != ""
    && d.city != "" && d.state != ""
  }

  /** `isStep2Valid`: billing is the shipping address, or its address and
      city are filled in. */
  predicate Step2Valid(d: CheckoutData)
  {
    d.sameAsShipping || (d.billingAddress != "" && d.billingCity != "")
  }

  /** `isStep3Valid`: card number, expiry and CVV are filled in. */
  predicate Step3Valid(d: CheckoutData)
  {
    d.cardNumber != "" && d.expiry != "" && d.cvv != ""
  }

  /** The text handed on as `shippingAddress`:
      "first last, address, city, state postalCode". */
  function ShippingAddress(d: CheckoutData): string
  {
    d.firstName + " " + d.lastName + ", " + d.address + ", " + d.city + ", " + d.state + " " + d.postalCode
  }

  /** What a successful submit navigates to the confirmation page with. The
      order id is random in the page and is a parameter here. */
  datatype PlacedOrder = PlacedOrder(orderId: string, total: real, shippingAddress: string, items: CartContext.Cart)

  class CheckoutWizard {
    var currentStep: int
    var error: string
    var loading: bool
    var data: CheckoutData
    /** The `cartItems` the page reads from the cart context. */
    const cart: CartContext.Cart

    /** The wizard is always on one of its three steps. */
    predicate Valid()
      reads this
    {
      1 <= currentStep <= 3
    }

    constructor(cart: CartContext.Cart)
      ensures Valid()
      ensures currentStep == 1 && error == "" && !loading && data == InitialData && this.cart == cart
    {
      currentStep := 1;
      error := "";
      loading := false;
      data := InitialData;
      this.cart := cart;
    }

    /** `handleChange` with the whole form: the page edits one field at a time. */
    method Edit(d: CheckoutData)
      modifies this
      ensures data == d
      ensures currentStep == old(currentStep) && error == old(error) && loading == old(loading)
    {
      data := d;
    }

    /** `handleNextStep`: step 1 needs the shipping fields, step 2 the billing
      fields unless they are the shipping ones; a failed check sets the error
      and keeps the step, otherwise the error is cleared and the step advances. */
    method NextStep()
      requires Valid() && currentStep < 3
      modifies this
      ensures Valid()
      ensures old(currentStep) == 1 && !Step1Valid(data) ==> currentStep == 1 && error == ShippingError
      ensures old(currentStep) == 2 && !Step2Valid(data) ==> currentStep == 2 && error == BillingError
      ensures (old(currentStep) == 1 && Step1Valid(data)) || (old(currentStep) == 2 && Step2Valid(data)) ==>
        currentStep == old(currentStep) + 1 && error == ""
      ensures data == old(data) && loading == old(loading)
    {
      error := "";
      if currentStep == 1 {
        if !Step1Valid(data) {
          error := ShippingError;
          return;
        }
      } else if currentStep == 2 {
        if !data.sameAsShipping {
          if data.billingAddress == "" || data.billingCity == "" {
            error := BillingError;
            return;
          }
        }
      }
      currentStep := currentStep + 1;
    }

    /** `handlePreviousStep`, reachable through the Back button, which is
        shown only after the first step. */
    method PreviousStep()
      requires Valid() && currentStep > 1
      modifies this
      ensures Valid()
      ensures currentStep == old(currentStep) - 1
      ensures data == old(data) && error == old(error) && loading == old(loading)
    {
      currentStep := currentStep - 1;
    }

    /** `handleSubmit`: without card number, expiry and CVV it sets the error
        and places nothing; otherwise it places the order with the checkout
        total, the joined shipping address and the cart lines. Either way
        `loading` ends false. */
    method Submit(orderId: string) returns (placed: Option<PlacedOrder>)
      modifies this
      ensures !Step3Valid(data) ==> placed == None && error == PaymentError
      ensures Step3Valid(data) ==>
        placed == Some(PlacedOrder(orderId, Total(cart), ShippingAddress(data), cart)) && error == ""
      ensures !loading
      ensures currentStep == old(currentStep) && data == old(data)
    {
      error := "";
      loading := true;
      if data.cardNumber == "" || data.expiry == "" || data.cvv == "" {
        error := PaymentError;
        loading := false;
        return None;
      }
      placed := Some(PlacedOrder(orderId, Total(cart), ShippingAddress(data), cart));
      loading := false;
    }

    /** The form's `onSubmit`: `handleSubmit` on the last step, `handleNextStep`
        before it. No sequence of submits and Back presses leaves steps 1 to 3. */
    method SubmitForm(orderId: string) returns (placed: Option<PlacedOrder>)
      requires Valid()
      modifies this
      ensures Valid()
      ensures data == old(data)
      ensures old(currentStep) < 3 ==> placed == None && loading == old(loading)
      ensures old(currentStep) == 1 && !Step1Valid(data) ==> currentStep == 1 && error == ShippingError
      ensures old(currentStep) == 2 && !Step2Valid(data) ==> currentStep == 2 && error == BillingError
      ensures (old(currentStep) == 1 && Step1Valid(data)) || (old(currentStep) == 2 && Step2Valid(data)) ==>
        currentStep == old(currentStep) + 1 && error == ""
      ensures old(currentStep) == 3 ==> currentStep == 3 && !loading
      ensures old(currentStep) == 3 && !Step3Valid(data) ==> placed == None && error == PaymentError
      ensures old(currentStep) == 3 && Step3Valid(data) ==>
        placed == Some(PlacedOrder(orderId, Total(cart), ShippingAddress(data), cart)) && error == ""
    {
      if currentStep == 3 {
        placed := Submit(orderId);
      } else {
        NextStep();
        placed := None;
      }
    }
  }
}
