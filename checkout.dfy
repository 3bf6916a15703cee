/** The checkout page (src/pages/Checkout.tsx): a four-field delivery form, a bank-details
    step entered through "Continue to Pay", and the "I Have Made Payment" button that sends
    one order insert, guarded by a submitting flag. A successful insert navigates to the
    thank-you page and schedules the clearing of the cart for a later step. */
module Checkout {
  import opened Common
  import opened Types
  import CartContext

  datatype DeliveryForm = DeliveryForm(name: string, email: string, phone: string, address: string)

  /** The `name` attribute of the input that fired the change event. */
  datatype FormField = Name | Email | Phone | Address

  function FieldValue(f: DeliveryForm, field: FormField): string
  {
    match field
    case Name => f.name
    case Email => f.email
    case Phone => f.phone
    case Address => f.address
  }

  /** handleChange: `{ ...formData, [name]: value }`. */
  function WithField(f: DeliveryForm, field: FormField, value: string): DeliveryForm
  {
    match field
    case Name => f.(name := value)
    case Email => f.(email := value)
    case Phone => f.(phone := value)
    case Address => f.(address := value)
  }

  /** handleChange writes the named field and leaves the other three as they were. */
  lemma ChangeOnlyNamedField(f: DeliveryForm, field: FormField, value: string, other: FormField)
    ensures FieldValue(WithField(f, field, value), field) == value
    ensures other != field ==> FieldValue(WithField(f, field, value), other) == FieldValue(f, other)
  {
  }

  /** isFormValid: the conjunction of the four fields' truthiness. */
  predicate IsFormValid(f: DeliveryForm)
  {
    f.name != "" && f.email != "" && f.phone != "" && f.address != ""
  }

  /** The form is valid exactly when no field is empty, in either direction. */
  lemma FormValidIffNoEmptyField(f: DeliveryForm)
    ensures IsFormValid(f) <==> forall field: FormField :: FieldValue(f, field) != ""
  {
    if !IsFormValid(f) {
      if f.name == "" { assert FieldValue(f, Name) == ""; }
      else if f.email == "" { assert FieldValue(f, Email) == ""; }
      else if f.phone == "" { assert FieldValue(f, Phone) == ""; }
      else { assert FieldValue(f, Address) == ""; }
    }
  }

  /** The row sent to the `orders` table. */
  datatype OrderPayload = OrderPayload(
    userEmail: string,
    userName: string,
    userPhone: string,
    userAddress: string,
    items: seq<CartItem>,
    totalAmount: int,
    paymentReference: string,
    status: string)

  /** What a render produces: nothing (after a redirect), or the page with its buttons.
      `continueButton` is Some(enabled) while the bank details are hidden, `payButton`
      Some(enabled) once they are shown. */
  datatype View =
    | Nothing
    | Page(lines: seq<CartItem>, total: int, continueButton: Option<bool>,
           payButton: Option<bool>, payLabel: string)

  function ViewOf(cart: seq<CartItem>, form: DeliveryForm, showBankInfo: bool, isSubmitting: bool): View
  {
    if cart == [] then Nothing
    else Page(cart, CartContext.Total(cart),
              if showBankInfo then None else Some(IsFormValid(form)),
              if showBankInfo then Some(!isSubmitting) else None,
              if isSubmitting then "Saving Order..." else "I Have Made Payment")
  }

  /** The page renders nothing exactly when the cart is empty; the Continue button is
      enabled exactly when the form is valid; the pay button is enabled exactly when no
      order is being saved, whatever the form holds. */
  lemma RenderedButtons(cart: seq<CartItem>, form: DeliveryForm, showBankInfo: bool, isSubmitting: bool)
    ensures ViewOf(cart, form, showBankInfo, isSubmitting).Nothing? <==> cart == []
    ensures cart != [] && !showBankInfo ==>
      ViewOf(cart, form, showBankInfo, isSubmitting).continueButton == Some(IsFormValid(form))
    ensures cart != [] && showBankInfo ==>
      ViewOf(cart, form, showBankInfo, isSubmitting).payButton == Some(!isSubmitting)
    ensures cart != [] ==> ViewOf(cart, form, showBankInfo, isSubmitting).continueButton.Some? != showBankInfo
  {
  }

  const ThankYouRoute := "/thank-you"
  const CartRoute := "/cart"
  const SuccessAlert := "Order placed successfully! Please complete payment via bank transfer."
  const FailureAlert := "Failed to save order. Please contact support."

  class CheckoutPage {
    const store: CartContext.CartProvider
    var form: DeliveryForm
    var showBankInfo: bool
    var isSubmitting: bool
    /** The insert that has been sent and has not answered yet. */
    var pending: Option<OrderPayload>
    /** The routes passed to navigate, in order. */
    var navigations: seq<string>
    var alerts: seq<string>
    /** The deferred clearCart has been scheduled and has not run yet. */
    var clearScheduled: bool

    /** The flag is set exactly while an insert is outstanding, and a clear is only ever
        scheduled after the move to the thank-you page. */
    ghost predicate Valid()
      reads this
    {
      && (isSubmitting <==> pending.Some?)
      && (clearScheduled ==> ThankYouRoute in navigations)
    }

    constructor (store: CartContext.CartProvider)
      ensures this.store == store
      ensures form == DeliveryForm("", "", "", "") && !showBankInfo && !isSubmitting
      ensures pending == None && navigations == [] && alerts == [] && !clearScheduled
      ensures Valid()
    {
      this.store := store;
      form := DeliveryForm("", "", "", "");
      showBankInfo := false;
      isSubmitting := false;
      pending := None;
      navigations := [];
      alerts := [];
      clearScheduled := false;
    }

    /** A render: with an empty cart it navigates to the cart page and shows nothing,
        on every render, not just the first. */
    method Render() returns (v: View)
      requires Valid()
      modifies this`navigations
      ensures Valid()
      ensures v == ViewOf(store.cart, form, showBankInfo, isSubmitting)
      ensures navigations == old(navigations) + (if store.cart == [] then [CartRoute] else [])
    {
      if store.cart == [] {
        navigations := navigations + [CartRoute];
      }
      v := ViewOf(store.cart, form, showBankInfo, isSubmitting);
    }

    method HandleChange(field: FormField, value: string)
      requires Valid()
      modifies this`form
      ensures Valid()
      ensures form == WithField(old(form), field, value)
    {
      form := WithField(form, field, value);
    }

    /** "Continue to Pay": on screen only while the bank details are hidden and the cart
        is not empty, enabled only when the form is valid. Once shown, the bank details
        stay shown. */
    method ClickContinue()
      requires Valid()
      modifies this`showBankInfo
      ensures Valid()
      ensures showBankInfo == (old(showBankInfo) || (store.cart != [] && IsFormValid(form)))
    {
      if !showBankInfo && store.cart != [] && IsFormValid(form) {
        showBankInfo := true;
      }
    }

    /** "I Have Made Payment": on screen only once the bank details are shown, disabled
        only while an order is being saved. The form is not checked again. A click sets the
        flag and sends one insert of the current form and cart. */
    method ClickPay() returns (requests: seq<Request>)
      requires Valid()
      modifies this`isSubmitting, this`pending
      ensures Valid()
      ensures old(store.cart != [] && showBankInfo && !isSubmitting) ==>
        && requests == [Insert("orders")]
        && isSubmitting
        && pending == Some(OrderPayload(form.email, form.name, form.phone, form.address,
                                        store.cart, CartContext.Total(store.cart),
                                        "BANK_TRANSFER", "pending"))
      ensures !old(store.cart != [] && showBankInfo && !isSubmitting) ==>
        requests == [] && isSubmitting == old(isSubmitting) && pending == old(pending)
    {
      requests := [];
      if store.cart == [] || !showBankInfo || isSubmitting {
        return;
      }
      isSubmitting := true;
      pending := Some(OrderPayload(form.email, form.name, form.phone, form.address,
                                   store.cart, CartContext.Total(store.cart),
                                   "BANK_TRANSFER", "pending"));
      requests := [Insert("orders")];
    }

    /** The insert answers. Either way the flag is cleared. On success the page alerts,
        navigates to the thank-you page, and only schedules the clearing of the cart; on
        error it alerts and neither navigates nor touches the cart. */
    method InsertReturned(outcome: Outcome)
      requires Valid()
      modifies this`isSubmitting, this`pending, this`navigations, this`alerts, this`clearScheduled
      ensures Valid()
      ensures old(pending).None? ==>
        isSubmitting == old(isSubmitting) && pending == old(pending) && navigations == old(navigations)
        && alerts == old(alerts) && clearScheduled == old(clearScheduled)
      ensures old(pending).Some? ==> !isSubmitting && pending == None
      ensures old(pending).Some? && outcome == Succeeded ==>
        navigations == old(navigations) + [ThankYouRoute] && alerts == old(alerts) + [SuccessAlert]
        && clearScheduled
      ensures old(pending).Some? && outcome == Failed ==>
        navigations == old(navigations) && alerts == old(alerts) + [FailureAlert]
        && clearScheduled == old(clearScheduled)
    {
      if pending.None? {
        return;
      }
      if outcome == Succeeded {
        alerts := alerts + [SuccessAlert];
        navigations := navigations + [ThankYouRoute];
        clearScheduled := true;
      } else {
        alerts := alerts + [FailureAlert];
      }
      isSubmitting := false;
      pending := None;
    }

    /** The timer fires: the cart is cleared, after the navigation has already happened. */
    method RunDeferredClear()
      requires Valid()
      modifies this`clearScheduled, store
      ensures Valid()
      ensures old(clearScheduled) ==> store.cart == [] && store.Persisted() && !clearScheduled
      ensures !old(clearScheduled) ==>
        store.cart == old(store.cart) && store.saved == old(store.saved) && !clearScheduled
    {
      if clearScheduled {
        store.ClearCart();
        clearScheduled := false;
      }
    }
  }

  /** The pay button trusts the earlier Continue step: a shopper who fills the form,
      continues, and then empties the name field still sends an order with an empty name. */
  method EmptiedFieldStillSubmitted(store: CartContext.CartProvider) returns (sent: OrderPayload)
    requires store.cart != []
    ensures sent.userName == "" && !IsFormValid(DeliveryForm(sent.userName, sent.userEmail, sent.userPhone, sent.userAddress))
    ensures sent.items == store.cart
  {
    var page := new CheckoutPage(store);
    page.HandleChange(Name, "A");
    page.HandleChange(Email, "a@b");
    page.HandleChange(Phone, "1");
    page.HandleChange(Address, "x");
    page.ClickContinue();
    page.HandleChange(Name, "");
    var requests := page.ClickPay();
    sent := page.pending.value;
  }
}
