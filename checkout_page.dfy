/**
 * The current checkout screen: order summary amounts, the form with its error map,
 * field-by-field validation (card fields only for card payments), the edit handlers,
 * and the submit step that builds the order.
 */
module CheckoutPage {
  import opened Text
  import opened Wrappers
  import opened FormRules
  import opened Money
  import opened Pricing
  import opened Orders
  import opened TaxRules

  /** The `tax` memo: GST on every province value, even an empty one, plus QST for Quebec. */
  function Tax(subtotal: real, state: string): real {
    var gst := subtotal * GstRate;
    var qst := if NamesQuebec(NormalizedState(state)) then subtotal * QstRate else 0.0;
    gst + qst
  }

  /** `subtotal + tax + shipping`, the total the summary shows (rounded only for display). */
  function Total(cart: seq<CartItem>, state: string): real {
    Subtotal(cart) + Tax(Subtotal(cart), state) + Shipping(Subtotal(cart))
  }

  /** The tax is 5% of the subtotal whatever the province field holds, and 14.975% exactly
      when the trimmed, upper-cased field is QC or QUEBEC. */
  lemma TaxRates(subtotal: real, state: string)
    ensures NamesQuebec(NormalizedState(state)) ==> Tax(subtotal, state) == 0.14975 * subtotal
    ensures !NamesQuebec(NormalizedState(state)) ==> Tax(subtotal, state) == 0.05 * subtotal
  {
  }

  /** Case does not matter: "qc" pays both taxes, 14.975 on 100. */
  lemma TaxLowerCaseQuebec()
    ensures Tax(100.0, "qc") == 14.975
  {
    assert NormalizedState("qc") == "QC" by {
      TrimUnpadded("qc");
      assert ToUpper("qc") == "QC";
    }
  }

  /** An empty region still pays GST: 5 on 100. */
  lemma TaxEmptyRegion()
    ensures Tax(100.0, "") == 5.0
  {
    assert NormalizedState("") == "";
  }

  /** A region outside Canada still pays GST: 5 on 100. */
  lemma TaxForeignRegion()
    ensures Tax(100.0, "US-CA") == 5.0
  {
    NormalizedUnchanged("US-CA");
  }

  /** Whether the form asks for a card payment, which is also the initial choice. */
  predicate PaysByCard(form: map<Field, string>) {
    Get(form, PaymentMethod) == CreditCard
  }

  /** What `validateForm` returns: no checked field has an error. */
  predicate FormIsValid(form: map<Field, string>) {
    ValidationErrors(form, PaysByCard(form)) == map[]
  }

  const InitialForm: map<Field, string> := map[
    FirstName := "", LastName := "", Email := "", Phone := "", Address := "", City := "",
    State := "", ZipCode := "", PaymentMethod := CreditCard, CardNumber := "", ExpiryDate := "",
    Cvv := ""]

  const PaymentFailedMessage := "Payment processing failed. Please try again."

  /** A form passes validation exactly when every contact and address field is acceptable
      and, for card payments only, every card field is well formed. */
  lemma FormIsValidIff(form: map<Field, string>)
    ensures FormIsValid(form) <==> AddressComplete(form) && (PaysByCard(form) ==> CardComplete(form))
  {
    ValidationErrorsEmptyIff(form, PaysByCard(form));
    AddressFieldsPassIff(form);
    CardFieldsPassIff(form);
  }

  /** Card fields never produce errors unless the payment method is "credit-card"; for a
      card payment each errs exactly when malformed. */
  lemma CardChecksOnlyForCreditCard(form: map<Field, string>)
    ensures var errors := ValidationErrors(form, PaysByCard(form));
      && (!PaysByCard(form) ==> CardNumber !in errors && ExpiryDate !in errors && Cvv !in errors)
      && (PaysByCard(form) ==>
            && (CardNumber in errors <==> !IsValidCardNumber(Get(form, CardNumber)))
            && (ExpiryDate in errors <==> !IsValidExpiry(Get(form, ExpiryDate)))
            && (Cvv in errors <==> !IsValidCvv(Get(form, Cvv))))
  {
    if PaysByCard(form) {
      CardFieldsChecked(form);
    } else {
      CardFieldsSkipped(form);
    }
  }

  /** The untouched form fails on every address field and, card payment being the default,
      on every card field, each with its "required" message. */
  lemma InitialFormErrors()
    ensures var errors := ValidationErrors(InitialForm, PaysByCard(InitialForm));
      errors.Keys == AddressFields + CardFields
      && forall k :: k in errors ==> errors[k] == RequiredMessage(k)
  {
    assert PaysByCard(InitialForm);
    InitialFieldsBlank();
    BlankFormErrors(InitialForm, true);
  }

  /** Every checked field of the untouched form is empty. */
  lemma InitialFieldsBlank()
    ensures forall k :: k in CheckedFields(true) ==> IsBlank(Get(InitialForm, k))
  {
    forall k | k in CheckedFields(true) ensures Get(InitialForm, k) == "" {
      assert k != PaymentMethod && k != Submit;
    }
  }

  /** A form that is right except for a malformed (non-blank) email yields exactly one error. */
  lemma OnlyEmailMalformed(form: map<Field, string>)
    requires forall k :: k in CheckedFields(PaysByCard(form)) && k != Email ==> FieldError(form, k).None?
    requires !IsBlank(Get(form, Email)) && !EmailPattern(Get(form, Email))
    ensures ValidationErrors(form, PaysByCard(form)) == map[Email := "Invalid email format"]
  {
    EmailErrorIffNoMatch(form);
    var errors := ValidationErrors(form, PaysByCard(form));
    assert errors.Keys == {Email};
  }

  /** The order the screen stores for a cart of two 50.00 items shipped to Quebec, on exact
      amounts: tax 14.975 is stored as 14.98, and the total 124.975 as 124.98. */
  lemma QuebecOrderExample(form: map<Field, string>, orderId: string, date: string)
    requires Get(form, State) == "QC"
    ensures var cart := [CartItem(1, "Item", "Brand", "", 50.0, 0.0, 2)];
      var o := BuildOrder(orderId, date, form, cart, Tax(Subtotal(cart), Get(form, State)), Some(CreditCard));
      o.subtotal == 100.0 && o.tax == 14.98 && o.shipping == 10.0 && o.total == 124.98
  {
    var cart := [CartItem(1, "Item", "Brand", "", 50.0, 0.0, 2)];
    assert Subtotal(cart) == 100.0;
    NormalizedUnchanged("QC");
    assert Tax(100.0, "QC") == 14.975;
    assert RoundHalfAwayFromZero(1497.5) == 1498;
    assert RoundHalfAwayFromZero(12497.5) == 12498;
  }

  /** Because the total is rounded from the unrounded sum, the stored total need not equal the
      sum of the stored parts: a subtotal of 0.0049 in Ontario stores 0.00 + 0.00 + 10 but a
      total of 10.01. */
  lemma StoredTotalMayDifferFromParts(form: map<Field, string>, orderId: string, date: string)
    requires Get(form, State) == "ON"
    ensures var cart := [CartItem(1, "Item", "Brand", "", 0.0049, 0.0, 1)];
      var o := BuildOrder(orderId, date, form, cart, Tax(Subtotal(cart), Get(form, State)), Some(CreditCard));
      o.subtotal == 0.0 && o.tax == 0.0 && o.shipping == 10.0 && o.total == 10.01
  {
    var cart := [CartItem(1, "Item", "Brand", "", 0.0049, 0.0, 1)];
    assert Subtotal(cart) == 0.0049;
    NormalizedUnchanged("ON");
    assert Tax(0.0049, "ON") == 0.000245;
    assert RoundHalfAwayFromZero(0.49) == 0;
    assert RoundHalfAwayFromZero(0.0245) == 0;
    assert RoundHalfAwayFromZero(1000.5145) == 1001;
  }

  /** The screen's state: the cart it was given, the form, the error map and the
      payment-in-progress flag. */
  class Checkout {
    const cart: seq<CartItem>
    var formData: map<Field, string>
    var errors: map<Field, string>
    var isProcessing: bool

    constructor (cart: seq<CartItem>)
      ensures this.cart == cart && formData == InitialForm && errors == map[] && !isProcessing
    {
      this.cart := cart;
      formData := InitialForm;
      errors := map[];
      isProcessing := false;
    }

    /** `validateForm`: fill a fresh error map field by field, store it, and report whether
        it is empty. */
    method ValidateForm() returns (ok: bool)
      modifies this`errors
      ensures errors == ValidationErrors(formData, PaysByCard(formData))
      ensures ok <==> FormIsValid(formData)
    {
      var check := FieldCheck(formData);
      var newErrors: map<Field, string> := map[];
      newErrors := Record(newErrors, check, FirstName);
      newErrors := Record(newErrors, check, LastName);
      newErrors := Record(newErrors, check, Email);
      newErrors := Record(newErrors, check, Phone);
      newErrors := Record(newErrors, check, Address);
      newErrors := Record(newErrors, check, City);
      newErrors := Record(newErrors, check, State);
      newErrors := Record(newErrors, check, ZipCode);
      ErrorsOfUnrolled(check);
      if PaysByCard(formData) {
        newErrors := Record(newErrors, check, CardNumber);
        newErrors := Record(newErrors, check, ExpiryDate);
        newErrors := Record(newErrors, check, Cvv);
      }
      ValidationErrorsInOrder(formData, PaysByCard(formData));
      errors := newErrors;
      ok := |newErrors| == 0;
    }

    /** `handleChange`: set the named field; clear its error if one is shown. */
    method HandleChange(name: Field, value: string)
      modifies this`formData, this`errors
      ensures formData == old(formData)[name := value]
      ensures errors == ClearError(old(errors), name)
    {
      formData := formData[name := value];
      if name in errors && errors[name] != "" {
        errors := errors[name := ""];
      }
    }

    /** `handleCardNumberChange`: store the formatted card number; clear its error. */
    method HandleCardNumberChange(value: string)
      modifies this`formData, this`errors
      ensures formData == old(formData)[CardNumber := FormatCardNumber(value)]
      ensures errors == ClearError(old(errors), CardNumber)
    {
      var formatted := FormatCardNumber(value);
      formData := formData[CardNumber := formatted];
      if CardNumber in errors && errors[CardNumber] != "" {
        errors := errors[CardNumber := ""];
      }
    }

    /** `handleExpiryDateChange`: store the formatted expiry date; clear its error. */
    method HandleExpiryDateChange(value: string)
      modifies this`formData, this`errors
      ensures formData == old(formData)[ExpiryDate := FormatExpiryDate(value)]
      ensures errors == ClearError(old(errors), ExpiryDate)
    {
      var formatted := FormatExpiryDate(value);
      formData := formData[ExpiryDate := formatted];
      if ExpiryDate in errors && errors[ExpiryDate] != "" {
        errors := errors[ExpiryDate := ""];
      }
    }

    /** `handleSubmit`: validate; if that fails, stop with the field errors shown. Otherwise
        build the order and hand it to the caller. The simulated payment delay always
        resolves; the only failure is the hand-off throwing, which `handOffSucceeds` stands
        for. On success the order the caller receives is returned; on failure the error map
        is replaced by the single page-level error. The processing flag is cleared either way. */
    method HandleSubmit(orderId: string, date: string, handOffSucceeds: bool) returns (placed: Option<Order>)
      modifies this`errors, this`isProcessing
      ensures !FormIsValid(formData) ==>
        placed == None && errors == ValidationErrors(formData, PaysByCard(formData))
        && isProcessing == old(isProcessing)
      ensures FormIsValid(formData) && handOffSucceeds ==>
        placed == Some(BuildOrder(orderId, date, formData, cart, Tax(Subtotal(cart), Get(formData, State)),
                                  Some(Get(formData, PaymentMethod))))
        && errors == map[] && !isProcessing
      ensures FormIsValid(formData) && !handOffSucceeds ==>
        placed == None && errors == map[Submit := PaymentFailedMessage] && !isProcessing
    {
      var ok := ValidateForm();
      if !ok {
        return None;
      }
      isProcessing := true;
      if handOffSucceeds {
        var subtotal := Subtotal(cart);
        var tax := Tax(subtotal, Get(formData, State));
        placed := Some(BuildOrder(orderId, date, formData, cart, tax, Some(Get(formData, PaymentMethod))));
      } else {
        errors := map[Submit := PaymentFailedMessage];
        placed := None;
      }
      isProcessing := false;
    }
  }
}
