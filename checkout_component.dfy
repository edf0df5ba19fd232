/**
 * The older checkout component: the same form and order record as the current screen, but
 * a tax rule driven by a table of province codes, card fields that are always validated,
 * and no payment method in the order.
 */
module CheckoutComponent {
  import opened Text
  import opened Wrappers
  import opened FormRules
  import opened Pricing
  import opened Orders
  import opened TaxRules
  import CheckoutPage

  /** The region value starts with one of the listed province codes. */
  predicate StartsWithProvinceCode(normalized: string) {
    |normalized| >= 2 && normalized[..2] in ProvinceCodes
  }

  /** The tax rate this component charges on a normalised region value: GST and QST for
      Quebec, GST for anything starting with a province code, nothing otherwise. */
  function LegacyRate(normalized: string): (r: real)
    ensures r == 0.0 || r == GstRate || r == GstRate + QstRate
  {
    if NamesQuebec(normalized) then GstRate + QstRate
    else if StartsWithProvinceCode(normalized) then GstRate
    else 0.0
  }

  /** The tax `calculateTax` computes on `subtotal` for the raw province field `state`. */
  function LegacyTax(subtotal: real, state: string): real {
    subtotal * LegacyRate(NormalizedState(state))
  }

  /** On a non-negative subtotal the tax is at most 14.975%, and zero when the region is
      neither Quebec nor starts with a province code. */
  lemma LegacyTaxBounds(subtotal: real, state: string)
    requires subtotal >= 0.0
    ensures 0.0 <= LegacyTax(subtotal, state) <= 0.14975 * subtotal
    ensures var n := NormalizedState(state);
      !NamesQuebec(n) && !StartsWithProvinceCode(n) ==> LegacyTax(subtotal, state) == 0.0
  {
    var r := LegacyRate(NormalizedState(state));
    assert 0.0 <= r <= 0.14975;
  }

  /** Against the current screen: this component never charges more on a non-negative
      subtotal, and on a positive subtotal the two agree exactly when the region is Quebec or
      starts with a province code. */
  lemma LegacyNeverExceedsCurrent(subtotal: real, state: string)
    requires subtotal >= 0.0
    ensures LegacyTax(subtotal, state) <= CheckoutPage.Tax(subtotal, state)
    ensures var n := NormalizedState(state);
      subtotal > 0.0 ==>
        (LegacyTax(subtotal, state) == CheckoutPage.Tax(subtotal, state)
         <==> NamesQuebec(n) || StartsWithProvinceCode(n))
  {
    CheckoutPage.TaxRates(subtotal, state);
  }

  /** "ONX" pays GST only: its first two letters are the Ontario code. */
  lemma LegacyTaxOntarioPrefix()
    ensures LegacyTax(100.0, "ONX") == 5.0
  {
    NormalizedUnchanged("ONX");
    assert "ONX"[..2] == "ON";
  }

  /** "QCX" pays GST only: it is not "QC" itself, but its first two letters are a code. */
  lemma LegacyTaxQuebecPrefix()
    ensures LegacyTax(100.0, "QCX") == 5.0
  {
    NormalizedUnchanged("QCX");
    assert "QCX"[..2] == "QC";
  }

  /** "QUE" pays nothing: "QU" is not a code. */
  lemma LegacyTaxNoCode()
    ensures LegacyTax(100.0, "QUE") == 0.0
  {
    NormalizedUnchanged("QUE");
    assert "QUE"[..2] == "QU";
  }

  /** A padded lower-case "quebec" is normalised before the comparison and pays both taxes. */
  lemma LegacyTaxQuebecName()
    ensures LegacyTax(100.0, " quebec ") == 14.975
  {
    assert NormalizedState(" quebec ") == "QUEBEC" by {
      assert LeadingWhitespace(" quebec ") == 1;
      assert TrailingWhitespace("quebec ") == 1;
      assert ToUpper("quebec") == "QUEBEC";
    }
  }

  /** The two checkout variants disagree on an empty province field: 5.00 against 0 on a
      subtotal of 100. */
  lemma VariantsDisagreeOnEmptyState()
    ensures CheckoutPage.Tax(100.0, "") == 5.0 && LegacyTax(100.0, "") == 0.0
  {
    assert Trim("") == "";
  }

  /** The untouched form of this component: every field empty and no payment method. */
  const InitialLegacyForm: map<Field, string> := map[
    FirstName := "", LastName := "", Email := "", Phone := "", Address := "", City := "",
    State := "", ZipCode := "", CardNumber := "", ExpiryDate := "", Cvv := ""]

  /** What this component's `validateForm` returns: no field has an error, card fields
      included. */
  predicate LegacyFormIsValid(form: map<Field, string>) {
    ValidationErrors(form, true) == map[]
  }

  /** The component checks card fields whatever the form holds, so a form passes exactly when
      both the address part and the card part are complete. */
  lemma LegacyFormIsValidIff(form: map<Field, string>)
    ensures LegacyFormIsValid(form) <==> AddressComplete(form) && CardComplete(form)
  {
    ValidationErrorsEmptyIff(form, true);
    AddressFieldsPassIff(form);
    CardFieldsPassIff(form);
  }

  /** A form the current screen accepts for a non-card payment can still be refused here:
      acceptance here implies acceptance there, never the converse in general. */
  lemma LegacyValidImpliesCurrentValid(form: map<Field, string>)
    ensures LegacyFormIsValid(form) ==> CheckoutPage.FormIsValid(form)
  {
    LegacyFormIsValidIff(form);
    CheckoutPage.FormIsValidIff(form);
  }

  /** The component's state: the cart, the form, the error map, the processing flag. */
  class LegacyCheckout {
    const cart: seq<CartItem>
    var formData: map<Field, string>
    var errors: map<Field, string>
    var isProcessing: bool

    constructor (cart: seq<CartItem>)
      ensures this.cart == cart && formData == InitialLegacyForm && errors == map[] && !isProcessing
    {
      this.cart := cart;
      formData := InitialLegacyForm;
      errors := map[];
      isProcessing := false;
    }

    /** `calculateTax`: start from no tax, then take both taxes for Quebec, or GST alone when
        the region has at least two characters and starts with a listed code. */
    method CalculateTax() returns (taxAmount: real)
      ensures taxAmount == LegacyTax(Subtotal(cart), Get(formData, State))
    {
      var subtotal := Subtotal(cart);
      taxAmount := 0.0;
      var state := NormalizedState(Get(formData, State));
      var gst := subtotal * 0.05;
      if state == "QC" || state == "QUEBEC" {
        taxAmount := gst + subtotal * 0.09975;
      } else {
        if state != "" && (|state| == 2 || |state| > 2) {
          var canadianProvinces := ProvinceCodes;
          if state[..2] in canadianProvinces {
            taxAmount := gst;
          }
        }
      }
    }

    /** `validateForm`: every field including the card fields, in the component's order. */
    method ValidateForm() returns (ok: bool)
      modifies this`errors
      ensures errors == ValidationErrors(formData, true)
      ensures ok <==> LegacyFormIsValid(formData)
    {
      var check := FieldCheck(formData);
      var newErrors: map<Field, string> := map[];
      newErrors := Record(newErrors, check, FirstName);
      newErrors := Record(newErrors, check, LastName);
      newErrors := Record(newErrors, check, Email);
      newErrors := Record(newErrors, check, Phone);
      newErrors := Record(newErrors, check, Address);
      newErrors := Record(newErrors, check, City);
      newErrors := Record(newErrors, check, State);
      newErrors := Record(newErrors, check, ZipCode);
      newErrors := Record(newErrors, check, CardNumber);
      newErrors := Record(newErrors, check, ExpiryDate);
      newErrors := Record(newErrors, check, Cvv);
      ErrorsOfUnrolled(check);
      ValidationErrorsInOrder(formData, true);
      errors := newErrors;
      ok := |newErrors| == 0;
    }

    /** `handleChange`: set the named field; clear its error if one is shown. */
    method HandleChange(name: Field, value: string)
      modifies this`formData, this`errors
      ensures formData == old(formData)[name := value]
      ensures errors == ClearError(old(errors), name)
    {
      formData := formData[name := value];
      if name in errors && errors[name] != "" {
        errors := errors[name := ""];
      }
    }

    /** `handleCardNumberChange`: store the formatted card number; clear its error. */
    method HandleCardNumberChange(value: string)
      modifies this`formData, this`errors
      ensures formData == old(formData)[CardNumber := FormatCardNumber(value)]
      ensures errors == ClearError(old(errors), CardNumber)
    {
      var formatted := FormatCardNumber(value);
      formData := formData[CardNumber := formatted];
      if CardNumber in errors && errors[CardNumber] != "" {
        errors := errors[CardNumber := ""];
      }
    }

    /** `handleExpiryDateChange`: store the formatted expiry date; clear its error. */
    method HandleExpiryDateChange(value: string)
      modifies this`formData, this`errors
      ensures formData == old(formData)[ExpiryDate := FormatExpiryDate(value)]
      ensures errors == ClearError(old(errors), ExpiryDate)
    {
      var formatted := FormatExpiryDate(value);
      formData := formData[ExpiryDate := formatted];
      if ExpiryDate in errors && errors[ExpiryDate] != "" {
        errors := errors[ExpiryDate := ""];
      }
    }

    /** `handleSubmit`: validate; on success build the order (without a payment method) with
        this component's tax; if the order step fails (`completes` false) show the page-level
        error instead. The processing flag is cleared either way. */
    method HandleSubmit(orderId: string, date: string, completes: bool) returns (placed: Option<Order>)
      modifies this`errors, this`isProcessing
      ensures !LegacyFormIsValid(formData) ==>
        placed == None && errors == ValidationErrors(formData, true) && isProcessing == old(isProcessing)
      ensures LegacyFormIsValid(formData) && completes ==>
        placed == Some(BuildOrder(orderId, date, formData, cart,
                                  LegacyTax(Subtotal(cart), Get(formData, State)), None))
        && errors == map[] && !isProcessing
      ensures LegacyFormIsValid(formData) && !completes ==>
        placed == None && errors == map[Submit := CheckoutPage.PaymentFailedMessage] && !isProcessing
    {
      var ok := ValidateForm();
      if !ok {
        return None;
      }
      isProcessing := true;
      if completes {
        var tax := CalculateTax();
        placed := Some(BuildOrder(orderId, date, formData, cart, tax, None));
      } else {
        errors := map[Submit := CheckoutPage.PaymentFailedMessage];
        placed := None;
      }
      isProcessing := false;
    }
  }
}
