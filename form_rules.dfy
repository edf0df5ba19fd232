/**
 * The checkout form's field rules, shared word for word by both checkout screens:
 * per-field error messages, the regular-expression checks written out as predicates,
 * the error-map bookkeeping of `handleChange`, and the two input formatters.
 */
module FormRules {
  import opened Text
  import opened Wrappers

  /** The form's fields, named by the `name` attribute of their inputs, plus the key of the
      page-level error shown when payment processing fails. */
  datatype Field =
    | FirstName | LastName | Email | Phone | Address | City | State | ZipCode
    | PaymentMethod | CardNumber | ExpiryDate | Cvv
    | Submit

  const CreditCard := "credit-card"

  /** Contact and address fields: validated on every submit, by both screens. */
  const AddressFields: set<Field> := {FirstName, LastName, Email, Phone, Address, City, State, ZipCode}
  /** Card fields: validated only for card payments on one screen, always on the other. */
  const CardFields: set<Field> := {CardNumber, ExpiryDate, Cvv}

  /** The fields whose only rule is "required". */
  const RequiredOnlyFields: set<Field> := {FirstName, LastName, Address, City, State, ZipCode}

  /** The form value under `name`. Every form the screens build holds all their keys;
      the empty default is never read. */
  function Get(form: map<Field, string>, name: Field): string {
    if name in form then form[name] else ""
  }

  // ---------------------------------------------------------------------------
  // The regular expressions of `validateForm`

  predicate NoWhitespaceOrAt(s: string) {
    forall i :: 0 <= i < |s| ==> !IsWhitespace(s[i]) && s[i] != '@'
  }

  /** The shape `/^[^\s@]+@[^\s@]+\.[^\s@]+$/` accepts, split at its one '@' (position `at`). */
  ghost predicate EmailSplit(s: string, at: int) {
    && 0 < at < |s| && s[at] == '@'
    && (forall i :: 0 <= i < |s| && i != at ==> !IsWhitespace(s[i]) && s[i] != '@')
    && exists dot :: at + 1 < dot < |s| - 1 && s[dot] == '.'
  }

  /** `/^[^\s@]+@[^\s@]+\.[^\s@]+$/.test(s)`: exactly one '@', after a non-empty local part,
      no whitespace anywhere, and a '.' in the domain that is neither its first nor its
      last character. */
  ghost predicate EmailPattern(s: string) {
    exists at :: EmailSplit(s, at)
  }

  /** The same check as a left-to-right scan: find the first '@', then look at both sides. */
  predicate IsValidEmail(s: string) {
    var at := IndexOf(s, '@');
    && 0 < at < |s|
    && NoWhitespaceOrAt(s[..at])
    && NoWhitespaceOrAt(s[at + 1..])
    && |s| - at >= 4
    && '.' in s[at + 2..|s| - 1]
  }

  lemma EmailCheckMatchesPattern(s: string)
    ensures IsValidEmail(s) <==> EmailPattern(s)
  {
    var at := IndexOf(s, '@');
    if IsValidEmail(s) {
      var j :| 0 <= j < |s[at + 2..|s| - 1]| && s[at + 2..|s| - 1][j] == '.';
      assert s[at + 2 + j] == '.';
      forall i | 0 <= i < |s| && i != at
        ensures !IsWhitespace(s[i]) && s[i] != '@'
      {
        if i < at { assert s[i] == s[..at][i]; } else { assert s[i] == s[at + 1..][i - at - 1]; }
      }
      assert EmailSplit(s, at);
    }
    if EmailPattern(s) {
      var a :| EmailSplit(s, a);
      assert at == a;
      var dot :| a + 1 < dot < |s| - 1 && s[dot] == '.';
      assert s[at + 2..|s| - 1][dot - at - 2] == '.';
    }
  }

  /** `/^\d{10,}$/.test(s.replace(/\D/g, ""))`: at least ten digits anywhere in `s`. */
  predicate IsValidPhone(s: string) {
    |DigitsOf(s)| >= 10
  }

  /** `/^\d{16}$/.test(s.replace(/\s/g, ""))`: sixteen digits once whitespace is removed. */
  predicate IsValidCardNumber(s: string) {
    var t := RemoveWhitespace(s);
    |t| == 16 && AllDigits(t)
  }

  /** `/^\d{2}\/\d{2}$/.test(s)`, on the raw value. */
  predicate IsValidExpiry(s: string) {
    |s| == 5 && IsDigit(s[0]) && IsDigit(s[1]) && s[2] == '/' && IsDigit(s[3]) && IsDigit(s[4])
  }

  /** `/^\d{3,4}$/.test(s)`, on the raw value. */
  predicate IsValidCvv(s: string) {
    3 <= |s| <= 4 && AllDigits(s)
  }

  // ---------------------------------------------------------------------------
  // Per-field errors and the error map

  /** The "required" message of each field. */
  function RequiredMessage(name: Field): string {
    match name
    case FirstName => "First name is required"
    case LastName => "Last name is required"
    case Email => "Email is required"
    case Phone => "Phone is required"
    case Address => "Address is required"
    case City => "City is required"
    case State => "State is required"
    case ZipCode => "ZIP code is required"
    case CardNumber => "Card number is required"
    case ExpiryDate => "Expiry date is required"
    case Cvv => "CVV is required"
    case PaymentMethod => ""
    case Submit => ""
  }

  /** A field that is only required. */
  function RequiredError(form: map<Field, string>, name: Field): Option<string> {
    if IsBlank(Get(form, name)) then Some(RequiredMessage(name)) else None
  }

  /** A field that is required and must also pass `valid`. */
  function CheckedError(form: map<Field, string>, name: Field, valid: bool, invalidMessage: string): Option<string> {
    if IsBlank(Get(form, name)) then Some(RequiredMessage(name))
    else if !valid then Some(invalidMessage)
    else None
  }

  function EmailError(form: map<Field, string>): Option<string> {
    CheckedError(form, Email, IsValidEmail(Get(form, Email)), "Invalid email format")
  }

  function PhoneError(form: map<Field, string>): Option<string> {
    CheckedError(form, Phone, IsValidPhone(Get(form, Phone)), "Invalid phone number")
  }

  function CardNumberError(form: map<Field, string>): Option<string> {
    CheckedError(form, CardNumber, IsValidCardNumber(Get(form, CardNumber)), "Invalid card number (16 digits required)")
  }

  function ExpiryDateError(form: map<Field, string>): Option<string> {
    CheckedError(form, ExpiryDate, IsValidExpiry(Get(form, ExpiryDate)), "Invalid format (MM/YY)")
  }

  function CvvError(form: map<Field, string>): Option<string> {
    CheckedError(form, Cvv, IsValidCvv(Get(form, Cvv)), "Invalid CVV (3-4 digits)")
  }

  /** The message `validateForm` records for field `name`, if any. */
  function FieldError(form: map<Field, string>, name: Field): Option<string> {
    match name
    case Email => EmailError(form)
    case Phone => PhoneError(form)
    case CardNumber => CardNumberError(form)
    case ExpiryDate => ExpiryDateError(form)
    case Cvv => CvvError(form)
    case PaymentMethod => None
    case Submit => None
    case _ => RequiredError(form, name)
  }

  /** The order in which `validateForm` checks the contact and address fields. */
  const AddressOrder: seq<Field> := [FirstName, LastName, Email, Phone, Address, City, State, ZipCode]
  /** The order in which it checks the card fields. */
  const CardOrder: seq<Field> := [CardNumber, ExpiryDate, Cvv]

  /** The fields a validation checks, in order; `checkCard` says whether card fields are checked. */
  function CheckOrder(checkCard: bool): seq<Field> {
    if checkCard then AddressOrder + CardOrder else AddressOrder
  }

  /** One `if` of `validateForm`: record the message `err(name)` when there is one. */
  function Record(errors: map<Field, string>, err: Field -> Option<string>, name: Field): map<Field, string> {
    if err(name).Some? then errors[name := err(name).value] else errors
  }

  /** The error map built by checking `fields` in order with `err`. */
  function ErrorsOf(err: Field -> Option<string>, fields: seq<Field>): map<Field, string> {
    if fields == [] then map[] else Record(ErrorsOf(err, fields[..|fields| - 1]), err, fields[|fields| - 1])
  }

  /** Checking one more field is one more step. */
  lemma ErrorsOfSnoc(err: Field -> Option<string>, fields: seq<Field>, name: Field)
    ensures ErrorsOf(err, fields + [name]) == Record(ErrorsOf(err, fields), err, name)
  {
    assert (fields + [name])[..|fields|] == fields;
  }

  /** `ErrorsOf` on the two check orders, written out one step per field. */
  lemma ErrorsOfUnrolled(err: Field -> Option<string>)
    ensures ErrorsOf(err, AddressOrder) ==
      Record(Record(Record(Record(Record(Record(Record(Record(
        map[], err, FirstName), err, LastName), err, Email), err, Phone), err, Address), err, City),
        err, State), err, ZipCode)
    ensures ErrorsOf(err, AddressOrder + CardOrder) ==
      Record(Record(Record(ErrorsOf(err, AddressOrder), err, CardNumber), err, ExpiryDate), err, Cvv)
  {
    assert [FirstName] == [] + [FirstName];
    assert [FirstName, LastName] == [FirstName] + [LastName];
    assert [FirstName, LastName, Email] == [FirstName, LastName] + [Email];
    assert [FirstName, LastName, Email, Phone] == [FirstName, LastName, Email] + [Phone];
    assert [FirstName, LastName, Email, Phone, Address] == [FirstName, LastName, Email, Phone] + [Address];
    assert [FirstName, LastName, Email, Phone, Address, City] == [FirstName, LastName, Email, Phone, Address] + [City];
    assert [FirstName, LastName, Email, Phone, Address, City, State]
        == [FirstName, LastName, Email, Phone, Address, City] + [State];
    assert AddressOrder == [FirstName, LastName, Email, Phone, Address, City, State] + [ZipCode];
    ErrorsOfSnoc(err, [], FirstName);
    ErrorsOfSnoc(err, [FirstName], LastName);
    ErrorsOfSnoc(err, [FirstName, LastName], Email);
    ErrorsOfSnoc(err, [FirstName, LastName, Email], Phone);
    ErrorsOfSnoc(err, [FirstName, LastName, Email, Phone], Address);
    ErrorsOfSnoc(err, [FirstName, LastName, Email, Phone, Address], City);
    ErrorsOfSnoc(err, [FirstName, LastName, Email, Phone, Address, City], State);
    ErrorsOfSnoc(err, [FirstName, LastName, Email, Phone, Address, City, State], ZipCode);
    ErrorsOfSnoc(err, AddressOrder, CardNumber);
    ErrorsOfSnoc(err, AddressOrder + [CardNumber], ExpiryDate);
    ErrorsOfSnoc(err, AddressOrder + [CardNumber, ExpiryDate], Cvv);
    assert AddressOrder + [CardNumber] + [ExpiryDate] == AddressOrder + [CardNumber, ExpiryDate];
    assert AddressOrder + [CardNumber, ExpiryDate] + [Cvv] == AddressOrder + CardOrder;
  }

  /** The map records exactly the checked fields that fail, each with its message, whatever
      the order of the checks. */
  lemma {:induction false} ErrorsOfEntries(err: Field -> Option<string>, fields: seq<Field>)
    ensures var e := ErrorsOf(err, fields);
      && (forall k :: k in e <==> k in fields && err(k).Some?)
      && (forall k :: k in e ==> e[k] == err(k).value)
  {
    if fields != [] {
      var init := fields[..|fields| - 1];
      ErrorsOfEntries(err, init);
      assert fields == init + [fields[|fields| - 1]];
    }
  }

  /** `FieldError` on one form, as a function of the field. */
  function FieldCheck(form: map<Field, string>): Field -> Option<string> {
    k => FieldError(form, k)
  }

  /** The fields a validation checks. */
  function CheckedFields(checkCard: bool): set<Field> {
    if checkCard then AddressFields + CardFields else AddressFields
  }

  /** The error map of a whole validation of `form`: one entry per checked field that fails,
      holding that field's message. */
  function ValidationErrors(form: map<Field, string>, checkCard: bool): (e: map<Field, string>)
    ensures forall k :: k in e <==> k in CheckedFields(checkCard) && FieldError(form, k).Some?
    ensures forall k :: k in e ==> e[k] == FieldError(form, k).value
  {
    map k | k in CheckedFields(checkCard) && FieldError(form, k).Some? :: FieldError(form, k).value
  }

  /** Checking the fields one by one, in `validateForm`'s order, builds that map. */
  lemma ValidationErrorsInOrder(form: map<Field, string>, checkCard: bool)
    ensures ErrorsOf(FieldCheck(form), CheckOrder(checkCard)) == ValidationErrors(form, checkCard)
  {
    var e := ErrorsOf(FieldCheck(form), CheckOrder(checkCard));
    ErrorsOfEntries(FieldCheck(form), CheckOrder(checkCard));
    forall k ensures k in CheckOrder(checkCard) <==> k in CheckedFields(checkCard) {
    }
    assert e.Keys == ValidationErrors(form, checkCard).Keys;
  }

  /** Every contact and address field is acceptable. */
  ghost predicate AddressComplete(form: map<Field, string>) {
    && (forall k :: k in RequiredOnlyFields ==> !IsBlank(Get(form, k)))
    && EmailPattern(Get(form, Email))
    && |DigitsOf(Get(form, Phone))| >= 10
  }

  /** Every card field is acceptable. */
  predicate CardComplete(form: map<Field, string>) {
    && IsValidCardNumber(Get(form, CardNumber))
    && IsValidExpiry(Get(form, ExpiryDate))
    && IsValidCvv(Get(form, Cvv))
  }

  /** Whether `name` currently shows an error: `errors[name]` is truthy. */
  predicate HasError(errors: map<Field, string>, name: Field) {
    name in errors && errors[name] != ""
  }

  /** The error bookkeeping of `handleChange`: a shown error on the edited field is
      replaced by the empty string; every other entry is kept. */
  function ClearError(errors: map<Field, string>, name: Field): (r: map<Field, string>)
    ensures !HasError(r, name)
    ensures r.Keys == errors.Keys
    ensures forall k :: k in errors && k != name ==> r[k] == errors[k]
    ensures !HasError(errors, name) ==> r == errors
  {
    if HasError(errors, name) then errors[name := ""] else errors
  }

  // ---------------------------------------------------------------------------
  // What each rule amounts to once the "required" branch is folded in

  /** A blank phone has no digits, so the phone field errs exactly when it has fewer than ten. */
  lemma PhoneErrorIffFewDigits(form: map<Field, string>)
    ensures PhoneError(form).Some? <==> |DigitsOf(Get(form, Phone))| < 10
  {
    var v := Get(form, Phone);
    if IsBlank(v) { DigitsOfBlank(v); }
  }

  /** The email field errs exactly when the address does not have the accepted shape. */
  lemma EmailErrorIffNoMatch(form: map<Field, string>)
    ensures EmailError(form).Some? <==> !EmailPattern(Get(form, Email))
  {
    EmailCheckMatchesPattern(Get(form, Email));
  }

  /** The card number errs exactly when it is not sixteen digits after removing whitespace. */
  lemma CardNumberErrorIffInvalid(form: map<Field, string>)
    ensures CardNumberError(form).Some? <==> !IsValidCardNumber(Get(form, CardNumber))
  {
    var v := Get(form, CardNumber);
    if IsBlank(v) { RemoveWhitespaceOfBlank(v); }
  }

  /** The expiry date errs exactly when the raw value is not `DD/DD`. */
  lemma ExpiryErrorIffInvalid(form: map<Field, string>)
    ensures ExpiryDateError(form).Some? <==> !IsValidExpiry(Get(form, ExpiryDate))
  {
    var v := Get(form, ExpiryDate);
    if IsBlank(v) && |v| == 5 { assert IsWhitespace(v[0]); }
  }

  /** The CVV errs exactly when the raw value is not three or four digits. */
  lemma CvvErrorIffInvalid(form: map<Field, string>)
    ensures CvvError(form).Some? <==> !IsValidCvv(Get(form, Cvv))
  {
    var v := Get(form, Cvv);
    if IsBlank(v) && |v| > 0 { assert IsWhitespace(v[0]); }
  }

  /** A field whose only rule is "required" errs exactly when it is blank. */
  lemma RequiredFieldErrs(form: map<Field, string>, k: Field)
    requires k in RequiredOnlyFields
    ensures FieldError(form, k).Some? <==> IsBlank(Get(form, k))
  {
  }

  /** A field's message is its "required" message exactly when the field is blank. */
  lemma FieldErrorMessage(form: map<Field, string>, k: Field)
    requires FieldError(form, k).Some?
    ensures FieldError(form, k).value == RequiredMessage(k) <==> IsBlank(Get(form, k))
  {
    match k
    case Email =>
    case Phone =>
    case CardNumber =>
    case ExpiryDate =>
    case Cvv =>
    case _ =>
  }

  /** A blank checked field carries its "required" message, whatever its other rules. */
  lemma BlankFieldRequired(form: map<Field, string>, k: Field)
    requires k in CheckedFields(true) && IsBlank(Get(form, k))
    ensures FieldError(form, k) == Some(RequiredMessage(k))
  {
    match k
    case Email =>
    case Phone =>
    case CardNumber =>
    case ExpiryDate =>
    case Cvv =>
    case _ =>
  }

  /** When every checked field is blank, every one of them errs with its "required" message. */
  lemma BlankFormErrors(form: map<Field, string>, checkCard: bool)
    requires forall k :: k in CheckedFields(checkCard) ==> IsBlank(Get(form, k))
    ensures var e := ValidationErrors(form, checkCard);
      e.Keys == CheckedFields(checkCard) && forall k :: k in e ==> e[k] == RequiredMessage(k)
  {
    forall k | k in CheckedFields(checkCard) ensures FieldError(form, k) == Some(RequiredMessage(k)) {
      BlankFieldRequired(form, k);
    }
  }

  /** Without the card check, no card field can appear in the error map. */
  lemma CardFieldsSkipped(form: map<Field, string>)
    ensures var e := ValidationErrors(form, false);
      CardNumber !in e && ExpiryDate !in e && Cvv !in e
  {
    assert CardNumber !in CheckedFields(false) && ExpiryDate !in CheckedFields(false) && Cvv !in CheckedFields(false);
  }

  /** With the card check, each card field errs exactly when it is malformed. */
  lemma CardFieldsChecked(form: map<Field, string>)
    ensures var e := ValidationErrors(form, true);
      && (CardNumber in e <==> !IsValidCardNumber(Get(form, CardNumber)))
      && (ExpiryDate in e <==> !IsValidExpiry(Get(form, ExpiryDate)))
      && (Cvv in e <==> !IsValidCvv(Get(form, Cvv)))
  {
    CardNumberErrorIffInvalid(form);
    ExpiryErrorIffInvalid(form);
    CvvErrorIffInvalid(form);
  }

  /** The "required" message is recorded exactly for the blank fields. */
  lemma RequiredMessageIffBlank(form: map<Field, string>, checkCard: bool)
    ensures var e := ValidationErrors(form, checkCard);
      forall k :: k in e ==> (e[k] == RequiredMessage(k) <==> IsBlank(Get(form, k)))
  {
    forall k | k in ValidationErrors(form, checkCard)
      ensures ValidationErrors(form, checkCard)[k] == RequiredMessage(k) <==> IsBlank(Get(form, k))
    {
      FieldErrorMessage(form, k);
    }
  }

  /** A validation passes exactly when no checked field has an error. */
  lemma ValidationErrorsEmptyIff(form: map<Field, string>, checkCard: bool)
    ensures ValidationErrors(form, checkCard) == map[] <==>
      forall k :: k in CheckedFields(checkCard) ==> FieldError(form, k).None?
  {
    var e := ValidationErrors(form, checkCard);
    if e != map[] {
      var k :| k in e;
    }
  }

  /** The contact and address fields all pass exactly when the address part is complete. */
  lemma AddressFieldsPassIff(form: map<Field, string>)
    ensures (forall k :: k in AddressFields ==> FieldError(form, k).None?) <==> AddressComplete(form)
  {
    EmailErrorIffNoMatch(form);
    PhoneErrorIffFewDigits(form);
    if forall k :: k in AddressFields ==> FieldError(form, k).None? {
      forall k | k in RequiredOnlyFields ensures !IsBlank(Get(form, k)) {
        RequiredFieldErrs(form, k);
      }
      assert FieldError(form, Email).None? && FieldError(form, Phone).None?;
    }
    if AddressComplete(form) {
      forall k | k in AddressFields ensures FieldError(form, k).None? {
        if k in RequiredOnlyFields {
          RequiredFieldErrs(form, k);
        }
      }
    }
  }

  /** The card fields all pass exactly when the card part is complete. */
  lemma CardFieldsPassIff(form: map<Field, string>)
    ensures (forall k :: k in CardFields ==> FieldError(form, k).None?) <==> CardComplete(form)
  {
    CardNumberErrorIffInvalid(form);
    ExpiryErrorIffInvalid(form);
    CvvErrorIffInvalid(form);
  }

  // ---------------------------------------------------------------------------
  // Input formatters

  /** `s.replace(/(.{4})/g, "$1 ")`: a space after every complete group of four. */
  function GroupsOfFour(s: string): string {
    if |s| < 4 then s else s[..4] + " " + GroupsOfFour(s[4..])
  }

  /** `formatCardNumber`: strip whitespace, group by four, trim the trailing space. */
  function FormatCardNumber(value: string): string {
    Trim(GroupsOfFour(RemoveWhitespace(value)))
  }

  lemma {:induction false} GroupsOfFourRemoveWhitespace(s: string)
    requires NoWhitespace(s)
    ensures RemoveWhitespace(GroupsOfFour(s)) == s
  {
    if |s| >= 4 {
      GroupsOfFourRemoveWhitespace(s[4..]);
      RemoveWhitespaceAppend(s[..4] + " ", GroupsOfFour(s[4..]));
      RemoveWhitespaceAppend(s[..4], " ");
      RemoveWhitespaceKeeps(s[..4]);
      assert s == s[..4] + s[4..];
    } else {
      RemoveWhitespaceKeeps(s);
    }
  }

  /** Formatting only inserts spaces: removing whitespace from the output gives back
      the input with its whitespace removed. */
  lemma FormatCardNumberDigitsKept(value: string)
    ensures RemoveWhitespace(FormatCardNumber(value)) == RemoveWhitespace(value)
  {
    RemoveWhitespaceOfTrim(GroupsOfFour(RemoveWhitespace(value)));
    GroupsOfFourRemoveWhitespace(RemoveWhitespace(value));
  }

  /** Re-formatting an already formatted card number changes nothing. */
  lemma FormatCardNumberIdempotent(value: string)
    ensures FormatCardNumber(FormatCardNumber(value)) == FormatCardNumber(value)
  {
    FormatCardNumberDigitsKept(value);
  }

  /** Formatting never turns a valid card number into an invalid one, or back. */
  lemma FormatCardNumberKeepsValidity(value: string)
    ensures IsValidCardNumber(FormatCardNumber(value)) <==> IsValidCardNumber(value)
  {
    FormatCardNumberDigitsKept(value);
  }

  function Min(a: int, b: int): int {
    if a <= b then a else b
  }

  /** `formatExpiryDate`: keep the digits; from two digits on, `DD/` followed by at most
      two more digits. */
  function FormatExpiryDate(value: string): (r: string)
    ensures |r| <= 5
    ensures |DigitsOf(value)| < 2 ==> r == DigitsOf(value)
    ensures |DigitsOf(value)| >= 2 ==>
      |r| == 1 + Min(4, |DigitsOf(value)|) && r[2] == '/'
      && r[..2] == DigitsOf(value)[..2] && r[3..] == DigitsOf(value)[2..Min(4, |DigitsOf(value)|)]
  {
    var digits := DigitsOf(value);
    if |digits| >= 2 then digits[..2] + "/" + digits[2..Min(4, |digits|)] else digits
  }

  /** The formatted expiry passes the `MM/YY` check exactly when at least four digits were typed. */
  lemma FormatExpiryDateValidIff(value: string)
    ensures IsValidExpiry(FormatExpiryDate(value)) <==> |DigitsOf(value)| >= 4
  {
    var d := DigitsOf(value);
    var r := FormatExpiryDate(value);
    if |d| >= 4 {
      assert r[0] == d[0] && r[1] == d[1] && r[3] == d[2] && r[4] == d[3];
    }
  }

  /** Re-formatting an already formatted expiry date changes nothing. */
  lemma FormatExpiryDateIdempotent(value: string)
    ensures FormatExpiryDate(FormatExpiryDate(value)) == FormatExpiryDate(value)
  {
    var d := DigitsOf(value);
    var r := FormatExpiryDate(value);
    if |d| >= 2 {
      var m := Min(4, |d|);
      assert r == d[..2] + "/" + d[2..m];
      DigitsOfDigits(d[..2]);
      DigitsOfDigits(d[2..m]);
      assert r[..2] == d[..2];
      assert DigitsOf(r) == d[..m] by {
        DigitsOfAppend(d[..2] + "/", d[2..m]);
        DigitsOfAppend(d[..2], "/");
        assert d[..m] == d[..2] + d[2..m];
      }
      assert d[..m][..2] == d[..2] && d[..m][2..Min(4, m)] == d[2..m];
    } else {
      DigitsOfDigits(d);
    }
  }

  lemma {:induction false} DigitsOfAppend(a: string, b: string)
    ensures DigitsOf(a + b) == DigitsOf(a) + DigitsOf(b)
  {
    if a != [] {
      assert (a + b)[1..] == a[1..] + b;
      DigitsOfAppend(a[1..], b);
    } else {
      assert a + b == b;
    }
  }
}
