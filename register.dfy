/** The registration form: nine text inputs, a client-side validator that
    records an error message per input, and a submit that only posts the form
    when no error was recorded.

    The registration request itself is an event: `Submit` records the body it
    posts, and the server's answer arrives through `OnRegistered` or
    `OnRegisterFailed`. */
module Register {
  import opened Common

  /** The form's inputs, one per `name` attribute. */
  datatype FieldName =
    FullName | Email | Password | AddressLine1 | AddressLine2 | City | State | Country | ZipCode

  /** The form's values by input name. */
  type Model = map<FieldName, string>

  /** Every input of the form. */
  const Fields: set<FieldName> :=
    {FullName, Email, Password, AddressLine1, AddressLine2, City, State, Country, ZipCode}

  /** The inputs that must not be blank; `addressLine2` is not among them. */
  predicate Required(f: FieldName) {
    f != AddressLine2
  }

  /** The "required" message of each checked input. */
  function RequiredMessage(f: FieldName): string
    requires Required(f)
  {
    match f
    case FullName => "Full name is required"
    case Email => "Email is required"
    case Password => "Password is required"
    case AddressLine1 => "Address Line 1 is required"
    case City => "City is required"
    case State => "State is required"
    case Country => "Country is required"
    case ZipCode => "Zip Code is required"
  }

  const InvalidEmail: string := "Enter a valid email"
  const ShortPassword: string := "Password must be at least 6 characters"
  const MinPasswordLength: nat := 6

  /** `model[f] ?? ""`. */
  function Field(model: Model, f: FieldName): (v: string)
    ensures f in model ==> v == model[f]
    ensures f !in model ==> v == ""
  {
    if f in model then model[f] else ""
  }

  /** `\S+@\S+\.\S+` matches with its '@' at `at` and its '.' at `dot`. */
  predicate EmailAt(s: string, at: int, dot: int) {
    && 0 < at && at + 1 < dot && dot + 1 < |s|
    && s[at] == '@' && s[dot] == '.'
    && !IsSpace(s[at - 1]) && !IsSpace(s[dot + 1])
    && forall k :: at < k < dot ==> !IsSpace(s[k])
  }

  /** `/\S+@\S+\.\S+/.test(s)`: the pattern matches somewhere in `s` (it is
      not anchored, so surrounding text is allowed). */
  predicate EmailOk(s: string) {
    exists at, dot | 0 < at < dot < |s| :: EmailAt(s, at, dot)
  }

  /** The error `validate` records for input `f`, if any. Blankness is the
      `trim()` test, stated through `HasVisible` (see `HasVisibleIffNotBlank`). */
  function Problem(model: Model, f: FieldName): (e: Option<string>)
    ensures e.Some? ==> Required(f)
    ensures Required(f) && !HasVisible(Field(model, f)) ==> e == Some(RequiredMessage(f))
  {
    if !Required(f) then None
    else if !HasVisible(Field(model, f)) then Some(RequiredMessage(f))
    else if f == Email && !EmailOk(Field(model, f)) then Some(InvalidEmail)
    else if f == Password && |Field(model, f)| < MinPasswordLength then Some(ShortPassword)
    else None
  }

  /** The `errors` object: the message recorded for each input, if any. */
  datatype ErrorMap = ErrorMap(
    fullName: Option<string>, email: Option<string>, password: Option<string>,
    addressLine1: Option<string>, addressLine2: Option<string>, city: Option<string>,
    state: Option<string>, country: Option<string>, zipCode: Option<string>)
  {
    /** `errors[f]`. */
    function Lookup(f: FieldName): Option<string> {
      match f
      case FullName => fullName
      case Email => email
      case Password => password
      case AddressLine1 => addressLine1
      case AddressLine2 => addressLine2
      case City => city
      case State => state
      case Country => country
      case ZipCode => zipCode
    }

    /** `errors[f] = e` when there is a message `e`; unchanged otherwise. */
    function With(f: FieldName, e: Option<string>): (r: ErrorMap)
      ensures r.Lookup(f) == (if e.Some? then e else Lookup(f))
      ensures forall g :: g != f ==> r.Lookup(g) == Lookup(g)
    {
      if e.None? then this
      else match f
        case FullName => this.(fullName := e)
        case Email => this.(email := e)
        case Password => this.(password := e)
        case AddressLine1 => this.(addressLine1 := e)
        case AddressLine2 => this.(addressLine2 := e)
        case City => this.(city := e)
        case State => this.(state := e)
        case Country => this.(country := e)
        case ZipCode => this.(zipCode := e)
    }
  }

  /** `{}`. */
  const NoErrors: ErrorMap := ErrorMap(None, None, None, None, None, None, None, None, None)

  /** `Object.keys(errors).length === 0`. */
  predicate IsEmpty(errors: ErrorMap) {
    forall f :: errors.Lookup(f).None?
  }

  lemma IsEmptyIffNoErrors(errors: ErrorMap)
    ensures IsEmpty(errors) <==> errors == NoErrors
  {
    if IsEmpty(errors) {
      assert errors.Lookup(FullName).None? && errors.Lookup(Email).None? && errors.Lookup(Password).None?;
      assert errors.Lookup(AddressLine1).None? && errors.Lookup(AddressLine2).None? && errors.Lookup(City).None?;
      assert errors.Lookup(State).None? && errors.Lookup(Country).None? && errors.Lookup(ZipCode).None?;
    }
  }

  /** The errors `validate` publishes for a form. */
  function Errors(model: Model): (errors: ErrorMap)
    ensures forall f :: errors.Lookup(f) == Problem(model, f)
  {
    ErrorMap(Problem(model, FullName), Problem(model, Email), Problem(model, Password),
      Problem(model, AddressLine1), None, Problem(model, City),
      Problem(model, State), Problem(model, Country), Problem(model, ZipCode))
  }

  /** One "required" rule: a blank input gets its "required" message. */
  method CheckRequired(temp: ErrorMap, model: Model, f: FieldName) returns (r: ErrorMap)
    requires Required(f) && f != Email && f != Password
    ensures r == temp.With(f, Problem(model, f))
  {
    r := temp;
    if !HasVisible(Field(model, f)) {
      r := r.With(f, Some(RequiredMessage(f)));
    }
  }

  /** The email rules: required, then the pattern. */
  method CheckEmail(temp: ErrorMap, model: Model) returns (r: ErrorMap)
    ensures r == temp.With(Email, Problem(model, Email))
  {
    r := temp;
    if !HasVisible(Field(model, Email)) { r := r.(email := Some("Email is required")); }
    else if !EmailOk(Field(model, Email)) { r := r.(email := Some(InvalidEmail)); }
  }

  /** The password rules: required, then the length of the untrimmed value. */
  method CheckPassword(temp: ErrorMap, model: Model) returns (r: ErrorMap)
    ensures r == temp.With(Password, Problem(model, Password))
  {
    r := temp;
    if !HasVisible(Field(model, Password)) { r := r.(password := Some("Password is required")); }
    else if |Field(model, Password)| < MinPasswordLength { r := r.(password := Some(ShortPassword)); }
  }

  /** `validate`: records the inputs' errors one after the other and reports
      whether none was recorded. */
  method Validate(model: Model) returns (temp: ErrorMap, ok: bool)
    ensures temp == Errors(model)
    ensures forall f :: temp.Lookup(f) == Problem(model, f)
    ensures ok <==> IsEmpty(temp)
  {
    temp := NoErrors;
    temp := CheckRequired(temp, model, FullName);
    temp := CheckEmail(temp, model);
    temp := CheckPassword(temp, model);
    temp := CheckRequired(temp, model, AddressLine1);
    temp := CheckRequired(temp, model, City);
    temp := CheckRequired(temp, model, State);
    temp := CheckRequired(temp, model, Country);
    temp := CheckRequired(temp, model, ZipCode);
    assert temp == Errors(model);
    IsEmptyIffNoErrors(temp);
    ok := temp == NoErrors;
  }

  /** The form passes validation exactly when every required input has a
      character that is not white space, the email matches the pattern and
      the password has at least six characters (counting surrounding white
      space). */
  lemma ValidIff(model: Model)
    ensures IsEmpty(Errors(model)) <==>
      && (forall f :: Required(f) ==> HasVisible(Field(model, f)))
      && EmailOk(Field(model, Email))
      && |Field(model, Password)| >= MinPasswordLength
  {
    var e := Errors(model);
    if IsEmpty(e) {
      forall f | Required(f) ensures HasVisible(Field(model, f)) {
        assert e.Lookup(f).None?;
      }
      assert e.Lookup(Email).None?;
      assert e.Lookup(Password).None?;
    }
  }

  /** `addressLine2` never affects validation and never gets an error. */
  lemma AddressLine2Ignored(model: Model, v: string)
    ensures Errors(model[AddressLine2 := v]) == Errors(model)
    ensures Errors(model).addressLine2.None?
  {
    var m' := model[AddressLine2 := v];
    assert forall g :: g != AddressLine2 ==> Field(m', g) == Field(model, g);
  }

  /** A blank password is reported as missing, whatever its length: the
      length rule only applies to a password with a visible character. */
  lemma BlankPasswordIsMissing(model: Model)
    requires !HasVisible(Field(model, Password))
    ensures Errors(model).password == Some("Password is required")
  {
  }

  /** The pattern is unanchored: an address with text around it passes, and
      one without a dot after the '@' does not. */
  lemma EmailExamples()
    ensures EmailOk("a@b.c")
    ensures EmailOk("not an email: x@y.z ...")
    ensures !EmailOk("a@bc")
    ensures !EmailOk("a@.c")
  {
    assert EmailAt("a@b.c", 1, 3);
    assert EmailAt("not an email: x@y.z ...", 15, 17);
  }

  /** The registration page's state. */
  class RegisterForm {
    var model: Model
    var errors: ErrorMap
    var message: string
    var posted: seq<Model>   // bodies sent to `/auth/register`

    constructor ()
      ensures model == map f | f in Fields :: ""
      ensures errors == NoErrors && message == "" && posted == []
    {
      model := map f | f in Fields :: "";
      errors := NoErrors;
      message := "";
      posted := [];
    }

    /** `handleChange`: sets the named input and nothing else. */
    method HandleChange(name: FieldName, value: string)
      modifies this`model
      ensures model == old(model)[name := value]
    {
      model := model[name := value];
    }

    /** `handleSubmit`'s synchronous part: validate, publish the errors, and
        post the form only when there are none. */
    method Submit() returns (sent: bool)
      modifies this`errors, this`posted
      ensures errors == Errors(model)
      ensures sent <==> IsEmpty(errors)
      ensures posted == old(posted) + (if sent then [model] else [])
    {
      var temp, ok := Validate(model);
      errors := temp;
      if !ok {
        return false;
      }
      posted := posted + [model];
      sent := true;
    }

    /** The server accepted the registration: its answer is shown and the
        errors are cleared. */
    method OnRegistered(data: string)
      modifies this`message, this`errors
      ensures message == data && errors == NoErrors
    {
      message := data;
      errors := NoErrors;
    }

    /** The request failed: the server's message when it sent a non-empty
        one, else a generic one. The errors are left as they were. */
    method OnRegisterFailed(data: Option<string>)
      modifies this`message
      ensures message == if Truthy(data) then data.value else "Error during registration"
    {
      message := if Truthy(data) then data.value else "Error during registration";
    }
  }

  /** A form with an invalid input is never posted; a form that passes is
      posted exactly once. */
  method SubmitGate(m: Model) returns (sent: bool, requests: nat)
    ensures sent <==> IsEmpty(Errors(m))
    ensures requests == (if sent then 1 else 0)
  {
    var form := new RegisterForm();
    form.model := m;
    sent := form.Submit();
    requests := |form.posted|;
  }
}
