/** The admin product form: create or edit one catalogue product. The page is
    in edit mode when the route carries a truthy product id; it then loads the
    product and saves it with PUT, otherwise it saves a new one with POST.

    Network requests are recorded in `sent` and their answers arrive as
    events. `Number(...)`/`isNaN(...)` on the price are a parameter: the
    number a text denotes, or None for NaN. */
module ProductForm {
  import opened Common

  /** The product's fields, one per `name` in the form (the image URL is set
      by the upload, not typed). */
  datatype FormField =
    Brand | ModelName | Price | Description | Category | Color | Storage | Warranty | ImageUrl

  /** The form's values. */
  type Form = map<FormField, string>

  const FormFields: set<FormField> :=
    {Brand, ModelName, Price, Description, Category, Color, Storage, Warranty, ImageUrl}

  /** The empty form the page starts with. */
  const EmptyForm: Form := map f | f in FormFields :: ""

  /** `Number(s)`, None when it is NaN. */
  type ToNumber = string -> Option<real>

  function Value(form: Form, f: FormField): string {
    if f in form then form[f] else ""
  }

  /** `!price || isNaN(price) || Number(price) <= 0`. */
  predicate PriceInvalid(price: string, num: ToNumber) {
    price == "" || num(price).None? || num(price).value <= 0.0
  }

  /** The error `validate` records for `f`, if any. Blankness is the `trim()`
      test, through `HasVisible`. */
  function Problem(form: Form, f: FormField, num: ToNumber): (e: Option<string>)
    ensures e.Some? ==> f in {Brand, ModelName, Price, Category, ImageUrl}
  {
    match f
    case Brand => if !HasVisible(Value(form, Brand)) then Some("Brand is required") else None
    case ModelName => if !HasVisible(Value(form, ModelName)) then Some("Model is required") else None
    case Price => if PriceInvalid(Value(form, Price), num) then Some("Valid price is required") else None
    case Category => if !HasVisible(Value(form, Category)) then Some("Category is required") else None
    case ImageUrl => if !HasVisible(Value(form, ImageUrl)) then Some("Main image is required") else None
    case _ => None
  }

  /** The `errors` object: per field, no entry (None) or a message. A message
      of "" is falsy and shows nothing. */
  datatype FormErrors = FormErrors(
    brand: Option<string>, model: Option<string>, price: Option<string>,
    description: Option<string>, category: Option<string>, color: Option<string>,
    storage: Option<string>, warranty: Option<string>, imageUrl: Option<string>)
  {
    function Lookup(f: FormField): Option<string> {
      match f
      case Brand => brand
      case ModelName => model
      case Price => price
      case Description => description
      case Category => category
      case Color => color
      case Storage => storage
      case Warranty => warranty
      case ImageUrl => imageUrl
    }

    /** `{ ...errors, [f]: e }`. */
    function Set(f: FormField, e: Option<string>): (r: FormErrors)
      ensures r.Lookup(f) == e
      ensures forall g :: g != f ==> r.Lookup(g) == Lookup(g)
    {
      match f
      case Brand => this.(brand := e)
      case ModelName => this.(model := e)
      case Price => this.(price := e)
      case Description => this.(description := e)
      case Category => this.(category := e)
      case Color => this.(color := e)
      case Storage => this.(storage := e)
      case Warranty => this.(warranty := e)
      case ImageUrl => this.(imageUrl := e)
    }
  }

  const NoErrors: FormErrors := FormErrors(None, None, None, None, None, None, None, None, None)

  /** `Object.keys(errors).length === 0`. */
  predicate IsEmpty(errors: FormErrors) {
    forall f :: errors.Lookup(f).None?
  }

  lemma IsEmptyIffNoErrors(errors: FormErrors)
    ensures IsEmpty(errors) <==> errors == NoErrors
  {
    if IsEmpty(errors) {
      assert errors.Lookup(Brand).None? && errors.Lookup(ModelName).None? && errors.Lookup(Price).None?;
      assert errors.Lookup(Description).None? && errors.Lookup(Category).None? && errors.Lookup(Color).None?;
      assert errors.Lookup(Storage).None? && errors.Lookup(Warranty).None? && errors.Lookup(ImageUrl).None?;
    }
  }

  /** The errors `validate` publishes. */
  function Errors(form: Form, num: ToNumber): (errors: FormErrors)
    ensures forall f :: errors.Lookup(f) == Problem(form, f, num)
  {
    FormErrors(Problem(form, Brand, num), Problem(form, ModelName, num), Problem(form, Price, num),
      None, Problem(form, Category, num), None, None, None, Problem(form, ImageUrl, num))
  }

  /** `validate`: records the errors field by field into a fresh object and
      reports whether it stayed empty. */
  method Validate(form: Form, num: ToNumber) returns (newErrors: FormErrors, ok: bool)
    ensures newErrors == Errors(form, num)
    ensures forall f :: newErrors.Lookup(f) == Problem(form, f, num)
    ensures ok <==> IsEmpty(newErrors)
  {
    newErrors := NoErrors;
    if !HasVisible(Value(form, Brand)) { newErrors := newErrors.(brand := Some("Brand is required")); }
    if !HasVisible(Value(form, ModelName)) { newErrors := newErrors.(model := Some("Model is required")); }
    var price := Value(form, Price);
    if price == "" || num(price).None? || num(price).value <= 0.0 {
      newErrors := newErrors.(price := Some("Valid price is required"));
    }
    if !HasVisible(Value(form, Category)) { newErrors := newErrors.(category := Some("Category is required")); }
    if !HasVisible(Value(form, ImageUrl)) { newErrors := newErrors.(imageUrl := Some("Main image is required")); }
    IsEmptyIffNoErrors(newErrors);
    ok := newErrors == NoErrors;
  }

  /** The form is valid exactly when brand, model, category and image are
      filled in and the price is a positive number. */
  lemma ValidIff(form: Form, num: ToNumber)
    ensures IsEmpty(Errors(form, num)) <==>
      && HasVisible(Value(form, Brand)) && HasVisible(Value(form, ModelName))
      && HasVisible(Value(form, Category)) && HasVisible(Value(form, ImageUrl))
      && Value(form, Price) != "" && num(Value(form, Price)).Some? && num(Value(form, Price)).value > 0.0
  {
    var e := Errors(form, num);
    if IsEmpty(e) {
      assert e.Lookup(Brand).None? && e.Lookup(ModelName).None? && e.Lookup(Price).None?;
      assert e.Lookup(Category).None? && e.Lookup(ImageUrl).None?;
    }
  }

  /** Color, storage, warranty and description never affect validation. */
  lemma UncheckedFieldsIgnored(form: Form, f: FormField, v: string, num: ToNumber)
    requires f in {Description, Color, Storage, Warranty}
    ensures Errors(form[f := v], num) == Errors(form, num)
  {
    assert forall g :: g != f ==> Value(form[f := v], g) == Value(form, g);
  }

  /** The image upload input's invalid styling as written: it follows the
      category's error. */
  predicate ImageInputInvalidAsWritten(errors: FormErrors) {
    Truthy(errors.category)
  }

  /** A form with a category but no image: the missing image is an error, yet
      the upload input is not styled as invalid. */
  lemma ImageInputMissesMissingImage(num: ToNumber)
    ensures var e := Errors(EmptyForm[Category := "Flagship"], num);
      e.imageUrl == Some("Main image is required") && !ImageInputInvalidAsWritten(e)
  {
    var form := EmptyForm[Category := "Flagship"];
    assert Value(form, ImageUrl) == "";
    assert HasVisible(Value(form, Category));
  }

  /** The upload input's invalid styling, following the image's own error. */
  predicate ImageInputInvalid(errors: FormErrors) {
    Truthy(errors.imageUrl)
  }

  /** After validation the upload input is styled invalid exactly when no
      image has been set. */
  lemma ImageInputInvalidIff(form: Form, num: ToNumber)
    ensures ImageInputInvalid(Errors(form, num)) <==> !HasVisible(Value(form, ImageUrl))
  {
  }

  /** The form filled from a loaded product: every field is the loaded value,
      or "" when it is missing or empty. */
  function EditDefaults(data: map<FormField, string>): (form: Form)
    ensures form.Keys == FormFields
    ensures forall f :: f in form ==> form[f] == (if f in data then data[f] else "")
  {
    map f | f in FormFields :: OrText(Get(data, f), "")
  }

  /** `map.get` for the loaded record. */
  function Get(data: map<FormField, string>, f: FormField): Option<string> {
    if f in data then Some(data[f]) else None
  }

  datatype Verb = Post | Put

  /** The save request: its verb and its path below the API root. */
  datatype SaveRequest = SaveRequest(verb: Verb, path: string)

  /** `isEditMode ? put /product/<id> : post /product`. */
  function SaveTarget(id: Option<string>): (r: SaveRequest)
    ensures Truthy(id) ==> r.verb == Put && r.path == "/product/" + id.value
    ensures !Truthy(id) ==> r.verb == Post && r.path == "/product"
  {
    if Truthy(id) then SaveRequest(Put, "/product/" + id.value) else SaveRequest(Post, "/product")
  }

  /** An update always names the product it edits: the id can be read back
      from the path, so two different products never share a target. */
  lemma SaveTargetNamesProduct(a: Option<string>, b: Option<string>)
    requires Truthy(a) && Truthy(b) && SaveTarget(a) == SaveTarget(b)
    ensures a == b
  {
    assert a.value == SaveTarget(a).path[9..];
    assert b.value == SaveTarget(b).path[9..];
  }

  /** A request the page sends. */
  datatype Call = LoadCall(id: string) | SaveCall(request: SaveRequest, body: Form)

  /** The product form page. */
  class ProductFormPage {
    const id: Option<string>
    var product: Form
    var errors: FormErrors
    var loading: bool
    var saving: bool
    var sent: seq<Call>
    var navigatedTo: Option<string>

    constructor (id: Option<string>)
      ensures this.id == id && product == EmptyForm && errors == NoErrors
      ensures !loading && !saving && sent == [] && navigatedTo.None?
    {
      this.id := id;
      product := EmptyForm;
      errors := NoErrors;
      loading, saving := false, false;
      sent := [];
      navigatedTo := None;
    }

    /** The load effect: only in edit mode does it start loading the product. */
    method Mount()
      modifies this`loading, this`sent
      ensures Truthy(id) ==> loading && sent == old(sent) + [LoadCall(id.value)]
      ensures !Truthy(id) ==> loading == old(loading) && sent == old(sent)
    {
      if !Truthy(id) {
        return;
      }
      loading := true;
      sent := sent + [LoadCall(id.value)];
    }

    /** The product arrived: the form takes its values, "" for falsy ones. */
    method OnLoaded(data: map<FormField, string>)
      modifies this`product, this`loading
      ensures product == EditDefaults(data) && !loading
    {
      product := EditDefaults(data);
      loading := false;
    }

    /** Loading failed: the form keeps its values. */
    method OnLoadFailed()
      modifies this`loading
      ensures !loading
    {
      loading := false;
    }

    /** `handleChange`: sets the named field and empties only its error. */
    method HandleChange(name: FormField, value: string)
      modifies this`product, this`errors
      ensures product == old(product)[name := value]
      ensures errors == old(errors).Set(name, Some(""))
    {
      product := product[name := value];
      errors := errors.Set(name, Some(""));
    }

    /** The upload answered with the stored image's path. */
    method OnImageUploaded(imageUrl: string)
      modifies this`product
      ensures product == old(product)[ImageUrl := imageUrl]
    {
      product := product[ImageUrl := imageUrl];
    }

    /** `handleSubmit`'s synchronous part: validate, publish the errors, and
        only when there are none send the create or update request. */
    method Submit(num: ToNumber) returns (sending: bool)
      modifies this`errors, this`saving, this`sent
      ensures errors == Errors(product, num)
      ensures sending <==> IsEmpty(errors)
      ensures sending ==> saving && sent == old(sent) + [SaveCall(SaveTarget(id), product)]
      ensures !sending ==> saving == old(saving) && sent == old(sent)
    {
      var newErrors, ok := Validate(product, num);
      errors := newErrors;
      if !ok {
        return false;
      }
      saving := true;
      sent := sent + [SaveCall(SaveTarget(id), product)];
      sending := true;
    }

    /** The save succeeded: back to the product list. */
    method OnSaved()
      modifies this`saving, this`navigatedTo
      ensures !saving && navigatedTo == Some("/admin-products")
    {
      saving := false;
      navigatedTo := Some("/admin-products");
    }

    /** The save failed: the page stays. */
    method OnSaveFailed()
      modifies this`saving
      ensures !saving
    {
      saving := false;
    }
  }

  /** Editing a field hides its error and leaves every other error shown as
      it was. */
  lemma ChangeHidesOnlyItsError(errors: FormErrors, name: FormField)
    ensures !Truthy(errors.Set(name, Some("")).Lookup(name))
    ensures forall g :: g != name ==> errors.Set(name, Some("")).Lookup(g) == errors.Lookup(g)
  {
  }

  /** Editing a product whose fields are all present shows exactly those
      values; a new product starts from the empty form. */
  lemma EditDefaultsKeepsPresent(data: map<FormField, string>)
    requires data.Keys == FormFields
    ensures EditDefaults(data) == data
  {
  }
}
