/** The two "Manage Products" pages: the token-gated admin page
    (`src/admin/ProductAdmin.js`) and the older page under `src/pages/`.

    Both keep a product list, a form of text inputs and a load/error state;
    every handler is a pure update of that state. Server answers arrive as
    events; each page's `Apply` gives the state after one event. */
module ProductAdmin {
  import opened Common

  /** The form's inputs. */
  datatype Field = Brand | ModelName | Description | Price | ImageUrl

  type Form = map<Field, string>

  /** The admin page's four text inputs (the image is a file input). */
  const AdminFields: set<Field> := {Brand, ModelName, Description, Price}

  /** The older page's five text inputs. */
  const LegacyFields: set<Field> := {Brand, ModelName, Description, Price, ImageUrl}

  /** A form whose `fields` are all empty. */
  function Blank(fields: set<Field>): (form: Form)
    ensures form.Keys == fields
    ensures forall f :: f in fields ==> form[f] == ""
  {
    map f | f in fields :: ""
  }

  /** `form[f]`, with the empty string for an input the form does not have. */
  function Value(form: Form, f: Field): string {
    if f in form then form[f] else ""
  }

  /** A product in a page's list: its id, if it has one, and its details. A
      product appended from the form has no id. */
  datatype Listing = Listing(id: Option<string>, details: Form)

  /** `handleInputChange` (both pages): the named input takes the new value
      and every other input keeps its own. */
  function InputChange(form: Form, name: Field, value: string): (r: Form)
    ensures r.Keys == form.Keys + {name}
    ensures r[name] == value
    ensures forall f :: f in form && f != name ==> r[f] == form[f]
  {
    form[name := value]
  }

  /** `products.filter(p => p.id !== id)` (both pages): exactly the products
      with another id survive, in their order and with their multiplicity. */
  function Filter(products: seq<Listing>, id: Option<string>): (r: seq<Listing>)
    ensures Subseq(r, products)
    ensures forall k :: 0 <= k < |r| ==> r[k].id != id
    ensures forall x :: multiset(r)[x] == if x.id == id then 0 else multiset(products)[x]
  {
    if products == [] then []
    else
      var rest := Filter(products[1..], id);
      assert products == [products[0]] + products[1..];
      if products[0].id == id then rest
      else
        assert ([products[0]] + rest)[1..] == rest;
        [products[0]] + rest
  }

  /** Deleting twice by the same id removes nothing more. */
  lemma {:induction false} FilterIdempotent(products: seq<Listing>, id: Option<string>)
    ensures Filter(Filter(products, id), id) == Filter(products, id)
    decreases |products|
  {
    if products != [] {
      FilterIdempotent(products[1..], id);
      if products[0].id != id {
        assert ([products[0]] + Filter(products[1..], id))[1..] == Filter(products[1..], id);
      }
    }
  }

  /** `res.data.products || []`: an array, even an empty one, is kept. */
  function Received(products: Option<seq<Listing>>): (r: seq<Listing>)
    ensures products.Some? ==> r == products.value
    ensures products.None? ==> r == []
  {
    if products.Some? then products.value else []
  }

  /** The three server calls a page can fail on. */
  datatype Operation = Load | Add | Delete

  /** The requests a page sends. */
  datatype Request =
    | GetProducts
    | PostProduct(body: Form)                       // a JSON body
    | PostMultipart(fields: Form, image: string)    // text parts and the image file
    | DeleteProduct(id: Option<string>)

  /** What a page renders: the loading indicator, the error alone, or the
      form and the list. */
  datatype Screen = Loading | Failure(message: string) | Manage

  // ------------------------------------------------- src/admin/ProductAdmin.js

  /** The admin page's state; `image` is the chosen file's name and
      `preview` its object URL. */
  datatype AdminPage = AdminPage(
    products: seq<Listing>, form: Form, image: Option<string>, preview: Option<string>,
    loading: bool, error: string)

  const AdminStart: AdminPage := AdminPage([], Blank(AdminFields), None, None, true, "")

  /** The mount effect's requests: the products are fetched only when a token
      is stored. */
  function AdminMount(token: Option<string>): (sent: seq<Request>)
    ensures sent == [] <==> !Truthy(token)
    ensures sent != [] ==> sent == [GetProducts]
  {
    if Truthy(token) then [GetProducts] else []
  }

  /** `isFormValid`: every text input has a character that is not white
      space and an image file is chosen. */
  predicate IsFormValid(form: Form, image: Option<string>) {
    && HasVisible(Value(form, Brand)) && HasVisible(Value(form, ModelName))
    && HasVisible(Value(form, Description)) && HasVisible(Value(form, Price))
    && image.Some?
  }

  /** The form is valid exactly when no text input is blank after `trim()`
      and a file is chosen. */
  lemma IsFormValidIff(form: Form, image: Option<string>)
    ensures IsFormValid(form, image) <==>
      && !IsBlank(Value(form, Brand)) && !IsBlank(Value(form, ModelName))
      && !IsBlank(Value(form, Description)) && !IsBlank(Value(form, Price))
      && image.Some?
  {
    var b, m, d, p := Value(form, Brand), Value(form, ModelName), Value(form, Description), Value(form, Price);
    HasVisibleIffNotBlank(b);
    HasVisibleIffNotBlank(m);
    HasVisibleIffNotBlank(d);
    HasVisibleIffNotBlank(p);
  }

  /** The add button is disabled while the form is invalid, so a post is sent
      only for a valid form: a multipart body with the four text values and
      the chosen image file. */
  function AdminSubmit(s: AdminPage): (sent: seq<Request>)
    ensures sent != [] <==> IsFormValid(s.form, s.image)
    ensures sent != [] ==> s.image.Some? && sent == [PostMultipart(s.form, s.image.value)]
  {
    if IsFormValid(s.form, s.image) then [PostMultipart(s.form, s.image.value)] else []
  }

  /** The delete button: a delete is sent only when the user confirms. */
  function AdminDeleteClicked(confirmed: bool, id: Option<string>): (sent: seq<Request>)
    ensures sent == [] <==> !confirmed
    ensures confirmed ==> sent == [DeleteProduct(id)]
  {
    if confirmed then [DeleteProduct(id)] else []
  }

  /** The admin page's error text for each failure. */
  function AdminMessage(op: Operation): string {
    match op
    case Load => "❌ Failed to load products. Please try again."
    case Add => "❌ Failed to add product."
    case Delete => "❌ Failed to delete product."
  }

  /** What the admin page renders. */
  function AdminScreen(s: AdminPage): Screen {
    if s.loading then Loading else if s.error != "" then Failure(s.error) else Manage
  }

  /** The events the admin page reacts to. */
  datatype AdminEvent =
    | AdminInput(name: Field, value: string)
    | ImageChosen(file: Option<string>, url: string)
    | AdminLoaded(received: Option<seq<Listing>>)
    | AdminAdded(submitted: Form, returned: Option<Listing>)
    | AdminDeleted(id: Option<string>)
    | AdminFailed(op: Operation)

  /** The admin page's state after a successful add: the product the server
      returned, or else the submitted form, is appended after every existing
      product; the form is emptied and the image cleared. */
  function AfterAdminAdd(s: AdminPage, submitted: Form, returned: Option<Listing>): (r: AdminPage)
    ensures |r.products| == |s.products| + 1
    ensures r.products[..|s.products|] == s.products
    ensures r.products[|s.products|] ==
      if returned.Some? then returned.value else Listing(None, submitted)
    ensures r.form.Keys == AdminFields && forall f :: f in AdminFields ==> r.form[f] == ""
    ensures r.image.None? && r.preview.None?
    ensures r.loading == s.loading && r.error == s.error
  {
    var added := if returned.Some? then returned.value else Listing(None, submitted);
    s.(products := s.products + [added], form := Blank(AdminFields), image := None, preview := None)
  }

  /** The admin page's state after one event. */
  function AdminApply(s: AdminPage, e: AdminEvent): AdminPage {
    match e
    case AdminInput(name, value) => s.(form := InputChange(s.form, name, value))
    case ImageChosen(file, url) => if file.Some? then s.(image := file, preview := Some(url)) else s
    case AdminLoaded(received) => s.(products := Received(received), loading := false)
    case AdminAdded(submitted, returned) => AfterAdminAdd(s, submitted, returned)
    case AdminDeleted(id) => s.(products := Filter(s.products, id))
    case AdminFailed(op) =>
      if op == Load then s.(error := AdminMessage(op), loading := false) else s.(error := AdminMessage(op))
  }

  /** The admin page's state after a sequence of events. */
  function AdminRun(s: AdminPage, events: seq<AdminEvent>): AdminPage
    decreases |events|
  {
    if events == [] then s else AdminRun(AdminApply(s, events[0]), events[1..])
  }

  predicate IsLoadAnswer(e: AdminEvent) {
    e.AdminLoaded? || (e.AdminFailed? && e.op == Load)
  }

  /** Only an answer to the products request ends loading. Without a stored
      token that request is never sent, so the page shows the loading
      indicator whatever else happens. */
  lemma {:induction false} AdminLoadingUntilAnswer(s: AdminPage, events: seq<AdminEvent>)
    requires s.loading
    requires forall k :: 0 <= k < |events| ==> !IsLoadAnswer(events[k])
    ensures AdminRun(s, events).loading
    ensures AdminScreen(AdminRun(s, events)) == Loading
    decreases |events|
  {
    if events != [] {
      AdminLoadingUntilAnswer(AdminApply(s, events[0]), events[1..]);
    }
  }

  /** A text input changes only its own value; the list, the image and the
      load state are untouched. */
  lemma AdminInputOnlyForm(s: AdminPage, name: Field, value: string)
    ensures var r := AdminApply(s, AdminInput(name, value));
      && r.products == s.products && r.image == s.image && r.preview == s.preview
      && r.loading == s.loading && r.error == s.error
      && r.form[name] == value
      && forall f :: f in s.form && f != name ==> r.form[f] == s.form[f]
  {
  }

  /** A confirmed, successful delete leaves exactly the products with another
      id, in order; an unconfirmed one sends nothing. */
  lemma AdminDeleteSpec(s: AdminPage, id: Option<string>, confirmed: bool)
    ensures !confirmed ==> AdminDeleteClicked(confirmed, id) == []
    ensures var r := AdminApply(s, AdminDeleted(id));
      && Subseq(r.products, s.products)
      && (forall x :: x in r.products ==> x.id != id)
      && (forall x :: x in s.products && x.id != id ==> x in r.products)
      && r.form == s.form && r.loading == s.loading && r.error == s.error
  {
    var r := AdminApply(s, AdminDeleted(id));
    forall x | x in s.products && x.id != id ensures x in r.products {
      assert multiset(r.products)[x] == multiset(s.products)[x];
    }
  }

  /** A failure after loading replaces the page by its own message. */
  lemma AdminFailureShown(s: AdminPage, op: Operation)
    requires op != Load ==> !s.loading
    ensures AdminScreen(AdminApply(s, AdminFailed(op))) == Failure(AdminMessage(op))
  {
  }

  // ------------------------------------------------- src/pages/ProductAdmin.js

  /** The older page's state; `error` starts as null. */
  datatype LegacyPage = LegacyPage(products: seq<Listing>, form: Form, loading: bool, error: Option<string>)

  const LegacyStart: LegacyPage := LegacyPage([], Blank(LegacyFields), true, None)

  /** The older page fetches on mount whether or not a token is stored. */
  function LegacyMount(token: Option<string>): (sent: seq<Request>)
    ensures sent == [GetProducts]
  {
    [GetProducts]
  }

  /** The older page's inputs marked `required`; the image URL is optional. */
  const LegacyRequired: set<Field> := {Brand, ModelName, Description, Price}

  /** Submitting the older page's form. The handler itself posts whatever the
      form holds, but the browser's constraint validation blocks the submit
      while a `required` input is empty. That test does not trim: white space
      passes it. (A number input holding text that is not a number has the
      empty value, so it is "" here.) */
  function LegacySubmit(s: LegacyPage): (sent: seq<Request>)
    ensures sent != [] <==> forall f :: f in LegacyRequired ==> Value(s.form, f) != ""
    ensures sent != [] ==> sent == [PostProduct(s.form)]
  {
    if Value(s.form, Brand) != "" && Value(s.form, ModelName) != ""
      && Value(s.form, Description) != "" && Value(s.form, Price) != ""
    then [PostProduct(s.form)]
    else []
  }

  /** The fresh form is not submitted, while a form whose required inputs
      hold only a space is posted as it is. */
  lemma LegacySubmitGate(spaces: LegacyPage)
    requires forall f :: f in LegacyRequired ==> f in spaces.form && spaces.form[f] == " "
    ensures LegacySubmit(LegacyStart) == []
    ensures LegacySubmit(spaces) == [PostProduct(spaces.form)]
  {
    assert Value(LegacyStart.form, Brand) == "";
  }

  /** The older page's error text for each failure. */
  function LegacyMessage(op: Operation): string {
    match op
    case Load => "Failed to load products"
    case Add => "Failed to add product"
    case Delete => "Failed to delete product"
  }

  /** The older page's handlers read the list captured when they were
      created, so each success event carries that snapshot (`at`). */
  datatype LegacyEvent =
    | LegacyInput(name: Field, value: string)
    | LegacyLoaded(received: Option<seq<Listing>>)
    | LegacyAdded(at: seq<Listing>, submitted: Form)
    | LegacyDeleted(at: seq<Listing>, id: Option<string>)
    | LegacyFailed(op: Operation)

  /** The older page's state after one event. */
  function LegacyApply(s: LegacyPage, e: LegacyEvent): LegacyPage {
    match e
    case LegacyInput(name, value) => s.(form := InputChange(s.form, name, value))
    case LegacyLoaded(received) => s.(products := Received(received), loading := false)
    case LegacyAdded(at, submitted) =>
      s.(products := at + [Listing(None, submitted)], form := Blank(LegacyFields))
    case LegacyDeleted(at, id) => s.(products := Filter(at, id))
    case LegacyFailed(op) =>
      if op == Load then s.(error := Some(LegacyMessage(op)), loading := false)
      else s.(error := Some(LegacyMessage(op)))
  }

  /** What the older page renders. */
  function LegacyScreen(s: LegacyPage): Screen {
    if s.loading then Loading else if Truthy(s.error) then Failure(s.error.value) else Manage
  }

  /** A successful add on an up-to-date list appends the submitted form, as
      a product without id, after every existing product, and empties all
      five inputs. */
  lemma LegacyAddSpec(s: LegacyPage, submitted: Form)
    ensures var r := LegacyApply(s, LegacyAdded(s.products, submitted));
      && |r.products| == |s.products| + 1
      && r.products[..|s.products|] == s.products
      && r.products[|s.products|] == Listing(None, submitted)
      && r.form.Keys == LegacyFields && (forall f :: f in LegacyFields ==> r.form[f] == "")
      && r.loading == s.loading && r.error == s.error
  {
    var r := LegacyApply(s, LegacyAdded(s.products, submitted));
    assert r.products[..|s.products|] == s.products;
  }

  /** A successful delete on an up-to-date list leaves exactly the products
      with another id, in order. */
  lemma LegacyDeleteSpec(s: LegacyPage, id: Option<string>)
    ensures var r := LegacyApply(s, LegacyDeleted(s.products, id));
      && Subseq(r.products, s.products)
      && (forall x :: x in r.products ==> x.id != id)
      && (forall x :: x in s.products && x.id != id ==> x in r.products)
      && r.form == s.form
  {
    var r := LegacyApply(s, LegacyDeleted(s.products, id));
    forall x | x in s.products && x.id != id ensures x in r.products {
      assert multiset(r.products)[x] == multiset(s.products)[x];
    }
  }

  /** The three failures have three different messages, and each is what the
      page then shows once loading is over. */
  lemma LegacyFailureShown(s: LegacyPage, op: Operation, other: Operation)
    requires op != Load ==> !s.loading
    ensures LegacyScreen(LegacyApply(s, LegacyFailed(op))) == Failure(LegacyMessage(op))
    ensures op != other ==> LegacyMessage(op) != LegacyMessage(other)
  {
    if op != other {
      assert LegacyMessage(op)[8] != LegacyMessage(other)[8] || |LegacyMessage(op)| != |LegacyMessage(other)|;
    }
  }

  /** Because the add handler appends to the list it captured, a delete that
      completes while the add is in flight is undone: the deleted product is
      back once the add succeeds. The admin page's updater form has no such
      effect. */
  lemma LegacyAddRestoresDeleted(p: Listing, submitted: Form)
    requires p.id.Some?
    ensures var s := LegacyPage([p], Blank(LegacyFields), false, None);
      var afterDelete := LegacyApply(s, LegacyDeleted(s.products, p.id));
      var afterAdd := LegacyApply(afterDelete, LegacyAdded(s.products, submitted));
      && afterDelete.products == []
      && p in afterAdd.products
  {
    var s := LegacyPage([p], Blank(LegacyFields), false, None);
    assert Filter([p], p.id) == [];
  }
}
