/** The profile page: it reads the session's token from the auth context,
    fetches the profile and the user's orders together, and shows an avatar
    made of the user's initials and a card per order with a status class.

    The two requests are recorded in `sent`; their joint answer arrives as
    `OnFetched` or `OnFetchFailed`. The `logout` callback is recorded by
    counting its invocations. */
module Profile {
  import opened Common
  import Session
  import AdminOrders

  // ------------------------------------------------------------- the avatar

  /** `.map(n => n[0]).join("")`: the first character of every word; the
      first character of an empty word is undefined, which `join` renders
      as nothing. */
  function Heads(words: seq<string>): (r: string)
    ensures |r| <= |words|
  {
    if words == [] then ""
    else (if words[0] != "" then [words[0][0]] else "") + Heads(words[1..])
  }

  /** `fullName.split(" ").map(n => n[0]).join("").slice(0, 2)`. */
  function NameInitials(fullName: string): (r: string)
    ensures |r| <= 2
  {
    JsSlice(Heads(Split(fullName, ' ')), 0, 2)
  }

  /** The avatar text: the name's initials when the user has a non-empty
      full name, otherwise the email's first character upper-cased. None
      when neither exists, where reading `email[0]` throws. */
  function Avatar(user: User): (r: Option<string>)
    ensures Truthy(user.fullName) ==> r == Some(NameInitials(user.fullName.value))
    ensures !Truthy(user.fullName) && Truthy(user.email) ==> r == Some([UpperChar(user.email.value[0])])
    ensures r.None? <==> !Truthy(user.fullName) && !Truthy(user.email)
  {
    if Truthy(user.fullName) then Some(NameInitials(user.fullName.value))
    else if Truthy(user.email) then Some([UpperChar(user.email.value[0])])
    else None
  }

  /** The heads of non-empty words are their first characters, in order. */
  lemma {:induction false} HeadsOfWords(words: seq<string>)
    requires forall k :: 0 <= k < |words| ==> words[k] != ""
    ensures Heads(words) == seq(|words|, k requires 0 <= k < |words| => words[k][0])
    decreases |words|
  {
    if words != [] {
      HeadsOfWords(words[1..]);
    }
  }

  /** The avatar of a name written as words separated by single spaces is
      the first letter of the first word followed by the first letter of the
      second word, if there is one. */
  lemma InitialsOfWords(words: seq<string>)
    requires |words| >= 1
    requires forall k :: 0 <= k < |words| ==> words[k] != "" && ' ' !in words[k]
    ensures NameInitials(Join(words, " ")) ==
      [words[0][0]] + (if |words| >= 2 then [words[1][0]] else "")
  {
    SplitJoin(words, ' ');
    HeadsOfWords(words);
  }

  /** The initials are empty exactly when the name consists of spaces only,
      so a truthy name of spaces gives an empty avatar. */
  lemma {:induction false} InitialsEmptyIffSpaces(fullName: string)
    ensures Heads(Split(fullName, ' ')) == "" <==> forall i :: 0 <= i < |fullName| ==> fullName[i] == ' '
    ensures NameInitials(fullName) == "" <==> forall i :: 0 <= i < |fullName| ==> fullName[i] == ' '
    decreases |fullName|
  {
    if fullName != [] {
      var rest := Split(fullName[1..], ' ');
      InitialsEmptyIffSpaces(fullName[1..]);
      if fullName[0] == ' ' {
        assert Split(fullName, ' ') == [""] + rest;
        assert ([""] + rest)[1..] == rest;
        assert (forall i :: 0 <= i < |fullName| ==> fullName[i] == ' ') <==>
               (forall i :: 0 <= i < |fullName[1..]| ==> fullName[1..][i] == ' ') by {
          forall i | 0 < i < |fullName| ensures fullName[i] == fullName[1..][i - 1] {}
        }
      } else {
        assert Split(fullName, ' ')[0][0] == fullName[0];
      }
    }
  }

  // ------------------------------------------------------- the order cards

  /** The fields of an order the page shows. */
  datatype Order = Order(id: Option<string>, status: Option<string>)

  const DeliveredClass: string := "order-status delivered"
  const ShippedClass: string := "order-status shipped"
  const PendingClass: string := "order-status pending"

  /** The class of an order's status: exact matches of "captured" and
      "Shipped" only. */
  function StatusClass(status: Option<string>): (c: string)
    ensures c == DeliveredClass <==> status == Some("captured")
    ensures c == ShippedClass <==> status == Some("Shipped")
    ensures c == PendingClass <==> status != Some("captured") && status != Some("Shipped")
  {
    if status == Some("captured") then DeliveredClass
    else if status == Some("Shipped") then ShippedClass
    else PendingClass
  }

  /** `order.status || "Pending"`. */
  function StatusText(status: Option<string>): (t: string)
    ensures Truthy(status) ==> t == status.value
    ensures !Truthy(status) ==> t == "Pending"
  {
    OrText(status, "Pending")
  }

  /** The comparison is case-sensitive, unlike the admin orders table: a
      "Captured" order is delivered there and pending here, and a "shipped"
      order is pending here. An order without status shows "Pending" with
      the pending class. */
  lemma StatusIsCaseSensitive()
    ensures StatusClass(Some("Captured")) == PendingClass
    ensures AdminOrders.StatusClass(Some("Captured")) == AdminOrders.Success
    ensures StatusClass(Some("shipped")) == PendingClass
    ensures StatusClass(None) == PendingClass && StatusText(None) == "Pending"
  {
    assert ToLower("Captured") == "captured";
  }

  // ------------------------------------------------- the token and fetching

  const NoTokenMessage: string := "No login token found"
  const FailureMessage: string := "Failed to load profile. Please login again."
  const Unauthorized: int := 401

  /** The requests the page sends, with their Authorization header. */
  datatype Call = ProfileCall(auth: string) | UserOrdersCall(auth: string)

  /** The token the page takes from the auth context, as written: the
      context has no `token` property, so this is always undefined. */
  function TokenAsWritten(v: Session.ContextValue): (t: Option<string>)
    ensures t.None?
  {
    Session.Property(v, "token")
  }

  /** The token the page evidently means: the session's access token. */
  function Token(v: Session.ContextValue): (t: Option<string>)
    ensures t == v.accessToken
  {
    Session.Property(v, Session.AccessKey)
  }

  /** What the page renders. */
  datatype Screen = Loader | ErrorText(message: string) | LoginPrompt | Card(user: User)

  class ProfilePage {
    var user: Option<User>
    var orders: seq<Order>
    var loading: bool
    var error: string
    var sent: seq<Call>
    var logouts: nat   // invocations of the context's `logout`

    constructor ()
      ensures user.None? && orders == [] && loading && error == ""
      ensures sent == [] && logouts == 0
    {
      user, orders, loading, error := None, [], true, "";
      sent, logouts := [], 0;
    }

    /** The fetch effect's synchronous part: without a truthy token it stops
        loading and reports the missing token, sending nothing; otherwise it
        requests the profile and the orders together with that bearer token. */
    method Mount(token: Option<string>)
      modifies this`loading, this`error, this`sent
      ensures !Truthy(token) ==> !loading && error == NoTokenMessage && sent == old(sent)
      ensures Truthy(token) ==>
        && loading && error == old(error)
        && sent == old(sent) + [ProfileCall("Bearer " + token.value), UserOrdersCall("Bearer " + token.value)]
    {
      if !Truthy(token) {
        loading := false;
        error := NoTokenMessage;
        return;
      }
      var auth := "Bearer " + token.value;
      loading := true;
      sent := sent + [ProfileCall(auth), UserOrdersCall(auth)];
    }

    /** Both requests succeeded. */
    method OnFetched(u: User, os: seq<Order>)
      modifies this`user, this`orders, this`loading
      ensures user == Some(u) && orders == os && !loading
    {
      user := Some(u);
      orders := os;
      loading := false;
    }

    /** One of the requests failed with `status` (None when there was no
        response): a 401 logs out and sets no error; any other failure sets
        the generic error. Loading ends either way. */
    method OnFetchFailed(status: Option<int>)
      modifies this`error, this`loading, this`logouts
      ensures !loading
      ensures status == Some(Unauthorized) ==> logouts == old(logouts) + 1 && error == old(error)
      ensures status != Some(Unauthorized) ==> logouts == old(logouts) && error == FailureMessage
    {
      if status == Some(Unauthorized) {
        logouts := logouts + 1;
      } else {
        error := FailureMessage;
      }
      loading := false;
    }

    /** What the page renders in its current state. */
    function View(): (s: Screen)
      reads this
      ensures loading ==> s == Loader
      ensures !loading && error != "" ==> s == ErrorText(error)
      ensures !loading && error == "" && user.None? ==> s == LoginPrompt
      ensures !loading && error == "" && user.Some? ==> s == Card(user.value)
    {
      if loading then Loader
      else if error != "" then ErrorText(error)
      else if user.None? then LoginPrompt
      else Card(user.value)
    }
  }

  /** As written, a signed-in user's profile page never fetches: the token it
      reads from the context is undefined, so it reports a missing token. */
  method SignedInAsWritten(v: Session.ContextValue) returns (screen: Screen, requests: nat)
    requires Truthy(v.accessToken)
    ensures screen == ErrorText(NoTokenMessage) && requests == 0
  {
    var page := new ProfilePage();
    page.Mount(TokenAsWritten(v));
    screen, requests := page.View(), |page.sent|;
  }

  /** With the session's access token, a signed-in user's page requests the
      profile and the orders with that token and shows the card once both
      arrive. */
  method SignedIn(v: Session.ContextValue, u: User, os: seq<Order>)
    returns (calls: seq<Call>, screen: Screen)
    requires Truthy(v.accessToken)
    ensures calls == [ProfileCall("Bearer " + v.accessToken.value), UserOrdersCall("Bearer " + v.accessToken.value)]
    ensures screen == Card(u)
  {
    var page := new ProfilePage();
    page.Mount(Token(v));
    calls := page.sent;
    page.OnFetched(u, os);
    screen := page.View();
  }

  /** An expired session on a signed-in user's page: the 401 logs out once
      and the page falls back to the login prompt, not to an error. */
  method ExpiredSession(v: Session.ContextValue) returns (logouts: nat, screen: Screen)
    requires Truthy(v.accessToken)
    ensures logouts == 1 && screen == LoginPrompt
  {
    var page := new ProfilePage();
    page.Mount(Token(v));
    page.OnFetchFailed(Some(Unauthorized));
    logouts, screen := page.logouts, page.View();
  }
}
