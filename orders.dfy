/** The order tables of the admin area: the status badge of an order, eight
    orders per page, and the fetch that needs a token. */
module AdminOrders {
  import opened Common
  import Pagination

  const ItemsPerPage: nat := 8

  const Success := "badge bg-success"
  const Warning := "badge bg-warning text-dark"
  const Danger := "badge bg-danger"
  const Primary := "badge bg-primary"
  const Secondary := "badge bg-secondary"

  /** `getStatusClass`: the lower-cased status picks the badge; a missing or
      unknown status gets the neutral badge. */
  function StatusClass(status: Option<string>): (c: string)
    ensures c in {Success, Warning, Danger, Primary, Secondary}
  {
    match status
    case None => Secondary
    case Some(s) =>
      var l := ToLower(s);
      if l == "captured" then Success
      else if l == "pending" then Warning
      else if l == "failed" then Danger
      else if l == "shipped" then Primary
      else Secondary
  }

  /** The four known statuses, written in any ASCII case, get their own badge;
      every other status and a missing one get the neutral badge. */
  lemma StatusClassSpec(status: Option<string>)
    ensures var l := if status.Some? then Some(ToLower(status.value)) else None;
      && (StatusClass(status) == Success <==> l == Some("captured"))
      && (StatusClass(status) == Warning <==> l == Some("pending"))
      && (StatusClass(status) == Danger <==> l == Some("failed"))
      && (StatusClass(status) == Primary <==> l == Some("shipped"))
      && (StatusClass(status) == Secondary <==>
            l !in {Some("captured"), Some("pending"), Some("failed"), Some("shipped")})
  {
  }

  /** Lower-casing the status first changes nothing: "Captured", "CAPTURED"
      and "captured" get the same badge. */
  lemma StatusClassCaseInsensitive(s: string)
    ensures StatusClass(Some(ToLower(s))) == StatusClass(Some(s))
  {
    ToLowerIdempotent(s);
  }

  /** The fetch effect: with no truthy token nothing is requested; otherwise
      the orders are requested with that bearer token. */
  function OrdersRequest(token: Option<string>): (auth: Option<string>)
    ensures auth.None? <==> !Truthy(token)
    ensures auth.Some? ==> auth.value == "Bearer " + token.value
  {
    if Truthy(token) then Some("Bearer " + token.value) else None
  }

  /** The orders after the fetch settles: the server's list, or, when the
      fetch failed or was never made, the list as it was. */
  function AfterFetch<T>(orders: seq<T>, token: Option<string>, response: Option<seq<T>>): (r: seq<T>)
    ensures OrdersRequest(token).None? ==> r == orders
    ensures response.None? ==> r == orders
    ensures OrdersRequest(token).Some? && response.Some? ==> r == response.value
  {
    if OrdersRequest(token).Some? && response.Some? then response.value else orders
  }

  /** The paged table of the admin order page. */
  datatype Table<T> = Table(totalPages: nat, items: seq<T>, noOrders: bool)

  function TableFor<T>(orders: seq<T>, currentPage: int): (t: Table<T>)
    ensures t.totalPages == CeilDiv(|orders|, ItemsPerPage)
    ensures t.items == JsSlice(orders, (currentPage - 1) * ItemsPerPage, currentPage * ItemsPerPage)
    ensures t.noOrders <==> t.items == []
  {
    var items := JsSlice(orders, (currentPage - 1) * ItemsPerPage, currentPage * ItemsPerPage);
    Table(CeilDiv(|orders|, ItemsPerPage), items, items == [])
  }

  /** `slice((p - 1) * 8, p * 8)` is the shared page slice, so from page 1 on
      each page shows the next at most eight orders, and "No orders found"
      shows exactly on pages past the last one. */
  lemma TableSpec<T>(orders: seq<T>, currentPage: int)
    requires currentPage >= 1
    ensures var t := TableFor(orders, currentPage);
      && t.items == Pagination.PageRows(orders, currentPage, ItemsPerPage)
      && |t.items| <= ItemsPerPage
      && (t.noOrders <==> currentPage > t.totalPages)
  {
    assert currentPage * ItemsPerPage == (currentPage - 1) * ItemsPerPage + ItemsPerPage;
    Pagination.PageRowsSpec(orders, currentPage, ItemsPerPage);
  }

  /** The order page outside the admin area lists every order, and shows
      "No orders found" exactly when there is none. */
  function ListAll<T>(orders: seq<T>): (r: (seq<T>, bool))
    ensures r.0 == orders && (r.1 <==> |orders| == 0)
  {
    (orders, |orders| == 0)
  }
}
