/** The catalogue page: reading the page number and the filters from the URL
    query, building the product query, rewriting the URL query when a filter,
    the sort order or the page changes, and the add-or-go-to-cart button.

    The URL query is a map from names to strings (a name given twice is not
    modelled). The objects the page hands to `setSearchParams` are maps from
    names to `Value`s, since they mix strings, numbers and `undefined`. */
module ProductList {
  import opened Common
  import Cart

  const PageSize: nat := 12

  /** The filter names, in the order in which they enter the product query. */
  const FilterKeys: seq<string> := ["q", "brand", "category", "minPrice", "maxPrice", "sort"]

  /** JavaScript's `Number(s)` on a query value: NaN, or a finite number. */
  datatype JsNumber = NaN | Finite(n: int)

  /** A property value of a plain object. */
  datatype Value = Undefined | Text(s: string) | Number(n: int)

  /** `Number(searchParams.get("page")) || 1`: a missing parameter is
      `Number(null)`, which is 0; 0 and NaN are falsy, so they give page 1. */
  function PageFrom(params: map<string, string>, toNumber: string -> JsNumber): (page: int)
    ensures page != 0
    ensures "page" !in params ==> page == 1
    ensures "page" in params ==>
      match toNumber(params["page"])
      case NaN => page == 1
      case Finite(n) => page == (if n == 0 then 1 else n)
  {
    var number := if "page" in params then toNumber(params["page"]) else Finite(0);
    match number
    case NaN => 1
    case Finite(n) => if n == 0 then 1 else n
  }

  /** The `filters` object: one string per name of `FilterKeys`. */
  type Filters = map<string, string>

  predicate HasAll(f: Filters, keys: seq<string>) {
    forall k :: k in keys ==> k in f
  }

  /** Each filter is its query value, or "" when the query lacks it. */
  function FiltersFrom(params: map<string, string>): (f: Filters)
    ensures f.Keys == set k | k in FilterKeys
    ensures forall k :: k in FilterKeys ==> f[k] == if k in params then params[k] else ""
  {
    map k | k in FilterKeys :: OrElse(Get(params, k), Some("")).value
  }

  /** The query entries of the non-empty filters among `keys`, in that order. */
  function EntriesOf(f: Filters, keys: seq<string>): seq<(string, Value)>
    requires HasAll(f, keys)
  {
    if keys == [] then []
    else
      var k := keys[|keys| - 1];
      EntriesOf(f, keys[..|keys| - 1]) + (if f[k] != "" then [(k, Text(f[k]))] else [])
  }

  function Names(entries: seq<(string, Value)>): (r: seq<string>)
    ensures |r| == |entries| && forall i :: 0 <= i < |entries| ==> r[i] == entries[i].0
  {
    seq(|entries|, i requires 0 <= i < |entries| => entries[i].0)
  }

  /** The entries name non-empty filters only, in the order of `keys`, each
      with its own value, and every non-empty filter among `keys` has one. */
  lemma {:induction false} EntriesOfSpec(f: Filters, keys: seq<string>)
    requires HasAll(f, keys)
    ensures Subseq(Names(EntriesOf(f, keys)), keys)
    ensures forall k :: k in Names(EntriesOf(f, keys)) <==> k in keys && f[k] != ""
    ensures forall e :: e in EntriesOf(f, keys) ==> e.0 in f && e.1 == Text(f[e.0])
    decreases |keys|
  {
    if keys != [] {
      var init, k := keys[..|keys| - 1], keys[|keys| - 1];
      assert keys == init + [k];
      EntriesOfSpec(f, init);
      var es := EntriesOf(f, init);
      SubseqSnoc(Names(es), init, k);
      if f[k] != "" {
        assert Names(es + [(k, Text(f[k]))]) == Names(es) + [k];
      } else {
        assert EntriesOf(f, keys) == es + [];
        assert es + [] == es;
      }
    }
  }

  /** The `URLSearchParams` of the product query: the non-empty filters in
      the order of `FilterKeys` (one guarded append per name), then always
      `page` and `pageSize=12`. */
  method BuildQuery(f: Filters, page: int) returns (params: seq<(string, Value)>)
    requires HasAll(f, FilterKeys)
    ensures params == EntriesOf(f, FilterKeys) + [("page", Number(page)), ("pageSize", Number(PageSize))]
  {
    params := [];
    for i := 0 to |FilterKeys|
      invariant params == EntriesOf(f, FilterKeys[..i])
    {
      var key := FilterKeys[i];
      assert FilterKeys[..i + 1][..i] == FilterKeys[..i];
      if f[key] != "" {
        params := params + [(key, Text(f[key]))];
      }
    }
    assert FilterKeys[..|FilterKeys|] == FilterKeys;
    params := params + [("page", Number(page))];
    params := params + [("pageSize", Number(PageSize))];
  }

  /** The product query names exactly the non-empty filters, in the fixed
      order, each with its value, and ends with the page and the page size. */
  lemma QuerySpec(f: Filters, page: int)
    requires HasAll(f, FilterKeys)
    ensures var q := EntriesOf(f, FilterKeys) + [("page", Number(page)), ("pageSize", Number(PageSize))];
      && Subseq(Names(q[..|q| - 2]), FilterKeys)
      && (forall k :: k in Names(q[..|q| - 2]) <==> k in FilterKeys && f[k] != "")
      && (forall i :: 0 <= i < |q| - 2 ==> q[i].1 == Text(f[q[i].0]))
      && q[|q| - 2] == ("page", Number(page)) && q[|q| - 1] == ("pageSize", Number(PageSize))
  {
    var es := EntriesOf(f, FilterKeys);
    var q := es + [("page", Number(page)), ("pageSize", Number(PageSize))];
    assert q[..|q| - 2] == es;
    EntriesOfSpec(f, FilterKeys);
    forall i | 0 <= i < |q| - 2 ensures q[i].1 == Text(f[q[i].0]) {
      assert q[i] in es;
    }
  }

  /** The URL query as an object (`Object.fromEntries(searchParams)`). */
  function AsObject(params: map<string, string>): (o: map<string, Value>)
    ensures o.Keys == params.Keys && forall k :: k in params ==> o[k] == Text(params[k])
  {
    map k | k in params :: Text(params[k])
  }

  /** `{ ...Object.fromEntries(searchParams), ...overlay, page: 1 }`. */
  function Overlay(params: map<string, string>, overlay: map<string, Value>): map<string, Value> {
    AsObject(params) + overlay + map["page" := Number(1)]
  }

  predicate Blank(v: Value) {
    v == Text("") || v == Undefined
  }

  /** The `forEach`-`delete` pass: drops every property whose value is "" or
      undefined and keeps every other property as it is. */
  method Prune(obj: map<string, Value>) returns (r: map<string, Value>)
    ensures r.Keys <= obj.Keys
    ensures forall k :: k in r <==> k in obj && !Blank(obj[k])
    ensures forall k :: k in r ==> r[k] == obj[k]
  {
    r := obj;
    var keys := obj.Keys;
    while keys != {}
      invariant keys <= obj.Keys
      invariant forall k :: k in r <==> k in obj && (k in keys || !Blank(obj[k]))
      invariant forall k :: k in r ==> r[k] == obj[k]
      decreases keys
    {
      var k :| k in keys;
      if Blank(r[k]) {
        r := r - {k};
      }
      keys := keys - {k};
    }
  }

  /** `onFilterChange`: the new filters overlay the current query, the page
      goes back to 1, and blank values are removed; every other non-empty
      parameter of the current query is kept. */
  method OnFilterChange(params: map<string, string>, newFilters: map<string, Value>)
    returns (next: map<string, Value>)
    ensures "page" in next && next["page"] == Number(1)
    ensures forall k :: k in next ==> !Blank(next[k])
    ensures forall k :: k in next ==> k == "page" || k in newFilters || k in params
    ensures forall k :: k != "page" && k in newFilters ==>
      (k in next <==> !Blank(newFilters[k])) && (k in next ==> next[k] == newFilters[k])
    ensures forall k :: k != "page" && k !in newFilters && k in params ==>
      (k in next <==> params[k] != "") && (k in next ==> next[k] == Text(params[k]))
  {
    next := Prune(Overlay(params, newFilters));
  }

  /** Changing the sort order: the same merge with `sort` as the overlay, so
      "Recommended" (the empty value) removes the parameter. */
  method OnSortChange(params: map<string, string>, sort: string) returns (next: map<string, Value>)
    ensures "page" in next && next["page"] == Number(1)
    ensures sort == "" ==> "sort" !in next
    ensures sort != "" ==> "sort" in next && next["sort"] == Text(sort)
    ensures forall k :: k != "page" && k != "sort" ==>
      (k in next <==> k in params && params[k] != "") && (k in next ==> next[k] == Text(params[k]))
  {
    next := OnFilterChange(params, map["sort" := Text(sort)]);
  }

  /** `onPageChange`: every current parameter is kept verbatim (no pruning)
      and `page` becomes the requested page. */
  function PageChange(params: map<string, string>, p: int): (next: map<string, Value>)
    ensures next.Keys == params.Keys + {"page"} && next["page"] == Number(p)
    ensures forall k :: k in params && k != "page" ==> next[k] == Text(params[k])
  {
    AsObject(params)["page" := Number(p)]
  }

  /** The mount effect: when the query has no truthy `page`, the whole query
      is replaced by `{ page: 1 }`, which drops any filter it carried. */
  function InitialQuery(params: map<string, string>): (r: Option<map<string, Value>>)
    ensures r.Some? <==> !Truthy(Get(params, "page"))
    ensures r.Some? ==> r.value == map["page" := Number(1)]
  {
    if Truthy(Get(params, "page")) then None else Some(map["page" := Number(1)])
  }

  datatype CartAction = GoToCart | AddToCart

  /** `handleCartAction`: go to the cart when a line of the cart has the
      product's id, otherwise add the product. */
  function CartActionFor(cart: seq<Cart.Item>, p: Product): (a: CartAction)
    ensures a == GoToCart <==> exists i :: 0 <= i < |cart| && cart[i].product.id == p.id
  {
    if Cart.Contains(cart, p.id) then GoToCart else AddToCart
  }

  /** Once the add has gone through, the same button goes to the cart. */
  lemma CartActionAfterAdd(cart: seq<Cart.Item>, p: Product)
    requires Cart.Inv(cart)
    ensures CartActionFor(Cart.AddItem(cart, p), p) == GoToCart
  {
    Cart.AddItemSpec(cart, p, p.id);
  }

  /** The server's answer to the product query. */
  datatype Response = Ok(items: Option<seq<Product>>, total: Option<nat>) | Failed

  datatype Listing = Listing(products: seq<Product>, total: nat, loading: bool)

  /** The listing once the query settles: missing fields default to the empty
      list and 0, a failure resets both, and loading ends either way. */
  function AfterFetch(r: Response): (l: Listing)
    ensures !l.loading
    ensures r.Failed? ==> l.products == [] && l.total == 0
    ensures r.Ok? ==> l.products == (if r.items.Some? then r.items.value else [])
                      && l.total == (if r.total.Some? then r.total.value else 0)
  {
    match r
    case Failed => Listing([], 0, false)
    case Ok(items, total) =>
      Listing(if items.Some? then items.value else [], if total.Some? then total.value else 0, false)
  }

  /** `Math.ceil(total / 12)`: enough pages of 12 for every product, and no
      empty last page. */
  function TotalPages(total: nat): (pages: nat)
    ensures pages * PageSize >= total
    ensures pages == 0 || (pages - 1) * PageSize < total
  {
    CeilDiv(total, PageSize)
  }
}
