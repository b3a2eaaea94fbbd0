/** The shopping cart: the list updaters that the cart context hands to the
    pages, and the provider that keeps the cart of the signed-in user in
    storage under `cart_<userKey>`.

    The updaters are functions of the previous list. Their meaning is stated
    through `QuantityOf`, the total quantity held for one product id, and
    through the cart invariant `Inv` (ids are unique and every quantity is at
    least 1), which every updater preserves. */
module Cart {
  import opened Common

  /** A cart line: the product spread into the line, plus its quantity. */
  datatype Item = Item(product: Product, quantity: int) {
    function Id(): Option<string> { product.id }
  }

  /** `user?.id ?? user?.email ?? null`: `??` only skips null and undefined,
      so an empty id is kept (and is then falsy, as if nobody were signed in). */
  function UserKey(user: Option<User>): (k: Option<string>)
    ensures user.None? ==> k.None?
    ensures user.Some? && user.value.id.Some? ==> k == user.value.id
    ensures user.Some? && user.value.id.None? ==> k == user.value.email
  {
    match user
    case None => None
    case Some(u) => if u.id.Some? then u.id else u.email
  }

  /** The storage key of a user's cart. */
  function CartKey(k: string): (key: string)
    ensures |key| == |k| + 5 && key[5..] == k
  {
    "cart_" + k
  }

  /** Different users never share a storage key. */
  lemma CartKeyInjective(a: string, b: string)
    requires CartKey(a) == CartKey(b)
    ensures a == b
  {
    assert a == CartKey(a)[5..];
  }

  function Ids(c: seq<Item>): (r: seq<Option<string>>)
    ensures |r| == |c| && forall i :: 0 <= i < |c| ==> r[i] == c[i].Id()
  {
    seq(|c|, i requires 0 <= i < |c| => c[i].Id())
  }

  /** `prev.find(p => p.id === id)` succeeds. */
  predicate Contains(c: seq<Item>, id: Option<string>) {
    exists i | 0 <= i < |c| :: c[i].Id() == id
  }

  /** Total quantity held for `id`. */
  function QuantityOf(c: seq<Item>, id: Option<string>): int {
    if c == [] then 0 else (if c[0].Id() == id then c[0].quantity else 0) + QuantityOf(c[1..], id)
  }

  /** Number of lines for `id`. */
  function CountOf(c: seq<Item>, id: Option<string>): nat {
    if c == [] then 0 else (if c[0].Id() == id then 1 else 0) + CountOf(c[1..], id)
  }

  predicate UniqueIds(c: seq<Item>) {
    forall i, j | 0 <= i < j < |c| :: c[i].Id() != c[j].Id()
  }

  predicate AllPositive(c: seq<Item>) {
    forall i | 0 <= i < |c| :: c[i].quantity >= 1
  }

  /** The cart invariant: one line per product, each with a positive quantity. */
  predicate Inv(c: seq<Item>) {
    UniqueIds(c) && AllPositive(c)
  }

  /** `prev.map(p => p.id === id ? { ...p, quantity: p.quantity + delta } : p)`. */
  function Bump(c: seq<Item>, id: Option<string>, delta: int): (r: seq<Item>)
    ensures |r| == |c|
    ensures forall i :: 0 <= i < |c| ==> r[i].product == c[i].product
    ensures forall i :: 0 <= i < |c| ==>
      r[i].quantity == c[i].quantity + (if c[i].Id() == id then delta else 0)
  {
    if c == [] then []
    else [if c[0].Id() == id then c[0].(quantity := c[0].quantity + delta) else c[0]]
         + Bump(c[1..], id, delta)
  }

  /** `prev.filter(p => p.id !== id)`. */
  function Without(c: seq<Item>, id: Option<string>): (r: seq<Item>)
    ensures Subseq(r, c)
    ensures forall k :: 0 <= k < |r| ==> r[k].Id() != id
    ensures forall x :: x in c && x.Id() != id ==> x in r
  {
    if c == [] then []
    else if c[0].Id() == id then Without(c[1..], id)
    else [c[0]] + Without(c[1..], id)
  }

  /** `.filter(p => p.quantity > 0)`. */
  function DropEmpty(c: seq<Item>): (r: seq<Item>)
    ensures Subseq(r, c) && AllPositive(r)
    ensures forall x :: multiset(r)[x] == if x.quantity > 0 then multiset(c)[x] else 0
  {
    if c == [] then []
    else
      var rest := DropEmpty(c[1..]);
      assert c == [c[0]] + c[1..];
      if c[0].quantity > 0 then
        assert ([c[0]] + rest)[1..] == rest;
        [c[0]] + rest
      else rest
  }

  /** `addToCart`'s updater: a product already in the cart has its line(s)
      incremented, a new one is appended with quantity 1. */
  function AddItem(c: seq<Item>, p: Product): seq<Item> {
    if Contains(c, p.id) then Bump(c, p.id, 1) else c + [Item(p, 1)]
  }

  /** `increaseQuantity`'s updater. */
  function Increase(c: seq<Item>, id: Option<string>): seq<Item> {
    Bump(c, id, 1)
  }

  /** `decreaseQuantity`'s updater: decrement, then drop lines at zero or below. */
  function Decrease(c: seq<Item>, id: Option<string>): seq<Item> {
    DropEmpty(Bump(c, id, -1))
  }

  /** `removeFromCart`'s updater. */
  function Remove(c: seq<Item>, id: Option<string>): seq<Item> {
    Without(c, id)
  }

  // ---------------------------------------------------------------- lemmas

  lemma {:induction false} QuantityAppend(c: seq<Item>, it: Item, x: Option<string>)
    ensures QuantityOf(c + [it], x) == QuantityOf(c, x) + (if it.Id() == x then it.quantity else 0)
    decreases |c|
  {
    if c != [] {
      assert (c + [it])[1..] == c[1..] + [it];
      QuantityAppend(c[1..], it, x);
    }
  }

  lemma {:induction false} ContainsTail(c: seq<Item>, id: Option<string>)
    requires c != []
    ensures Contains(c, id) <==> c[0].Id() == id || Contains(c[1..], id)
  {
    if Contains(c[1..], id) {
      var i :| 0 <= i < |c[1..]| && c[1..][i].Id() == id;
      assert c[i + 1].Id() == id;
    }
    if Contains(c, id) && c[0].Id() != id {
      var i :| 0 <= i < |c| && c[i].Id() == id;
      assert c[1..][i - 1].Id() == id;
    }
  }

  lemma UniqueTail(c: seq<Item>)
    requires c != [] && UniqueIds(c)
    ensures UniqueIds(c[1..]) && !Contains(c[1..], c[0].Id())
  {
  }

  /** With unique ids there is one line for an id in the cart and none otherwise. */
  lemma {:induction false} CountUnique(c: seq<Item>, id: Option<string>)
    requires UniqueIds(c)
    ensures CountOf(c, id) == if Contains(c, id) then 1 else 0
    decreases |c|
  {
    if c != [] {
      UniqueTail(c);
      ContainsTail(c, id);
      CountUnique(c[1..], id);
      if c[0].Id() != id {
        assert Contains(c, id) <==> Contains(c[1..], id);
      }
    }
  }

  /** Bumping by `delta` moves the total of `id` by `delta` per line of `id`
      and leaves every other product's total alone. */
  lemma {:induction false} BumpQuantity(c: seq<Item>, id: Option<string>, delta: int, x: Option<string>)
    ensures QuantityOf(Bump(c, id, delta), x)
         == QuantityOf(c, x) + (if x == id then delta * CountOf(c, id) else 0)
    decreases |c|
  {
    if c != [] {
      var r := Bump(c, id, delta);
      var head := if c[0].Id() == id then 1 else 0;
      assert r[1..] == Bump(c[1..], id, delta);
      assert r[0].Id() == c[0].Id() && r[0].quantity == c[0].quantity + delta * head;
      BumpQuantity(c[1..], id, delta, x);
      var n := CountOf(c[1..], id);
      assert CountOf(c, id) == head + n;
      assert delta * (head + n) == delta * head + delta * n;
    }
  }

  lemma {:induction false} BumpContains(c: seq<Item>, id: Option<string>, delta: int, x: Option<string>)
    ensures Contains(Bump(c, id, delta), x) <==> Contains(c, x)
  {
    var r := Bump(c, id, delta);
    if Contains(c, x) {
      var i :| 0 <= i < |c| && c[i].Id() == x;
      assert r[i].Id() == x;
    }
    if Contains(r, x) {
      var i :| 0 <= i < |r| && r[i].Id() == x;
      assert c[i].Id() == x;
    }
  }

  /** Removing every line of `id` zeroes its total and keeps every other total. */
  lemma {:induction false} WithoutQuantity(c: seq<Item>, id: Option<string>, x: Option<string>)
    ensures QuantityOf(Without(c, id), x) == if x == id then 0 else QuantityOf(c, x)
    decreases |c|
  {
    if c != [] {
      WithoutQuantity(c[1..], id, x);
      if c[0].Id() != id {
        assert (Without(c, id))[1..] == Without(c[1..], id);
      }
    }
  }

  /** Dropping lines whose quantity is zero does not change any total. */
  lemma {:induction false} DropZeroes(c: seq<Item>, x: Option<string>)
    requires forall i | 0 <= i < |c| :: c[i].quantity >= 0
    ensures QuantityOf(DropEmpty(c), x) == QuantityOf(c, x)
    decreases |c|
  {
    if c != [] {
      DropZeroes(c[1..], x);
      if c[0].quantity > 0 {
        assert DropEmpty(c)[1..] == DropEmpty(c[1..]);
      }
    }
  }

  lemma {:induction false} SubseqUnique(a: seq<Item>, b: seq<Item>)
    requires Subseq(a, b) && UniqueIds(b)
    ensures UniqueIds(a)
    decreases |b|
  {
    if a != [] {
      UniqueTail(b);
      if a[0] == b[0] && Subseq(a[1..], b[1..]) {
        SubseqUnique(a[1..], b[1..]);
        SubseqMembers(a[1..], b[1..]);
        forall i, j | 0 <= i < j < |a| ensures a[i].Id() != a[j].Id() {
          if i == 0 {
            assert a[j] in b[1..];
            var k :| 0 <= k < |b[1..]| && b[1..][k] == a[j];
            assert b[1..][k].Id() != b[0].Id();
          } else {
            assert a[i] == a[1..][i - 1] && a[j] == a[1..][j - 1];
          }
        }
      } else {
        SubseqUnique(a, b[1..]);
      }
    }
  }

  /** `addToCart`: the product's total grows by one, every other total is
      unchanged; a known product keeps the cart's length and order, a new one
      is appended at the end with quantity 1; the invariant is preserved. */
  lemma AddItemSpec(c: seq<Item>, p: Product, x: Option<string>)
    requires Inv(c)
    ensures Inv(AddItem(c, p))
    ensures QuantityOf(AddItem(c, p), x) == QuantityOf(c, x) + (if x == p.id then 1 else 0)
    ensures Contains(c, p.id) ==> Ids(AddItem(c, p)) == Ids(c)
    ensures !Contains(c, p.id) ==> AddItem(c, p) == c + [Item(p, 1)]
    ensures Contains(AddItem(c, p), p.id)
  {
    var r := AddItem(c, p);
    if Contains(c, p.id) {
      BumpQuantity(c, p.id, 1, x);
      CountUnique(c, p.id);
      BumpContains(c, p.id, 1, p.id);
      assert Ids(r) == Ids(c);
    } else {
      QuantityAppend(c, Item(p, 1), x);
      forall i, j | 0 <= i < j < |r| ensures r[i].Id() != r[j].Id() {
        if j == |c| {
          assert c[i].Id() != p.id;
        }
      }
      assert r[|c|].Id() == p.id;
    }
  }

  /** `increaseQuantity`: the total of `id` grows by one when it is in the
      cart, nothing else changes, ids and order are kept. */
  lemma IncreaseSpec(c: seq<Item>, id: Option<string>, x: Option<string>)
    requires Inv(c)
    ensures Inv(Increase(c, id)) && Ids(Increase(c, id)) == Ids(c)
    ensures QuantityOf(Increase(c, id), x)
         == QuantityOf(c, x) + (if x == id && Contains(c, id) then 1 else 0)
  {
    BumpQuantity(c, id, 1, x);
    CountUnique(c, id);
    assert Ids(Increase(c, id)) == Ids(c);
  }

  /** `decreaseQuantity`: the total of `id` drops by one when it is in the
      cart (its line disappears when it reaches zero), nothing else changes,
      and every remaining quantity is at least 1. */
  lemma DecreaseSpec(c: seq<Item>, id: Option<string>, x: Option<string>)
    requires Inv(c)
    ensures Inv(Decrease(c, id))
    ensures Subseq(Decrease(c, id), Bump(c, id, -1))
    ensures QuantityOf(Decrease(c, id), x)
         == QuantityOf(c, x) - (if x == id && Contains(c, id) then 1 else 0)
  {
    var b := Bump(c, id, -1);
    var d := DropEmpty(b);
    assert d == Decrease(c, id);
    BumpQuantity(c, id, -1, x);
    CountUnique(c, id);
    DropZeroes(b, x);
    assert UniqueIds(b) by {
      assert Ids(b) == Ids(c);
      forall i, j | 0 <= i < j < |b| ensures b[i].Id() != b[j].Id() {
        assert Ids(b)[i] == c[i].Id() && Ids(b)[j] == c[j].Id();
      }
    }
    SubseqUnique(d, b);
  }

  /** `removeFromCart`: no line of `id` is left, every other line is kept in
      its order, and the invariant is preserved. */
  lemma RemoveSpec(c: seq<Item>, id: Option<string>, x: Option<string>)
    requires Inv(c)
    ensures Inv(Remove(c, id)) && !Contains(Remove(c, id), id)
    ensures QuantityOf(Remove(c, id), x) == if x == id then 0 else QuantityOf(c, x)
  {
    WithoutQuantity(c, id, x);
    SubseqUnique(Without(c, id), c);
    SubseqMembers(Without(c, id), c);
    var r := Without(c, id);
    forall i | 0 <= i < |r| ensures r[i].quantity >= 1 {
      assert r[i] in c;
    }
  }

  /** Loading a cart: nobody signed in (a falsy key) gives the empty cart,
      otherwise the saved cart, or the empty cart when none is saved. */
  function Load(saved: map<string, seq<Item>>, key: Option<string>): (c: seq<Item>)
    ensures !Truthy(key) ==> c == []
    ensures Truthy(key) && CartKey(key.value) in saved ==> c == saved[CartKey(key.value)]
    ensures Truthy(key) && CartKey(key.value) !in saved ==> c == []
  {
    if !Truthy(key) then []
    else if CartKey(key.value) in saved then saved[CartKey(key.value)]
    else []
  }

  /** The cart provider. `saved` holds the stored carts by storage key (the
      JSON round trip is the identity); `loginPrompts` counts the
      "please login" warnings that an anonymous `addToCart` raises. */
  class CartProvider {
    var key: Option<string>
    var cart: seq<Item>
    var saved: map<string, seq<Item>>
    var loginPrompts: nat

    /** The state mirrors the stored cart of the signed-in user, an anonymous
        cart is empty, and every cart satisfies the cart invariant. */
    ghost predicate Valid()
      reads this
    {
      (Truthy(key) ==> CartKey(key.value) in saved && saved[CartKey(key.value)] == cart)
      && (!Truthy(key) ==> cart == [])
      && Inv(cart)
      && forall k | k in saved :: Inv(saved[k])
    }

    constructor (saved: map<string, seq<Item>>)
      requires forall k | k in saved :: Inv(saved[k])
      ensures Valid() && key.None? && cart == [] && this.saved == saved && loginPrompts == 0
    {
      key, cart, this.saved, loginPrompts := None, [], saved, 0;
    }

    /** The save effect: stores the cart under the user's key, if any. */
    method Save()
      modifies this`saved
      ensures saved == if Truthy(key) then old(saved)[CartKey(key.value) := cart] else old(saved)
    {
      if Truthy(key) {
        saved := saved[CartKey(key.value) := cart];
      }
    }

    /** The signed-in user changes. The load effect reads the new user's cart;
        the save effect of the same commit still sees the previous cart and
        writes it under the new key, and the next commit's save effect writes
        the loaded cart back over it. */
    method SetUser(user: Option<User>)
      requires Valid()
      modifies this`key, this`cart, this`saved
      ensures Valid()
      ensures key == UserKey(user)
      ensures key != old(key) ==>
        cart == Load(old(saved), key)
        && saved == (if Truthy(key) then old(saved)[CartKey(key.value) := cart] else old(saved))
      ensures key == old(key) ==> cart == old(cart) && saved == old(saved)
    {
      var k := UserKey(user);
      if k == key {
        return;
      }
      key := k;
      var loaded := Load(saved, k);
      Save();
      cart := loaded;
      Save();
    }

    method AddToCart(p: Product)
      requires Valid()
      modifies this`cart, this`saved, this`loginPrompts
      ensures Valid()
      ensures !Truthy(key) ==> cart == old(cart) && saved == old(saved) && loginPrompts == old(loginPrompts) + 1
      ensures Truthy(key) ==> cart == AddItem(old(cart), p) && loginPrompts == old(loginPrompts)
      ensures saved == if Truthy(key) then old(saved)[CartKey(key.value) := cart] else old(saved)
    {
      if !Truthy(key) {
        loginPrompts := loginPrompts + 1;
        return;
      }
      AddItemSpec(cart, p, None);
      cart := AddItem(cart, p);
      Save();
    }

    method RemoveFromCart(id: Option<string>)
      requires Valid()
      modifies this`cart, this`saved
      ensures Valid() && cart == Remove(old(cart), id)
      ensures saved == if Truthy(key) then old(saved)[CartKey(key.value) := cart] else old(saved)
    {
      RemoveSpec(cart, id, None);
      cart := Remove(cart, id);
      Save();
    }

    method IncreaseQuantity(id: Option<string>)
      requires Valid()
      modifies this`cart, this`saved
      ensures Valid() && cart == Increase(old(cart), id)
      ensures saved == if Truthy(key) then old(saved)[CartKey(key.value) := cart] else old(saved)
    {
      IncreaseSpec(cart, id, None);
      cart := Increase(cart, id);
      Save();
    }

    method DecreaseQuantity(id: Option<string>)
      requires Valid()
      modifies this`cart, this`saved
      ensures Valid() && cart == Decrease(old(cart), id)
      ensures saved == if Truthy(key) then old(saved)[CartKey(key.value) := cart] else old(saved)
    {
      var next := Decrease(cart, id);
      DecreaseSpec(cart, id, None);
      assert cart == [] ==> next == [] by {
        if cart == [] { assert Bump(cart, id, -1) == []; }
      }
      cart := next;
      assert Inv(cart) && (!Truthy(key) ==> cart == []);
      Save();
    }

    method ClearCart()
      requires Valid()
      modifies this`cart, this`saved
      ensures Valid() && cart == []
      ensures saved == if Truthy(key) then old(saved)[CartKey(key.value) := cart] else old(saved)
    {
      cart := [];
      Save();
    }
  }

  /** A saved cart round-trips: after signing out and back in, the user finds
      the cart they left. */
  method CartSurvivesSignOut(u: User, p: Product) returns (before: seq<Item>, after: seq<Item>)
    requires Truthy(UserKey(Some(u)))
    ensures before == after == [Item(p, 1)]
  {
    var provider := new CartProvider(map[]);
    provider.SetUser(Some(u));
    provider.AddToCart(p);
    before := provider.cart;
    provider.SetUser(None);
    provider.SetUser(Some(u));
    after := provider.cart;
  }
}
