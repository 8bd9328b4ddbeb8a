/** The cart slice of the shopping-cart store: an ordered list of line items,
    each a catalog product plus a quantity, and the four reducers that change it.
    Prices are integers (cents); ids and quantities are unbounded integers. */
module CartSlice {

  /** A catalog entry as the catalog hands it to the cart. */
  datatype Product = Product(id: int, title: string, price: int, image: string)

  /** A line item: the product's fields spread out, plus a quantity. */
  datatype CartItem = CartItem(id: int, title: string, price: int, image: string, quantity: int)

  /** The line item that adding a product not yet in the cart appends. */
  function NewLine(p: Product): CartItem {
    CartItem(p.id, p.title, p.price, p.image, 1)
  }

  // ---------------------------------------------------------------------------
  // Invariants of a reachable cart

  ghost predicate HasId(s: seq<CartItem>, id: int) {
    exists i :: 0 <= i < |s| && s[i].id == id
  }

  /** No two line items share an id. */
  ghost predicate UniqueIds(s: seq<CartItem>) {
    forall i, j :: 0 <= i < j < |s| ==> s[i].id != s[j].id
  }

  /** Every quantity is at least 1. */
  ghost predicate PositiveQuantities(s: seq<CartItem>) {
    forall i :: 0 <= i < |s| ==> s[i].quantity >= 1
  }

  ghost predicate ValidItems(s: seq<CartItem>) {
    UniqueIds(s) && PositiveQuantities(s)
  }

  // ---------------------------------------------------------------------------
  // The two list primitives the reducers use

  /** Where `find` stops: the index of the first item with this id, or |s| when there is none. */
  ghost function FirstIndex(s: seq<CartItem>, id: int): (r: nat)
    ensures r <= |s|
    ensures forall j :: 0 <= j < r ==> s[j].id != id
    ensures r < |s| ==> s[r].id == id
    ensures r < |s| <==> HasId(s, id)
    decreases s
  {
    if s == [] then 0
    else if s[0].id == id then 0
    else 1 + FirstIndex(s[1..], id)
  }

  /** What `filter` keeps: every item whose id differs, in the original order. */
  ghost function Without(s: seq<CartItem>, id: int): (r: seq<CartItem>)
    ensures |r| <= |s|
    ensures forall j :: 0 <= j < |r| ==> r[j].id != id
    decreases s
  {
    if s == [] then []
    else if s[0].id == id then Without(s[1..], id)
    else [s[0]] + Without(s[1..], id)
  }

  /** `a` is `b` with some items deleted and the rest kept in order. */
  ghost predicate IsSubsequence(a: seq<CartItem>, b: seq<CartItem>)
    decreases |b|
  {
    if a == [] then true
    else if b == [] then false
    else (a[0] == b[0] && IsSubsequence(a[1..], b[1..])) || IsSubsequence(a, b[1..])
  }

  /** A loop that finds the first item with the given id (`Array.prototype.find`). */
  method Find(s: seq<CartItem>, id: int) returns (i: nat)
    ensures i == FirstIndex(s, id)
  {
    i := 0;
    while i < |s| && s[i].id != id
      invariant i <= |s|
      invariant forall j :: 0 <= j < i ==> s[j].id != id
    {
      i := i + 1;
    }
    FirstIndexIsFirst(s, id, i);
  }

  /** A loop that keeps the items whose id differs (`Array.prototype.filter`). */
  method Filter(s: seq<CartItem>, id: int) returns (r: seq<CartItem>)
    ensures r == Without(s, id)
  {
    r := [];
    var i := 0;
    while i < |s|
      invariant i <= |s|
      invariant r == Without(s[..i], id)
    {
      WithoutSnoc(s[..i], s[i], id);
      assert s[..i + 1] == s[..i] + [s[i]];
      if s[i].id != id {
        r := r + [s[i]];
      }
      i := i + 1;
    }
    assert s[..i] == s;
  }

  // ---------------------------------------------------------------------------
  // The new state each reducer produces

  /** addToCart: bump the first item with the product's id, or append the product with quantity 1. */
  ghost function Added(s: seq<CartItem>, p: Product): (r: seq<CartItem>) {
    var i := FirstIndex(s, p.id);
    if i < |s| then s[i := s[i].(quantity := s[i].quantity + 1)]
    else s + [NewLine(p)]
  }

  /** removeFromCart: the filtered list. */
  ghost function Removed(s: seq<CartItem>, id: int): (r: seq<CartItem>) {
    Without(s, id)
  }

  /** increaseQuantity: bump the first item with the id, if any. */
  ghost function Increased(s: seq<CartItem>, id: int): (r: seq<CartItem>) {
    var i := FirstIndex(s, id);
    if i < |s| then s[i := s[i].(quantity := s[i].quantity + 1)] else s
  }

  /** decreaseQuantity: lower the first item with the id, if any, but only from above 1. */
  ghost function Decreased(s: seq<CartItem>, id: int): (r: seq<CartItem>) {
    var i := FirstIndex(s, id);
    if i < |s| && s[i].quantity > 1 then s[i := s[i].(quantity := s[i].quantity - 1)] else s
  }

  /** The four actions the slice accepts. */
  datatype Action =
    | AddToCart(product: Product)
    | RemoveFromCart(removeId: int)
    | IncreaseQuantity(increaseId: int)
    | DecreaseQuantity(decreaseId: int)

  ghost function Step(s: seq<CartItem>, a: Action): (r: seq<CartItem>) {
    match a
    case AddToCart(p) => Added(s, p)
    case RemoveFromCart(id) => Removed(s, id)
    case IncreaseQuantity(id) => Increased(s, id)
    case DecreaseQuantity(id) => Decreased(s, id)
  }

  /** The list after dispatching the actions in order. */
  ghost function Replay(s: seq<CartItem>, acts: seq<Action>): (r: seq<CartItem>)
    decreases |acts|
  {
    if acts == [] then s else Replay(Step(s, acts[0]), acts[1..])
  }

  // ---------------------------------------------------------------------------
  // The store

  class Cart {
    var items: seq<CartItem>

    /** Ids unique and quantities at least 1. The constructor sets it up and every
        reducer keeps it, so it holds in every reachable store; `ReachableValid`
        states the same fact over `Replay` of any action sequence from the empty list. */
    ghost predicate Valid()
      reads this
    {
      ValidItems(items)
    }

    /** The initial state: no items. */
    constructor ()
      ensures items == []
      ensures Valid()
    {
      items := [];
    }

    method AddToCart(p: Product)
      modifies this
      ensures items == Added(old(items), p)
      ensures old(Valid()) ==> Valid()
    {
      var i := Find(items, p.id);
      if i < |items| {
        items := items[i := items[i].(quantity := items[i].quantity + 1)];
      } else {
        items := items + [NewLine(p)];
      }
      AddedValid(old(items), p);
    }

    method RemoveFromCart(id: int)
      modifies this
      ensures items == Removed(old(items), id)
      ensures old(Valid()) ==> Valid()
    {
      items := Filter(items, id);
      RemovedValid(old(items), id);
    }

    method IncreaseQuantity(id: int)
      modifies this
      ensures items == Increased(old(items), id)
      ensures old(Valid()) ==> Valid()
    {
      var i := Find(items, id);
      if i < |items| {
        items := items[i := items[i].(quantity := items[i].quantity + 1)];
      }
      IncreasedValid(old(items), id);
    }

    method DecreaseQuantity(id: int)
      modifies this
      ensures items == Decreased(old(items), id)
      ensures old(Valid()) ==> Valid()
    {
      var i := Find(items, id);
      if i < |items| && items[i].quantity > 1 {
        items := items[i := items[i].(quantity := items[i].quantity - 1)];
      }
      DecreasedValid(old(items), id);
    }
  }

  // ---------------------------------------------------------------------------
  // Lemmas about the list primitives

  /** The first-match index is determined by "no match before, a match at it (if in range)". */
  lemma FirstIndexIsFirst(s: seq<CartItem>, id: int, k: nat)
    requires k <= |s|
    requires forall j :: 0 <= j < k ==> s[j].id != id
    requires k < |s| ==> s[k].id == id
    ensures FirstIndex(s, id) == k
  {
  }

  /** Replacing an item by one with the same id does not move the first match. */
  lemma FirstIndexAfterUpdate(s: seq<CartItem>, id: int, i: nat, x: CartItem)
    requires i < |s| && x.id == s[i].id
    ensures FirstIndex(s[i := x], id) == FirstIndex(s, id)
  {
    var t := s[i := x];
    var k := FirstIndex(s, id);
    assert forall j :: 0 <= j < |s| ==> (t[j].id == id <==> s[j].id == id);
    FirstIndexIsFirst(t, id, k);
  }

  lemma {:induction false} WithoutSnoc(s: seq<CartItem>, x: CartItem, id: int)
    ensures Without(s + [x], id) == Without(s, id) + (if x.id != id then [x] else [])
    decreases s
  {
    if s == [] {
      assert [x][1..] == [];
    } else {
      assert (s + [x])[1..] == s[1..] + [x];
      WithoutSnoc(s[1..], x, id);
    }
  }

  /** Filtering keeps the order of what it keeps. */
  lemma {:induction false} WithoutIsSubsequence(s: seq<CartItem>, id: int)
    ensures IsSubsequence(Without(s, id), s)
    decreases s
  {
    if s != [] {
      WithoutIsSubsequence(s[1..], id);
      var w := Without(s, id);
      if s[0].id != id {
        assert w[0] == s[0] && w[1..] == Without(s[1..], id);
      }
    }
  }

  /** With no item of that id, filtering changes nothing. */
  lemma {:induction false} WithoutAbsent(s: seq<CartItem>, id: int)
    requires !HasId(s, id)
    ensures Without(s, id) == s
    decreases s
  {
    if s != [] {
      assert !HasId(s[1..], id) by {
        forall j | 0 <= j < |s[1..]| ensures s[1..][j].id != id {
          assert s[1..][j] == s[j + 1];
        }
      }
      WithoutAbsent(s[1..], id);
      assert s == [s[0]] + s[1..];
    }
  }

  lemma UniqueIdsTail(s: seq<CartItem>)
    requires s != [] && UniqueIds(s)
    ensures UniqueIds(s[1..]) && !HasId(s[1..], s[0].id)
  {
    assert forall j :: 0 <= j < |s[1..]| ==> s[1..][j] == s[j + 1];
  }

  /** When ids are unique, `filter` and `find` agree: filtering removes exactly the item `find` returns. */
  lemma {:induction false} WithoutUniqueIsSplice(s: seq<CartItem>, id: int)
    requires UniqueIds(s) && HasId(s, id)
    ensures var i := FirstIndex(s, id); Without(s, id) == s[..i] + s[i + 1..]
    decreases s
  {
    UniqueIdsTail(s);
    if s[0].id == id {
      WithoutAbsent(s[1..], id);
    } else {
      assert HasId(s[1..], id) by {
        var k :| 0 <= k < |s| && s[k].id == id;
        assert s[1..][k - 1] == s[k];
      }
      WithoutUniqueIsSplice(s[1..], id);
      var i := FirstIndex(s[1..], id);
      assert s[..i + 1] == [s[0]] + s[1..][..i];
      assert s[i + 2..] == s[1..][i + 1..];
    }
  }

  /** Filtering keeps exactly the items of another id. */
  lemma {:induction false} WithoutMembers(s: seq<CartItem>, id: int)
    ensures forall x :: x in Without(s, id) <==> x in s && x.id != id
    decreases s
  {
    if s != [] {
      WithoutMembers(s[1..], id);
      assert s == [s[0]] + s[1..];
    }
  }

  /** Filtering keeps every copy of an item of another id and no copy of an item with the id. */
  lemma {:induction false} WithoutCounts(s: seq<CartItem>, id: int)
    ensures forall x :: multiset(Without(s, id))[x] == if x.id == id then 0 else multiset(s)[x]
    decreases s
  {
    if s != [] {
      WithoutCounts(s[1..], id);
      assert s == [s[0]] + s[1..];
    }
  }

  /** Filtering never creates an id and never drops an id other than the filtered one. */
  lemma WithoutHasId(s: seq<CartItem>, id: int, other: int)
    ensures HasId(Without(s, id), other) <==> other != id && HasId(s, other)
  {
    var w := Without(s, id);
    WithoutMembers(s, id);
    if HasId(w, other) {
      var k :| 0 <= k < |w| && w[k].id == other;
      assert w[k] in s;
    }
    if other != id && HasId(s, other) {
      var j :| 0 <= j < |s| && s[j].id == other;
      assert s[j] in w;
    }
  }

  /** Filtering keeps ids unique and quantities positive. */
  lemma {:induction false} WithoutValid(s: seq<CartItem>, id: int)
    requires ValidItems(s)
    ensures ValidItems(Without(s, id))
    decreases s
  {
    if s != [] {
      UniqueIdsTail(s);
      assert PositiveQuantities(s[1..]) by {
        forall j | 0 <= j < |s[1..]| ensures s[1..][j].quantity >= 1 {
          assert s[1..][j] == s[j + 1];
        }
      }
      WithoutValid(s[1..], id);
      if s[0].id != id {
        var w := Without(s[1..], id);
        WithoutHasId(s[1..], id, s[0].id);
        assert forall j :: 0 <= j < |w| ==> w[j].id != s[0].id;
        assert ([s[0]] + w)[0] == s[0];
        assert forall j :: 1 <= j < |w| + 1 ==> ([s[0]] + w)[j] == w[j - 1];
      }
    }
  }

  // ---------------------------------------------------------------------------
  // What each reducer does

  /** addToCart on a present id bumps the stored item by exactly one and keeps its other fields;
      the length does not change and no other item changes. */
  lemma AddExisting(s: seq<CartItem>, p: Product)
    requires HasId(s, p.id)
    ensures var r := Added(s, p); var i := FirstIndex(s, p.id);
      |r| == |s| && i < |s| &&
      r[i].quantity == s[i].quantity + 1 &&
      r[i].id == s[i].id && r[i].title == s[i].title && r[i].price == s[i].price && r[i].image == s[i].image &&
      forall j :: 0 <= j < |s| && j != i ==> r[j] == s[j]
  {
  }

  /** On a present id, addToCart does exactly what increaseQuantity does. */
  lemma AddedPresentIsIncreased(s: seq<CartItem>, p: Product)
    requires HasId(s, p.id)
    ensures Added(s, p) == Increased(s, p.id)
  {
  }

  /** addToCart on a new id appends the payload with quantity 1 and keeps every earlier item. */
  lemma AddNew(s: seq<CartItem>, p: Product)
    requires !HasId(s, p.id)
    ensures var r := Added(s, p);
      |r| == |s| + 1 && r[..|s|] == s &&
      r[|s|] == CartItem(p.id, p.title, p.price, p.image, 1)
  {
  }

  /** Adding the same product twice to a cart without it gives one line with quantity 2. */
  lemma AddTwiceMerges(s: seq<CartItem>, p: Product)
    requires !HasId(s, p.id)
    ensures var r := Added(Added(s, p), p);
      |r| == |s| + 1 && r[..|s|] == s && r[|s|] == CartItem(p.id, p.title, p.price, p.image, 2)
  {
    var t := Added(s, p);
    AddNew(s, p);
    FirstIndexIsFirst(t, p.id, |s|);
  }

  /** removeFromCart leaves no item of that id and keeps all others, in order;
      an absent id leaves the list unchanged. */
  lemma RemoveSpec(s: seq<CartItem>, id: int)
    ensures !HasId(Removed(s, id), id)
    ensures IsSubsequence(Removed(s, id), s)
    ensures forall x :: x in Removed(s, id) <==> x in s && x.id != id
    ensures forall x :: multiset(Removed(s, id))[x] == if x.id == id then 0 else multiset(s)[x]
    ensures !HasId(s, id) ==> Removed(s, id) == s
  {
    WithoutIsSubsequence(s, id);
    WithoutMembers(s, id);
    WithoutCounts(s, id);
    if !HasId(s, id) {
      WithoutAbsent(s, id);
    }
  }

  /** increaseQuantity adds one to the first matching item, unbounded; nothing else changes;
      an absent id leaves the list unchanged. */
  lemma IncreaseSpec(s: seq<CartItem>, id: int)
    ensures var r := Increased(s, id); var i := FirstIndex(s, id);
      |r| == |s| &&
      (forall j :: 0 <= j < |s| && j != i ==> r[j] == s[j]) &&
      (i < |s| ==> r[i] == s[i].(quantity := s[i].quantity + 1)) &&
      (!HasId(s, id) ==> r == s)
  {
  }

  /** decreaseQuantity subtracts one only above 1; at 1 or for an absent id nothing changes;
      the item is never removed. */
  lemma DecreaseSpec(s: seq<CartItem>, id: int)
    ensures var r := Decreased(s, id); var i := FirstIndex(s, id);
      |r| == |s| &&
      (forall j :: 0 <= j < |s| && j != i ==> r[j] == s[j]) &&
      (i < |s| && s[i].quantity > 1 ==> r[i] == s[i].(quantity := s[i].quantity - 1)) &&
      (i < |s| && s[i].quantity <= 1 ==> r == s) &&
      (!HasId(s, id) ==> r == s) &&
      (HasId(s, id) ==> HasId(r, id))
  {
    var r := Decreased(s, id);
    var i := FirstIndex(s, id);
    if i < |s| {
      assert r[i].id == id;
    }
  }

  /** Once an item is at quantity 1, decreasing it again and again changes nothing. */
  lemma {:induction false} DecreaseAtFloor(s: seq<CartItem>, id: int, n: nat)
    requires HasId(s, id) && s[FirstIndex(s, id)].quantity == 1
    ensures DecreaseTimes(s, id, n) == s
    decreases n
  {
    if n > 0 {
      DecreaseAtFloor(s, id, n - 1);
    }
  }

  ghost function DecreaseTimes(s: seq<CartItem>, id: int, n: nat): (r: seq<CartItem>)
    decreases n
  {
    if n == 0 then s else Decreased(DecreaseTimes(s, id, n - 1), id)
  }

  /** Increasing and then decreasing the same id restores the list. */
  lemma IncreaseThenDecrease(s: seq<CartItem>, id: int)
    requires PositiveQuantities(s)
    ensures Decreased(Increased(s, id), id) == s
  {
    var i := FirstIndex(s, id);
    if i < |s| {
      FirstIndexAfterUpdate(s, id, i, s[i].(quantity := s[i].quantity + 1));
    }
  }

  /** `find` touches only the first match while `filter` removes every match:
      with two items of the same id, increaseQuantity bumps only the first, removeFromCart drops both. */
  lemma FindAndFilterDiffer()
    ensures var a := CartItem(7, "a", 100, "a.png", 1);
      var b := CartItem(7, "b", 200, "b.png", 1);
      Increased([a, b], 7) == [a.(quantity := 2), b] && Removed([a, b], 7) == []
  {
    var a := CartItem(7, "a", 100, "a.png", 1);
    var b := CartItem(7, "b", 200, "b.png", 1);
    FirstIndexIsFirst([a, b], 7, 0);
    assert [a, b][1..] == [b];
    assert [b][1..] == [];
  }

  // ---------------------------------------------------------------------------
  // The invariant holds in every reachable state

  lemma AddedValid(s: seq<CartItem>, p: Product)
    ensures ValidItems(s) ==> ValidItems(Added(s, p))
  {
    if ValidItems(s) {
      var r := Added(s, p);
      var i := FirstIndex(s, p.id);
      if i < |s| {
        assert forall j :: 0 <= j < |s| ==> r[j].id == s[j].id;
      } else {
        assert forall j :: 0 <= j < |s| ==> r[j] == s[j];
      }
    }
  }

  lemma RemovedValid(s: seq<CartItem>, id: int)
    ensures ValidItems(s) ==> ValidItems(Removed(s, id))
  {
    if ValidItems(s) {
      WithoutValid(s, id);
    }
  }

  lemma IncreasedValid(s: seq<CartItem>, id: int)
    ensures ValidItems(s) ==> ValidItems(Increased(s, id))
  {
    var r := Increased(s, id);
    assert forall j :: 0 <= j < |s| ==> r[j].id == s[j].id;
  }

  lemma DecreasedValid(s: seq<CartItem>, id: int)
    ensures ValidItems(s) ==> ValidItems(Decreased(s, id))
  {
    var r := Decreased(s, id);
    assert forall j :: 0 <= j < |s| ==> r[j].id == s[j].id;
  }

  lemma StepValid(s: seq<CartItem>, a: Action)
    requires ValidItems(s)
    ensures ValidItems(Step(s, a))
  {
    match a
    case AddToCart(p) => AddedValid(s, p);
    case RemoveFromCart(id) => RemovedValid(s, id);
    case IncreaseQuantity(id) => IncreasedValid(s, id);
    case DecreaseQuantity(id) => DecreasedValid(s, id);
  }

  /** From the empty initial state, every sequence of actions keeps ids unique and quantities >= 1. */
  lemma {:induction false} ReachableValid(acts: seq<Action>)
    ensures ValidItems(Replay([], acts))
  {
    ReplayValid([], acts);
  }

  lemma {:induction false} ReplayValid(s: seq<CartItem>, acts: seq<Action>)
    requires ValidItems(s)
    ensures ValidItems(Replay(s, acts))
    decreases |acts|
  {
    if acts != [] {
      StepValid(s, acts[0]);
      ReplayValid(Step(s, acts[0]), acts[1..]);
    }
  }
}
