/** The values the pages derive from the cart: the badge count (the number of
    line items, not the number of units) and the subtotal, Σ price × quantity,
    with prices in integer cents. */
module CartViews {
  import opened CartSlice

  /** The ids present in the cart. */
  ghost function IdSet(s: seq<CartItem>): (ids: set<int>)
    decreases s
  {
    if s == [] then {} else {s[0].id} + IdSet(s[1..])
  }

  lemma {:induction false} IdSetHasId(s: seq<CartItem>, id: int)
    ensures id in IdSet(s) <==> HasId(s, id)
    decreases s
  {
    if s != [] {
      IdSetHasId(s[1..], id);
      if HasId(s, id) && s[0].id != id {
        var k :| 0 <= k < |s| && s[k].id == id;
        assert s[1..][k - 1] == s[k];
      }
    }
  }

  /** With unique ids there are as many distinct ids as line items. */
  lemma {:induction false} UniqueIdsCount(s: seq<CartItem>)
    ensures UniqueIds(s) ==> |IdSet(s)| == |s|
    decreases s
  {
    if s != [] && UniqueIds(s) {
      UniqueIdsTail(s);
      UniqueIdsCount(s[1..]);
      IdSetHasId(s[1..], s[0].id);
    }
  }

  /** The navigation badge: the number of line items. It is zero exactly for the empty
      cart (the badge is hidden), and on a cart with unique ids it is the number of
      distinct products, not the number of units. */
  function ItemCount(s: seq<CartItem>): (n: nat)
    ensures n == 0 <==> s == []
    ensures UniqueIds(s) ==> n == |IdSet(s)|
  {
    UniqueIdsCount(s);
    |s|
  }

  /** A line's total: its unit price times its quantity. A single unit costs its price,
      and non-negative prices and quantities give a non-negative total. */
  function LineTotal(x: CartItem): (t: int)
    ensures x.quantity == 1 ==> t == x.price
    ensures x.price >= 0 && x.quantity >= 0 ==> t >= 0
  {
    x.price * x.quantity
  }

  /** Changing a line's quantity by d changes its total by d units of its price. */
  lemma LineTotalShift(x: CartItem, d: int)
    ensures LineTotal(x.(quantity := x.quantity + d)) == LineTotal(x) + d * x.price
  {
    calc {
      LineTotal(x.(quantity := x.quantity + d));
      x.price * (x.quantity + d);
      x.price * x.quantity + x.price * d;
    }
  }

  /** The cart page's running sum, folded left to right as `reduce` does. With
      non-negative prices and quantities it is never negative and no line's total
      exceeds it. */
  function Subtotal(s: seq<CartItem>): (t: int)
    ensures (forall j :: 0 <= j < |s| ==> s[j].price >= 0 && s[j].quantity >= 0) ==>
      t >= 0 && forall j :: 0 <= j < |s| ==> LineTotal(s[j]) <= t
    decreases |s|
  {
    if s == [] then 0
    else
      var init := s[..|s| - 1];
      assert forall j :: 0 <= j < |init| ==> init[j] == s[j];
      Subtotal(init) + LineTotal(s[|s| - 1])
  }

  lemma SubtotalAppend(s: seq<CartItem>, x: CartItem)
    ensures Subtotal(s + [x]) == Subtotal(s) + LineTotal(x)
  {
    assert (s + [x])[..|s|] == s;
  }

  lemma {:induction false} SubtotalConcat(a: seq<CartItem>, b: seq<CartItem>)
    ensures Subtotal(a + b) == Subtotal(a) + Subtotal(b)
    decreases |b|
  {
    if b == [] {
      assert a + b == a;
    } else {
      var c := b[..|b| - 1];
      var x := b[|b| - 1];
      assert b == c + [x];
      assert a + b == (a + c) + [x];
      SubtotalConcat(a, c);
      SubtotalAppend(a + c, x);
      SubtotalAppend(c, x);
    }
  }

  /** Replacing one line changes the subtotal by the difference of the two line totals. */
  lemma SubtotalUpdate(s: seq<CartItem>, i: nat, x: CartItem)
    requires i < |s|
    ensures Subtotal(s[i := x]) == Subtotal(s) - LineTotal(s[i]) + LineTotal(x)
  {
    assert s == s[..i] + [s[i]] + s[i + 1..];
    assert s[i := x] == s[..i] + [x] + s[i + 1..];
    SubtotalConcat(s[..i] + [s[i]], s[i + 1..]);
    SubtotalConcat(s[..i] + [x], s[i + 1..]);
    SubtotalAppend(s[..i], s[i]);
    SubtotalAppend(s[..i], x);
  }

  /** addToCart on a present id raises the subtotal by one unit of the STORED price
      (not the payload's) and leaves the badge unchanged. */
  lemma AddExistingViews(s: seq<CartItem>, p: Product)
    requires HasId(s, p.id)
    ensures Subtotal(Added(s, p)) == Subtotal(s) + s[FirstIndex(s, p.id)].price
    ensures ItemCount(Added(s, p)) == ItemCount(s)
  {
    AddedPresentIsIncreased(s, p);
    IncreaseViews(s, p.id);
  }

  /** addToCart on a new id raises the subtotal by the payload's price and the badge by one. */
  lemma AddNewViews(s: seq<CartItem>, p: Product)
    requires !HasId(s, p.id)
    ensures Subtotal(Added(s, p)) == Subtotal(s) + p.price
    ensures ItemCount(Added(s, p)) == ItemCount(s) + 1
  {
    assert Added(s, p) == s + [NewLine(p)];
    SubtotalAppend(s, NewLine(p));
  }

  /** increaseQuantity raises the subtotal by the matching item's price; the badge is unchanged. */
  lemma IncreaseViews(s: seq<CartItem>, id: int)
    ensures var i := FirstIndex(s, id);
      Subtotal(Increased(s, id)) == Subtotal(s) + (if i < |s| then s[i].price else 0) &&
      ItemCount(Increased(s, id)) == ItemCount(s)
  {
    var i := FirstIndex(s, id);
    var r := Increased(s, id);
    if i < |s| {
      var x := s[i].(quantity := s[i].quantity + 1);
      assert r == s[i := x];
      SubtotalUpdate(s, i, x);
      LineTotalShift(s[i], 1);
      assert Subtotal(r) == Subtotal(s) + s[i].price;
    } else {
      assert r == s;
    }
  }

  /** decreaseQuantity lowers the subtotal by the item's price only when its quantity was above 1. */
  lemma DecreaseViews(s: seq<CartItem>, id: int)
    ensures var i := FirstIndex(s, id);
      Subtotal(Decreased(s, id)) == Subtotal(s) - (if i < |s| && s[i].quantity > 1 then s[i].price else 0) &&
      ItemCount(Decreased(s, id)) == ItemCount(s)
  {
    var i := FirstIndex(s, id);
    var r := Decreased(s, id);
    if i < |s| && s[i].quantity > 1 {
      var x := s[i].(quantity := s[i].quantity - 1);
      assert r == s[i := x];
      SubtotalUpdate(s, i, x);
      LineTotalShift(s[i], -1);
      assert Subtotal(r) == Subtotal(s) - s[i].price;
    } else {
      assert r == s;
    }
  }

  /** With unique ids, removeFromCart drops exactly one line total and one badge unit for a present id. */
  lemma RemoveViews(s: seq<CartItem>, id: int)
    requires UniqueIds(s)
    ensures var i := FirstIndex(s, id);
      Subtotal(Removed(s, id)) == Subtotal(s) - (if i < |s| then LineTotal(s[i]) else 0) &&
      ItemCount(Removed(s, id)) == ItemCount(s) - (if i < |s| then 1 else 0)
  {
    var i := FirstIndex(s, id);
    if i < |s| {
      WithoutUniqueIsSplice(s, id);
      assert s == s[..i] + [s[i]] + s[i + 1..];
      SubtotalConcat(s[..i] + [s[i]], s[i + 1..]);
      SubtotalConcat(s[..i], s[i + 1..]);
      SubtotalAppend(s[..i], s[i]);
    } else {
      WithoutAbsent(s, id);
    }
  }

  /** The headphones walk-through, with the price in cents:
      add, add again, increase, decrease three times, remove, and remove from the empty cart. */
  lemma HeadphonesScenario()
    ensures var p := Product(1, "Headphones", 5999, "x");
      var s1 := Added([], p);
      var s2 := Added(s1, p);
      var s3 := Increased(s2, 1);
      var s4 := Decreased(s3, 1);
      var s5 := Decreased(s4, 1);
      var s6 := Decreased(s5, 1);
      var s7 := Removed(s6, 1);
      s1 == [CartItem(1, "Headphones", 5999, "x", 1)] &&
      s2 == [CartItem(1, "Headphones", 5999, "x", 2)] && ItemCount(s2) == 1 && Subtotal(s2) == 11998 &&
      s3 == [CartItem(1, "Headphones", 5999, "x", 3)] && Subtotal(s3) == 17997 &&
      s5 == [CartItem(1, "Headphones", 5999, "x", 1)] && s6 == s5 &&
      s7 == [] && ItemCount(s7) == 0 && Subtotal(s7) == 0 &&
      Removed([], 99) == []
  {
    var p := Product(1, "Headphones", 5999, "x");
    var line := CartItem(1, "Headphones", 5999, "x", 1);
    var two, three := line.(quantity := 2), line.(quantity := 3);
    FirstIndexIsFirst([], 1, 0);
    var s1 := Added([], p);
    assert s1 == [line];
    FirstIndexIsFirst([line], 1, 0);
    FirstIndexIsFirst([two], 1, 0);
    FirstIndexIsFirst([three], 1, 0);
    var s2 := Added(s1, p);
    assert s2 == [two];
    assert [two][..0] == [];
    assert Subtotal(s2) == 11998;
    var s3 := Increased(s2, 1);
    assert s3 == [three];
    assert [three][..0] == [];
    assert Subtotal(s3) == 17997;
    assert Decreased(s3, 1) == [two];
    assert Decreased([two], 1) == [line];
    assert Decreased([line], 1) == [line];
    assert Removed([line], 1) == Without([line][1..], 1);
    assert [line][1..] == [];
  }
}
