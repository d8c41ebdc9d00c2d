/**
 The pricing engine: the cart's subtotal and item count, the shipping tier
 table, and the totals that the shipping selectors and the checkout read.
 Amounts are whole rupiah.
 */
module Pricing {
  import opened LineItems

  /** What one entry contributes to the subtotal. */
  function LineTotal(x: Item): int
  {
    x.price * x.quantity
  }

  /** The sum of price times quantity over the entries, first to last. */
  function Subtotal(s: seq<Item>): int
  {
    if s == [] then 0 else LineTotal(s[0]) + Subtotal(s[1..])
  }

  /** The sum of the quantities: the number shown on the cart badge. */
  function ItemCount(s: seq<Item>): int
  {
    if s == [] then 0 else s[0].quantity + ItemCount(s[1..])
  }

  /** Shipping rates by service, consulted only for the inter-regional region. */
  const RegularRate := 25000
  const FastRate := 50000
  const CargoRate := 100000

  /** The shipping cost for the selected region and service values: free
      unless the region is "interlocal", and then by service tier, with an
      unknown service free as well. */
  function ShippingCost(region: string, service: string): (r: int)
    ensures region != "interlocal" ==> r == 0
    ensures r in {0, RegularRate, FastRate, CargoRate}
    ensures r == RegularRate <==> region == "interlocal" && service == "regular"
    ensures r == FastRate <==> region == "interlocal" && service == "fast"
    ensures r == CargoRate <==> region == "interlocal" && service == "cargo"
  {
    if region == "interlocal" then
      if service == "regular" then RegularRate
      else if service == "fast" then FastRate
      else if service == "cargo" then CargoRate
      else 0
    else 0
  }

  /** The three figures the checkout snapshots. */
  datatype Totals = Totals(subtotal: int, shipping: int, total: int)

  /** The figures computed for the current cart and shipping selection. */
  function ComputeTotals(s: seq<Item>, region: string, service: string): (t: Totals)
    ensures t.subtotal == Subtotal(s)
    ensures t.shipping == ShippingCost(region, service)
    ensures t.total == t.subtotal + t.shipping
  {
    var subtotal := Subtotal(s);
    var shipping := ShippingCost(region, service);
    Totals(subtotal, shipping, subtotal + shipping)
  }

  // ---------------------------------------------------------------------
  // Sums over concatenations

  /** The subtotal of two carts side by side is the sum of their subtotals. */
  lemma {:induction false} SubtotalConcat(a: seq<Item>, b: seq<Item>)
    ensures Subtotal(a + b) == Subtotal(a) + Subtotal(b)
  {
    if a != [] {
      assert (a + b)[1..] == a[1..] + b;
      SubtotalConcat(a[1..], b);
    } else {
      assert a + b == b;
    }
  }

  /** The item count of two carts side by side is the sum of their counts. */
  lemma {:induction false} ItemCountConcat(a: seq<Item>, b: seq<Item>)
    ensures ItemCount(a + b) == ItemCount(a) + ItemCount(b)
  {
    if a != [] {
      assert (a + b)[1..] == a[1..] + b;
      ItemCountConcat(a[1..], b);
    } else {
      assert a + b == b;
    }
  }

  /** Accumulating from the left, as the render loop and `reduce` do, gives
      the same subtotal and count. */
  lemma SumsSnoc(s: seq<Item>, x: Item)
    ensures Subtotal(s + [x]) == Subtotal(s) + LineTotal(x)
    ensures ItemCount(s + [x]) == ItemCount(s) + x.quantity
  {
    SubtotalConcat(s, [x]);
    ItemCountConcat(s, [x]);
  }

  /** Splitting a cart around position `i`. */
  lemma SumsSplit(s: seq<Item>, i: nat)
    requires i < |s|
    ensures Subtotal(s) == Subtotal(s[..i]) + LineTotal(s[i]) + Subtotal(s[i + 1..])
    ensures ItemCount(s) == ItemCount(s[..i]) + s[i].quantity + ItemCount(s[i + 1..])
  {
    assert s == s[..i] + [s[i]] + s[i + 1..];
    SubtotalConcat(s[..i] + [s[i]], s[i + 1..]);
    SubtotalConcat(s[..i], [s[i]]);
    ItemCountConcat(s[..i] + [s[i]], s[i + 1..]);
    ItemCountConcat(s[..i], [s[i]]);
  }

  // ---------------------------------------------------------------------
  // The totals follow every cart operation

  /** Moving one entry's quantity by `delta` moves the subtotal by
      `price * delta` and the count by `delta`. */
  lemma {:induction false} SumsBump(s: seq<Item>, i: nat, delta: int)
    requires i < |s|
    ensures Subtotal(Bump(s, i, delta)) == Subtotal(s) + s[i].price * delta
    ensures ItemCount(Bump(s, i, delta)) == ItemCount(s) + delta
  {
    var r := Bump(s, i, delta);
    if i == 0 {
      assert r[1..] == s[1..];
      LineTotalBump(s[0], delta);
    } else {
      assert r[0] == s[0] && r[1..] == Bump(s[1..], i - 1, delta);
      SumsBump(s[1..], i - 1, delta);
    }
  }

  /** Moving one entry's quantity by `delta` moves its line total by `price * delta`. */
  lemma LineTotalBump(x: Item, delta: int)
    ensures LineTotal(x.(quantity := x.quantity + delta)) == LineTotal(x) + x.price * delta
  {
    var p, q := x.price, x.quantity;
    assert p * (q + delta) == p * q + p * delta;
  }

  /** Removing the entry at `i` takes its line total and quantity off. */
  lemma SumsRemoveAt(s: seq<Item>, i: nat)
    requires i < |s|
    ensures Subtotal(RemoveAt(s, i)) == Subtotal(s) - LineTotal(s[i])
    ensures ItemCount(RemoveAt(s, i)) == ItemCount(s) - s[i].quantity
  {
    SumsSplit(s, i);
    SubtotalConcat(s[..i], s[i + 1..]);
    ItemCountConcat(s[..i], s[i + 1..]);
  }

  /** One add raises the count by 1 and the subtotal by one unit price: the
      stored price for a known id, the given price for a new one. */
  lemma SumsAfterAdd(s: seq<Item>, id: string, name: string, price: int, image: Image)
    ensures var r := AddItem(s, id, name, price, image);
      && ItemCount(r) == ItemCount(s) + 1
      && Subtotal(r) == Subtotal(s) + (if HasId(s, id) then s[IndexOf(s, id)].price else price)
  {
    var i := IndexOf(s, id);
    if i >= 0 {
      SumsBump(s, i, 1);
    } else {
      SumsSnoc(s, Item(id, name, price, image, 1));
    }
  }

  /** A quantity change on a known id moves the subtotal by `price * change`
      while the entry survives, and takes its whole line total off when it is
      removed; an unknown id leaves both sums alone. */
  lemma SumsAfterChange(s: seq<Item>, id: string, change: int)
    ensures var r := ChangeQuantity(s, id, change);
      var i := IndexOf(s, id);
      && (i < 0 ==> Subtotal(r) == Subtotal(s) && ItemCount(r) == ItemCount(s))
      && (i >= 0 && s[i].quantity + change > 0 ==>
            Subtotal(r) == Subtotal(s) + s[i].price * change && ItemCount(r) == ItemCount(s) + change)
      && (i >= 0 && s[i].quantity + change <= 0 ==>
            Subtotal(r) == Subtotal(s) - LineTotal(s[i]) && ItemCount(r) == ItemCount(s) - s[i].quantity)
  {
    var i := IndexOf(s, id);
    if i >= 0 {
      if s[i].quantity + change <= 0 {
        SumsRemoveAt(s, i);
      } else {
        SumsBump(s, i, change);
      }
    }
  }

  /** Removing a known id takes its line total and quantity off the sums. */
  lemma SumsAfterRemove(s: seq<Item>, id: string)
    ensures var r := RemoveId(s, id);
      var i := IndexOf(s, id);
      && (i < 0 ==> r == s)
      && (i >= 0 ==> Subtotal(r) == Subtotal(s) - LineTotal(s[i]) && ItemCount(r) == ItemCount(s) - s[i].quantity)
  {
    var i := IndexOf(s, id);
    if i >= 0 {
      SumsRemoveAt(s, i);
    }
  }

  // ---------------------------------------------------------------------
  // Bounds

  /** In a valid cart every entry counts at least once, so the badge shows at
      least the number of entries, and 0 only for the empty cart. */
  lemma {:induction false} ItemCountAtLeastEntries(s: seq<Item>)
    requires forall k :: 0 <= k < |s| ==> s[k].quantity >= 1
    ensures ItemCount(s) >= |s|
    ensures ItemCount(s) == 0 <==> s == []
  {
    if s != [] {
      ItemCountAtLeastEntries(s[1..]);
    }
  }

  /** With no negative prices in a valid cart the subtotal is not negative,
      and each entry's line total is part of it. */
  lemma {:induction false} SubtotalBounds(s: seq<Item>)
    requires forall k :: 0 <= k < |s| ==> s[k].quantity >= 1 && s[k].price >= 0
    ensures Subtotal(s) >= 0
    ensures forall k :: 0 <= k < |s| ==> LineTotal(s[k]) <= Subtotal(s)
  {
    if s != [] {
      SubtotalBounds(s[1..]);
      assert forall k :: 1 <= k < |s| ==> s[k] == s[1..][k - 1];
    }
  }

  /** The grand total never undercuts the subtotal and exceeds it by at most
      the cargo rate. */
  lemma TotalBounds(s: seq<Item>, region: string, service: string)
    ensures var t := ComputeTotals(s, region, service);
      t.subtotal <= t.total <= t.subtotal + CargoRate
  {
  }

  // ---------------------------------------------------------------------
  // Scenarios

  /** Adding the same 150000 item twice gives one entry of quantity 2 and a
      subtotal of 300000; with the fast inter-regional service the total is
      350000. */
  lemma TwoOfOneTenun(image: Image)
    ensures var r := AddItem(AddItem([], "1", "Tenun A", 150000, image), "1", "Tenun A", 150000, image);
      && r == [Item("1", "Tenun A", 150000, image, 2)]
      && Subtotal(r) == 300000
      && ComputeTotals(r, "interlocal", "fast").total == 350000
  {
    var r1 := AddItem([], "1", "Tenun A", 150000, image);
    assert r1 == [Item("1", "Tenun A", 150000, image, 1)];
    assert IndexOf(r1, "1") == 0;
    var r := AddItem(r1, "1", "Tenun A", 150000, image);
    assert r == [Item("1", "Tenun A", 150000, image, 2)];
    assert Subtotal(r) == 300000;
  }
}
