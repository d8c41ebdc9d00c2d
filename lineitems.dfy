/**
 The line-item store of the shop's cart, as values: one `Item` per product
 entry and the functions that say what each cart operation does to the
 ordered sequence of entries. The class in shop.dfy performs these
 operations in place and is proved against the functions here.
 */
module LineItems {

  /** The visual reference captured when a product is first added: the card's
      image address, else its placeholder's background style, else nothing.
      Pricing never looks at it. */
  datatype Image = NoImage | ImageSrc(src: string) | Background(style: string)

  /** One cart entry. `price` is the integer parsed from the button's
      data-price attribute; `quantity` is a plain number that the store keeps
      at 1 or more. */
  datatype Item = Item(id: string, name: string, price: int, image: Image, quantity: int)

  /** True when some entry carries `id`. */
  predicate HasId(s: seq<Item>, id: string)
  {
    exists k :: 0 <= k < |s| && s[k].id == id
  }

  /** An id is carried by a non-empty cart exactly when the head or the tail carries it. */
  lemma HasIdCons(s: seq<Item>)
    requires s != []
    ensures forall id :: HasId(s, id) <==> s[0].id == id || HasId(s[1..], id)
  {
    forall id ensures HasId(s, id) <==> s[0].id == id || HasId(s[1..], id) {
      if HasId(s, id) && s[0].id != id {
        var k :| 0 <= k < |s| && s[k].id == id;
        assert s[1..][k - 1].id == id;
      }
      if HasId(s[1..], id) {
        var k :| 0 <= k < |s[1..]| && s[1..][k].id == id;
        assert s[k + 1].id == id;
      }
    }
  }

  /** The set of ids in the cart. */
  function Ids(s: seq<Item>): (r: set<string>)
    ensures forall id :: id in r <==> HasId(s, id)
  {
    if s == [] then {}
    else
      HasIdCons(s);
      {s[0].id} + Ids(s[1..])
  }

  /** The position of the first entry carrying `id`, or -1 when there is none:
      what both `find` and `findIndex` look up. */
  function IndexOf(s: seq<Item>, id: string): (r: int)
    ensures -1 <= r < |s|
    ensures r >= 0 ==> s[r].id == id && forall k :: 0 <= k < r ==> s[k].id != id
    ensures r == -1 <==> !HasId(s, id)
  {
    if s == [] then -1
    else if s[0].id == id then 0
    else
      var t := IndexOf(s[1..], id);
      assert forall k :: 1 <= k < |s| ==> s[k] == s[1..][k - 1];
      if t == -1 then -1 else t + 1
  }

  /** No two entries share an id. */
  predicate Unique(s: seq<Item>)
  {
    forall i, j :: 0 <= i < j < |s| ==> s[i].id != s[j].id
  }

  /** The store invariant: ids are unique and every stored quantity is at least 1. */
  predicate Valid(s: seq<Item>)
  {
    Unique(s) && forall k :: 0 <= k < |s| ==> s[k].quantity >= 1
  }

  /** The cart without the entry at position `i`, the others in their order
      (`splice(i, 1)`). */
  function RemoveAt(s: seq<Item>, i: nat): (r: seq<Item>)
    requires i < |s|
    ensures |r| == |s| - 1
    ensures forall k :: 0 <= k < i ==> r[k] == s[k]
    ensures forall k :: i <= k < |r| ==> r[k] == s[k + 1]
  {
    s[..i] + s[i + 1..]
  }

  /** The entry at `i` with its quantity moved by `delta`, nothing else changed. */
  function Bump(s: seq<Item>, i: nat, delta: int): seq<Item>
    requires i < |s|
  {
    s[i := s[i].(quantity := s[i].quantity + delta)]
  }

  /** Add-or-increment: a known id gains one unit, an unknown id is appended
      with quantity 1. */
  function AddItem(s: seq<Item>, id: string, name: string, price: int, image: Image): seq<Item>
  {
    var i := IndexOf(s, id);
    if i >= 0 then Bump(s, i, 1) else s + [Item(id, name, price, image, 1)]
  }

  /** The quantity of a known id moves by `change`; the entry goes away when
      the result is 0 or less; an unknown id changes nothing. */
  function ChangeQuantity(s: seq<Item>, id: string, change: int): seq<Item>
  {
    var i := IndexOf(s, id);
    if i < 0 then s
    else if s[i].quantity + change <= 0 then RemoveAt(s, i)
    else Bump(s, i, change)
  }

  /** Removal of the first entry carrying `id`; an unknown id changes nothing. */
  function RemoveId(s: seq<Item>, id: string): seq<Item>
  {
    var i := IndexOf(s, id);
    if i >= 0 then RemoveAt(s, i) else s
  }

  /** Reference definition of removal: every entry whose id differs, in order. */
  function Without(s: seq<Item>, id: string): (r: seq<Item>)
    ensures !HasId(r, id)
    ensures forall x :: x != id ==> (HasId(r, x) <==> HasId(s, x))
    ensures |r| <= |s|
  {
    if s == [] then []
    else if s[0].id == id then
      HasIdCons(s);
      Without(s[1..], id)
    else
      var t := Without(s[1..], id);
      var r := [s[0]] + t;
      assert r[1..] == t;
      HasIdCons(s);
      HasIdCons(r);
      r
  }

  /** Adding the same product `n` times in a row. */
  function AddTimes(s: seq<Item>, id: string, name: string, price: int, image: Image, n: nat): seq<Item>
  {
    if n == 0 then s else AddItem(AddTimes(s, id, name, price, image, n - 1), id, name, price, image)
  }

  // ---------------------------------------------------------------------
  // Add-or-increment

  /** What one add does: a known id keeps the length and gains one unit on its
      entry (name, price, image and all other entries untouched); an unknown
      id appends exactly one entry with quantity 1 at the end. */
  lemma AddItemEffect(s: seq<Item>, id: string, name: string, price: int, image: Image)
    ensures var r := AddItem(s, id, name, price, image);
      && (HasId(s, id) ==>
            var i := IndexOf(s, id);
            && |r| == |s|
            && r[i] == s[i].(quantity := s[i].quantity + 1)
            && forall k :: 0 <= k < |s| && k != i ==> r[k] == s[k])
      && (!HasId(s, id) ==>
            |r| == |s| + 1 && r[..|s|] == s && r[|s|] == Item(id, name, price, image, 1))
  {
    var r := AddItem(s, id, name, price, image);
    if !HasId(s, id) {
      assert r[..|s|] == s;
    }
  }

  /** Add-or-increment keeps ids unique and quantities positive. */
  lemma AddItemKeepsValid(s: seq<Item>, id: string, name: string, price: int, image: Image)
    requires Valid(s)
    ensures Valid(AddItem(s, id, name, price, image))
  {
    var r := AddItem(s, id, name, price, image);
    if !HasId(s, id) {
      forall i, j | 0 <= i < j < |r| ensures r[i].id != r[j].id {
        if j == |s| {
          assert r[i] == s[i];
        }
      }
    }
  }

  /** Add-or-increment puts `id` into the set of ids and no other id. */
  lemma AddItemIds(s: seq<Item>, id: string, name: string, price: int, image: Image)
    ensures Ids(AddItem(s, id, name, price, image)) == Ids(s) + {id}
  {
    forall x ensures HasId(AddItem(s, id, name, price, image), x) <==> HasId(s, x) || x == id {
      AddItemHasId(s, id, name, price, image, x);
    }
  }

  /** One id at a time: after an add an id is carried exactly when it was
      carried before or is the added one. */
  lemma AddItemHasId(s: seq<Item>, id: string, name: string, price: int, image: Image, x: string)
    ensures HasId(AddItem(s, id, name, price, image), x) <==> HasId(s, x) || x == id
  {
    var r := AddItem(s, id, name, price, image);
    AddItemEffect(s, id, name, price, image);
    if HasId(r, x) && x != id {
      var k :| 0 <= k < |r| && r[k].id == x;
      assert s[k].id == x;
    }
    if HasId(s, x) {
      var k :| 0 <= k < |s| && s[k].id == x;
      assert r[k].id == x;
    }
    if x == id {
      var k := if HasId(s, id) then IndexOf(s, id) else |s|;
      assert r[k].id == x;
    }
  }

  /** Positions are looked up by id only, so changing a quantity moves no one. */
  lemma IndexOfBump(s: seq<Item>, i: nat, delta: int, x: string)
    requires i < |s|
    ensures IndexOf(Bump(s, i, delta), x) == IndexOf(s, x)
  {
    var r := Bump(s, i, delta);
    assert forall k :: 0 <= k < |s| ==> r[k].id == s[k].id;
  }

  /** An id first appended at the end is found there. */
  lemma IndexOfAppended(s: seq<Item>, x: Item)
    requires !HasId(s, x.id)
    ensures IndexOf(s + [x], x.id) == |s|
  {
    var r := s + [x];
    assert r[|s|].id == x.id;
    assert forall k :: 0 <= k < |s| ==> r[k] == s[k];
  }

  /** Adding a product already at position `i` `n` times in a row grows that
      entry's quantity by exactly `n` and moves nothing else. */
  lemma {:induction false} AddTimesKnown(s: seq<Item>, id: string, name: string, price: int, image: Image, n: nat)
    requires HasId(s, id)
    ensures AddTimes(s, id, name, price, image, n) == Bump(s, IndexOf(s, id), n)
  {
    var i := IndexOf(s, id);
    if n == 0 {
      BumpZero(s, i);
    } else {
      AddTimesKnown(s, id, name, price, image, n - 1);
      AddTimesStep(s, id, name, price, image, n);
    }
  }

  /** The inductive step: one more add after `n - 1` adds of a known product. */
  lemma AddTimesStep(s: seq<Item>, id: string, name: string, price: int, image: Image, n: nat)
    requires HasId(s, id) && n >= 1
    requires AddTimes(s, id, name, price, image, n - 1) == Bump(s, IndexOf(s, id), n - 1)
    ensures AddTimes(s, id, name, price, image, n) == Bump(s, IndexOf(s, id), n)
  {
    AddItemBumped(s, IndexOf(s, id), n - 1, name, price, image);
  }

  /** One more add of the product at `i` after its quantity moved by `k`
      moves it by `k + 1`. */
  lemma AddItemBumped(s: seq<Item>, i: nat, k: int, name: string, price: int, image: Image)
    requires i < |s| && IndexOf(s, s[i].id) == i
    ensures AddItem(Bump(s, i, k), s[i].id, name, price, image) == Bump(s, i, k + 1)
  {
    IndexOfBump(s, i, k, s[i].id);
    BumpTwice(s, i, k, 1);
  }

  /** Moving a quantity by 0 changes nothing. */
  lemma BumpZero(s: seq<Item>, i: nat)
    requires i < |s|
    ensures Bump(s, i, 0) == s
  {
    assert s[i].(quantity := s[i].quantity) == s[i];
  }

  /** Two moves of one entry's quantity add up. */
  lemma BumpTwice(s: seq<Item>, i: nat, a: int, b: int)
    requires i < |s|
    ensures Bump(Bump(s, i, a), i, b) == Bump(s, i, a + b)
  {
  }

  /** Adding a product not yet in the cart `n >= 1` times in a row leaves
      exactly one new entry for it, at the end, whose quantity is `n`. */
  lemma {:induction false} AddTimesNew(s: seq<Item>, id: string, name: string, price: int, image: Image, n: nat)
    requires !HasId(s, id) && n >= 1
    ensures AddTimes(s, id, name, price, image, n) == s + [Item(id, name, price, image, n)]
  {
    if n > 1 {
      AddTimesNew(s, id, name, price, image, n - 1);
      AddItemAppended(s, id, name, price, image, n - 1);
    }
  }

  /** One more add of a product that was appended with quantity `k` makes it `k + 1`. */
  lemma AddItemAppended(s: seq<Item>, id: string, name: string, price: int, image: Image, k: int)
    requires !HasId(s, id)
    ensures AddItem(s + [Item(id, name, price, image, k)], id, name, price, image)
         == s + [Item(id, name, price, image, k + 1)]
  {
    IndexOfAppended(s, Item(id, name, price, image, k));
  }

  // ---------------------------------------------------------------------
  // Removal

  /** Removal takes out exactly the entry with `id` and keeps the others in
      their original relative order: in a cart with unique ids it agrees with
      the filter `Without`. */
  lemma {:induction false} RemoveIdIsWithout(s: seq<Item>, id: string)
    requires Unique(s)
    ensures RemoveId(s, id) == Without(s, id)
  {
    if s == [] {
    } else if s[0].id == id {
      assert !HasId(s[1..], id) by {
        forall k | 0 <= k < |s[1..]| ensures s[1..][k].id != id {
          assert s[1..][k] == s[k + 1];
        }
      }
      WithoutAbsent(s[1..], id);
    } else {
      UniqueTail(s);
      RemoveIdIsWithout(s[1..], id);
      RemoveIdCons(s, id);
    }
  }

  /** Removal from a cart whose head carries another id keeps the head. */
  lemma RemoveIdCons(s: seq<Item>, id: string)
    requires s != [] && s[0].id != id
    ensures RemoveId(s, id) == [s[0]] + RemoveId(s[1..], id)
  {
    var t := IndexOf(s[1..], id);
    assert IndexOf(s, id) == if t >= 0 then t + 1 else -1;
    if t >= 0 {
      RemoveAtCons(s, t);
    } else {
      assert [s[0]] + s[1..] == s;
    }
  }

  /** Splicing out a position after the head keeps the head. */
  lemma RemoveAtCons(s: seq<Item>, t: nat)
    requires t + 1 < |s|
    ensures RemoveAt(s, t + 1) == [s[0]] + RemoveAt(s[1..], t)
  {
    assert s[1..][..t] == s[1..t + 1];
    assert s[1..][t + 1..] == s[t + 2..];
    assert s[..t + 1] == [s[0]] + s[1..t + 1];
  }

  /** The tail of a cart with unique ids has unique ids. */
  lemma UniqueTail(s: seq<Item>)
    requires s != [] && Unique(s)
    ensures Unique(s[1..])
  {
    forall i, j | 0 <= i < j < |s[1..]| ensures s[1..][i].id != s[1..][j].id {
      assert s[1..][i] == s[i + 1] && s[1..][j] == s[j + 1];
    }
  }

  /** Filtering out an id nobody carries changes nothing. */
  lemma {:induction false} WithoutAbsent(s: seq<Item>, id: string)
    requires !HasId(s, id)
    ensures Without(s, id) == s
  {
    if s != [] {
      assert s[0].id != id;
      assert !HasId(s[1..], id) by {
        forall k | 0 <= k < |s[1..]| ensures s[1..][k].id != id {
          assert s[1..][k] == s[k + 1];
        }
      }
      WithoutAbsent(s[1..], id);
      assert [s[0]] + s[1..] == s;
    }
  }

  /** Removing an entry from a valid cart leaves a valid cart. */
  lemma RemoveAtKeepsValid(s: seq<Item>, i: nat)
    requires Valid(s) && i < |s|
    ensures Valid(RemoveAt(s, i))
  {
    var r := RemoveAt(s, i);
    forall a, b | 0 <= a < b < |r| ensures r[a].id != r[b].id {
      var a' := if a < i then a else a + 1;
      var b' := if b < i then b else b + 1;
      assert r[a] == s[a'] && r[b] == s[b'];
    }
  }

  /** Removal by id keeps the store invariant, and the id is gone afterwards
      while every other id stays. */
  lemma RemoveIdEffect(s: seq<Item>, id: string)
    requires Valid(s)
    ensures Valid(RemoveId(s, id))
    ensures Ids(RemoveId(s, id)) == Ids(s) - {id}
    ensures !HasId(s, id) ==> RemoveId(s, id) == s
  {
    var i := IndexOf(s, id);
    if i >= 0 {
      RemoveAtKeepsValid(s, i);
      RemoveAtIds(s, i);
    }
  }

  /** Splicing out position `i` of a cart with unique ids takes exactly that
      entry's id out of the set of ids. */
  lemma RemoveAtIds(s: seq<Item>, i: nat)
    requires i < |s| && Unique(s)
    ensures Ids(RemoveAt(s, i)) == Ids(s) - {s[i].id}
  {
    forall x ensures HasId(RemoveAt(s, i), x) <==> HasId(s, x) && x != s[i].id {
      RemoveAtHasId(s, i, x);
    }
  }

  /** One id at a time: after the splice an id is carried exactly when it
      was carried before and is not the removed entry's id. */
  lemma RemoveAtHasId(s: seq<Item>, i: nat, x: string)
    requires i < |s| && Unique(s)
    ensures HasId(RemoveAt(s, i), x) <==> HasId(s, x) && x != s[i].id
  {
    var r := RemoveAt(s, i);
    if HasId(r, x) {
      var k :| 0 <= k < |r| && r[k].id == x;
      var k' := if k < i then k else k + 1;
      assert s[k'].id == x && k' != i;
    }
    if HasId(s, x) && x != s[i].id {
      var k :| 0 <= k < |s| && s[k].id == x;
      var k' := if k < i then k else k - 1;
      assert r[k'].id == x;
    }
  }

  // ---------------------------------------------------------------------
  // Quantity change

  /** A quantity change keeps the store invariant. */
  lemma ChangeQuantityKeepsValid(s: seq<Item>, id: string, change: int)
    requires Valid(s)
    ensures Valid(ChangeQuantity(s, id, change))
  {
    var i := IndexOf(s, id);
    if i >= 0 && s[i].quantity + change <= 0 {
      RemoveAtKeepsValid(s, i);
    }
  }

  /** In a valid cart the id survives a quantity change exactly when it was
      there and its new quantity is positive; so `change == -quantity` always
      removes it. Every other entry keeps its value and relative order. */
  lemma ChangeQuantityEffect(s: seq<Item>, id: string, change: int)
    requires Valid(s)
    ensures var r := ChangeQuantity(s, id, change);
      && (HasId(r, id) <==> HasId(s, id) && s[IndexOf(s, id)].quantity + change > 0)
      && (HasId(r, id) ==>
            var i := IndexOf(s, id);
            && |r| == |s| && IndexOf(r, id) == i
            && r[i] == s[i].(quantity := s[i].quantity + change))
      && Without(r, id) == Without(s, id)
  {
    var r := ChangeQuantity(s, id, change);
    var i := IndexOf(s, id);
    if i < 0 {
    } else if s[i].quantity + change <= 0 {
      RemoveIdIsWithout(s, id);
      assert r == RemoveId(s, id);
      WithoutIdempotent(s, id);
    } else {
      IndexOfBump(s, i, change, id);
      WithoutBump(s, i, change);
    }
  }

  /** Removing by id after moving that id's quantity removes the original
      entry: the lookup finds the same position, and the moved quantity goes
      out with the entry. */
  lemma RemoveBumped(s: seq<Item>, id: string, delta: int)
    requires HasId(s, id)
    ensures RemoveId(Bump(s, IndexOf(s, id), delta), id) == RemoveAt(s, IndexOf(s, id))
  {
    var i := IndexOf(s, id);
    IndexOfBump(s, i, delta, id);
    var b := Bump(s, i, delta);
    assert b[..i] == s[..i] && b[i + 1..] == s[i + 1..];
  }

  /** Filtering twice is filtering once. */
  lemma WithoutIdempotent(s: seq<Item>, id: string)
    ensures Without(Without(s, id), id) == Without(s, id)
  {
    WithoutAbsent(Without(s, id), id);
  }

  /** Changing the quantity of an entry carrying `id` is invisible once `id`
      is filtered out. */
  lemma {:induction false} WithoutBump(s: seq<Item>, i: nat, delta: int)
    requires i < |s|
    ensures Without(Bump(s, i, delta), s[i].id) == Without(s, s[i].id)
  {
    var id := s[i].id;
    var r := Bump(s, i, delta);
    if i == 0 {
      assert r[1..] == s[1..];
    } else {
      assert r[0] == s[0];
      assert r[1..] == Bump(s[1..], i - 1, delta);
      WithoutBump(s[1..], i - 1, delta);
    }
  }

  /** Scenario: a cart holding one entry of quantity 1 is empty after a change of -1. */
  lemma DecrementLastUnitEmpties(x: Item)
    requires x.quantity == 1
    ensures ChangeQuantity([x], x.id, -1) == []
  {
    assert IndexOf([x], x.id) == 0;
  }
}
