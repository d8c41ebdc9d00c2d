/**
 The shop page's cart: the in-memory array of entries that the product
 buttons, the quantity controls, the remove buttons and the checkout form
 update in place. Each operation is proved against its function on the
 sequence of entries, and every operation keeps the store invariant.
 */
module Shop {
  import opened LineItems
  import opened Pricing
  import opened Checkout

  class Cart {
    /** The entries in insertion order. */
    var items: seq<Item>

    /** Ids are unique and every quantity is at least 1. */
    ghost predicate Valid()
      reads this
    {
      LineItems.Valid(items)
    }

    /** The page starts with an empty cart. */
    constructor()
      ensures items == [] && Valid()
    {
      items := [];
    }

    /** Linear search for the first entry carrying `id`; -1 when there is none. */
    method FindIndex(id: string) returns (i: int)
      ensures i == IndexOf(items, id)
    {
      i := 0;
      while i < |items|
        invariant 0 <= i <= |items|
        invariant forall k :: 0 <= k < i ==> items[k].id != id
      {
        if items[i].id == id {
          return;
        }
        i := i + 1;
      }
      i := -1;
    }

    /** A product button: a known id gains one unit in place, an unknown id is
        appended with quantity 1 and the captured image. */
    method Add(id: string, name: string, price: int, image: Image)
      modifies this
      ensures items == AddItem(old(items), id, name, price, image)
      ensures old(Valid()) ==> Valid()
    {
      ghost var was := items;
      var i := FindIndex(id);
      if i >= 0 {
        items := items[i := items[i].(quantity := items[i].quantity + 1)];
      } else {
        items := items + [Item(id, name, price, image, 1)];
      }
      if LineItems.Valid(was) {
        AddItemKeepsValid(was, id, name, price, image);
      }
    }

    /** The remove button: the first entry carrying `id` is spliced out; an
        unknown id changes nothing. */
    method Remove(id: string)
      modifies this
      ensures items == RemoveId(old(items), id)
      ensures old(Valid()) ==> Valid()
    {
      ghost var was := items;
      var index := FindIndex(id);
      if index > -1 {
        items := items[..index] + items[index + 1..];
      }
      if LineItems.Valid(was) {
        RemoveIdEffect(was, id);
      }
    }

    /** The quantity controls: the entry's quantity moves by `change` in
        place, and the entry is removed by id when the new quantity is 0 or
        less; an unknown id changes nothing. */
    method UpdateQuantity(id: string, change: int)
      modifies this
      ensures items == ChangeQuantity(old(items), id, change)
      ensures old(Valid()) ==> Valid()
    {
      ghost var was := items;
      var i := FindIndex(id);
      if i >= 0 {
        items := items[i := items[i].(quantity := items[i].quantity + change)];
        assert items == Bump(was, i, change);
        if items[i].quantity <= 0 {
          RemoveBumped(was, id, change);
          Remove(id);
        }
      }
      assert items == ChangeQuantity(was, id, change);
      if LineItems.Valid(was) {
        ChangeQuantityKeepsValid(was, id, change);
      }
    }

    /** Empties the cart after a checkout. */
    method Clear()
      modifies this
      ensures items == [] && Valid()
    {
      items := [];
    }

    /** The render loop's running sums: the subtotal and the badge count. */
    method RenderTotals() returns (total: int, itemCount: int)
      ensures total == Subtotal(items)
      ensures itemCount == ItemCount(items)
    {
      total, itemCount := 0, 0;
      var i := 0;
      while i < |items|
        invariant 0 <= i <= |items|
        invariant total == Subtotal(items[..i])
        invariant itemCount == ItemCount(items[..i])
      {
        SumsSnoc(items[..i], items[i]);
        assert items[..i + 1] == items[..i] + [items[i]];
        total := total + items[i].price * items[i].quantity;
        itemCount := itemCount + items[i].quantity;
        i := i + 1;
      }
      assert items[..i] == items;
    }

    /** The totals for the shipping selection: the subtotal of the cart, the
        tier rate when the region is inter-regional, and their sum. */
    method TotalWithShipping(region: string, service: string) returns (t: Totals)
      ensures t == ComputeTotals(items, region, service)
    {
      var total, _ := RenderTotals();
      var shippingCost := 0;
      if region == "interlocal" {
        if service == "regular" {
          shippingCost := 25000;
        } else if service == "fast" {
          shippingCost := 50000;
        } else if service == "cargo" {
          shippingCost := 100000;
        }
      }
      t := Totals(total, shippingCost, total + shippingCost);
    }

    /** The checkout form: an empty cart is refused and left alone; otherwise
        the order message is composed from the current cart and the form's
        values, and the cart is emptied. */
    method Submit(name: string, phone: string, address: string, region: string,
                  service: string, serviceText: string, payment: string) returns (r: Order)
      modifies this
      ensures r == Compose(old(items), name, phone, address, region, service, serviceText, payment)
      ensures r.EmptyCartError? ==> items == old(items)
      ensures r.Handoff? ==> items == [] && Valid()
    {
      if |items| == 0 {
        return EmptyCartError;
      }
      var t := TotalWithShipping(region, service);
      var message := Message(name, phone, address, ItemsList(items), t,
                             ShippingLabel(region, serviceText), PaymentLabel(payment));
      r := Handoff(WaPrefix + message);
      Clear();
    }
  }
}
