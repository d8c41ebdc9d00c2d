/**
 The checkout composer: the order message sent to the shop's WhatsApp
 number. Line breaks inside the message are the literal text "%0A"; no
 other part of the message is escaped.
 */
module Checkout {
  import opened LineItems
  import opened Pricing
  import opened Format

  /** The line break of the message, already in URL form. */
  const Separator := "%0A"

  /** The chat address the message is appended to. */
  const WaPrefix := "https://wa.me/6282359486948?text="

  const TransferLabel := "Transfer Bank"
  const EWalletLabel := "E-Wallet"
  const CodLabel := "COD (Bayar di Tempat)"
  const LocalLabel := "Dalam Daerah ( Lombok )"

  /** `part` occurs in `s` starting at position `i`. */
  predicate At(s: string, i: nat, part: string)
  {
    i + |part| <= |s| && s[i..i + |part|] == part
  }

  /** One itemisation line: name, quantity and unit price. */
  function ItemLine(x: Item): string
  {
    "- " + x.name + " (" + IntText(x.quantity) + "x) @ Rp " + FormatAmount(x.price)
  }

  /** The itemisation lines, one per entry, in cart order. */
  function ItemLines(s: seq<Item>): (r: seq<string>)
    ensures |r| == |s|
    ensures forall k :: 0 <= k < |s| ==> r[k] == ItemLine(s[k])
  {
    if s == [] then []
    else
      var t := ItemLines(s[1..]);
      assert forall k :: 1 <= k < |s| ==> ([ItemLine(s[0])] + t)[k] == t[k - 1];
      [ItemLine(s[0])] + t
  }

  /** The lines glued with `sep` between neighbours, as `Array.prototype.join` does. */
  function Join(lines: seq<string>, sep: string): string
  {
    if lines == [] then ""
    else if |lines| == 1 then lines[0]
    else lines[0] + sep + Join(lines[1..], sep)
  }

  /** The itemisation block of the message. */
  function ItemsList(s: seq<Item>): string
  {
    Join(ItemLines(s), Separator)
  }

  /** The payment label: bank transfer, e-wallet, and cash on delivery for
      every other value. */
  function PaymentLabel(payment: string): (r: string)
    ensures r == TransferLabel <==> payment == "transfer"
    ensures r == EWalletLabel <==> payment == "ewallet"
    ensures r == CodLabel <==> payment != "transfer" && payment != "ewallet"
  {
    if payment == "transfer" then TransferLabel
    else if payment == "ewallet" then EWalletLabel
    else CodLabel
  }

  /** The shipping label: the local label for the "local" region, otherwise
      the shown text of the selected service in parentheses. */
  function ShippingLabel(region: string, serviceText: string): string
  {
    if region == "local" then LocalLabel else "Luar Daerah (" + serviceText + ")"
  }

  /** The greeting and the customer's data, up to where the items start. */
  function CustomerBlock(name: string, phone: string, address: string): string
  {
    "Halo Tenun Pringgasela, saya ingin memesan:%0A%0A*Data Pemesan:*%0ANama: " + name
      + "%0AHP: " + phone + "%0AAlamat: " + address + "%0A%0A*Detail Pesanan:*%0A"
  }

  /** The fixed texts around the three figures. */
  const FiguresHead := "%0A%0A--------------------------------%0ASubtotal: Rp "
  const ShippingHead := "%0AOngkos Kirim: Rp "
  const TotalHead := "%0A*Total: Rp "
  const FiguresEnd := "*%0A--------------------------------%0A%0A"

  /** The subtotal, shipping and total figures between two rules. */
  function FiguresBlock(t: Totals): string
  {
    FiguresHead + FormatAmount(t.subtotal) + ShippingHead + FormatAmount(t.shipping)
      + TotalHead + FormatAmount(t.total) + FiguresEnd
  }

  /** The shipping and payment labels and the closing request. */
  function ClosingBlock(shippingText: string, methodText: string): string
  {
    "Pengiriman: " + shippingText + "%0AMetode Pembayaran: " + methodText
      + "%0A%0AMohon konfirmasi pesanan ini. Terima kasih!"
  }

  /** The whole order message. */
  function Message(name: string, phone: string, address: string, itemsList: string,
                   t: Totals, shippingText: string, methodText: string): string
  {
    CustomerBlock(name, phone, address) + itemsList + FiguresBlock(t) + ClosingBlock(shippingText, methodText)
  }

  /** What a checkout submission produces: the refusal of an empty cart, or
      the chat address carrying the order. */
  datatype Order = EmptyCartError | Handoff(url: string)

  /** Checkout composition: an empty cart is refused; otherwise the totals
      for the shipping selection, the itemisation, the labels and the
      customer's data make up the message behind the fixed chat address. */
  function Compose(items: seq<Item>, name: string, phone: string, address: string,
                   region: string, service: string, serviceText: string, payment: string): (r: Order)
    ensures r.EmptyCartError? <==> items == []
    ensures r.Handoff? ==> At(r.url, 0, WaPrefix)
  {
    if items == [] then EmptyCartError
    else
      var m := Message(name, phone, address, ItemsList(items), ComputeTotals(items, region, service),
                       ShippingLabel(region, serviceText), PaymentLabel(payment));
      AtConcat(WaPrefix, m);
      Handoff(WaPrefix + m)
  }

  // ---------------------------------------------------------------------
  // The itemisation

  /** Each of two glued strings sits where expected. */
  lemma AtConcat(a: string, b: string)
    ensures At(a + b, 0, a) && At(a + b, |a|, b)
  {
  }

  /** Joining two non-empty runs of lines puts one separator between them. */
  lemma {:induction false} JoinConcat(a: seq<string>, b: seq<string>, sep: string)
    requires a != [] && b != []
    ensures Join(a + b, sep) == Join(a, sep) + sep + Join(b, sep)
  {
    if |a| == 1 {
      assert (a + b)[1..] == b;
    } else {
      assert (a + b)[1..] == a[1..] + b;
      JoinConcat(a[1..], b, sep);
    }
  }

  /** The itemisation of two carts side by side is theirs joined by "%0A". */
  lemma ItemsListConcat(a: seq<Item>, b: seq<Item>)
    requires a != [] && b != []
    ensures ItemsList(a + b) == ItemsList(a) + Separator + ItemsList(b)
  {
    assert ItemLines(a + b) == ItemLines(a) + ItemLines(b);
    JoinConcat(ItemLines(a), ItemLines(b), Separator);
  }

  /** Line `k` of a join sits between the join of the lines before it and
      the join of the lines after it, with one separator on each side that
      has lines. */
  lemma JoinAround(lines: seq<string>, sep: string, k: nat)
    requires k < |lines|
    ensures Join(lines, sep)
         == (if k == 0 then "" else Join(lines[..k], sep) + sep)
          + lines[k]
          + (if k == |lines| - 1 then "" else sep + Join(lines[k + 1..], sep))
  {
    var x := lines[k];
    var tail := lines[k..];
    if k < |lines| - 1 {
      assert tail == [x] + lines[k + 1..];
      JoinConcat([x], lines[k + 1..], sep);
    } else {
      assert tail == [x];
    }
    if k > 0 {
      assert lines == lines[..k] + tail;
      JoinConcat(lines[..k], tail, sep);
    } else {
      assert lines == tail;
    }
  }

  /** The itemisation has one line per entry, in cart order, joined by
      "%0A": entry `k`'s line comes after the lines of the entries before it
      and before the lines of the entries after it, with one "%0A" on each
      side that has lines. */
  lemma ItemsListAround(s: seq<Item>, k: nat)
    requires k < |s|
    ensures ItemsList(s)
         == (if k == 0 then "" else ItemsList(s[..k]) + Separator)
          + ItemLine(s[k])
          + (if k == |s| - 1 then "" else Separator + ItemsList(s[k + 1..]))
  {
    var lines := ItemLines(s);
    JoinAround(lines, Separator, k);
    assert lines[..k] == ItemLines(s[..k]);
    assert lines[k + 1..] == ItemLines(s[k + 1..]);
  }

  // ---------------------------------------------------------------------
  // Labels and the message

  /** The labels agree with the cost: the "local" region is free and labelled
      local, and whenever shipping costs something the label names the
      selected service. */
  lemma ShippingLabelMatchesCost(region: string, service: string, serviceText: string)
    ensures region == "local" ==> ShippingCost(region, service) == 0 && ShippingLabel(region, serviceText) == LocalLabel
    ensures ShippingCost(region, service) > 0 ==> ShippingLabel(region, serviceText) == "Luar Daerah (" + serviceText + ")"
  {
  }

  /** The three figures in the message read back as the pricing engine's
      subtotal, shipping cost, and their sum. */
  lemma FiguresReadBack(items: seq<Item>, region: string, service: string)
    ensures var t := ComputeTotals(items, region, service);
      var f := FiguresBlock(t);
      var a, b, c := FormatAmount(t.subtotal), FormatAmount(t.shipping), FormatAmount(t.total);
      var i := |FiguresHead|;
      var j := i + |a| + |ShippingHead|;
      var k := j + |b| + |TotalHead|;
      && At(f, i, a) && At(f, j, b) && At(f, k, c)
      && ParseAmount(a) == Some(Subtotal(items))
      && ParseAmount(b) == Some(ShippingCost(region, service))
      && ParseAmount(c) == Some(Subtotal(items) + ShippingCost(region, service))
  {
    var t := ComputeTotals(items, region, service);
    var a, b, c := FormatAmount(t.subtotal), FormatAmount(t.shipping), FormatAmount(t.total);
    FormatAmountRoundTrip(t.subtotal);
    FormatAmountRoundTrip(t.shipping);
    FormatAmountRoundTrip(t.total);
    Interleaved(FiguresHead, a, ShippingHead, b, TotalHead, c, FiguresEnd);
  }

  /** Where the three values sit among four fixed texts. */
  lemma Interleaved(p: string, a: string, q: string, b: string, r: string, c: string, e: string)
    ensures var s := p + a + q + b + r + c + e;
      && At(s, |p|, a)
      && At(s, |p| + |a| + |q|, b)
      && At(s, |p| + |a| + |q| + |b| + |r|, c)
  {
    var s := p + a + q + b + r + c + e;
    assert s[|p|..|p| + |a|] == a;
    assert s[|p| + |a| + |q|..|p| + |a| + |q| + |b|] == b;
    assert s[|p| + |a| + |q| + |b| + |r|..|p| + |a| + |q| + |b| + |r| + |c|] == c;
  }

  /** Scenario: the handoff address of a non-empty cart carries, after the
      chat prefix and the customer's data, the itemisation and then the
      subtotal, shipping cost and total, each reading back as the pricing
      engine's figure, followed by the labels. */
  lemma ComposeShowsCart(items: seq<Item>, name: string, phone: string, address: string,
                         region: string, service: string, serviceText: string, payment: string)
    requires items != []
    ensures var url := Compose(items, name, phone, address, region, service, serviceText, payment).url;
      var t := ComputeTotals(items, region, service);
      var a, b, c := FormatAmount(t.subtotal), FormatAmount(t.shipping), FormatAmount(t.total);
      && url == WaPrefix + CustomerBlock(name, phone, address) + ItemsList(items)
                + FiguresHead + a + ShippingHead + b + TotalHead + c + FiguresEnd
                + ClosingBlock(ShippingLabel(region, serviceText), PaymentLabel(payment))
      && ParseAmount(a) == Some(Subtotal(items))
      && ParseAmount(b) == Some(ShippingCost(region, service))
      && ParseAmount(c) == Some(Subtotal(items) + ShippingCost(region, service))
  {
    var t := ComputeTotals(items, region, service);
    ComposeUrl(items, name, phone, address, region, service, serviceText, payment);
    FormatAmountRoundTrip(t.subtotal);
    FormatAmountRoundTrip(t.shipping);
    FormatAmountRoundTrip(t.total);
    var url := Compose(items, name, phone, address, region, service, serviceText, payment).url;
    Regroup(url, WaPrefix, CustomerBlock(name, phone, address), ItemsList(items), FiguresBlock(t),
            FiguresHead, FormatAmount(t.subtotal), ShippingHead, FormatAmount(t.shipping),
            TotalHead, FormatAmount(t.total), FiguresEnd,
            ClosingBlock(ShippingLabel(region, serviceText), PaymentLabel(payment)));
  }

  /** The address of a non-empty cart is the chat prefix followed by the
      four parts of the message. */
  lemma ComposeUrl(items: seq<Item>, name: string, phone: string, address: string,
                   region: string, service: string, serviceText: string, payment: string)
    requires items != []
    ensures Compose(items, name, phone, address, region, service, serviceText, payment).url
         == WaPrefix + (CustomerBlock(name, phone, address) + ItemsList(items)
                        + FiguresBlock(ComputeTotals(items, region, service))
                        + ClosingBlock(ShippingLabel(region, serviceText), PaymentLabel(payment)))
  {
  }

  /** Regrouping a concatenation after one of its parts is spelled out. */
  lemma Regroup(url: string, w: string, c: string, l: string, f: string, p: string, a: string,
                q: string, b: string, r: string, x: string, e: string, z: string)
    requires url == w + (c + l + f + z)
    requires f == p + a + q + b + r + x + e
    ensures url == w + c + l + p + a + q + b + r + x + e + z
  {
  }

  /** Scenario: two distinct entries give their two lines in insertion order
      around one "%0A". */
  lemma TwoEntriesInOrder(x: Item, y: Item)
    ensures ItemsList([x, y]) == ItemLine(x) + Separator + ItemLine(y)
  {
    ItemsListConcat([x], [y]);
    assert [x] + [y] == [x, y];
  }
}
