/**
 * The order receipt's pricing: the subtotal fold over the design (base cake,
 * one line per decoration, the message surcharge), the 8% tax and the
 * total, and the price lines the receipt displays. Amounts are exact
 * decimals (`real`); currency formatting is not part of this model.
 */
module Receipt {
  import opened Js
  import opened Elements
  import opened CakeContext

  /** What the receipt reads from the design: `basePrice`, the `price` of each
      entry of `elements` (an absent or empty list is the empty sequence) and
      `message`. */
  datatype ReceiptData = ReceiptData(basePrice: Option<Json>, prices: seq<Option<Json>>, message: Option<Json>)

  const BasePriceDefault: real := 25.0
  const ElementPriceDefault: real := 3.5
  const MessageCharge: real := 5.0
  const TaxRate: real := 0.08

  /** `price || fallback` as an amount. A falsy price (absent, null, 0, "")
      gives the fallback; a truthy price that is not a number makes `+=`
      concatenate or coerce, which is not an amount: `None`. */
  function Amount(price: Option<Json>, fallback: real): (r: Option<real>)
    ensures !Truthy(price) ==> r == Some(fallback)
    ensures Truthy(price) && price.value.JNum? ==> r == Some(price.value.n) && r != Some(0.0)
    ensures r.None? <==> Truthy(price) && !price.value.JNum?
  {
    if !Truthy(price) then Some(fallback)
    else if price.value.JNum? then Some(price.value.n)
    else None
  }

  /** Addition of amounts; a non-amount absorbs everything added to it. */
  function Plus(x: Option<real>, y: Option<real>): (r: Option<real>)
    ensures r.Some? <==> x.Some? && y.Some?
    ensures r.Some? ==> r.value == x.value + y.value
  {
    if x.Some? && y.Some? then Some(x.value + y.value) else None
  }

  /** The decorations' contribution, accumulated front to back; one price
      that is not an amount spoils the whole sum. */
  function ElementsTotal(prices: seq<Option<Json>>): (r: Option<real>)
    ensures r.None? <==> exists i :: 0 <= i < |prices| && Amount(prices[i], ElementPriceDefault).None?
    decreases |prices|
  {
    if prices == [] then Some(0.0)
    else Plus(ElementsTotal(prices[..|prices| - 1]), Amount(prices[|prices| - 1], ElementPriceDefault))
  }

  function MessageAmount(message: Option<Json>): real
  {
    if Truthy(message) then MessageCharge else 0.0
  }

  /** The subtotal: `basePrice || 25`, plus `price || 3.50` per decoration, plus
      5 when there is a message. */
  function Subtotal(d: ReceiptData): (r: Option<real>)
    ensures r.None? <==> Amount(d.basePrice, BasePriceDefault).None? ||
                         exists i :: 0 <= i < |d.prices| && Amount(d.prices[i], ElementPriceDefault).None?
    ensures r.Some? && !Truthy(d.message) ==> r == Plus(Amount(d.basePrice, BasePriceDefault), ElementsTotal(d.prices))
    ensures r.Some? && Truthy(d.message) ==>
              r.value == Amount(d.basePrice, BasePriceDefault).value + ElementsTotal(d.prices).value + MessageCharge
  {
    Plus(Plus(Amount(d.basePrice, BasePriceDefault), ElementsTotal(d.prices)), Some(MessageAmount(d.message)))
  }

  /** `calculateSubtotal`: start from the base price, add each decoration's
      price in turn, then the message surcharge. */
  method CalculateSubtotal(d: ReceiptData) returns (subtotal: Option<real>)
    ensures subtotal == Subtotal(d)
  {
    subtotal := Amount(d.basePrice, BasePriceDefault);
    var i := 0;
    while i < |d.prices|
      invariant 0 <= i <= |d.prices|
      invariant subtotal == Plus(Amount(d.basePrice, BasePriceDefault), ElementsTotal(d.prices[..i]))
    {
      assert d.prices[..i + 1][..i] == d.prices[..i];
      subtotal := Plus(subtotal, Amount(d.prices[i], ElementPriceDefault));
      i := i + 1;
    }
    assert d.prices[..i] == d.prices;
    if Truthy(d.message) {
      subtotal := Plus(subtotal, Some(MessageCharge));
    } else {
      subtotal := Plus(subtotal, Some(0.0));
    }
  }

  /** `subtotal * taxRate` */
  function Tax(subtotal: real): (t: real)
    ensures subtotal >= 0.0 ==> 0.0 <= t <= subtotal
  {
    subtotal * TaxRate
  }

  /** `subtotal + tax` */
  function Total(subtotal: real): (t: real)
    ensures t - Tax(subtotal) == subtotal
  {
    subtotal + Tax(subtotal)
  }

  /** The total is the subtotal grown by 8%, never below it for a non-negative subtotal. */
  lemma TotalIsSubtotalWithTax(subtotal: real)
    ensures Total(subtotal) == subtotal * 1.08
    ensures subtotal >= 0.0 ==> Total(subtotal) >= subtotal
  {
  }

  /** With no decorations and no message the subtotal is the base price line. */
  lemma SubtotalOfBareCake(d: ReceiptData)
    requires d.prices == [] && !Truthy(d.message)
    ensures Subtotal(d) == Amount(d.basePrice, BasePriceDefault)
    ensures d.basePrice.None? ==> Subtotal(d) == Some(25.0)
  {
  }

  /** Appending a decoration raises the subtotal by exactly its `price || 3.50`. */
  lemma SubtotalAppend(d: ReceiptData, price: Option<Json>)
    ensures Subtotal(d.(prices := d.prices + [price])) == Plus(Subtotal(d), Amount(price, ElementPriceDefault))
  {
  }

  /** Without a base price and with every decoration unpriced, the subtotal is
      25 plus 3.50 per decoration plus 5 for a message. */
  lemma {:induction false} SubtotalAllDefaults(d: ReceiptData)
    requires d.basePrice.None?
    requires forall i :: 0 <= i < |d.prices| ==> !Truthy(d.prices[i])
    ensures Subtotal(d) == Some(25.0 + 3.5 * |d.prices| as real + MessageAmount(d.message))
    decreases |d.prices|
  {
    if d.prices != [] {
      var shorter := d.(prices := d.prices[..|d.prices| - 1]);
      SubtotalAllDefaults(shorter);
      SubtotalAppend(shorter, d.prices[|d.prices| - 1]);
      assert shorter.prices + [d.prices[|d.prices| - 1]] == d.prices;
    }
  }

  // ------------------------------------------------------------ the lines

  /** The sum of a column of displayed amounts. */
  function SumLines(lines: seq<Option<real>>): Option<real>
    decreases |lines|
  {
    if lines == [] then Some(0.0) else Plus(SumLines(lines[..|lines| - 1]), lines[|lines| - 1])
  }

  function ElementLines(prices: seq<Option<Json>>): (r: seq<Option<real>>)
    ensures |r| == |prices|
    ensures forall i :: 0 <= i < |prices| ==> r[i] == Amount(prices[i], ElementPriceDefault)
  {
    seq(|prices|, i requires 0 <= i < |prices| => Amount(prices[i], ElementPriceDefault))
  }

  /** The Price column: the cake at `basePrice || 25`, the message at 5 when
      there is one, then each decoration at `price || 3.50`. */
  function DisplayedLines(d: ReceiptData): (r: seq<Option<real>>)
    ensures |r| == 1 + (if Truthy(d.message) then 1 else 0) + |d.prices|
    ensures r[0] == Amount(d.basePrice, BasePriceDefault)
    ensures Truthy(d.message) ==> r[1] == Some(MessageCharge)
    ensures forall i :: 0 <= i < |d.prices| ==> r[|r| - |d.prices| + i] == Amount(d.prices[i], ElementPriceDefault)
  {
    [Amount(d.basePrice, BasePriceDefault)]
      + (if Truthy(d.message) then [Some(MessageCharge)] else [])
      + ElementLines(d.prices)
  }

  lemma {:induction false} SumLinesAppend(a: seq<Option<real>>, b: seq<Option<real>>)
    ensures SumLines(a + b) == Plus(SumLines(a), SumLines(b))
    decreases |b|
  {
    if b == [] {
      assert a + b == a;
    } else {
      var b' := b[..|b| - 1];
      assert (a + b)[..|a + b| - 1] == a + b';
      SumLinesAppend(a, b');
    }
  }

  lemma {:induction false} ElementLinesSum(prices: seq<Option<Json>>)
    ensures SumLines(ElementLines(prices)) == ElementsTotal(prices)
    decreases |prices|
  {
    if prices != [] {
      var shorter := prices[..|prices| - 1];
      ElementLinesSum(shorter);
      assert ElementLines(prices)[..|prices| - 1] == ElementLines(shorter);
    }
  }

  /** The displayed line prices add up to the subtotal (the message line
      comes before the decorations on screen, after them in the fold). */
  lemma DisplayedLinesSum(d: ReceiptData)
    ensures SumLines(DisplayedLines(d)) == Subtotal(d)
  {
    var head := [Amount(d.basePrice, BasePriceDefault)];
    var msg: seq<Option<real>> := if Truthy(d.message) then [Some(MessageCharge)] else [];
    SumLinesAppend(head + msg, ElementLines(d.prices));
    SumLinesAppend(head, msg);
    ElementLinesSum(d.prices);
    assert SumLines(head) == Amount(d.basePrice, BasePriceDefault) by {
      assert head[..0] == [];
    }
    assert SumLines(msg) == Some(MessageAmount(d.message)) by {
      if msg != [] { assert msg[..0] == []; }
    }
  }

  // ------------------------------------------------- from the cake design

  /** The price a receipt reads off an element: a live element's own `price`;
      a record passed through by a rebuild has no top-level `price`. */
  function PriceOf(e: ElementSlot): Option<Json>
    reads if e.LiveElement? then {e.model} else {}
  {
    match e
    case LiveElement(m) => m.price
    case PlainElement(_) => None
  }

  function ElementPrices(es: seq<ElementSlot>): (r: seq<Option<Json>>)
    reads ElementObjects(es)
    ensures |r| == |es|
    ensures forall i :: 0 <= i < |es| ==> r[i] == PriceOf(es[i])
    decreases |es|
  {
    if es == [] then []
    else
      assert ElementObjects(es[1..]) <= ElementObjects(es) by {
        forall x | x in es[1..] ensures x in es { }
      }
      [PriceOf(es[0])] + ElementPrices(es[1..])
  }

  /** The receipt of the live design: the state has no `basePrice`, so the
      base line is always 25. */
  function FromDesign(d: Design): (r: ReceiptData)
    reads ElementObjects(d.elements)
    ensures r.basePrice.None? && Amount(r.basePrice, BasePriceDefault) == Some(25.0)
    ensures |r.prices| == |d.elements|
    ensures forall i :: 0 <= i < |d.elements| ==> r.prices[i] == PriceOf(d.elements[i])
    ensures r.message == AttrOf(d.attrs, Message)
  {
    ReceiptData(None, ElementPrices(d.elements), AttrOf(d.attrs, Message))
  }

  lemma {:induction false} ElementPricesAppend(es: seq<ElementSlot>, e: ElementSlot)
    ensures ElementPrices(es + [e]) == ElementPrices(es) + [PriceOf(e)]
    decreases |es|
  {
    if es == [] {
      assert [e][1..] == [];
    } else {
      assert (es + [e])[1..] == es[1..] + [e];
      ElementPricesAppend(es[1..], e);
    }
  }

  /** An element added without a truthy price gets the reducer's default
      price 0, which is falsy, so the receipt bills it at 3.50. */
  lemma AddedElementBilledDefault(d: Design, m: ElementModel, props: Option<Json>, uniqueId: string)
    requires m.Fields() == NewElementFields(props, uniqueId)
    requires !Truthy(Get(props, "price"))
    ensures m.price == Some(JNum(0.0))
    ensures Subtotal(FromDesign(d.(elements := d.elements + [LiveElement(m)])))
            == Plus(Subtotal(FromDesign(d)), Some(ElementPriceDefault))
  {
    ElementPricesAppend(d.elements, LiveElement(m));
    SubtotalAppend(FromDesign(d), m.price);
    assert FromDesign(d.(elements := d.elements + [LiveElement(m)]))
           == FromDesign(d).(prices := FromDesign(d).prices + [m.price]);
  }
}
