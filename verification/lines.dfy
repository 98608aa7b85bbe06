/** The invoice lines `_add_line_items` appends, one per item in input order.
    Every line amount is declared in "SAR", and the line's own tax is 15% of
    the line total whatever rate the invoice carries. A line is built in two
    steps: the texts it prints are computed from the item (`LineTextsOf`),
    then laid out as a fixed tree (`LineTree`). */
module Lines {
  import opened Wrappers
  import opened Digits
  import opened Amounts
  import opened Vocabulary
  import opened Xml
  import opened Record

  const LineTag := CacTag(InvoiceLine)
  const LineTaxTag := CacTag(TaxTotal)
  const ItemTag := CacTag(Item)
  const CategoryTag := CacTag(ClassifiedTaxCategory)
  const PriceTag := CacTag(Price)
  const AllowanceTag := CacTag(AllowanceCharge)

  /** The children of a line and of its parts, each in document order. */
  const LineTags: seq<QName> := [
    CbcTag(ID), CbcTag(InvoicedQuantity), CbcTag(LineExtensionAmount), LineTaxTag, ItemTag, PriceTag]
  const LineTaxTags: seq<QName> := [CbcTag(TaxAmount), CbcTag(RoundingAmount)]
  const ItemTags: seq<QName> := [CbcTag(Name), CategoryTag]
  const CategoryTags: seq<QName> := [CbcTag(ID), CbcTag(Percent), CacTag(TaxScheme)]
  const PriceTags: seq<QName> := [CbcTag(PriceAmount), AllowanceTag]
  const AllowanceTags: seq<QName> := [
    CbcTag(ChargeIndicator), CbcTag(AllowanceChargeReason), CbcTag(Amount), CbcTag(BaseAmount)]

  /** The currency every line amount is declared in. */
  const LineCurrency := "SAR"

  /** `str(item['id'])`. */
  function ItemIdText(id: ItemId): string {
    match id
    case NumericId(n) => IntToString(n)
    case TextId(t) => t
  }

  /** The name of an unnamed item: `Item <position counted from 1>`. */
  function DefaultItemName(i: nat): string {
    "Item " + NatToString(i + 1)
  }

  /** The texts a line prints. */
  datatype LineTexts = LineTexts(
    id: string,
    quantity: string,
    unitCode: string,
    total: string,
    tax: string,
    rounding: string,
    name: string,
    price: string)

  /** The texts for the item at position `i` (counted from 0). */
  function LineTextsOf(i: nat, item: LineItem): LineTexts {
    LineTexts(
      ItemIdText(item.id),
      FormatAmount(item.quantity),
      item.unitCode.GetOr("PCE"),
      FormatAmount(LineTotal(item)),
      FormatAmount(LineTax(item)),
      FormatAmount(LineGross(item)),
      item.name.GetOr(DefaultItemName(i)),
      FormatAmount(item.price))
  }

  function LineAmount(local: Local, text: string): Element {
    Money(CbcTag(local), LineCurrency, text)
  }

  /** The standard-rated category every item is classified under. */
  const StandardCategory := Node(CategoryTag, [
    Leaf(CbcTag(ID), "S"),
    Leaf(CbcTag(Percent), "15"),
    Node(CacTag(TaxScheme), [Leaf(CbcTag(ID), "VAT")])])

  /** The fixed layout of a line around its texts. */
  function LineTree(t: LineTexts): Element {
    Node(LineTag, [
      Leaf(CbcTag(ID), t.id),
      Element(CbcTag(InvoicedQuantity), [Attr(UnitCode, t.unitCode)], t.quantity, []),
      LineAmount(LineExtensionAmount, t.total),
      Node(LineTaxTag, [LineAmount(TaxAmount, t.tax), LineAmount(RoundingAmount, t.rounding)]),
      Node(ItemTag, [Leaf(CbcTag(Name), t.name), StandardCategory]),
      Node(PriceTag, [
        LineAmount(PriceAmount, t.price),
        Node(AllowanceTag, [
          Leaf(CbcTag(ChargeIndicator), "false"),
          Leaf(CbcTag(AllowanceChargeReason), "Discount"),
          LineAmount(Amount, "0.00"),
          LineAmount(BaseAmount, t.price)])])])
  }

  /** The line for the item at position `i` (counted from 0). */
  function LineElement(i: nat, item: LineItem): Element {
    LineTree(LineTextsOf(i, item))
  }

  /** `_add_line_items`: the lines, in item order. */
  function LineItems(items: seq<LineItem>): seq<Element> {
    seq(|items|, i requires 0 <= i < |items| => LineElement(i, items[i]))
  }

  /** A line and each of its parts hold their children in document order. */
  lemma LineLayout(t: LineTexts)
    ensures var e := LineTree(t);
      && e.tag == LineTag && Tags(e.children) == LineTags
      && Tags(e.children[3].children) == LineTaxTags
      && Tags(e.children[4].children) == ItemTags
      && Tags(e.children[4].children[1].children) == CategoryTags
      && Tags(e.children[5].children) == PriceTags
      && Tags(e.children[5].children[1].children) == AllowanceTags
  {
    var cs := LineTree(t).children;
    Tags6(cs[0], cs[1], cs[2], cs[3], cs[4], cs[5]);
    Tags2(cs[3].children[0], cs[3].children[1]);
    Tags2(cs[4].children[0], cs[4].children[1]);
    var cat := cs[4].children[1].children;
    Tags3(cat[0], cat[1], cat[2]);
    Tags2(cs[5].children[0], cs[5].children[1]);
    var al := cs[5].children[1].children;
    Tags4(al[0], al[1], al[2], al[3]);
  }

  /** The id, quantity and line total of a line read back as its texts. */
  lemma ReadLineHead(t: LineTexts)
    ensures var e := LineTree(t);
      && TextAt(e, [CbcTag(ID)]) == Some(t.id)
      && AttrAt(e, [CbcTag(InvoicedQuantity)], UnitCode) == Some(t.unitCode)
      && TextAt(e, [CbcTag(InvoicedQuantity)]) == Some(t.quantity)
      && TextAt(e, [CbcTag(LineExtensionAmount)]) == Some(t.total)
  {
    var e := LineTree(t);
    LineLayout(t);
    FindByTags(e, LineTags, 0);
    FindByTags(e, LineTags, 1);
    FindByTags(e, LineTags, 2);
  }

  /** The line's tax, rounding amount, name and category read back. */
  lemma ReadLineTaxAndItem(t: LineTexts)
    ensures var e := LineTree(t);
      && TextAt(e, [LineTaxTag, CbcTag(TaxAmount)]) == Some(t.tax)
      && TextAt(e, [LineTaxTag, CbcTag(RoundingAmount)]) == Some(t.rounding)
      && TextAt(e, [ItemTag, CbcTag(Name)]) == Some(t.name)
      && TextAt(e, [ItemTag, CategoryTag, CbcTag(ID)]) == Some("S")
      && TextAt(e, [ItemTag, CategoryTag, CbcTag(Percent)]) == Some("15")
  {
    var e := LineTree(t);
    LineLayout(t);
    FindByTags2(e, LineTags, 3, LineTaxTags, 0);
    FindByTags2(e, LineTags, 3, LineTaxTags, 1);
    FindByTags2(e, LineTags, 4, ItemTags, 0);
    FindByTags3(e, LineTags, 4, ItemTags, 1, CategoryTags, 0);
    FindByTags3(e, LineTags, 4, ItemTags, 1, CategoryTags, 1);
  }

  /** The price, the discount and its base read back. */
  lemma ReadLinePrice(t: LineTexts)
    ensures var e := LineTree(t);
      && TextAt(e, [PriceTag, CbcTag(PriceAmount)]) == Some(t.price)
      && TextAt(e, [PriceTag, AllowanceTag, CbcTag(Amount)]) == Some("0.00")
      && TextAt(e, [PriceTag, AllowanceTag, CbcTag(BaseAmount)]) == Some(t.price)
  {
    var e := LineTree(t);
    LineLayout(t);
    FindByTags2(e, LineTags, 5, PriceTags, 0);
    FindByTags3(e, LineTags, 5, PriceTags, 1, AllowanceTags, 2);
    FindByTags3(e, LineTags, 5, PriceTags, 1, AllowanceTags, 3);
  }

  /** Reading a line's amounts back gives the cents of the item's quantity,
      of price × quantity, of the line tax (15% of that, whatever the
      invoice rate) and of total plus tax. */
  lemma LineAmounts(i: nat, item: LineItem)
    ensures var e := LineElement(i, item);
      && AmountAt(e, [CbcTag(InvoicedQuantity)]) == Some(SignedCents(item.quantity))
      && AmountAt(e, [CbcTag(LineExtensionAmount)]) == Some(SignedCents(LineTotal(item)))
      && AmountAt(e, [LineTaxTag, CbcTag(TaxAmount)]) == Some(SignedCents(LineTax(item)))
      && AmountAt(e, [LineTaxTag, CbcTag(RoundingAmount)]) == Some(SignedCents(LineGross(item)))
  {
    LineTreeAmounts(LineTextsOf(i, item), item.quantity, LineTotal(item), LineTax(item), LineGross(item));
  }

  /** A line printed from amounts reads back as their cents. */
  lemma LineTreeAmounts(t: LineTexts, quantity: real, total: real, tax: real, rounding: real)
    requires t.quantity == FormatAmount(quantity) && t.total == FormatAmount(total)
    requires t.tax == FormatAmount(tax) && t.rounding == FormatAmount(rounding)
    ensures var e := LineTree(t);
      && AmountAt(e, [CbcTag(InvoicedQuantity)]) == Some(SignedCents(quantity))
      && AmountAt(e, [CbcTag(LineExtensionAmount)]) == Some(SignedCents(total))
      && AmountAt(e, [LineTaxTag, CbcTag(TaxAmount)]) == Some(SignedCents(tax))
      && AmountAt(e, [LineTaxTag, CbcTag(RoundingAmount)]) == Some(SignedCents(rounding))
  {
    ReadLineHead(t);
    ReadLineTaxAndItem(t);
  }

  /** The price and the discount's base both read back as the item price's
      cents, and the discount itself as zero. */
  lemma LinePriceAmounts(i: nat, item: LineItem)
    ensures var e := LineElement(i, item);
      && AmountAt(e, [PriceTag, CbcTag(PriceAmount)]) == Some(SignedCents(item.price))
      && AmountAt(e, [PriceTag, AllowanceTag, CbcTag(Amount)]) == Some(0)
      && AmountAt(e, [PriceTag, AllowanceTag, CbcTag(BaseAmount)]) == Some(SignedCents(item.price))
  {
    ReadLinePrice(LineTextsOf(i, item));
    ZeroText();
  }

  /** A line carries the item's id as `str` prints it, its unit code or
      "PCE", its name or `Item <position>`, and the fixed standard category
      "S" at 15%. */
  lemma LineDescription(i: nat, item: LineItem)
    ensures var e := LineElement(i, item);
      && TextAt(e, [CbcTag(ID)]) == Some(ItemIdText(item.id))
      && AttrAt(e, [CbcTag(InvoicedQuantity)], UnitCode) == Some(item.unitCode.GetOr("PCE"))
      && TextAt(e, [ItemTag, CbcTag(Name)]) == Some(item.name.GetOr("Item " + NatToString(i + 1)))
      && TextAt(e, [ItemTag, CategoryTag, CbcTag(ID)]) == Some("S")
      && TextAt(e, [ItemTag, CategoryTag, CbcTag(Percent)]) == Some("15")
  {
    ReadLineHead(LineTextsOf(i, item));
    ReadLineTaxAndItem(LineTextsOf(i, item));
  }

  /** Every monetary element of a line is declared in "SAR". */
  lemma LinePriced(t: LineTexts)
    ensures PricedIn(LineTree(t), LineCurrency)
  {
    var e := LineTree(t);
    var cs := e.children;
    BarePriced(cs[0], LineCurrency);
    BarePriced(cs[1], LineCurrency);
    MoneyPriced(CbcTag(LineExtensionAmount), LineCurrency, t.total);
    MoneyPriced(CbcTag(TaxAmount), LineCurrency, t.tax);
    MoneyPriced(CbcTag(RoundingAmount), LineCurrency, t.rounding);
    NodePriced(cs[3], LineCurrency);
    CategoryPriced(LineCurrency);
    BarePriced(cs[4].children[0], LineCurrency);
    NodePriced(cs[4], LineCurrency);
    var al := cs[5].children[1];
    BarePriced(al.children[0], LineCurrency);
    BarePriced(al.children[1], LineCurrency);
    MoneyPriced(CbcTag(Amount), LineCurrency, "0.00");
    MoneyPriced(CbcTag(BaseAmount), LineCurrency, t.price);
    NodePriced(al, LineCurrency);
    MoneyPriced(CbcTag(PriceAmount), LineCurrency, t.price);
    NodePriced(cs[5], LineCurrency);
    NodePriced(e, LineCurrency);
  }

  /** The standard category holds no amount. */
  lemma CategoryPriced(cur: string)
    ensures PricedIn(StandardCategory, cur)
  {
    var cs := StandardCategory.children;
    BarePriced(cs[0], cur);
    BarePriced(cs[1], cur);
    BarePriced(cs[2].children[0], cur);
    NodePriced(cs[2], cur);
    NodePriced(StandardCategory, cur);
  }

  /** One line per item, in item order: line `k` carries item `k`'s id and
      line total, and every amount in every line is in "SAR". */
  lemma LinesFollowItems(items: seq<LineItem>)
    ensures |LineItems(items)| == |items|
    ensures forall k :: 0 <= k < |items| ==> LineItems(items)[k].tag == LineTag
    ensures forall k :: 0 <= k < |items| ==>
      && TextAt(LineItems(items)[k], [CbcTag(ID)]) == Some(ItemIdText(items[k].id))
      && AmountAt(LineItems(items)[k], [CbcTag(LineExtensionAmount)])
         == Some(SignedCents(LineTotal(items[k])))
      && PricedIn(LineItems(items)[k], LineCurrency)
  {
    forall k | 0 <= k < |items|
      ensures && TextAt(LineItems(items)[k], [CbcTag(ID)]) == Some(ItemIdText(items[k].id))
              && AmountAt(LineItems(items)[k], [CbcTag(LineExtensionAmount)])
                 == Some(SignedCents(LineTotal(items[k])))
              && PricedIn(LineItems(items)[k], LineCurrency)
    {
      LineDescription(k, items[k]);
      LineAmounts(k, items[k]);
      LinePriced(LineTextsOf(k, items[k]));
    }
  }

  /** Counting lines in the output counts the items. */
  lemma LineCount(items: seq<LineItem>)
    ensures CountTag(LineItems(items), LineTag) == |items|
  {
    AllLinesCount(LineItems(items));
  }

  lemma {:induction false} AllLinesCount(es: seq<Element>)
    requires forall k :: 0 <= k < |es| ==> es[k].tag == LineTag
    ensures CountTag(es, LineTag) == |es|
    decreases |es|
  {
    if |es| > 0 {
      AllLinesCount(es[1..]);
    }
  }
}
