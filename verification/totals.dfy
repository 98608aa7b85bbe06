/** The document-level amounts: the two tax totals `_add_vat_breakdown`
    appends and the legal monetary total of `_add_monetary_totals`. Both tax
    totals declare the record's currency (default "SAR"; the second one the
    tax currency, defaulting to the currency), while the monetary total is
    always declared in "SAR". */
module Totals {
  import opened Wrappers
  import opened Digits
  import opened Amounts
  import opened Vocabulary
  import opened Xml
  import opened Record

  const TaxTotalTag := CacTag(TaxTotal)
  const TaxSubtotalTag := CacTag(TaxSubtotal)
  const TaxCategoryTag := CacTag(TaxCategory)
  const MonetaryTotalTag := CacTag(LegalMonetaryTotal)

  /** Children of the first tax total, of its subtotal and of the category. */
  const TaxTotalTags: seq<QName> := [CbcTag(TaxAmount), TaxSubtotalTag]
  const TaxSubtotalTags: seq<QName> := [CbcTag(TaxableAmount), CbcTag(TaxAmount), TaxCategoryTag]
  const TaxCategoryTags: seq<QName> := [CbcTag(ID), CbcTag(Percent), CacTag(TaxScheme)]

  /** Children of the legal monetary total, in order. */
  const MonetaryTags: seq<QName> := [
    CbcTag(LineExtensionAmount), CbcTag(TaxExclusiveAmount), CbcTag(TaxInclusiveAmount),
    CbcTag(AllowanceTotalAmount), CbcTag(PrepaidAmount), CbcTag(PayableAmount)]

  /** `invoice_data.get('currency', "SAR")`. */
  function DocumentCurrency(data: InvoiceData): string {
    data.currency.GetOr("SAR")
  }

  /** `invoice_data.get('tax_currency', <document currency>)`. */
  function TaxCurrency(data: InvoiceData): string {
    data.taxCurrency.GetOr(DocumentCurrency(data))
  }

  /** The texts the two tax totals print. */
  datatype VatTexts = VatTexts(currency: string, taxCurrency: string, vat: string, taxable: string, rate: string)

  function VatTextsOf(data: InvoiceData): VatTexts {
    VatTexts(DocumentCurrency(data), TaxCurrency(data), FormatAmount(data.vatAmount),
             FormatAmount(data.totalWithoutVat), IntToString(data.taxRate))
  }

  /** The fixed layout of the two tax totals around their texts. */
  function VatTree(t: VatTexts): seq<Element> {
    [ Node(TaxTotalTag, [
        Money(CbcTag(TaxAmount), t.currency, t.vat),
        Node(TaxSubtotalTag, [
          Money(CbcTag(TaxableAmount), t.currency, t.taxable),
          Money(CbcTag(TaxAmount), t.currency, t.vat),
          Node(TaxCategoryTag, [
            Leaf(CbcTag(ID), "S"),
            Leaf(CbcTag(Percent), t.rate),
            Node(CacTag(TaxScheme), [Leaf(CbcTag(ID), "VAT")])])])]),
      Node(TaxTotalTag, [Money(CbcTag(TaxAmount), t.taxCurrency, t.vat)]) ]
  }

  /** `_add_vat_breakdown`: a tax total with its subtotal, then a tax total
      for the tax currency without one. */
  function VatBreakdown(data: InvoiceData): seq<Element> {
    VatTree(VatTextsOf(data))
  }

  lemma VatLayout(t: VatTexts)
    ensures var es := VatTree(t);
      && Tags(es) == [TaxTotalTag, TaxTotalTag]
      && Tags(es[0].children) == TaxTotalTags
      && Tags(es[0].children[1].children) == TaxSubtotalTags
      && Tags(es[0].children[1].children[2].children) == TaxCategoryTags
      && Tags(es[1].children) == [CbcTag(TaxAmount)]
  {
    var es := VatTree(t);
    Tags2(es[0], es[1]);
    Tags2(es[0].children[0], es[0].children[1]);
    var sub := es[0].children[1].children;
    Tags3(sub[0], sub[1], sub[2]);
    var cat := sub[2].children;
    Tags3(cat[0], cat[1], cat[2]);
    Tags1(es[1].children[0]);
  }

  /** What a reader finds in the two tax totals laid out around `t`. */
  lemma ReadVatTree(t: VatTexts)
    ensures var es := VatTree(t);
      && TextAt(es[0], [CbcTag(TaxAmount)]) == Some(t.vat)
      && AttrAt(es[0], [CbcTag(TaxAmount)], CurrencyId) == Some(t.currency)
      && TextAt(es[0], [TaxSubtotalTag, CbcTag(TaxableAmount)]) == Some(t.taxable)
      && TextAt(es[0], [TaxSubtotalTag, CbcTag(TaxAmount)]) == Some(t.vat)
      && TextAt(es[0], [TaxSubtotalTag, TaxCategoryTag, CbcTag(Percent)]) == Some(t.rate)
      && TextAt(es[1], [CbcTag(TaxAmount)]) == Some(t.vat)
      && AttrAt(es[1], [CbcTag(TaxAmount)], CurrencyId) == Some(t.taxCurrency)
  {
    var es := VatTree(t);
    VatLayout(t);
    FindByTags(es[0], TaxTotalTags, 0);
    FindByTags2(es[0], TaxTotalTags, 1, TaxSubtotalTags, 0);
    FindByTags2(es[0], TaxTotalTags, 1, TaxSubtotalTags, 1);
    FindByTags3(es[0], TaxTotalTags, 1, TaxSubtotalTags, 2, TaxCategoryTags, 1);
    FindByTags(es[1], [CbcTag(TaxAmount)], 0);
  }

  /** The first tax total is in the document currency and the second in the
      tax currency, each throughout. */
  lemma VatPriced(t: VatTexts)
    ensures PricedIn(VatTree(t)[0], t.currency) && PricedIn(VatTree(t)[1], t.taxCurrency)
  {
    var es := VatTree(t);
    var sub := es[0].children[1];
    var cat := sub.children[2];
    MoneyPriced(CbcTag(TaxAmount), t.currency, t.vat);
    MoneyPriced(CbcTag(TaxableAmount), t.currency, t.taxable);
    BarePriced(cat.children[0], t.currency);
    BarePriced(cat.children[1], t.currency);
    BarePriced(cat.children[2].children[0], t.currency);
    NodePriced(cat.children[2], t.currency);
    NodePriced(cat, t.currency);
    NodePriced(sub, t.currency);
    NodePriced(es[0], t.currency);
    MoneyPriced(CbcTag(TaxAmount), t.taxCurrency, t.vat);
    NodePriced(es[1], t.taxCurrency);
  }

  /** Both tax totals read back as the cents of the record's VAT, the
      subtotal's taxable amount as those of the subtotal, and the category
      percent as the record's rate. */
  lemma VatBreakdownAmounts(data: InvoiceData)
    ensures var es := VatBreakdown(data);
      && |es| == 2 && es[0].tag == TaxTotalTag && es[1].tag == TaxTotalTag
      && AmountAt(es[0], [CbcTag(TaxAmount)]) == Some(SignedCents(data.vatAmount))
      && AmountAt(es[1], [CbcTag(TaxAmount)]) == Some(SignedCents(data.vatAmount))
      && AmountAt(es[0], [TaxSubtotalTag, CbcTag(TaxAmount)]) == Some(SignedCents(data.vatAmount))
      && AmountAt(es[0], [TaxSubtotalTag, CbcTag(TaxableAmount)]) == Some(SignedCents(data.totalWithoutVat))
      && TextAt(es[0], [TaxSubtotalTag, TaxCategoryTag, CbcTag(Percent)]).Some?
      && ParseInt(TextAt(es[0], [TaxSubtotalTag, TaxCategoryTag, CbcTag(Percent)]).value) == Some(data.taxRate)
  {
    VatLayout(VatTextsOf(data));
    ReadVatTree(VatTextsOf(data));
  }

  /** The first tax total declares the record's currency ("SAR" when it has
      none) on every amount, the second the tax currency (the currency when
      it has none). */
  lemma VatBreakdownCurrencies(data: InvoiceData)
    ensures var es := VatBreakdown(data);
      && AttrAt(es[0], [CbcTag(TaxAmount)], CurrencyId) == Some(data.currency.GetOr("SAR"))
      && PricedIn(es[0], data.currency.GetOr("SAR"))
      && AttrAt(es[1], [CbcTag(TaxAmount)], CurrencyId) == Some(data.taxCurrency.GetOr(data.currency.GetOr("SAR")))
      && PricedIn(es[1], data.taxCurrency.GetOr(data.currency.GetOr("SAR")))
  {
    ReadVatTree(VatTextsOf(data));
    VatPriced(VatTextsOf(data));
  }

  /** The texts the monetary total prints. */
  datatype MonetaryTexts = MonetaryTexts(subtotal: string, total: string)

  /** The fixed layout of the legal monetary total, all in "SAR". */
  function MonetaryTree(t: MonetaryTexts): Element {
    Node(MonetaryTotalTag, [
      Money(CbcTag(LineExtensionAmount), "SAR", t.subtotal),
      Money(CbcTag(TaxExclusiveAmount), "SAR", t.subtotal),
      Money(CbcTag(TaxInclusiveAmount), "SAR", t.total),
      Money(CbcTag(AllowanceTotalAmount), "SAR", "0.00"),
      Money(CbcTag(PrepaidAmount), "SAR", "0.00"),
      Money(CbcTag(PayableAmount), "SAR", t.total)])
  }

  /** `_add_monetary_totals`. */
  function MonetaryTotals(data: InvoiceData): Element {
    MonetaryTree(MonetaryTexts(FormatAmount(data.totalWithoutVat), FormatAmount(data.totalWithVat)))
  }

  /** What a reader finds in a monetary total laid out around `t`. */
  lemma ReadMonetaryTree(t: MonetaryTexts)
    ensures var e := MonetaryTree(t);
      && e.tag == MonetaryTotalTag && Tags(e.children) == MonetaryTags
      && TextAt(e, [CbcTag(LineExtensionAmount)]) == Some(t.subtotal)
      && TextAt(e, [CbcTag(TaxExclusiveAmount)]) == Some(t.subtotal)
      && TextAt(e, [CbcTag(TaxInclusiveAmount)]) == Some(t.total)
      && TextAt(e, [CbcTag(AllowanceTotalAmount)]) == Some("0.00")
      && TextAt(e, [CbcTag(PrepaidAmount)]) == Some("0.00")
      && TextAt(e, [CbcTag(PayableAmount)]) == Some(t.total)
  {
    var e := MonetaryTree(t);
    var cs := e.children;
    Tags6(cs[0], cs[1], cs[2], cs[3], cs[4], cs[5]);
    FindByTags(e, MonetaryTags, 0);
    FindByTags(e, MonetaryTags, 1);
    FindByTags(e, MonetaryTags, 2);
    FindByTags(e, MonetaryTags, 3);
    FindByTags(e, MonetaryTags, 4);
    FindByTags(e, MonetaryTags, 5);
  }

  /** Every amount of the monetary total is declared in "SAR". */
  lemma MonetaryPriced(t: MonetaryTexts)
    ensures PricedIn(MonetaryTree(t), "SAR")
  {
    var e := MonetaryTree(t);
    MoneyPriced(CbcTag(LineExtensionAmount), "SAR", t.subtotal);
    MoneyPriced(CbcTag(TaxExclusiveAmount), "SAR", t.subtotal);
    MoneyPriced(CbcTag(TaxInclusiveAmount), "SAR", t.total);
    MoneyPriced(CbcTag(AllowanceTotalAmount), "SAR", "0.00");
    MoneyPriced(CbcTag(PrepaidAmount), "SAR", "0.00");
    MoneyPriced(CbcTag(PayableAmount), "SAR", t.total);
    NodePriced(e, "SAR");
  }

  /** The six monetary children come in fixed order; line extension and tax
      exclusive amounts print the same text, as do tax inclusive and payable
      amounts, reading back as the cents of the subtotal and the total; the
      allowance and prepaid amounts read as zero; everything is in "SAR". */
  lemma MonetaryTotalsRead(data: InvoiceData)
    ensures var e := MonetaryTotals(data);
      && e.tag == MonetaryTotalTag && Tags(e.children) == MonetaryTags
      && TextAt(e, [CbcTag(LineExtensionAmount)]) == TextAt(e, [CbcTag(TaxExclusiveAmount)])
      && TextAt(e, [CbcTag(TaxInclusiveAmount)]) == TextAt(e, [CbcTag(PayableAmount)])
      && AmountAt(e, [CbcTag(LineExtensionAmount)]) == Some(SignedCents(data.totalWithoutVat))
      && AmountAt(e, [CbcTag(TaxInclusiveAmount)]) == Some(SignedCents(data.totalWithVat))
      && AmountAt(e, [CbcTag(AllowanceTotalAmount)]) == Some(0)
      && AmountAt(e, [CbcTag(PrepaidAmount)]) == Some(0)
      && PricedIn(e, "SAR")
  {
    var t := MonetaryTexts(FormatAmount(data.totalWithoutVat), FormatAmount(data.totalWithVat));
    ReadMonetaryTree(t);
    MonetaryPriced(t);
    ZeroText();
  }

  /** The currency quirk: when the record names a currency other than "SAR",
      the tax total and the monetary total of the same invoice declare
      different currencies. */
  lemma MixedCurrencies(data: InvoiceData)
    requires data.currency.Some? && data.currency.value != "SAR"
    ensures AttrAt(VatBreakdown(data)[0], [CbcTag(TaxAmount)], CurrencyId)
         != AttrAt(MonetaryTotals(data), [CbcTag(PayableAmount)], CurrencyId)
  {
    VatBreakdownCurrencies(data);
    PayableInSar(MonetaryTexts(FormatAmount(data.totalWithoutVat), FormatAmount(data.totalWithVat)));
  }

  lemma PayableInSar(t: MonetaryTexts)
    ensures AttrAt(MonetaryTree(t), [CbcTag(PayableAmount)], CurrencyId) == Some("SAR")
  {
    var e := MonetaryTree(t);
    var cs := e.children;
    Tags6(cs[0], cs[1], cs[2], cs[3], cs[4], cs[5]);
    FindByTags(e, MonetaryTags, 5);
  }
}
