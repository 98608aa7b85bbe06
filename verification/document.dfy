/** `create_invoice_xml`: the whole invoice tree, built in the order
    `ZatcaInvoice` calls its builders. The serialisation to text, the namespace map
    and pretty-printing are not modelled; a reader works on the tree. */
module Document {
  import opened Wrappers
  import opened Digits
  import opened Amounts
  import opened Vocabulary
  import opened Xml
  import opened Record
  import opened Qr
  import opened Header
  import opened Parties
  import opened Lines
  import opened Totals
  import opened Signing

  const DeliveryTag := CacTag(Delivery)
  const PaymentMeansTag := CacTag(PaymentMeans)

  /** Delivery carries the issue date as the actual delivery date. */
  function DeliveryElement(data: InvoiceData): Element {
    Node(DeliveryTag, [Leaf(CbcTag(ActualDeliveryDate), data.issueDate)])
  }

  /** Payment means code "10" (cash) unless the record names one. */
  function PaymentMeansElement(data: InvoiceData): Element {
    Node(PaymentMeansTag, [Leaf(CbcTag(PaymentMeansCode), data.paymentMeansCode.GetOr("10"))])
  }

  /** The builders' outputs, one field per section, in the order
      `create_invoice_xml` adds them. */
  datatype Parts = Parts(
    extensions: Element,
    common: seq<Element>,
    qr: Element,
    seller: Element,
    customer: Element,
    delivery: Element,
    payment: Element,
    vat: seq<Element>,
    monetary: Element,
    lines: seq<Element>)

  /** The sections between the document references and the lines. */
  function Middle(p: Parts): seq<Element> {
    [p.qr, p.seller, p.customer, p.delivery, p.payment] + p.vat + [p.monetary]
  }

  const MiddleTags: seq<QName> := [
    DocRef, SupplierTag, CustomerTag, DeliveryTag, PaymentMeansTag,
    TaxTotalTag, TaxTotalTag, MonetaryTotalTag]

  /** The extensions block the signature placeholder makes on an empty
      root. */
  function ExtensionsBlock(signature: Option<string>, digest: string -> string, encode: string -> string): Element {
    Node(ExtensionsTag, [SignatureExtension(SignatureTextsOf(signature, digest, encode))])
  }

  function PartsOf(data: InvoiceData, gen: Generator, signature: Option<string>,
                   digest: string -> string, encode: string -> string): Parts {
    Parts(
      ExtensionsBlock(signature, digest, encode),
      CommonElements(data, gen.counter),
      QrReference(QrPayload(data, digest), encode),
      SellerInfo(data.seller),
      CustomerInfo(data.buyer),
      DeliveryElement(data),
      PaymentMeansElement(data),
      VatBreakdown(data),
      MonetaryTotals(data),
      LineItems(data.items))
  }

  /** `create_invoice_xml(invoice_data, signature)` with the generator's
      counter at the time of the call; `digest` and `encode` stand for
      SHA-256-then-base64 and base64. The signature placeholder goes on the
      empty root first, then every other section is appended in order. */
  function CreateInvoiceXml(data: InvoiceData, gen: Generator, signature: Option<string>,
                            digest: string -> string, encode: string -> string): Element {
    var root := AddSignaturePlaceholder(Node(InvoiceTag, []), SignatureTextsOf(signature, digest, encode));
    var p := PartsOf(data, gen, signature, digest, encode);
    Append(root, p.common + Middle(p) + p.lines)
  }

  function Children(p: Parts): seq<Element> {
    [p.extensions] + (p.common + Middle(p) + p.lines)
  }

  /** The tags in front of the middle part: the extensions, the identity,
      the ICV reference and, when there is a previous hash, the PIH one. */
  function FrontTags(chained: bool): seq<QName> {
    [ExtensionsTag] + IdentityTags + [DocRef] + (if chained then [DocRef] else [])
  }

  /** One `cac:InvoiceLine` tag per line. */
  function LineRun(n: nat): (ts: seq<QName>)
    ensures |ts| == n && forall i :: 0 <= i < n ==> ts[i] == LineTag
  {
    seq(n, i => LineTag)
  }

  /** The root's child tags, in order. */
  function TopLevelTags(data: InvoiceData): seq<QName> {
    FrontTags(Truthy(data.previousHash)) + MiddleTags + LineRun(|data.items|)
  }

  /** On an empty root the placeholder makes the extensions block the only
      child. */
  lemma PlaceholderOnEmpty(t: SignatureTexts)
    ensures AddSignaturePlaceholder(Node(InvoiceTag, []), t).children == [Node(ExtensionsTag, [SignatureExtension(t)])]
  {
    assert FirstIndex([], ExtensionsTag).None?;
  }

  /** The invoice is the extensions block, the common elements, the middle
      part and the lines, in that order. */
  lemma Assembled(data: InvoiceData, gen: Generator, signature: Option<string>,
                  digest: string -> string, encode: string -> string)
    ensures var root := CreateInvoiceXml(data, gen, signature, digest, encode);
      root.tag == InvoiceTag && root.children == Children(PartsOf(data, gen, signature, digest, encode))
  {
    PlaceholderOnEmpty(SignatureTextsOf(signature, digest, encode));
  }

  /** Tags of the middle part from the tags of its sections. */
  lemma MiddleShape(p: Parts)
    requires p.qr.tag == DocRef && p.seller.tag == SupplierTag && p.customer.tag == CustomerTag
    requires p.delivery.tag == DeliveryTag && p.payment.tag == PaymentMeansTag
    requires Tags(p.vat) == [TaxTotalTag, TaxTotalTag] && p.monetary.tag == MonetaryTotalTag
    ensures Tags(Middle(p)) == MiddleTags
  {
    TagsIndex(p.vat);
    TagsIndex(Middle(p));
  }

  lemma MiddleLayout(data: InvoiceData, gen: Generator, signature: Option<string>,
                     digest: string -> string, encode: string -> string)
    ensures Tags(Middle(PartsOf(data, gen, signature, digest, encode))) == MiddleTags
  {
    SellerInfoOrder(data.seller);
    CustomerInfoOrder(data.buyer);
    VatLayout(VatTextsOf(data));
    MiddleShape(PartsOf(data, gen, signature, digest, encode));
  }

  lemma LineRunTags(items: seq<LineItem>)
    ensures Tags(LineItems(items)) == LineRun(|items|)
  {
    LinesFollowItems(items);
    TagsIndex(LineItems(items));
  }

  /** Tags of the whole from the tags of the parts. */
  lemma PartsShape(p: Parts, chained: bool, n: nat)
    requires p.extensions.tag == ExtensionsTag
    requires Tags(p.common) == IdentityTags + ([DocRef] + (if chained then [DocRef] else []))
    requires Tags(Middle(p)) == MiddleTags && Tags(p.lines) == LineRun(n)
    ensures Tags(Children(p)) == FrontTags(chained) + MiddleTags + LineRun(n)
  {
    TagsAppend(p.common, Middle(p));
    TagsAppend(p.common + Middle(p), p.lines);
    TagsAppend([p.extensions], p.common + Middle(p) + p.lines);
    Tags1(p.extensions);
  }

  /** The root's child tags are exactly the front, the middle and one line
      tag per item. */
  lemma DocumentTags(data: InvoiceData, gen: Generator, signature: Option<string>,
                     digest: string -> string, encode: string -> string)
    ensures Tags(CreateInvoiceXml(data, gen, signature, digest, encode).children) == TopLevelTags(data)
  {
    Assembled(data, gen, signature, digest, encode);
    MiddleLayout(data, gen, signature, digest, encode);
    LineRunTags(data.items);
    PartsShape(PartsOf(data, gen, signature, digest, encode), Truthy(data.previousHash), |data.items|);
  }

  /** In a tag sequence made of a line-free head followed by lines only,
      the lines are exactly the tail, and no line comes before a tax total
      or the monetary total. */
  lemma {:induction false} LinesAfterHead(head: seq<QName>, n: nat)
    requires LineTag !in head
    ensures var ts := head + LineRun(n);
      && (forall i :: 0 <= i < |ts| ==> (ts[i] == LineTag <==> i >= |head|))
      && (forall i, j :: 0 <= i < |ts| && 0 <= j < |ts| && ts[i] == LineTag
            && (ts[j] == TaxTotalTag || ts[j] == MonetaryTotalTag)
            ==> j < i)
  {
    var ts := head + LineRun(n);
    forall i | 0 <= i < |ts|
      ensures ts[i] == LineTag <==> i >= |head|
    {
      if i < |head| {
        assert ts[i] == head[i] && head[i] in head;
      }
    }
  }

  /** Root order: the extensions block first, the lines exactly at the end,
      one per item, and no line before either tax total or the monetary
      total. */
  lemma TopLevelOrder(data: InvoiceData)
    ensures var ts := TopLevelTags(data);
      && ts[0] == ExtensionsTag
      && (forall i :: 0 <= i < |ts| ==> (ts[i] == LineTag <==> i >= |ts| - |data.items|))
      && (forall i, j :: 0 <= i < |ts| && 0 <= j < |ts| && ts[i] == LineTag
            && (ts[j] == TaxTotalTag || ts[j] == MonetaryTotalTag)
            ==> j < i)
  {
    var head := FrontTags(Truthy(data.previousHash)) + MiddleTags;
    assert LineTag !in head;
    LinesAfterHead(head, |data.items|);
  }

  /** The front carries none of the middle's section tags, and each
      section tag first occurs at its own place. */
  lemma SectionTagsDistinct(chained: bool)
    ensures forall k :: 1 <= k < |MiddleTags| ==> MiddleTags[k] !in FrontTags(chained)
    ensures MiddleTags[1] !in MiddleTags[..1] && MiddleTags[2] !in MiddleTags[..2]
    ensures MiddleTags[3] !in MiddleTags[..3] && MiddleTags[4] !in MiddleTags[..4]
    ensures MiddleTags[5] !in MiddleTags[..5] && MiddleTags[7] !in MiddleTags[..7]
  {
    var front := FrontTags(chained);
    forall k | 1 <= k < |MiddleTags|
      ensures MiddleTags[k] !in front
    {
      assert MiddleTags[k].ns == Cac && MiddleTags[k] != DocRef;
      forall j | 0 <= j < |front|
        ensures front[j] != MiddleTags[k]
      {
        assert front[j].ns != Cac || front[j] == DocRef;
      }
    }
  }

  /** A tag of the middle part that the front does not carry is found at
      its place in the middle. */
  lemma FindInMiddle(p: Parts, chained: bool, k: nat)
    requires p.extensions.tag == ExtensionsTag
    requires Tags(p.common) == IdentityTags + ([DocRef] + (if chained then [DocRef] else []))
    requires Tags(Middle(p)) == MiddleTags
    requires k < |MiddleTags| && MiddleTags[k] !in MiddleTags[..k] && MiddleTags[k] !in FrontTags(chained)
    ensures FindIn(Children(p), MiddleTags[k]) == Some(Middle(p)[k])
  {
    var t := MiddleTags[k];
    FindInAppend([p.extensions], p.common + Middle(p) + p.lines, t);
    FindInAppend(p.common + Middle(p), p.lines, t);
    FindInAppend(p.common, Middle(p), t);
    assert FindIn([p.extensions], t).None?;
    assert t !in Tags(p.common);
    FindAbsent(Node(InvoiceTag, p.common), Tags(p.common), t);
    FindByTags(Node(InvoiceTag, Middle(p)), MiddleTags, k);
  }

  /** Looking a section's tag up in a root laid out from `p` finds that
      section. */
  lemma RootSections(root: Element, p: Parts, chained: bool)
    requires root.children == Children(p)
    requires p.extensions.tag == ExtensionsTag
    requires Tags(p.common) == IdentityTags + ([DocRef] + (if chained then [DocRef] else []))
    requires Tags(Middle(p)) == MiddleTags
    ensures Find(root, ExtensionsTag) == Some(p.extensions)
    ensures Find(root, SupplierTag) == Some(p.seller)
    ensures Find(root, CustomerTag) == Some(p.customer)
    ensures Find(root, DeliveryTag) == Some(p.delivery)
    ensures Find(root, PaymentMeansTag) == Some(p.payment)
    ensures Find(root, TaxTotalTag) == Some(p.vat[0])
    ensures Find(root, MonetaryTotalTag) == Some(p.monetary)
  {
    FindInFirst(Children(p), 0, ExtensionsTag);
    SectionTagsDistinct(chained);
    TagsIndex(Middle(p));
    FindInMiddle(p, chained, 1);
    FindInMiddle(p, chained, 2);
    FindInMiddle(p, chained, 3);
    FindInMiddle(p, chained, 4);
    FindInMiddle(p, chained, 5);
    FindInMiddle(p, chained, 7);
  }

  /** Each section of the invoice is where a reader looks for it: the
      signature extensions, the seller, the buyer, delivery, payment means,
      the first tax total and the monetary total. */
  lemma DocumentSections(data: InvoiceData, gen: Generator, signature: Option<string>,
                         digest: string -> string, encode: string -> string)
    ensures var root := CreateInvoiceXml(data, gen, signature, digest, encode);
      && Find(root, ExtensionsTag) == Some(ExtensionsBlock(signature, digest, encode))
      && Find(root, SupplierTag) == Some(SellerInfo(data.seller))
      && Find(root, CustomerTag) == Some(CustomerInfo(data.buyer))
      && Find(root, DeliveryTag) == Some(DeliveryElement(data))
      && Find(root, PaymentMeansTag) == Some(PaymentMeansElement(data))
      && Find(root, TaxTotalTag) == Some(VatBreakdown(data)[0])
      && Find(root, MonetaryTotalTag) == Some(MonetaryTotals(data))
  {
    Assembled(data, gen, signature, digest, encode);
    MiddleLayout(data, gen, signature, digest, encode);
    VatLayout(VatTextsOf(data));
    RootSections(CreateInvoiceXml(data, gen, signature, digest, encode),
                 PartsOf(data, gen, signature, digest, encode), Truthy(data.previousHash));
  }

  /** The invoice counter value a reader takes from the ICV reference. */
  function IcvOf(root: Element): Option<nat> {
    match ReferenceWithId(root.children, "ICV")
    case Some(r) => ParseNat(TextAt(r, [CbcTag(UUID)]).GetOr(""))
    case None => None
  }

  /** The previous invoice hash a reader takes from the PIH reference. */
  function PihOf(root: Element): Option<string> {
    match ReferenceWithId(root.children, "PIH")
    case Some(r) => AttachmentText(r)
    case None => None
  }

  /** The attachment of the QR reference. */
  function QrOf(root: Element): Option<string> {
    match ReferenceWithId(root.children, "QR")
    case Some(r) => AttachmentText(r)
    case None => None
  }

  /** Past the common elements the only reference is the QR one. */
  lemma RootReferences(p: Parts, n: nat, id: string)
    requires p.extensions.tag == ExtensionsTag
    requires p.qr.tag == DocRef && TextAt(p.qr, [CbcTag(ID)]) == Some("QR")
    requires Tags(Middle(p)) == MiddleTags && Tags(p.lines) == LineRun(n)
    ensures ReferenceWithId(Children(p), id)
         == if ReferenceWithId(p.common, id).Some? then ReferenceWithId(p.common, id)
            else if id == "QR" then Some(p.qr) else None
  {
    var tail := Middle(p) + p.lines;
    ReferenceWithIdAppend([p.extensions], p.common + Middle(p) + p.lines, id);
    assert [p.extensions][1..] == [];
    assert p.common + Middle(p) + p.lines == p.common + tail;
    ReferenceWithIdAppend(p.common, tail, id);
    TagsIndex(Middle(p));
    TagsIndex(p.lines);
    assert tail[0] == p.qr;
    forall i | 0 <= i < |tail[1..]|
      ensures tail[1..][i].tag != DocRef
    {
      if i + 1 < |Middle(p)| {
        assert tail[1..][i] == Middle(p)[i + 1];
      } else {
        assert tail[1..][i] == p.lines[i + 1 - |Middle(p)|];
      }
    }
    NoReferenceInIdentity(tail[1..], id);
  }

  /** The references a reader finds: the ICV carries the generator's
      counter, the PIH is there exactly when the record has a non-empty
      previous hash and carries it verbatim, and the QR reference carries
      the encoded QR payload. */
  lemma DocumentReferences(data: InvoiceData, gen: Generator, signature: Option<string>,
                           digest: string -> string, encode: string -> string)
    ensures var root := CreateInvoiceXml(data, gen, signature, digest, encode);
      && IcvOf(root) == Some(gen.counter)
      && PihOf(root) == (if Truthy(data.previousHash) then data.previousHash else None)
      && QrOf(root) == Some(encode(QrPayload(data, digest)))
  {
    var p := PartsOf(data, gen, signature, digest, encode);
    Assembled(data, gen, signature, digest, encode);
    MiddleLayout(data, gen, signature, digest, encode);
    LineRunTags(data.items);
    CommonReferences(data, gen.counter, "ICV");
    CommonReferences(data, gen.counter, "PIH");
    RootReferences(p, |data.items|, "ICV");
    RootReferences(p, |data.items|, "PIH");
    RootReferences(p, |data.items|, "QR");
  }

  /** Identity elements are found in the common elements however the root
      continues. */
  lemma RootIdentity(root: Element, p: Parts, chained: bool)
    requires root.children == Children(p)
    requires p.extensions.tag == ExtensionsTag
    requires Tags(p.common) == IdentityTags + ([DocRef] + (if chained then [DocRef] else []))
    ensures ReadIdentity(root) == ReadIdentity(Node(InvoiceTag, p.common))
  {
    TagsIndex(p.common);
    forall i | 0 <= i < |IdentityTags|
      ensures Find(root, IdentityTags[i]) == Find(Node(InvoiceTag, p.common), IdentityTags[i])
    {
      var t := IdentityTags[i];
      FindInAppend([p.extensions], p.common + Middle(p) + p.lines, t);
      assert FindIn([p.extensions], t).None? by {
        assert t.ns == Cbc;
      }
      assert p.common + Middle(p) + p.lines == p.common + (Middle(p) + p.lines);
      FindInAppend(p.common, Middle(p) + p.lines, t);
      assert p.common[i].tag == t;
    }
    ReadIdentityFrame(root, Node(InvoiceTag, p.common));
  }

  /** The invoice's identity reads back as the record's. */
  lemma DocumentIdentity(data: InvoiceData, gen: Generator, signature: Option<string>,
                         digest: string -> string, encode: string -> string)
    ensures ReadIdentity(CreateInvoiceXml(data, gen, signature, digest, encode)) == Some(IdentityOf(data))
  {
    Assembled(data, gen, signature, digest, encode);
    RootIdentity(CreateInvoiceXml(data, gen, signature, digest, encode),
                 PartsOf(data, gen, signature, digest, encode), Truthy(data.previousHash));
  }

  /** The `ds:Signature` a reader reaches through the root's extensions. */
  function SignatureOf(root: Element): Option<Element> {
    match At(root, [ExtensionsTag, ExtensionTag])
    case Some(x) => SignatureIn(x)
    case None => None
  }

  /** A root whose first child is the extensions block around `t` has the
      signature element around `t`. */
  lemma SignatureThroughRoot(root: Element, t: SignatureTexts)
    requires |root.children| > 0 && root.children[0] == Node(ExtensionsTag, [SignatureExtension(t)])
    ensures SignatureOf(root) == Some(DsSignature(t))
  {
    FindInFirst(root.children, 0, ExtensionsTag);
    AtCons(root, ExtensionsTag, [ExtensionTag]);
    FindFirst(root.children[0], 0, ExtensionTag);
    assert [ExtensionsTag] + [ExtensionTag] == [ExtensionsTag, ExtensionTag];
    SignatureFound(t);
  }

  /** The invoice's signature is the skeleton around its texts; with
      `SignatureSkeleton`, its value is the supplied signature when one is
      given and non-empty, else the placeholder, and its transforms are the
      required four. */
  lemma DocumentSignature(data: InvoiceData, gen: Generator, signature: Option<string>,
                          digest: string -> string, encode: string -> string)
    ensures SignatureOf(CreateInvoiceXml(data, gen, signature, digest, encode))
         == Some(DsSignature(SignatureTextsOf(signature, digest, encode)))
  {
    Assembled(data, gen, signature, digest, encode);
    SignatureThroughRoot(CreateInvoiceXml(data, gen, signature, digest, encode), SignatureTextsOf(signature, digest, encode));
  }

  /** Following a one-step path below a section found by tag. */
  lemma Below(root: Element, tag: QName, section: Element, child: QName)
    requires Find(root, tag) == Some(section)
    ensures TextAt(root, [tag, child]) == TextAt(section, [child])
    ensures AmountAt(root, [tag, child]) == AmountAt(section, [child])
    ensures AttrAt(root, [tag, child], CurrencyId) == AttrAt(section, [child], CurrencyId)
  {
    AtCons(root, tag, [child]);
    assert [tag] + [child] == [tag, child];
  }

  /** A party as a reader takes it from the section with `tag`. */
  function PartyAt(root: Element, tag: QName): Option<Record.Party> {
    match Find(root, tag)
    case Some(section) => ReadParty(section)
    case None => None
  }

  /** The seller reads back in full and the buyer as its view (no VAT
      number); delivery is dated the issue date and the payment means code
      is the record's, "10" when it has none. */
  lemma DocumentParties(data: InvoiceData, gen: Generator, signature: Option<string>,
                        digest: string -> string, encode: string -> string)
    ensures var root := CreateInvoiceXml(data, gen, signature, digest, encode);
      && PartyAt(root, SupplierTag) == Some(data.seller)
      && PartyAt(root, CustomerTag) == Some(BuyerView(data.buyer))
      && TextAt(root, [DeliveryTag, CbcTag(ActualDeliveryDate)]) == Some(data.issueDate)
      && TextAt(root, [PaymentMeansTag, CbcTag(PaymentMeansCode)]) == Some(data.paymentMeansCode.GetOr("10"))
  {
    var root := CreateInvoiceXml(data, gen, signature, digest, encode);
    DocumentSections(data, gen, signature, digest, encode);
    SellerInfoReadsBack(data.seller);
    CustomerInfoReadsBack(data.buyer);
    Below(root, DeliveryTag, DeliveryElement(data), CbcTag(ActualDeliveryDate));
    Below(root, PaymentMeansTag, PaymentMeansElement(data), CbcTag(PaymentMeansCode));
    FindFirst(DeliveryElement(data), 0, CbcTag(ActualDeliveryDate));
    FindFirst(PaymentMeansElement(data), 0, CbcTag(PaymentMeansCode));
  }

  /** The totals a reader finds: the monetary total's tax exclusive,
      tax inclusive and payable amounts print the record's subtotal and
      total, the first tax total prints its VAT in the document currency,
      and the payable amount is in "SAR" whatever that currency is. */
  lemma DocumentTotals(data: InvoiceData, gen: Generator, signature: Option<string>,
                       digest: string -> string, encode: string -> string)
    ensures var root := CreateInvoiceXml(data, gen, signature, digest, encode);
      && TextAt(root, [MonetaryTotalTag, CbcTag(TaxExclusiveAmount)]) == Some(FormatAmount(data.totalWithoutVat))
      && TextAt(root, [MonetaryTotalTag, CbcTag(TaxInclusiveAmount)]) == Some(FormatAmount(data.totalWithVat))
      && TextAt(root, [MonetaryTotalTag, CbcTag(PayableAmount)]) == Some(FormatAmount(data.totalWithVat))
      && TextAt(root, [TaxTotalTag, CbcTag(TaxAmount)]) == Some(FormatAmount(data.vatAmount))
      && AttrAt(root, [MonetaryTotalTag, CbcTag(PayableAmount)], CurrencyId) == Some("SAR")
      && AttrAt(root, [TaxTotalTag, CbcTag(TaxAmount)], CurrencyId) == Some(DocumentCurrency(data))
  {
    var root := CreateInvoiceXml(data, gen, signature, digest, encode);
    var mt := MonetaryTexts(FormatAmount(data.totalWithoutVat), FormatAmount(data.totalWithVat));
    DocumentSections(data, gen, signature, digest, encode);
    ReadMonetaryTree(mt);
    PayableInSar(mt);
    ReadVatTree(VatTextsOf(data));
    Below(root, MonetaryTotalTag, MonetaryTotals(data), CbcTag(TaxExclusiveAmount));
    Below(root, MonetaryTotalTag, MonetaryTotals(data), CbcTag(TaxInclusiveAmount));
    Below(root, MonetaryTotalTag, MonetaryTotals(data), CbcTag(PayableAmount));
    Below(root, TaxTotalTag, VatBreakdown(data)[0], CbcTag(TaxAmount));
  }

  /** The QR payload and the document agree: when the payload is
      unambiguous, its total and VAT fields are exactly the texts of the
      monetary total's tax inclusive amount and of the tax total. */
  lemma QrAgreesWithTotals(data: InvoiceData, gen: Generator, signature: Option<string>,
                           digest: string -> string, encode: string -> string)
    requires Unambiguous(data, digest)
    ensures var root := CreateInvoiceXml(data, gen, signature, digest, encode);
      var f := ReadQr(QrPayload(data, digest));
      && f.Some?
      && TextAt(root, [MonetaryTotalTag, CbcTag(TaxInclusiveAmount)]) == Some(f.value.total)
      && TextAt(root, [TaxTotalTag, CbcTag(TaxAmount)]) == Some(f.value.vatAmount)
  {
    QrReadsBack(data, digest);
    DocumentTotals(data, gen, signature, digest, encode);
  }

  /** The lines close the root, one per item in item order. */
  lemma DocumentLines(data: InvoiceData, gen: Generator, signature: Option<string>,
                      digest: string -> string, encode: string -> string)
    ensures var cs := CreateInvoiceXml(data, gen, signature, digest, encode).children;
      |cs| >= |data.items| && cs[|cs| - |data.items|..] == LineItems(data.items)
  {
    Assembled(data, gen, signature, digest, encode);
    LinesFollowItems(data.items);
    LinesClose(PartsOf(data, gen, signature, digest, encode));
  }

  lemma LinesClose(p: Parts)
    ensures |Children(p)| >= |p.lines| && Children(p)[|Children(p)| - |p.lines|..] == p.lines
  {
    var cs := Children(p);
    assert cs == ([p.extensions] + p.common + Middle(p)) + p.lines;
  }

  /** The ICV quirk: the counter is read after `create_simple_invoice` has
      moved it on, so an invoice with a default number carries an ICV one
      above the counter in its number. */
  lemma IcvAfterDefaultNumber(gen: Generator, seller: Record.Party, buyer: Record.Party, items: seq<LineItem>,
                              previousHash: Option<string>, issueDate: Option<string>, issueTime: Option<string>,
                              rate: Option<int>, clock: Clock, uuid: string, signature: Option<string>,
                              digest: string -> string, encode: string -> string,
                              data: InvoiceData, gen': Generator)
    requires (data, gen') == CreateSimpleInvoice(gen, seller, buyer, items, None, previousHash,
                                                 issueDate, issueTime, rate, clock, uuid)
    ensures CounterOfNumber(data.number, clock.compactDate) == Some(gen.counter)
    ensures IcvOf(CreateInvoiceXml(data, gen', signature, digest, encode)) == Some(gen.counter + 1)
  {
    DocumentReferences(data, gen', signature, digest, encode);
  }

  /** With a supplied number the counter does not move and the ICV is its
      current value. */
  lemma IcvAfterSuppliedNumber(gen: Generator, seller: Record.Party, buyer: Record.Party, items: seq<LineItem>,
                               number: string, previousHash: Option<string>,
                               issueDate: Option<string>, issueTime: Option<string>,
                               rate: Option<int>, clock: Clock, uuid: string, signature: Option<string>,
                               digest: string -> string, encode: string -> string,
                               data: InvoiceData, gen': Generator)
    requires (data, gen') == CreateSimpleInvoice(gen, seller, buyer, items, Some(number), previousHash,
                                                 issueDate, issueTime, rate, clock, uuid)
    ensures data.number == number
    ensures IcvOf(CreateInvoiceXml(data, gen', signature, digest, encode)) == Some(gen.counter)
  {
    DocumentReferences(data, gen', signature, digest, encode);
  }
}
