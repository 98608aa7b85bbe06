/** The document identity (`_add_common_elements`) and the additional document
    references: the invoice counter value (ICV), the previous invoice hash
    (PIH) that chains invoices together, and the QR payload reference
    (`_add_qr_code`). */
module Header {
  import opened Wrappers
  import opened Digits
  import opened Vocabulary
  import opened Xml
  import opened Record

  /** The plain, un-namespaced root tag `etree.Element("Invoice", ...)` gets. */
  const InvoiceTag := QName(NoNamespace, Invoice)

  const DocRef := CacTag(AdditionalDocumentReference)

  const CustomizationId := "urn:cen.eu:en16931:2017#compliant#urn:fdc:peppol.eu:2017:poacc:billing:3.0"

  /** The identity elements, in schema order. */
  const IdentityTags: seq<QName> := [
    CbcTag(UBLVersionID), CbcTag(CustomizationID), CbcTag(ProfileID),
    CbcTag(ID), CbcTag(UUID), CbcTag(IssueDate), CbcTag(IssueTime),
    CbcTag(InvoiceTypeCode), CbcTag(DocumentCurrencyCode), CbcTag(TaxCurrencyCode)]

  /** What a reader takes from the identity block of a root. */
  datatype Identity = Identity(
    version: string,
    customization: string,
    profile: string,
    number: string,
    uuid: string,
    issueDate: string,
    issueTime: string,
    typeCode: string,
    typeName: string,
    documentCurrency: string,
    taxCurrency: string)

  /** Reads the identity of a root by looking each element up by tag. */
  function ReadIdentity(root: Element): Option<Identity> {
    var version := Find(root, IdentityTags[0]);
    var customization := Find(root, IdentityTags[1]);
    var profile := Find(root, IdentityTags[2]);
    var number := Find(root, IdentityTags[3]);
    var uuid := Find(root, IdentityTags[4]);
    var date := Find(root, IdentityTags[5]);
    var time := Find(root, IdentityTags[6]);
    var typeCode := Find(root, IdentityTags[7]);
    var docCurrency := Find(root, IdentityTags[8]);
    var taxCurrency := Find(root, IdentityTags[9]);
    if version.Some? && customization.Some? && profile.Some? && number.Some? && uuid.Some?
       && date.Some? && time.Some? && typeCode.Some? && docCurrency.Some? && taxCurrency.Some?
    then Some(Identity(version.value.text, customization.value.text, profile.value.text,
                       number.value.text, uuid.value.text, date.value.text, time.value.text,
                       typeCode.value.text, AttrOf(typeCode.value, NameAttr).GetOr(""),
                       docCurrency.value.text, taxCurrency.value.text))
    else None
  }

  /** The identity a reader sees depends only on what `Find` answers for the
      identity tags, so other elements before or after it do not disturb it. */
  lemma ReadIdentityFrame(r1: Element, r2: Element)
    requires forall i :: 0 <= i < |IdentityTags| ==> Find(r1, IdentityTags[i]) == Find(r2, IdentityTags[i])
    ensures ReadIdentity(r1) == ReadIdentity(r2)
  {
    assert |IdentityTags| == 10;
    assert Find(r1, IdentityTags[0]) == Find(r2, IdentityTags[0]);
    assert Find(r1, IdentityTags[1]) == Find(r2, IdentityTags[1]);
    assert Find(r1, IdentityTags[2]) == Find(r2, IdentityTags[2]);
    assert Find(r1, IdentityTags[3]) == Find(r2, IdentityTags[3]);
    assert Find(r1, IdentityTags[4]) == Find(r2, IdentityTags[4]);
    assert Find(r1, IdentityTags[5]) == Find(r2, IdentityTags[5]);
    assert Find(r1, IdentityTags[6]) == Find(r2, IdentityTags[6]);
    assert Find(r1, IdentityTags[7]) == Find(r2, IdentityTags[7]);
    assert Find(r1, IdentityTags[8]) == Find(r2, IdentityTags[8]);
    assert Find(r1, IdentityTags[9]) == Find(r2, IdentityTags[9]);
  }

  /** The identity as a record field set. */
  function IdentityOf(data: InvoiceData): Identity {
    Identity("2.1", CustomizationId, "reporting:1.0", data.number, data.uuid,
             data.issueDate, data.issueTime, "388", "0100000", "SAR", "SAR")
  }

  /** The first part of `_add_common_elements`: the identity elements in
      schema order; a reader gets the record's number, UUID, date and time
      back, with the fixed version, profile, type code "388"/"0100000" and
      currency "SAR". */
  function IdentityBlock(data: InvoiceData): (es: seq<Element>)
    ensures Tags(es) == IdentityTags
    ensures ReadIdentity(Node(InvoiceTag, es)) == Some(IdentityOf(data))
  {
    var es := [
      Leaf(CbcTag(UBLVersionID), "2.1"),
      Leaf(CbcTag(CustomizationID), CustomizationId),
      Leaf(CbcTag(ProfileID), "reporting:1.0"),
      Leaf(CbcTag(ID), data.number),
      Leaf(CbcTag(UUID), data.uuid),
      Leaf(CbcTag(IssueDate), data.issueDate),
      Leaf(CbcTag(IssueTime), data.issueTime),
      Element(CbcTag(InvoiceTypeCode), [Attr(NameAttr, "0100000")], "388", []),
      Leaf(CbcTag(DocumentCurrencyCode), "SAR"),
      Leaf(CbcTag(TaxCurrencyCode), "SAR")];
    forall i | 0 <= i < 10
      ensures Tags(es)[i] == IdentityTags[i]
    {
    }
    ReadIdentityInOrder(Node(InvoiceTag, es));
    es
  }

  /** Any root whose first children carry the identity tags in order reads
      back as the identity their texts spell. */
  lemma ReadIdentityInOrder(root: Element)
    requires |root.children| >= 10 && Tags(root.children[..10]) == IdentityTags
    ensures var c := root.children;
      ReadIdentity(root) == Some(Identity(c[0].text, c[1].text, c[2].text, c[3].text, c[4].text,
        c[5].text, c[6].text, c[7].text, AttrOf(c[7], NameAttr).GetOr(""), c[8].text, c[9].text))
  {
    var front := Node(InvoiceTag, root.children[..10]);
    IdentityTagsDistinct();
    forall i | 0 <= i < 10
      ensures Find(root, IdentityTags[i]) == Some(root.children[i])
    {
      assert IdentityTags[i] !in IdentityTags[..i];
      FindByTags(front, IdentityTags, i);
      FindInAppend(root.children[..10], root.children[10..], IdentityTags[i]);
      assert root.children[..10] + root.children[10..] == root.children;
    }
  }

  lemma IdentityTagsDistinct()
    ensures forall i, j :: 0 <= i < j < |IdentityTags| ==> IdentityTags[i] != IdentityTags[j]
  {
  }

  /** The first additional document reference whose `cbc:ID` is `id`. */
  function ReferenceWithId(es: seq<Element>, id: string): Option<Element> {
    if |es| == 0 then None
    else if es[0].tag == DocRef && TextAt(es[0], [CbcTag(ID)]) == Some(id) then Some(es[0])
    else ReferenceWithId(es[1..], id)
  }

  /** Looking a reference up in a concatenation looks in the front part
      first. */
  lemma {:induction false} ReferenceWithIdAppend(a: seq<Element>, b: seq<Element>, id: string)
    ensures ReferenceWithId(a + b, id)
         == if ReferenceWithId(a, id).Some? then ReferenceWithId(a, id) else ReferenceWithId(b, id)
    decreases |a|
  {
    if |a| == 0 {
      assert a + b == b;
    } else {
      assert (a + b)[0] == a[0];
      assert (a + b)[1..] == a[1..] + b;
      ReferenceWithIdAppend(a[1..], b, id);
    }
  }

  /** The text of a reference's embedded attachment. */
  function AttachmentText(e: Element): Option<string> {
    TextAt(e, [CacTag(Attachment), CbcTag(EmbeddedDocumentBinaryObject)])
  }

  function AttachmentMime(e: Element): Option<string> {
    match At(e, [CacTag(Attachment), CbcTag(EmbeddedDocumentBinaryObject)])
    case Some(o) => AttrOf(o, MimeCode)
    case None => None
  }

  /** A reference carrying `payload` as a plain-text attachment; the PIH and
      QR references both have this shape. */
  function EmbeddedReference(id: string, payload: string): (e: Element)
    ensures e.tag == DocRef && Tags(e.children) == [CbcTag(ID), CacTag(Attachment)]
    ensures TextAt(e, [CbcTag(ID)]) == Some(id)
    ensures AttachmentText(e) == Some(payload) && AttachmentMime(e) == Some("text/plain")
  {
    var binary := Element(CbcTag(EmbeddedDocumentBinaryObject), [Attr(MimeCode, "text/plain")], payload, []);
    var attachment := Node(CacTag(Attachment), [binary]);
    var e := Node(DocRef, [Leaf(CbcTag(ID), id), attachment]);
    FindFirst(e, 0, CbcTag(ID));
    FindFirst(e, 1, CacTag(Attachment));
    FindFirst(attachment, 0, CbcTag(EmbeddedDocumentBinaryObject));
    AtCons(e, CbcTag(ID), []);
    AtCons(e, CacTag(Attachment), [CbcTag(EmbeddedDocumentBinaryObject)]);
    AtCons(attachment, CbcTag(EmbeddedDocumentBinaryObject), []);
    e
  }

  /** The invoice counter reference; its UUID text is `str(counter)`. */
  function IcvReference(counter: nat): (e: Element)
    ensures e.tag == DocRef && Tags(e.children) == [CbcTag(ID), CbcTag(UUID)]
    ensures TextAt(e, [CbcTag(ID)]) == Some("ICV")
    ensures TextAt(e, [CbcTag(UUID)]).Some?
    ensures ParseNat(TextAt(e, [CbcTag(UUID)]).value) == Some(counter)
  {
    var e := Node(DocRef, [Leaf(CbcTag(ID), "ICV"), Leaf(CbcTag(UUID), NatToString(counter))]);
    FindFirst(e, 0, CbcTag(ID));
    FindFirst(e, 1, CbcTag(UUID));
    AtCons(e, CbcTag(ID), []);
    AtCons(e, CbcTag(UUID), []);
    e
  }

  /** The second part of `_add_common_elements`: the ICV reference, then
      the PIH reference exactly when a non-empty previous hash is recorded. */
  function ChainReferences(data: InvoiceData, counter: nat): (es: seq<Element>)
    ensures Tags(es) == [DocRef] + (if Truthy(data.previousHash) then [DocRef] else [])
    ensures ReferenceWithId(es, "ICV").Some?
    ensures ParseNat(TextAt(ReferenceWithId(es, "ICV").value, [CbcTag(UUID)]).GetOr("")) == Some(counter)
    ensures ReferenceWithId(es, "PIH").Some? <==> Truthy(data.previousHash)
    ensures Truthy(data.previousHash) ==> AttachmentText(ReferenceWithId(es, "PIH").value) == data.previousHash
  {
    var icv := IcvReference(counter);
    var pih := if Truthy(data.previousHash) then [EmbeddedReference("PIH", data.previousHash.value)] else [];
    TagsAppend([icv], pih);
    assert Tags([icv]) == [DocRef];
    ReferenceWithIdAppend([icv], pih, "PIH");
    [icv] + pih
  }

  /** `_add_common_elements`: the identity block followed by the chain
      references; looking up the identity or a reference in the whole gives
      what each part promises. */
  function CommonElements(data: InvoiceData, counter: nat): (es: seq<Element>)
    ensures Tags(es) == IdentityTags + ([DocRef] + (if Truthy(data.previousHash) then [DocRef] else []))
    ensures ReadIdentity(Node(InvoiceTag, es)) == Some(IdentityOf(data))
    ensures ReferenceWithId(es, "ICV") == ReferenceWithId(ChainReferences(data, counter), "ICV")
    ensures ReferenceWithId(es, "PIH") == ReferenceWithId(ChainReferences(data, counter), "PIH")
  {
    var identity := IdentityBlock(data);
    var refs := ChainReferences(data, counter);
    IdentityThenReferences(identity, refs);
    identity + refs
  }

  /** Any reference looked up in the common elements is the one the chain
      references hold; in particular neither the identity nor the chain
      holds a QR reference. */
  lemma CommonReferences(data: InvoiceData, counter: nat, id: string)
    ensures ReferenceWithId(CommonElements(data, counter), id) == ReferenceWithId(ChainReferences(data, counter), id)
    ensures ReferenceWithId(CommonElements(data, counter), "QR").None?
  {
    var identity := IdentityBlock(data);
    var refs := ChainReferences(data, counter);
    IdentityHoldsNoReference(identity);
    NoReferenceInIdentity(identity, id);
    ReferenceWithIdAppend(identity, refs, id);
    NoReferenceInIdentity(identity, "QR");
    ReferenceWithIdAppend(identity, refs, "QR");
    ChainHasNoQr(data, counter);
  }

  lemma ChainHasNoQr(data: InvoiceData, counter: nat)
    ensures ReferenceWithId(ChainReferences(data, counter), "QR").None?
  {
    var icv := IcvReference(counter);
    var pih := if Truthy(data.previousHash) then [EmbeddedReference("PIH", data.previousHash.value)] else [];
    ReferenceWithIdAppend([icv], pih, "QR");
    assert [icv][1..] == [];
    if Truthy(data.previousHash) {
      assert pih[1..] == [];
    }
  }

  /** Putting references after an identity block keeps both readable. */
  lemma IdentityThenReferences(identity: seq<Element>, refs: seq<Element>)
    requires Tags(identity) == IdentityTags
    ensures Tags(identity + refs) == IdentityTags + Tags(refs)
    ensures ReadIdentity(Node(InvoiceTag, identity + refs)) == ReadIdentity(Node(InvoiceTag, identity))
    ensures ReferenceWithId(identity + refs, "ICV") == ReferenceWithId(refs, "ICV")
    ensures ReferenceWithId(identity + refs, "PIH") == ReferenceWithId(refs, "PIH")
  {
    TagsAppend(identity, refs);
    IdentityStaysFirst(identity, refs);
    IdentityHoldsNoReference(identity);
    NoReferenceInIdentity(identity, "ICV");
    NoReferenceInIdentity(identity, "PIH");
    ReferenceWithIdAppend(identity, refs, "ICV");
    ReferenceWithIdAppend(identity, refs, "PIH");
  }

  /** Elements appended after a complete identity block do not change it. */
  lemma IdentityStaysFirst(identity: seq<Element>, rest: seq<Element>)
    requires Tags(identity) == IdentityTags
    ensures ReadIdentity(Node(InvoiceTag, identity + rest)) == ReadIdentity(Node(InvoiceTag, identity))
  {
    forall i | 0 <= i < |IdentityTags|
      ensures Find(Node(InvoiceTag, identity + rest), IdentityTags[i]) == Find(Node(InvoiceTag, identity), IdentityTags[i])
    {
      assert identity[i].tag == IdentityTags[i];
      FindInAppend(identity, rest, IdentityTags[i]);
    }
    ReadIdentityFrame(Node(InvoiceTag, identity + rest), Node(InvoiceTag, identity));
  }

  lemma IdentityHoldsNoReference(identity: seq<Element>)
    requires Tags(identity) == IdentityTags
    ensures forall i :: 0 <= i < |identity| ==> identity[i].tag != DocRef
  {
    forall i | 0 <= i < |identity|
      ensures identity[i].tag != DocRef
    {
      assert identity[i].tag == Tags(identity)[i] == IdentityTags[i];
      assert IdentityTags[i].ns == Cbc;
    }
  }

  lemma {:induction false} NoReferenceInIdentity(identity: seq<Element>, id: string)
    requires forall i :: 0 <= i < |identity| ==> identity[i].tag != DocRef
    ensures ReferenceWithId(identity, id).None?
    decreases |identity|
  {
    if |identity| > 0 {
      NoReferenceInIdentity(identity[1..], id);
    }
  }

  /** `_add_qr_code`: the QR reference carries the payload as transformed by
      `encode` (base64 of the UTF-8 bytes in `_add_qr_code`). */
  function QrReference(qr: string, encode: string -> string): (e: Element)
    ensures e.tag == DocRef
    ensures TextAt(e, [CbcTag(ID)]) == Some("QR")
    ensures AttachmentText(e) == Some(encode(qr)) && AttachmentMime(e) == Some("text/plain")
  {
    EmbeddedReference("QR", encode(qr))
  }
}
