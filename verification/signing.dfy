/** The enveloped-signature skeleton `_add_signature_placeholder` puts in the
    document's UBL extensions: one reference to the whole document whose
    transforms are three XPath filters, as in
    section 6.6.3 of XML-Signature Syntax and Processing,
    followed by Canonical XML 1.1. The digest value, the fallback signature
    value and the certificate are the base64 of fixed byte strings in
    zatca_app.py; here they come from the `digest` and `encode` parameters
    that stand for SHA-256-then-base64 and base64. */
module Signing {
  import opened Wrappers
  import opened Vocabulary
  import opened Xml

  const ExtensionsTag := QName(Ext, UBLExtensions)
  const ExtensionTag := QName(Ext, UBLExtension)
  const ContentTag := QName(Ext, ExtensionContent)
  const DocumentSignaturesTag := QName(Sig, UBLDocumentSignatures)
  const InformationTag := QName(Sac, SignatureInformation)
  const DsSignatureTag := QName(Ds, Signature)
  const SignedInfoTag := QName(Ds, SignedInfo)
  const ReferenceTag := QName(Ds, Reference)
  const TransformsTag := QName(Ds, Transforms)
  const TransformTag := QName(Ds, Transform)
  const XPathTag := QName(Ds, XPath)
  const DigestValueTag := QName(Ds, DigestValue)
  const SignatureValueTag := QName(Ds, SignatureValue)
  const KeyInfoTag := QName(Ds, KeyInfo)
  const X509DataTag := QName(Ds, X509Data)

  const EnvelopedXades := "urn:oasis:names:specification:ubl:dsig:enveloped:xades"
  const SignatureInformationId := "urn:oasis:names:specification:ubl:signature:1"
  const ReferencedSignature := "urn:oasis:names:specification:ubl:signature:Invoice"
  const C14n11 := "http://www.w3.org/2006/12/xml-c14n11"
  const EcdsaSha256 := "http://www.w3.org/2001/04/xmldsig-more#ecdsa-sha256"
  const XPathFilter := "http://www.w3.org/TR/1999/REC-xpath-19991116"
  const Sha256 := "http://www.w3.org/2001/04/xmlenc#sha256"

  /** The three XPath filters: leave out the extensions, any `cac:Signature`
      and the QR reference. */
  const ExcludeExtensions := "not(//ancestor-or-self::ext:UBLExtensions)"
  const ExcludeSignature := "not(//ancestor-or-self::cac:Signature)"
  const ExcludeQr := "not(//ancestor-or-self::cac:AdditionalDocumentReference[cbc:ID='QR'])"

  /** A transform as a verifier reads it: its algorithm and, for an XPath
      filter, the expression. */
  datatype TransformStep = TransformStep(algorithm: string, xpath: Option<string>)

  /** The transforms the signed document's reference must list, in order. */
  const RequiredTransforms: seq<TransformStep> := [
    TransformStep(XPathFilter, Some(ExcludeExtensions)),
    TransformStep(XPathFilter, Some(ExcludeSignature)),
    TransformStep(XPathFilter, Some(ExcludeQr)),
    TransformStep(C14n11, None)]

  function ReadTransform(e: Element): TransformStep {
    TransformStep(AttrOf(e, Algorithm).GetOr(""), ChildText(e, XPathTag))
  }

  function ReadTransforms(transforms: Element): seq<TransformStep> {
    seq(|transforms.children|, i requires 0 <= i < |transforms.children| => ReadTransform(transforms.children[i]))
  }

  function XPathTransform(expr: string): Element {
    Element(TransformTag, [Attr(Algorithm, XPathFilter)], "", [Leaf(XPathTag, expr)])
  }

  function AlgorithmElement(tag: QName, algorithm: string): Element {
    Element(tag, [Attr(Algorithm, algorithm)], "", [])
  }

  const TransformsElement := Node(TransformsTag, [
    XPathTransform(ExcludeExtensions),
    XPathTransform(ExcludeSignature),
    XPathTransform(ExcludeQr),
    AlgorithmElement(TransformTag, C14n11)])

  /** The reference's transforms read back as exactly the required four, in
      order, and every one of them is a transform. */
  lemma TransformsInOrder()
    ensures Tags(TransformsElement.children) == [TransformTag, TransformTag, TransformTag, TransformTag]
    ensures ReadTransforms(TransformsElement) == RequiredTransforms
  {
    var cs := TransformsElement.children;
    Tags4(cs[0], cs[1], cs[2], cs[3]);
    Tags1(cs[0].children[0]);
    FindByTags(cs[0], [XPathTag], 0);
    FindByTags(cs[1], [XPathTag], 0);
    FindByTags(cs[2], [XPathTag], 0);
    FindAbsent(cs[3], [], XPathTag);
  }

  /** `signature` when it is given and non-empty, else base64 of
      "signature_placeholder". */
  function SignatureValueOf(signature: Option<string>, encode: string -> string): string {
    if Truthy(signature) then signature.value else encode("signature_placeholder")
  }

  /** The texts the signature skeleton carries. */
  datatype SignatureTexts = SignatureTexts(digestValue: string, signatureValue: string, certificate: string)

  function SignatureTextsOf(signature: Option<string>, digest: string -> string, encode: string -> string): SignatureTexts {
    SignatureTexts(digest("invoice_digest"), SignatureValueOf(signature, encode), encode("certificate_placeholder"))
  }

  /** `ds:Signature` around its texts. */
  function DsSignature(t: SignatureTexts): Element {
    Element(DsSignatureTag, [Attr(IdAttr, "signature")], "", [
      Node(SignedInfoTag, [
        AlgorithmElement(QName(Ds, CanonicalizationMethod), C14n11),
        AlgorithmElement(QName(Ds, SignatureMethod), EcdsaSha256),
        Element(ReferenceTag, [Attr(UriAttr, "")], "", [
          TransformsElement,
          AlgorithmElement(QName(Ds, DigestMethod), Sha256),
          Leaf(DigestValueTag, t.digestValue)])]),
      Leaf(SignatureValueTag, t.signatureValue),
      Node(KeyInfoTag, [Node(X509DataTag, [Leaf(QName(Ds, X509Certificate), t.certificate)])])])
  }

  /** The `ext:UBLExtension` holding the signature. */
  function SignatureExtension(t: SignatureTexts): Element {
    Node(ExtensionTag, [
      Leaf(QName(Ext, ExtensionURI), EnvelopedXades),
      Node(ContentTag, [
        Node(DocumentSignaturesTag, [
          Node(InformationTag, [
            Leaf(CbcTag(ID), SignatureInformationId),
            Leaf(QName(Sbc, ReferencedSignatureID), ReferencedSignature),
            DsSignature(t)])])])])
  }

  /** The path from the extension to the signature element. */
  const SignaturePath: seq<QName> := [ContentTag, DocumentSignaturesTag, InformationTag, DsSignatureTag]

  /** The signature element of a signature extension, as a reader finds it. */
  function SignatureIn(extension: Element): Option<Element> {
    At(extension, SignaturePath)
  }

  /** Walking a path from an element whose children carry `ts`. */
  lemma AtByTags(e: Element, ts: seq<QName>, k: nat, rest: seq<QName>)
    requires Tags(e.children) == ts && k < |ts| && ts[k] !in ts[..k]
    ensures At(e, [ts[k]] + rest) == At(e.children[k], rest)
  {
    FindByTags(e, ts, k);
    AtCons(e, ts[k], rest);
  }

  /** A reader following the signature path from the extension lands on the
      signature element. */
  lemma SignatureFound(t: SignatureTexts)
    ensures SignatureIn(SignatureExtension(t)) == Some(DsSignature(t))
  {
    var x := SignatureExtension(t);
    var content := x.children[1];
    var sigs := content.children[0];
    var info := sigs.children[0];
    Tags2(x.children[0], x.children[1]);
    Tags1(sigs);
    Tags1(info);
    Tags3(info.children[0], info.children[1], info.children[2]);
    AtByTags(x, [QName(Ext, ExtensionURI), ContentTag], 1, SignaturePath[1..]);
    AtByTags(content, [DocumentSignaturesTag], 0, SignaturePath[2..]);
    AtByTags(sigs, [InformationTag], 0, SignaturePath[3..]);
    AtByTags(info, [CbcTag(ID), QName(Sbc, ReferencedSignatureID), DsSignatureTag], 2, []);
    assert [SignaturePath[0]] + SignaturePath[1..] == SignaturePath;
    assert [SignaturePath[1]] + SignaturePath[2..] == SignaturePath[1..];
    assert [SignaturePath[2]] + SignaturePath[3..] == SignaturePath[2..];
    assert [SignaturePath[3]] + [] == SignaturePath[3..];
  }

  /** In the signature element: the signed info's reference lists the
      required transforms, the digest value and signature value are the
      texts, and the signature carries `Id="signature"`. */
  lemma DsSignatureRead(t: SignatureTexts)
    ensures var s := DsSignature(t);
      && AttrOf(s, IdAttr) == Some("signature")
      && TextAt(s, [SignatureValueTag]) == Some(t.signatureValue)
      && At(s, [SignedInfoTag, ReferenceTag, TransformsTag]) == Some(TransformsElement)
      && TextAt(s, [SignedInfoTag, ReferenceTag, DigestValueTag]) == Some(t.digestValue)
      && AttrAt(s, [SignedInfoTag, ReferenceTag], UriAttr) == Some("")
  {
    var s := DsSignature(t);
    var si := s.children[0];
    var ref := si.children[2];
    var sTags := [SignedInfoTag, SignatureValueTag, KeyInfoTag];
    var siTags := [QName(Ds, CanonicalizationMethod), QName(Ds, SignatureMethod), ReferenceTag];
    var refTags := [TransformsTag, QName(Ds, DigestMethod), DigestValueTag];
    Tags3(s.children[0], s.children[1], s.children[2]);
    Tags3(si.children[0], si.children[1], si.children[2]);
    Tags3(ref.children[0], ref.children[1], ref.children[2]);
    FindByTags(s, sTags, 1);
    FindByTags3(s, sTags, 0, siTags, 2, refTags, 0);
    FindByTags3(s, sTags, 0, siTags, 2, refTags, 2);
    FindByTags2(s, sTags, 0, siTags, 2);
  }

  /** The signature value a reader finds is the supplied signature when it
      is non-empty, and the placeholder otherwise; the transforms are the
      required four in order. */
  lemma SignatureSkeleton(signature: Option<string>, digest: string -> string, encode: string -> string)
    ensures var t := SignatureTextsOf(signature, digest, encode);
      && SignatureIn(SignatureExtension(t)) == Some(DsSignature(t))
      && TextAt(DsSignature(t), [SignatureValueTag])
         == Some(if Truthy(signature) then signature.value else encode("signature_placeholder"))
      && TextAt(DsSignature(t), [SignedInfoTag, ReferenceTag, DigestValueTag]) == Some(digest("invoice_digest"))
      && At(DsSignature(t), [SignedInfoTag, ReferenceTag, TransformsTag]) == Some(TransformsElement)
      && ReadTransforms(TransformsElement) == RequiredTransforms
  {
    var t := SignatureTextsOf(signature, digest, encode);
    SignatureFound(t);
    DsSignatureRead(t);
    TransformsInOrder();
  }

  /** `_add_signature_placeholder`: appends the signature extension to the
      root's first `UBLExtensions`, creating one at position 0 when there is
      none. */
  function AddSignaturePlaceholder(root: Element, t: SignatureTexts): Element {
    var extension := SignatureExtension(t);
    match FirstIndex(root.children, ExtensionsTag)
    case None => root.(children := [Node(ExtensionsTag, [extension])] + root.children)
    case Some(k) => root.(children := root.children[k := Append(root.children[k], [extension])])
  }

  /** Replacing an element by one with the same tag keeps every tag count. */
  lemma {:induction false} CountTagUpdate(es: seq<Element>, k: nat, e: Element, tag: QName)
    requires k < |es| && e.tag == es[k].tag
    ensures CountTag(es[k := e], tag) == CountTag(es, tag)
    decreases |es|
  {
    if k > 0 {
      CountTagUpdate(es[1..], k - 1, e, tag);
      assert es[k := e][1..] == es[1..][k - 1 := e];
    } else {
      assert es[k := e][1..] == es[1..];
    }
  }

  /** No element carries the tag, so none is counted. */
  lemma {:induction false} CountTagNone(es: seq<Element>, tag: QName)
    requires forall j :: 0 <= j < |es| ==> es[j].tag != tag
    ensures CountTag(es, tag) == 0
    decreases |es|
  {
    if |es| > 0 {
      CountTagNone(es[1..], tag);
    }
  }

  /** An existing `UBLExtensions` is reused: the number of them stays the
      same, and is one when there was none. The root's other children stay
      in place, the extensions found first get the signature extension as
      their last child, and nothing else changes. */
  lemma SignaturePlaceholderPlacement(root: Element, t: SignatureTexts)
    ensures var r := AddSignaturePlaceholder(root, t);
      && r.tag == root.tag && r.attrs == root.attrs && r.text == root.text
      && CountTag(r.children, ExtensionsTag)
           == (if CountTag(root.children, ExtensionsTag) == 0 then 1 else CountTag(root.children, ExtensionsTag))
      && Find(r, ExtensionsTag).Some?
      && var x := Find(r, ExtensionsTag).value;
         |x.children| > 0 && x.children[|x.children| - 1] == SignatureExtension(t)
  {
    var r := AddSignaturePlaceholder(root, t);
    var extension := SignatureExtension(t);
    match FirstIndex(root.children, ExtensionsTag)
    case None =>
      CountTagNone(root.children, ExtensionsTag);
      assert r.children[1..] == root.children;
      FindFirst(r, 0, ExtensionsTag);
    case Some(k) =>
      CountTagUpdate(root.children, k, Append(root.children[k], [extension]), ExtensionsTag);
      assert CountTag(root.children, ExtensionsTag) > 0 by {
        CountTagPositive(root.children, k, ExtensionsTag);
      }
      FindFirst(r, k, ExtensionsTag);
  }

  lemma {:induction false} CountTagPositive(es: seq<Element>, k: nat, tag: QName)
    requires k < |es| && es[k].tag == tag
    ensures CountTag(es, tag) > 0
    decreases k
  {
    if k > 0 {
      CountTagPositive(es[1..], k - 1, tag);
    }
  }

  /** When the root has no extensions yet, they are inserted in front and
      the root's children follow unchanged; otherwise every child other
      than the extensions found keeps its place and content. */
  lemma SignaturePlaceholderFrame(root: Element, t: SignatureTexts)
    ensures var r := AddSignaturePlaceholder(root, t);
      r.tag == root.tag && r.attrs == root.attrs && r.text == root.text
    ensures var r := AddSignaturePlaceholder(root, t);
      match FirstIndex(root.children, ExtensionsTag)
      case None =>
        && |r.children| == |root.children| + 1
        && r.children[0].tag == ExtensionsTag
        && r.children[0].children == [SignatureExtension(t)]
        && r.children[1..] == root.children
      case Some(k) =>
        && |r.children| == |root.children|
        && (forall j :: 0 <= j < |root.children| && j != k ==> r.children[j] == root.children[j])
        && r.children[k].tag == root.children[k].tag
        && r.children[k].attrs == root.children[k].attrs
        && r.children[k].text == root.children[k].text
        && r.children[k].children == root.children[k].children + [SignatureExtension(t)]
  {
    var r := AddSignaturePlaceholder(root, t);
    if FirstIndex(root.children, ExtensionsTag).None? {
      assert r.children[1..] == root.children;
    }
  }
}
