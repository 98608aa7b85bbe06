/** The seller and buyer sections (`_add_seller_info`, `_add_customer_info`)
    and the reader that recovers a party from either. */
module Parties {
  import opened Wrappers
  import opened Vocabulary
  import opened Xml
  import opened Record

  const SupplierTag := CacTag(AccountingSupplierParty)
  const CustomerTag := CacTag(AccountingCustomerParty)
  const PartyTag := CacTag(Local.Party)
  const IdentificationTag := CacTag(PartyIdentification)
  const AddressTag := CacTag(PostalAddress)
  const TaxSchemeTag := CacTag(PartyTaxScheme)
  const LegalEntityTag := CacTag(PartyLegalEntity)

  /** The address elements in schema order. */
  const AddressTags: seq<QName> := [
    CbcTag(StreetName), CbcTag(BuildingNumber), CbcTag(CityName),
    CbcTag(PostalZone), CbcTag(CountrySubentity), CacTag(Country)]

  /** Reads an address back by tag; every part must be present. */
  function ReadAddress(e: Element): Option<Address> {
    var street := ChildText(e, CbcTag(StreetName));
    var building := ChildText(e, CbcTag(BuildingNumber));
    var city := ChildText(e, CbcTag(CityName));
    var postal := ChildText(e, CbcTag(PostalZone));
    var district := ChildText(e, CbcTag(CountrySubentity));
    var country := TextAt(e, [CacTag(Country), CbcTag(IdentificationCode)]);
    if street.Some? && building.Some? && city.Some? && postal.Some? && district.Some? && country.Some?
    then Some(Address(street.value, building.value, city.value, district.value, postal.value, country.value))
    else None
  }

  /** The postal address block: postal code goes to `PostalZone`, district to
      `CountrySubentity`. */
  function AddressBlock(a: Address): Element {
    Node(AddressTag, [
      Leaf(CbcTag(StreetName), a.street),
      Leaf(CbcTag(BuildingNumber), a.building),
      Leaf(CbcTag(CityName), a.city),
      Leaf(CbcTag(PostalZone), a.postalCode),
      Leaf(CbcTag(CountrySubentity), a.district),
      Node(CacTag(Country), [Leaf(CbcTag(IdentificationCode), a.countryCode)])])
  }

  /** Any element whose children carry the address tags in schema order
      reads back as the address their texts spell. */
  lemma ReadAddressInOrder(e: Element)
    requires Tags(e.children) == AddressTags
    requires Tags(e.children[5].children) == [CbcTag(IdentificationCode)]
    ensures ReadAddress(e) == Some(Address(
      e.children[0].text, e.children[1].text, e.children[2].text,
      e.children[4].text, e.children[3].text, e.children[5].children[0].text))
  {
    FindByTags(e, AddressTags, 0);
    FindByTags(e, AddressTags, 1);
    FindByTags(e, AddressTags, 2);
    FindByTags(e, AddressTags, 3);
    FindByTags(e, AddressTags, 4);
    FindByTags2(e, AddressTags, 5, [CbcTag(IdentificationCode)], 0);
  }

  /** The address parts come in schema order and reading the block back
      gives the address. */
  lemma AddressBlockReadsBack(a: Address)
    ensures AddressBlock(a).tag == AddressTag && Tags(AddressBlock(a).children) == AddressTags
    ensures ReadAddress(AddressBlock(a)) == Some(a)
  {
    ReadAddressInOrder(AddressBlock(a));
  }

  /** The identification element of a party, if it has one. */
  function IdentificationOf(party: Element): Option<Element> {
    At(party, [IdentificationTag, CbcTag(ID)])
  }

  /** Reads a party back out of a supplier or customer section. */
  function ReadParty(section: Element): Option<Record.Party> {
    match Find(section, PartyTag)
    case None => None
    case Some(party) => ReadPartyElement(party)
  }

  /** Reads a `cac:Party` element. A missing identification reads as an empty
      number and scheme, a missing tax scheme as an empty VAT number. */
  function ReadPartyElement(party: Element): Option<Record.Party> {
    var name := TextAt(party, [LegalEntityTag, CbcTag(RegistrationName)]);
    var address := match Find(party, AddressTag) case Some(x) => ReadAddress(x) case None => None;
    var vat := TextAt(party, [TaxSchemeTag, CbcTag(CompanyID)]).GetOr("");
    var ident := IdentificationOf(party);
    var idNumber := match ident case Some(i) => i.text case None => "";
    var idScheme := match ident case Some(i) => AttrOf(i, SchemeId).GetOr("") case None => "";
    if name.Some? && address.Some?
    then Some(Record.Party(name.value, vat, idNumber, idScheme, address.value))
    else None
  }

  /** The children of the seller's party, in order. */
  const SellerPartyTags: seq<QName> := [IdentificationTag, AddressTag, TaxSchemeTag, LegalEntityTag]

  /** The children of the buyer's party, in order. */
  function BuyerPartyTags(identified: bool): seq<QName> {
    (if identified then [IdentificationTag] else []) + [AddressTag, LegalEntityTag]
  }

  /** A party laid out as the seller's is read from its four children. */
  lemma ReadSellerLayout(p: Element)
    requires Tags(p.children) == SellerPartyTags
    requires Tags(p.children[0].children) == [CbcTag(ID)]
    requires Tags(p.children[2].children) == [CbcTag(CompanyID), CacTag(TaxScheme)]
    requires Tags(p.children[3].children) == [CbcTag(RegistrationName)]
    requires ReadAddress(p.children[1]).Some?
    ensures ReadPartyElement(p) == Some(Record.Party(
      p.children[3].children[0].text, p.children[2].children[0].text,
      p.children[0].children[0].text, AttrOf(p.children[0].children[0], SchemeId).GetOr(""),
      ReadAddress(p.children[1]).value))
  {
    FindByTags(p, SellerPartyTags, 1);
    FindByTags2(p, SellerPartyTags, 0, [CbcTag(ID)], 0);
    FindByTags2(p, SellerPartyTags, 2, [CbcTag(CompanyID), CacTag(TaxScheme)], 0);
    FindByTags2(p, SellerPartyTags, 3, [CbcTag(RegistrationName)], 0);
  }

  /** A buyer's party with identification is read from its three children. */
  lemma ReadIdentifiedBuyerLayout(p: Element)
    requires Tags(p.children) == BuyerPartyTags(true)
    requires Tags(p.children[0].children) == [CbcTag(ID)]
    requires Tags(p.children[2].children) == [CbcTag(RegistrationName)]
    requires ReadAddress(p.children[1]).Some?
    ensures ReadPartyElement(p) == Some(Record.Party(
      p.children[2].children[0].text, "", p.children[0].children[0].text,
      AttrOf(p.children[0].children[0], SchemeId).GetOr(""), ReadAddress(p.children[1]).value))
  {
    var ts := BuyerPartyTags(true);
    FindByTags(p, ts, 1);
    FindByTags2(p, ts, 2, [CbcTag(RegistrationName)], 0);
    FindAbsent(p, ts, TaxSchemeTag);
    FindByTags2(p, ts, 0, [CbcTag(ID)], 0);
  }

  /** A buyer's party without identification reads with empty number,
      scheme and VAT number. */
  lemma ReadAnonymousBuyerLayout(p: Element)
    requires Tags(p.children) == BuyerPartyTags(false)
    requires Tags(p.children[1].children) == [CbcTag(RegistrationName)]
    requires ReadAddress(p.children[0]).Some?
    ensures ReadPartyElement(p) == Some(Record.Party(
      p.children[1].children[0].text, "", "", "", ReadAddress(p.children[0]).value))
  {
    var ts := BuyerPartyTags(false);
    FindByTags(p, ts, 0);
    FindByTags2(p, ts, 1, [CbcTag(RegistrationName)], 0);
    FindAbsent(p, ts, TaxSchemeTag);
    FindAbsent(p, ts, IdentificationTag);
  }

  function Identification(idNumber: string, idScheme: string): Element {
    Node(IdentificationTag, [Element(CbcTag(ID), [Attr(SchemeId, idScheme)], idNumber, [])])
  }

  function LegalEntity(name: string): Element {
    Node(LegalEntityTag, [Leaf(CbcTag(RegistrationName), name)])
  }

  /** `_add_seller_info`: the party always carries identification (with its
      `schemeID`), address, tax scheme and legal entity, in that order. */
  function SellerInfo(seller: Record.Party): Element {
    Node(SupplierTag, [Node(PartyTag, [
      Identification(seller.idNumber, seller.idScheme),
      AddressBlock(seller.address),
      SellerTaxScheme(seller.vat),
      LegalEntity(seller.name)])])
  }

  function SellerTaxScheme(vat: string): Element {
    Node(TaxSchemeTag, [
      Leaf(CbcTag(CompanyID), vat),
      Node(CacTag(TaxScheme), [Leaf(CbcTag(ID), "VAT")])])
  }

  /** The seller section holds one party whose children come in the order
      identification, address, tax scheme, legal entity. */
  lemma SellerInfoOrder(seller: Record.Party)
    ensures var e := SellerInfo(seller);
      && e.tag == SupplierTag && Tags(e.children) == [PartyTag]
      && Tags(e.children[0].children) == SellerPartyTags
  {
    var e := SellerInfo(seller);
    var p := e.children[0];
    Tags1(p);
    Tags4(p.children[0], p.children[1], p.children[2], p.children[3]);
  }

  /** The seller's identification keeps its `schemeID` and its tax scheme is
      `VAT`. */
  lemma SellerInfoSchemes(seller: Record.Party)
    ensures var party := SellerInfo(seller).children[0];
      && IdentificationOf(party).Some?
      && AttrOf(IdentificationOf(party).value, SchemeId) == Some(seller.idScheme)
      && TextAt(party, [TaxSchemeTag, CacTag(TaxScheme), CbcTag(ID)]) == Some("VAT")
  {
    var party := SellerInfo(seller).children[0];
    var taxScheme := party.children[2];
    SellerInfoOrder(seller);
    Tags1(party.children[0].children[0]);
    Tags2(taxScheme.children[0], taxScheme.children[1]);
    Tags1(taxScheme.children[1].children[0]);
    FindByTags2(party, SellerPartyTags, 0, [CbcTag(ID)], 0);
    FindByTags(party, SellerPartyTags, 2);
    FindByTags2(taxScheme, [CbcTag(CompanyID), CacTag(TaxScheme)], 1, [CbcTag(ID)], 0);
    AtCons(party, TaxSchemeTag, [CacTag(TaxScheme), CbcTag(ID)]);
  }

  /** Reading the seller section back gives the seller unchanged. */
  lemma SellerInfoReadsBack(seller: Record.Party)
    ensures ReadParty(SellerInfo(seller)) == Some(seller)
  {
    var e := SellerInfo(seller);
    FindByTags(e, [PartyTag], 0);
    AddressBlockReadsBack(seller.address);
    var p := e.children[0];
    SellerInfoOrder(seller);
    Tags1(p.children[0].children[0]);
    Tags2(p.children[2].children[0], p.children[2].children[1]);
    Tags1(p.children[3].children[0]);
    ReadSellerLayout(p);
  }

  /** What a reader recovers of a buyer: no VAT number (it is not emitted),
      and the scheme only when there is an identification number. */
  function BuyerView(buyer: Record.Party): Record.Party {
    Record.Party(buyer.name, "", buyer.idNumber, if buyer.idNumber != "" then buyer.idScheme else "", buyer.address)
  }

  /** `_add_customer_info`: identification only for a non-empty id number,
      then address and legal entity; no tax scheme. */
  function CustomerInfo(buyer: Record.Party): Element {
    var ident := if buyer.idNumber != "" then [Identification(buyer.idNumber, buyer.idScheme)] else [];
    Node(CustomerTag, [Node(PartyTag, ident + [AddressBlock(buyer.address), LegalEntity(buyer.name)])])
  }

  /** The buyer's party has identification exactly when the id number is
      non-empty, then always address and legal entity, and never a tax
      scheme. */
  lemma CustomerInfoOrder(buyer: Record.Party)
    ensures var e := CustomerInfo(buyer);
      && e.tag == CustomerTag && Tags(e.children) == [PartyTag]
      && Tags(e.children[0].children) == BuyerPartyTags(buyer.idNumber != "")
      && (Find(e.children[0], IdentificationTag).Some? <==> buyer.idNumber != "")
      && Find(e.children[0], TaxSchemeTag).None?
  {
    var e := CustomerInfo(buyer);
    var party := e.children[0];
    var cs := party.children;
    var ts := BuyerPartyTags(buyer.idNumber != "");
    Tags1(party);
    if buyer.idNumber != "" {
      Tags3(cs[0], cs[1], cs[2]);
      FindByTags(party, ts, 0);
    } else {
      Tags2(cs[0], cs[1]);
      FindAbsent(party, ts, IdentificationTag);
    }
    FindAbsent(party, ts, TaxSchemeTag);
  }

  /** Reading the buyer section back gives the buyer as `BuyerView` sees it. */
  lemma CustomerInfoReadsBack(buyer: Record.Party)
    ensures ReadParty(CustomerInfo(buyer)) == Some(BuyerView(buyer))
  {
    var e := CustomerInfo(buyer);
    var p := e.children[0];
    FindByTags(e, [PartyTag], 0);
    AddressBlockReadsBack(buyer.address);
    CustomerInfoOrder(buyer);
    if buyer.idNumber != "" {
      Tags1(p.children[0].children[0]);
      Tags1(p.children[2].children[0]);
      ReadIdentifiedBuyerLayout(p);
    } else {
      Tags1(p.children[1].children[0]);
      ReadAnonymousBuyerLayout(p);
    }
  }
}
