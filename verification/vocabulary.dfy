/** The vocabulary of the invoice document: the namespaces its elements live
    in, the local names of its elements and the names of the attributes it
    sets. Each is an enumeration, so two names are equal exactly when they are
    the same constructor. */
module Vocabulary {

  /** The namespaces of the document; `NoNamespace` is the plain root tag. */
  datatype Ns = NoNamespace | Cac | Cbc | Ext | Ds | Xades | Sig | Sac | Sbc

  /** Element local names. */
  datatype Local =
      Invoice | UBLExtensions | UBLExtension | ExtensionURI | ExtensionContent
    | UBLDocumentSignatures | SignatureInformation | ID | ReferencedSignatureID
    | Signature | SignedInfo | CanonicalizationMethod | SignatureMethod | Reference
    | Transforms | Transform | XPath | DigestMethod | DigestValue | SignatureValue
    | KeyInfo | X509Data | X509Certificate | UBLVersionID | CustomizationID | ProfileID
    | UUID | IssueDate | IssueTime | InvoiceTypeCode | DocumentCurrencyCode
    | TaxCurrencyCode | AdditionalDocumentReference | Attachment
    | EmbeddedDocumentBinaryObject | AccountingSupplierParty | AccountingCustomerParty
    | Party | PartyIdentification | PostalAddress | StreetName | BuildingNumber
    | CityName | PostalZone | CountrySubentity | Country | IdentificationCode
    | PartyTaxScheme | CompanyID | TaxScheme | PartyLegalEntity | RegistrationName
    | InvoiceLine | InvoicedQuantity | LineExtensionAmount | TaxTotal | TaxAmount
    | RoundingAmount | Item | Name | ClassifiedTaxCategory | Percent | Price
    | PriceAmount | AllowanceCharge | ChargeIndicator | AllowanceChargeReason | Amount
    | BaseAmount | TaxSubtotal | TaxableAmount | TaxCategory | LegalMonetaryTotal
    | TaxExclusiveAmount | TaxInclusiveAmount | AllowanceTotalAmount | PrepaidAmount
    | PayableAmount | Delivery | ActualDeliveryDate | PaymentMeans | PaymentMeansCode

  /** Monetary elements: exactly the ones whose name ends in "Amount". */
  predicate IsMonetary(n: Local) {
    n in {LineExtensionAmount, TaxAmount, RoundingAmount, PriceAmount, Amount, BaseAmount, TaxableAmount, TaxExclusiveAmount, TaxInclusiveAmount, AllowanceTotalAmount, PrepaidAmount, PayableAmount}
  }

  /** Attribute names. */
  datatype AttrName = CurrencyId | SchemeId | UnitCode | NameAttr | MimeCode | IdAttr | Algorithm | UriAttr
}
