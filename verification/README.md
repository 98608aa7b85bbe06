# ZATCA invoice assembly, modelled in Dafny

This project models the document-assembly core of the `ZatcaInvoice` class in
`zatca_app.py`. That class produces Saudi (ZATCA) simplified e-invoices as
UBL 2.1 XML trees. The model covers:

- **The invoice record** (`create_simple_invoice`). It holds the totals
  computed from the line items. It also holds the default invoice number
  `INV-<yyyymmdd>-<counter, three digits at least>`, which consumes the
  invoice counter.
- **Amount printing** (`_format_amount`), which is Python's `"{:.2f}"`.
- **The QR payload** (`generate_qr_code`): five `|`-separated fields. The last
  field is a digest of the first four.
- **The section builders**:
  - the document identity and the ICV/PIH references (`_add_common_elements`);
  - the QR reference (`_add_qr_code`);
  - the seller and buyer parties;
  - the invoice lines;
  - the two tax totals;
  - the legal monetary total;
  - the enveloped-signature skeleton in the UBL extensions
    (`_add_signature_placeholder`).
- **The whole tree** (`create_invoice_xml`). It is built in zatca_app.py's
  order.

The properties are stated from a reader's side. Readers look elements up by
tag (`Find`, `At`, `TextAt`), read amounts back as cents (`ParseAmount`),
split the QR payload on `|`, and look document references up by their
`cbc:ID`. Each builder is paired with such a reader, and the lemmas show that
the reader gets back what the builder was given.

The quirks of zatca_app.py are modelled as written and stated as lemmas:

- Every invoice line's own tax is 15% of the line total, whatever the
  invoice's rate (`Record.LineTaxesMatchVatIff`).
- Every amount is declared in "SAR", except on the two tax totals: the first
  uses the record's currency, the second its tax currency, which defaults to
  the currency (`Totals.VatBreakdownCurrencies`, `Totals.MixedCurrencies`).
- The ICV is the counter as it stands after `create_simple_invoice` has
  moved it on, so it is one above the counter in a default invoice number
  (`Document.IcvAfterDefaultNumber`).
- Nothing is validated: empty item lists, negative prices and any tax rate
  are accepted.

Where the design intent and the code disagree, the model follows the code:

- The code does no input validation.
- The code rounds every printed amount on its own. It does not round once at
  the aggregate level, so the printed total is not always the printed
  subtotal plus the printed tax (`Record.PrintedTotalDrifts`).
- The code declares "SAR" on most amounts instead of the record's currency.
- The code gives the line's and the breakdown's tax category no scheme
  attribute.

## Modules

- `wrappers.dfy`: `Option` and Python truthiness of optional strings.
- `digits.dfy`: `str(n)` and `f"{n:03d}"`, with their reader.
- `delimited.dfy`: `'|'.join` and `str.split`.
- `amount.dfy`: exact reals printed with two decimals, ties to even.
- `vocabulary.dfy`: the UBL, XML Signature and extension namespaces,
  element names and attribute names.
- `xml.dfy`: the element tree and its readers.
- `record.dfy`: the invoice record, its totals and the counter.
- `qr.dfy`: the QR payload.
- `header.dfy`: the identity block and the ICV, PIH and QR references.
- `parties.dfy`: the seller and buyer sections.
- `lines.dfy`: the invoice lines.
- `totals.dfy`: the tax totals and the legal monetary total.
- `signing.dfy`: the signature placeholder.
- `document.dfy`: `create_invoice_xml`.

## Model

| member | source | states |
|---|---|---|
| Amounts.RoundHalfEven | zatca_app.py:50-54 | the printed cents are within half a cent of the amount, and an exact half-cent tie goes to the even cent |
| Amounts.RoundingIsUnique | zatca_app.py:50-54 | any whole number within one half of the value, with ties to even, is the rounding: the rounding rule is fully pinned down |
| Amounts.SignedCents | zatca_app.py:50-54 | the signed cents `"{:.2f}"` prints are within half a cent of 100 × the amount, and an exact half-cent tie goes to the even cent |
| Amounts.FormatAmount | zatca_app.py:50-54 | the printed amount reads back as its rounded cents; it starts with a minus exactly when the amount is negative; it never holds the QR delimiter |
| Amounts.CentsText | zatca_app.py:50-54 | an unsigned cent count printed as digits, point and two digits reads back as that count |
| Amounts.ZeroText | zatca_app.py:382 | zero prints as the literal "0.00" the builders write, and "0.00" reads as zero cents |
| Amounts.WholeCentsPrintExactly | zatca_app.py:50-54 | an amount that is a whole number of cents prints exactly that number of cents |
| Digits.NatToString | zatca_app.py:190 | `str(counter)` is a non-empty run of digits without a leading zero that reads back as the counter |
| Digits.IntToString | zatca_app.py:266 | `str(id)` of an integer reads back as that integer, with a minus exactly for negatives and no leading zero after it |
| Digits.Pad3 | zatca_app.py:75 | `{:03d}` gives at least three digits that read back as the counter, and the plain digits from 100 upward |
| Delimited.SplitJoin | zatca_app.py:118 | splitting the joined fields on the delimiter recovers every field in position, when no field contains the delimiter |
| Record.Subtotal | zatca_app.py:85 | no contract of its own: Σ price × quantity over the items in order; it is additive over concatenation (Record.SubtotalAppend) and equals the running total of `_add_line_items` (Record.AccumulateLineTotals) |
| Record.SubtotalAppend | zatca_app.py:85 | the subtotal of two item lists put together is the sum of their subtotals |
| Record.AccumulateLineTotals | zatca_app.py:260-275 | the running total `_add_line_items` keeps while emitting the lines ends equal to the record's subtotal |
| Record.VatOf | zatca_app.py:86 | 100 × VAT equals subtotal × rate |
| Record.DefaultNumber | zatca_app.py:75 | the counter can be read back out of a default invoice number for the same date, and the digits after `INV-<date>-` are exactly as many as the counter zero-padded to three places |
| Record.DefaultNumbersDistinct | zatca_app.py:75 | different counters give different default numbers on the same date |
| Record.CreateSimpleInvoice | zatca_app.py:56-102 | without a number the counter moves on by one and the number is the default number `INV-<date>-<old counter, three digits>`; with a number the counter stays put and the number is kept; the rate defaults to 15; subtotal is Σ price × quantity, 100 × VAT = subtotal × rate, total = subtotal + VAT; date and time default to the clock; every other field is copied from the arguments |
| Record.SuccessiveDefaultNumbersDiffer | zatca_app.py:74-76 | two invoices created in a row with default numbers on one date get different numbers, and the counter has moved on by two |
| Record.FirstDefaultNumber | zatca_app.py:31-76 | a fresh generator's first default number is `INV-<date>-001`, and afterwards the counter is 2 |
| Record.PrintedTotalDrifts | zatca_app.py:84-87 | one item of price 0.046 at the default rate gives a subtotal that prints as 5 cents, VAT as 1 cent and a total as 5 cents, because each amount is rounded on its own; no amount is near a half cent, so binary floats print the same |
| Record.LineTax | zatca_app.py:283 | no contract of its own: a line's tax is 15% of price × quantity whatever the invoice rate; summed over the lines it is 15% of the subtotal (Record.LineTaxesSumToFifteenPercent) |
| Record.LineTaxesSumToFifteenPercent | zatca_app.py:283 | the lines' own taxes add up to 15% of the subtotal |
| Record.LineTaxesMatchVatIff | zatca_app.py:283 | the lines' taxes add up to the record's VAT if and only if the rate is 15 or the subtotal is zero |
| Qr.Timestamp | zatca_app.py:109 | no contract of its own: the issue date, `T`, the issue time; Qr.QrReadsBack states that the payload's second field is exactly this text |
| Qr.PayloadFields | zatca_app.py:108-115 | the fifth field is the digest of the first four glued together without a delimiter |
| Qr.QrPayload | zatca_app.py:106-128 | the payload opens with the seller's VAT number and the delimiter |
| Qr.QrReadsBack | zatca_app.py:106-128 | when the VAT number, date, time and digest have no `|`, splitting the payload gives exactly five fields. Those fields are the VAT number, `<date>T<time>`, the total and the VAT (reading back as the record's cents) and the digest. The digest checks against the other four. |
| Header.IdentityBlock | zatca_app.py:155-185 | the identity elements come in schema order, and a reader gets back the record's number, UUID, date and time with version "2.1", profile "reporting:1.0", type "388" named "0100000" and both currencies "SAR" |
| Header.EmbeddedReference | zatca_app.py:194-199 | a reference holds its ID, then an attachment whose binary object carries the payload as "text/plain" |
| Header.IcvReference | zatca_app.py:188-190 | the ICV reference's UUID text reads back as the counter |
| Header.ChainReferences | zatca_app.py:187-199 | the ICV reference is always present and carries the counter; a PIH reference is present exactly when the previous hash is given and non-empty, and it carries that hash |
| Header.CommonElements | zatca_app.py:153-199 | the identity tags, then ICV, then PIH when chained; the identity reads back as the record's, and the ICV and PIH lookups give what the chain promises |
| Header.CommonReferences | zatca_app.py:187-199 | a reference looked up in the common elements is the chain's, and the common elements hold no QR reference |
| Header.QrReference | zatca_app.py:458-466 | the QR reference has ID "QR" and carries the encoded payload as "text/plain" |
| Parties.AddressBlock | zatca_app.py:213-220 | no contract of its own: the postal address block; its order and read-back are stated by Parties.AddressBlockReadsBack |
| Parties.AddressBlockReadsBack | zatca_app.py:213-220 | the six address parts come in schema order, and reading the block back gives the address, with postal code and district in their own elements |
| Parties.SellerInfo | zatca_app.py:201-230 | no contract of its own: `_add_seller_info`'s supplier section; its layout, schemes and read-back are stated by Parties.SellerInfoOrder, Parties.SellerInfoSchemes and Parties.SellerInfoReadsBack |
| Parties.SellerInfoOrder | zatca_app.py:201-230 | the supplier section holds one party whose children are identification, address, tax scheme and legal entity, in that order |
| Parties.SellerInfoSchemes | zatca_app.py:207-226 | the seller's identification carries its schemeID, and its tax scheme ID is "VAT" |
| Parties.SellerInfoReadsBack | zatca_app.py:201-230 | reading the supplier section back gives the seller unchanged |
| Parties.CustomerInfo | zatca_app.py:232-256 | no contract of its own: `_add_customer_info`'s customer section; its layout and read-back are stated by Parties.CustomerInfoOrder and Parties.CustomerInfoReadsBack |
| Parties.CustomerInfoOrder | zatca_app.py:232-256 | the buyer's party has an identification if and only if the id number is non-empty, then always address and legal entity, and never a tax scheme |
| Parties.CustomerInfoReadsBack | zatca_app.py:232-256 | reading the customer section back gives the buyer without a VAT number, with the scheme only when an id number is given |
| Lines.LineElement | zatca_app.py:262-321 | no contract of its own: the line for the item at a 0-based position; its layout, amounts and texts are stated by Lines.LineLayout, Lines.LineAmounts, Lines.LinePriceAmounts, Lines.LineDescription and Lines.LinePriced |
| Lines.LineItems | zatca_app.py:258-321 | no contract of its own: `_add_line_items`, one line per item; Lines.LinesFollowItems and Lines.LineCount state that the lines follow the items one to one |
| Lines.LineLayout | zatca_app.py:262-321 | a line's children are ID, quantity, line extension, tax total, item and price in that order, and so are the children of each part |
| Lines.LineAmounts | zatca_app.py:269-293 | the quantity, price × quantity, the 15% line tax and the total with tax read back as their cents |
| Lines.LinePriceAmounts | zatca_app.py:307-321 | the price and the discount's base read back as the price's cents, and the discount as zero |
| Lines.LineDescription | zatca_app.py:266-302 | a line carries `str(id)`, the unit code or "PCE", the name or `Item <position from 1>`, and category "S" at "15" |
| Lines.LinePriced | zatca_app.py:278-321 | every amount in a line is declared in "SAR" |
| Lines.LinesFollowItems | zatca_app.py:262-280 | there is one line per item in item order; line k carries item k's id and line total, and is all in "SAR" |
| Lines.LineCount | zatca_app.py:262-263 | counting the invoice lines counts the items |
| Totals.VatBreakdown | zatca_app.py:323-358 | no contract of its own: `_add_vat_breakdown`'s two tax totals; their amounts and currencies are stated by Totals.VatBreakdownAmounts and Totals.VatBreakdownCurrencies |
| Totals.VatBreakdownAmounts | zatca_app.py:323-358 | two tax totals; both tax amounts and the subtotal's read back as the VAT's cents, the taxable amount as the subtotal's, and the percent as the record's rate |
| Totals.VatBreakdownCurrencies | zatca_app.py:323-358 | the first tax total is in the record's currency ("SAR" by default) throughout; the second is in the tax currency, which defaults to the currency |
| Totals.MonetaryTotals | zatca_app.py:360-392 | no contract of its own: `_add_monetary_totals`'s legal monetary total; Totals.MonetaryTotalsRead states its children and amounts |
| Totals.MonetaryTotalsRead | zatca_app.py:360-392 | the six children in fixed order; line extension and tax exclusive amounts print alike, as do tax inclusive and payable; they read as the subtotal and the total; allowance and prepaid read as zero; all in "SAR" |
| Totals.MixedCurrencies | zatca_app.py:323-392 | when the record names a currency other than "SAR", the tax total and the payable amount declare different currencies |
| Signing.TransformsInOrder | zatca_app.py:425-437 | the reference lists exactly four transforms: XPath filters dropping the extensions, any `cac:Signature` and the QR reference, then Canonical XML 1.1 |
| Signing.SignatureFound | zatca_app.py:402-416 | following extension content, document signatures and signature information from the extension reaches the signature element |
| Signing.DsSignatureRead | zatca_app.py:416-448 | the signature has Id "signature"; its reference has URI "" and lists the transforms; it carries the digest value and the signature value |
| Signing.SignatureSkeleton | zatca_app.py:402-456 | a reader finds the signature; its value is the supplied signature when it is non-empty, else the encoded placeholder (line 447), its digest value is the digest of "invoice_digest", and its transforms are the required four |
| Signing.AddSignaturePlaceholder | zatca_app.py:394-456 | no contract of its own: `_add_signature_placeholder`; where the extension goes is stated by Signing.SignaturePlaceholderPlacement and Signing.SignaturePlaceholderFrame, and what it holds by Signing.SignatureSkeleton |
| Signing.SignaturePlaceholderPlacement | zatca_app.py:396-403 | an existing `UBLExtensions` is reused, so their number is unchanged, or becomes one when there was none; the extensions found first end with the signature extension |
| Signing.SignaturePlaceholderFrame | zatca_app.py:396-403 | the root keeps its tag, attributes and text. Without extensions, a new block holding only the signature extension goes in front and the other children follow unchanged. Otherwise every other child keeps its place and content, and the first extensions block keeps its tag, attributes and text and gains the signature extension as its last child |
| Document.CreateInvoiceXml | zatca_app.py:468-511 | no contract of its own: `create_invoice_xml`'s tree; the Document lemmas below state its order, sections, references, parties, totals and lines |
| Document.DeliveryElement | zatca_app.py:491-494 | no contract of its own: the delivery section; Document.DocumentParties states that its date is the issue date |
| Document.PaymentMeansElement | zatca_app.py:496-499 | no contract of its own: the payment means section; Document.DocumentParties states that its code is the record's, "10" by default |
| Document.Assembled | zatca_app.py:468-508 | the invoice is the extensions block, the common elements, the middle sections and the lines, in that order |
| Document.DocumentTags | zatca_app.py:468-508 | the root's child tags are exactly: extensions, identity, ICV, PIH when chained, QR, supplier, customer, delivery, payment means, two tax totals, monetary total, then one line tag per item |
| Document.TopLevelOrder | zatca_app.py:501-508 | the extensions come first; a child is a line if and only if it is among the last as many children as there are items; no line comes before a tax total or the monetary total |
| Document.DocumentSections | zatca_app.py:468-505 | looking up the extensions, supplier, customer, delivery, payment means, tax total and monetary total finds exactly the section each builder made |
| Document.DocumentReferences | zatca_app.py:476-483 | the ICV reads back as the counter at the time of the call; the PIH is there exactly when the previous hash is non-empty and carries it verbatim; the QR reference carries the encoded payload |
| Document.DocumentIdentity | zatca_app.py:476-477 | the invoice's identity reads back as the record's |
| Document.DocumentSignature | zatca_app.py:473-474 | the signature reached through the root's extensions is the skeleton around the supplied or placeholder signature |
| Document.DocumentParties | zatca_app.py:485-499 | the seller reads back in full and the buyer without VAT number; the delivery date is the issue date; the payment means code is the record's, "10" by default |
| Document.DocumentTotals | zatca_app.py:501-505 | the tax exclusive, tax inclusive and payable amounts print the subtotal and the total; the tax total prints the VAT in the document currency; the payable amount is in "SAR" |
| Document.QrAgreesWithTotals | zatca_app.py:479-505 | when the QR payload is unambiguous, its total and VAT fields are exactly the texts of the document's tax inclusive amount and tax total |
| Document.DocumentLines | zatca_app.py:507-508 | the last children of the root are the item lines, in item order |
| Document.IcvAfterDefaultNumber | zatca_app.py:74-76 | with a default number, the number carries counter c and the ICV of the XML built afterwards is c + 1 |
| Document.IcvAfterSuppliedNumber | zatca_app.py:74-76 | with a supplied number, the number is kept and the ICV is the unchanged counter |

## Left out

- `generate_keys` and `sign_invoice`: ECDSA P-256 key generation, PEM file I/O and signing are not modelled. The signature reaches `create_invoice_xml` as an optional string.
- SHA-256 and base64 are function parameters: `digest` is SHA-256 then base64, and `encode` is base64 of UTF-8. Their outputs are never computed.
- The QR image written by `generate_qr_code` when an output path is given is not modelled.
- `datetime.now()` and `uuid.uuid4()` are parameters: the `Clock` renderings and the uuid string.
- The counter is a value passed in and handed back (`Generator`), not an object field.
- lxml serialisation is not modelled: `etree.tostring`, the namespace map prefixes and pretty-printing. The model stops at the element tree.
- Text is a plain string in the tree; an element without text has `""`.
- Binary floating point is not modelled. Amounts are exact reals printed with the same half-to-even rule, so float representation error (for example 2.675 printing as "2.67") is not reproduced.
- The tax rate is an integer. A float rate would print its percent as, for example, "15.0", and that is not modelled.
- Qr.QrReadsBack: the round trip is stated only when the seller's VAT number, the issue date and time, and the digest contain no `|`. zatca_app.py does not check this, and with a `|` in any of them the payload does not split into five fields.
- `generate_complete_invoice` is not modelled: the key-file check, the file write and the console output are I/O around the modelled calls.
