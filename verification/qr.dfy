/** The QR payload `generate_qr_code` returns: five `|`-separated fields, the
    last a digest of the first four glued together without delimiter. The
    digest (base64 of SHA-256 over the UTF-8 bytes) is the parameter `digest`;
    the QR image itself is not modelled. */
module Qr {
  import opened Wrappers
  import opened Amounts
  import opened Record
  import opened Delimited

  datatype QrFields = QrFields(
    vat: string,
    timestamp: string,
    total: string,
    vatAmount: string,
    digest: string)

  /** `<issue date>T<issue time>`. */
  function Timestamp(data: InvoiceData): string {
    data.issueDate + "T" + data.issueTime
  }

  /** What the digest covers: the first four fields with no delimiter. */
  function DigestInput(f: QrFields): string {
    f.vat + f.timestamp + f.total + f.vatAmount
  }

  /** A reader's view: exactly five fields, by position. */
  function ReadQr(qr: string): Option<QrFields> {
    var parts := Split(qr, '|');
    if |parts| == 5 then Some(QrFields(parts[0], parts[1], parts[2], parts[3], parts[4]))
    else None
  }

  /** A payload whose last field is the digest of the other four. */
  predicate SelfConsistent(qr: string, digest: string -> string) {
    ReadQr(qr).Some? && ReadQr(qr).value.digest == digest(DigestInput(ReadQr(qr).value))
  }

  /** Neither the seller's VAT number, the issue date and time, nor the
      digest of the first four fields contain the delimiter. */
  predicate Unambiguous(data: InvoiceData, digest: string -> string) {
    var f := QrFields(data.seller.vat, Timestamp(data),
                      FormatAmount(data.totalWithVat), FormatAmount(data.vatAmount), "");
    Free(data.seller.vat, '|') && Free(data.issueDate, '|') && Free(data.issueTime, '|')
      && Free(digest(DigestInput(f)), '|')
  }

  /** The timestamp is delimiter-free when the date and time are. */
  lemma TimestampFree(data: InvoiceData)
    ensures Free(data.issueDate, '|') && Free(data.issueTime, '|') ==> Free(Timestamp(data), '|')
  {
    var t := Timestamp(data);
    if Free(data.issueDate, '|') && Free(data.issueTime, '|') {
      forall i | 0 <= i < |t|
        ensures t[i] != '|'
      {
        if i < |data.issueDate| {
          assert t[i] == data.issueDate[i];
        } else if i > |data.issueDate| {
          assert t[i] == data.issueTime[i - |data.issueDate| - 1];
        }
      }
    }
  }

  /** The five fields of the payload for an invoice record. */
  function PayloadFields(data: InvoiceData, digest: string -> string): (f: QrFields)
    ensures f.digest == digest(DigestInput(f))
  {
    var f := QrFields(data.seller.vat, Timestamp(data),
                      FormatAmount(data.totalWithVat), FormatAmount(data.vatAmount), "");
    f.(digest := digest(DigestInput(f)))
  }

  function FieldList(f: QrFields): seq<string> {
    [f.vat, f.timestamp, f.total, f.vatAmount, f.digest]
  }

  /** The payload for an invoice record: it opens with the seller's VAT
      number and the delimiter. */
  function QrPayload(data: InvoiceData, digest: string -> string): (qr: string)
    ensures |qr| > |data.seller.vat| && qr[..|data.seller.vat| + 1] == data.seller.vat + "|"
  {
    var fields := FieldList(PayloadFields(data, digest));
    var qr := Join(fields, '|');
    assert qr == fields[0] + "|" + Join(fields[1..], '|');
    qr
  }

  /** When the payload is unambiguous, a reader recovers every field in
      position, the amounts read back as the cents of the record's totals,
      and the digest checks against the rest. */
  lemma QrReadsBack(data: InvoiceData, digest: string -> string)
    requires Unambiguous(data, digest)
    ensures ReadQr(QrPayload(data, digest)) == Some(PayloadFields(data, digest))
    ensures var f := ReadQr(QrPayload(data, digest)).value;
      && f.vat == data.seller.vat
      && f.timestamp == data.issueDate + "T" + data.issueTime
      && ParseAmount(f.total) == Some(SignedCents(data.totalWithVat))
      && ParseAmount(f.vatAmount) == Some(SignedCents(data.vatAmount))
    ensures SelfConsistent(QrPayload(data, digest), digest)
  {
    var f := PayloadFields(data, digest);
    var fields := FieldList(f);
    TimestampFree(data);
    assert AllFree(fields, '|') by {
      forall i | 0 <= i < |fields|
        ensures Free(fields[i], '|')
      {
        if i == 2 || i == 3 {
          assert fields[i] == FormatAmount(data.totalWithVat) || fields[i] == FormatAmount(data.vatAmount);
        }
      }
    }
    SplitJoin(fields, '|');
  }
}
