/** The invoice record `create_simple_invoice` returns, the totals it derives
    from the line items, and the invoice counter that default invoice numbers
    consume. The counter is state of the `ZatcaInvoice` object; here it is a value
    passed in and handed back. */
module Record {
  import opened Wrappers
  import opened Digits
  import opened Amounts

  datatype Address = Address(
    street: string,
    building: string,
    city: string,
    district: string,
    postalCode: string,
    countryCode: string)

  /** Seller or buyer. A buyer whose `idNumber` is `""` has no identification;
      the buyer's `vat` is never read. */
  datatype Party = Party(
    name: string,
    vat: string,
    idNumber: string,
    idScheme: string,
    address: Address)

  /** Line ids are printed with `str`, so both numbers and text occur. */
  datatype ItemId = NumericId(n: int) | TextId(s: string)

  datatype LineItem = LineItem(
    id: ItemId,
    name: Option<string>,
    price: real,
    quantity: real,
    unitCode: Option<string>)

  /** The three renderings of "now" `create_simple_invoice` asks the clock for:
      `%Y%m%d` for default numbers, `%Y-%m-%d` and `%H:%M:%S` for the
      issue date and time. */
  datatype Clock = Clock(compactDate: string, date: string, time: string)

  /** The invoice record. `paymentMeansCode`, `currency` and `taxCurrency`
      are keys the builders read with a default when they are absent. */
  datatype InvoiceData = InvoiceData(
    number: string,
    uuid: string,
    seller: Party,
    buyer: Party,
    issueDate: string,
    issueTime: string,
    taxRate: int,
    totalWithoutVat: real,
    totalWithVat: real,
    vatAmount: real,
    items: seq<LineItem>,
    previousHash: Option<string>,
    paymentMeansCode: Option<string>,
    currency: Option<string>,
    taxCurrency: Option<string>)

  /** The generator's state: the next invoice counter. */
  datatype Generator = Generator(counter: nat)

  /** A freshly constructed generator starts counting at 1. */
  const FreshGenerator := Generator(1)

  /** The VAT rate when the caller gives none. */
  const DefaultTaxRate := 15

  function LineTotal(item: LineItem): real {
    item.price * item.quantity
  }

  /** Σ price × quantity over the items, in order. */
  function Subtotal(items: seq<LineItem>): real {
    if |items| == 0 then 0.0
    else Subtotal(items[..|items| - 1]) + LineTotal(items[|items| - 1])
  }

  /** The subtotal of a concatenation is the sum of the subtotals. */
  lemma {:induction false} SubtotalAppend(a: seq<LineItem>, b: seq<LineItem>)
    ensures Subtotal(a + b) == Subtotal(a) + Subtotal(b)
    decreases |b|
  {
    if |b| == 0 {
      assert a + b == a;
    } else {
      var b' := b[..|b| - 1];
      SubtotalAppend(a, b');
      assert (a + b)[..|a + b| - 1] == a + b';
      assert (a + b)[|a + b| - 1] == b[|b| - 1];
    }
  }

  /** The running total `_add_line_items` accumulates while it emits the
      lines; it ends equal to the record's subtotal. */
  method AccumulateLineTotals(items: seq<LineItem>) returns (total: real)
    ensures total == Subtotal(items)
  {
    total := 0.0;
    var i := 0;
    while i < |items|
      invariant 0 <= i <= |items|
      invariant total == Subtotal(items[..i])
    {
      assert items[..i + 1][..i] == items[..i];
      total := total + LineTotal(items[i]);
      i := i + 1;
    }
    assert items[..|items|] == items;
  }

  /** The document-level VAT: subtotal × rate / 100. */
  function VatOf(subtotal: real, rate: int): (vat: real)
    ensures 100.0 * vat == subtotal * rate as real
  {
    subtotal * (rate as real / 100.0)
  }

  /** Reads the counter back out of a default invoice number for `date`. */
  function CounterOfNumber(number: string, date: string): Option<nat> {
    var prefix := "INV-" + date + "-";
    if |number| > |prefix| && number[..|prefix|] == prefix && AllDigits(number[|prefix|..])
    then Some(ParseDigits(number[|prefix|..]))
    else None
  }

  /** `INV-<date>-<counter as at least three digits>`: the counter reads
      back, and the digits after the prefix are exactly as many as the
      zero-padded counter has, so counters below 100 take three. */
  function DefaultNumber(date: string, counter: nat): (number: string)
    ensures CounterOfNumber(number, date) == Some(counter)
    ensures |number| == |date| + 5 + |Pad3(counter)|
  {
    var prefix := "INV-" + date + "-";
    var number := prefix + Pad3(counter);
    assert number[..|prefix|] == prefix;
    assert number[|prefix|..] == Pad3(counter);
    number
  }

  /** Default numbers on the same date never repeat across counters. */
  lemma DefaultNumbersDistinct(date: string, c1: nat, c2: nat)
    requires c1 != c2
    ensures DefaultNumber(date, c1) != DefaultNumber(date, c2)
  {
    assert CounterOfNumber(DefaultNumber(date, c1), date) != CounterOfNumber(DefaultNumber(date, c2), date);
  }

  /** `create_simple_invoice`: returns the record and the generator state
      after the call. `number`, `issueDate` and `issueTime` are the optional
      arguments (`None` when omitted), and an omitted `taxRate` is 15;
      `clock` and `uuid` stand for `datetime.now()` and `uuid.uuid4()`. */
  function CreateSimpleInvoice(
    gen: Generator, seller: Party, buyer: Party, items: seq<LineItem>,
    number: Option<string>, previousHash: Option<string>,
    issueDate: Option<string>, issueTime: Option<string>, taxRate: Option<int>,
    clock: Clock, uuid: string): (result: (InvoiceData, Generator))
    ensures var (data, gen') := result;
      && (number.None? ==>
            && gen'.counter == gen.counter + 1
            && data.number == DefaultNumber(clock.compactDate, gen.counter)
            && CounterOfNumber(data.number, clock.compactDate) == Some(gen.counter))
      && (number.Some? ==> gen' == gen && data.number == number.value)
    ensures var data := result.0;
      && data.totalWithoutVat == Subtotal(items)
      && 100.0 * data.vatAmount == data.totalWithoutVat * data.taxRate as real
      && data.totalWithVat == data.totalWithoutVat + data.vatAmount
    ensures var data := result.0;
      && data.items == items && data.previousHash == previousHash
      && data.seller == seller && data.buyer == buyer
      && data.taxRate == taxRate.GetOr(DefaultTaxRate) && data.uuid == uuid
      && data.issueDate == issueDate.GetOr(clock.date)
      && data.issueTime == issueTime.GetOr(clock.time)
      && data.paymentMeansCode.None? && data.currency.None? && data.taxCurrency.None?
  {
    var (num, gen') :=
      match number
      case None => (DefaultNumber(clock.compactDate, gen.counter), Generator(gen.counter + 1))
      case Some(n) => (n, gen);
    var subtotal := Subtotal(items);
    var rate := taxRate.GetOr(DefaultTaxRate);
    var vat := VatOf(subtotal, rate);
    var data := InvoiceData(
      num, uuid, seller, buyer,
      issueDate.GetOr(clock.date), issueTime.GetOr(clock.time),
      rate, subtotal, subtotal + vat, vat, items, previousHash,
      None, None, None);
    (data, gen')
  }

  /** Two invoices created in a row with default numbers on the same date get
      different numbers, and the counter has moved on by two. */
  lemma SuccessiveDefaultNumbersDiffer(
    gen: Generator, seller: Party, buyer: Party, items1: seq<LineItem>, items2: seq<LineItem>,
    rate: Option<int>, clock: Clock, uuid1: string, uuid2: string)
    ensures var (d1, g1) := CreateSimpleInvoice(gen, seller, buyer, items1, None, None, None, None, rate, clock, uuid1);
      var (d2, g2) := CreateSimpleInvoice(g1, seller, buyer, items2, None, None, None, None, rate, clock, uuid2);
      d1.number != d2.number && g2.counter == gen.counter + 2
  {
  }

  /** The first invoice a fresh generator numbers by default carries counter
      1 in a three-digit field, and leaves the counter at 2. */
  lemma FirstDefaultNumber(
    seller: Party, buyer: Party, items: seq<LineItem>, previousHash: Option<string>,
    issueDate: Option<string>, issueTime: Option<string>, rate: Option<int>,
    clock: Clock, uuid: string)
    ensures var (data, gen') := CreateSimpleInvoice(FreshGenerator, seller, buyer, items, None,
                                                    previousHash, issueDate, issueTime, rate, clock, uuid);
      && data.number == "INV-" + clock.compactDate + "-001"
      && gen'.counter == 2
  {
    assert NatToString(1) == "1";
    assert Zeros(2) == "00";
  }

  /** Each printed amount is rounded on its own, so the printed total need not
      be the printed subtotal plus the printed VAT: one item of 0.046 at the
      default rate prints a subtotal of 5 cents and VAT of 1 cent but a total
      of 5. No amount here is near a half cent. */
  lemma PrintedTotalDrifts(
    gen: Generator, seller: Party, buyer: Party, item: LineItem,
    clock: Clock, uuid: string)
    requires item.price == 0.046 && item.quantity == 1.0
    ensures var data := CreateSimpleInvoice(gen, seller, buyer, [item], None, None, None, None, None, clock, uuid).0;
      SignedCents(data.totalWithVat) != SignedCents(data.totalWithoutVat) + SignedCents(data.vatAmount)
  {
    var data := CreateSimpleInvoice(gen, seller, buyer, [item], None, None, None, None, None, clock, uuid).0;
    assert Subtotal([item]) == 0.046;
    assert data.vatAmount == 0.0069;
    RoundingIsUnique(4.6, 5);
    RoundingIsUnique(0.69, 1);
    RoundingIsUnique(5.29, 5);
  }

  /** Every line's own tax uses 15%, whatever the invoice rate. */
  function LineTax(item: LineItem): real {
    LineTotal(item) * 0.15
  }

  /** A line's total with its own tax. */
  function LineGross(item: LineItem): real {
    LineTotal(item) + LineTax(item)
  }

  function LineTaxTotal(items: seq<LineItem>): real {
    if |items| == 0 then 0.0
    else LineTaxTotal(items[..|items| - 1]) + LineTax(items[|items| - 1])
  }

  /** The per-line taxes add up to 15% of the subtotal. */
  lemma {:induction false} LineTaxesSumToFifteenPercent(items: seq<LineItem>)
    ensures LineTaxTotal(items) == Subtotal(items) * 0.15
    decreases |items|
  {
    if |items| > 0 {
      LineTaxesSumToFifteenPercent(items[..|items| - 1]);
    }
  }

  /** Hence the lines' taxes agree with the record's VAT exactly when the rate
      is 15 or the subtotal is zero. */
  lemma LineTaxesMatchVatIff(items: seq<LineItem>, rate: int)
    ensures LineTaxTotal(items) == VatOf(Subtotal(items), rate)
        <==> (rate == 15 || Subtotal(items) == 0.0)
  {
    LineTaxesSumToFifteenPercent(items);
    var s := Subtotal(items);
    var v := VatOf(s, rate);
    assert 100.0 * v == s * rate as real;
    assert 100.0 * LineTaxTotal(items) == s * 15.0;
    if rate != 15 && s != 0.0 {
      var d := 15.0 - rate as real;
      assert d != 0.0;
      assert s * d != 0.0;
      assert s * 15.0 - s * rate as real == s * d;
    }
  }
}
