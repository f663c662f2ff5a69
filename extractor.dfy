/**
 * `InvoiceExtractor._parse_invoice_text` and the assembly of an `Invoice`
 * from the fields it finds and the line items.
 *
 * The five field pattern lists are `Matcher`s (see `Locator`); the
 * parties, currency, amounts and line items are the scanners of their own
 * modules.
 */
module Extractor {
  import opened Wrappers
  import opened Text
  import opened Dates
  import opened Schemas
  import Locator
  import Parties
  import Amounts
  import LineItems

  /** The pattern lists of the extractor, one per field, in their order. */
  datatype FieldPatterns = FieldPatterns(
    invoiceNumber: seq<Locator.Matcher>,
    invoiceDate: seq<Locator.Matcher>,
    dueDate: seq<Locator.Matcher>,
    poNumber: seq<Locator.Matcher>,
    paymentTerms: seq<Locator.Matcher>)

  /** The fields `_parse_invoice_text` fills. A key left unset and a key set
      to `None` are both `None`. */
  datatype InvoiceData = InvoiceData(
    invoiceNumber: Option<string>,
    invoiceDate: Option<string>,
    dueDate: Option<string>,
    externalReference: Option<string>,
    paymentTerms: Option<string>,
    parties: Parties.Parties,
    currency: string,
    amounts: Amounts.Amounts)

  /** A date field: the first capture, normalised when it is non-empty. */
  function DateField(text: string, patterns: seq<Locator.Matcher>): (r: Option<string>)
    ensures r.Some? ==> exists d: CalendarDate :: r.value == IsoFormat(d)
  {
    match Locator.FirstMatch(text, patterns)
    case Some(s) =>
      if s == [] then None
      else
        var n := Locator.NormalizeDate(s);
        assert n.Some? ==> n.value == IsoFormat(FirstLayout(s, Locator.ExtractorLayouts).value);
        n
    case None => None
  }

  /** What `_parse_invoice_text` returns for a text. */
  function InvoiceDataOf(text: string, pats: FieldPatterns): InvoiceData {
    InvoiceData(
      Locator.FirstMatch(text, pats.invoiceNumber),
      DateField(text, pats.invoiceDate),
      DateField(text, pats.dueDate),
      Locator.FirstMatch(text, pats.poNumber),
      Locator.FirstMatch(text, pats.paymentTerms),
      Parties.PartiesOf(text),
      Code(Amounts.CurrencyOf(text)),
      Amounts.AmountsOf(text))
  }

  /** `_parse_invoice_text`, field after field. The payment-terms lookup
      for a relative due date is made and has no effect. */
  method ParseInvoiceText(text: string, pats: FieldPatterns) returns (data: InvoiceData)
    ensures data == InvoiceDataOf(text, pats)
  {
    var number := Locator.ExtractWithPatterns(text, pats.invoiceNumber);
    var invoiceDate := ParseDateField(text, pats.invoiceDate);
    var dueText := Locator.ExtractWithPatterns(text, pats.paymentTerms);
    var dueDate := ParseDateField(text, pats.dueDate);
    var reference := Locator.ExtractWithPatterns(text, pats.poNumber);
    var terms := Locator.ExtractWithPatterns(text, pats.paymentTerms);
    var parties := Parties.ExtractParties(text);
    var currency := Amounts.ExtractCurrency(text);
    var amounts := Amounts.ExtractAmounts(text);
    data := InvoiceData(number, invoiceDate, dueDate, reference, terms, parties, currency, amounts);
  }

  /** One date field: look it up, then normalise a non-empty capture. */
  method ParseDateField(text: string, patterns: seq<Locator.Matcher>) returns (r: Option<string>)
    ensures r == DateField(text, patterns)
  {
    var found := Locator.ExtractWithPatterns(text, patterns);
    r := None;
    if found.Some? && found.value != [] {
      r := Locator.ParseDateText(found.value);
    }
  }

  // ----------------------------------------------------------------------
  // Assembly
  // ----------------------------------------------------------------------

  /** A date text after the schema's date validator: `None` in, `None` out;
      a text that does not read as a date fails the record. */
  function DateValue(s: Option<string>): Option<Option<CalendarDate>> {
    match s
    case None => Some(None)
    case Some(t) =>
      match CoerceDate(DateText(t))
      case GivenDate(d) => Some(Some(d))
      case _ => None
  }

  /** The record before the schema's constraints are checked. */
  function RecordOf(data: InvoiceData, invoiceDate: Option<CalendarDate>, dueDate: Option<CalendarDate>,
                    items: seq<LineItem>, sourceFile: string): Invoice {
    var p, a := data.parties, data.amounts;
    Invoice(data.invoiceNumber, data.externalReference, p.sellerName, p.sellerAddress, None,
            p.buyerName, p.buyerAddress, None, invoiceDate, dueDate, Some(data.currency),
            a.netTotal, a.taxAmount, None, a.grossTotal, data.paymentTerms, items, Some(sourceFile))
  }

  /** `Invoice(**invoice_data)`: the record, or `None` where validation
      raises. */
  function Assemble(data: InvoiceData, items: seq<LineItem>, sourceFile: string): Option<Invoice> {
    match (DateValue(data.invoiceDate), DateValue(data.dueDate))
    case (Some(i), Some(d)) =>
      var inv := RecordOf(data, i, d, items, sourceFile);
      if SchemaValid(inv) then Some(inv) else None
    case _ => None
  }

  /** The plain text of the pages: each non-empty page text followed by a
      line break. */
  function PlainText(pages: seq<LineItems.Page>): string {
    if pages == [] then []
    else
      var rest := PlainText(pages[..|pages| - 1]);
      var t := pages[|pages| - 1].text;
      if t == [] then rest else rest + t + "\n"
  }

  /** What `extract_from_pdf` returns for the pages of one file. */
  function InvoiceOf(pages: seq<LineItems.Page>, pats: FieldPatterns, toFloat: LineItems.FloatParser,
                     sourceFile: string): Option<Invoice> {
    Assemble(InvoiceDataOf(PlainText(pages), pats), LineItems.LineItemsOf(pages, toFloat), sourceFile)
  }

  /** `extract_from_pdf` over pages already read. */
  method ExtractFromPages(pages: seq<LineItems.Page>, pats: FieldPatterns, toFloat: LineItems.FloatParser,
                          sourceFile: string) returns (r: Option<Invoice>)
    ensures r == InvoiceOf(pages, pats, toFloat, sourceFile)
  {
    var fullText: string := [];
    for i := 0 to |pages|
      invariant fullText == PlainText(pages[..i])
    {
      assert pages[..i + 1][..i] == pages[..i];
      if pages[i].text != [] {
        fullText := fullText + pages[i].text + "\n";
      }
    }
    assert pages[..|pages|] == pages;
    var data := ParseInvoiceText(fullText, pats);
    var items := LineItems.ExtractLineItems(pages, toFloat);
    r := Assemble(data, items, sourceFile);
  }

  // ----------------------------------------------------------------------
  // Properties
  // ----------------------------------------------------------------------

  /** Every date the extractor writes is read by the schema's validator. */
  lemma DateFieldCoerces(text: string, patterns: seq<Locator.Matcher>)
    ensures DateValue(DateField(text, patterns)).Some?
  {
    var f := DateField(text, patterns);
    if f.Some? {
      var d: CalendarDate :| f.value == IsoFormat(d);
      CoerceIsoText(d);
    }
  }

  /** With readable dates, a known currency and non-negative gross and
      tax, a record fails the schema only through a negative net or a line
      item with a negative quantity. */
  lemma AssembleIff(data: InvoiceData, items: seq<LineItem>, sourceFile: string)
    requires DateValue(data.invoiceDate).Some? && DateValue(data.dueDate).Some?
    requires data.currency in KnownCodes
    requires NonNegative(data.amounts.grossTotal) && NonNegative(data.amounts.taxAmount)
    ensures Assemble(data, items, sourceFile).None? <==>
      !NonNegative(data.amounts.netTotal) || exists k :: 0 <= k < |items| && !LineItemValid(items[k])
  {
    var inv := RecordOf(data, DateValue(data.invoiceDate).value, DateValue(data.dueDate).value, items, sourceFile);
    assert Assemble(data, items, sourceFile) == if SchemaValid(inv) then Some(inv) else None;
  }

  /** The parsed fields fail the schema only through a negative net (a
      derived `gross - tax` with the tax above the gross) or a line item
      with a negative quantity; the dates, the currency, the gross and the
      tax always pass. */
  lemma AssembleFailsOnlyOnNet(text: string, pats: FieldPatterns, items: seq<LineItem>, sourceFile: string)
    ensures var data := InvoiceDataOf(text, pats);
      Assemble(data, items, sourceFile).None? <==>
        (data.amounts.netTotal.Some? && data.amounts.netTotal.value < 0.0)
        || exists k :: 0 <= k < |items| && !LineItemValid(items[k])
  {
    var data := InvoiceDataOf(text, pats);
    DateFieldCoerces(text, pats.invoiceDate);
    DateFieldCoerces(text, pats.dueDate);
    AssembleIff(data, items, sourceFile);
  }

  /** A negative net is always a derived `gross - tax` with the tax above
      the gross, and it costs the whole invoice. */
  lemma NegativeNetLosesInvoice(text: string, pats: FieldPatterns, items: seq<LineItem>, sourceFile: string)
    requires var a := Amounts.AmountsOf(text); a.netTotal.Some? && a.netTotal.value < 0.0
    ensures var a := Amounts.AmountsOf(text);
      a.grossTotal.Some? && a.taxAmount.Some? && a.taxAmount.value > a.grossTotal.value
    ensures Assemble(InvoiceDataOf(text, pats), items, sourceFile).None?
  {
    AssembleFailsOnlyOnNet(text, pats, items, sourceFile);
  }
}
