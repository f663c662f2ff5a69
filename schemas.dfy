/**
 * The records of the invoice pipeline: the closed currency set, line items
 * and invoices with all-optional fields, the date-normalising field
 * validator, validation issues, the mutable `ValidationResult` and the
 * summary and report records.
 *
 * The `Invoice` record is deliberately unconstrained (currency as text,
 * amounts as any real) so that the validator can be given the records its
 * own rules guard against; the declared field constraints are the separate
 * predicate `SchemaValid`.
 */
module Schemas {
  import opened Wrappers
  import opened Text
  import opened Dates

  // ----------------------------------------------------------------------
  // Currency (ISO 4217 codes)
  // ----------------------------------------------------------------------

  datatype Currency = EUR | USD | INR | GBP

  /** The enum value of each member, its ISO 4217 code. */
  function Code(c: Currency): string {
    match c
    case EUR => "EUR"
    case USD => "USD"
    case INR => "INR"
    case GBP => "GBP"
  }

  /** `[c.value for c in Currency]`, in declaration order. */
  const KnownCodes: seq<string> := ["EUR", "USD", "INR", "GBP"]

  /** `Currency(s)`: the member whose value is `s`, if any. */
  function CurrencyFromCode(s: string): (r: Option<Currency>)
    ensures r.Some? <==> s in KnownCodes
    ensures r.Some? ==> Code(r.value) == s
  {
    if s == "EUR" then Some(EUR)
    else if s == "USD" then Some(USD)
    else if s == "INR" then Some(INR)
    else if s == "GBP" then Some(GBP)
    else None
  }

  /** The set is closed: every member has a code in the list, and reading the
      code back gives the member. */
  lemma CurrencyRoundTrip(c: Currency)
    ensures Code(c) in KnownCodes
    ensures CurrencyFromCode(Code(c)) == Some(c)
  {
  }

  // ----------------------------------------------------------------------
  // Records
  // ----------------------------------------------------------------------

  /** One line of an invoice; decimals and floats are reals. */
  datatype LineItem = LineItem(
    description: Option<string>,
    quantity: Option<real>,
    unitPrice: Option<real>,
    lineTotal: Option<real>,
    taxRate: Option<real>)

  /** An invoice; every field may be absent. `lineItems` is a list that is
      empty by default. */
  datatype Invoice = Invoice(
    invoiceNumber: Option<string>,
    externalReference: Option<string>,
    sellerName: Option<string>,
    sellerAddress: Option<string>,
    sellerTaxId: Option<string>,
    buyerName: Option<string>,
    buyerAddress: Option<string>,
    buyerTaxId: Option<string>,
    invoiceDate: Option<CalendarDate>,
    dueDate: Option<CalendarDate>,
    currency: Option<string>,
    netTotal: Option<real>,
    taxAmount: Option<real>,
    taxRate: Option<real>,
    grossTotal: Option<real>,
    paymentTerms: Option<string>,
    lineItems: seq<LineItem>,
    sourceFile: Option<string>)

  /** `Invoice()` with every field left at its default. */
  const EmptyInvoice: Invoice :=
    Invoice(None, None, None, None, None, None, None, None, None, None, None,
            None, None, None, None, None, [], None)

  predicate NonNegative(x: Option<real>) {
    x.None? || x.value >= 0.0
  }

  predicate Percentage(x: Option<real>) {
    x.None? || 0.0 <= x.value <= 100.0
  }

  /** The field constraints a `LineItem` declares. */
  predicate LineItemValid(item: LineItem) {
    NonNegative(item.quantity) && Percentage(item.taxRate)
  }

  /** The field constraints an `Invoice` declares: amounts `ge=0`, the tax
      rate a percentage, the currency one of the enum's values, and every
      line item valid. */
  predicate SchemaValid(inv: Invoice) {
    NonNegative(inv.netTotal) && NonNegative(inv.taxAmount) && NonNegative(inv.grossTotal)
    && Percentage(inv.taxRate)
    && (inv.currency.None? || inv.currency.value in KnownCodes)
    && forall i :: 0 <= i < |inv.lineItems| ==> LineItemValid(inv.lineItems[i])
  }

  /** Every field is optional: the record with nothing set is accepted. */
  lemma EmptyInvoiceValid()
    ensures SchemaValid(EmptyInvoice)
    ensures EmptyInvoice.lineItems == []
  {
  }

  // ----------------------------------------------------------------------
  // The date field validator
  // ----------------------------------------------------------------------

  /** What reaches the `invoice_date`/`due_date` validator: nothing, a date,
      or text. */
  datatype DateInput = NoDate | GivenDate(date: CalendarDate) | DateText(text: string)

  /** The numeric layouts of the validator, in its order:
      `%Y-%m-%d`, `%d/%m/%Y`, `%m/%d/%Y`, `%d.%m.%Y`, `%d-%m-%Y`. */
  const SchemaLayouts: seq<Layout> := [
    Layout(YearMonthDay, '-'), Layout(DayMonthYear, '/'), Layout(MonthDayYear, '/'),
    Layout(DayMonthYear, '.'), Layout(DayMonthYear, '-')]

  /** The value the validator hands on: absent values and dates unchanged;
      text stripped and read with the first layout that accepts it, or the
      stripped text when none does. */
  function CoerceDate(v: DateInput): DateInput {
    match v
    case NoDate => NoDate
    case GivenDate(d) => GivenDate(d)
    case DateText(s) =>
      match FirstLayout(Strip(s), SchemaLayouts)
      case Some(d) => GivenDate(d)
      case None => DateText(Strip(s))
  }

  /** `Invoice.parse_date` */
  method ParseDate(v: DateInput) returns (r: DateInput)
    ensures r == CoerceDate(v)
  {
    match v
    case NoDate => return NoDate;
    case GivenDate(d) => return GivenDate(d);
    case DateText(s) =>
      var text := Strip(s);
      var parsed := TryLayouts(text, SchemaLayouts);
      if parsed.Some? {
        return GivenDate(parsed.value);
      }
      return DateText(text);
  }

  /** Absent values and dates pass through; text comes out as a date or as
      text with no surrounding whitespace, never as nothing. */
  lemma CoerceDateShape(v: DateInput)
    ensures v.NoDate? ==> CoerceDate(v) == v
    ensures v.GivenDate? ==> CoerceDate(v) == v
    ensures v.DateText? ==> !CoerceDate(v).NoDate?
    ensures CoerceDate(v).DateText? ==> v.DateText? && IsStripped(CoerceDate(v).text)
  {
    if v.DateText? {
      StripShape(v.text);
    }
  }

  /** Coercion is idempotent: its output is a fixed point. */
  lemma {:induction false} CoerceDateIdempotent(v: DateInput)
    ensures CoerceDate(CoerceDate(v)) == CoerceDate(v)
  {
    if v.DateText? && FirstLayout(Strip(v.text), SchemaLayouts).None? {
      StripShape(v.text);
      StripStripped(Strip(v.text));
    }
  }

  /** Text that is already stripped goes straight to the layouts. */
  lemma CoerceStrippedText(s: string)
    requires IsStripped(s)
    ensures CoerceDate(DateText(s)) ==
      match FirstLayout(s, SchemaLayouts)
      case Some(d) => GivenDate(d)
      case None => DateText(s)
  {
    StripStripped(s);
  }

  /** The text `date.isoformat()` writes is read back, by the first layout,
      as the same date. */
  lemma {:induction false} CoerceIsoText(d: CalendarDate)
    ensures CoerceDate(DateText(IsoFormat(d))) == GivenDate(d)
  {
    var s := IsoFormat(d);
    assert IsDigit(s[0]) && IsDigit(s[9]);
    CoerceStrippedText(s);
    IsoRoundTrip(d);
    FirstLayoutHead(s, SchemaLayouts);
  }

  /** A day, month or year token holds only digits and spaces. */
  lemma TokensAvoid(a: string, b: string, y: string, sep: char, other: char)
    requires IsDayToken(a) && IsMonthToken(b) && IsYearToken(y)
    requires other != sep && !IsDigit(other) && other != ' '
    ensures forall i :: 0 <= i < |a + [sep] + b + [sep] + y| ==> (a + [sep] + b + [sep] + y)[i] != other
  {
    var s := a + [sep] + b + [sep] + y;
    forall i | 0 <= i < |s| ensures s[i] != other {
      if i < |a| { assert s[i] == a[i]; }
      else if i == |a| || i == |a| + 1 + |b| { }
      else if i <= |a| + |b| { assert s[i] == b[i - |a| - 1]; }
      else { assert s[i] == y[i - |a| - |b| - 2]; }
    }
  }

  /** Day-first wins over month-first for slashes: text `a/b/y` that both
      readings accept is read as day `a`, month `b`. */
  lemma {:induction false} DayFirstWins(a: string, b: string, y: string)
    requires IsDayToken(a) && IsDigit(a[0]) && IsMonthToken(b) && IsYearToken(y)
    requires ValidDate(Date(TokenValue(y), TokenValue(b), TokenValue(a)))
    ensures CoerceDate(DateText(a + "/" + b + "/" + y)) == GivenDate(Date(TokenValue(y), TokenValue(b), TokenValue(a)))
  {
    var s := a + "/" + b + "/" + y;
    var d := Date(TokenValue(y), TokenValue(b), TokenValue(a));
    assert s == a + ['/'] + b + ['/'] + y;
    assert IsStripped(s) by { assert s[0] == a[0]; assert s[|s| - 1] == y[3]; }
    CoerceStrippedText(s);
    SlashedDayFirst(a, b, y);
    TokensAvoid(a, b, y, '/', '-');
    SeparatorAbsent(s, SchemaLayouts[0]);
    FirstLayoutSkip(s, SchemaLayouts);
    FirstLayoutHead(s, SchemaLayouts[1..]);
    assert FirstLayout(s, SchemaLayouts) == Some(d);
  }

  lemma SlashedDayFirst(a: string, b: string, y: string)
    requires IsDayToken(a) && IsMonthToken(b) && IsYearToken(y)
    requires ValidDate(Date(TokenValue(y), TokenValue(b), TokenValue(a)))
    ensures ParseWith(a + ['/'] + b + ['/'] + y, Layout(DayMonthYear, '/')) == Some(Date(TokenValue(y), TokenValue(b), TokenValue(a)))
  {
    assert '/' !in a && '/' !in b;
    ParsePieces(a, b, y, Layout(DayMonthYear, '/'));
  }

  /** "03/04/2024" is 3 April 2024. */
  lemma ThirdOfApril()
    ensures CoerceDate(DateText("03" + "/" + "04" + "/" + "2024")) == GivenDate(Date(2024, 4, 3))
  {
    var a, b, y := "03", "04", "2024";
    assert DigitsValue(y[..1]) == 2 by { assert y[..1][..0] == []; }
    assert DigitsValue(y[..2]) == 20 by { assert y[..2][..1] == y[..1]; }
    assert DigitsValue(y[..3]) == 202 by { assert y[..3][..2] == y[..2]; }
    assert DigitsValue(y) == 2024 by { assert y[..3] == y[..|y| - 1]; }
    assert DigitsValue(a) == 3 by { assert a[..1] == "0"; assert "0"[..0] == []; }
    assert DigitsValue(b) == 4 by { assert b[..1] == "0"; assert "0"[..0] == []; }
    DayFirstWins(a, b, y);
  }

  // ----------------------------------------------------------------------
  // Validation issues and results
  // ----------------------------------------------------------------------

  datatype Severity = Error | Warning

  /** The rules the validator reports. */
  datatype Rule =
    | InvoiceNumberRequired | InvoiceDateRequired | SellerNameRequired | BuyerNameRequired
    | GrossTotalRequired | InvalidCurrency | UnreasonableInvoiceDate | UnreasonableDueDate
    | InvalidDateOrder | TotalsMismatch | LineItemsSumMismatch | NegativeAmount | DuplicateInvoice
  {
    /** The position of the rule in `RuleNames`. */
    function Index(): (n: nat)
      ensures n < |RuleNames|
    {
      match this
      case InvoiceNumberRequired => 0
      case InvoiceDateRequired => 1
      case SellerNameRequired => 2
      case BuyerNameRequired => 3
      case GrossTotalRequired => 4
      case InvalidCurrency => 5
      case UnreasonableInvoiceDate => 6
      case UnreasonableDueDate => 7
      case InvalidDateOrder => 8
      case TotalsMismatch => 9
      case LineItemsSumMismatch => 10
      case NegativeAmount => 11
      case DuplicateInvoice => 12
    }

    /** The name the validator gives the rule. */
    function Name(): string {
      RuleNames[Index()]
    }
  }

  const RuleNames: seq<string> := [
    "invoice_number_required", "invoice_date_required", "seller_name_required", "buyer_name_required",
    "gross_total_required", "invalid_currency", "unreasonable_invoice_date", "unreasonable_due_date",
    "invalid_date_order", "totals_mismatch", "line_items_sum_mismatch", "negative_amount", "duplicate_invoice"]

  /** The invoice fields a rule can name. */
  datatype Field =
    | InvoiceNumberField | InvoiceDateField | DueDateField | SellerNameField | BuyerNameField
    | CurrencyField | NetTotalField | TaxAmountField | GrossTotalField | LineItemsField
  {
    /** The position of the field in `FieldNames`. */
    function Index(): (n: nat)
      ensures n < |FieldNames|
    {
      match this
      case InvoiceNumberField => 0
      case InvoiceDateField => 1
      case DueDateField => 2
      case SellerNameField => 3
      case BuyerNameField => 4
      case CurrencyField => 5
      case NetTotalField => 6
      case TaxAmountField => 7
      case GrossTotalField => 8
      case LineItemsField => 9
    }

    /** The field's name in the invoice record. */
    function Name(): string {
      FieldNames[Index()]
    }
  }

  const FieldNames: seq<string> := [
    "invoice_number", "invoice_date", "due_date", "seller_name", "buyer_name",
    "currency", "net_total", "tax_amount", "gross_total", "line_items"]

  /** A `ValidationError`: the rule that fired, the field it concerns, and
      its severity. */
  datatype Issue = Issue(rule: Rule, field: Option<Field>, severity: Severity)

  /** The value of a `ValidationResult` at one moment. */
  datatype Outcome = Outcome(invoiceId: string, isValid: bool, errors: seq<Issue>, warnings: seq<Issue>)
  {
    /** The state after `add_error(rule, field)`. */
    function WithError(rule: Rule, field: Option<Field>): Outcome {
      this.(errors := errors + [Issue(rule, field, Error)], isValid := false)
    }

    /** The state after `add_warning(rule, field)`. */
    function WithWarning(rule: Rule, field: Option<Field>): Outcome {
      this.(warnings := warnings + [Issue(rule, field, Warning)])
    }

    /** The state after adding `es` as errors and `ws` as warnings, one call
        each, in order. */
    function WithIssues(es: seq<Issue>, ws: seq<Issue>): Outcome {
      this.(errors := errors + es, warnings := warnings + ws, isValid := isValid && es == [])
    }

    /** Validity tells exactly whether an error was recorded. */
    predicate Consistent() {
      isValid <==> errors == []
    }
  }

  /** One more error or warning extends the issues added so far. */
  lemma WithIssuesStep(o: Outcome, es: seq<Issue>, ws: seq<Issue>, rule: Rule, field: Option<Field>)
    ensures o.WithIssues(es, ws).WithError(rule, field) == o.WithIssues(es + [Issue(rule, field, Error)], ws)
    ensures o.WithIssues(es, ws).WithWarning(rule, field) == o.WithIssues(es, ws + [Issue(rule, field, Warning)])
  {
    assert o.errors + es + [Issue(rule, field, Error)] == o.errors + (es + [Issue(rule, field, Error)]);
    assert o.warnings + ws + [Issue(rule, field, Warning)] == o.warnings + (ws + [Issue(rule, field, Warning)]);
  }

  /** Adding nothing changes nothing. */
  lemma WithNoIssues(o: Outcome)
    ensures o.WithIssues([], []) == o
  {
    assert o.errors + [] == o.errors && o.warnings + [] == o.warnings;
  }

  /** Two rounds of additions are one round with both lists. */
  lemma WithIssuesTwice(o: Outcome, es1: seq<Issue>, ws1: seq<Issue>, es2: seq<Issue>, ws2: seq<Issue>)
    ensures o.WithIssues(es1, ws1).WithIssues(es2, ws2) == o.WithIssues(es1 + es2, ws1 + ws2)
  {
    assert o.errors + es1 + es2 == o.errors + (es1 + es2);
    assert o.warnings + ws1 + ws2 == o.warnings + (ws1 + ws2);
  }

  /** `ValidationResult(invoice_id=id, is_valid=True)` */
  function FreshOutcome(id: string): Outcome {
    Outcome(id, true, [], [])
  }

  class ValidationResult {
    var invoiceId: string
    var isValid: bool
    var errors: seq<Issue>
    var warnings: seq<Issue>

    function View(): Outcome
      reads this
    {
      Outcome(invoiceId, isValid, errors, warnings)
    }

    constructor(invoiceId: string, isValid: bool)
      ensures View() == Outcome(invoiceId, isValid, [], [])
    {
      this.invoiceId := invoiceId;
      this.isValid := isValid;
      errors := [];
      warnings := [];
    }

    /** `add_error`: one more error, and the result is no longer valid. */
    method AddError(rule: Rule, field: Option<Field>)
      modifies this
      ensures View() == old(View()).WithError(rule, field)
    {
      errors := errors + [Issue(rule, field, Error)];
      isValid := false;
    }

    /** `add_warning`: one more warning; errors and validity untouched. */
    method AddWarning(rule: Rule, field: Option<Field>)
      modifies this
      ensures View() == old(View()).WithWarning(rule, field)
    {
      warnings := warnings + [Issue(rule, field, Warning)];
    }
  }

  /** One call on a result. */
  datatype ResultCall = AddErrorCall(rule: Rule, field: Option<Field>)
                      | AddWarningCall(rule: Rule, field: Option<Field>)

  function ApplyCall(o: Outcome, c: ResultCall): Outcome {
    match c
    case AddErrorCall(r, f) => o.WithError(r, f)
    case AddWarningCall(r, f) => o.WithWarning(r, f)
  }

  function ApplyCalls(o: Outcome, cs: seq<ResultCall>): Outcome
    decreases |cs|
  {
    if cs == [] then o else ApplyCalls(ApplyCall(o, cs[0]), cs[1..])
  }

  /** The errors a sequence of calls records, in order. */
  function ErrorsOf(cs: seq<ResultCall>): seq<Issue> {
    if cs == [] then []
    else (if cs[0].AddErrorCall? then [Issue(cs[0].rule, cs[0].field, Error)] else []) + ErrorsOf(cs[1..])
  }

  /** The warnings a sequence of calls records, in order. */
  function WarningsOf(cs: seq<ResultCall>): seq<Issue> {
    if cs == [] then []
    else (if cs[0].AddWarningCall? then [Issue(cs[0].rule, cs[0].field, Warning)] else []) + WarningsOf(cs[1..])
  }

  /** Any sequence of `add_error`/`add_warning` calls appends exactly the
      errors and warnings it names, keeps the id, and keeps "valid iff no
      errors" once it holds. */
  lemma {:induction false} CallsKeepConsistent(o: Outcome, cs: seq<ResultCall>)
    ensures ApplyCalls(o, cs) == o.WithIssues(ErrorsOf(cs), WarningsOf(cs))
    ensures o.Consistent() ==> ApplyCalls(o, cs).Consistent()
    decreases |cs|
  {
    if cs != [] {
      var o' := ApplyCall(o, cs[0]);
      var e := if cs[0].AddErrorCall? then [Issue(cs[0].rule, cs[0].field, Error)] else [];
      var w := if cs[0].AddWarningCall? then [Issue(cs[0].rule, cs[0].field, Warning)] else [];
      assert o' == o.WithIssues(e, w);
      CallsKeepConsistent(o', cs[1..]);
      WithIssuesTwice(o, e, w, ErrorsOf(cs[1..]), WarningsOf(cs[1..]));
    }
  }

  /** A result created valid and empty, as the validator creates it, is valid
      after any calls exactly when none of them was `add_error`. */
  lemma FreshResultValidIff(id: string, cs: seq<ResultCall>)
    ensures ApplyCalls(FreshOutcome(id), cs).Consistent()
    ensures ApplyCalls(FreshOutcome(id), cs).errors == ErrorsOf(cs)
  {
    CallsKeepConsistent(FreshOutcome(id), cs);
  }

  // ----------------------------------------------------------------------
  // Summary and report
  // ----------------------------------------------------------------------

  /** `ValidationSummary` */
  datatype Summary = Summary(
    totalInvoices: nat,
    validInvoices: nat,
    invalidInvoices: int,
    invoicesWithWarnings: nat,
    errorCounts: map<string, nat>,
    warningCounts: map<string, nat>)

  /** `ValidationReport`, without its creation time stamp. */
  datatype Report = Report(summary: Summary, results: seq<Outcome>)
}
