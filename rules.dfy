/**
 * The validation rules of `InvoiceValidator`, each as a function from an
 * invoice (and, where the source needs them, the tolerance, the current date
 * and the set of keys already seen in the batch) to the issues it raises, in
 * the order the validator raises them.
 */
module Rules {
  import opened Wrappers
  import opened Text
  import opened Dates
  import opened Schemas

  // ----------------------------------------------------------------------
  // Python truthiness of optional fields
  // ----------------------------------------------------------------------

  /** `not x` for an optional string: absent or empty. */
  predicate Falsy(x: Option<string>) {
    x.None? || x.value == []
  }

  /** `not x or not x.strip()`: absent, empty or only whitespace
      (`Text.StripEmptyIff`). */
  predicate Blank(x: Option<string>) {
    x.None? || AllSpace(x.value)
  }

  /** Truthiness of an optional decimal: present and not zero. */
  predicate Nonzero(x: Option<real>) {
    x.Some? && x.value != 0.0
  }

  function Abs(x: real): real {
    if x < 0.0 then -x else x
  }

  function Err(rule: Rule, field: Field): Issue {
    Issue(rule, Some(field), Error)
  }

  function Warn(rule: Rule, field: Field): Issue {
    Issue(rule, Some(field), Warning)
  }

  predicate AllErrors(r: seq<Issue>) {
    forall e :: e in r ==> e.severity == Error
  }

  predicate AllWarnings(r: seq<Issue>) {
    forall e :: e in r ==> e.severity == Warning
  }

  /** Five optional errors, joined: at most five errors, and an issue is in
      the join exactly when it is one whose condition holds. */
  lemma FiveWhens(c1: bool, e1: Issue, c2: bool, e2: Issue, c3: bool, e3: Issue, c4: bool, e4: Issue, c5: bool, e5: Issue)
    requires e1.severity == e2.severity == e3.severity == e4.severity == e5.severity == Error
    ensures var r := When(c1, e1) + When(c2, e2) + When(c3, e3) + When(c4, e4) + When(c5, e5);
      AllErrors(r) && |r| <= 5
      && forall x :: x in r <==> (c1 && x == e1) || (c2 && x == e2) || (c3 && x == e3) || (c4 && x == e4) || (c5 && x == e5)
  {
  }


  // ----------------------------------------------------------------------
  // Completeness rules
  // ----------------------------------------------------------------------

  /** `[e]` when `c` holds, else nothing: one `if ...: result.add_...` step. */
  function When(c: bool, e: Issue): seq<Issue> {
    if c then [e] else []
  }

  /** The five completeness rules, in the validator's order. */
  function CompletenessErrors(inv: Invoice): seq<Issue> {
    When(Blank(inv.invoiceNumber), Err(InvoiceNumberRequired, InvoiceNumberField))
    + When(inv.invoiceDate.None?, Err(InvoiceDateRequired, InvoiceDateField))
    + When(Blank(inv.sellerName), Err(SellerNameRequired, SellerNameField))
    + When(Blank(inv.buyerName), Err(BuyerNameRequired, BuyerNameField))
    + When(inv.grossTotal.None?, Err(GrossTotalRequired, GrossTotalField))
  }

  /** Each completeness rule fires exactly when its own field is missing,
      whatever the other fields hold; a whitespace-only number or name counts
      as missing. */
  lemma CompletenessRules(inv: Invoice)
    ensures AllErrors(CompletenessErrors(inv)) && |CompletenessErrors(inv)| <= 5
    ensures Err(InvoiceNumberRequired, InvoiceNumberField) in CompletenessErrors(inv) <==> Blank(inv.invoiceNumber)
    ensures Err(InvoiceDateRequired, InvoiceDateField) in CompletenessErrors(inv) <==> inv.invoiceDate.None?
    ensures Err(SellerNameRequired, SellerNameField) in CompletenessErrors(inv) <==> Blank(inv.sellerName)
    ensures Err(BuyerNameRequired, BuyerNameField) in CompletenessErrors(inv) <==> Blank(inv.buyerName)
    ensures Err(GrossTotalRequired, GrossTotalField) in CompletenessErrors(inv) <==> inv.grossTotal.None?
  {
    FiveWhens(Blank(inv.invoiceNumber), Err(InvoiceNumberRequired, InvoiceNumberField),
              inv.invoiceDate.None?, Err(InvoiceDateRequired, InvoiceDateField),
              Blank(inv.sellerName), Err(SellerNameRequired, SellerNameField),
              Blank(inv.buyerName), Err(BuyerNameRequired, BuyerNameField),
              inv.grossTotal.None?, Err(GrossTotalRequired, GrossTotalField));
  }

  // ----------------------------------------------------------------------
  // Format rules
  // ----------------------------------------------------------------------

  /** The currency rule: a non-empty currency outside the known codes. */
  function CurrencyErrors(inv: Invoice): (r: seq<Issue>)
    ensures r == [] || r == [Err(InvalidCurrency, CurrencyField)]
    ensures r != [] <==> inv.currency.Some? && inv.currency.value != [] && CurrencyFromCode(inv.currency.value).None?
  {
    match inv.currency
    case Some(c) => if c != [] && c !in KnownCodes then [Err(InvalidCurrency, CurrencyField)] else []
    case None => []
  }

  /** `_is_reasonable_date`: from 3650 days before `today` to 730 days after
      it, both ends included. Dates are compared by day number, which is how
      Python compares them (`Dates.OrdinalOrder`). */
  predicate IsReasonableDate(d: CalendarDate, today: CalendarDate) {
    Ordinal(today) - 365 * 10 <= Ordinal(d) <= Ordinal(today) + 365 * 2
  }

  /** Today is reasonable, and the reasonable dates form an unbroken stretch
      of the calendar: a date between two reasonable ones is reasonable. */
  lemma ReasonableWindow(lo: CalendarDate, d: CalendarDate, hi: CalendarDate, today: CalendarDate)
    requires IsReasonableDate(lo, today) && IsReasonableDate(hi, today)
    requires !Before(d, lo) && !Before(hi, d)
    ensures IsReasonableDate(d, today)
    ensures IsReasonableDate(today, today)
  {
    OrdinalOrder(d, lo);
    OrdinalOrder(hi, d);
  }

  /** The two date warnings, each on its own field. */
  function DateWarnings(inv: Invoice, today: CalendarDate): seq<Issue> {
    When(inv.invoiceDate.Some? && !IsReasonableDate(inv.invoiceDate.value, today),
         Warn(UnreasonableInvoiceDate, InvoiceDateField))
    + When(inv.dueDate.Some? && !IsReasonableDate(inv.dueDate.value, today),
           Warn(UnreasonableDueDate, DueDateField))
  }

  /** Each date warning fires exactly when its own date is present and
      outside the window. */
  lemma DateRules(inv: Invoice, today: CalendarDate)
    ensures AllWarnings(DateWarnings(inv, today)) && |DateWarnings(inv, today)| <= 2
    ensures Warn(UnreasonableInvoiceDate, InvoiceDateField) in DateWarnings(inv, today) <==>
              inv.invoiceDate.Some? && !IsReasonableDate(inv.invoiceDate.value, today)
    ensures Warn(UnreasonableDueDate, DueDateField) in DateWarnings(inv, today) <==>
              inv.dueDate.Some? && !IsReasonableDate(inv.dueDate.value, today)
  {
  }

  // ----------------------------------------------------------------------
  // Amount matching
  // ----------------------------------------------------------------------

  /** `_amounts_match`: both zero match; with exactly one zero they match
      when less than 0.01 apart; otherwise the difference relative to the
      mean magnitude must not exceed the tolerance. */
  function AmountsMatch(a: real, b: real, tolerance: real): bool {
    if a == 0.0 && b == 0.0 then true
    else if a == 0.0 || b == 0.0 then Abs(a - b) < 0.01
    else
      var avg := (Abs(a) + Abs(b)) / 2.0;
      assert avg > 0.0;
      Abs(a - b) / avg <= tolerance
  }

  /** The division is equivalent to a comparison without one. */
  lemma RatioBound(diff: real, avg: real, tolerance: real)
    requires avg > 0.0
    ensures diff / avg <= tolerance <==> diff <= tolerance * avg
  {
    var q := diff / avg;
    assert q * avg == diff;
    if q <= tolerance {
      assert q * avg <= tolerance * avg;
    } else {
      assert q * avg > tolerance * avg;
    }
  }

  /** The three cases of the match, stated without a division; the
      denominator is never zero. */
  lemma AmountsMatchCases(a: real, b: real, tolerance: real)
    ensures a == 0.0 && b == 0.0 ==> AmountsMatch(a, b, tolerance)
    ensures (a == 0.0) != (b == 0.0) ==> (AmountsMatch(a, b, tolerance) <==> Abs(a - b) < 0.01)
    ensures a != 0.0 && b != 0.0 ==>
              (AmountsMatch(a, b, tolerance) <==> 2.0 * Abs(a - b) <= tolerance * (Abs(a) + Abs(b)))
  {
    if a != 0.0 && b != 0.0 {
      RatioBound(Abs(a - b), (Abs(a) + Abs(b)) / 2.0, tolerance);
    }
  }

  /** The match does not depend on the order of the amounts, and an amount
      matches itself for any tolerance that is not negative. */
  lemma AmountsMatchSymmetricReflexive(a: real, b: real, tolerance: real)
    ensures AmountsMatch(a, b, tolerance) == AmountsMatch(b, a, tolerance)
    ensures tolerance >= 0.0 ==> AmountsMatch(a, a, tolerance)
  {
    assert Abs(a - b) == Abs(b - a);
    assert (Abs(a) + Abs(b)) / 2.0 == (Abs(b) + Abs(a)) / 2.0;
  }

  /** A negative tolerance makes every non-zero amount fail to match
      itself: the constructor does not rule this out. */
  lemma NegativeToleranceRejectsEqual(a: real, tolerance: real)
    requires a != 0.0 && tolerance < 0.0
    ensures !AmountsMatch(a, a, tolerance)
  {
  }

  /** 100 + 19 against 119.01 matches at the default 2% tolerance, and a one
      cent difference against zero does not. */
  lemma ToleranceExamples()
    ensures AmountsMatch(100.0 + 19.0, 119.01, 0.02)
    ensures !AmountsMatch(0.0, 0.01, 0.02)
    ensures !AmountsMatch(100.0 + 19.0, 125.0, 0.02)
  {
    AmountsMatchCases(119.0, 119.01, 0.02);
    AmountsMatchCases(119.0, 125.0, 0.02);
  }

  // ----------------------------------------------------------------------
  // Business rules
  // ----------------------------------------------------------------------

  /** `sum(item.line_total for item in items if item.line_total)`. */
  function LineTotalsSum(items: seq<LineItem>): real {
    if items == [] then 0.0
    else LineTotalsSum(items[..|items| - 1])
         + (if Nonzero(items[|items| - 1].lineTotal) then items[|items| - 1].lineTotal.value else 0.0)
  }

  /** The due date is earlier than the invoice date. */
  predicate DueBeforeIssue(inv: Invoice) {
    inv.invoiceDate.Some? && inv.dueDate.Some? && Before(inv.dueDate.value, inv.invoiceDate.value)
  }

  /** Net, tax and gross are all present and net + tax does not match gross. */
  predicate TotalsMismatched(inv: Invoice, tolerance: real) {
    inv.netTotal.Some? && inv.taxAmount.Some? && inv.grossTotal.Some?
    && !AmountsMatch(inv.netTotal.value + inv.taxAmount.value, inv.grossTotal.value, tolerance)
  }

  /** There are line items, a net total, a positive sum of line totals, and
      that sum does not match the net total. */
  predicate LinesMismatched(inv: Invoice, tolerance: real) {
    |inv.lineItems| > 0 && inv.netTotal.Some? && LineTotalsSum(inv.lineItems) > 0.0
    && !AmountsMatch(LineTotalsSum(inv.lineItems), inv.netTotal.value, tolerance)
  }

  /** An amount that is present and below zero. */
  predicate Negative(x: Option<real>) {
    x.Some? && x.value < 0.0
  }

  /** Date order, totals consistency and the three sign checks, in the
      validator's order. */
  function BusinessErrors(inv: Invoice, tolerance: real): seq<Issue> {
    When(DueBeforeIssue(inv), Err(InvalidDateOrder, DueDateField))
    + When(TotalsMismatched(inv, tolerance), Err(TotalsMismatch, GrossTotalField))
    + When(Negative(inv.netTotal), Err(NegativeAmount, NetTotalField))
    + When(Negative(inv.taxAmount), Err(NegativeAmount, TaxAmountField))
    + When(Negative(inv.grossTotal), Err(NegativeAmount, GrossTotalField))
  }

  /** Each business error fires exactly when its own condition holds. */
  lemma BusinessRules(inv: Invoice, tolerance: real)
    ensures AllErrors(BusinessErrors(inv, tolerance)) && |BusinessErrors(inv, tolerance)| <= 5
    ensures Err(InvalidDateOrder, DueDateField) in BusinessErrors(inv, tolerance) <==>
              inv.invoiceDate.Some? && inv.dueDate.Some? && Before(inv.dueDate.value, inv.invoiceDate.value)
    ensures Err(TotalsMismatch, GrossTotalField) in BusinessErrors(inv, tolerance) <==>
              inv.netTotal.Some? && inv.taxAmount.Some? && inv.grossTotal.Some?
              && !AmountsMatch(inv.netTotal.value + inv.taxAmount.value, inv.grossTotal.value, tolerance)
    ensures Err(NegativeAmount, NetTotalField) in BusinessErrors(inv, tolerance) <==>
              inv.netTotal.Some? && inv.netTotal.value < 0.0
    ensures Err(NegativeAmount, TaxAmountField) in BusinessErrors(inv, tolerance) <==>
              inv.taxAmount.Some? && inv.taxAmount.value < 0.0
    ensures Err(NegativeAmount, GrossTotalField) in BusinessErrors(inv, tolerance) <==>
              inv.grossTotal.Some? && inv.grossTotal.value < 0.0
  {
    FiveWhens(DueBeforeIssue(inv), Err(InvalidDateOrder, DueDateField),
              TotalsMismatched(inv, tolerance), Err(TotalsMismatch, GrossTotalField),
              Negative(inv.netTotal), Err(NegativeAmount, NetTotalField),
              Negative(inv.taxAmount), Err(NegativeAmount, TaxAmountField),
              Negative(inv.grossTotal), Err(NegativeAmount, GrossTotalField));
  }

  /** The line item rule, which only ever warns. */
  function BusinessWarnings(inv: Invoice, tolerance: real): (r: seq<Issue>)
    ensures r == [] || r == [Warn(LineItemsSumMismatch, LineItemsField)]
    ensures r != [] <==>
              |inv.lineItems| > 0 && inv.netTotal.Some? && LineTotalsSum(inv.lineItems) > 0.0
              && !AmountsMatch(LineTotalsSum(inv.lineItems), inv.netTotal.value, tolerance)
  {
    var total := LineTotalsSum(inv.lineItems);
    if |inv.lineItems| > 0 && inv.netTotal.Some? && total > 0.0
       && !AmountsMatch(total, inv.netTotal.value, tolerance)
    then [Warn(LineItemsSumMismatch, LineItemsField)]
    else []
  }

  /** Equal dates are in order, and totals that add up exactly never
      mismatch under a tolerance that is not negative. */
  lemma ConsistentRecordPasses(inv: Invoice, tolerance: real)
    requires tolerance >= 0.0
    requires inv.invoiceDate.Some? && inv.dueDate == inv.invoiceDate
    requires inv.netTotal.Some? && inv.taxAmount.Some? && inv.grossTotal.Some?
    requires inv.netTotal.value + inv.taxAmount.value == inv.grossTotal.value
    ensures Err(InvalidDateOrder, DueDateField) !in BusinessErrors(inv, tolerance)
    ensures Err(TotalsMismatch, GrossTotalField) !in BusinessErrors(inv, tolerance)
  {
    BusinessRules(inv, tolerance);
    AmountsMatchSymmetricReflexive(inv.grossTotal.value, inv.grossTotal.value, tolerance);
  }

  // ----------------------------------------------------------------------
  // Anomaly rule: duplicates
  // ----------------------------------------------------------------------

  /** The normalised identity of an invoice for duplicate detection: number
      and seller upper-cased and stripped, and the invoice date. The source
      keeps `str(invoice_date)`; `DateStringInjective` shows that this text
      identifies the date, so keys compare the same either way. */
  datatype Key = Key(number: string, seller: string, date: Option<CalendarDate>)

  /** `str(invoice.invoice_date)`: the ISO text, or "None". */
  function DateString(d: Option<CalendarDate>): string {
    match d
    case Some(x) => IsoFormat(x)
    case None => "None"
  }

  /** Two optional dates have the same text exactly when they are equal. */
  lemma DateStringInjective(a: Option<CalendarDate>, b: Option<CalendarDate>)
    ensures DateString(a) == DateString(b) <==> a == b
  {
    if a.Some? && b.Some? && DateString(a) == DateString(b) {
      IsoRoundTrip(a.value);
      IsoRoundTrip(b.value);
    }
    if a.Some? && b.None? {
      assert |DateString(a)| != |DateString(b)|;
    }
    if a.None? && b.Some? {
      assert |DateString(a)| != |DateString(b)|;
    }
  }

  /** The key, formed only when number and seller are non-empty (a
      whitespace-only number or seller still forms one). */
  function DuplicateKey(inv: Invoice): (k: Option<Key>)
    ensures k.Some? <==> !Falsy(inv.invoiceNumber) && !Falsy(inv.sellerName)
    ensures k.Some? ==> k.value.date == inv.invoiceDate
    ensures k.Some? ==> k.value.number == Upper(Strip(inv.invoiceNumber.value))
                        && k.value.seller == Upper(Strip(inv.sellerName.value))
  {
    if !Falsy(inv.invoiceNumber) && !Falsy(inv.sellerName) then
      Some(Key(Upper(Strip(inv.invoiceNumber.value)), Upper(Strip(inv.sellerName.value)), inv.invoiceDate))
    else None
  }

  /** Two records with formed keys share their key exactly when they agree
      on the upper-cased, stripped number and seller and on the date: case
      and surrounding whitespace are ignored, and nothing else is. */
  lemma KeyIgnoresCaseAndPadding(inv: Invoice, other: Invoice)
    requires !Falsy(inv.invoiceNumber) && !Falsy(inv.sellerName)
    requires !Falsy(other.invoiceNumber) && !Falsy(other.sellerName)
    ensures DuplicateKey(inv).Some? && DuplicateKey(other).Some?
    ensures DuplicateKey(inv) == DuplicateKey(other) <==>
      Upper(Strip(inv.invoiceNumber.value)) == Upper(Strip(other.invoiceNumber.value))
      && Upper(Strip(inv.sellerName.value)) == Upper(Strip(other.sellerName.value))
      && inv.invoiceDate == other.invoiceDate
  {
  }

  /** The duplicate error: the key was already seen. */
  function AnomalyErrors(inv: Invoice, seen: set<Key>): (r: seq<Issue>)
    ensures r == [] || r == [Err(DuplicateInvoice, InvoiceNumberField)]
    ensures r != [] <==> DuplicateKey(inv).Some? && DuplicateKey(inv).value in seen
  {
    match DuplicateKey(inv)
    case Some(k) => if k in seen then [Err(DuplicateInvoice, InvoiceNumberField)] else []
    case None => []
  }

  /** The seen-set after the rule: the key, if formed, is in it. */
  function SeenAfter(inv: Invoice, seen: set<Key>): (r: set<Key>)
    ensures seen <= r
    ensures r == match DuplicateKey(inv) case Some(k) => seen + {k} case None => seen
  {
    match DuplicateKey(inv)
    case Some(k) => if k in seen then seen else seen + {k}
    case None => seen
  }

  // ----------------------------------------------------------------------
  // One invoice
  // ----------------------------------------------------------------------

  /** `invoice_number or source_file or "UNKNOWN"` */
  function InvoiceId(inv: Invoice): (id: string)
    ensures id != []
    ensures !Falsy(inv.invoiceNumber) ==> id == inv.invoiceNumber.value
    ensures Falsy(inv.invoiceNumber) && !Falsy(inv.sourceFile) ==> id == inv.sourceFile.value
    ensures Falsy(inv.invoiceNumber) && Falsy(inv.sourceFile) ==> id == "UNKNOWN"
  {
    if !Falsy(inv.invoiceNumber) then inv.invoiceNumber.value
    else if !Falsy(inv.sourceFile) then inv.sourceFile.value
    else "UNKNOWN"
  }

  /** Every error `validate_invoice` records, in order. */
  function ErrorsFor(inv: Invoice, tolerance: real, seen: set<Key>): seq<Issue> {
    CompletenessErrors(inv) + CurrencyErrors(inv) + BusinessErrors(inv, tolerance) + AnomalyErrors(inv, seen)
  }

  /** Every warning `validate_invoice` records, in order. */
  function WarningsFor(inv: Invoice, tolerance: real, today: CalendarDate): seq<Issue> {
    DateWarnings(inv, today) + BusinessWarnings(inv, tolerance)
  }

  /** The result `validate_invoice` returns. */
  function OutcomeFor(inv: Invoice, tolerance: real, today: CalendarDate, seen: set<Key>): Outcome {
    FreshOutcome(InvoiceId(inv)).WithIssues(ErrorsFor(inv, tolerance, seen), WarningsFor(inv, tolerance, today))
  }

  /** A result is invalid exactly when it carries an error; the current date,
      which only feeds warnings, never changes validity; errors are all of
      severity error and warnings all of severity warning. */
  lemma OutcomeValidity(inv: Invoice, tolerance: real, today: CalendarDate, other: CalendarDate, seen: set<Key>)
    ensures OutcomeFor(inv, tolerance, today, seen).Consistent()
    ensures OutcomeFor(inv, tolerance, today, seen).isValid == OutcomeFor(inv, tolerance, other, seen).isValid
    ensures AllErrors(OutcomeFor(inv, tolerance, today, seen).errors)
    ensures AllWarnings(OutcomeFor(inv, tolerance, today, seen).warnings)
  {
    var c, k, b, a := CompletenessErrors(inv), CurrencyErrors(inv), BusinessErrors(inv, tolerance), AnomalyErrors(inv, seen);
    CompletenessSeverity(inv);
    BusinessSeverity(inv, tolerance);
    AllErrorsJoin(c, k);
    AllErrorsJoin(c + k, b);
    AllErrorsJoin(c + k + b, a);
    AllWarningsJoin(DateWarnings(inv, today), BusinessWarnings(inv, tolerance));
  }

  lemma CompletenessSeverity(inv: Invoice)
    ensures AllErrors(CompletenessErrors(inv))
  {
    FiveWhens(Blank(inv.invoiceNumber), Err(InvoiceNumberRequired, InvoiceNumberField),
              inv.invoiceDate.None?, Err(InvoiceDateRequired, InvoiceDateField),
              Blank(inv.sellerName), Err(SellerNameRequired, SellerNameField),
              Blank(inv.buyerName), Err(BuyerNameRequired, BuyerNameField),
              inv.grossTotal.None?, Err(GrossTotalRequired, GrossTotalField));
  }

  lemma BusinessSeverity(inv: Invoice, tolerance: real)
    ensures AllErrors(BusinessErrors(inv, tolerance))
  {
    FiveWhens(DueBeforeIssue(inv), Err(InvalidDateOrder, DueDateField),
              TotalsMismatched(inv, tolerance), Err(TotalsMismatch, GrossTotalField),
              Negative(inv.netTotal), Err(NegativeAmount, NetTotalField),
              Negative(inv.taxAmount), Err(NegativeAmount, TaxAmountField),
              Negative(inv.grossTotal), Err(NegativeAmount, GrossTotalField));
  }

  lemma AllErrorsJoin(a: seq<Issue>, b: seq<Issue>)
    requires AllErrors(a) && AllErrors(b)
    ensures AllErrors(a + b)
  {
  }

  lemma AllWarningsJoin(a: seq<Issue>, b: seq<Issue>)
    requires AllWarnings(a) && AllWarnings(b)
    ensures AllWarnings(a + b)
  {
  }


  /** The schema's own constraints make two rules unreachable: a record that
      satisfies them never gets `negative_amount` or `invalid_currency`. */
  lemma SchemaValidNeverNegativeOrBadCurrency(inv: Invoice, tolerance: real, seen: set<Key>)
    requires SchemaValid(inv)
    ensures forall e :: e in ErrorsFor(inv, tolerance, seen) ==> e.rule != NegativeAmount && e.rule != InvalidCurrency
  {
    var c, k, b, a := CompletenessErrors(inv), CurrencyErrors(inv), BusinessErrors(inv, tolerance), AnomalyErrors(inv, seen);
    assert k == [];
    CompletenessNeverNegativeOrBadCurrency(inv);
    SignedBusinessErrors(inv, tolerance);
    forall e | e in ErrorsFor(inv, tolerance, seen)
      ensures e.rule != NegativeAmount && e.rule != InvalidCurrency
    {
      assert e in c || e in b || e in a;
    }
  }

  lemma CompletenessNeverNegativeOrBadCurrency(inv: Invoice)
    ensures forall e :: e in CompletenessErrors(inv) ==> e.rule != NegativeAmount && e.rule != InvalidCurrency
  {
    FiveWhens(Blank(inv.invoiceNumber), Err(InvoiceNumberRequired, InvoiceNumberField),
              inv.invoiceDate.None?, Err(InvoiceDateRequired, InvoiceDateField),
              Blank(inv.sellerName), Err(SellerNameRequired, SellerNameField),
              Blank(inv.buyerName), Err(BuyerNameRequired, BuyerNameField),
              inv.grossTotal.None?, Err(GrossTotalRequired, GrossTotalField));
  }

  /** A business error is never about the currency, and is about a sign only
      when some amount is negative. */
  lemma SignedBusinessErrors(inv: Invoice, tolerance: real)
    ensures forall e :: e in BusinessErrors(inv, tolerance) ==>
              e.rule != InvalidCurrency
              && (e.rule == NegativeAmount ==> Negative(inv.netTotal) || Negative(inv.taxAmount) || Negative(inv.grossTotal))
  {
    FiveWhens(DueBeforeIssue(inv), Err(InvalidDateOrder, DueDateField),
              TotalsMismatched(inv, tolerance), Err(TotalsMismatch, GrossTotalField),
              Negative(inv.netTotal), Err(NegativeAmount, NetTotalField),
              Negative(inv.taxAmount), Err(NegativeAmount, TaxAmountField),
              Negative(inv.grossTotal), Err(NegativeAmount, GrossTotalField));
  }

}
