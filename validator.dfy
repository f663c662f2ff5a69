/**
 * `InvoiceValidator`: the rule groups run in a fixed order against one
 * invoice, batch validation with a duplicate set that each batch starts
 * empty, and the batch summary.
 */
module Validator {
  import opened Wrappers
  import opened Text
  import opened Dates
  import opened Schemas
  import opened Rules
  import opened Summaries

  /** The keys of all records of a batch prefix, i.e. the seen-set after
      validating them. */
  function KeysOf(invs: seq<Invoice>): set<Key> {
    if invs == [] then {}
    else SeenAfter(invs[|invs| - 1], KeysOf(invs[..|invs| - 1]))
  }

  /** Each record of a list checked by `check` against the keys of the
      records before it. */
  function Scan(invs: seq<Invoice>, check: (Invoice, set<Key>) -> Outcome): (rs: seq<Outcome>) {
    seq(|invs|, i requires 0 <= i < |invs| => check(invs[i], KeysOf(invs[..i])))
  }

  /** One more record: one more result, checked against the keys of the
      records before it. */
  lemma ScanStep(invs: seq<Invoice>, i: nat, check: (Invoice, set<Key>) -> Outcome)
    requires i < |invs|
    ensures Scan(invs[..i + 1], check) == Scan(invs[..i], check) + [check(invs[i], KeysOf(invs[..i]))]
  {
    var a, b := Scan(invs[..i + 1], check), Scan(invs[..i], check) + [check(invs[i], KeysOf(invs[..i]))];
    forall j | 0 <= j < i + 1 ensures a[j] == b[j] {
      assert invs[..i + 1][..j] == invs[..j];
      if j < i { assert invs[..i][..j] == invs[..j]; }
    }
  }

  /** The results of validating a batch, in order. */
  function BatchOutcomes(invs: seq<Invoice>, tolerance: real, today: CalendarDate): (rs: seq<Outcome>) {
    Scan(invs, (inv, seen) => OutcomeFor(inv, tolerance, today, seen))
  }

  /** One more invoice of a batch: one more result, checked against the keys
      of the invoices before it, and its key joins them. */
  lemma BatchStep(invs: seq<Invoice>, i: nat, tolerance: real, today: CalendarDate)
    requires i < |invs|
    ensures BatchOutcomes(invs[..i + 1], tolerance, today)
      == BatchOutcomes(invs[..i], tolerance, today) + [OutcomeFor(invs[i], tolerance, today, KeysOf(invs[..i]))]
    ensures KeysOf(invs[..i + 1]) == SeenAfter(invs[i], KeysOf(invs[..i]))
  {
    ScanStep(invs, i, (inv, seen) => OutcomeFor(inv, tolerance, today, seen));
    assert invs[..i + 1][..i] == invs[..i];
  }

  /** The current values of a list of result objects. */
  function Views(rs: seq<ValidationResult>): (vs: seq<Outcome>)
    reads rs
    ensures |vs| == |rs|
  {
    if rs == [] then [] else Views(rs[..|rs| - 1]) + [rs[|rs| - 1].View()]
  }

  class InvoiceValidator {
    const tolerance: real
    var seenInvoices: set<Key>

    /** `InvoiceValidator(tolerance)`; the source's default is 0.02. */
    constructor(tolerance: real)
      ensures this.tolerance == tolerance && seenInvoices == {}
    {
      this.tolerance := tolerance;
      seenInvoices := {};
    }

    /** `validate_batch`: clear the seen-set, validate every record in order,
        then summarise. Nothing carries over from earlier calls. */
    method ValidateBatch(invoices: seq<Invoice>, today: CalendarDate) returns (report: Report)
      modifies this`seenInvoices
      ensures report.results == BatchOutcomes(invoices, tolerance, today)
      ensures report.summary == SummaryOf(report.results)
      ensures seenInvoices == KeysOf(invoices)
    {
      seenInvoices := {};
      var results: seq<ValidationResult> := [];
      var i := 0;
      while i < |invoices|
        invariant 0 <= i <= |invoices|
        invariant |results| == i
        invariant Views(results) == BatchOutcomes(invoices[..i], tolerance, today)
        invariant seenInvoices == KeysOf(invoices[..i])
      {
        BatchStep(invoices, i, tolerance, today);
        var result := ValidateInvoice(invoices[i], today);
        ViewsSnoc(results, result);
        results := results + [result];
        i := i + 1;
      }
      assert invoices[..i] == invoices;
      var summary := CreateSummary(results);
      report := Report(summary, Views(results));
    }

    /** `validate_invoice`: a fresh valid result, then the completeness,
        format, business and anomaly rules, none of them short-circuiting. */
    method ValidateInvoice(invoice: Invoice, today: CalendarDate) returns (result: ValidationResult)
      modifies this`seenInvoices
      ensures fresh(result)
      ensures result.View() == OutcomeFor(invoice, tolerance, today, old(seenInvoices))
      ensures seenInvoices == SeenAfter(invoice, old(seenInvoices))
    {
      var id: string;
      if invoice.invoiceNumber.Some? && invoice.invoiceNumber.value != [] {
        id := invoice.invoiceNumber.value;
      } else if invoice.sourceFile.Some? && invoice.sourceFile.value != [] {
        id := invoice.sourceFile.value;
      } else {
        id := "UNKNOWN";
      }
      result := new ValidationResult(id, true);
      ghost var o := result.View();
      ghost var seen := seenInvoices;
      ValidateCompleteness(invoice, result);
      ValidateFormats(invoice, today, result);
      ValidateBusinessRules(invoice, result);
      ValidateAnomalies(invoice, result);
      FourRounds(o, CompletenessErrors(invoice), CurrencyErrors(invoice), DateWarnings(invoice, today),
                 BusinessErrors(invoice, tolerance), BusinessWarnings(invoice, tolerance), AnomalyErrors(invoice, seen));
    }

    /** `s.strip()` is empty, the way the source tests a name or number. */
    static method IsBlank(x: Option<string>) returns (b: bool)
      ensures b == Blank(x)
    {
      if x.None? {
        return true;
      }
      StripEmptyIff(x.value);
      return Strip(x.value) == [];
    }

    /** One `if c: result.add_error(rule, field)` step. */
    static method ErrorIf(c: bool, rule: Rule, field: Field, result: ValidationResult)
      modifies result
      ensures result.View() == old(result.View()).WithIssues(When(c, Err(rule, field)), [])
    {
      if c {
        result.AddError(rule, Some(field));
      } else {
        WithNoIssues(result.View());
      }
    }

    /** One `if c: result.add_warning(rule, field)` step. */
    static method WarningIf(c: bool, rule: Rule, field: Field, result: ValidationResult)
      modifies result
      ensures result.View() == old(result.View()).WithIssues([], When(c, Warn(rule, field)))
    {
      if c {
        result.AddWarning(rule, Some(field));
      } else {
        WithNoIssues(result.View());
      }
    }

    /** `_validate_completeness` */
    method ValidateCompleteness(invoice: Invoice, result: ValidationResult)
      modifies result
      ensures result.View() == old(result.View()).WithIssues(CompletenessErrors(invoice), [])
    {
      ghost var o := result.View();
      var blank := IsBlank(invoice.invoiceNumber);
      ErrorIf(blank, InvoiceNumberRequired, InvoiceNumberField, result);
      ghost var es := When(blank, Err(InvoiceNumberRequired, InvoiceNumberField));
      ErrorIf(invoice.invoiceDate.None?, InvoiceDateRequired, InvoiceDateField, result);
      WithIssuesTwice(o, es, [], When(invoice.invoiceDate.None?, Err(InvoiceDateRequired, InvoiceDateField)), []);
      es := es + When(invoice.invoiceDate.None?, Err(InvoiceDateRequired, InvoiceDateField));
      blank := IsBlank(invoice.sellerName);
      ErrorIf(blank, SellerNameRequired, SellerNameField, result);
      WithIssuesTwice(o, es, [], When(blank, Err(SellerNameRequired, SellerNameField)), []);
      es := es + When(blank, Err(SellerNameRequired, SellerNameField));
      blank := IsBlank(invoice.buyerName);
      ErrorIf(blank, BuyerNameRequired, BuyerNameField, result);
      WithIssuesTwice(o, es, [], When(blank, Err(BuyerNameRequired, BuyerNameField)), []);
      es := es + When(blank, Err(BuyerNameRequired, BuyerNameField));
      ErrorIf(invoice.grossTotal.None?, GrossTotalRequired, GrossTotalField, result);
      WithIssuesTwice(o, es, [], When(invoice.grossTotal.None?, Err(GrossTotalRequired, GrossTotalField)), []);
    }

    /** `_validate_formats`: the currency error and the two date warnings. */
    method ValidateFormats(invoice: Invoice, today: CalendarDate, result: ValidationResult)
      modifies result
      ensures result.View() == old(result.View()).WithIssues(CurrencyErrors(invoice), DateWarnings(invoice, today))
    {
      ghost var o := result.View();
      var unknown := invoice.currency.Some? && invoice.currency.value != [] && invoice.currency.value !in KnownCodes;
      ErrorIf(unknown, InvalidCurrency, CurrencyField, result);
      ghost var es := When(unknown, Err(InvalidCurrency, CurrencyField));
      var bad := invoice.invoiceDate.Some? && !IsReasonableDate(invoice.invoiceDate.value, today);
      WarningIf(bad, UnreasonableInvoiceDate, InvoiceDateField, result);
      WithIssuesTwice(o, es, [], [], When(bad, Warn(UnreasonableInvoiceDate, InvoiceDateField)));
      ghost var ws := [] + When(bad, Warn(UnreasonableInvoiceDate, InvoiceDateField));
      bad := invoice.dueDate.Some? && !IsReasonableDate(invoice.dueDate.value, today);
      WarningIf(bad, UnreasonableDueDate, DueDateField, result);
      WithIssuesTwice(o, es + [], ws, [], When(bad, Warn(UnreasonableDueDate, DueDateField)));
      assert es + [] + [] == CurrencyErrors(invoice);
      assert ws + When(bad, Warn(UnreasonableDueDate, DueDateField)) == DateWarnings(invoice, today);
    }

    /** `_validate_business_rules` */
    method ValidateBusinessRules(invoice: Invoice, result: ValidationResult)
      modifies result
      ensures result.View() == old(result.View()).WithIssues(BusinessErrors(invoice, tolerance), BusinessWarnings(invoice, tolerance))
    {
      ghost var o := result.View();
      var order, totals, lines, net, tax, gross := BusinessConditions(invoice, tolerance);
      ErrorIf(order, InvalidDateOrder, DueDateField, result);
      ErrorIf(totals, TotalsMismatch, GrossTotalField, result);
      WarningIf(lines, LineItemsSumMismatch, LineItemsField, result);
      ErrorIf(net, NegativeAmount, NetTotalField, result);
      ErrorIf(tax, NegativeAmount, TaxAmountField, result);
      ErrorIf(gross, NegativeAmount, GrossTotalField, result);
      SixRounds(o, When(order, Err(InvalidDateOrder, DueDateField)), When(totals, Err(TotalsMismatch, GrossTotalField)),
                When(lines, Warn(LineItemsSumMismatch, LineItemsField)), When(net, Err(NegativeAmount, NetTotalField)),
                When(tax, Err(NegativeAmount, TaxAmountField)), When(gross, Err(NegativeAmount, GrossTotalField)));
    }

    /** The six tests of `_validate_business_rules`, in the order the source
        makes them: due date before invoice date, net + tax against gross,
        line totals against net, and a negative net, tax or gross amount. */
    static method BusinessConditions(invoice: Invoice, tolerance: real)
      returns (order: bool, totals: bool, lines: bool, net: bool, tax: bool, gross: bool)
      ensures order == DueBeforeIssue(invoice) && totals == TotalsMismatched(invoice, tolerance)
      ensures lines == LinesMismatched(invoice, tolerance)
      ensures net == Negative(invoice.netTotal) && tax == Negative(invoice.taxAmount) && gross == Negative(invoice.grossTotal)
    {
      order := invoice.invoiceDate.Some? && invoice.dueDate.Some? && Before(invoice.dueDate.value, invoice.invoiceDate.value);
      totals := false;
      if invoice.netTotal.Some? && invoice.taxAmount.Some? && invoice.grossTotal.Some? {
        var expectedGross := invoice.netTotal.value + invoice.taxAmount.value;
        totals := !AmountsMatch(expectedGross, invoice.grossTotal.value, tolerance);
      }
      lines := false;
      if |invoice.lineItems| > 0 && invoice.netTotal.Some? {
        var lineItemsSum := LineTotalsSum(invoice.lineItems);
        lines := lineItemsSum > 0.0 && !AmountsMatch(lineItemsSum, invoice.netTotal.value, tolerance);
      }
      net := invoice.netTotal.Some? && invoice.netTotal.value < 0.0;
      tax := invoice.taxAmount.Some? && invoice.taxAmount.value < 0.0;
      gross := invoice.grossTotal.Some? && invoice.grossTotal.value < 0.0;
    }

    /** `_validate_anomalies`: report a key already seen, else remember it. */
    method ValidateAnomalies(invoice: Invoice, result: ValidationResult)
      modifies this`seenInvoices, result
      ensures result.View() == old(result.View()).WithIssues(AnomalyErrors(invoice, old(seenInvoices)), [])
      ensures seenInvoices == SeenAfter(invoice, old(seenInvoices))
    {
      if invoice.invoiceNumber.Some? && invoice.invoiceNumber.value != []
         && invoice.sellerName.Some? && invoice.sellerName.value != [] {
        var key := Key(Upper(Strip(invoice.invoiceNumber.value)), Upper(Strip(invoice.sellerName.value)),
                       invoice.invoiceDate);
        if key in seenInvoices {
          result.AddError(DuplicateInvoice, Some(InvoiceNumberField));
        } else {
          seenInvoices := seenInvoices + {key};
        }
      }
    }

    /** The inner loop of `_create_summary` over one result's errors or
        warnings: each issue bumps the count of its key. */
    static method Tally(counts: map<string, nat>, issues: seq<Issue>, ghost before: seq<string>) returns (r: map<string, nat>)
      requires counts == Counts(before)
      ensures r == Counts(before + IssueKeys(issues))
    {
      r := counts;
      var j := 0;
      assert before + IssueKeys(issues[..0]) == before;
      while j < |issues|
        invariant 0 <= j <= |issues|
        invariant r == Counts(before + IssueKeys(issues[..j]))
      {
        TallyStep(before, issues, j);
        r := Bump(r, IssueKey(issues[j]));
        j := j + 1;
      }
      assert issues[..j] == issues;
    }

    /** The loop of `_create_summary`: one pass over every error and
        warning of every result, counting each key. */
    static method TallyResults(results: seq<ValidationResult>) returns (errorCounts: map<string, nat>, warningCounts: map<string, nat>)
      ensures errorCounts == Counts(IssueKeys(ErrorsIn(Views(results))))
      ensures warningCounts == Counts(IssueKeys(WarningsIn(Views(results))))
    {
      ghost var outcomes := Views(results);
      errorCounts, warningCounts := map[], map[];
      var i := 0;
      while i < |results|
        invariant 0 <= i <= |results|
        invariant errorCounts == Counts(IssueKeys(ErrorsIn(outcomes[..i])))
        invariant warningCounts == Counts(IssueKeys(WarningsIn(outcomes[..i])))
      {
        var result := results[i];
        ViewStep(results, i);
        errorCounts := Tally(errorCounts, result.errors, IssueKeys(ErrorsIn(outcomes[..i])));
        warningCounts := Tally(warningCounts, result.warnings, IssueKeys(WarningsIn(outcomes[..i])));
        i := i + 1;
      }
      assert outcomes[..i] == outcomes;
    }

    /** `_create_summary`: the valid and warned counts, then the counts of
        every error and warning key. */
    method CreateSummary(results: seq<ValidationResult>) returns (summary: Summary)
      ensures summary == SummaryOf(Views(results))
    {
      var total := |results|;
      var valid := CountValid(Views(results));
      var invalid := total - valid;
      var withWarnings := CountWithWarnings(Views(results));
      var errorCounts, warningCounts := TallyResults(results);
      summary := Summary(total, valid, invalid, withWarnings, errorCounts, warningCounts);
    }
  }

  /** One more result extends the issue lists by its own issues. */
  lemma ViewStep(rs: seq<ValidationResult>, i: nat)
    requires i < |rs|
    ensures IssueKeys(ErrorsIn(Views(rs)[..i + 1])) == IssueKeys(ErrorsIn(Views(rs)[..i])) + IssueKeys(rs[i].errors)
    ensures IssueKeys(WarningsIn(Views(rs)[..i + 1])) == IssueKeys(WarningsIn(Views(rs)[..i])) + IssueKeys(rs[i].warnings)
  {
    IssuesStep(rs, i);
    IssueKeysAppend(ErrorsIn(Views(rs)[..i]), rs[i].errors);
    IssueKeysAppend(WarningsIn(Views(rs)[..i]), rs[i].warnings);
  }

  lemma IssuesStep(rs: seq<ValidationResult>, i: nat)
    requires i < |rs|
    ensures ErrorsIn(Views(rs)[..i + 1]) == ErrorsIn(Views(rs)[..i]) + rs[i].errors
    ensures WarningsIn(Views(rs)[..i + 1]) == WarningsIn(Views(rs)[..i]) + rs[i].warnings
  {
    var vs := Views(rs);
    var front := vs[..i + 1];
    assert front[..|front| - 1] == vs[..i];
    ViewAt(rs, i);
    assert front[|front| - 1] == rs[i].View();
  }

  lemma ViewAt(rs: seq<ValidationResult>, i: nat)
    requires i < |rs|
    ensures Views(rs)[i] == rs[i].View()
    decreases |rs|
  {
    if i < |rs| - 1 {
      assert rs[..|rs| - 1][i] == rs[i];
      ViewAt(rs[..|rs| - 1], i);
    }
  }


  /** Six rounds of additions, one warning round among five error rounds,
      are one round with the errors and the warning concatenated. */
  lemma SixRounds(o: Outcome, e1: seq<Issue>, e2: seq<Issue>, w: seq<Issue>, e3: seq<Issue>, e4: seq<Issue>, e5: seq<Issue>)
    ensures o.WithIssues(e1, []).WithIssues(e2, []).WithIssues([], w).WithIssues(e3, []).WithIssues(e4, []).WithIssues(e5, [])
            == o.WithIssues(e1 + e2 + e3 + e4 + e5, w)
  {
    WithIssuesTwice(o, e1, [], e2, []);
    WithIssuesTwice(o, e1 + e2, [], [], w);
    WithIssuesTwice(o, e1 + e2 + [], [] + w, e3, []);
    WithIssuesTwice(o, e1 + e2 + [] + e3, [] + w + [], e4, []);
    WithIssuesTwice(o, e1 + e2 + [] + e3 + e4, [] + w + [] + [], e5, []);
    assert e1 + e2 + [] + e3 + e4 + e5 == e1 + e2 + e3 + e4 + e5;
    assert [] + w + [] + [] + [] == w;
  }

  /** The four rounds of additions `validate_invoice` makes, one per rule
      group, are one round with the groups' lists joined in order. */
  lemma FourRounds(o: Outcome, c: seq<Issue>, k: seq<Issue>, d: seq<Issue>, b: seq<Issue>, w: seq<Issue>, a: seq<Issue>)
    ensures o.WithIssues(c, []).WithIssues(k, d).WithIssues(b, w).WithIssues(a, []) == o.WithIssues(c + k + b + a, d + w)
  {
    WithIssuesTwice(o, c, [], k, d);
    WithIssuesTwice(o, c + k, [] + d, b, w);
    WithIssuesTwice(o, c + k + b, [] + d + w, a, []);
    assert [] + d + w + [] == d + w;
  }


  /** Counting the keys of one more issue bumps its key. */
  lemma TallyStep(before: seq<string>, issues: seq<Issue>, j: nat)
    requires j < |issues|
    ensures Counts(before + IssueKeys(issues[..j + 1])) == Bump(Counts(before + IssueKeys(issues[..j])), IssueKey(issues[j]))
  {
    var ks, k := IssueKeys(issues[..j]), IssueKey(issues[j]);
    IssueKeysSnoc(issues, j);
    assert before + (ks + [k]) == (before + ks) + [k];
    CountsSnoc(before + ks, k);
  }

  /** The keys of one more issue end with its key. */
  lemma IssueKeysSnoc(issues: seq<Issue>, j: nat)
    requires j < |issues|
    ensures IssueKeys(issues[..j + 1]) == IssueKeys(issues[..j]) + [IssueKey(issues[j])]
  {
    assert issues[..j + 1][..j] == issues[..j];
  }

  lemma ViewsSnoc(rs: seq<ValidationResult>, r: ValidationResult)
    ensures Views(rs + [r]) == Views(rs) + [r.View()]
  {
    assert (rs + [r])[..|rs|] == rs;
  }

  // ----------------------------------------------------------------------
  // Properties of a batch
  // ----------------------------------------------------------------------

  /** The keys a list of records forms, one per record. */
  function FormedKeys(invs: seq<Invoice>): (ks: seq<Option<Key>>)
    ensures |ks| == |invs|
  {
    if invs == [] then [] else FormedKeys(invs[..|invs| - 1]) + [DuplicateKey(invs[|invs| - 1])]
  }

  lemma {:induction false} FormedKeysAt(invs: seq<Invoice>, j: nat)
    requires j < |invs|
    ensures FormedKeys(invs)[j] == DuplicateKey(invs[j])
  {
    if j < |invs| - 1 {
      FormedKeysAt(invs[..|invs| - 1], j);
    }
  }

  /** The keys that occur in a list of optional keys. */
  function KeySet(ks: seq<Option<Key>>): set<Key> {
    if ks == [] then {}
    else match ks[|ks| - 1]
      case Some(k) => KeySet(ks[..|ks| - 1]) + {k}
      case None => KeySet(ks[..|ks| - 1])
  }

  lemma {:induction false} KeySetIff(ks: seq<Option<Key>>, k: Key)
    ensures k in KeySet(ks) <==> exists j :: 0 <= j < |ks| && ks[j] == Some(k)
  {
    if ks != [] {
      var front := ks[..|ks| - 1];
      KeySetIff(front, k);
      if exists j :: 0 <= j < |front| && front[j] == Some(k) {
        var j :| 0 <= j < |front| && front[j] == Some(k);
        assert ks[j] == front[j];
      }
      if exists j :: 0 <= j < |ks| && ks[j] == Some(k) {
        var j :| 0 <= j < |ks| && ks[j] == Some(k);
        if j < |front| { assert front[j] == ks[j]; }
      }
    }
  }

  /** The seen-set after a prefix is the set of keys its records form. */
  lemma {:induction false} KeysOfFormed(invs: seq<Invoice>)
    ensures KeysOf(invs) == KeySet(FormedKeys(invs))
  {
    if invs != [] {
      var front := invs[..|invs| - 1];
      KeysOfFormed(front);
      var ks := FormedKeys(invs);
      assert ks[..|ks| - 1] == FormedKeys(front);
    }
  }

  /** The seen-set after a prefix holds exactly the keys its records form. */
  lemma KeysOfIff(invs: seq<Invoice>, k: Key)
    ensures k in KeysOf(invs) <==> exists j :: 0 <= j < |invs| && DuplicateKey(invs[j]) == Some(k)
  {
    KeysOfFormed(invs);
    KeySetIff(FormedKeys(invs), k);
    forall j | 0 <= j < |invs| ensures FormedKeys(invs)[j] == DuplicateKey(invs[j]) {
      FormedKeysAt(invs, j);
    }
  }

  /** Only the anomaly rule reports a duplicate. */
  lemma OnlyAnomalyFlagsDuplicates(inv: Invoice, tolerance: real, seen: set<Key>)
    ensures Err(DuplicateInvoice, InvoiceNumberField) in ErrorsFor(inv, tolerance, seen) <==> AnomalyErrors(inv, seen) != []
  {
    var d := Err(DuplicateInvoice, InvoiceNumberField);
    var c, k, b := CompletenessErrors(inv), CurrencyErrors(inv), BusinessErrors(inv, tolerance);
    assert d !in c;
    assert d !in b;
    assert d !in k;
  }

  /** The errors of record `i` of a batch. */
  lemma BatchErrorsAt(invs: seq<Invoice>, tolerance: real, today: CalendarDate, i: nat)
    requires i < |invs|
    ensures BatchOutcomes(invs, tolerance, today)[i].errors == ErrorsFor(invs[i], tolerance, KeysOf(invs[..i]))
  {
    assert [] + ErrorsFor(invs[i], tolerance, KeysOf(invs[..i])) == ErrorsFor(invs[i], tolerance, KeysOf(invs[..i]));
  }

  /** A key is in the seen-set before record `i` exactly when a record
      before `i` formed it. */
  lemma SeenBefore(invs: seq<Invoice>, i: nat, k: Key)
    requires i <= |invs|
    ensures k in KeysOf(invs[..i]) <==> exists j :: 0 <= j < i && DuplicateKey(invs[j]) == Some(k)
  {
    var p := invs[..i];
    KeysOfIff(p, k);
    assert forall j :: 0 <= j < i ==> p[j] == invs[j];
  }

  /** A record is reported as a duplicate exactly when it forms a key and an
      earlier record of the same batch formed the same key. */
  lemma DuplicateIff(invs: seq<Invoice>, tolerance: real, today: CalendarDate, i: nat)
    requires i < |invs|
    ensures Err(DuplicateInvoice, InvoiceNumberField) in BatchOutcomes(invs, tolerance, today)[i].errors <==>
              DuplicateKey(invs[i]).Some? && exists j :: 0 <= j < i && DuplicateKey(invs[j]) == DuplicateKey(invs[i])
  {
    BatchErrorsAt(invs, tolerance, today, i);
    OnlyAnomalyFlagsDuplicates(invs[i], tolerance, KeysOf(invs[..i]));
    if DuplicateKey(invs[i]).Some? {
      SeenBefore(invs, i, DuplicateKey(invs[i]).value);
    }
  }

  /** Every result of a batch is valid exactly when it carries no error. */
  lemma BatchConsistentAt(invs: seq<Invoice>, tolerance: real, today: CalendarDate, i: nat)
    requires i < |invs|
    ensures BatchOutcomes(invs, tolerance, today)[i].Consistent()
  {
    OutcomeValidity(invs[i], tolerance, today, today, KeysOf(invs[..i]));
  }

  /** Two records with the same number, seller and date: the second is
      reported as a duplicate, and so invalid, and the first is not. */
  lemma DuplicatePair(a: Invoice, b: Invoice, tolerance: real, today: CalendarDate)
    requires !Falsy(a.invoiceNumber) && !Falsy(a.sellerName)
    requires b.invoiceNumber == a.invoiceNumber && b.sellerName == a.sellerName && b.invoiceDate == a.invoiceDate
    ensures Err(DuplicateInvoice, InvoiceNumberField) !in BatchOutcomes([a, b], tolerance, today)[0].errors
    ensures Err(DuplicateInvoice, InvoiceNumberField) in BatchOutcomes([a, b], tolerance, today)[1].errors
    ensures !BatchOutcomes([a, b], tolerance, today)[1].isValid
  {
    var invs := [a, b];
    assert invs[0] == a && invs[1] == b;
    assert DuplicateKey(a) == DuplicateKey(b) && DuplicateKey(b).Some?;
    DuplicateIff(invs, tolerance, today, 0);
    DuplicateIff(invs, tolerance, today, 1);
    BatchConsistentAt(invs, tolerance, today, 1);
  }

  /** The batch summary counts results, not records: the invalid count is
      the number of results with errors. */
  lemma BatchSummary(invs: seq<Invoice>, tolerance: real, today: CalendarDate)
    ensures SummaryOf(BatchOutcomes(invs, tolerance, today)).invalidInvoices
            == CountWithErrors(BatchOutcomes(invs, tolerance, today))
    ensures SummaryOf(BatchOutcomes(invs, tolerance, today)).totalInvoices == |invs|
  {
    var rs := BatchOutcomes(invs, tolerance, today);
    forall i | 0 <= i < |rs| ensures rs[i].Consistent() {
      BatchConsistentAt(invs, tolerance, today, i);
    }
    InvalidAreThoseWithErrors(rs);
  }

  /** A record without an invoice date puts `invoice_date_required:
      invoice_date` into the summary's error counts. */
  lemma MissingDateCounted(invs: seq<Invoice>, tolerance: real, today: CalendarDate, i: nat)
    requires i < |invs| && invs[i].invoiceDate.None?
    ensures "invoice_date_required: invoice_date" in SummaryOf(BatchOutcomes(invs, tolerance, today)).errorCounts
  {
    var e := Err(InvoiceDateRequired, InvoiceDateField);
    BatchErrorsAt(invs, tolerance, today, i);
    CompletenessRules(invs[i]);
    var seen := KeysOf(invs[..i]);
    assert e in ErrorsFor(invs[i], tolerance, seen);
    ErrorCounted(BatchOutcomes(invs, tolerance, today), i, e);
    DateRequiredKey();
  }

  lemma DateRequiredKey()
    ensures IssueKey(Err(InvoiceDateRequired, InvoiceDateField)) == "invoice_date_required: invoice_date"
  {
  }
}
