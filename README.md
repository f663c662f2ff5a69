# Invoice QC: extraction and validation, modelled in Dafny

The system reads invoices out of PDF files and checks them. The extractor
(`InvoiceExtractor`) turns the text and tables of a PDF into an `Invoice`
record:

- invoice number, dates, purchase-order reference and payment terms, found by
  lists of regular expressions;
- seller and buyer, found by line heuristics;
- the currency, from symbols and then ISO 4217 codes;
- the gross, net and tax totals, found by keyword scanners;
- the line items, taken from the tables, with a line-by-line text fallback.

The validator (`InvoiceValidator`) runs four groups of rules on each record:

- completeness;
- formats: the currency code, and dates within a reasonable window;
- business rules: date order, totals that add up within a relative
  tolerance, line items that sum to the net, and no negative amounts;
- anomalies: duplicate invoices within a batch.

The validator records errors and warnings on a mutable `ValidationResult`.
It then summarises a batch as counts of valid and invalid invoices and of
each rule/field pair.

The model follows the program's modules:

| Dafny module | file | models |
|---|---|---|
| `Text` | text.dfy | Python string operations the core uses: `strip`, `split`/`join`, ASCII case, `find`, slicing with negative ends |
| `Dates` | dates.dfy | calendar dates, the proleptic ordinal that Python uses to compare dates, `strptime` for numeric layouts, `isoformat` |
| `Schemas` | schemas.dfy | `Currency`, `LineItem`, `Invoice` and its field constraints, the `parse_date` field validator, `ValidationError`, the `ValidationResult` class, `ValidationSummary`, `ValidationReport` |
| `Rules` | rules.dfy | each validation rule as a function from an invoice to the issues it raises, `_amounts_match`, `_is_reasonable_date`, the duplicate key |
| `Summaries` | summary.dfy | `_create_summary` as counts over the results |
| `Validator` | validator.dfy | the `InvoiceValidator` class with its `seen_invoices` field and its methods |
| `Locator` | locator.dfy | `_extract_with_patterns` and the extractor's `_parse_date` |
| `Parties` | parties.dfy | `_extract_parties`: the seller scan and the buyer block |
| `Amounts` | amounts.dfy | `_extract_currency` and `_extract_amounts` (`clean_number`, `find_value`, the TOTAL fallback, the derived net) |
| `LineItems` | line_items.dfy | `_extract_line_items` (table stage, text fallback) and `_find_column_index` |
| `Extractor` | extractor.dfy | `_parse_invoice_text` and the assembly of the `Invoice` in `extract_from_pdf` |

The model has the following inputs and parameters:

- **Pages.** A PDF is a sequence of pages. Each page is the plain text, the
  tables and the layout text that `pdfplumber` would give for it.
- **The current date.** `today` is a parameter of the validator's methods.
- **Python's `float`.** It is a parameter (`LineItems.FloatParser`). `Decimal`
  is read exactly, as a real.
- **The field patterns.** The five field pattern lists are `Locator.Matcher`
  functions: text in, first capture out. All other regular expressions of the
  core are written out as scanners over the text.

Where the code and its documentation differ, the model follows the code:

- **`parse_date`.** When no layout matches, it returns the stripped text, not
  the text it was given (`Schemas.CoerceDateShape`).
- **Invoice date check.** The completeness check on the invoice date uses
  Python truthiness. A `date` is always truthy, so only an absent date
  raises the error.

The model also keeps these behaviours of the code as written:

- **Bare `TO:` line.** A text that starts with the line `TO:` gets the buyer
  name `":"` (`Parties.BareToQuirk`).
- **Buyer on the last line.** When the buyer trigger sits on the last line,
  without a line break after it, `find` gives -1 and the rest of the line
  loses its last character. If the text is shorter than 500 characters, its
  last character is not whitespace and the shortened rest still holds more
  than separators, that last character becomes the buyer address
  (`Parties.LastLineQuirk`). In a text of 500 characters or more the chunk
  `text[-1:499]` is empty, so the shortened rest is the only candidate and
  there is no address (`Parties.LongLastLine`). Text assembled from PDF pages
  ends every page with a line break, so neither case arises there.
- **Three-token line.** A fallback line with three tokens and a run of three
  spaces becomes an item with an empty description
  (`LineItems.SpaceDescriptionQuirk`).
- **Tax above gross.** A derived net below zero (tax above gross) makes the
  schema reject the record. The whole invoice is then lost
  (`Extractor.NegativeNetLosesInvoice`).

## Model

| member | source | states |
|---|---|---|
| Text.StripEmptyIff | invoice_qc/validator.py:100 | a text strips to nothing exactly when every character is whitespace, so `not x.strip()` is "all whitespace" |
| Text.StripShape | invoice_qc/extractor.py:181 | `strip` yields a contiguous piece of the input with no whitespace at either end |
| Text.JoinSplit | invoice_qc/extractor.py:168 | joining the pieces of `split(sep)` with `sep` gives the text back |
| Text.SplitJoin | invoice_qc/extractor.py:168 | splitting a join of separator-free pieces gives the pieces back |
| Text.Find | invoice_qc/extractor.py:240 | `str.find` gives -1 exactly when the character is absent from the rest of the text, else the first position at or after `start` holding it |
| Text.Slice | invoice_qc/extractor.py:241 | Python slicing agrees with the plain slice on in-range bounds and never yields more than the text |
| Text.LeftmostLeast | invoice_qc/extractor.py:212 | the leftmost match of a scanner is a match and no earlier position matches; none exactly when no position matches |
| Text.LastMatchIsLast | invoice_qc/extractor.py:317-320 | the last of the non-overlapping matches is a match after whose end nothing matches |
| Dates.OrdinalOrder | invoice_qc/validator.py:174-180 | one date is earlier than another exactly when its day number is smaller, and equal exactly when the day numbers are equal |
| Dates.FirstLayoutIff | invoice_qc/schemas.py:108-113 | trying the layouts in order gives the date of the first layout that accepts the text, and nothing exactly when none does |
| Dates.TryLayouts | invoice_qc/extractor.py:151-156 | the loop over the layouts returns the first layout's date, as `FirstLayout` |
| Dates.ShortYearRejected | invoice_qc/extractor.py:146-150 | `%Y` needs four digits: a day-month-year text with a two-digit year matches no numeric layout |
| Dates.IsoRoundTrip | invoice_qc/extractor.py:153 | `isoformat` text read back with `%Y-%m-%d` gives the same date |
| Schemas.CurrencyFromCode | invoice_qc/schemas.py:13-18 | a text names a currency exactly when it is one of EUR, USD, INR, GBP, and that currency's code is the text |
| Schemas.CurrencyRoundTrip | invoice_qc/schemas.py:13-18 | every currency's code is known and names that currency again |
| Schemas.EmptyInvoiceValid | invoice_qc/schemas.py:35-88 | every field is optional: the record with nothing set meets all field constraints and has no line items |
| Schemas.ParseDate | invoice_qc/schemas.py:96-115 | absent values and dates pass through; text is stripped and read with the first numeric layout, or handed on stripped |
| Schemas.CoerceDateShape | invoice_qc/schemas.py:96-115 | absent and date values are unchanged; text never becomes absent; text comes out only from text, and stripped |
| Schemas.CoerceDateIdempotent | invoice_qc/schemas.py:96-115 | applying the validator to its own output changes nothing |
| Schemas.CoerceIsoText | invoice_qc/schemas.py:109 | the ISO text of any date is read back as that date |
| Schemas.DayFirstWins | invoice_qc/schemas.py:109-110 | an ambiguous slashed date is read day first, because `%d/%m/%Y` comes before `%m/%d/%Y` |
| Schemas.ThirdOfApril | invoice_qc/schemas.py:109-110 | "03/04/2024" becomes 3 April 2024 |
| Schemas.Rule.Index | invoice_qc/validator.py:101-246 | every rule has a position in the table of rule names |
| Schemas.Field.Index | invoice_qc/validator.py:101-246 | every field has a position in the table of field names |
| Schemas.ValidationResult.constructor | invoice_qc/schemas.py:126-131 | a new result carries its id and validity and no errors or warnings |
| Schemas.ValidationResult.AddError | invoice_qc/schemas.py:133-136 | the error is appended with severity error, the result becomes invalid, the warnings are unchanged |
| Schemas.ValidationResult.AddWarning | invoice_qc/schemas.py:138-140 | the warning is appended with severity warning; errors and validity are unchanged |
| Schemas.CallsKeepConsistent | invoice_qc/schemas.py:133-140 | any sequence of calls appends its errors and warnings in call order, and a result that is invalid exactly when it has errors stays so |
| Schemas.FreshResultValidIff | invoice_qc/validator.py:77-79 | a result started valid and then given any calls is invalid exactly when it holds an error, and holds exactly the errors added |
| Schemas.WithIssuesTwice | invoice_qc/schemas.py:133-140 | adding two batches of issues is adding their concatenation |
| Rules.CompletenessRules | invoice_qc/validator.py:96-136 | each of the five completeness errors is raised exactly when its own field is missing, a whitespace-only number or name counting as missing |
| Rules.CurrencyErrors | invoice_qc/validator.py:144-149 | at most the one currency error, raised exactly when a non-empty code is present and is not one of the known codes |
| Rules.ReasonableWindow | invoice_qc/validator.py:275-281 | today is a reasonable date, and any date between two reasonable dates is reasonable |
| Rules.DateRules | invoice_qc/validator.py:152-166 | each date warning is raised exactly when its own date is present and outside the window |
| Rules.AmountsMatchCases | invoice_qc/validator.py:259-273 | two zeros match; one zero matches when less than 0.01 apart; otherwise twice the difference is within the tolerance times the sum of magnitudes |
| Rules.RatioBound | invoice_qc/validator.py:273 | the division by the mean magnitude is equivalent to a comparison with no division |
| Rules.AmountsMatchSymmetricReflexive | invoice_qc/validator.py:259-273 | matching ignores the order of the amounts, and an amount matches itself for any tolerance that is not negative |
| Rules.NegativeToleranceRejectsEqual | invoice_qc/validator.py:36-43 | with a negative tolerance no non-zero amount matches itself |
| Rules.ToleranceExamples | invoice_qc/validator.py:183-191 | 100 + 19 matches 119.01 at 2%, does not match 125, and one cent does not match zero |
| Rules.BusinessRules | invoice_qc/validator.py:170-227 | each business error (date order, totals mismatch, a negative net, tax or gross) is raised exactly when its own condition holds |
| Rules.BusinessWarnings | invoice_qc/validator.py:194-205 | the line-sum warning is raised exactly when there are items, a net, a positive sum of line totals, and the sum does not match the net |
| Rules.ConsistentRecordPasses | invoice_qc/validator.py:174-191 | equal dates and net + tax equal to gross raise neither date-order nor totals errors |
| Rules.DateStringInjective | invoice_qc/validator.py:238 | two optional dates have the same `str` exactly when they are equal, so the key may hold the date itself |
| Rules.DuplicateKey | invoice_qc/validator.py:235-240 | a key is formed exactly when number and seller are non-empty; it carries the upper-cased, stripped number and seller and the invoice date |
| Rules.KeyIgnoresCaseAndPadding | invoice_qc/validator.py:236-239 | two records with formed keys share a key exactly when their upper-cased, stripped numbers and sellers and their dates agree |
| Rules.AnomalyErrors | invoice_qc/validator.py:242-247 | the duplicate error is raised exactly when the key is formed and already seen |
| Rules.SeenAfter | invoice_qc/validator.py:248-249 | the seen set grows by the key when one is formed, and loses nothing |
| Rules.InvoiceId | invoice_qc/validator.py:77 | the number when set, else the source file when set, else "UNKNOWN"; so never empty |
| Rules.OutcomeValidity | invoice_qc/validator.py:67-92 | a result is invalid exactly when it holds an error; today never changes validity; errors all have severity error and warnings severity warning |
| Rules.SchemaValidNeverNegativeOrBadCurrency | invoice_qc/validator.py:144-227 | a record meeting the schema's constraints never gets the negative-amount or invalid-currency error |
| Rules.SignedBusinessErrors | invoice_qc/validator.py:208-227 | a business error is never about the currency, and is a sign error only when an amount is negative |
| Summaries.CountsAreMultiplicities | invoice_qc/validator.py:293-300 | a key is counted exactly when it occurs, and its count is the number of its occurrences |
| Summaries.CountsTotal | invoice_qc/validator.py:293-300 | the counts add up to the number of issues counted |
| Summaries.InvalidAreThoseWithErrors | invoice_qc/validator.py:286-287 | for consistent results, the invalid count equals the number of results with errors |
| Summaries.SummaryCounts | invoice_qc/validator.py:283-309 | total is the number of results, valid + invalid is total, warnings at most total, error and warning counts add up to the issues in the results |
| Summaries.ErrorCounted | invoice_qc/validator.py:294-296 | every error of every result is counted at least once |
| Validator.InvoiceValidator.constructor | invoice_qc/validator.py:36-44 | the validator keeps the tolerance and starts with no seen keys |
| Validator.InvoiceValidator.ValidateBatch | invoice_qc/validator.py:46-65 | results are, in order, each invoice validated against the keys of the invoices before it; the summary is that of the results; the seen set ends as the keys of the whole batch |
| Validator.InvoiceValidator.ValidateInvoice | invoice_qc/validator.py:67-92 | the fresh result holds the completeness, format, business and anomaly issues in that order against the keys seen before; the key is then seen |
| Validator.InvoiceValidator.ValidateCompleteness | invoice_qc/validator.py:96-136 | appends exactly the completeness errors and no warning |
| Validator.InvoiceValidator.ValidateFormats | invoice_qc/validator.py:140-166 | appends exactly the currency error and the date warnings |
| Validator.InvoiceValidator.ValidateBusinessRules | invoice_qc/validator.py:170-227 | appends exactly the business errors and the line-sum warning |
| Validator.InvoiceValidator.ValidateAnomalies | invoice_qc/validator.py:231-249 | appends the duplicate error exactly when the key was seen before, and adds the key to the seen set |
| Validator.InvoiceValidator.Tally | invoice_qc/validator.py:293-300 | the loop over issues turns counts of earlier keys into counts including these issues' keys |
| Validator.InvoiceValidator.TallyResults | invoice_qc/validator.py:290-300 | error and warning counts are the multiplicities of the rule/field keys of all errors and all warnings |
| Validator.InvoiceValidator.CreateSummary | invoice_qc/validator.py:283-309 | the summary built by the loops is `SummaryOf` the results |
| Validator.KeysOfIff | invoice_qc/validator.py:242-249 | a key is seen after a batch exactly when some invoice of the batch forms it |
| Validator.KeySetIff | invoice_qc/validator.py:242-249 | the set of formed keys holds exactly the keys formed at some position |
| Validator.OnlyAnomalyFlagsDuplicates | invoice_qc/validator.py:241-247 | only the anomaly rule raises the duplicate error |
| Validator.DuplicateIff | invoice_qc/validator.py:231-249 | the i-th invoice of a batch is flagged duplicate exactly when it forms a key that an earlier invoice formed |
| Validator.DuplicatePair | invoice_qc/validator.py:231-249 | of two invoices with the same number, seller and date, the first passes the check and the second is flagged and invalid |
| Validator.BatchErrorsAt | invoice_qc/validator.py:59-61 | the i-th result's errors are those of its invoice against the keys of the invoices before it |
| Validator.BatchConsistentAt | invoice_qc/validator.py:59-61 | each result of a batch is invalid exactly when it holds an error |
| Validator.BatchSummary | invoice_qc/validator.py:46-65 | a batch's summary counts every invoice, and its invalid count is the number of results with errors |
| Validator.MissingDateCounted | invoice_qc/validator.py:108-113 | an invoice with no date makes the summary count "invoice_date_required: invoice_date" |
| Locator.ExtractWithPatterns | invoice_qc/extractor.py:138-143 | the loop returns the stripped capture of the first pattern that matches, or nothing |
| Locator.FirstMatchIff | invoice_qc/extractor.py:138-143 | nothing exactly when no pattern matches; else the stripped capture of a matching pattern with no earlier pattern matching |
| Locator.LaterPatternsIgnored | invoice_qc/extractor.py:139-142 | once one pattern of a list matches, patterns added after the list never change the result |
| Locator.ParseDateText | invoice_qc/extractor.py:145-156 | the loop returns the ISO text of the first of the six layouts that reads the text, or nothing |
| Locator.ExtractorReadsIso | invoice_qc/extractor.py:146-150 | the ISO text of any date is read back as that date |
| Locator.NormalizeIdempotent | invoice_qc/extractor.py:145-156 | normalising a normalised date changes nothing |
| Locator.NormalizedTextCoerces | invoice_qc/schemas.py:96-115 | the text the extractor writes is read by the schema validator as the date the extractor read |
| Locator.TwoDigitYearRejected | invoice_qc/extractor.py:146-150 | a date with a two-digit year, which the field patterns let through, is never normalised |
| Locator.DottedDayFirst | invoice_qc/extractor.py:147 | a dotted date is read day first whenever it reads that way |
| Locator.SlashedDayFirst | invoice_qc/extractor.py:149 | an ambiguous slashed date is read day first |
| Parties.SellerLinesShape | invoice_qc/extractor.py:180-193 | every collected seller line is a stripped, non-empty line of the text that is neither a title nor a section start |
| Parties.SellerStopsAtSection | invoice_qc/extractor.py:190-191 | a section-start line ends the collection: nothing after it is collected |
| Parties.CollectUntilShape | invoice_qc/extractor.py:180-193 | the scan keeps only stripped lines of its input that it neither passes over nor stops at |
| Parties.CollectUntilStops | invoice_qc/extractor.py:190-191 | the scan's result depends only on the lines before a stop line |
| Parties.DropInvoiceHashKeeps | invoice_qc/extractor.py:196-201 | a line survives the filter exactly when it was collected and carries no "INVOICE #" |
| Parties.SellerNameShape | invoice_qc/extractor.py:203-204 | the seller name is one of the first 20 lines, stripped, and is not a title, a section start or an "INVOICE #" line |
| Parties.CollectSellerLines | invoice_qc/extractor.py:180-193 | the loop over the first 20 lines computes `SellerLines` |
| Parties.DropMarked | invoice_qc/extractor.py:196-201 | the filter loop computes `DropInvoiceHash` |
| Parties.ExtractSeller | invoice_qc/extractor.py:168-206 | seller name and address as `SellerOf` |
| Parties.FirstKeywordLeast | invoice_qc/extractor.py:221-229 | the trigger chosen is one that matches with no match starting earlier, and there is none exactly when no position matches |
| Parties.SameLineNameOnly | invoice_qc/extractor.py:234-258 | when text follows the trigger on its line and a line break follows it, that text is the only candidate, whatever the next lines hold (the chunk starts at the line break, so its first line is empty and ends the block) |
| Parties.ShortNotStop | invoice_qc/extractor.py:262 | a line shorter than four characters never holds a stop word |
| Parties.ScanBlockShape | invoice_qc/extractor.py:247-265 | the block scan keeps the candidates it is given and only appends stripped non-empty non-stop lines |
| Parties.BareToQuirk | invoice_qc/extractor.py:234-270 | a text opening with the line "TO:" gets the buyer name ":" |
| Parties.LastLineQuirk | invoice_qc/extractor.py:240-249 | with no line break after the trigger, in a text under 500 characters whose last character is not whitespace and whose shortened rest holds more than separators, the candidates are that rest, then the last character |
| Parties.LongLastLine | invoice_qc/extractor.py:240-249 | with no line break after the trigger, in a text of 500 characters or more, the shortened rest of the line is the only candidate: the chunk from -1 is empty |
| Parties.ExtractBuyer | invoice_qc/extractor.py:221-270 | buyer name and address as `BuyerOf` |
| Parties.FindCandidates | invoice_qc/extractor.py:221-265 | the candidates after the first trigger, or none without one |
| Parties.CandidatesAfter | invoice_qc/extractor.py:234-265 | the candidate loop computes `BlockAfter` |
| Parties.ScanCandidates | invoice_qc/extractor.py:250-265 | the chunk-lines loop computes `ScanBlock` |
| Parties.ExtractParties | invoice_qc/extractor.py:161-276 | seller and buyer fields as `PartiesOf` |
| Amounts.CurrencyPriority | invoice_qc/extractor.py:281-292 | a symbol in the text decides: the currency of the first symbol in table order that occurs; with no symbol, the first currency in enum order whose code is a word of the text |
| Amounts.SymbolCurrencyFirst | invoice_qc/extractor.py:283-285 | the currency of the first symbol, in table order, that occurs in the text; none exactly when no symbol occurs |
| Amounts.CodeCurrencyFirst | invoice_qc/extractor.py:288-290 | the first currency, in enum order, whose code occurs as a whole word; none exactly when no code does |
| Amounts.DefaultCurrency | invoice_qc/extractor.py:292 | with no symbol and no code word, the currency is USD |
| Amounts.ExtractCurrency | invoice_qc/extractor.py:281-292 | the loops return the code of `CurrencyOf`, a known code |
| Amounts.CleanNumber | invoice_qc/extractor.py:297-306 | a cleaned number, when it reads, is never negative |
| Amounts.CleanNumberIgnores | invoice_qc/extractor.py:302 | any character other than a digit or a dot can be dropped without changing the value |
| Amounts.CleanNumberNone | invoice_qc/extractor.py:298-306 | no value exactly when the text holds no digit (empty, or a lone dot) or more than one dot |
| Amounts.DecimalNone | invoice_qc/extractor.py:303-306 | `Decimal` on digits and dots fails exactly without a digit or with a second dot |
| Amounts.WholeNumber | invoice_qc/extractor.py:297-306 | a string of digits reads as its value |
| Amounts.TwoDecimals | invoice_qc/extractor.py:297-306 | digits, a dot and two digits read as the value with hundredths |
| Amounts.ThousandsSeparator | invoice_qc/extractor.py:302 | a comma anywhere is ignored |
| Amounts.FindValue | invoice_qc/extractor.py:310-320 | a value found is never negative |
| Amounts.FindValueLast | invoice_qc/extractor.py:315-319 | the amount taken is that of a match after whose end no match starts; none exactly when no position matches |
| Amounts.FindValueLoop | invoice_qc/extractor.py:310-320 | the loop over the keys returns `FindValue` when there are keys, since the first round already searches for all keys, and nothing for no keys |
| Amounts.FallbackTotalFirst | invoice_qc/extractor.py:327-333 | the TOTAL fallback takes the first match; none exactly when no position matches |
| Amounts.GrossOf | invoice_qc/extractor.py:324-333 | a non-zero labelled total is the gross; otherwise the cleaned amount of the plain TOTAL match, and none without a match; never negative |
| Amounts.GrossFromFirstTotal | invoice_qc/extractor.py:327-333 | without a non-zero labelled total, the gross comes from the leftmost TOTAL match, and is absent when no position matches |
| Amounts.Combine | invoice_qc/extractor.py:336-347 | the gross is kept; the tax is kept exactly when non-zero; a non-zero subtotal is the net; otherwise a net exists exactly when gross and tax are both non-zero, and it is gross minus tax |
| Amounts.AmountsOf | invoice_qc/extractor.py:294-349 | the gross of `GrossOf`; the tax is the tax search's value exactly when non-zero; the net is the subtotal search's value when non-zero, otherwise gross minus tax exactly when both are non-zero |
| Amounts.DerivedNetBalances | invoice_qc/extractor.py:346-347 | a derived net makes net + tax match gross under any tolerance that is not negative |
| Amounts.ExtractAmounts | invoice_qc/extractor.py:294-349 | the method computes `AmountsOf` |
| Amounts.ExtractGross | invoice_qc/extractor.py:324-333 | the method computes `GrossOf`, keyword totals first, then the TOTAL fallback |
| LineItems.ColumnIndexFirst | invoice_qc/extractor.py:435-442 | the column found is the first non-empty header cell holding a keyword; none exactly when no cell does |
| LineItems.FindColumnIndex | invoice_qc/extractor.py:435-442 | the nested loops compute `ColumnIndex` |
| LineItems.RowItem | invoice_qc/extractor.py:372-396 | a counted row (non-empty, its first cell without "total") too short for the description column aborts the scan; a counted row is kept exactly when its description is non-empty and its total or quantity is non-zero, and the item carries the description and the quantity, price and total read from their cells |
| LineItems.RowsScanKept | invoice_qc/extractor.py:372-396 | the row scan keeps the items it is given and only appends kept items |
| LineItems.TablesScanKept | invoice_qc/extractor.py:361-396 | the table scan keeps the items it is given and only appends kept items |
| LineItems.PagesScanKept | invoice_qc/extractor.py:359-396 | the page scan keeps the items it is given and only appends kept items |
| LineItems.FallbackRoundTrip | invoice_qc/extractor.py:417 | a line built from a quantity, a description with no outer whitespace and two money amounts, joined by single spaces, matches with those four groups |
| LineItems.FallbackItemRoundTrip | invoice_qc/extractor.py:413-428 | such a line gives exactly one item carrying that description when the description has a space or three characters |
| LineItems.SpaceDescriptionQuirk | invoice_qc/extractor.py:417-428 | "q   p t" gives one item whose description is empty |
| LineItems.FallbackItemComplete | invoice_qc/extractor.py:413-428 | an item read from a line has a stripped description, all three amounts, and meets the schema |
| LineItems.FallbackItemsComplete | invoice_qc/extractor.py:412-428 | every item read from the text lines is complete |
| LineItems.LineItemsSource | invoice_qc/extractor.py:357-433 | items come from the tables and are kept by the row filter, unless the tables gave none without error; then they come from the text and are complete |
| LineItems.ReadLines | invoice_qc/extractor.py:412-428 | the loop over the lines computes `FallbackItems` |
| LineItems.ScanRows | invoice_qc/extractor.py:372-396 | the row loop computes `RowsScan` |
| LineItems.ScanTable | invoice_qc/extractor.py:361-396 | one table computes `TableScan` |
| LineItems.ScanTables | invoice_qc/extractor.py:361-396 | the table loop computes `TablesScan` |
| LineItems.ScanPages | invoice_qc/extractor.py:359-396 | the page loop computes `PagesScan` |
| LineItems.ExtractLineItems | invoice_qc/extractor.py:354-433 | the method computes `LineItemsOf` |
| Extractor.DateField | invoice_qc/extractor.py:101-103 | a date field, when set, is the ISO text of a date |
| Extractor.ParseDateField | invoice_qc/extractor.py:101-103 | the method computes `DateField` |
| Extractor.DateFieldCoerces | invoice_qc/extractor.py:101-114 | every date the extractor writes passes the schema's date validator |
| Extractor.ParseInvoiceText | invoice_qc/extractor.py:94-133 | every field as the field functions give it |
| Extractor.AssembleIff | invoice_qc/extractor.py:85 | with readable dates, a known currency and non-negative gross and tax, the record is rejected exactly for a negative net or an item with a negative quantity or an out-of-range tax rate |
| Extractor.AssembleFailsOnlyOnNet | invoice_qc/extractor.py:77-85 | parsed fields are rejected exactly for a negative net or an invalid line item |
| Extractor.NegativeNetLosesInvoice | invoice_qc/extractor.py:346-347 | a negative net is always gross minus a larger tax, and it loses the invoice |
| Extractor.ExtractFromPages | invoice_qc/extractor.py:67-89 | the page-text loop and the assembly compute `InvoiceOf` |

## Left out

- PDF reading: `pdfplumber` is not modelled. Each page is given as its plain text, its tables and its layout text. A page with no plain text is the empty text, which the loop skips as the source does.
- `extract_from_directory`, the command line and the HTTP API: outside the core; they only loop over files and print.
- Diagnostic `print`s and the message texts of `ValidationError`: they carry no behaviour. Issues keep their rule, field and severity.
- `ValidationReport.generated_at`: a clock reading.
- The current date: a parameter `today` instead of `date.today()`.
- Python's `float` (table quantities): a parameter. NaN and infinities are not modelled.
- LineItems.GroupsItem: reads the fallback quantity exactly as a decimal, where the source calls `float`. The result differs only by binary rounding.
- Decimal arithmetic is exact here. Python's default context keeps 28 significant digits: sums and differences of amounts with fewer digits are exact, but the quotient in `_amounts_match` is rounded to 28 digits. That rounding can change the result only when the relative difference agrees with the tolerance to 28 significant digits.
- Schemas.ParseDate: does not model the month-name layouts `%B %d, %Y` and `%d %b %Y`, because they need locale month names. Such a text is handed on as stripped text.
- Pydantic's own parsing of a text left by the date validator: treated as failing, which rejects the record (`Extractor.DateValue`). Pydantic's ISO parsing would already have been matched by `%Y-%m-%d`.
- Pydantic coercion other than the date validator and the declared field constraints: not modelled. The extractor only produces values of the declared types.
- The five field pattern lists of the extractor: abstract `Locator.Matcher` functions. Their regular expressions use `\s`, optional groups and character classes, whose matching is outside the model.
- Regular-expression details elsewhere: `\d`, `\w` and case folding are ASCII only. Python's Unicode digits and letters are not modelled.
- `find_value`'s loop over the keys: the first round already searches for every key, so later rounds repeat the same search and find nothing (`Amounts.FindValueLoop`).
- The payment-terms "days" check in `_parse_invoice_text`: it has no effect, so only the lookup is kept.
- A dictionary key left unset and a key set to `None`: both are `None`. `Invoice(**data)` treats them the same.
- Exceptions inside the table stage: only the `IndexError` for a short row at the description column reaches the outer handler. The inner `try` blocks' failures become absent values.
- Rules.DuplicateKey: upper-cases ASCII letters only, where Python's `str.upper()` maps every cased letter (and can lengthen text, as `ß` to `SS`). Two numbers or sellers that differ only in non-ASCII case are different keys here.
- The date window's bounds `today - 3650 days` and `today + 730 days` are computed without Python's year range: near year 1 or year 9999 `timedelta` arithmetic raises `OverflowError`, which is not modelled.
- The validator's tolerance is not checked for sign, as in the source (`Rules.NegativeToleranceRejectsEqual`).
