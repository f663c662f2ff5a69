/**
 * The extractor's first-match field lookup and its date normaliser.
 *
 * The field patterns of `InvoiceExtractor` (invoice number, dates, PO number,
 * payment terms) are regular expressions searched in the whole text. Each is
 * modelled as a `Matcher`: what `re.search(pattern, text, re.IGNORECASE |
 * re.MULTILINE)` yields for group 1, or `None` when it does not match. What
 * is verified is the ordering logic around them and the date normalisation
 * applied to what they capture.
 */
module Locator {
  import opened Wrappers
  import opened Text
  import opened Dates
  import opened Schemas

  /** Group 1 of the first match of one field pattern in a text, if any. */
  type Matcher = string -> Option<string>

  // ----------------------------------------------------------------------
  // _extract_with_patterns
  // ----------------------------------------------------------------------

  /** The stripped capture of the first pattern, in list order, that matches
      anywhere in `text`. */
  function FirstMatch(text: string, patterns: seq<Matcher>): Option<string> {
    if patterns == [] then None
    else match patterns[0](text)
      case Some(g) => Some(Strip(g))
      case None => FirstMatch(text, patterns[1..])
  }

  /** `_extract_with_patterns`: an early-return loop over the patterns. */
  method ExtractWithPatterns(text: string, patterns: seq<Matcher>) returns (r: Option<string>)
    ensures r == FirstMatch(text, patterns)
  {
    var i := 0;
    while i < |patterns|
      invariant 0 <= i <= |patterns|
      invariant FirstMatch(text, patterns) == FirstMatch(text, patterns[i..])
    {
      var m := patterns[i](text);
      if m.Some? {
        return Some(Strip(m.value));
      }
      assert patterns[i..][1..] == patterns[i + 1..];
      i := i + 1;
    }
    return None;
  }

  /** Nothing is found exactly when no pattern matches; otherwise the result
      is the stripped capture of a matching pattern that every earlier one
      misses, and it has no surrounding whitespace. */
  lemma {:induction false} FirstMatchIff(text: string, patterns: seq<Matcher>)
    ensures FirstMatch(text, patterns).None? <==> forall i :: 0 <= i < |patterns| ==> patterns[i](text).None?
    ensures FirstMatch(text, patterns).Some? ==>
      IsStripped(FirstMatch(text, patterns).value)
      && exists i :: 0 <= i < |patterns| && patterns[i](text).Some?
                     && FirstMatch(text, patterns).value == Strip(patterns[i](text).value)
                     && forall j :: 0 <= j < i ==> patterns[j](text).None?
  {
    if patterns != [] {
      if patterns[0](text).Some? {
        StripShape(patterns[0](text).value);
      } else {
        var tail := patterns[1..];
        FirstMatchIff(text, tail);
        assert forall i :: 1 <= i < |patterns| ==> tail[i - 1] == patterns[i];
        if FirstMatch(text, tail).Some? {
          var i :| 0 <= i < |tail| && tail[i](text).Some?
                   && FirstMatch(text, tail).value == Strip(tail[i](text).value)
                   && forall j :: 0 <= j < i ==> tail[j](text).None?;
          assert patterns[i + 1] == tail[i];
          assert forall j :: 0 <= j < i + 1 ==> patterns[j](text).None? by {
            forall j | 0 <= j < i + 1 ensures patterns[j](text).None? {
              if j > 0 { assert patterns[j] == tail[j - 1]; }
            }
          }
        }
      }
    }
  }

  /** Once a pattern of the list matches, patterns after the list are never
      consulted. */
  lemma {:induction false} LaterPatternsIgnored(text: string, patterns: seq<Matcher>, more: seq<Matcher>)
    requires exists i :: 0 <= i < |patterns| && patterns[i](text).Some?
    ensures FirstMatch(text, patterns + more) == FirstMatch(text, patterns)
  {
    assert (patterns + more)[0] == patterns[0];
    if patterns[0](text).None? {
      var i :| 0 <= i < |patterns| && patterns[i](text).Some?;
      assert patterns[1..][i - 1] == patterns[i];
      LaterPatternsIgnored(text, patterns[1..], more);
      assert (patterns + more)[1..] == patterns[1..] + more;
    }
  }

  // ----------------------------------------------------------------------
  // _parse_date
  // ----------------------------------------------------------------------

  /** The extractor's layouts, in its order: `%d.%m.%Y`, `%m.%d.%Y`,
      `%Y-%m-%d`, `%d-%m-%Y`, `%d/%m/%Y`, `%m/%d/%Y`. */
  const ExtractorLayouts: seq<Layout> := [
    Layout(DayMonthYear, '.'), Layout(MonthDayYear, '.'), Layout(YearMonthDay, '-'),
    Layout(DayMonthYear, '-'), Layout(DayMonthYear, '/'), Layout(MonthDayYear, '/')]

  /** The ISO 8601 text of the date read by the first layout that accepts
      `s`, or `None` when every layout rejects it. */
  function NormalizeDate(s: string): Option<string> {
    match FirstLayout(s, ExtractorLayouts)
    case Some(d) => Some(IsoFormat(d))
    case None => None
  }

  /** `_parse_date` */
  method ParseDateText(s: string) returns (r: Option<string>)
    ensures r == NormalizeDate(s)
  {
    var d := TryLayouts(s, ExtractorLayouts);
    if d.Some? {
      return Some(IsoFormat(d.value));
    }
    return None;
  }

  /** The text `isoformat` writes is read back by the extractor's layouts as
      the same date: neither dotted layout applies, and the third one reads
      it. */
  lemma {:induction false} ExtractorReadsIso(d: CalendarDate)
    ensures FirstLayout(IsoFormat(d), ExtractorLayouts) == Some(d)
  {
    var s := IsoFormat(d);
    assert forall i :: 0 <= i < |s| ==> s[i] != '.' by {
      forall i | 0 <= i < |s| ensures s[i] != '.' {
        if i != 4 && i != 7 { assert IsDigit(s[i]); }
      }
    }
    SeparatorAbsent(s, ExtractorLayouts[0]);
    SeparatorAbsent(s, ExtractorLayouts[1]);
    FirstLayoutSkip(s, ExtractorLayouts);
    FirstLayoutSkip(s, ExtractorLayouts[1..]);
    IsoRoundTrip(d);
    FirstLayoutHead(s, ExtractorLayouts[1..][1..]);
  }

  /** Normalising is idempotent: the normaliser maps its own output to
      itself. */
  lemma NormalizeIdempotent(s: string)
    ensures NormalizeDate(s).Some? ==> NormalizeDate(NormalizeDate(s).value) == NormalizeDate(s)
  {
    if FirstLayout(s, ExtractorLayouts).Some? {
      ExtractorReadsIso(FirstLayout(s, ExtractorLayouts).value);
    }
  }

  /** The extractor's output text is read by the schema's date validator,
      with its first layout, as the date the extractor found. */
  lemma NormalizedTextCoerces(s: string)
    ensures NormalizeDate(s).Some? ==>
      CoerceDate(DateText(NormalizeDate(s).value)) == GivenDate(FirstLayout(s, ExtractorLayouts).value)
  {
    if FirstLayout(s, ExtractorLayouts).Some? {
      CoerceIsoText(FirstLayout(s, ExtractorLayouts).value);
    }
  }

  /** A capture with a two-digit year, as the located patterns allow, is
      normalised to nothing: `%Y` needs four digits. */
  lemma {:induction false} TwoDigitYearRejected(a: string, b: string, y: string, c: char)
    requires AllDigits(a) && AllDigits(b) && AllDigits(y)
    requires |a| <= 2 && |y| == 2 && !IsDigit(c)
    ensures NormalizeDate(a + [c] + b + [c] + y) == None
  {
    var s := a + [c] + b + [c] + y;
    forall i | 0 <= i < |ExtractorLayouts| ensures ParseWith(s, ExtractorLayouts[i]).None? {
      ShortYearRejected(a, b, y, c, ExtractorLayouts[i]);
    }
    FirstLayoutIff(s, ExtractorLayouts);
  }

  /** Dotted text that reads as a date day first is read day first, even
      when the month-first reading is also a date. */
  lemma DottedDayFirst(s: string)
    requires ParseWith(s, Layout(DayMonthYear, '.')).Some?
    ensures NormalizeDate(s) == Some(IsoFormat(ParseWith(s, Layout(DayMonthYear, '.')).value))
  {
    FirstLayoutHead(s, ExtractorLayouts);
  }

  /** Slashed text `a/b/y` that the day-first layout accepts is read day
      first: the dotted and dashed layouts find no separator in it. */
  lemma {:induction false} SlashedDayFirst(a: string, b: string, y: string)
    requires IsDayToken(a) && IsMonthToken(b) && IsYearToken(y)
    requires ValidDate(Date(TokenValue(y), TokenValue(b), TokenValue(a)))
    ensures NormalizeDate(a + "/" + b + "/" + y) == Some(IsoFormat(Date(TokenValue(y), TokenValue(b), TokenValue(a))))
  {
    var s := a + "/" + b + "/" + y;
    assert s == a + ['/'] + b + ['/'] + y;
    TokensAvoid(a, b, y, '/', '.');
    TokensAvoid(a, b, y, '/', '-');
    forall j | 0 <= j < 4 ensures ParseWith(s, ExtractorLayouts[j]).None? {
      SeparatorAbsent(s, ExtractorLayouts[j]);
    }
    assert '/' !in a && '/' !in b;
    ParsePieces(a, b, y, Layout(DayMonthYear, '/'));
    FirstLayoutAt(s, ExtractorLayouts, 4);
  }
}
