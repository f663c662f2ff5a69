/**
 * `_extract_currency` and `_extract_amounts`: the currency code and the
 * three totals read from the text of an invoice.
 *
 * Amounts are `real`s, the exact values of the `Decimal`s the source builds.
 * The regular expressions are written out as functions over positions of the
 * text; `\d` and `[0-9]` are the ASCII digits, `\s` is `Text.IsSpace`.
 */
module Amounts {
  import opened Wrappers
  import opened Text
  import opened Schemas
  import Rules

  // ----------------------------------------------------------------------
  // Currency
  // ----------------------------------------------------------------------

  /** `currency_symbols`, in insertion order. */
  const CurrencySymbols: seq<(char, Currency)> :=
    [('$', USD), ('\U{20AC}', EUR), ('\U{A3}', GBP), ('\U{20B9}', INR)]

  /** The members of `Currency`, in declaration order. */
  const CurrencyOrder: seq<Currency> := [EUR, USD, INR, GBP]

  /** The currency of the first symbol, in list order, found in the text. */
  function SymbolCurrency(text: string, symbols: seq<(char, Currency)>): Option<Currency>
    decreases |symbols|
  {
    if symbols == [] then None
    else if symbols[0].0 in text then Some(symbols[0].1)
    else SymbolCurrency(text, symbols[1..])
  }

  /** `\bCODE\b` matches at position `i`, ignoring case. */
  predicate CodeWordAt(text: string, i: nat, code: string) {
    MatchesAt(text, i, code) && IsBoundary(text, i) && IsBoundary(text, i + |code|)
  }

  predicate HasCodeWord(text: string, code: string) {
    exists i :: 0 <= i <= |text| && CodeWordAt(text, i, code)
  }

  /** The first currency, in list order, whose code is a word of the text. */
  function CodeCurrency(text: string, order: seq<Currency>): Option<Currency>
    decreases |order|
  {
    if order == [] then None
    else if HasCodeWord(text, Code(order[0])) then Some(order[0])
    else CodeCurrency(text, order[1..])
  }

  /** The currency `_extract_currency` reports: a symbol first, then a code
      word, and US dollars when the text names none. */
  function CurrencyOf(text: string): (c: Currency)
    ensures Code(c) in KnownCodes
  {
    CurrencyRoundTrip(USD);
    match SymbolCurrency(text, CurrencySymbols)
    case Some(c) => CurrencyRoundTrip(c); c
    case None =>
      match CodeCurrency(text, CurrencyOrder)
      case Some(c) => CurrencyRoundTrip(c); c
      case None => USD
  }

  /** The symbol search finds nothing exactly when no symbol occurs, and
      otherwise the currency of a symbol that occurs after none of the
      earlier ones. */
  lemma {:induction false} SymbolCurrencyFirst(text: string, symbols: seq<(char, Currency)>)
    ensures SymbolCurrency(text, symbols).None? <==> forall k :: 0 <= k < |symbols| ==> symbols[k].0 !in text
    ensures SymbolCurrency(text, symbols).Some? ==>
      exists k :: 0 <= k < |symbols| && symbols[k].0 in text && symbols[k].1 == SymbolCurrency(text, symbols).value
                  && forall j :: 0 <= j < k ==> symbols[j].0 !in text
    decreases |symbols|
  {
    if symbols != [] && symbols[0].0 !in text {
      var tail := symbols[1..];
      SymbolCurrencyFirst(text, tail);
      assert forall k :: 1 <= k < |symbols| ==> symbols[k] == tail[k - 1];
      if SymbolCurrency(text, tail).Some? {
        var k :| 0 <= k < |tail| && tail[k].0 in text && tail[k].1 == SymbolCurrency(text, tail).value
                 && forall j :: 0 <= j < k ==> tail[j].0 !in text;
        assert forall j :: 0 <= j < k + 1 ==> symbols[j].0 !in text by {
          forall j | 0 <= j < k + 1 ensures symbols[j].0 !in text {
            if j > 0 { assert symbols[j] == tail[j - 1]; }
          }
        }
        assert symbols[k + 1] == tail[k];
      }
    }
  }

  /** The code search finds nothing exactly when no code is a word of the
      text, and otherwise a currency whose code is a word of it and whose
      predecessors' codes are not. */
  lemma {:induction false} CodeCurrencyFirst(text: string, order: seq<Currency>)
    ensures CodeCurrency(text, order).None? <==> forall k :: 0 <= k < |order| ==> !HasCodeWord(text, Code(order[k]))
    ensures CodeCurrency(text, order).Some? ==>
      exists k :: 0 <= k < |order| && order[k] == CodeCurrency(text, order).value && HasCodeWord(text, Code(order[k]))
                  && forall j :: 0 <= j < k ==> !HasCodeWord(text, Code(order[j]))
    decreases |order|
  {
    if order != [] && !HasCodeWord(text, Code(order[0])) {
      var tail := order[1..];
      CodeCurrencyFirst(text, tail);
      assert forall k :: 1 <= k < |order| ==> order[k] == tail[k - 1];
      if CodeCurrency(text, tail).Some? {
        var k :| 0 <= k < |tail| && tail[k] == CodeCurrency(text, tail).value && HasCodeWord(text, Code(tail[k]))
                 && forall j :: 0 <= j < k ==> !HasCodeWord(text, Code(tail[j]));
        assert forall j :: 0 <= j < k + 1 ==> !HasCodeWord(text, Code(order[j])) by {
          forall j | 0 <= j < k + 1 ensures !HasCodeWord(text, Code(order[j])) {
            if j > 0 { assert order[j] == tail[j - 1]; }
          }
        }
        assert order[k + 1] == tail[k];
      }
    }
  }

  /** US dollars are the fallback: a text with no currency symbol and no
      currency code as a word is reported in US dollars. */
  lemma DefaultCurrency(text: string)
    requires forall k :: 0 <= k < |CurrencySymbols| ==> CurrencySymbols[k].0 !in text
    requires forall k :: 0 <= k < |CurrencyOrder| ==> !HasCodeWord(text, Code(CurrencyOrder[k]))
    ensures CurrencyOf(text) == USD
  {
    SymbolCurrencyFirst(text, CurrencySymbols);
    CodeCurrencyFirst(text, CurrencyOrder);
  }

  /** A symbol decides over any code: with some symbol in the text, the
      currency is that of the first symbol, in table order, that occurs; with
      none, it is the first currency, in enum order, whose code is a word of
      the text. */
  lemma CurrencyPriority(text: string)
    ensures (exists k :: 0 <= k < |CurrencySymbols| && CurrencySymbols[k].0 in text) ==>
      exists k :: 0 <= k < |CurrencySymbols| && CurrencySymbols[k].0 in text && CurrencyOf(text) == CurrencySymbols[k].1
                  && forall j :: 0 <= j < k ==> CurrencySymbols[j].0 !in text
    ensures (forall k :: 0 <= k < |CurrencySymbols| ==> CurrencySymbols[k].0 !in text)
            && (exists k :: 0 <= k < |CurrencyOrder| && HasCodeWord(text, Code(CurrencyOrder[k]))) ==>
      exists k :: 0 <= k < |CurrencyOrder| && HasCodeWord(text, Code(CurrencyOrder[k])) && CurrencyOf(text) == CurrencyOrder[k]
                  && forall j :: 0 <= j < k ==> !HasCodeWord(text, Code(CurrencyOrder[j]))
  {
    SymbolCurrencyFirst(text, CurrencySymbols);
    CodeCurrencyFirst(text, CurrencyOrder);
  }

  /** `_extract_currency`: the two early-return loops. */
  method ExtractCurrency(text: string) returns (code: string)
    ensures code == Code(CurrencyOf(text)) && code in KnownCodes
  {
    for k := 0 to |CurrencySymbols|
      invariant SymbolCurrency(text, CurrencySymbols) == SymbolCurrency(text, CurrencySymbols[k..])
    {
      assert CurrencySymbols[k..][0] == CurrencySymbols[k] && CurrencySymbols[k..][1..] == CurrencySymbols[k + 1..];
      if CurrencySymbols[k].0 in text {
        return Code(CurrencySymbols[k].1);
      }
    }
    for k := 0 to |CurrencyOrder|
      invariant CodeCurrency(text, CurrencyOrder) == CodeCurrency(text, CurrencyOrder[k..])
    {
      assert CurrencyOrder[k..][0] == CurrencyOrder[k] && CurrencyOrder[k..][1..] == CurrencyOrder[k + 1..];
      if HasCodeWord(text, Code(CurrencyOrder[k])) {
        return Code(CurrencyOrder[k]);
      }
    }
    return "USD";
  }

  // ----------------------------------------------------------------------
  // clean_number
  // ----------------------------------------------------------------------

  /** `[0-9\.]` */
  predicate IsNumberChar(c: char) {
    IsDigit(c) || c == '.'
  }

  predicate NotComma(c: char) {
    c != ','
  }

  function Pow10(n: nat): (r: nat)
    ensures r >= 1
  {
    if n == 0 then 1 else 10 * Pow10(n - 1)
  }

  /** `Decimal(s)` for a text of digits and dots: one dot at most and a
      digit somewhere, or `None` where `Decimal` raises. */
  function DecimalOf(s: string): (r: Option<real>)
    requires forall i :: 0 <= i < |s| ==> IsNumberChar(s[i])
    ensures r.Some? ==> r.value >= 0.0
  {
    match IndexOf(s, '.')
    case None =>
      if s == [] then None
      else
        DotFreeDigits(s);
        Some(DigitsValue(s) as real)
    case Some(k) =>
      var whole, frac := s[..k], s[k + 1..];
      if '.' in frac || (whole == [] && frac == []) then None
      else
        DotFreeDigits(whole);
        DotFreeDigits(frac);
        Some(DigitsValue(whole) as real + Fraction(frac))
  }

  /** The value of the digits after the point. */
  function Fraction(frac: string): (r: real)
    requires AllDigits(frac)
    ensures 0.0 <= r
  {
    DigitsValue(frac) as real / Pow10(|frac|) as real
  }

  lemma DotFreeDigits(s: string)
    requires forall i :: 0 <= i < |s| ==> IsNumberChar(s[i])
    requires '.' !in s
    ensures AllDigits(s)
  {
    forall i | 0 <= i < |s| ensures IsDigit(s[i]) {
      assert s[i] in s;
    }
  }

  /** `clean_number`: commas dropped, then everything but digits and dots,
      then `Decimal`. */
  function CleanNumber(s: string): (r: Option<real>)
    ensures r.Some? ==> r.value >= 0.0
  {
    if s == [] then None else DecimalOf(Filter(Filter(s, NotComma), IsNumberChar))
  }

  /** A run of digits reads as its value. */
  lemma {:induction false} WholeNumber(d: string)
    requires d != [] && AllDigits(d)
    ensures CleanNumber(d) == Some(DigitsValue(d) as real)
  {
    FilterKept(d, NotComma);
    FilterKept(d, IsNumberChar);
  }

  /** An amount written with two decimals reads as its value in hundredths. */
  lemma {:induction false} TwoDecimals(d: string, f: string)
    requires d != [] && AllDigits(d) && AllDigits(f) && |f| == 2
    ensures CleanNumber(d + "." + f) == Some(DigitsValue(d) as real + DigitsValue(f) as real / 100.0)
  {
    DottedChars(d, f);
    CleanKept(d + "." + f);
    DecimalPieces(d, f);
    Hundredths(f);
  }

  lemma Hundredths(f: string)
    requires AllDigits(f) && |f| == 2
    ensures Fraction(f) == DigitsValue(f) as real / 100.0
  {
    assert Pow10(1) == 10;
  }

  /** Digits, a dot and digits: number characters, and no comma. */
  lemma DottedChars(d: string, f: string)
    requires AllDigits(d) && AllDigits(f)
    ensures forall i :: 0 <= i < |d + "." + f| ==> IsNumberChar((d + "." + f)[i]) && NotComma((d + "." + f)[i])
  {
  }

  /** A text of number characters is left as it is by the cleaning. */
  lemma CleanKept(s: string)
    requires s != []
    requires forall i :: 0 <= i < |s| ==> IsNumberChar(s[i]) && NotComma(s[i])
    ensures CleanNumber(s) == DecimalOf(s)
  {
    FilterKept(s, NotComma);
    FilterKept(s, IsNumberChar);
  }

  /** Digits, a dot and digits read as the whole part plus the fraction. */
  lemma DecimalPieces(d: string, f: string)
    requires d != [] && AllDigits(d) && AllDigits(f)
    requires forall i :: 0 <= i < |d + "." + f| ==> IsNumberChar((d + "." + f)[i])
    ensures DecimalOf(d + "." + f) == Some(DigitsValue(d) as real + Fraction(f))
  {
    var s := d + "." + f;
    assert s == d + ['.'] + f;
    assert '.' !in d && '.' !in f;
    IndexOfAfterFree(d, '.', f);
    assert s[..|d|] == d && s[|d| + 1..] == f;
  }

  /** Thousands separators are ignored: a comma anywhere leaves the value
      unchanged. */
  lemma ThousandsSeparator(a: string, b: string)
    requires a + b != []
    ensures CleanNumber(a + "," + b) == CleanNumber(a + b)
  {
    assert a + "," + b == a + ("," + b);
    FilterConcat(a, "," + b, NotComma);
    FilterConcat(",", b, NotComma);
    FilterConcat(a, b, NotComma);
    assert Filter(",", NotComma) == [] by {
      assert ","[1..] == [];
    }
    assert Filter(a + "," + b, NotComma) == Filter(a + b, NotComma);
  }

  /** Any character other than a digit or a dot is ignored: dropping it
      leaves the value unchanged. */
  lemma CleanNumberIgnores(a: string, c: char, b: string)
    requires !IsNumberChar(c)
    ensures CleanNumber(a + [c] + b) == CleanNumber(a + b)
  {
    var x := Filter(Filter(a + [c] + b, NotComma), IsNumberChar);
    var y := Filter(Filter(a + b, NotComma), IsNumberChar);
    assert x == y by {
      assert a + [c] + b == a + ([c] + b);
      CleanedConcat(a, [c] + b);
      CleanedConcat([c], b);
      CleanedConcat(a, b);
      CharCleanedAway(c);
    }
    assert CleanNumber(a + [c] + b) == DecimalOf(x);
    if a + b == [] {
      assert y == [];
    } else {
      assert CleanNumber(a + b) == DecimalOf(y);
    }
  }

  lemma CharCleanedAway(c: char)
    requires !IsNumberChar(c)
    ensures Filter(Filter([c], NotComma), IsNumberChar) == []
  {
    var kept := Filter([c], NotComma);
    if kept != [] {
      assert kept == [c] && kept[1..] == [];
    }
  }

  /** The two filters of `clean_number` work character by character. */
  lemma CleanedConcat(a: string, b: string)
    ensures Filter(Filter(a + b, NotComma), IsNumberChar)
         == Filter(Filter(a, NotComma), IsNumberChar) + Filter(Filter(b, NotComma), IsNumberChar)
  {
    FilterConcat(a, b, NotComma);
    FilterConcat(Filter(a, NotComma), Filter(b, NotComma), IsNumberChar);
  }

  predicate IsDot(c: char) {
    c == '.'
  }

  /** How many characters of `s` satisfy `p`. */
  function CountOf(s: string, p: char -> bool): (n: nat)
    ensures n <= |s|
  {
    if s == [] then 0 else (if p(s[0]) then 1 else 0) + CountOf(s[1..], p)
  }

  /** `clean_number` yields no value exactly when the text holds no digit
      (an empty text, or only a dot) or more than one dot. */
  lemma CleanNumberNone(s: string)
    ensures CleanNumber(s).None? <==> CountOf(s, IsDigit) == 0 || CountOf(s, IsDot) >= 2
  {
    if s != [] {
      var t := Filter(s, NotComma);
      FilterCounts(s, NotComma);
      FilterCounts(t, IsNumberChar);
      DecimalNone(Filter(t, IsNumberChar));
    }
  }

  /** `Decimal` on digits and dots fails exactly without a digit or with a
      second dot. */
  lemma DecimalNone(t: string)
    requires forall i :: 0 <= i < |t| ==> IsNumberChar(t[i])
    ensures DecimalOf(t).None? <==> CountOf(t, IsDigit) == 0 || CountOf(t, IsDot) >= 2
  {
    match IndexOf(t, '.')
    case None =>
      CountNone(t, IsDot);
      CountNone(t, IsDigit);
      if t != [] {
        assert IsDigit(t[0]);
      }
    case Some(k) =>
      DecimalWithDot(t, k);
  }

  lemma DecimalWithDot(t: string, k: nat)
    requires forall i :: 0 <= i < |t| ==> IsNumberChar(t[i])
    requires IndexOf(t, '.') == Some(k)
    ensures DecimalOf(t).None? <==> CountOf(t, IsDigit) == 0 || CountOf(t, IsDot) >= 2
  {
    assert DecimalOf(t).None? <==> '.' in t[k + 1..] || (k == 0 && k + 1 == |t|);
    FirstDotCounts(t, k);
  }

  /** With the first dot at `k`: a second dot, or the dot alone, is what
      the counts say. */
  lemma FirstDotCounts(t: string, k: nat)
    requires forall i :: 0 <= i < |t| ==> IsNumberChar(t[i])
    requires k < |t| && t[k] == '.' && '.' !in t[..k]
    ensures '.' in t[k + 1..] || (k == 0 && k + 1 == |t|) <==> CountOf(t, IsDigit) == 0 || CountOf(t, IsDot) >= 2
  {
    var whole, frac := t[..k], t[k + 1..];
    assert t == whole + (['.'] + frac);
    DotSplitCounts(whole, frac, IsDot);
    DotSplitCounts(whole, frac, IsDigit);
    CountNone(whole, IsDot);
    CountNone(frac, IsDot);
    CountNone(whole, IsDigit);
    CountNone(frac, IsDigit);
    if '.' in frac {
      var j :| 0 <= j < |frac| && frac[j] == '.';
    } else if whole != [] {
      assert whole[0] in whole && IsNumberChar(t[0]);
    } else if frac != [] {
      assert frac[0] in frac && IsNumberChar(t[k + 1]);
    }
  }

  /** The counts around a dot add up. */
  lemma DotSplitCounts(whole: string, frac: string, p: char -> bool)
    ensures CountOf(whole + (['.'] + frac), p) == CountOf(whole, p) + (if p('.') then 1 else 0) + CountOf(frac, p)
  {
    CountConcat(whole, ['.'] + frac, p);
    CountConcat(['.'], frac, p);
    assert ['.'][1..] == [];
  }

  lemma {:induction false} CountConcat(a: string, b: string, p: char -> bool)
    ensures CountOf(a + b, p) == CountOf(a, p) + CountOf(b, p)
  {
    if a == [] {
      assert a + b == b;
    } else {
      assert (a + b)[0] == a[0] && (a + b)[1..] == a[1..] + b;
      CountConcat(a[1..], b, p);
    }
  }

  lemma {:induction false} CountNone(s: string, p: char -> bool)
    ensures CountOf(s, p) == 0 <==> forall i :: 0 <= i < |s| ==> !p(s[i])
  {
    if s != [] {
      CountNone(s[1..], p);
      assert forall i :: 1 <= i < |s| ==> s[i] == s[1..][i - 1];
    }
  }

  /** A filter that keeps every digit and dot keeps their counts. */
  lemma {:induction false} FilterCounts(s: string, keep: char -> bool)
    requires forall i :: 0 <= i < |s| && IsNumberChar(s[i]) ==> keep(s[i])
    ensures CountOf(Filter(s, keep), IsDigit) == CountOf(s, IsDigit)
    ensures CountOf(Filter(s, keep), IsDot) == CountOf(s, IsDot)
  {
    if s != [] {
      var head := if keep(s[0]) then [s[0]] else [];
      FilterCounts(s[1..], keep);
      CountConcat(head, Filter(s[1..], keep), IsDigit);
      CountConcat(head, Filter(s[1..], keep), IsDot);
      if head != [] {
        assert head[1..] == [];
      }
    }
  }

  // ----------------------------------------------------------------------
  // find_value
  // ----------------------------------------------------------------------

  /** `[:$€]` */
  predicate IsAmountSign(c: char) {
    c == ':' || c == '$' || c == '\U{20AC}'
  }

  /** `[\d,\.]` */
  predicate IsAmountChar(c: char) {
    IsDigit(c) || c == ',' || c == '.'
  }

  /** The end of the run of amount characters starting at `i`. */
  function AmountRunEnd(s: string, i: nat): (r: nat)
    requires i <= |s|
    ensures i <= r <= |s|
    ensures forall k :: i <= k < r ==> IsAmountChar(s[k])
    ensures r < |s| ==> !IsAmountChar(s[r])
    decreases |s| - i
  {
    if i < |s| && IsAmountChar(s[i]) then AmountRunEnd(s, i + 1) else i
  }

  /** `\s*[:$€]?\s*([\d,\.]+)` matched from position `k`: where it ends and
      its group. Backtracking finds nothing the greedy reading misses: a
      sign is never an amount character. */
  function AmountTail(text: string, k: nat): (r: Option<(nat, string)>)
    requires k <= |text|
    ensures r.Some? ==> k < r.value.0 <= |text| && r.value.1 != []
  {
    var a := SkipSpaces(text, k);
    var b := if a < |text| && IsAmountSign(text[a]) then SkipSpaces(text, a + 1) else a;
    var e := AmountRunEnd(text, b);
    if b < e then Some((e, text[b..e])) else None
  }

  /** `(?:k1|k2|…)\s*[:$€]?\s*([\d,\.]+)` at position `i`: the keys are
      tried in order, each with the rest of the pattern. */
  function KeyAmountAt(text: string, i: nat, keys: seq<string>): (r: Option<(nat, string)>)
    ensures r.Some? ==> i < r.value.0 <= |text|
    decreases |keys|
  {
    if keys == [] then None
    else if MatchesAt(text, i, keys[0]) && AmountTail(text, i + |keys[0]|).Some? then AmountTail(text, i + |keys[0]|)
    else KeyAmountAt(text, i, keys[1..])
  }

  /** Group 1 of the last match `re.finditer` yields for the keys. */
  function LastAmount(text: string, keys: seq<string>): Option<string> {
    LastMatch(|text|, 0, AmountMatcher(text, keys), None)
  }

  /** The pattern for the keys, as a function of the position. */
  function AmountMatcher(text: string, keys: seq<string>): (f: nat -> Option<(nat, string)>)
    ensures forall p: nat :: f(p) == KeyAmountAt(text, p, keys)
  {
    (p: nat) => KeyAmountAt(text, p, keys)
  }

  /** `find_value`: the cleaned number of the last match, if any. */
  function FindValue(text: string, keys: seq<string>): (r: Option<real>)
    ensures r.Some? ==> r.value >= 0.0
  {
    match LastAmount(text, keys)
    case Some(g) => CleanNumber(g)
    case None => None
  }

  /** `find_value` finds a group exactly when some key is followed by an
      amount somewhere, and the group it finds is that of a match after
      whose end no other match starts. */
  lemma FindValueLast(text: string, keys: seq<string>)
    ensures LastAmount(text, keys).None? <==> forall i :: 0 <= i < |text| ==> KeyAmountAt(text, i, keys).None?
    ensures LastAmount(text, keys).Some? ==>
      exists i :: 0 <= i < |text| && KeyAmountAt(text, i, keys).Some?
                  && KeyAmountAt(text, i, keys).value.1 == LastAmount(text, keys).value
                  && forall j :: KeyAmountAt(text, i, keys).value.0 <= j < |text| ==> KeyAmountAt(text, j, keys).None?
  {
    var f := AmountMatcher(text, keys);
    assert LastAmount(text, keys) == LastMatch(|text|, 0, f, None);
    LastMatchNone(|text|, 0, f, None);
    LastMatchIsLast(|text|, 0, f, None);
    if LastAmount(text, keys).Some? {
      var p :| 0 <= p < |text| && f(p).Some? && Some(f(p).value.1) == LastAmount(text, keys)
               && forall q :: f(p).value.0 <= q < |text| ==> f(q).None?;
      assert KeyAmountAt(text, p, keys) == f(p);
    }
  }

  /** `find_value`: the loop runs over the keys, but every round searches
      for all of them at once, so the first round decides. */
  method FindValueLoop(text: string, keys: seq<string>) returns (r: Option<real>)
    ensures keys != [] ==> r == FindValue(text, keys)
    ensures keys == [] ==> r == None
  {
    for k := 0 to |keys|
      invariant k > 0 ==> LastAmount(text, keys).None?
    {
      var last := LastAmount(text, keys);
      if last.Some? {
        return CleanNumber(last.value);
      }
    }
    return None;
  }

  // ----------------------------------------------------------------------
  // _extract_amounts
  // ----------------------------------------------------------------------

  const GrossKeys: seq<string> := ["TOTAL DUE", "AMOUNT DUE", "TOTAL PAYABLE", "GRAND TOTAL"]
  const NetKeys: seq<string> := ["SUBTOTAL", "SUB TOTAL", "NET TOTAL"]
  const TaxKeys: seq<string> := ["SALES TAX", "TAX", "VAT", "TOTAL TAX"]

  /** `\bTOTAL\s*[:$€]?\s*([\d,\.]+)` at position `i`: its group. */
  function TotalAt(text: string, i: nat): Option<string> {
    if i <= |text| && IsBoundary(text, i) && MatchesAt(text, i, "TOTAL") then
      match AmountTail(text, i + 5)
      case Some(m) => Some(m.1)
      case None => None
    else None
  }

  /** The group of the first `\bTOTAL` match, the fallback for the gross
      total. */
  function FallbackTotal(text: string): Option<string> {
    Leftmost(|text|, 0, TotalMatcher(text))
  }

  function TotalMatcher(text: string): (f: nat -> Option<string>)
    ensures forall p: nat :: f(p) == TotalAt(text, p)
  {
    (p: nat) => TotalAt(text, p)
  }

  /** `re.search` takes the leftmost match: the fallback's group is that of
      a "TOTAL" amount before which none starts, and there is none only when
      no position matches. */
  lemma FallbackTotalFirst(text: string)
    ensures FallbackTotal(text).None? <==> forall i :: 0 <= i < |text| ==> TotalAt(text, i).None?
    ensures FallbackTotal(text).Some? ==>
      exists i :: 0 <= i < |text| && TotalAt(text, i) == FallbackTotal(text)
                  && forall j :: 0 <= j < i ==> TotalAt(text, j).None?
  {
    FallbackTotalNone(text);
    if FallbackTotal(text).Some? {
      FallbackTotalAt(text);
    }
  }

  lemma FallbackTotalNone(text: string)
    ensures FallbackTotal(text).None? <==> forall i :: 0 <= i < |text| ==> TotalAt(text, i).None?
  {
    LeftmostLeast(|text|, 0, TotalMatcher(text));
  }

  lemma FallbackTotalAt(text: string)
    requires FallbackTotal(text).Some?
    ensures exists i :: 0 <= i < |text| && TotalAt(text, i) == FallbackTotal(text)
                        && forall j :: 0 <= j < i ==> TotalAt(text, j).None?
  {
    var f := TotalMatcher(text);
    LeftmostLeast(|text|, 0, f);
    var i :| 0 <= i < |text| && f(i) == FallbackTotal(text) && forall j :: 0 <= j < i ==> f(j).None?;
    assert TotalAt(text, i) == f(i);
  }

  /** The amounts `_extract_amounts` sets; `None` where it sets none or
      sets `None`. */
  datatype Amounts = Amounts(grossTotal: Option<real>, netTotal: Option<real>, taxAmount: Option<real>)

  /** The gross total: a non-zero labelled total, else the first plain
      "TOTAL" amount, cleaned (so possibly zero or unreadable). */
  function GrossOf(text: string): (r: Option<real>)
    ensures r.Some? ==> r.value >= 0.0
    ensures Rules.Nonzero(FindValue(text, GrossKeys)) ==> r == FindValue(text, GrossKeys)
    ensures !Rules.Nonzero(FindValue(text, GrossKeys)) && FallbackTotal(text).Some? ==>
      r == CleanNumber(FallbackTotal(text).value)
    ensures !Rules.Nonzero(FindValue(text, GrossKeys)) && FallbackTotal(text).None? ==> r.None?
  {
    var gross := FindValue(text, GrossKeys);
    if Rules.Nonzero(gross) then gross
    else match FallbackTotal(text)
      case Some(g) => CleanNumber(g)
      case None => None
  }

  /** Without a non-zero labelled total, the gross total is the cleaned
      amount of the leftmost plain "TOTAL" match, and there is none
      without such a match. */
  lemma GrossFromFirstTotal(text: string)
    requires !Rules.Nonzero(FindValue(text, GrossKeys))
    ensures (forall i :: 0 <= i < |text| ==> TotalAt(text, i).None?) ==> GrossOf(text).None?
    ensures GrossOf(text).Some? ==>
      exists i :: 0 <= i < |text| && TotalAt(text, i).Some? && GrossOf(text) == CleanNumber(TotalAt(text, i).value)
                  && forall j :: 0 <= j < i ==> TotalAt(text, j).None?
  {
    FallbackTotalFirst(text);
  }

  /** What `_extract_amounts` returns. */
  function AmountsOf(text: string): (a: Amounts)
    ensures a.grossTotal == GrossOf(text)
    ensures a.grossTotal.Some? ==> a.grossTotal.value >= 0.0
    ensures a.taxAmount == (if Rules.Nonzero(FindValue(text, TaxKeys)) then FindValue(text, TaxKeys) else None)
    ensures Rules.Nonzero(FindValue(text, NetKeys)) ==> a.netTotal == FindValue(text, NetKeys)
    ensures !Rules.Nonzero(FindValue(text, NetKeys)) ==>
      (a.netTotal.Some? <==> Rules.Nonzero(GrossOf(text)) && Rules.Nonzero(FindValue(text, TaxKeys)))
    ensures !Rules.Nonzero(FindValue(text, NetKeys)) && a.netTotal.Some? ==>
      a.netTotal.value == GrossOf(text).value - FindValue(text, TaxKeys).value
    ensures a.taxAmount.Some? ==> a.taxAmount.value > 0.0
    ensures a.netTotal.Some? && a.netTotal.value <= 0.0 ==>
      Rules.Nonzero(a.grossTotal) && a.taxAmount.Some?
      && a.netTotal.value + a.taxAmount.value == a.grossTotal.value
  {
    Combine(GrossOf(text), FindValue(text, NetKeys), FindValue(text, TaxKeys))
  }

  /** The totals from the three searches: zero subtotals and taxes are
      dropped, and a missing net is derived as gross minus tax. */
  function Combine(gross: Option<real>, sub: Option<real>, tax: Option<real>): (a: Amounts)
    requires gross.Some? ==> gross.value >= 0.0
    requires sub.Some? ==> sub.value >= 0.0
    requires tax.Some? ==> tax.value >= 0.0
    ensures a.grossTotal == gross
    ensures a.taxAmount == (if Rules.Nonzero(tax) then tax else None)
    ensures a.taxAmount.Some? ==> a.taxAmount.value > 0.0
    ensures Rules.Nonzero(sub) ==> a.netTotal == sub
    ensures !Rules.Nonzero(sub) ==> (a.netTotal.Some? <==> Rules.Nonzero(gross) && Rules.Nonzero(tax))
    ensures !Rules.Nonzero(sub) && a.netTotal.Some? ==> a.netTotal.value == gross.value - tax.value
    ensures a.netTotal.Some? && a.netTotal.value <= 0.0 ==>
      Rules.Nonzero(a.grossTotal) && a.taxAmount.Some?
      && a.netTotal.value + a.taxAmount.value == a.grossTotal.value
  {
    var net := if Rules.Nonzero(sub) then sub else None;
    var taxAmount := if Rules.Nonzero(tax) then tax else None;
    if Rules.Nonzero(gross) && Rules.Nonzero(taxAmount) && !Rules.Nonzero(net) then
      Amounts(gross, Some(gross.value - taxAmount.value), taxAmount)
    else Amounts(gross, net, taxAmount)
  }

  /** A net total derived from gross and tax balances them: the validator's
      totals check passes on it for any non-negative tolerance. */
  lemma DerivedNetBalances(text: string, tolerance: real)
    requires tolerance >= 0.0
    requires !Rules.Nonzero(FindValue(text, NetKeys)) && AmountsOf(text).netTotal.Some?
    ensures AmountsOf(text).taxAmount.Some? && AmountsOf(text).grossTotal.Some?
    ensures Rules.AmountsMatch(AmountsOf(text).netTotal.value + AmountsOf(text).taxAmount.value,
                               AmountsOf(text).grossTotal.value, tolerance)
  {
    var a := AmountsOf(text);
    assert a.netTotal.value + a.taxAmount.value == a.grossTotal.value;
    Rules.AmountsMatchSymmetricReflexive(a.grossTotal.value, a.grossTotal.value, tolerance);
  }

  /** `_extract_amounts`: the three searches, then the zero checks and the
      derived net of `Combine`. */
  method ExtractAmounts(text: string) returns (a: Amounts)
    ensures a == AmountsOf(text)
  {
    var gross := ExtractGross(text);
    var sub := FindValueLoop(text, NetKeys);
    var tax := FindValueLoop(text, TaxKeys);
    assert |NetKeys| == 3 && |TaxKeys| == 4;
    a := Combine(gross, sub, tax);
  }

  /** The gross total: the labelled search, then the plain "TOTAL"
      fallback. */
  method ExtractGross(text: string) returns (gross: Option<real>)
    ensures gross == GrossOf(text)
  {
    gross := FindValueLoop(text, GrossKeys);
    if !Rules.Nonzero(gross) {
      var m := FallbackTotal(text);
      if m.Some? {
        gross := CleanNumber(m.value);
      } else {
        gross := None;
      }
    }
  }
}
