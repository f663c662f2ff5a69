/**
 * `_extract_parties`: the seller from the top lines of the text, the buyer
 * from the block after the first "bill to"-style keyword.
 *
 * Each regular expression of the method is written out as a predicate over
 * the text. Matching is case-insensitive on ASCII letters, `\s` is
 * `Text.IsSpace`, and `\b` is `Text.IsBoundary` over ASCII word characters.
 */
module Parties {
  import opened Wrappers
  import opened Text

  /** The party fields `_extract_parties` sets; `None` where it sets none. */
  datatype Parties = Parties(
    sellerName: Option<string>,
    sellerAddress: Option<string>,
    buyerName: Option<string>,
    buyerAddress: Option<string>)

  /** `xs[:n]` */
  function Take<T>(xs: seq<T>, n: nat): (r: seq<T>)
    ensures |r| == (if |xs| <= n then |xs| else n) && r == xs[..|r|]
  {
    if |xs| <= n then xs else xs[..n]
  }

  // ----------------------------------------------------------------------
  // Seller
  // ----------------------------------------------------------------------

  /** The lone document titles the seller scan skips. */
  const Titles: seq<string> := ["INVOICE", "TAX INVOICE", "CREDIT NOTE"]

  /** `^(?:INVOICE|TAX INVOICE|CREDIT NOTE)$` on a stripped line. */
  predicate IsTitle(line: string) {
    AnyEqualsIgnoreCase(line, Titles)
  }

  /** The literal openings of the header stop patterns. */
  const SectionOpenings: seq<string> :=
    ["TO:", "BILL TO:", "SHIP TO:", "SOLD TO:", "BILLED TO:", "DATE:", "PAGE", "DETAILS"]

  /** `^INVOICE\s*(?:#|NO|NUMBER)` */
  predicate IsInvoiceHeading(line: string) {
    MatchesAt(line, 0, "INVOICE") && AnyMatchesAt(line, SkipSpaces(line, 7), ["#", "NO", "NUMBER"])
  }

  /** The header stop patterns: a line opening a "to" section, a date label,
      a page marker or a details heading, or an invoice number heading. */
  predicate IsSectionStart(line: string) {
    AnyMatchesAt(line, 0, SectionOpenings) || IsInvoiceHeading(line)
  }

  /** `INVOICE\s*#` matches at position `i`. */
  predicate InvoiceHashAt(s: string, i: nat) {
    MatchesAt(s, i, "INVOICE")
    && var k := SkipSpaces(s, i + 7);
       k < |s| && s[k] == '#'
  }

  /** `re.search(r"INVOICE\s*#", s, re.IGNORECASE)` */
  predicate HasInvoiceHash(s: string) {
    exists i :: 0 <= i < |s| && InvoiceHashAt(s, i)
  }

  /** A stripped line the seller scan passes over: a blank one or a lone
      title. */
  predicate IsPassedOver(line: string) {
    line == [] || IsTitle(line)
  }

  /** The stripped lines, those `skip` holds for passed over, up to the
      first that `stop` holds for. */
  function CollectUntil(lines: seq<string>, skip: string -> bool, stop: string -> bool): seq<string> {
    if lines == [] then []
    else
      var line := Strip(lines[0]);
      if skip(line) then CollectUntil(lines[1..], skip, stop)
      else if stop(line) then []
      else [line] + CollectUntil(lines[1..], skip, stop)
  }

  /** The lines the seller scan collects: stripped, blanks and lone titles
      skipped, up to the first section start. */
  function SellerLines(lines: seq<string>): seq<string> {
    CollectUntil(lines, IsPassedOver, IsSectionStart)
  }

  /** The collected lines without those that mention an invoice number. */
  function DropInvoiceHash(ls: seq<string>): seq<string> {
    if ls == [] then []
    else DropInvoiceHash(ls[..|ls| - 1]) + (if HasInvoiceHash(ls[|ls| - 1]) then [] else [ls[|ls| - 1]])
  }

  /** The first surviving line is the seller's name; the next three, joined
      by single spaces, its address. */
  function SellerOf(text: string): (Option<string>, Option<string>) {
    var cleaned := DropInvoiceHash(SellerLines(Take(Split(text, '\n'), 20)));
    if cleaned == [] then (None, None)
    else (Some(cleaned[0]), if |cleaned| > 1 then Some(Join(Take(cleaned[1..], 3), " ")) else None)
  }

  /** A line the scan may collect from `lines`: the stripped form of one of
      them that is neither passed over nor a stop. */
  predicate Kept(l: string, lines: seq<string>, skip: string -> bool, stop: string -> bool) {
    IsStripped(l) && !skip(l) && !stop(l)
    && exists j :: 0 <= j < |lines| && l == Strip(lines[j])
  }

  /** Every collected line is kept. */
  lemma {:induction false} CollectUntilShape(lines: seq<string>, skip: string -> bool, stop: string -> bool)
    ensures forall k :: 0 <= k < |CollectUntil(lines, skip, stop)| ==>
      Kept(CollectUntil(lines, skip, stop)[k], lines, skip, stop)
  {
    if lines != [] {
      var rest := lines[1..];
      CollectUntilShape(rest, skip, stop);
      var line := Strip(lines[0]);
      StripShape(lines[0]);
      var out := CollectUntil(lines, skip, stop);
      var more := CollectUntil(rest, skip, stop);
      forall k | 0 <= k < |out| ensures Kept(out[k], lines, skip, stop) {
        if skip(line) {
          KeptLifts(more[k], lines, skip, stop);
        } else if k > 0 {
          assert out[k] == more[k - 1];
          KeptLifts(more[k - 1], lines, skip, stop);
        }
      }
    }
  }

  /** A line kept from the tail is kept from the whole. */
  lemma KeptLifts(l: string, lines: seq<string>, skip: string -> bool, stop: string -> bool)
    requires lines != [] && Kept(l, lines[1..], skip, stop)
    ensures Kept(l, lines, skip, stop)
  {
    var tail := lines[1..];
    var j :| 0 <= j < |tail| && l == Strip(tail[j]);
    assert tail[j] == lines[j + 1];
  }

  /** The scan ends at the first stop: nothing after it is collected. */
  lemma {:induction false} CollectUntilStops(lines: seq<string>, skip: string -> bool, stop: string -> bool, k: nat)
    requires k < |lines| && !skip(Strip(lines[k])) && stop(Strip(lines[k]))
    ensures CollectUntil(lines, skip, stop) == CollectUntil(lines[..k], skip, stop)
  {
    if k == 0 {
      assert lines[..0] == [];
    } else {
      var tail, pre := lines[1..], lines[..k];
      assert tail[k - 1] == lines[k];
      CollectUntilStops(tail, skip, stop, k - 1);
      assert pre[0] == lines[0] && pre[1..] == tail[..k - 1];
    }
  }

  /** Every collected seller line is the stripped form of one of the lines,
      not blank, and neither a lone title nor a section start. */
  lemma SellerLinesShape(lines: seq<string>)
    ensures forall k :: 0 <= k < |SellerLines(lines)| ==>
      var l := SellerLines(lines)[k];
      l != [] && IsStripped(l) && !IsTitle(l) && !IsSectionStart(l)
      && exists j :: 0 <= j < |lines| && l == Strip(lines[j])
  {
    CollectUntilShape(lines, IsPassedOver, IsSectionStart);
  }

  /** The seller scan ends at the first section start: nothing after it is
      collected. */
  lemma SellerStopsAtSection(lines: seq<string>, k: nat)
    requires k < |lines|
    requires Strip(lines[k]) != [] && !IsTitle(Strip(lines[k])) && IsSectionStart(Strip(lines[k]))
    ensures SellerLines(lines) == SellerLines(lines[..k])
  {
    CollectUntilStops(lines, IsPassedOver, IsSectionStart, k);
  }

  /** Dropping keeps exactly the lines without an invoice number mark. */
  lemma {:induction false} DropInvoiceHashKeeps(ls: seq<string>)
    ensures forall l :: l in DropInvoiceHash(ls) <==> l in ls && !HasInvoiceHash(l)
  {
    if ls != [] {
      DropInvoiceHashKeeps(ls[..|ls| - 1]);
      assert ls == ls[..|ls| - 1] + [ls[|ls| - 1]];
    }
  }

  /** The seller's name is a non-blank, stripped line from the first twenty,
      not a title, not a section start and with no invoice number mark. */
  lemma SellerNameShape(text: string)
    ensures SellerOf(text).0.Some? ==>
      var l := SellerOf(text).0.value;
      l != [] && IsStripped(l) && !IsTitle(l) && !IsSectionStart(l) && !HasInvoiceHash(l)
      && exists j :: 0 <= j < |Take(Split(text, '\n'), 20)| && l == Strip(Split(text, '\n')[j])
  {
    var top := Take(Split(text, '\n'), 20);
    var ls := SellerLines(top);
    SellerLinesShape(top);
    DropInvoiceHashKeeps(ls);
    if DropInvoiceHash(ls) != [] {
      var l := DropInvoiceHash(ls)[0];
      assert l in DropInvoiceHash(ls);
      var k :| 0 <= k < |ls| && ls[k] == l;
      var j :| 0 <= j < |top| && l == Strip(top[j]);
      assert top[j] == Split(text, '\n')[j];
    }
  }

  // ----------------------------------------------------------------------
  // Buyer
  // ----------------------------------------------------------------------

  /** An alternative of the buyer trigger: a literal, and whether it is
      wrapped in `\b`. */
  datatype Keyword = Keyword(word: string, bounded: bool)

  /** `(?:\bTO\b|BILL TO|SOLD TO|BILLED TO|CUSTOMER)`, in order. */
  const Triggers: seq<Keyword> := [
    Keyword("TO", true), Keyword("BILL TO", false), Keyword("SOLD TO", false),
    Keyword("BILLED TO", false), Keyword("CUSTOMER", false)]

  predicate KeywordAt(text: string, i: nat, k: Keyword) {
    MatchesAt(text, i, k.word)
    && (k.bounded ==> IsBoundary(text, i) && IsBoundary(text, i + |k.word|))
  }

  /** Where the first alternative of `ks` that matches at `i` ends. */
  function AlternativeEnd(text: string, i: nat, ks: seq<Keyword>): (r: Option<nat>)
    ensures r.Some? ==> i <= r.value <= |text|
    decreases |ks|
  {
    if ks == [] then None
    else if KeywordAt(text, i, ks[0]) then Some(i + |ks[0].word|)
    else AlternativeEnd(text, i, ks[1..])
  }

  /** The end of the leftmost match of the alternatives `ks` at or after
      `from`: the match `re.finditer` yields first. */
  function FirstKeyword(text: string, from: nat, ks: seq<Keyword>): Option<nat> {
    Leftmost(|text|, from, KeywordMatcher(text, ks))
  }

  function KeywordMatcher(text: string, ks: seq<Keyword>): (f: nat -> Option<nat>)
    ensures forall p: nat :: f(p) == AlternativeEnd(text, p, ks)
  {
    (p: nat) => AlternativeEnd(text, p, ks)
  }

  /** Only the leftmost match of the alternation counts (for the buyer,
      the leftmost trigger): the one found matches at a position before
      which no alternative matches, and none is found only when no position
      matches. */
  lemma FirstKeywordLeast(text: string, ks: seq<Keyword>)
    ensures FirstKeyword(text, 0, ks).None? <==> forall i :: 0 <= i < |text| ==> AlternativeEnd(text, i, ks).None?
    ensures FirstKeyword(text, 0, ks).Some? ==>
      exists i :: 0 <= i < |text| && AlternativeEnd(text, i, ks) == FirstKeyword(text, 0, ks)
                  && forall j :: 0 <= j < i ==> AlternativeEnd(text, j, ks).None?
  {
    FirstKeywordNone(text, ks);
    if FirstKeyword(text, 0, ks).Some? {
      var i := FirstKeywordAt(text, ks);
    }
  }

  lemma FirstKeywordNone(text: string, ks: seq<Keyword>)
    ensures FirstKeyword(text, 0, ks).None? <==> forall i :: 0 <= i < |text| ==> AlternativeEnd(text, i, ks).None?
  {
    var f := KeywordMatcher(text, ks);
    LeftmostLeast(|text|, 0, f);
    if FirstKeyword(text, 0, ks).None? {
      forall i: nat | i < |text|
        ensures AlternativeEnd(text, i, ks).None?
      {
        assert f(i).None?;
      }
    } else {
      var i := FirstKeywordAt(text, ks);
    }
  }

  lemma FirstKeywordAt(text: string, ks: seq<Keyword>) returns (i: nat)
    requires FirstKeyword(text, 0, ks).Some?
    ensures i < |text| && AlternativeEnd(text, i, ks) == FirstKeyword(text, 0, ks)
    ensures forall j :: 0 <= j < i ==> AlternativeEnd(text, j, ks).None?
  {
    var f := KeywordMatcher(text, ks);
    LeftmostLeast(|text|, 0, f);
    i :| 0 <= i < |text| && f(i) == FirstKeyword(text, 0, ks) && forall j :: 0 <= j < i ==> f(j).None?;
    assert AlternativeEnd(text, i, ks) == f(i);
  }

  /** `SHIP TO|INVOICE|DATE|QUANTITY|DESCRIPTION|ITEM|TOTAL|PAYMENT` found
      anywhere in a line: the block has run into another section. */
  predicate IsStopLine(line: string) {
    AnyContainedIgnoreCase(line, StopWords)
  }

  const StopWords: seq<string> :=
    ["SHIP TO", "INVOICE", "DATE", "QUANTITY", "DESCRIPTION", "ITEM", "TOTAL", "PAYMENT"]

  /** Every stop word has at least four letters, so no shorter line is a
      stop line. */
  lemma ShortNotStop(line: string)
    requires |line| < 4
    ensures !IsStopLine(line)
  {
    assert forall k :: 0 <= k < |StopWords| ==> 4 <= |StopWords[k]|;
    ShortContainsNone(line, StopWords);
  }

  /** The candidate loop: blank lines are skipped until there is a
      candidate and end the block after; a stop line ends it; every other
      line, stripped, is a candidate. */
  function ScanBlock(cands: seq<string>, lines: seq<string>): seq<string>
    decreases |lines|
  {
    if lines == [] then cands
    else
      var line := Strip(lines[0]);
      if line == [] then (if cands != [] then cands else ScanBlock(cands, lines[1..]))
      else if IsStopLine(line) then cands
      else ScanBlock(cands + [line], lines[1..])
  }

  /** The characters `strip(" :-\t")` removes from the rest of the trigger
      line. */
  const Separators: seq<char> := " :-\t"

  /** The buyer candidates: the rest of the trigger line, when it holds more
      than separators, then the lines of the next 500 characters. When the
      rest of the line is used, the chunk starts at the line break. */
  function BuyerCandidates(text: string): seq<string> {
    match FirstKeyword(text, 0, Triggers)
    case None => []
    case Some(start) => BlockAfter(text, start)
  }

  /** The candidates after a trigger ending at `start`. */
  function BlockAfter(text: string, start: nat): seq<string> {
    var nl := Find(text, '\n', start);
    var same := StripChars(Slice(text, start, nl), Separators);
    var from := if same != [] then nl else start;
    ScanBlock(if same != [] then [same] else [], Split(Slice(text, from, from + 500), '\n'))
  }

  /** The first candidate is the buyer's name, the rest joined by spaces its
      address. */
  function BuyerOf(text: string): (Option<string>, Option<string>) {
    NameAndAddress(BuyerCandidates(text))
  }

  function NameAndAddress(c: seq<string>): (Option<string>, Option<string>) {
    if c == [] then (None, None)
    else (Some(c[0]), if |c| > 1 then Some(Join(c[1..], " ")) else None)
  }

  /** Everything `_extract_parties` finds. */
  function PartiesOf(text: string): Parties {
    var seller := SellerOf(text);
    var buyer := BuyerOf(text);
    Parties(seller.0, seller.1, buyer.0, buyer.1)
  }

  /** A line the block may add: non-blank, stripped, not a stop line. */
  predicate IsCandidate(l: string) {
    l != [] && IsStripped(l) && !IsStopLine(l)
  }

  /** A candidate line is added and the scan goes on. */
  lemma ScanBlockAdds(cands: seq<string>, lines: seq<string>)
    requires lines != [] && IsCandidate(Strip(lines[0]))
    ensures ScanBlock(cands, lines) == ScanBlock(cands + [Strip(lines[0])], lines[1..])
  {
  }

  /** A block whose first line is a candidate starts with that line. */
  lemma ScanBlockFirst(lines: seq<string>)
    requires lines != [] && IsCandidate(Strip(lines[0]))
    ensures |ScanBlock([], lines)| > 0 && ScanBlock([], lines)[0] == Strip(lines[0])
  {
    var x := Strip(lines[0]);
    ScanBlockAdds([], lines);
    assert [] + [x] == [x];
    ScanBlockShape([x], lines[1..]);
    var r := ScanBlock([x], lines[1..]);
    assert r[0] == r[..1][0];
  }

  /** The block keeps the candidates it started with and adds only
      candidate lines. */
  lemma {:induction false} ScanBlockShape(cands: seq<string>, lines: seq<string>)
    ensures |cands| <= |ScanBlock(cands, lines)| && ScanBlock(cands, lines)[..|cands|] == cands
    ensures forall k :: |cands| <= k < |ScanBlock(cands, lines)| ==> IsCandidate(ScanBlock(cands, lines)[k])
    decreases |lines|
  {
    if lines != [] {
      var line := Strip(lines[0]);
      if line == [] {
        if cands == [] {
          ScanBlockShape(cands, lines[1..]);
        }
      } else if !IsStopLine(line) {
        StripShape(lines[0]);
        assert IsCandidate(line);
        var more := cands + [line];
        ScanBlockShape(more, lines[1..]);
        var r := ScanBlock(more, lines[1..]);
        assert r == ScanBlock(cands, lines);
        assert r[..|cands|] == r[..|more|][..|cands|];
        forall k | |cands| <= k < |r| ensures IsCandidate(r[k]) {
          if k == |cands| {
            assert r[k] == r[..|more|][k] == line;
          }
        }
      }
    }
  }

  /** When the trigger line carries text after the keyword and a line break
      follows, that text is the buyer's name and no address is collected:
      the chunk starts with the break, whose empty line ends the block. */
  lemma SameLineNameOnly(text: string, start: nat)
    requires Find(text, '\n', start) != -1
    requires StripChars(Slice(text, start, Find(text, '\n', start)), Separators) != []
    ensures BlockAfter(text, start) == [StripChars(Slice(text, start, Find(text, '\n', start)), Separators)]
  {
    var nl := Find(text, '\n', start);
    var same := StripChars(Slice(text, start, nl), Separators);
    var chunk := Slice(text, nl, nl + 500);
    var lines := Split(chunk, '\n');
    assert lines[0] == [] by {
      assert chunk[0] == '\n';
      assert IndexOf(chunk, '\n') == Some(0);
      SplitFirst(chunk, '\n');
    }
    assert ScanBlock([same], lines) == [same] by {
      assert Strip(lines[0]) == [];
    }
    assert BlockAfter(text, start) == ScanBlock([same], lines);
  }

  /** A trigger on the last line of a text of 500 characters or more: the
      slice from -1 to 499 is empty (Python counts -1 from the end), so the
      rest of the line without its last character is the only candidate. */
  lemma LongLastLine(text: string, start: nat)
    requires Find(text, '\n', start) == -1 && |text| >= 500
    requires StripChars(Slice(text, start, -1), Separators) != []
    ensures BlockAfter(text, start) == [StripChars(Slice(text, start, -1), Separators)]
  {
    var same := StripChars(Slice(text, start, -1), Separators);
    assert Slice(text, -1, 499) == [];
    assert Split([], '\n') == [[]] by {
      assert IndexOf([], '\n') == None;
    }
    assert ScanBlock([same], [[]]) == [same] by {
      assert Strip([]) == [];
    }
  }

  /** A text that opens with `TO:` and a line break gives the buyer name
      ":": the separators-only rest of the line sends the scan back to just
      after the keyword, and the colon's line is the first candidate. */
  lemma BareToQuirk(rest: string)
    ensures BuyerOf("TO:\n" + rest).0 == Some(":")
  {
    BareToTrigger(rest);
    BareToBlock(rest);
  }

  /** `TO` at the very start of the text is the first trigger. */
  lemma BareToTrigger(rest: string)
    ensures FirstKeyword("TO:\n" + rest, 0, Triggers) == Some(2)
  {
    var text := "TO:\n" + rest;
    assert text[0..2] == "TO";
    assert IsBoundary(text, 0) && IsBoundary(text, 2);
    assert KeywordAt(text, 0, Triggers[0]);
    assert AlternativeEnd(text, 0, Triggers) == Some(2);
  }

  /** After that trigger, the block's first candidate is the colon. */
  lemma BareToBlock(rest: string)
    ensures |BlockAfter("TO:\n" + rest, 2)| > 0 && BlockAfter("TO:\n" + rest, 2)[0] == ":"
  {
    var text := "TO:\n" + rest;
    ColonLineBreak(text);
    var chunk := Slice(text, 2, 502);
    var lines := Split(chunk, '\n');
    ColonFirstLine(chunk);
    ShortCandidate(":");
    ScanBlockFirst(lines);
    assert BlockAfter(text, 2) == ScanBlock([], lines);
  }

  /** A colon and a line break at positions 2 and 3: the break is found at
      3, the rest of the trigger line is separators only, and the chunk from
      2 opens with both. */
  lemma ColonLineBreak(text: string)
    requires |text| >= 4 && text[2] == ':' && text[3] == '\n'
    ensures Find(text, '\n', 2) == 3
    ensures StripChars(Slice(text, 2, 3), Separators) == []
    ensures var chunk := Slice(text, 2, 502); |chunk| >= 2 && chunk[0] == ':' && chunk[1] == '\n'
  {
    assert text[2..][0] == ':' && text[2..][1] == '\n';
    assert IndexOf(text[2..], '\n') == Some(1);
    assert Slice(text, 2, 3) == [':'];
  }

  /** A chunk opening with a colon and a line break has ":" as its first
      line. */
  lemma ColonFirstLine(chunk: string)
    requires |chunk| >= 2 && chunk[0] == ':' && chunk[1] == '\n'
    ensures Split(chunk, '\n')[0] == ":"
  {
    assert chunk[1..][0] == '\n';
    assert IndexOf(chunk, '\n') == Some(1);
    SplitFirst(chunk, '\n');
  }

  /** A short stripped line is a candidate and stripping keeps it. */
  lemma ShortCandidate(l: string)
    requires 0 < |l| < 4 && IsStripped(l)
    ensures Strip(l) == l && IsCandidate(l)
  {
    StripStripped(l);
    ShortNotStop(l);
  }

  /** A trigger on the text's last line, in a text of fewer than 500
      characters: `find` gives -1, so the rest of the line loses its last
      character, and the slice from -1 makes that character a line of its
      own, which becomes the address ("BILL TO: Acme" gives the name "Acm"
      and the address "e"). */
  lemma LastLineQuirk(text: string, start: nat)
    requires Find(text, '\n', start) == -1 && |text| < 500
    requires StripChars(Slice(text, start, -1), Separators) != []
    requires !IsSpace(text[|text| - 1])
    ensures start < |text| - 1
    ensures BlockAfter(text, start) == [StripChars(text[start..|text| - 1], Separators), [text[|text| - 1]]]
  {
    var last := |text| - 1;
    assert Slice(text, start, -1) == text[start..last];
    var same := StripChars(text[start..last], Separators);
    var chunk := Slice(text, -1, 499);
    assert chunk == [text[last]];
    assert text[last] != '\n' by {
      assert text[last] == text[start..][last - start];
    }
    assert Split(chunk, '\n') == [chunk] by {
      assert IndexOf(chunk, '\n') == None;
    }
    assert ScanBlock([same], [chunk]) == [same, chunk] by {
      ShortCandidate(chunk);
      ScanBlockAdds([same], [chunk]);
      assert [chunk][1..] == [];
      assert [same] + [chunk] == [same, chunk];
    }
    assert BlockAfter(text, start) == [same, chunk];
  }

  // ----------------------------------------------------------------------
  // The method
  // ----------------------------------------------------------------------

  /** `_extract_parties` */
  method ExtractParties(text: string) returns (p: Parties)
    ensures p == PartiesOf(text)
  {
    var seller := ExtractSeller(text);
    var buyer := ExtractBuyer(text);
    p := Parties(seller.0, seller.1, buyer.0, buyer.1);
  }

  /** The seller half: collect, clean, then pick name and address. */
  method ExtractSeller(text: string) returns (r: (Option<string>, Option<string>))
    ensures r == SellerOf(text)
  {
    var sellerLines := CollectSellerLines(Take(Split(text, '\n'), 20));
    var cleaned := DropMarked(sellerLines);
    if cleaned == [] {
      return (None, None);
    }
    if |cleaned| > 1 {
      return (Some(cleaned[0]), Some(Join(Take(cleaned[1..], 3), " ")));
    }
    return (Some(cleaned[0]), None);
  }

  /** One step of the seller scan, read off the first line of a suffix. */
  lemma SellerLinesStep(lines: seq<string>, i: nat)
    requires i < |lines|
    ensures SellerLines(lines[i..]) ==
      var line := Strip(lines[i]);
      if line == [] || IsTitle(line) then SellerLines(lines[i + 1..])
      else if IsSectionStart(line) then []
      else [line] + SellerLines(lines[i + 1..])
  {
    assert lines[i..][0] == lines[i] && lines[i..][1..] == lines[i + 1..];
  }

  /** The first seller loop. */
  method CollectSellerLines(top: seq<string>) returns (sellerLines: seq<string>)
    ensures sellerLines == SellerLines(top)
  {
    sellerLines := [];
    var i := 0;
    while i < |top|
      invariant 0 <= i <= |top|
      invariant sellerLines + SellerLines(top[i..]) == SellerLines(top)
    {
      var line := Strip(top[i]);
      SellerLinesStep(top, i);
      if line == [] || IsTitle(line) {
        i := i + 1;
        continue;
      }
      if IsSectionStart(line) {
        return;
      }
      sellerLines := sellerLines + [line];
      i := i + 1;
    }
  }

  /** The comprehension that drops lines mentioning an invoice number. */
  method DropMarked(sellerLines: seq<string>) returns (cleaned: seq<string>)
    ensures cleaned == DropInvoiceHash(sellerLines)
  {
    cleaned := [];
    for j := 0 to |sellerLines|
      invariant cleaned == DropInvoiceHash(sellerLines[..j])
    {
      assert sellerLines[..j + 1][..j] == sellerLines[..j];
      if HasInvoiceHash(sellerLines[j]) {
        continue;
      }
      cleaned := cleaned + [sellerLines[j]];
    }
    assert sellerLines[..|sellerLines|] == sellerLines;
  }

  /** The buyer half: the candidates, then name and address. */
  method ExtractBuyer(text: string) returns (r: (Option<string>, Option<string>))
    ensures r == BuyerOf(text)
  {
    var candidates := FindCandidates(text);
    if candidates == [] {
      return (None, None);
    }
    if |candidates| > 1 {
      return (Some(candidates[0]), Some(Join(candidates[1..], " ")));
    }
    return (Some(candidates[0]), None);
  }

  /** The first trigger, then the candidates after it. */
  method FindCandidates(text: string) returns (candidates: seq<string>)
    ensures candidates == BuyerCandidates(text)
  {
    var trigger := FirstKeyword(text, 0, Triggers);
    if trigger.None? {
      return [];
    }
    candidates := CandidatesAfter(text, trigger.value);
  }

  /** The rest of the trigger line, then the block of lines after it. */
  method CandidatesAfter(text: string, start: nat) returns (candidates: seq<string>)
    ensures candidates == BlockAfter(text, start)
  {
    var nextNewline := Find(text, '\n', start);
    var sameLine := StripChars(Slice(text, start, nextNewline), Separators);
    var first: seq<string> := [];
    var searchStart: int := start;
    if sameLine != [] {
      first := [sameLine];
      searchStart := nextNewline;
    }
    candidates := ScanCandidates(first, Split(Slice(text, searchStart, searchStart + 500), '\n'));
  }

  /** One step of the candidate loop, read off the first line of a suffix. */
  lemma ScanBlockStep(cands: seq<string>, lines: seq<string>, i: nat)
    requires i < |lines|
    ensures ScanBlock(cands, lines[i..]) ==
      var line := Strip(lines[i]);
      if line == [] then (if cands != [] then cands else ScanBlock(cands, lines[i + 1..]))
      else if IsStopLine(line) then cands
      else ScanBlock(cands + [line], lines[i + 1..])
  {
    assert lines[i..][0] == lines[i] && lines[i..][1..] == lines[i + 1..];
  }

  /** The candidate loop over the chunk's lines. */
  method ScanCandidates(first: seq<string>, lines: seq<string>) returns (candidates: seq<string>)
    ensures candidates == ScanBlock(first, lines)
  {
    candidates := first;
    var i := 0;
    while i < |lines|
      invariant 0 <= i <= |lines|
      invariant ScanBlock(candidates, lines[i..]) == ScanBlock(first, lines)
    {
      var line := Strip(lines[i]);
      ScanBlockStep(candidates, lines, i);
      if line == [] {
        if candidates != [] {
          return;
        }
        i := i + 1;
        continue;
      }
      if IsStopLine(line) {
        return;
      }
      candidates := candidates + [line];
      i := i + 1;
    }
  }
}
