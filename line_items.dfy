/**
 * `_extract_line_items` and `_find_column_index`: line items read from the
 * tables of the pages, or, when the tables give none, from the lines of the
 * pages' layout text.
 *
 * The PDF reader is not modelled: each page is given as the tables and the
 * layout text it would yield. Python's `float` is a parameter (`FloatParser`);
 * `Decimal` is `Amounts.DecimalOf`.
 */
module LineItems {
  import opened Wrappers
  import opened Text
  import opened Schemas
  import Amounts
  import Rules

  /** A cell as the table reader gives it: absent or a text. */
  type Cell = Option<string>
  type Row = seq<Cell>
  type Table = seq<Row>

  /** What one page yields: its plain text (empty where the reader gives
      none), its tables, and its text with layout kept. */
  datatype Page = Page(text: string, tables: seq<Table>, layoutText: string)

  /** `float(s)`: the value, or `None` where it raises. */
  type FloatParser = string -> Option<real>

  // ----------------------------------------------------------------------
  // _find_column_index
  // ----------------------------------------------------------------------

  /** `str(cell).lower().replace('\n', ' ')` */
  function HeaderText(cell: string): string {
    Replace(Lower(cell), '\n', ' ')
  }

  /** Some keyword occurs in `s` (`keyword == s` implies `keyword in s`). */
  predicate AnyContains(s: string, keywords: seq<string>)
    decreases |keywords|
  {
    keywords != [] && (Contains(s, keywords[0]) || AnyContains(s, keywords[1..]))
  }

  /** A non-empty header cell whose text holds one of the keywords. */
  predicate Labels(cell: Cell, keywords: seq<string>) {
    cell.Some? && cell.value != [] && AnyContains(HeaderText(cell.value), keywords)
  }

  function LabelMatcher(header: Row, keywords: seq<string>): (f: nat -> Option<nat>)
    ensures forall p: nat :: f(p) == if p < |header| && Labels(header[p], keywords) then Some(p) else None
  {
    (p: nat) => if p < |header| && Labels(header[p], keywords) then Some(p) else None
  }

  /** The first column whose header cell holds a keyword. */
  function ColumnIndex(header: Row, keywords: seq<string>): Option<nat> {
    Leftmost(|header|, 0, LabelMatcher(header, keywords))
  }

  /** The column found is the first labelled one, and none is found only
      when no cell is labelled. */
  lemma ColumnIndexFirst(header: Row, keywords: seq<string>)
    ensures ColumnIndex(header, keywords).None? <==> forall i :: 0 <= i < |header| ==> !Labels(header[i], keywords)
    ensures ColumnIndex(header, keywords).Some? ==>
      var i := ColumnIndex(header, keywords).value;
      i < |header| && Labels(header[i], keywords) && forall j :: 0 <= j < i ==> !Labels(header[j], keywords)
  {
    var f := LabelMatcher(header, keywords);
    LeftmostLeast(|header|, 0, f);
    if ColumnIndex(header, keywords).None? {
      forall i | 0 <= i < |header| ensures !Labels(header[i], keywords) {
        assert f(i).None?;
      }
    } else {
      var i :| 0 <= i < |header| && f(i) == ColumnIndex(header, keywords) && forall j :: 0 <= j < i ==> f(j).None?;
      forall j | 0 <= j < i ensures !Labels(header[j], keywords) {
        assert f(j).None?;
      }
    }
  }

  /** `_find_column_index`: the cells in order, each against the keywords
      in order. */
  method FindColumnIndex(header: Row, keywords: seq<string>) returns (r: Option<nat>)
    ensures r == ColumnIndex(header, keywords)
  {
    ColumnIndexFirst(header, keywords);
    for i := 0 to |header|
      invariant forall j :: 0 <= j < i ==> !Labels(header[j], keywords)
    {
      var cell := header[i];
      if cell.Some? && cell.value != [] {
        var text := HeaderText(cell.value);
        for k := 0 to |keywords|
          invariant AnyContains(text, keywords) == AnyContains(text, keywords[k..])
        {
          assert keywords[k..][0] == keywords[k] && keywords[k..][1..] == keywords[k + 1..];
          if Contains(text, keywords[k]) {
            return Some(i);
          }
        }
      }
    }
    return None;
  }

  // ----------------------------------------------------------------------
  // Rows of a table
  // ----------------------------------------------------------------------

  const DescriptionWords: seq<string> := ["description", "item", "product", "details"]
  const QuantityWords: seq<string> := ["qty", "quantity", "count"]
  const PriceWords: seq<string> := ["unit price", "price", "rate", "cost", "unit"]
  const TotalWords: seq<string> := ["total", "amount", "extension"]

  /** The columns found in a header; the description column is required. */
  datatype Columns = Columns(desc: nat, qty: Option<nat>, price: Option<nat>, total: Option<nat>)

  /** `str(c).strip() if c else ""` */
  function CleanCell(c: Cell): string {
    if c.Some? && c.value != [] then Strip(c.value) else []
  }

  function CleanRow(row: Row): (r: seq<string>)
    ensures |r| == |row|
  {
    seq(|row|, i requires 0 <= i < |row| => CleanCell(row[i]))
  }

  /** The cell of an optional column, absent when the column is not there
      or the row is too short (the `IndexError` the inner `try` swallows). */
  function OptionalCell(clean: seq<string>, col: Option<nat>): Option<string> {
    if col.Some? && col.value < |clean| then Some(clean[col.value]) else None
  }

  /** `Decimal(re.sub(r"[^0-9\.]", "", s))`, `None` where it raises. */
  function DecimalCell(s: string): Option<real> {
    Amounts.DecimalOf(Filter(s, Amounts.IsNumberChar))
  }

  /** The quantity read from an optional column: `float` of the cell with
      its commas removed, absent where the cell is missing or `float`
      raises. */
  function QuantityCell(clean: seq<string>, col: Option<nat>, toFloat: FloatParser): Option<real> {
    match OptionalCell(clean, col)
    case Some(c) => toFloat(Filter(c, Amounts.NotComma))
    case None => None
  }

  /** A price or total read from an optional column, absent where the cell
      is missing or `Decimal` raises. */
  function AmountCell(clean: seq<string>, col: Option<nat>): Option<real> {
    match OptionalCell(clean, col)
    case Some(c) => DecimalCell(c)
    case None => None
  }

  /** What one row does to the scan. */
  datatype RowResult = SkipRow | AbortScan | KeepItem(item: LineItem)

  /** The item kept by the table stage: a description and a non-zero total
      or quantity. */
  predicate Kept(item: LineItem) {
    item.description.Some? && item.description.value != []
    && (Rules.Nonzero(item.lineTotal) || Rules.Nonzero(item.quantity))
  }

  /** A row the scan looks at: not empty, and its first cell does not
      mention "total". */
  predicate CountedRow(row: Row) {
    row != [] && !Contains(Lower(CleanCell(row[0])), "total")
  }

  /** One row of a table: empty rows and rows whose first cell mentions
      "total" are skipped; a row too short for the description column ends
      the whole extraction (the `IndexError` reaches the outer `try`); any
      other row is kept when its description is not empty and its total or
      quantity is non-zero, with the readings of its cells. */
  function RowItem(row: Row, cols: Columns, toFloat: FloatParser): (r: RowResult)
    ensures r.AbortScan? <==> CountedRow(row) && cols.desc >= |row|
    ensures r.KeepItem? <==>
      CountedRow(row) && cols.desc < |row|
      && Replace(CleanCell(row[cols.desc]), '\n', ' ') != []
      && (Rules.Nonzero(AmountCell(CleanRow(row), cols.total))
          || Rules.Nonzero(QuantityCell(CleanRow(row), cols.qty, toFloat)))
    ensures r.KeepItem? ==>
      r.item == LineItem(Some(Replace(CleanCell(row[cols.desc]), '\n', ' ')),
                         QuantityCell(CleanRow(row), cols.qty, toFloat),
                         AmountCell(CleanRow(row), cols.price),
                         AmountCell(CleanRow(row), cols.total), None)
    ensures r.KeepItem? ==> Kept(r.item)
  {
    if row == [] then SkipRow
    else
      var clean := CleanRow(row);
      if Contains(Lower(clean[0]), "total") then SkipRow
      else if cols.desc >= |clean| then AbortScan
      else
        var desc := Replace(clean[cols.desc], '\n', ' ');
        var qty := QuantityCell(clean, cols.qty, toFloat);
        var total := AmountCell(clean, cols.total);
        if desc != [] && (Rules.Nonzero(total) || Rules.Nonzero(qty)) then
          KeepItem(LineItem(Some(desc), qty, AmountCell(clean, cols.price), total, None))
        else SkipRow
  }

  /** The items so far, and whether an exception ended the extraction. */
  datatype Scan = Scan(items: seq<LineItem>, aborted: bool)

  /** The rows after the header, in order. */
  function RowsScan(rows: seq<Row>, cols: Columns, toFloat: FloatParser, acc: seq<LineItem>): Scan
    decreases |rows|
  {
    if rows == [] then Scan(acc, false)
    else match RowItem(rows[0], cols, toFloat)
      case AbortScan => Scan(acc, true)
      case SkipRow => RowsScan(rows[1..], cols, toFloat, acc)
      case KeepItem(item) => RowsScan(rows[1..], cols, toFloat, acc + [item])
  }

  /** A table: skipped when it has fewer than two rows or no description
      column. */
  function TableScan(table: Table, toFloat: FloatParser, acc: seq<LineItem>): Scan {
    if |table| < 2 then Scan(acc, false)
    else match ColumnIndex(table[0], DescriptionWords)
      case None => Scan(acc, false)
      case Some(d) =>
        var header := table[0];
        var cols := Columns(d, ColumnIndex(header, QuantityWords), ColumnIndex(header, PriceWords),
                            ColumnIndex(header, TotalWords));
        RowsScan(table[1..], cols, toFloat, acc)
  }

  function TablesScan(tables: seq<Table>, toFloat: FloatParser, acc: seq<LineItem>): Scan
    decreases |tables|
  {
    if tables == [] then Scan(acc, false)
    else
      var s := TableScan(tables[0], toFloat, acc);
      if s.aborted then s else TablesScan(tables[1..], toFloat, s.items)
  }

  /** The table stage over all pages. */
  function PagesScan(pages: seq<Page>, toFloat: FloatParser, acc: seq<LineItem>): Scan
    decreases |pages|
  {
    if pages == [] then Scan(acc, false)
    else
      var s := TablesScan(pages[0].tables, toFloat, acc);
      if s.aborted then s else PagesScan(pages[1..], toFloat, s.items)
  }

  /** Every stage only appends kept items to what it is given. */
  lemma {:induction false} RowsScanKept(rows: seq<Row>, cols: Columns, toFloat: FloatParser, acc: seq<LineItem>)
    ensures var s := RowsScan(rows, cols, toFloat, acc);
      |acc| <= |s.items| && s.items[..|acc|] == acc
      && forall k :: |acc| <= k < |s.items| ==> Kept(s.items[k])
    decreases |rows|
  {
    if rows != [] {
      match RowItem(rows[0], cols, toFloat)
      case AbortScan =>
      case SkipRow => RowsScanKept(rows[1..], cols, toFloat, acc);
      case KeepItem(item) =>
        var more := acc + [item];
        RowsScanKept(rows[1..], cols, toFloat, more);
        var s := RowsScan(rows[1..], cols, toFloat, more);
        assert s.items[..|acc|] == s.items[..|more|][..|acc|];
        forall k | |acc| <= k < |s.items| ensures Kept(s.items[k]) {
          if k == |acc| {
            assert s.items[k] == s.items[..|more|][k] == item;
          }
        }
    }
  }

  lemma TableScanKept(table: Table, toFloat: FloatParser, acc: seq<LineItem>)
    ensures var s := TableScan(table, toFloat, acc);
      |acc| <= |s.items| && s.items[..|acc|] == acc
      && forall k :: |acc| <= k < |s.items| ==> Kept(s.items[k])
  {
    if |table| >= 2 && ColumnIndex(table[0], DescriptionWords).Some? {
      var header := table[0];
      var cols := Columns(ColumnIndex(header, DescriptionWords).value, ColumnIndex(header, QuantityWords),
                          ColumnIndex(header, PriceWords), ColumnIndex(header, TotalWords));
      RowsScanKept(table[1..], cols, toFloat, acc);
    }
  }

  lemma {:induction false} TablesScanKept(tables: seq<Table>, toFloat: FloatParser, acc: seq<LineItem>)
    ensures var s := TablesScan(tables, toFloat, acc);
      |acc| <= |s.items| && s.items[..|acc|] == acc
      && forall k :: |acc| <= k < |s.items| ==> Kept(s.items[k])
    decreases |tables|
  {
    if tables != [] {
      var s := TableScan(tables[0], toFloat, acc);
      TableScanKept(tables[0], toFloat, acc);
      if !s.aborted {
        TablesScanKept(tables[1..], toFloat, s.items);
        var t := TablesScan(tables[1..], toFloat, s.items);
        assert t.items[..|acc|] == t.items[..|s.items|][..|acc|];
        forall k | |acc| <= k < |t.items| ensures Kept(t.items[k]) {
          if k < |s.items| {
            assert t.items[k] == t.items[..|s.items|][k] == s.items[k];
          }
        }
      }
    }
  }

  /** Every item of the table stage has a description and a non-zero total
      or quantity. */
  lemma {:induction false} PagesScanKept(pages: seq<Page>, toFloat: FloatParser, acc: seq<LineItem>)
    ensures var s := PagesScan(pages, toFloat, acc);
      |acc| <= |s.items| && s.items[..|acc|] == acc
      && forall k :: |acc| <= k < |s.items| ==> Kept(s.items[k])
    decreases |pages|
  {
    if pages != [] {
      var s := TablesScan(pages[0].tables, toFloat, acc);
      TablesScanKept(pages[0].tables, toFloat, acc);
      if !s.aborted {
        PagesScanKept(pages[1..], toFloat, s.items);
        var t := PagesScan(pages[1..], toFloat, s.items);
        assert t.items[..|acc|] == t.items[..|s.items|][..|acc|];
        forall k | |acc| <= k < |t.items| ensures Kept(t.items[k]) {
          if k < |s.items| {
            assert t.items[k] == t.items[..|s.items|][k] == s.items[k];
          }
        }
      }
    }
  }

  // ----------------------------------------------------------------------
  // The text fallback
  // ----------------------------------------------------------------------

  /** The end of the run of non-whitespace characters starting at `i`. */
  function TokenEnd(s: string, i: nat): (r: nat)
    requires i <= |s|
    ensures i <= r <= |s|
    ensures forall k :: i <= k < r ==> !IsSpace(s[k])
    ensures r < |s| ==> IsSpace(s[r])
    decreases |s| - i
  {
    if i < |s| && !IsSpace(s[i]) then TokenEnd(s, i + 1) else i
  }

  /** The start of the run of non-whitespace characters ending at `j`. */
  function TokenStart(s: string, j: nat): (r: nat)
    requires j <= |s|
    ensures r <= j
    ensures forall k :: r <= k < j ==> !IsSpace(s[k])
    ensures r > 0 ==> IsSpace(s[r - 1])
  {
    if j > 0 && !IsSpace(s[j - 1]) then TokenStart(s, j - 1) else j
  }

  /** The start of the run of whitespace ending at `j`. */
  function SpaceStart(s: string, j: nat): (r: nat)
    requires j <= |s|
    ensures r <= j
    ensures forall k :: r <= k < j ==> IsSpace(s[k])
    ensures r > 0 ==> !IsSpace(s[r - 1])
  {
    if j > 0 && IsSpace(s[j - 1]) then SpaceStart(s, j - 1) else j
  }

  /** `\d+(?:\.\d+)?` matches all of `t`. */
  predicate IsQuantityText(t: string) {
    match IndexOf(t, '.')
    case None => t != [] && AllDigits(t)
    case Some(k) => 0 < k < |t| - 1 && AllDigits(t[..k]) && AllDigits(t[k + 1..])
  }

  /** `\d+\.\d{2}` matches all of `t`. */
  predicate IsMoneyText(t: string) {
    |t| >= 4 && t[|t| - 3] == '.' && AllDigits(t[..|t| - 3]) && AllDigits(t[|t| - 2..])
  }

  /** The groups of `^(\d+(?:\.\d+)?)\s+(.+?)\s+(\d+\.\d{2})\s+(\d+\.\d{2})$`
      in a line: the first token is the quantity, the last two the price and
      the total, and the description runs from the second token to the end
      of the third-to-last. With only three tokens the lazy description can
      only be the whitespace character two before the price, when the gap
      after the quantity is three characters or more. */
  function FallbackMatch(line: string): (r: Option<(string, string, string, string)>)
    ensures r.Some? ==> IsQuantityText(r.value.0) && IsMoneyText(r.value.2) && IsMoneyText(r.value.3)
  {
    var tStart := TokenStart(line, |line|);
    var g2 := SpaceStart(line, tStart);
    var pStart := TokenStart(line, g2);
    GroupsAt(line, TokenEnd(line, 0), SpaceStart(line, pStart), pStart, g2, tStart)
  }

  /** The groups, given the end of the first token, the whitespace and the
      token before the last gap, and the start of the last token. */
  function GroupsAt(line: string, qEnd: nat, g3: nat, pStart: nat, g2: nat, tStart: nat): (r: Option<(string, string, string, string)>)
    requires qEnd <= |line| && g3 <= pStart <= g2 <= tStart <= |line|
    requires 0 < g3 ==> !IsSpace(line[g3 - 1])
    ensures r.Some? ==> IsQuantityText(r.value.0) && IsMoneyText(r.value.2) && IsMoneyText(r.value.3)
  {
    if qEnd == 0 || tStart == |line| || g2 == tStart || pStart == g2 || g3 == pStart || g3 < qEnd then None
    else
      var qty, price, total := line[..qEnd], line[pStart..g2], line[tStart..];
      if !IsQuantityText(qty) || !IsMoneyText(price) || !IsMoneyText(total) then None
      else if qEnd < g3 then Some((qty, line[SkipSpaces(line, qEnd)..g3], price, total))
      else if pStart - qEnd >= 3 then Some((qty, [line[pStart - 2]], price, total))
      else None
  }

  /** The item read from one line of the layout text, if any. Lines whose
      description has no space and fewer than three characters are passed
      over. */
  function FallbackItem(line: string): seq<LineItem> {
    var l := Strip(line);
    if l == [] then []
    else match FallbackMatch(l)
      case None => []
      case Some(m) =>
        var desc := m.1;
        if ' ' !in desc && |desc| < 3 then [] else [GroupsItem(m)]
  }

  /** The item built from the four groups: every amount is read, and the
      description has no surrounding whitespace. */
  function GroupsItem(m: (string, string, string, string)): (it: LineItem)
    requires IsQuantityText(m.0) && IsMoneyText(m.2) && IsMoneyText(m.3)
    ensures Complete(it)
  {
    QuantityChars(m.0);
    MoneyChars(m.2);
    MoneyChars(m.3);
    StripShape(m.1);
    LineItem(Some(Strip(m.1)), Amounts.DecimalOf(m.0), Amounts.DecimalOf(m.2), Amounts.DecimalOf(m.3), None)
  }

  function FallbackItems(lines: seq<string>): seq<LineItem> {
    if lines == [] then [] else FallbackItem(lines[0]) + FallbackItems(lines[1..])
  }

  /** `full_text`: every page's layout text followed by a line break. */
  function FullText(pages: seq<Page>): string {
    if pages == [] then [] else FullText(pages[..|pages| - 1]) + pages[|pages| - 1].layoutText + "\n"
  }

  /** What `_extract_line_items` returns: the table items; when the tables
      give none and nothing went wrong, the items of the layout text. */
  function LineItemsOf(pages: seq<Page>, toFloat: FloatParser): seq<LineItem> {
    var s := PagesScan(pages, toFloat, []);
    if s.aborted || s.items != [] then s.items
    else FallbackItems(Split(FullText(pages), '\n'))
  }

  /** The items come from the tables, each kept by the row filter, unless
      the tables gave none and raised nothing; then they come from the
      layout text, each complete. */
  lemma LineItemsSource(pages: seq<Page>, toFloat: FloatParser)
    ensures var s := PagesScan(pages, toFloat, []);
      s.aborted || s.items != [] ==> forall it :: it in LineItemsOf(pages, toFloat) ==> Kept(it)
    ensures var s := PagesScan(pages, toFloat, []);
      !s.aborted && s.items == [] ==> forall it :: it in LineItemsOf(pages, toFloat) ==> Complete(it)
  {
    var s := PagesScan(pages, toFloat, []);
    PagesScanKept(pages, toFloat, []);
    if s.aborted || s.items != [] {
      forall it | it in s.items ensures Kept(it) {
        var k :| 0 <= k < |s.items| && s.items[k] == it;
      }
    } else {
      FallbackItemsComplete(Split(FullText(pages), '\n'));
    }
  }

  /** A well-formed line reads back as the four parts it was written from:
      quantity, description, price and total separated by single spaces. */
  lemma FallbackRoundTrip(q: string, d: string, p: string, t: string)
    requires IsQuantityText(q) && IsMoneyText(p) && IsMoneyText(t)
    requires d != [] && !IsSpace(d[0]) && !IsSpace(d[|d| - 1])
    ensures FallbackMatch(q + " " + d + " " + p + " " + t) == Some((q, d, p, t))
  {
    LinePieces(q, d, p, t);
    MatchPieces(q + " " + d + " " + p + " " + t, q, d, p, t);
  }

  /** Such a line gives one item, with the description as written, when
      the description has a space or three characters or more. */
  lemma FallbackItemRoundTrip(q: string, d: string, p: string, t: string)
    requires IsQuantityText(q) && IsMoneyText(p) && IsMoneyText(t)
    requires d != [] && IsStripped(d) && (' ' in d || |d| >= 3)
    ensures var items := FallbackItem(q + " " + d + " " + p + " " + t);
      items == [GroupsItem((q, d, p, t))] && items[0].description == Some(d)
  {
    var line := q + " " + d + " " + p + " " + t;
    FallbackRoundTrip(q, d, p, t);
    LineEnds(line, q, t);
    ItemOfMatch(line, (q, d, p, t));
    StripStripped(d);
  }

  /** A line that starts with `q` and ends with `t` is stripped. */
  lemma LineEnds(line: string, q: string, t: string)
    requires IsQuantityText(q) && IsMoneyText(t)
    requires |q| + |t| <= |line| && line[..|q|] == q && line[|line| - |t|..] == t
    ensures line != [] && IsStripped(line)
  {
    QuantityChars(q);
    MoneyChars(t);
    assert line[0] == q[0];
    assert line[|line| - 1] == t[|t| - 1];
  }

  /** A stripped line whose match passes the description filter gives the
      item of its groups. */
  lemma ItemOfMatch(line: string, m: (string, string, string, string))
    requires line != [] && IsStripped(line) && FallbackMatch(line) == Some(m)
    requires ' ' in m.1 || |m.1| >= 3
    ensures FallbackItem(line) == [GroupsItem(m)]
  {
    StripStripped(line);
  }

  /** A line of three tokens with three spaces after the quantity matches,
      its description being the middle space, and gives an item with an
      empty description: the filter on short descriptions lets a single
      space through. */
  lemma SpaceDescriptionQuirk(q: string, p: string, t: string)
    requires IsQuantityText(q) && IsMoneyText(p) && IsMoneyText(t)
    ensures var items := FallbackItem(q + "   " + p + " " + t);
      items == [GroupsItem((q, " ", p, t))] && items[0].description == Some([])
  {
    var line := q + "   " + p + " " + t;
    QuirkLinePieces(q, p, t);
    QuirkPieces(line, q, p, t);
    LineEnds(line, q, t);
    ItemOfMatch(line, (q, " ", p, t));
    SpaceStripsAway();
  }

  /** Where the pieces of `q   p t` sit in the line. */
  lemma QuirkLinePieces(q: string, p: string, t: string)
    ensures var line, b := q + "   " + p + " " + t, |q| + 3;
      |line| == b + |p| + 1 + |t| && line[..|q|] == q && line[b..b + |p|] == p && line[b + |p| + 1..] == t
      && line[|q|] == ' ' && line[|q| + 1] == ' ' && line[b - 1] == ' ' && line[b + |p|] == ' '
      && line[|line| - |t|..] == t
  {
  }

  /** A lone space strips to nothing. */
  lemma SpaceStripsAway()
    ensures Strip(" ") == []
  {
    assert IsSpace(' ');
  }

  lemma QuirkPieces(line: string, q: string, p: string, t: string)
    requires IsQuantityText(q) && IsMoneyText(p) && IsMoneyText(t)
    requires var b := |q| + 3;
      |line| == b + |p| + 1 + |t| && line[..|q|] == q && line[b..b + |p|] == p && line[b + |p| + 1..] == t
      && line[|q|] == ' ' && line[|q| + 1] == ' ' && line[b - 1] == ' ' && line[b + |p|] == ' '
    ensures FallbackMatch(line) == Some((q, " ", p, t))
  {
    var b := |q| + 3;
    QuantityCut(line, q);
    MoneyCuts(line, p, b);
    LastCut(line, t, b + |p| + 1);
    SpaceStartIs(line, b, |q|);
    QuirkGroups(line, q, p, t);
    MatchAt(line, |q|, |q|, b, b + |p|, b + |p| + 1, (q, " ", p, t));
  }

  /** `FallbackMatch` at the cuts its scanners find. */
  lemma MatchAt(line: string, qEnd: nat, g3: nat, pStart: nat, g2: nat, tStart: nat, m: (string, string, string, string))
    requires tStart <= |line| && TokenStart(line, |line|) == tStart && SpaceStart(line, tStart) == g2
    requires TokenStart(line, g2) == pStart && SpaceStart(line, pStart) == g3 && TokenEnd(line, 0) == qEnd
    requires GroupsAt(line, qEnd, g3, pStart, g2, tStart) == Some(m)
    ensures FallbackMatch(line) == Some(m)
  {
  }

  lemma QuirkGroups(line: string, q: string, p: string, t: string)
    requires IsQuantityText(q) && IsMoneyText(p) && IsMoneyText(t) && q != []
    requires var b := |q| + 3;
      |line| == b + |p| + 1 + |t| && line[..|q|] == q && line[b..b + |p|] == p && line[b + |p| + 1..] == t
      && line[|q| + 1] == ' ' && !IsSpace(line[|q| - 1])
    ensures var b := |q| + 3;
      GroupsAt(line, |q|, |q|, b, b + |p|, b + |p| + 1) == Some((q, " ", p, t))
  {
  }

  /** The same, for a line given by where its pieces sit. */
  lemma MatchPieces(line: string, q: string, d: string, p: string, t: string)
    requires IsQuantityText(q) && IsMoneyText(p) && IsMoneyText(t)
    requires d != [] && !IsSpace(d[0]) && !IsSpace(d[|d| - 1])
    requires var a := |q| + 1;
      var b := a + |d| + 1;
      var c := b + |p| + 1;
      |line| == c + |t| && line[..|q|] == q && line[|q|] == ' ' && line[a..a + |d|] == d
      && line[a + |d|] == ' ' && line[b..b + |p|] == p && line[b + |p|] == ' ' && line[c..] == t
    ensures FallbackMatch(line) == Some((q, d, p, t))
  {
    var a := |q| + 1;
    var b := a + |d| + 1;
    var c := b + |p| + 1;
    PiecesCuts(line, q, d, p, t, a, b, c);
    GroupsAtPieces(line, q, d, p, t, a, b, c);
    MatchAt(line, |q|, b - 1, b, b + |p|, c, (q, d, p, t));
  }

  /** The cuts the scanners find in such a line. */
  lemma PiecesCuts(line: string, q: string, d: string, p: string, t: string, a: nat, b: nat, c: nat)
    requires IsQuantityText(q) && IsMoneyText(p) && IsMoneyText(t)
    requires d != [] && !IsSpace(d[0]) && !IsSpace(d[|d| - 1])
    requires a == |q| + 1 && b == a + |d| + 1 && c == b + |p| + 1
    requires |line| == c + |t| && line[..|q|] == q && line[|q|] == ' ' && line[a..a + |d|] == d
      && line[a + |d|] == ' ' && line[b..b + |p|] == p && line[b + |p|] == ' ' && line[c..] == t
    ensures TokenStart(line, |line|) == c && SpaceStart(line, c) == b + |p|
    ensures TokenStart(line, b + |p|) == b && SpaceStart(line, b) == b - 1 && TokenEnd(line, 0) == |q|
    ensures SkipSpaces(line, a - 1) == a && !IsSpace(line[a + |d| - 1])
  {
    QuantityCut(line, q);
    MoneyCuts(line, p, b);
    LastCut(line, t, c);
    DescriptionCut(line, d, a);
  }

  lemma GroupsAtPieces(line: string, q: string, d: string, p: string, t: string, a: nat, b: nat, c: nat)
    requires IsQuantityText(q) && IsMoneyText(p) && IsMoneyText(t) && d != []
    requires a == |q| + 1 && b == a + |d| + 1 && c == b + |p| + 1
    requires |line| == c + |t| && line[..|q|] == q && line[a..a + |d|] == d && line[b..b + |p|] == p
      && line[c..] == t && SkipSpaces(line, a - 1) == a && !IsSpace(line[a + |d| - 1])
    ensures GroupsAt(line, |q|, b - 1, b, b + |p|, c) == Some((q, d, p, t))
  {
  }

  lemma QuantityCut(line: string, q: string)
    requires IsQuantityText(q) && |q| < |line| && line[..|q|] == q && line[|q|] == ' '
    ensures TokenEnd(line, 0) == |q|
    ensures q != [] && !IsSpace(line[|q| - 1])
  {
    QuantityChars(q);
    PieceNoSpace(line, 0, q);
    TokenEndIs(line, 0, |q|);
  }

  lemma LastCut(line: string, t: string, c: nat)
    requires IsMoneyText(t) && 0 < c <= |line| && line[c..] == t && line[c - 1] == ' '
    ensures TokenStart(line, |line|) == c
  {
    MoneyChars(t);
    assert line[c..c + |t|] == t;
    PieceNoSpace(line, c, t);
    TokenStartIs(line, |line|, c);
  }

  lemma MoneyCuts(line: string, p: string, b: nat)
    requires IsMoneyText(p) && 0 < b && b + |p| < |line| && line[b..b + |p|] == p
    requires line[b - 1] == ' ' && line[b + |p|] == ' '
    ensures SpaceStart(line, b + |p| + 1) == b + |p| && TokenStart(line, b + |p|) == b
  {
    MoneyChars(p);
    PieceNoSpace(line, b, p);
    SpaceStartIs(line, b + |p| + 1, b + |p|);
    TokenStartIs(line, b + |p|, b);
  }

  lemma DescriptionCut(line: string, d: string, a: nat)
    requires d != [] && !IsSpace(d[0]) && !IsSpace(d[|d| - 1])
    requires 0 < a && a + |d| < |line| && line[a..a + |d|] == d
    requires line[a - 1] == ' ' && line[a + |d|] == ' '
    ensures SpaceStart(line, a + |d| + 1) == a + |d| && SkipSpaces(line, a - 1) == a
    ensures !IsSpace(line[a + |d| - 1])
  {
    assert line[a + |d| - 1] == d[|d| - 1];
    SpaceStartIs(line, a + |d| + 1, a + |d|);
    assert line[a] == d[0];
    SkipSpacesIs(line, a - 1, a);
  }

  /** Where the pieces of `q d p t` sit in the line. */
  lemma LinePieces(q: string, d: string, p: string, t: string)
    ensures var line, a := q + " " + d + " " + p + " " + t, |q| + 1;
      var b := a + |d| + 1;
      var c := b + |p| + 1;
      |line| == c + |t| && line[..|q|] == q && line[|q|] == ' ' && line[a..a + |d|] == d
      && line[a + |d|] == ' ' && line[b..b + |p|] == p && line[b + |p|] == ' ' && line[c..] == t
  {
  }

  lemma PieceNoSpace(s: string, lo: nat, w: string)
    requires lo + |w| <= |s| && s[lo..lo + |w|] == w
    requires forall k :: 0 <= k < |w| ==> Amounts.IsNumberChar(w[k])
    ensures forall k :: lo <= k < lo + |w| ==> !IsSpace(s[k])
  {
    forall k | lo <= k < lo + |w| ensures !IsSpace(s[k]) {
      assert s[k] == w[k - lo];
    }
  }

  lemma TokenEndIs(s: string, i: nat, e: nat)
    requires i <= e <= |s|
    requires forall k :: i <= k < e ==> !IsSpace(s[k])
    requires e < |s| ==> IsSpace(s[e])
    ensures TokenEnd(s, i) == e
  {
  }

  lemma TokenStartIs(s: string, j: nat, b: nat)
    requires b <= j <= |s|
    requires forall k :: b <= k < j ==> !IsSpace(s[k])
    requires b > 0 ==> IsSpace(s[b - 1])
    ensures TokenStart(s, j) == b
  {
  }

  lemma SpaceStartIs(s: string, j: nat, b: nat)
    requires b <= j <= |s|
    requires forall k :: b <= k < j ==> IsSpace(s[k])
    requires b > 0 ==> !IsSpace(s[b - 1])
    ensures SpaceStart(s, j) == b
  {
  }

  lemma SkipSpacesIs(s: string, i: nat, e: nat)
    requires i <= e <= |s|
    requires forall k :: i <= k < e ==> IsSpace(s[k])
    requires e < |s| ==> !IsSpace(s[e])
    ensures SkipSpaces(s, i) == e
  {
  }

  /** The quantity group is a number `Decimal` reads. */
  lemma QuantityChars(q: string)
    requires IsQuantityText(q)
    ensures forall k :: 0 <= k < |q| ==> Amounts.IsNumberChar(q[k])
    ensures Amounts.DecimalOf(q).Some?
  {
    match IndexOf(q, '.')
    case None =>
    case Some(i) =>
      forall k | 0 <= k < |q| ensures Amounts.IsNumberChar(q[k]) {
        if k < i { assert q[k] == q[..i][k]; }
        else if k > i { assert q[k] == q[i + 1..][k - i - 1]; }
      }
      var frac := q[i + 1..];
      assert '.' !in frac by {
        forall k | 0 <= k < |frac| ensures frac[k] != '.' {
          assert IsDigit(frac[k]);
        }
      }
  }

  /** The price and total groups are numbers `Decimal` reads. */
  lemma MoneyChars(p: string)
    requires IsMoneyText(p)
    ensures forall k :: 0 <= k < |p| ==> Amounts.IsNumberChar(p[k])
    ensures Amounts.DecimalOf(p).Some?
  {
    var i := |p| - 3;
    forall k | 0 <= k < |p| ensures Amounts.IsNumberChar(p[k]) {
      if k < i { assert p[k] == p[..i][k]; }
      else if k > i { assert p[k] == p[|p| - 2..][k - i - 1]; }
    }
    assert p == p[..i] + ['.'] + p[i + 1..];
    assert '.' !in p[..i] by {
      forall k | 0 <= k < i ensures p[..i][k] != '.' {
        assert IsDigit(p[..i][k]);
      }
    }
    IndexOfAfterFree(p[..i], '.', p[i + 1..]);
    var frac := p[i + 1..];
    assert frac == p[|p| - 2..];
    assert '.' !in frac by {
      forall k | 0 <= k < 2 ensures frac[k] != '.' {
        assert IsDigit(frac[k]);
      }
    }
  }

  /** What the fallback reads from one line is complete: a stripped
      description and all three amounts, and the schema accepts it. */
  predicate Complete(it: LineItem) {
    it.description.Some? && IsStripped(it.description.value)
    && it.quantity.Some? && it.unitPrice.Some? && it.lineTotal.Some?
    && LineItemValid(it)
  }

  lemma FallbackItemComplete(line: string)
    ensures forall it :: it in FallbackItem(line) ==> Complete(it)
  {
    var l := Strip(line);
    if l != [] && FallbackMatch(l).Some? {
      var m := FallbackMatch(l).value;
      if !(' ' !in m.1 && |m.1| < 3) {
        assert FallbackItem(line) == [GroupsItem(m)];
      }
    }
  }

  /** Every item of the text fallback has a stripped description and all
      three amounts, and the schema accepts it. */
  lemma {:induction false} FallbackItemsComplete(lines: seq<string>)
    ensures forall it :: it in FallbackItems(lines) ==> Complete(it)
  {
    if lines != [] {
      FallbackItemComplete(lines[0]);
      FallbackItemsComplete(lines[1..]);
      assert FallbackItems(lines) == FallbackItem(lines[0]) + FallbackItems(lines[1..]);
    }
  }

  // ----------------------------------------------------------------------
  // The methods
  // ----------------------------------------------------------------------

  /** `_extract_line_items`: the table stage, then, when it found nothing
      and raised nothing, the text stage. */
  method ExtractLineItems(pages: seq<Page>, toFloat: FloatParser) returns (items: seq<LineItem>)
    ensures items == LineItemsOf(pages, toFloat)
  {
    var s := ScanPages(pages, toFloat);
    if s.aborted || s.items != [] {
      return s.items;
    }
    var fullText: string := [];
    for i := 0 to |pages|
      invariant fullText == FullText(pages[..i])
    {
      assert pages[..i + 1][..i] == pages[..i];
      fullText := fullText + pages[i].layoutText + "\n";
    }
    assert pages[..|pages|] == pages;
    items := ReadLines(Split(fullText, '\n'));
  }

  /** The loop over the pages; an abort ends it. */
  method ScanPages(pages: seq<Page>, toFloat: FloatParser) returns (s: Scan)
    ensures s == PagesScan(pages, toFloat, [])
  {
    var items: seq<LineItem> := [];
    var i := 0;
    while i < |pages|
      invariant 0 <= i <= |pages|
      invariant PagesScan(pages[i..], toFloat, items) == PagesScan(pages, toFloat, [])
    {
      assert pages[i..][0] == pages[i] && pages[i..][1..] == pages[i + 1..];
      var t := ScanTables(pages[i].tables, toFloat, items);
      if t.aborted {
        return t;
      }
      items := t.items;
      i := i + 1;
    }
    return Scan(items, false);
  }

  /** The loop over the tables of one page; an abort ends it. */
  method ScanTables(tables: seq<Table>, toFloat: FloatParser, acc: seq<LineItem>) returns (s: Scan)
    ensures s == TablesScan(tables, toFloat, acc)
  {
    var items := acc;
    var j := 0;
    while j < |tables|
      invariant 0 <= j <= |tables|
      invariant TablesScan(tables[j..], toFloat, items) == TablesScan(tables, toFloat, acc)
    {
      assert tables[j..][0] == tables[j] && tables[j..][1..] == tables[j + 1..];
      var t := ScanTable(tables[j], toFloat, items);
      if t.aborted {
        return t;
      }
      items := t.items;
      j := j + 1;
    }
    return Scan(items, false);
  }

  /** One table: its header, then its rows. */
  method ScanTable(table: Table, toFloat: FloatParser, acc: seq<LineItem>) returns (s: Scan)
    ensures s == TableScan(table, toFloat, acc)
  {
    if |table| < 2 {
      return Scan(acc, false);
    }
    var header := table[0];
    var desc := FindColumnIndex(header, DescriptionWords);
    var qty := FindColumnIndex(header, QuantityWords);
    var price := FindColumnIndex(header, PriceWords);
    var total := FindColumnIndex(header, TotalWords);
    if desc.None? {
      return Scan(acc, false);
    }
    s := ScanRows(table[1..], Columns(desc.value, qty, price, total), toFloat, acc);
  }

  /** The rows after the header, in order. */
  method ScanRows(rows: seq<Row>, cols: Columns, toFloat: FloatParser, acc: seq<LineItem>) returns (s: Scan)
    ensures s == RowsScan(rows, cols, toFloat, acc)
  {
    var items := acc;
    var k := 0;
    while k < |rows|
      invariant 0 <= k <= |rows|
      invariant RowsScan(rows[k..], cols, toFloat, items) == RowsScan(rows, cols, toFloat, acc)
    {
      assert rows[k..][0] == rows[k] && rows[k..][1..] == rows[k + 1..];
      var r := RowItem(rows[k], cols, toFloat);
      if r.AbortScan? {
        return Scan(items, true);
      }
      if r.KeepItem? {
        items := items + [r.item];
      }
      k := k + 1;
    }
    return Scan(items, false);
  }

  /** The loop over the lines of the layout text. */
  method ReadLines(lines: seq<string>) returns (items: seq<LineItem>)
    ensures items == FallbackItems(lines)
  {
    items := [];
    var i := 0;
    while i < |lines|
      invariant 0 <= i <= |lines|
      invariant items + FallbackItems(lines[i..]) == FallbackItems(lines)
    {
      ReadLinesStep(items, lines, i);
      items := items + FallbackItem(lines[i]);
      i := i + 1;
    }
  }

  /** One step of the line loop: the items of line `i` join those found so
      far. */
  lemma ReadLinesStep(items: seq<LineItem>, lines: seq<string>, i: nat)
    requires i < |lines|
    ensures items + FallbackItems(lines[i..]) == (items + FallbackItem(lines[i])) + FallbackItems(lines[i + 1..])
  {
    assert lines[i..][0] == lines[i] && lines[i..][1..] == lines[i + 1..];
    assert FallbackItems(lines[i..]) == FallbackItem(lines[i]) + FallbackItems(lines[i + 1..]);
  }
}
