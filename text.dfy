/**
 * The Python `str` operations that the extractor and the validator rely on,
 * written over `string` (= `seq<char>`): whitespace as `str.isspace()` sees it,
 * `strip`, ASCII case mapping, substring search, `split`/`join`, `find` and
 * slicing with Python's index rules.
 */
module Text {
  import opened Wrappers

  // ----------------------------------------------------------------------
  // Character classes
  // ----------------------------------------------------------------------

  /** The characters for which Python's `str.isspace()` holds. They are also
      what `str.strip()` removes and what `\s` matches in a `str` pattern. */
  predicate IsSpace(c: char) {
    ('\t' <= c <= '\r') || ('\U{1C}' <= c <= ' ') || c == '\U{85}' || c == '\U{A0}'
    || c == '\U{1680}' || ('\U{2000}' <= c <= '\U{200A}') || c == '\U{2028}'
    || c == '\U{2029}' || c == '\U{202F}' || c == '\U{205F}' || c == '\U{3000}'
  }

  predicate IsDigit(c: char) {
    '0' <= c <= '9'
  }

  function DigitValue(c: char): (n: nat)
    requires IsDigit(c)
    ensures n < 10
  {
    c as int - '0' as int
  }

  function DigitChar(n: nat): (c: char)
    requires n < 10
    ensures IsDigit(c) && DigitValue(c) == n
  {
    (n + '0' as int) as char
  }

  predicate AllDigits(s: string) {
    forall i :: 0 <= i < |s| ==> IsDigit(s[i])
  }

  /** The value of a run of decimal digits, most significant first (empty is 0). */
  function DigitsValue(s: string): nat
    requires AllDigits(s)
  {
    if s == [] then 0 else 10 * DigitsValue(s[..|s| - 1]) + DigitValue(s[|s| - 1])
  }

  /** Word characters of `\w`/`\b`, restricted to ASCII. */
  predicate IsWordChar(c: char) {
    ('a' <= c <= 'z') || ('A' <= c <= 'Z') || IsDigit(c) || c == '_'
  }

  /** `\b` at position `i`: exactly one of the neighbours is a word character. */
  predicate IsBoundary(s: string, i: int)
    requires 0 <= i <= |s|
  {
    (i > 0 && IsWordChar(s[i - 1])) != (i < |s| && IsWordChar(s[i]))
  }

  // ----------------------------------------------------------------------
  // Case (ASCII letters only)
  // ----------------------------------------------------------------------

  function LowerChar(c: char): char {
    if 'A' <= c <= 'Z' then (c as int + 32) as char else c
  }

  function UpperChar(c: char): char {
    if 'a' <= c <= 'z' then (c as int - 32) as char else c
  }

  /** `s.lower()` */
  function Lower(s: string): (r: string)
    ensures |r| == |s|
  {
    seq(|s|, i requires 0 <= i < |s| => LowerChar(s[i]))
  }

  /** `s.upper()` */
  function Upper(s: string): (r: string)
    ensures |r| == |s|
  {
    seq(|s|, i requires 0 <= i < |s| => UpperChar(s[i]))
  }

  /** `p` occurs at position `i` of `s`, letters compared without case
      (a literal under `re.IGNORECASE`). */
  predicate MatchesAt(s: string, i: int, p: string) {
    0 <= i && i + |p| <= |s| && Lower(s[i..i + |p|]) == Lower(p)
  }

  predicate EqualsIgnoreCase(a: string, b: string) {
    |a| == |b| && MatchesAt(a, 0, b)
  }

  /** `re.search(p, s, re.IGNORECASE)` for a literal `p`. */
  predicate ContainsIgnoreCase(s: string, p: string) {
    exists i :: 0 <= i <= |s| && MatchesAt(s, i, p)
  }

  /** A word of `ws` occurs at position `i` of `s`, ignoring case: an
      alternation of literals anchored at `i`. */
  predicate AnyMatchesAt(s: string, i: int, ws: seq<string>) {
    exists k :: 0 <= k < |ws| && MatchesAt(s, i, ws[k])
  }

  /** `s` equals a word of `ws`, ignoring case. */
  predicate AnyEqualsIgnoreCase(s: string, ws: seq<string>) {
    exists k :: 0 <= k < |ws| && EqualsIgnoreCase(s, ws[k])
  }

  /** A word of `ws` occurs somewhere in `s`, ignoring case. */
  predicate AnyContainedIgnoreCase(s: string, ws: seq<string>) {
    exists k :: 0 <= k < |ws| && ContainsIgnoreCase(s, ws[k])
  }

  /** No word longer than `s` occurs in it. */
  lemma ShortContainsNone(s: string, ws: seq<string>)
    requires forall k :: 0 <= k < |ws| ==> |s| < |ws[k]|
    ensures !AnyContainedIgnoreCase(s, ws)
  {
  }

  /** The first `f(i)` that is present, for `from <= i < n`: a pattern
      searched left to right through a text of length `n`. */
  function Leftmost<T>(n: nat, from: nat, f: nat -> Option<T>): Option<T>
    decreases n - from
  {
    if from >= n then None
    else match f(from)
      case Some(e) => Some(e)
      case None => Leftmost(n, from + 1, f)
  }

  /** The search yields the value at a position before which nothing is
      present, and yields nothing only when nothing is present anywhere. */
  lemma {:induction false} LeftmostLeast<T>(n: nat, from: nat, f: nat -> Option<T>)
    ensures Leftmost(n, from, f).None? <==> forall i :: from <= i < n ==> f(i).None?
    ensures Leftmost(n, from, f).Some? ==>
      exists i :: from <= i < n && f(i) == Leftmost(n, from, f)
                  && forall j :: from <= j < i ==> f(j).None?
    decreases n - from
  {
    if from < n && f(from).None? {
      LeftmostLeast(n, from + 1, f);
      if Leftmost(n, from, f).Some? {
        var i :| from + 1 <= i < n && f(i) == Leftmost(n, from, f)
                 && forall j :: from + 1 <= j < i ==> f(j).None?;
        assert forall j :: from <= j < i ==> f(j).None?;
      }
    }
  }

  /** What `re.finditer` yields last, scanning from `i` with `f` giving the
      end and the group of a match at each position: after a match the scan
      resumes at its end, elsewhere one position later. */
  function LastMatch<T>(n: nat, i: nat, f: nat -> Option<(nat, T)>, last: Option<T>): Option<T>
    requires forall p: nat :: f(p).Some? ==> p < f(p).value.0
    decreases n - i
  {
    if i >= n then last
    else match f(i)
      case Some(m) => LastMatch(n, m.0, f, Some(m.1))
      case None => LastMatch(n, i + 1, f, last)
  }

  /** The scan yields nothing exactly when nothing was found before and
      nothing matches from `i` on. */
  lemma {:induction false} LastMatchNone<T>(n: nat, i: nat, f: nat -> Option<(nat, T)>, last: Option<T>)
    requires forall p: nat :: f(p).Some? ==> p < f(p).value.0
    ensures LastMatch(n, i, f, last).None? <==> last.None? && forall p :: i <= p < n ==> f(p).None?
    decreases n - i
  {
    if i < n {
      match f(i)
      case Some(m) =>
        LastMatchNone(n, m.0, f, Some(m.1));
      case None =>
        LastMatchNone(n, i + 1, f, last);
    }
  }

  /** What the scan yields is the previous result, when nothing matches from
      `i` on, or the group of a match that no later match follows: none
      starts at or after its end. */
  lemma {:induction false} LastMatchIsLast<T>(n: nat, i: nat, f: nat -> Option<(nat, T)>, last: Option<T>)
    requires forall p: nat :: f(p).Some? ==> p < f(p).value.0
    ensures (LastMatch(n, i, f, last) == last && forall p :: i <= p < n ==> f(p).None?)
      || exists p :: i <= p < n && f(p).Some? && Some(f(p).value.1) == LastMatch(n, i, f, last)
                     && forall q :: f(p).value.0 <= q < n ==> f(q).None?
    decreases n - i
  {
    if i < n {
      match f(i)
      case Some(m) =>
        LastMatchIsLast(n, m.0, f, Some(m.1));
        if LastMatch(n, i, f, last) == Some(m.1) && forall p :: m.0 <= p < n ==> f(p).None? {
          assert f(i).value.0 == m.0;
        }
      case None =>
        LastMatchIsLast(n, i + 1, f, last);
    }
  }

  /** `t` occurs at position `i` of `s`. */
  predicate OccursAt(s: string, i: int, t: string) {
    0 <= i && i + |t| <= |s| && s[i..i + |t|] == t
  }

  /** Python's `t in s` for strings. */
  predicate Contains(s: string, t: string) {
    exists i :: 0 <= i <= |s| && OccursAt(s, i, t)
  }

  // ----------------------------------------------------------------------
  // strip
  // ----------------------------------------------------------------------

  /** `s.lstrip()` */
  function StripStart(s: string): (r: string)
    ensures |r| <= |s|
    ensures r == [] || !IsSpace(r[0])
  {
    if s != [] && IsSpace(s[0]) then StripStart(s[1..]) else s
  }

  /** What `lstrip` leaves is a suffix. */
  lemma {:induction false} StripStartSuffix(s: string)
    ensures StripStart(s) == s[|s| - |StripStart(s)|..]
  {
    if s != [] && IsSpace(s[0]) {
      StripStartSuffix(s[1..]);
    }
  }

  /** `s.rstrip()` */
  function StripEnd(s: string): (r: string)
    ensures |r| <= |s|
    ensures r == [] || !IsSpace(r[|r| - 1])
  {
    if s != [] && IsSpace(s[|s| - 1]) then StripEnd(s[..|s| - 1]) else s
  }

  /** What `rstrip` leaves is a prefix. */
  lemma {:induction false} StripEndPrefix(s: string)
    ensures StripEnd(s) == s[..|StripEnd(s)|]
  {
    if s != [] && IsSpace(s[|s| - 1]) {
      StripEndPrefix(s[..|s| - 1]);
    }
  }

  /** `s.strip()` */
  function Strip(s: string): string {
    StripEnd(StripStart(s))
  }

  /** `s.strip(chars)`: both ends lose every character listed in `chars`. */
  function StripChars(s: string, chars: seq<char>): (r: string)
    ensures |r| <= |s|
    ensures r == [] || (r[0] !in chars && r[|r| - 1] !in chars)
  {
    if s == [] then s
    else if s[0] in chars then StripChars(s[1..], chars)
    else if s[|s| - 1] in chars then StripChars(s[..|s| - 1], chars)
    else s
  }

  /** Neither end of `s` is whitespace. */
  predicate IsStripped(s: string) {
    s == [] || (!IsSpace(s[0]) && !IsSpace(s[|s| - 1]))
  }

  lemma StripShape(s: string)
    ensures IsStripped(Strip(s))
    ensures exists i, j :: 0 <= i <= j <= |s| && Strip(s) == s[i..j]
  {
    var l := StripStart(s);
    var r := StripEnd(l);
    StripStartSuffix(s);
    StripEndPrefix(l);
    var i := |s| - |l|;
    var j := i + |r|;
    assert l == s[i..];
    assert r == s[i..j];
  }

  /** Every character of `s` is whitespace. */
  predicate AllSpace(s: string) {
    s == [] || (IsSpace(s[0]) && AllSpace(s[1..]))
  }

  lemma {:induction false} AllSpaceAt(s: string)
    ensures AllSpace(s) <==> forall i :: 0 <= i < |s| ==> IsSpace(s[i])
  {
    if s != [] {
      AllSpaceAt(s[1..]);
      assert forall i :: 1 <= i < |s| ==> s[1..][i - 1] == s[i];
    }
  }

  /** `s.strip()` is empty exactly when `s` is all whitespace: the test the
      validator uses for a blank name or number. */
  lemma StripEmptyIff(s: string)
    ensures Strip(s) == [] <==> AllSpace(s)
  {
    StripStartAllSpace(s);
    if StripStart(s) != [] {
      StripEndKeepsFirst(StripStart(s));
    }
  }

  /** A string that starts with a non-space keeps it under `rstrip`. */
  lemma {:induction false} StripEndKeepsFirst(s: string)
    requires s != [] && !IsSpace(s[0])
    ensures StripEnd(s) != []
  {
    if IsSpace(s[|s| - 1]) {
      StripEndKeepsFirst(s[..|s| - 1]);
    }
  }

  lemma {:induction false} StripStartAllSpace(s: string)
    ensures StripStart(s) == [] <==> AllSpace(s)
  {
    if s != [] && IsSpace(s[0]) {
      StripStartAllSpace(s[1..]);
    }
  }

  /** Stripping a stripped string changes nothing. */
  lemma StripStripped(s: string)
    requires IsStripped(s)
    ensures Strip(s) == s
  {
  }

  // ----------------------------------------------------------------------
  // Character filters
  // ----------------------------------------------------------------------

  /** The characters of `s` for which `keep` holds, in order (`re.sub` of a
      negated character class with ""). */
  function Filter(s: string, keep: char -> bool): (r: string)
    ensures |r| <= |s|
    ensures forall i :: 0 <= i < |r| ==> keep(r[i])
  {
    if s == [] then [] else (if keep(s[0]) then [s[0]] else []) + Filter(s[1..], keep)
  }

  lemma {:induction false} FilterKept(s: string, keep: char -> bool)
    requires forall i :: 0 <= i < |s| ==> keep(s[i])
    ensures Filter(s, keep) == s
  {
    if s != [] {
      FilterKept(s[1..], keep);
    }
  }

  lemma {:induction false} FilterConcat(a: string, b: string, keep: char -> bool)
    ensures Filter(a + b, keep) == Filter(a, keep) + Filter(b, keep)
  {
    if a == [] {
      assert a + b == b;
    } else {
      assert (a + b)[0] == a[0] && (a + b)[1..] == a[1..] + b;
      FilterConcat(a[1..], b, keep);
    }
  }

  /** `s.replace(a, b)` for single characters. */
  function Replace(s: string, a: char, b: char): (r: string)
    ensures |r| == |s|
    ensures forall i :: 0 <= i < |s| ==> r[i] == if s[i] == a then b else s[i]
  {
    seq(|s|, i requires 0 <= i < |s| => if s[i] == a then b else s[i])
  }

  // ----------------------------------------------------------------------
  // Positions, find, slicing
  // ----------------------------------------------------------------------

  /** Index of the first `c` in `s`, if any. */
  function IndexOf(s: string, c: char): (r: Option<nat>)
    ensures r.Some? ==> r.value < |s| && s[r.value] == c && c !in s[..r.value]
    ensures r.None? ==> c !in s
  {
    if s == [] then None
    else if s[0] == c then Some(0)
    else match IndexOf(s[1..], c)
      case None => None
      case Some(i) => Some(i + 1)
  }

  /** `s.find(c, start)`: the first index at or after `start` holding `c`, or -1. */
  function Find(s: string, c: char, start: nat): (r: int)
    ensures r == -1 || (start <= r < |s| && s[r] == c)
    ensures start <= |s| && r == -1 ==> c !in s[start..]
    ensures r != -1 ==> c !in s[start..r]
  {
    if start >= |s| then -1
    else match IndexOf(s[start..], c)
      case None => -1
      case Some(k) => start + k
  }

  /** Python's rule for one slice bound: negative counts from the end, then
      clamp into `[0, n]`. */
  function ClampIndex(i: int, n: nat): (r: nat)
    ensures r <= n
    ensures 0 <= i <= n ==> r == i
  {
    if i < 0 then (if i + n < 0 then 0 else i + n) else if i > n then n else i
  }

  /** `s[i:j]` with Python's rules for negative and out-of-range bounds. */
  function Slice(s: string, i: int, j: int): (r: string)
    ensures 0 <= i <= j <= |s| ==> r == s[i..j]
    ensures |r| <= |s|
  {
    var a, b := ClampIndex(i, |s|), ClampIndex(j, |s|);
    if a < b then s[a..b] else []
  }

  /** First index at or after `i` that is not whitespace (`|s|` if none). */
  function SkipSpaces(s: string, i: nat): (r: nat)
    requires i <= |s|
    ensures i <= r <= |s|
    ensures forall k :: i <= k < r ==> IsSpace(s[k])
    ensures r < |s| ==> !IsSpace(s[r])
    decreases |s| - i
  {
    if i < |s| && IsSpace(s[i]) then SkipSpaces(s, i + 1) else i
  }

  // ----------------------------------------------------------------------
  // split / join
  // ----------------------------------------------------------------------

  /** `s.split(sep)` for a one-character separator. */
  function Split(s: string, sep: char): (parts: seq<string>)
    ensures |parts| >= 1
    ensures forall i :: 0 <= i < |parts| ==> sep !in parts[i]
    decreases |s|
  {
    match IndexOf(s, sep)
    case None => [s]
    case Some(i) => [s[..i]] + Split(s[i + 1..], sep)
  }

  /** `sep.join(parts)` */
  function Join(parts: seq<string>, sep: string): string {
    if parts == [] then []
    else if |parts| == 1 then parts[0]
    else parts[0] + sep + Join(parts[1..], sep)
  }

  /** Joining the pieces of a split with the separator gives the text back. */
  lemma {:induction false} JoinSplit(s: string, sep: char)
    ensures Join(Split(s, sep), [sep]) == s
    decreases |s|
  {
    match IndexOf(s, sep)
    case None =>
    case Some(i) =>
      var rest := Split(s[i + 1..], sep);
      JoinSplit(s[i + 1..], sep);
      JoinCons(s[..i], rest, [sep]);
      assert s == s[..i] + [sep] + s[i + 1..];
  }

  lemma JoinCons(p: string, rest: seq<string>, sep: string)
    requires rest != []
    ensures Join([p] + rest, sep) == p + sep + Join(rest, sep)
  {
    assert ([p] + rest)[1..] == rest;
  }

  /** Splitting a join of separator-free pieces gives the pieces back. */
  lemma {:induction false} SplitJoin(parts: seq<string>, sep: char)
    requires |parts| >= 1
    requires forall i :: 0 <= i < |parts| ==> sep !in parts[i]
    ensures Split(Join(parts, [sep]), sep) == parts
  {
    var s := Join(parts, [sep]);
    if |parts| == 1 {
      assert IndexOf(s, sep).None?;
    } else {
      var rest := Join(parts[1..], [sep]);
      assert s == parts[0] + [sep] + rest;
      IndexOfAfterFree(parts[0], sep, rest);
      assert s[..|parts[0]|] == parts[0];
      assert s[|parts[0]| + 1..] == rest;
      SplitJoin(parts[1..], sep);
      assert Split(s, sep) == [parts[0]] + Split(rest, sep);
      assert parts == [parts[0]] + parts[1..];
    }
  }

  lemma {:induction false} IndexOfAfterFree(a: string, c: char, rest: string)
    requires c !in a
    ensures IndexOf(a + [c] + rest, c) == Some(|a|)
  {
    if a != [] {
      assert (a + [c] + rest)[1..] == a[1..] + [c] + rest;
      IndexOfAfterFree(a[1..], c, rest);
    }
  }

  /** The first piece of a split is the text before the first separator. */
  lemma SplitFirst(s: string, sep: char)
    ensures Split(s, sep)[0] == match IndexOf(s, sep) case None => s case Some(i) => s[..i]
  {
  }
}
