/**
 * The batch summary of `_create_summary`: how many results there are, how
 * many are valid, invalid and warned, and how often each error and warning
 * key occurs.
 */
module Summaries {
  import opened Schemas

  /** The key an issue is counted under: `"rule: field"`, or the rule alone
      when it names no field. */
  function IssueKey(i: Issue): string {
    match i.field
    case Some(f) => i.rule.Name() + ": " + f.Name()
    case None => i.rule.Name()
  }

  /** `counts[k] = counts.get(k, 0) + 1` */
  function Bump(m: map<string, nat>, k: string): (r: map<string, nat>)
    ensures r.Keys == m.Keys + {k}
    ensures r[k] == (if k in m then m[k] else 0) + 1
    ensures forall j :: j in m && j != k ==> r[j] == m[j]
  {
    m[k := if k in m then m[k] + 1 else 1]
  }

  /** The keys of a list of issues, in order. */
  function IssueKeys(issues: seq<Issue>): (ks: seq<string>)
    ensures |ks| == |issues|
    ensures forall i :: 0 <= i < |issues| ==> ks[i] == IssueKey(issues[i])
  {
    if issues == [] then [] else IssueKeys(issues[..|issues| - 1]) + [IssueKey(issues[|issues| - 1])]
  }

  lemma {:induction false} IssueKeysAppend(a: seq<Issue>, b: seq<Issue>)
    ensures IssueKeys(a + b) == IssueKeys(a) + IssueKeys(b)
  {
    var l, r := IssueKeys(a + b), IssueKeys(a) + IssueKeys(b);
    assert |l| == |r|;
    forall i | 0 <= i < |l| ensures l[i] == r[i] {
      if i < |a| { assert (a + b)[i] == a[i]; } else { assert (a + b)[i] == b[i - |a|]; }
    }
  }

  /** The counts the loop builds for a list of keys, taken in order. */
  function Counts(keys: seq<string>): map<string, nat> {
    if keys == [] then map[]
    else Bump(Counts(keys[..|keys| - 1]), keys[|keys| - 1])
  }

  /** Counting one more key bumps it. */
  lemma CountsSnoc(keys: seq<string>, k: string)
    ensures Counts(keys + [k]) == Bump(Counts(keys), k)
  {
    assert (keys + [k])[..|keys|] == keys;
  }

  /** The map holds exactly the keys that occur, each with its number of
      occurrences. */
  lemma {:induction false} CountsAreMultiplicities(keys: seq<string>, k: string)
    ensures k in Counts(keys) <==> k in keys
    ensures k in Counts(keys) ==> Counts(keys)[k] == multiset(keys)[k]
  {
    if keys != [] {
      var front, last := keys[..|keys| - 1], keys[|keys| - 1];
      CountsAreMultiplicities(front, k);
      assert keys == front + [last];
      assert multiset(keys) == multiset(front) + multiset{last};
      assert k in keys <==> k in front || k == last;
    }
  }

  /** The sum of the values of a map. */
  ghost function SumValues(m: map<string, nat>): nat
    decreases |m|
  {
    if m == map[] then 0
    else
      var k :| k in m;
      assert |m - {k}| < |m| by {
        assert (m - {k}).Keys == m.Keys - {k};
      }
      m[k] + SumValues(m - {k})
  }

  lemma {:induction false} SumValuesRemove(m: map<string, nat>, k: string)
    requires k in m
    ensures SumValues(m) == m[k] + SumValues(m - {k})
    decreases |m|
  {
    var j :| j in m && SumValues(m) == m[j] + SumValues(m - {j});
    if j != k {
      assert (m - {j}).Keys == m.Keys - {j};
      assert (m - {k}).Keys == m.Keys - {k};
      SumValuesRemove(m - {j}, k);
      SumValuesRemove(m - {k}, j);
      assert m - {j} - {k} == m - {k} - {j};
    }
  }

  lemma SumValuesBump(m: map<string, nat>, k: string)
    ensures SumValues(Bump(m, k)) == SumValues(m) + 1
  {
    var b := Bump(m, k);
    SumValuesRemove(b, k);
    if k in m {
      SumValuesRemove(m, k);
      assert b - {k} == m - {k};
    } else {
      assert b - {k} == m;
    }
  }

  /** Every issue is counted exactly once: the values add up to the number
      of issues. */
  lemma {:induction false} CountsTotal(keys: seq<string>)
    ensures SumValues(Counts(keys)) == |keys|
  {
    if keys != [] {
      CountsTotal(keys[..|keys| - 1]);
      SumValuesBump(Counts(keys[..|keys| - 1]), keys[|keys| - 1]);
    }
  }

  // ----------------------------------------------------------------------
  // Per-result counts
  // ----------------------------------------------------------------------

  /** `sum(1 for r in results if r.is_valid)` */
  function CountValid(rs: seq<Outcome>): (n: nat)
    ensures n <= |rs|
  {
    if rs == [] then 0 else CountValid(rs[..|rs| - 1]) + (if rs[|rs| - 1].isValid then 1 else 0)
  }

  /** `sum(1 for r in results if r.warnings)` */
  function CountWithWarnings(rs: seq<Outcome>): (n: nat)
    ensures n <= |rs|
  {
    if rs == [] then 0 else CountWithWarnings(rs[..|rs| - 1]) + (if rs[|rs| - 1].warnings != [] then 1 else 0)
  }

  /** The number of results that carry at least one error. */
  function CountWithErrors(rs: seq<Outcome>): (n: nat)
    ensures n <= |rs|
  {
    if rs == [] then 0 else CountWithErrors(rs[..|rs| - 1]) + (if rs[|rs| - 1].errors != [] then 1 else 0)
  }

  /** All errors of all results, result by result. */
  function ErrorsIn(rs: seq<Outcome>): seq<Issue> {
    if rs == [] then [] else ErrorsIn(rs[..|rs| - 1]) + rs[|rs| - 1].errors
  }

  /** All warnings of all results, result by result. */
  function WarningsIn(rs: seq<Outcome>): seq<Issue> {
    if rs == [] then [] else WarningsIn(rs[..|rs| - 1]) + rs[|rs| - 1].warnings
  }

  /** Every error of every result is among the errors counted. */
  lemma {:induction false} ErrorsInHas(rs: seq<Outcome>, i: nat, e: Issue)
    requires i < |rs| && e in rs[i].errors
    ensures e in ErrorsIn(rs)
  {
    var front := rs[..|rs| - 1];
    if i < |rs| - 1 {
      assert front[i] == rs[i];
      ErrorsInHas(front, i, e);
    }
  }

  /** The summary `_create_summary` builds. */
  function SummaryOf(rs: seq<Outcome>): Summary {
    var valid := CountValid(rs);
    Summary(|rs|, valid, |rs| - valid, CountWithWarnings(rs), Counts(IssueKeys(ErrorsIn(rs))), Counts(IssueKeys(WarningsIn(rs))))
  }

  /** When every result keeps "valid iff no errors", the invalid count is the
      number of results with errors. */
  lemma {:induction false} InvalidAreThoseWithErrors(rs: seq<Outcome>)
    requires forall i :: 0 <= i < |rs| ==> rs[i].Consistent()
    ensures |rs| - CountValid(rs) == CountWithErrors(rs)
  {
    if rs != [] {
      InvalidAreThoseWithErrors(rs[..|rs| - 1]);
    }
  }

  /** The summary's counts: total, valid plus invalid, warned results, and
      counts that add up to the number of errors and of warnings. */
  lemma SummaryCounts(rs: seq<Outcome>)
    ensures SummaryOf(rs).totalInvoices == |rs|
    ensures SummaryOf(rs).validInvoices + SummaryOf(rs).invalidInvoices == |rs|
    ensures 0 <= SummaryOf(rs).invalidInvoices <= |rs|
    ensures SummaryOf(rs).invoicesWithWarnings <= |rs|
    ensures SumValues(SummaryOf(rs).errorCounts) == |ErrorsIn(rs)|
    ensures SumValues(SummaryOf(rs).warningCounts) == |WarningsIn(rs)|
  {
    CountsTotal(IssueKeys(ErrorsIn(rs)));
    CountsTotal(IssueKeys(WarningsIn(rs)));
  }

  /** An error that occurs in some result is counted under its key. */
  lemma ErrorCounted(rs: seq<Outcome>, i: nat, e: Issue)
    requires i < |rs| && e in rs[i].errors
    ensures IssueKey(e) in SummaryOf(rs).errorCounts
    ensures SummaryOf(rs).errorCounts[IssueKey(e)] >= 1
  {
    ErrorsInHas(rs, i, e);
    var es := ErrorsIn(rs);
    var n :| 0 <= n < |es| && es[n] == e;
    assert IssueKeys(es)[n] == IssueKey(e);
    CountsAreMultiplicities(IssueKeys(es), IssueKey(e));
  }
}
