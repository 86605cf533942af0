/**
 * The dashboard's aggregation over the stored scans and policies: the
 * total issue count, the per-scan totals and their wording, the active
 * policy count, type labels, and which badges appear. Loading the rows is
 * I/O and is not modelled; every stored summary is assumed to have all
 * four buckets.
 */
module EnhancedDashboard {
  import opened Wrappers
  import opened Text
  import opened Counting
  import opened ScanAnalysis
  import ScanHandler

  /** A `compliance_scans` row as the dashboard reads it; a null `severity_summary` is None. */
  datatype StoredScan = StoredScan(scanType: string, status: string, severitySummary: Option<Summary>)

  /** A `policies` row as the dashboard reads it. */
  datatype StoredPolicy = StoredPolicy(policyType: string, status: string)

  /** `scan.severity_summary || {critical: 0, high: 0, medium: 0, low: 0}`. */
  function SummaryOrZero(scan: StoredScan): Summary
  {
    if scan.severitySummary.Some? then scan.severitySummary.value else Zero
  }

  /** `totalFindings` of one scan (lines 209-210). */
  function ScanTotal(scan: StoredScan): nat
  {
    var s := SummaryOrZero(scan);
    s.critical + s.high + s.medium + s.low
  }

  /** The `reduce` of lines 76-79, from accumulator `acc`. */
  function ReduceIssues(acc: nat, scans: seq<StoredScan>): nat
    decreases |scans|
  {
    if scans == [] then acc
    else
      var summary := SummaryOrZero(scans[0]);
      ReduceIssues(acc + summary.critical + summary.high + summary.medium + summary.low, scans[1..])
  }

  function TotalIssues(scans: seq<StoredScan>): nat
  {
    ReduceIssues(0, scans)
  }

  /** The per-scan totals added up. */
  function SumOfScanTotals(scans: seq<StoredScan>): nat
  {
    if scans == [] then 0 else ScanTotal(scans[0]) + SumOfScanTotals(scans[1..])
  }

  lemma {:induction false} ReduceAddsScanTotals(acc: nat, scans: seq<StoredScan>)
    ensures ReduceIssues(acc, scans) == acc + SumOfScanTotals(scans)
    decreases |scans|
  {
    if scans != [] {
      ReduceAddsScanTotals(acc + ScanTotal(scans[0]), scans[1..]);
    }
  }

  /** The headline count equals the sum of the per-scan "Found N issues" counts. */
  lemma TotalIssuesIsSumOfScanTotals(scans: seq<StoredScan>)
    ensures TotalIssues(scans) == SumOfScanTotals(scans)
  {
    ReduceAddsScanTotals(0, scans);
  }

  /** A scan without a summary adds nothing, wherever it stands in the list. */
  lemma ScanWithoutSummaryAddsNothing(before: seq<StoredScan>, scan: StoredScan, after: seq<StoredScan>)
    requires scan.severitySummary.None?
    ensures TotalIssues(before + [scan] + after) == TotalIssues(before + after)
  {
    TotalIssuesIsSumOfScanTotals(before + [scan] + after);
    TotalIssuesIsSumOfScanTotals(before + after);
    SumSplits(before, [scan] + after);
    SumSplits(before, after);
    assert ([scan] + after)[1..] == after;
    assert before + [scan] + after == before + ([scan] + after);
  }

  lemma {:induction false} SumSplits(a: seq<StoredScan>, b: seq<StoredScan>)
    ensures SumOfScanTotals(a + b) == SumOfScanTotals(a) + SumOfScanTotals(b)
  {
    if a != [] {
      SumSplits(a[1..], b);
      assert (a + b)[1..] == a[1..] + b;
    } else {
      assert a + b == b;
    }
  }

  /** `policies.filter(p => p.status === 'active').length`. */
  function ActivePolicies(policies: seq<StoredPolicy>): (n: nat)
    ensures n <= |policies|
    ensures n == |policies| <==> forall i :: 0 <= i < |policies| ==> policies[i].status == "active"
    ensures n == 0 <==> forall i :: 0 <= i < |policies| ==> policies[i].status != "active"
  {
    if policies == [] then 0
    else (if policies[0].status == "active" then 1 else 0) + ActivePolicies(policies[1..])
  }

  /** "issue" for exactly one finding, "issues" otherwise (zero included). */
  function IssueWord(n: nat): (w: string)
    ensures w == "issue" <==> n == 1
    ensures w == "issues" <==> n != 1
  {
    "issue" + (if n != 1 then "s" else "")
  }

  /** `type.replace('_', ' ')`. */
  function TypeLabel(t: string): string
  {
    ReplaceFirst(t, "_", " ")
  }

  /** Labelling a type whose first underscore is at `i` turns exactly that character into a space. */
  // No induction here: `{:induction false}` only stops Dafny from adding induction hypotheses that push this proof over its resource budget.
  lemma {:induction false} LabelAtFirstUnderscore(t: string, i: nat)
    requires i < |t| && t[i] == '_' && forall k :: 0 <= k < i ==> t[k] != '_'
    ensures TypeLabel(t) == t[i := ' ']
    ensures Count(TypeLabel(t), '_') == Count(t, '_') - 1
  {
    ScanAnalysis.FirstIndexOfChar(t, '_');
    assert IndexOf(t, "_") == Some(i);
    assert TypeLabel(t) == t[..i] + " " + t[i + 1..];
    assert t == t[..i] + [t[i]] + t[i + 1..];
    CountConcat(t[..i] + [t[i]], t[i + 1..], '_');
    CountConcat(t[..i], [t[i]], '_');
    CountConcat(t[..i] + " ", t[i + 1..], '_');
    CountConcat(t[..i], " ", '_');
    assert Count(t[..i], '_') == 0;
  }

  /**
   * Only the first underscore becomes a space: a label without underscores
   * is unchanged, and otherwise exactly the position of the first one
   * changes, so the label keeps its length and has one underscore fewer.
   */
  lemma TypeLabelReplacesFirstUnderscore(t: string)
    ensures |TypeLabel(t)| == |t|
    ensures Count(TypeLabel(t), '_') == if Count(t, '_') > 0 then Count(t, '_') - 1 else 0
    ensures (forall k :: 0 <= k < |t| ==> t[k] != '_') ==> TypeLabel(t) == t
    ensures forall i :: 0 <= i < |t| && t[i] == '_' && (forall k :: 0 <= k < i ==> t[k] != '_') ==>
              TypeLabel(t) == t[i := ' ']
  {
    ScanAnalysis.FirstIndexOfChar(t, '_');
    match IndexOf(t, "_") {
      case None =>
        assert Count(t, '_') == 0;
      case Some(i) =>
        LabelAtFirstUnderscore(t, i);
    }
    forall i | 0 <= i < |t| && t[i] == '_' && (forall k :: 0 <= k < i ==> t[k] != '_')
      ensures TypeLabel(t) == t[i := ' ']
    {
      LabelAtFirstUnderscore(t, i);
    }
  }

  /** The badges next to a scan: Critical, then High, each only for a strictly positive count. */
  datatype Badge = CriticalBadge(count: nat) | HighBadge(count: nat)

  function ScanBadges(summary: Summary): (badges: seq<Badge>)
    ensures forall b :: b in badges ==> b.count > 0
    ensures CriticalBadge(summary.critical) in badges <==> summary.critical > 0
    ensures HighBadge(summary.high) in badges <==> summary.high > 0
    ensures summary.critical > 0 && summary.high > 0 ==> badges == [CriticalBadge(summary.critical), HighBadge(summary.high)]
    ensures forall b :: b in badges ==> b == CriticalBadge(summary.critical) || b == HighBadge(summary.high)
    ensures |badges| == (if summary.critical > 0 then 1 else 0) + (if summary.high > 0 then 1 else 0)
  {
    (if summary.critical > 0 then [CriticalBadge(summary.critical)] else [])
    + (if summary.high > 0 then [HighBadge(summary.high)] else [])
  }

  datatype Variant = Default | Outline

  function ScanVariant(status: string): Variant
  {
    if status == "completed" then Default else Outline
  }

  function PolicyVariant(status: string): Variant
  {
    if status == "active" then Default else Outline
  }

  /** How many policies the list shows with the default status badge. */
  function DefaultPolicyBadges(policies: seq<StoredPolicy>): nat
  {
    if policies == [] then 0
    else (if PolicyVariant(policies[0].status) == Default then 1 else 0) + DefaultPolicyBadges(policies[1..])
  }

  /** The "active policies" card agrees with the number of default badges in the policy list. */
  lemma {:induction false} ActiveCountMatchesBadges(policies: seq<StoredPolicy>)
    ensures ActivePolicies(policies) == DefaultPolicyBadges(policies)
  {
    if policies != [] {
      ActiveCountMatchesBadges(policies[1..]);
    }
  }

  /**
   * The row a scan request leaves behind shows the default badge exactly
   * when the request succeeded; a row stuck in `running` shows the outline.
   */
  lemma ScanRowVariant(rows: seq<ScanHandler.ScanRow>, req: ScanHandler.ScanRequest, env: ScanHandler.Environment)
    ensures var o := ScanHandler.ScanOutcome(rows, req, env);
            |o.rows| > |rows| ==> (ScanVariant(o.rows[|rows|].status) == Default <==> o.response.Ok?)
  {
    ScanHandler.CompletedIffSuccess(rows, req, env);
  }
}
