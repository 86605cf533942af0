/**
 * The finding pipeline of the compliance-scan function: cut a brace span
 * out of the model's reply, parse it, take its `findings`, tally the four
 * severity buckets, and fall back to one synthetic finding when any of
 * that throws.
 */
module ScanAnalysis {
  import opened Wrappers
  import opened Text
  import opened Json
  import opened Counting

  /** The four-bucket `severity_summary`. */
  datatype Summary = Summary(critical: nat, high: nat, medium: nat, low: nat)
  {
    function Total(): nat
    {
      critical + high + medium + low
    }
  }

  const Zero := Summary(0, 0, 0, 0)

  /** A half-open range `[start, end)` of the reply text. */
  datatype Span = Span(start: nat, end: nat)

  /** `s.lastIndexOf(c)`, with `None` for -1. */
  function LastIndexOfChar(s: string, c: char): (r: Option<nat>)
    ensures r.Some? ==> r.value < |s| && s[r.value] == c
    ensures r.Some? ==> forall k :: r.value < k < |s| ==> s[k] != c
    ensures r.None? ==> forall k :: 0 <= k < |s| ==> s[k] != c
  {
    if s == [] then None
    else if s[|s| - 1] == c then Some(|s| - 1)
    else LastIndexOfChar(s[..|s| - 1], c)
  }

  lemma OccursAtChar(s: string, c: char, i: int)
    ensures OccursAt(s, [c], i) <==> 0 <= i < |s| && s[i] == c
  {
    if 0 <= i < |s| {
      assert s[i..i + 1] == [s[i]];
    }
  }

  /** `s.indexOf(c)` for a one-character pattern: the first position holding `c`. */
  lemma FirstIndexOfChar(s: string, c: char)
    ensures IndexOf(s, [c]).Some? ==> IndexOf(s, [c]).value < |s| && s[IndexOf(s, [c]).value] == c
    ensures IndexOf(s, [c]).Some? ==> forall k :: 0 <= k < IndexOf(s, [c]).value ==> s[k] != c
    ensures IndexOf(s, [c]).None? ==> forall k :: 0 <= k < |s| ==> s[k] != c
  {
    var first := IndexOf(s, [c]);
    if first.Some? { OccursAtChar(s, c, first.value); }
    forall k | 0 <= k < |s| && s[k] == c ensures first.Some? && first.value <= k {
      OccursAtChar(s, c, k);
    }
  }

  /**
   * The match of `/\{[\s\S]*\}/`: the regular expression is greedy, so the
   * match runs from the first `{` to the last `}` of the text, and there is
   * one exactly when some `{` comes before some `}`.
   */
  function BraceSpan(s: string): (r: Option<Span>)
    ensures r.Some? <==> exists i, j :: 0 <= i < j < |s| && s[i] == '{' && s[j] == '}'
    ensures r.Some? ==> r.value.start < r.value.end <= |s|
    ensures r.Some? ==> s[r.value.start] == '{' && s[r.value.end - 1] == '}'
    ensures r.Some? ==> forall k :: 0 <= k < r.value.start ==> s[k] != '{'
    ensures r.Some? ==> forall k :: r.value.end <= k < |s| ==> s[k] != '}'
  {
    var first := IndexOf(s, "{");
    var last := LastIndexOfChar(s, '}');
    FirstIndexOfChar(s, '{');
    if first.Some? && last.Some? && first.value < last.value then
      Some(Span(first.value, last.value + 1))
    else
      None
  }

  /** The key `f.severity in severitySummary` looks up, for a finding that is not null. */
  function SeverityKey(f: Json): Option<string>
  {
    match Member(f, "severity")
    case Some(JString(k)) => Some(k)
    case _ => None
  }

  /** `severitySummary[key]++` when `key` names a bucket; any other key leaves the summary as it is. */
  function Bump(s: Summary, key: Option<string>): Summary
  {
    match key
    case Some("critical") => s.(critical := s.critical + 1)
    case Some("high") => s.(high := s.high + 1)
    case Some("medium") => s.(medium := s.medium + 1)
    case Some("low") => s.(low := s.low + 1)
    case _ => s
  }

  /** The summary after the `forEach` has visited every finding of `fs`. */
  function SummaryOf(fs: seq<Json>): Summary
  {
    if fs == [] then Zero else Bump(SummaryOf(fs[..|fs| - 1]), SeverityKey(fs[|fs| - 1]))
  }

  /** The severity keys of the findings, in order. */
  function Keys(fs: seq<Json>): (r: seq<Option<string>>)
    ensures |r| == |fs|
    ensures forall i :: 0 <= i < |fs| ==> r[i] == SeverityKey(fs[i])
  {
    if fs == [] then [] else Keys(fs[..|fs| - 1]) + [SeverityKey(fs[|fs| - 1])]
  }

  /** The keys that name a bucket: exact, case-sensitive lower-case matches. */
  const Buckets: set<Option<string>> := {Some("critical"), Some("high"), Some("medium"), Some("low")}

  /** One increment adds one to the bucket whose name is exactly the key, and nothing elsewhere. */
  lemma BumpAddsOne(s: Summary, key: Option<string>)
    ensures Bump(s, key).critical == s.critical + (if key == Some("critical") then 1 else 0)
    ensures Bump(s, key).high == s.high + (if key == Some("high") then 1 else 0)
    ensures Bump(s, key).medium == s.medium + (if key == Some("medium") then 1 else 0)
    ensures Bump(s, key).low == s.low + (if key == Some("low") then 1 else 0)
  {
  }

  /**
   * Each bucket holds the number of findings whose severity is exactly that
   * string, so "Medium" or "urgent" add nothing.
   */
  lemma {:induction false} SummaryCountsExactMatches(fs: seq<Json>)
    ensures SummaryOf(fs).critical == Count(Keys(fs), Some("critical"))
    ensures SummaryOf(fs).high == Count(Keys(fs), Some("high"))
    ensures SummaryOf(fs).medium == Count(Keys(fs), Some("medium"))
    ensures SummaryOf(fs).low == Count(Keys(fs), Some("low"))
  {
    if fs != [] {
      var init := fs[..|fs| - 1];
      SummaryCountsExactMatches(init);
      BumpAddsOne(SummaryOf(init), SeverityKey(fs[|fs| - 1]));
      assert Keys(fs)[..|fs| - 1] == Keys(init);
    }
  }

  /** The summary total is the number of findings with a recognised severity, never more than there are findings. */
  // No induction here: `{:induction false}` only stops Dafny from adding induction hypotheses that push this proof over its resource budget.
  lemma {:induction false} SummaryTotalCountsRecognised(fs: seq<Json>)
    ensures SummaryOf(fs).Total() == CountAny(Keys(fs), Buckets) <= |fs|
  {
    SummaryCountsExactMatches(fs);
    var c, h, m, l := Some("critical"), Some("high"), Some("medium"), Some("low");
    assert c != h && c != m && c != l && h != m && h != l && m != l by {
      assert "critical"[0] != "high"[0] && "critical"[0] != "medium"[0] && "critical"[0] != "low"[0];
      assert "high"[0] != "medium"[0] && "high"[0] != "low"[0] && "medium"[0] != "low"[0];
    }
    FourCountsAddUp(Keys(fs), c, h, m, l);
  }

  /** Length of the longest prefix of `fs` free of `null`: where `f.severity` throws. */
  function NullFreeLength(fs: seq<Json>): (n: nat)
    ensures n <= |fs|
    ensures forall k :: 0 <= k < n ==> !fs[k].JNull?
    ensures n < |fs| ==> fs[n].JNull?
  {
    if fs == [] then 0
    else if fs[0].JNull? then 0
    else 1 + NullFreeLength(fs[1..])
  }

  /** Outcome of the tallying loop: the counts so far and whether it threw. */
  datatype Tally = Tally(summary: Summary, threw: bool)

  /** The tally of `fs`: it throws at the first `null`, keeping what it counted before. */
  function TallyOf(fs: seq<Json>): Tally
  {
    var n := NullFreeLength(fs);
    Tally(SummaryOf(fs[..n]), n < |fs|)
  }

  /** Lines 172-176: the `forEach` that increments the buckets. */
  method TallySeverities(fs: seq<Json>) returns (summary: Summary, threw: bool)
    ensures Tally(summary, threw) == TallyOf(fs)
    ensures threw <==> exists k :: 0 <= k < |fs| && fs[k].JNull?
  {
    summary, threw := Zero, false;
    var i := 0;
    while i < |fs|
      invariant 0 <= i <= |fs|
      invariant forall k :: 0 <= k < i ==> !fs[k].JNull?
      invariant summary == SummaryOf(fs[..i])
    {
      if fs[i].JNull? {
        threw := true;
        return;
      }
      assert fs[..i + 1][..i] == fs[..i];
      summary := Bump(summary, SeverityKey(fs[i]));
      i := i + 1;
    }
    assert fs[..i] == fs;
  }

  /** The synthetic finding produced when extraction throws. */
  function Fallback(text: string): Json
  {
    JObject(map[
      "title" := JString("Compliance Analysis Complete"),
      "severity" := JString("medium"),
      "description" := JString(text[..if |text| < 500 then |text| else 500]),
      "location" := JString("General"),
      "recommendation" := JString("Review the full analysis for details")])
  }

  /** What lines 166-169 yield before tallying: no span, an exception, or an array of findings. */
  datatype Extraction = NoSpan | Threw | Findings(items: seq<Json>)

  function Extract(text: string, parse: string -> Option<Json>): Extraction
  {
    match BraceSpan(text)
    case None => NoSpan
    case Some(sp) =>
      match parse(text[sp.start..sp.end])
      // JSON.parse throws, or `parsed.findings` is read on null
      case None => Threw
      case Some(JNull) => Threw
      case Some(parsed) =>
        var field := Or(Member(parsed, "findings"), JArray([]));
        // `forEach` is not a function on anything but an array
        if field.JArray? then Findings(field.items) else Threw
  }

  datatype Analysis = Analysis(findings: seq<Json>, summary: Summary)

  /** The findings and severity summary that lines 161-188 leave behind. */
  function AnalysisOf(text: string, parse: string -> Option<Json>): Analysis
  {
    match Extract(text, parse)
    case NoSpan => Analysis([], Zero)
    case Threw => Analysis([Fallback(text)], Zero.(medium := 1))
    case Findings(fs) =>
      var t := TallyOf(fs);
      if t.threw then Analysis([Fallback(text)], t.summary.(medium := 1))
      else Analysis(fs, t.summary)
  }

  /** Lines 161-188 as they run: mutable findings and summary, a try block, a catch that overwrites. */
  method AnalyzeText(text: string, parse: string -> Option<Json>) returns (findings: seq<Json>, summary: Summary)
    ensures Analysis(findings, summary) == AnalysisOf(text, parse)
  {
    findings := [];
    summary := Zero;
    var thrown := false;
    var span := BraceSpan(text);
    if span.Some? {
      var parsed := parse(text[span.value.start..span.value.end]);
      if parsed.None? || parsed.value.JNull? {
        thrown := true;
      } else {
        var field := Or(Member(parsed.value, "findings"), JArray([]));
        if field.JArray? {
          findings := field.items;
          summary, thrown := TallySeverities(findings);
        } else {
          thrown := true;
        }
      }
    }
    if thrown {
      findings := [Fallback(text)];
      summary := summary.(medium := 1);
    }
  }

  /** `findings.map(f => f.recommendation)`, with `None` for `undefined`. */
  function Recommendations(fs: seq<Json>): (r: seq<Option<Json>>)
    ensures |r| == |fs|
    ensures forall i :: 0 <= i < |fs| ==> r[i] == Member(fs[i], "recommendation")
  {
    if fs == [] then [] else [Member(fs[0], "recommendation")] + Recommendations(fs[1..])
  }

  /** Text with no `{` before a `}` yields no findings and an all-zero summary: no synthetic finding. */
  lemma NoSpanNoFindings(text: string, parse: string -> Option<Json>)
    requires forall i, j :: 0 <= i < j < |text| && text[i] == '{' ==> text[j] != '}'
    ensures AnalysisOf(text, parse) == Analysis([], Zero)
  {
  }

  /** The findings are empty exactly when there is no span or the parsed `findings` is an empty array, missing or falsy. */
  lemma EmptyFindingsIff(text: string, parse: string -> Option<Json>)
    ensures AnalysisOf(text, parse).findings == [] <==> Extract(text, parse) in {NoSpan, Findings([])}
    ensures AnalysisOf(text, parse).findings == [] ==> AnalysisOf(text, parse).summary == Zero
  {
    if Extract(text, parse).Findings? {
      var fs := Extract(text, parse).items;
      if fs == [] {
        assert TallyOf(fs) == Tally(Zero, false);
      }
    }
  }

  /** A parsed object whose `findings` is an array without nulls gives exactly those findings, in order. */
  // No induction here: `{:induction false}` only stops Dafny from adding induction hypotheses that push this proof over its resource budget.
  lemma {:induction false} ParsedFindingsVerbatim(text: string, parse: string -> Option<Json>, m: map<string, Json>, fs: seq<Json>)
    requires BraceSpan(text).Some?
    requires parse(text[BraceSpan(text).value.start..BraceSpan(text).value.end]) == Some(JObject(m))
    requires "findings" in m && m["findings"] == JArray(fs)
    requires forall k :: 0 <= k < |fs| ==> !fs[k].JNull?
    ensures AnalysisOf(text, parse) == Analysis(fs, SummaryOf(fs))
  {
    assert Member(JObject(m), "findings") == Some(JArray(fs));
    assert Extract(text, parse) == Findings(fs);
    assert NullFreeLength(fs) == |fs|;
    assert fs[..|fs|] == fs;
    assert TallyOf(fs) == Tally(SummaryOf(fs), false);
  }

  /** A parsed value whose `findings` member is missing or falsy gives no findings. */
  lemma FalsyFindingsFieldGivesNone(text: string, parse: string -> Option<Json>, v: Json)
    requires BraceSpan(text).Some?
    requires parse(text[BraceSpan(text).value.start..BraceSpan(text).value.end]) == Some(v)
    requires !v.JNull?
    requires Member(v, "findings").None? || !Truthy(Member(v, "findings").value)
    ensures AnalysisOf(text, parse) == Analysis([], Zero)
  {
    assert Extract(text, parse) == Findings([]);
    assert TallyOf([]) == Tally(Zero, false);
  }

  /**
   * When extraction throws, the result is the single synthetic finding,
   * `medium` is set to 1, and the other buckets keep what the loop had
   * counted before the exception.
   */
  lemma ThrowGivesFallback(text: string, parse: string -> Option<Json>)
    requires Extract(text, parse).Threw? || (Extract(text, parse).Findings? && TallyOf(Extract(text, parse).items).threw)
    ensures AnalysisOf(text, parse).findings == [Fallback(text)]
    ensures AnalysisOf(text, parse).summary.medium == 1
    ensures Extract(text, parse).Threw? ==> AnalysisOf(text, parse).summary == Summary(0, 0, 1, 0)
    ensures Extract(text, parse).Findings? ==>
              var counted := TallyOf(Extract(text, parse).items).summary;
              AnalysisOf(text, parse).summary == counted.(medium := 1)
  {
  }

  /** The synthetic finding: fixed title, severity, location and advice, and the first 500 characters of the text. */
  lemma FallbackContents(text: string)
    ensures SeverityKey(Fallback(text)) == Some("medium")
    ensures Member(Fallback(text), "title") == Some(JString("Compliance Analysis Complete"))
    ensures Member(Fallback(text), "location") == Some(JString("General"))
    ensures Recommendations([Fallback(text)]) == [Some(JString("Review the full analysis for details"))]
    ensures Member(Fallback(text), "description").Some?
    ensures var d := Member(Fallback(text), "description").value;
            d.JString? && |d.s| == (if |text| < 500 then |text| else 500) && d.s == text[..|d.s|]
  {
  }

  /**
   * Outside the case where the loop throws after counting, the summary never
   * counts more than there are findings; on the fallback it counts exactly one.
   */
  lemma SummaryWithinFindings(text: string, parse: string -> Option<Json>)
    requires !(Extract(text, parse).Findings? && TallyOf(Extract(text, parse).items).threw)
    ensures AnalysisOf(text, parse).summary.Total() <= |AnalysisOf(text, parse).findings|
  {
    if Extract(text, parse).Findings? {
      var fs := Extract(text, parse).items;
      assert fs[..NullFreeLength(fs)] == fs;
      SummaryTotalCountsRecognised(fs);
    }
  }

  /**
   * The exception: `[{"severity": "high"}, null]` counts `high` before `null`
   * throws, so the fallback's summary claims two issues for one finding.
   */
  lemma PartialTallyOutlivesFallback(text: string, parse: string -> Option<Json>)
    requires BraceSpan(text).Some?
    requires parse(text[BraceSpan(text).value.start..BraceSpan(text).value.end])
             == Some(JObject(map["findings" := JArray([JObject(map["severity" := JString("high")]), JNull])]))
    ensures AnalysisOf(text, parse) == Analysis([Fallback(text)], Summary(0, 1, 1, 0))
    ensures AnalysisOf(text, parse).summary.Total() == 2 > |AnalysisOf(text, parse).findings|
  {
    var fs := [JObject(map["severity" := JString("high")]), JNull];
    assert Extract(text, parse) == Findings(fs);
    assert NullFreeLength(fs) == 1;
    assert fs[..1] == [fs[0]];
    assert SeverityKey(fs[0]) == Some("high");
    assert SummaryOf(fs[..1]) == Summary(0, 1, 0, 0);
  }

  /**
   * No finding that reaches the recommendations projection is `null`, so
   * `f.recommendation` never throws there.
   */
  lemma FindingsNeverNull(text: string, parse: string -> Option<Json>)
    ensures forall k :: 0 <= k < |AnalysisOf(text, parse).findings| ==> !AnalysisOf(text, parse).findings[k].JNull?
  {
  }
}
