/**
 * The extension's devtools panel: it asks the background page for the
 * issues, counts the critical, high and medium ones, and lists every issue
 * (or an empty-state message). DOM writes are modelled as the `View` the
 * panel would show.
 */
module ExtensionPanel {
  import opened Wrappers
  import opened Counting
  import opened ExtensionBackground

  datatype Counts = Counts(critical: nat, high: nat, medium: nat)

  /** One rendered issue: its CSS class is the severity, then title and description. */
  datatype Entry = Entry(severity: string, title: string, description: string)

  datatype IssueList = EmptyState | Entries(entries: seq<Entry>)

  datatype View = View(counts: Counts, list: IssueList)

  /** The severities of the issues, in order. */
  function Severities(issues: seq<Issue>): (r: seq<string>)
    ensures |r| == |issues|
    ensures forall i :: 0 <= i < |issues| ==> r[i] == issues[i].severity
  {
    if issues == [] then [] else Severities(issues[..|issues| - 1]) + [issues[|issues| - 1].severity]
  }

  /** Each counter is the number of issues whose severity is exactly its key. */
  function CountsOf(issues: seq<Issue>): Counts
  {
    var sev := Severities(issues);
    Counts(Count(sev, "critical"), Count(sev, "high"), Count(sev, "medium"))
  }

  /** Counting one more issue adds one to its own counter only. */
  lemma CountsOfExtend(xs: seq<Issue>, x: Issue)
    ensures CountsOf(xs + [x]).critical == CountsOf(xs).critical + (if x.severity == "critical" then 1 else 0)
    ensures CountsOf(xs + [x]).high == CountsOf(xs).high + (if x.severity == "high" then 1 else 0)
    ensures CountsOf(xs + [x]).medium == CountsOf(xs).medium + (if x.severity == "medium" then 1 else 0)
  {
    assert (xs + [x])[..|xs|] == xs;
    var sev := Severities(xs + [x]);
    assert sev[..|sev| - 1] == Severities(xs);
  }

  /** The `forEach` at panel.js lines 23-28: counters start at 0; `low` and unknown severities are skipped. */
  method CountSeverities(issues: seq<Issue>) returns (counts: Counts)
    ensures counts == CountsOf(issues)
  {
    counts := Counts(0, 0, 0);
    var i := 0;
    while i < |issues|
      invariant 0 <= i <= |issues|
      invariant counts == CountsOf(issues[..i])
    {
      assert issues[..i + 1] == issues[..i] + [issues[i]];
      CountsOfExtend(issues[..i], issues[i]);
      var severity := issues[i].severity;
      if severity == "critical" {
        counts := counts.(critical := counts.critical + 1);
      } else if severity == "high" {
        counts := counts.(high := counts.high + 1);
      } else if severity == "medium" {
        counts := counts.(medium := counts.medium + 1);
      }
      i := i + 1;
    }
    assert issues[..i] == issues;
  }

  /** The three counters together never exceed the number of issues; `low` and unknown severities fall outside them. */
  lemma CountsWithinIssues(issues: seq<Issue>)
    ensures var c := CountsOf(issues);
            c.critical + c.high + c.medium == CountAny(Severities(issues), {"critical", "high", "medium"}) <= |issues|
  {
    var sev := Severities(issues);
    assert "critical"[0] != "high"[0] && "critical"[0] != "medium"[0] && "high"[0] != "medium"[0];
    ThreeCountsAddUp(sev, "critical", "high", "medium");
  }

  /** `issues.map(issue => ...)`: one entry per issue, in order. */
  function EntriesOf(issues: seq<Issue>): (r: seq<Entry>)
    ensures |r| == |issues|
    ensures forall i :: 0 <= i < |issues| ==>
              r[i] == Entry(issues[i].severity, issues[i].title, issues[i].description)
  {
    if issues == [] then [] else [Entry(issues[0].severity, issues[0].title, issues[0].description)] + EntriesOf(issues[1..])
  }

  /** The list part of `displayIssues`: the empty-state message, or the entries. */
  function ListOf(issues: seq<Issue>): IssueList
  {
    if |issues| == 0 then EmptyState else Entries(EntriesOf(issues))
  }

  /** The empty state shows exactly for no issues; otherwise there is one entry per issue. */
  lemma ListShowsEveryIssue(issues: seq<Issue>)
    ensures ListOf(issues) == EmptyState <==> issues == []
    ensures ListOf(issues).Entries? ==> |ListOf(issues).entries| == |issues| > 0
  {
  }

  /** `displayIssues`: counters, then the list. */
  method DisplayIssues(issues: seq<Issue>) returns (view: View)
    ensures view == View(CountsOf(issues), ListOf(issues))
  {
    var counts := CountSeverities(issues);
    if |issues| == 0 {
      return View(counts, EmptyState);
    }
    view := View(counts, Entries(EntriesOf(issues)));
  }

  /** The reply to `getIssues` as the panel receives it: none at all, or one whose `issues` may be missing. */
  datatype Response = NoResponse | Response(issues: Option<seq<Issue>>)

  /** `refreshIssues`: the view changes only for a response that has `issues`. */
  method RefreshIssues(current: View, response: Response) returns (view: View)
    ensures response.Response? && response.issues.Some? ==>
              view == View(CountsOf(response.issues.value), ListOf(response.issues.value))
    ensures !(response.Response? && response.issues.Some?) ==> view == current
  {
    view := current;
    if response.Response? && response.issues.Some? {
      view := DisplayIssues(response.issues.value);
    }
  }

  /**
   * Since the background page answers from storage, which holds only the
   * empty list, the panel shows zero counters and the empty-state message
   * after any history of events.
   */
  lemma PanelShowsNothingAppended(es: seq<Event>)
    ensures var reply := Step(Run(Startup, es), Message("getIssues")).reply;
            reply.IssuesReply?
            && CountsOf(reply.issues) == Counts(0, 0, 0)
            && ListOf(reply.issues) == EmptyState
  {
    StoredCopyStaysEmpty(Startup, es);
  }
}
