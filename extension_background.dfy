/**
 * The extension's background script: cookie and request listeners append
 * classified issues to an in-memory list, and two messages read or clear
 * the issues. The in-memory list and the copy in extension storage are
 * separate state: storage is written at startup and on clear only, and
 * `getIssues` answers from storage.
 */
module ExtensionBackground {
  import opened Text

  datatype IssueType = CookieIssue | TrackingIssue

  /** One logged issue; `timestamp` is the `Date.now()` passed in by the caller. */
  datatype Issue = Issue(kind: IssueType, severity: string, title: string, description: string, timestamp: int)

  /** The cookie fields the rules read; an absent `sameSite` is the empty string (both are falsy). */
  datatype Cookie = Cookie(name: string, domain: string, secure: bool, sameSite: string)

  datatype CookieChange = CookieChange(removed: bool, cookie: Cookie)

  const TrackingDomains: seq<string> := ["google-analytics.com", "facebook.com", "doubleclick.net", "googletagmanager.com"]

  /** A cookie sent without `secure` across subdomains. */
  predicate InsecureCrossDomain(c: Cookie)
  {
    !c.secure && StartsWith(c.domain, ".")
  }

  /** A cookie with no `sameSite`, or `sameSite == "no_restriction"`. */
  predicate WeakSameSite(c: Cookie)
  {
    c.sameSite == "" || c.sameSite == "no_restriction"
  }

  /** `trackingDomains.some(domain => hostname.includes(domain))`. */
  predicate IsTrackingHost(hostname: string)
  {
    exists d | d in TrackingDomains :: Contains(hostname, d)
  }

  function InsecureCookieIssue(c: Cookie, now: int): Issue
  {
    Issue(CookieIssue, "high", "Insecure Third-Party Cookie",
          "Cookie \"" + c.name + "\" is not secure but set across domains", now)
  }

  function SameSiteIssue(c: Cookie, now: int): Issue
  {
    Issue(CookieIssue, "medium", "Missing SameSite Attribute",
          "Cookie \"" + c.name + "\" lacks proper SameSite protection", now)
  }

  function TrackingRequestIssue(hostname: string, now: int): Issue
  {
    Issue(TrackingIssue, "medium", "Third-Party Tracking Detected",
          "Request to " + hostname + " - ensure this is disclosed in privacy policy", now)
  }

  /** Messages from the panel and the replies they get. */
  datatype Reply = IssuesReply(issues: seq<Issue>) | SuccessReply | NoReply

  /** The background page's state: the in-memory list and the stored copy. */
  datatype State = State(issues: seq<Issue>, stored: seq<Issue>)

  datatype Event =
    | CookieChanged(change: CookieChange, now: int)
    | Request(hostname: string, now: int)
    | Message(action: string)

  datatype Stepped = Stepped(state: State, reply: Reply)

  /** The state at startup: an empty list, and storage overwritten with it. */
  const Startup := State([], [])

  /** The issues a cookie event appends: the cross-domain rule first, then the SameSite rule. */
  function CookieIssues(change: CookieChange, now: int): seq<Issue>
  {
    if change.removed then []
    else
      (if InsecureCrossDomain(change.cookie) then [InsecureCookieIssue(change.cookie, now)] else [])
      + (if WeakSameSite(change.cookie) then [SameSiteIssue(change.cookie, now)] else [])
  }

  /** The issues a request event appends. */
  function RequestIssues(hostname: string, now: int): seq<Issue>
  {
    if IsTrackingHost(hostname) then [TrackingRequestIssue(hostname, now)] else []
  }

  /** One event handled by the background page. */
  function Step(s: State, e: Event): Stepped
  {
    match e
    case CookieChanged(change, now) => Stepped(s.(issues := s.issues + CookieIssues(change, now)), NoReply)
    case Request(hostname, now) => Stepped(s.(issues := s.issues + RequestIssues(hostname, now)), NoReply)
    case Message(action) =>
      if action == "getIssues" then Stepped(s, IssuesReply(s.stored))
      else if action == "clearIssues" then Stepped(State([], []), SuccessReply)
      else Stepped(s, NoReply)
  }

  /** The state after a sequence of events. */
  function Run(s: State, es: seq<Event>): State
    decreases |es|
  {
    if es == [] then s else Run(Step(s, es[0]).state, es[1..])
  }

  /** A removed cookie appends nothing; otherwise each rule that fires appends one issue, `high` before `medium`. */
  lemma CookieRules(change: CookieChange, now: int)
    ensures change.removed ==> CookieIssues(change, now) == []
    ensures !change.removed ==>
              |CookieIssues(change, now)| == (if InsecureCrossDomain(change.cookie) then 1 else 0)
                                              + (if WeakSameSite(change.cookie) then 1 else 0)
    ensures !change.removed && InsecureCrossDomain(change.cookie) ==>
              CookieIssues(change, now)[0].severity == "high"
              && CookieIssues(change, now)[0].title == "Insecure Third-Party Cookie"
    ensures !change.removed && WeakSameSite(change.cookie) ==>
              var last := CookieIssues(change, now)[|CookieIssues(change, now)| - 1];
              last.severity == "medium" && last.title == "Missing SameSite Attribute"
    ensures forall i :: 0 <= i < |CookieIssues(change, now)| ==>
              CookieIssues(change, now)[i].kind == CookieIssue && CookieIssues(change, now)[i].timestamp == now
  {
  }

  /** A request appends one `medium` tracking issue exactly when its host contains a listed domain. */
  lemma TrackingRule(hostname: string, now: int)
    ensures |RequestIssues(hostname, now)| <= 1
    ensures RequestIssues(hostname, now) != [] <==>
              exists i, k :: 0 <= i < |TrackingDomains| && OccursAt(hostname, TrackingDomains[i], k)
    ensures forall j :: 0 <= j < |RequestIssues(hostname, now)| ==>
              RequestIssues(hostname, now)[j].severity == "medium" && RequestIssues(hostname, now)[j].kind == TrackingIssue
  {
    forall i | 0 <= i < |TrackingDomains| {
      ContainsIff(hostname, TrackingDomains[i]);
    }
  }

  /** Storage only ever holds the empty list, so every `getIssues` reply is empty, whatever was appended. */
  lemma {:induction false} StoredCopyStaysEmpty(s: State, es: seq<Event>)
    requires s.stored == []
    decreases |es|
    ensures Run(s, es).stored == []
    ensures forall i :: 0 <= i < |es| && es[i] == Message("getIssues") ==>
              Step(Run(s, es[..i]), es[i]).reply == IssuesReply([])
  {
    if es != [] {
      StoredCopyStaysEmpty(Step(s, es[0]).state, es[1..]);
      forall i | 0 <= i < |es| && es[i] == Message("getIssues")
        ensures Step(Run(s, es[..i]), es[i]).reply == IssuesReply([])
      {
        if i > 0 {
          assert es[..i][1..] == es[1..][..i - 1];
          assert es[1..][i - 1] == es[i];
        }
      }
    }
  }

  /** Without a clear, listeners only append: the earlier list stays a prefix, untouched and in order. */
  lemma {:induction false} OnlyAppendsWithoutClear(s: State, es: seq<Event>)
    requires forall i :: 0 <= i < |es| ==> es[i] != Message("clearIssues")
    decreases |es|
    ensures |s.issues| <= |Run(s, es).issues| && Run(s, es).issues[..|s.issues|] == s.issues
  {
    if es != [] {
      var t := Step(s, es[0]).state;
      assert t.issues[..|s.issues|] == s.issues;
      OnlyAppendsWithoutClear(t, es[1..]);
      assert Run(s, es).issues[..|t.issues|][..|s.issues|] == Run(s, es).issues[..|s.issues|];
    }
  }

  /** The background page as it runs: the module-level list and the storage copy. */
  class Background {
    var issues: seq<Issue>
    var stored: seq<Issue>

    function Snapshot(): State
      reads this
    {
      State(issues, stored)
    }

    ghost predicate Valid()
      reads this
    {
      stored == []
    }

    /** Lines 2 and 60: an empty list, written to storage. */
    constructor ()
      ensures Valid() && Snapshot() == Startup
    {
      issues := [];
      stored := issues;
    }

    method OnCookieChanged(change: CookieChange, now: int)
      requires Valid()
      modifies this
      ensures Valid() && Snapshot() == Step(old(Snapshot()), CookieChanged(change, now)).state
    {
      if !change.removed {
        var cookie := change.cookie;
        if !cookie.secure && StartsWith(cookie.domain, ".") {
          issues := issues + [InsecureCookieIssue(cookie, now)];
        }
        if cookie.sameSite == "" || cookie.sameSite == "no_restriction" {
          issues := issues + [SameSiteIssue(cookie, now)];
        }
      }
    }

    method OnBeforeRequest(hostname: string, now: int)
      requires Valid()
      modifies this
      ensures Valid() && Snapshot() == Step(old(Snapshot()), Request(hostname, now)).state
    {
      if IsTrackingHost(hostname) {
        issues := issues + [TrackingRequestIssue(hostname, now)];
      }
    }

    method OnMessage(action: string) returns (reply: Reply)
      requires Valid()
      modifies this
      ensures Valid()
      ensures Stepped(Snapshot(), reply) == Step(old(Snapshot()), Message(action))
      ensures reply.IssuesReply? ==> reply.issues == []
    {
      if action == "getIssues" {
        reply := IssuesReply(stored);
      } else if action == "clearIssues" {
        issues := [];
        stored := [];
        reply := SuccessReply;
      } else {
        reply := NoReply;
      }
    }
  }
}
