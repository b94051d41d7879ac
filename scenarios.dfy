/** Concrete runs of the solve and of the success heuristic. */
module Scenarios {
  import opened Wrappers
  import opened JsText
  import opened Oracle
  import opened Injection
  import opened Login

  /** Ticket "T1", two not-ready answers, then a solution with token "XYZ"
      and no user agent: solved after three polls, no user-agent reload, and
      the response input receives "XYZ". */
  lemma SolvedAfterTwoNotReady(polls: seq<Answer>, dom: Dom, callbackName: Option<string>)
    requires MaxPolls <= |polls|
    requires polls[0] == Answer(0, Text(NotReady)) && polls[1] == Answer(0, Text(NotReady))
    requires polls[2] == Answer(1, Solution(Some("XYZ"), None))
    requires dom.hasResponseInput
    ensures Exchange(Answer(1, Text("T1")), polls) == (Solved(Solution(Some("XYZ"), None)), 3)
    ensures ReloadUserAgent(Solution(Some("XYZ"), None)) == None
    ensures Inject(dom, callbackName, None, TokenToInject(Solution(Some("XYZ"), None))) ==
              Some(SetInputValue(Text("XYZ")))
  {
  }

  /** A rejected task creation surfaces the service's code and makes no poll. */
  lemma RejectedSubmitMakesNoPoll(polls: seq<Answer>)
    requires MaxPolls <= |polls|
    ensures Exchange(Answer(0, Text("INVALID_SITE_KEY")), polls) == (Rejected(Text("INVALID_SITE_KEY")), 0)
  {
  }

  /** Thirty not-ready answers: a timeout after exactly thirty polls. */
  lemma ThirtyNotReadyTimesOut(polls: seq<Answer>)
    requires |polls| == MaxPolls
    requires forall j :: 0 <= j < |polls| ==> polls[j] == Answer(0, Text(NotReady))
    ensures Exchange(Answer(1, Text("T1")), polls) == (Timeout, MaxPolls)
  {
    AllPendingTimesOut(Answer(1, Text("T1")), polls);
  }

  /** A URL still on the login page fails the heuristic whatever the title. */
  lemma StillOnLoginPage(title: string)
    ensures !LoginSucceeded("https://example.com/login", title)
  {
    assert OccursAt("https://example.com/login", "login", 20);
  }

  /** A title with "Login" in any case fails the heuristic whatever the URL. */
  lemma LoginInTitle(url: string)
    ensures !LoginSucceeded(url, "Member Login")
  {
    LoginSucceededIff(url, "Member Login");
    assert SpellsLoginAt("Member Login", 7);
  }
}
