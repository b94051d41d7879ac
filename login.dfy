/** The `login()` driver (login.js:104-169): environment check, the steps
    around the challenge, the success heuristic and the one notification
    per attempt. Browser steps and their results are inputs. */
module Login {
  import opened Wrappers
  import opened JsText
  import opened SolveRequest
  import opened Oracle
  import opened Turnstile

  /** The variables that must be set before the browser is launched, in the
      order they are checked. */
  const RequiredEnvs: seq<string> :=
    ["WEBSITE_URL", "USERNAME", "PASSWORD", "CAPTCHA_API_KEY", "TELEGRAM_BOT_TOKEN", "TELEGRAM_CHAT_ID"]

  /** `process.env[name]` as an optional string. */
  function EnvValue(env: map<string, string>, name: string): Option<string>
  {
    if name in env then Some(env[name]) else None
  }

  /** `process.env[name]` is truthy. */
  predicate IsSet(env: map<string, string>, name: string)
  {
    Truthy(EnvValue(env, name))
  }

  /** `names[k]` is the first name in the list that is not set. */
  predicate FirstUnsetAt(env: map<string, string>, names: seq<string>, k: int)
  {
    0 <= k < |names| && !IsSet(env, names[k]) && forall j :: 0 <= j < k ==> IsSet(env, names[j])
  }

  /** The check loop: the first variable of `names` that is not set, or
      nothing when all are. */
  method FirstMissing(env: map<string, string>, names: seq<string>) returns (missing: Option<string>)
    ensures missing.None? <==> forall j :: 0 <= j < |names| ==> IsSet(env, names[j])
    ensures missing.Some? ==> exists k :: FirstUnsetAt(env, names, k) && names[k] == missing.value
  {
    for i := 0 to |names|
      invariant forall j :: 0 <= j < i ==> IsSet(env, names[j])
    {
      if !IsSet(env, names[i]) {
        assert FirstUnsetAt(env, names, i);
        return Some(names[i]);
      }
    }
    return None;
  }

  /** `!url.includes('login') && !title.toLowerCase().includes('login')`. */
  predicate LoginSucceeded(url: string, title: string)
  {
    !Includes(url, "login") && !Includes(Lower(title), "login")
  }

  /** The five characters of `title` at position `i` spell "login" in some
      mix of upper and lower case. */
  predicate SpellsLoginAt(title: string, i: int)
  {
    0 <= i && i + 5 <= |title| && Lower(title[i..i + 5]) == "login"
  }

  /** The heuristic in terms of the page as it is: the URL must not contain
      "login" as written, and no five characters of the title may spell
      "login" in any mix of upper and lower case. */
  lemma {:induction false} LoginSucceededIff(url: string, title: string)
    ensures LoginSucceeded(url, title) <==>
              (forall i :: 0 <= i <= |url| ==> !OccursAt(url, "login", i)) &&
              (forall i :: 0 <= i <= |title| ==> !SpellsLoginAt(title, i))
  {
    if Includes(Lower(title), "login") {
      var i :| 0 <= i <= |Lower(title)| && OccursAt(Lower(title), "login", i);
      LowerSlice(title, i, i + 5);
      assert SpellsLoginAt(title, i);
    }
    forall i | 0 <= i <= |title| && SpellsLoginAt(title, i)
      ensures Includes(Lower(title), "login")
    {
      LowerSlice(title, i, i + 5);
      assert OccursAt(Lower(title), "login", i);
    }
  }

  /** The messages sent to the chat. */
  datatype Notice = SuccessNotice(url: string, title: string) | FailureNotice(error: Error)

  /** How an attempt ends. */
  datatype LoginOutcome = LoggedIn(url: string, title: string) | Failed(error: Error)

  /** The message an outcome is reported with. */
  function NoticeFor(outcome: LoginOutcome): Notice
  {
    match outcome
    case LoggedIn(url, title) => SuccessNotice(url, title)
    case Failed(e) => FailureNotice(e)
  }

  /** What the browser and the service answer during one attempt. */
  datatype Site = Site(
    challengeAppears: bool,      // `.cf-turnstile` shows up within 15 s
    sitekeyAttr: Option<string>, // its `data-sitekey`, null when absent
    pageUrl: string,             // `page.url()` before solving
    page: Page,                  // the page's reaction to the hook reload
    submit: Answer,              // the answer to the task creation
    polls: seq<Answer>,          // the answers to successive polls
    navigates: bool,             // the navigation after submit settles within 15 s
    urlAfter: string,            // `page.url()` afterwards
    title: string)               // `page.title()` afterwards

  /** One login attempt. */
  method Login(env: map<string, string>, site: Site)
    returns (outcome: LoginOutcome, notices: seq<Notice>, launched: bool, trace: Trace)
    requires MaxPolls <= |site.polls|
    ensures outcome.Failed? && outcome.error.ConfigMissing? && !launched <==>
              exists k :: FirstUnsetAt(env, RequiredEnvs, k)
    ensures !launched ==>
              notices == [] && trace == Trace(None, 0) &&
              exists k :: FirstUnsetAt(env, RequiredEnvs, k) && outcome == Failed(ConfigMissing(RequiredEnvs[k]))
    ensures launched ==> notices == [NoticeFor(outcome)]
    ensures launched && !site.challengeAppears ==>
              outcome == Failed(ChallengeNotFound) && trace.request.None?
    ensures launched && site.challengeAppears && !Truthy(site.sitekeyAttr) ==>
              outcome == Failed(MissingSitekey) && trace.request.None?
    ensures launched && site.challengeAppears && Truthy(site.sitekeyAttr) ==>
              trace.request.Some? && "sitekey" in trace.request.value &&
              trace.request.value["sitekey"] == Str(site.sitekeyAttr.value) &&
              trace.polls == Exchange(site.submit, site.polls).1
    ensures launched && site.challengeAppears && Truthy(site.sitekeyAttr) &&
            !Exchange(site.submit, site.polls).0.Solved? ==>
              outcome == Failed(ExchangeError(Exchange(site.submit, site.polls).0))
    ensures launched && site.challengeAppears && Truthy(site.sitekeyAttr) &&
            Exchange(site.submit, site.polls).0.Solved? && !site.navigates ==>
              outcome == Failed(NavigationTimeout)
    ensures outcome.LoggedIn? ==>
              launched && Exchange(site.submit, site.polls).0.Solved? && site.navigates &&
              outcome == LoggedIn(site.urlAfter, site.title) && LoginSucceeded(site.urlAfter, site.title)
    ensures launched && site.challengeAppears && Truthy(site.sitekeyAttr) &&
            Exchange(site.submit, site.polls).0.Solved? && site.navigates ==>
              outcome == (if LoginSucceeded(site.urlAfter, site.title) then LoggedIn(site.urlAfter, site.title)
                          else Failed(VerificationFailed(site.urlAfter, site.title)))
  {
    var missing := FirstMissing(env, RequiredEnvs);
    if missing.Some? {
      return Failed(ConfigMissing(missing.value)), [], false, Trace(None, 0);
    }
    launched := true;
    trace := Trace(None, 0);
    var error: Error;
    if !site.challengeAppears {
      error := ChallengeNotFound;
    } else if !Truthy(site.sitekeyAttr) {
      error := MissingSitekey;
    } else {
      assert IsSet(env, RequiredEnvs[3]);
      var solved;
      solved, trace := SolveTurnstile(EnvValue(env, "CAPTCHA_API_KEY"), site.sitekeyAttr, site.pageUrl,
                                      site.page, site.submit, site.polls);
      if solved.Failure? {
        error := solved.error;
      } else if !site.navigates {
        error := NavigationTimeout;
      } else if LoginSucceeded(site.urlAfter, site.title) {
        outcome := LoggedIn(site.urlAfter, site.title);
        return outcome, [NoticeFor(outcome)], launched, trace;
      } else {
        error := VerificationFailed(site.urlAfter, site.title);
      }
    }
    outcome := Failed(error);
    notices := [NoticeFor(outcome)];
  }
}
