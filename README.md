# Turnstile login flow — a Dafny model

This project models the decision logic of `login.js`, a script that logs into a
web site guarded by a Cloudflare Turnstile challenge. The script hooks the
page's `turnstile.render` to capture the widget options, sends them to the
2Captcha solving service (`in.php`), polls `res.php` up to thirty times,
optionally switches the user agent, and injects the token into the page. A
`login()` driver around it checks the environment, finds the challenge and its
sitekey, runs the solve, submits the form and judges success from the URL and
the title.

The browser, the network and the clock are not modelled. What they answer is
given as input values: whether the challenge element appears, its
`data-sitekey`, the options the page passes to `render`, the service's answers,
the page facts the injection script looks at, and the URL and title after
navigation. Browser steps other than these reads are assumed to succeed (see
"## Left out").

Modules, one per part of the script:

- `Wrappers`: `Option` and `Result`.
- `JsText`: truthiness of optional strings, `includes` and ASCII `toLowerCase`.
- `Hook`: the hooked `render` as a method of the class `PageWindow`, which owns the
  `window.tsParams` slot. It also holds the controller's read-back of that slot.
- `SolveRequest`: the `in.php` form. It is built in place by `BuildParams` and
  characterised by `IsSolveRequest`.
- `Oracle`: the submit check and the thirty-step poll loop. `SubmitAndPoll` is the
  loop and `Exchange` is the function it is proved against. Lemmas give each
  outcome's meaning.
- `Injection`: the user-agent reload, the token choice and the three injection paths
  in priority order.
- `Turnstile`: `solveTurnstile` composed from the parts above.
- `Login`: the environment check loop, the success heuristic and the driver.
- `Scenarios`: concrete runs (rejected submit, token after two not-ready
  answers, thirty not-ready answers, login marker in URL or title).

Behaviour of the script that the model keeps as written:

- A missing environment variable is raised before the `try` block
  (login.js:106-109). So it gets no screenshot and no notification. Every
  failure after the `try` at login.js:124 is entered gets exactly one failure
  notice (`Login.Login`).
- The driver aborts on a missing `data-sitekey` (login.js:137) before the hook is
  consulted. So inside the driver the request's sitekey is always the page
  attribute. The fallback to the hook's sitekey exists only in `solveTurnstile` itself.
- The callback name given to the injection script is the controller's copy of
  `tsParams.callback`. `page.evaluate` serialises that copy, so only a callback
  given as a string name reaches it. A function-valued callback is reachable only
  through the in-page fallback.
- Injection takes at most one path, and possibly none (no input, no named
  global, no captured callback).
- A success answer whose payload is empty ends in a timeout, like thirty
  not-ready answers (login.js:81).

## Model

| member | source | states |
|---|---|---|
| `Hook.PageWindow.Render` | login.js:28-38 | the hooked render stores the five options (sitekey, action, cData, chlPageData, callback) in `window.tsParams`, replacing any earlier capture, and returns "mock-widget-id" |
| `Hook.ReadBack` | login.js:47 | an empty slot reads back as `{}`; otherwise the four string options come back unchanged and the callback only when it is a name |
| `Hook.RenderThenReadBack` | login.js:29-35 | after a render through the hook the controller sees the page's sitekey, action, cData and chlPageData exactly, and its callback exactly when it is a name |
| `SolveRequest.ChooseSitekey` | login.js:51 | the page sitekey is used whenever it is non-empty, else the captured one; the result is non-empty iff one of the two is |
| `SolveRequest.BuildParams` | login.js:48-57 | the form has exactly the fields key, method="turnstile", sitekey, pageurl, json=1, plus action, data and pagedata exactly when the captured action, cData and chlPageData are non-empty, holding those values |
| `SolveRequest.SolveRequestUnique` | login.js:48-57 | the key, sitekey, page URL and capture determine the request completely |
| `SolveRequest.SitekeyRecoverable` | login.js:51 | the request carries a non-empty sitekey iff the page attribute or the captured sitekey is non-empty |
| `Oracle.SubmitAndPoll` | login.js:59-81 | the loop's outcome and poll count equal those of `Exchange` on the same answers |
| `Oracle.PollFromStopsAtFirstNonPending` | login.js:68-79 | from any iteration the loop stops right after the first answer that is not the not-ready code, carrying that answer's payload or message; if there is none it makes every remaining poll |
| `Oracle.ExchangeOutcomes` | login.js:61-81 | at most 30 polls; rejected iff submit status is not 1, with its raw `request` and no poll; a result or poll error comes from the first non-not-ready answer after only not-ready ones; a timeout is 30 not-ready answers or a success with an empty payload |
| `Oracle.FirstNonPendingDecides` | login.js:68-81 | after an accepted submit, the first answer that is not the not-ready code decides the outcome and is the last poll made |
| `Oracle.AllPendingTimesOut` | login.js:68-81 | thirty not-ready answers end in a timeout after thirty polls |
| `Injection.ReloadUserAgent` | login.js:84-87 | a user-agent reload happens iff the result is an object with a non-empty `useragent`, and uses that value |
| `Injection.TokenToInjectChoice` | login.js:99 | the injected value is the result's token when non-empty, else the result itself; a truthy result never yields an empty injection |
| `Injection.Inject` | login.js:90-98 | at most one effect; its path is available and no higher-priority path (input, then named global, then captured callback) is; no effect iff no path is available; the token is passed as is |
| `Turnstile.CallbackName` | login.js:99 | the callback name given to the injection script is present iff the controller's copy of the callback is a name |
| `Turnstile.SolveTurnstile` | login.js:18-102 | without an API key it fails before any request; otherwise it sends the request `IsSolveRequest` describes, polls as `Exchange` says, maps the exchange's failures to named errors, and on success reports the user-agent reload and the single injection effect |
| `Login.FirstMissing` | login.js:106-109 | nothing is missing iff every listed variable is set; otherwise the result is the first unset name in list order |
| `Login.LoginSucceededIff` | login.js:150 | success iff "login" does not occur in the URL as written and no five title characters spell "login" in any letter case |
| `Login.Login` | login.js:104-169 | a missing variable aborts before launch with no notice; otherwise exactly one notice matching the outcome; no challenge or no sitekey aborts before any request; the request carries the page sitekey; solve failures surface by name; a navigation that does not settle is a navigation timeout; after a solve and a navigation the outcome is exactly the heuristic's verdict |
| `Scenarios.SolvedAfterTwoNotReady` | login.js:68-99 | two not-ready answers then a token "XYZ" without user agent: solved after three polls, no reload, the response input receives "XYZ" |
| `Scenarios.RejectedSubmitMakesNoPoll` | login.js:61-63 | a submit answer "INVALID_SITE_KEY" with status 0 is a rejection with that message and no poll |
| `Scenarios.ThirtyNotReadyTimesOut` | login.js:68-81 | thirty not-ready answers time out after thirty polls |
| `Scenarios.StillOnLoginPage` | login.js:150 | the URL "https://example.com/login" fails the heuristic whatever the title |
| `Scenarios.LoginInTitle` | login.js:150 | the title "Member Login" fails the heuristic whatever the URL |

## Left out

- Browser automation is not modelled: puppeteer launch, the stealth plugin, `goto`, `type`, `click`, `waitForSelector`, `waitForNavigation` and `browser.close` (login.js:1-5, 111-147, 167). Only the results of `waitForSelector`, `waitForNavigation`, `page.url()` and `page.title()` are inputs: `Site.challengeAppears`, `Site.navigates`, `Site.pageUrl`, `Site.urlAfter`, `Site.title`.
- Login.Login: `page.goto` (login.js:125), the two `page.type` calls (login.js:127-128), `page.click` (login.js:142), the two `page.reload` calls (login.js:44, 86), `page.setUserAgent` (login.js:85) and the `page.evaluate` calls (login.js:47, 90, 133) are assumed to succeed. In the script a throw from any of them, such as a page without `#email` or a reload that never reaches network idle, ends in a failure notice carrying that error; the model has no `Error` for these cases, in `Login.Login` or in `Turnstile.SolveTurnstile`.
- HTTP calls through axios to the solving service and to Telegram (login.js:7-16, 59, 70) are not modelled. The service's JSON answers are inputs, and a notification is a value in the result. Network errors thrown by axios, and a failed Telegram send (which the script only logs), are not modelled.
- Oracle.SubmitAndPoll: the answers are given for all thirty possible polls, because the service answers every poll. The ticket id is not carried, because every poll asks about the same task.
- Login.Login: failures of `puppeteer.launch`, `browser.newPage` and `page.setUserAgent` (login.js:111-122) are not modelled. They run before the `try` at login.js:124, so in the script they get no screenshot and no notice, and `browser.close()` is not reached. The model's `launched` flag means that these steps succeeded.
- Timers are not modelled: the in-page `setInterval` that waits for `window.turnstile` (login.js:24-40) and the 5-second sleeps (login.js:69). A page that never calls `render` is `Page.render == None`. Time is counted in polls.
- Side effects are not modelled: screenshot capture, `Date.now()`/`toISOString()` message text and console logging (login.js:152, 160-165). A screenshot that throws, and so suppresses the failure notice, is not modelled either.
- Hook.PageWindow.Render: the widget argument and the saved `originalRender` are unused, as in the script. The model does not separately state that the real widget never runs, because nothing in the hooked function calls it.
- Turnstile.SolveTurnstile: the page is assumed to render the same options again after the user-agent reload, so the in-page `window.tsParams` at injection time is the first capture.
- Injection.Inject: when the captured callback is a string and no global of that name exists, the script calls the string, which throws a TypeError in the page. The model records this call as a `CallCaptured` effect.
- JavaScript truthiness is modelled only as "absent or empty string" against "present". Option values that are numbers, booleans or objects other than the callback are not modelled.
- JsText.Lower: only ASCII letters are lower-cased. Unicode case mapping, including mappings that change the length, is not modelled.
- The top-level `login()` call and the process exit status (login.js:165, 171) are not modelled.
