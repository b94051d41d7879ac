/** `solveTurnstile(page, sitekey, pageUrl)` (login.js:18-102) put together
    from its parts: key check, hook and reload, request, exchange with the
    solving service, user-agent switch and token injection. The page and the
    service are inputs. */
module Turnstile {
  import opened Wrappers
  import opened JsText
  import opened Hook
  import opened SolveRequest
  import opened Oracle
  import opened Injection

  /** The named failures of a login attempt. */
  datatype Error =
    | ConfigMissing(name: string)
    | ChallengeNotFound
    | MissingSitekey
    | OracleRejected(reason: Payload)
    | OracleFailed(reason: Payload)
    | SolveTimeout
    | NavigationTimeout
    | VerificationFailed(url: string, title: string)

  /** The call `turnstile.render(widget, options)` the page makes while it
      loads through the hook. */
  datatype RenderCall = RenderCall(widget: string, options: RenderOptions)

  /** What the page reacts with to the reload: the challenge it renders,
      if it renders one, and the page facts at injection time. */
  datatype Page = Page(render: Option<RenderCall>, dom: Dom)

  /** A solved challenge: the user agent switched to, if any, and what the
      page was given. */
  datatype Solve = Solve(userAgent: Option<string>, effect: Option<Effect>)

  /** What was sent to the service: the request, if any, and the number of
      polls. */
  datatype Trace = Trace(request: Option<map<string, FormValue>>, polls: nat)

  /** `window.tsParams` after the page rendered through the hook. */
  function SlotAfter(render: Option<RenderCall>): Option<TsParams>
  {
    if render.Some? then Some(Capture(render.value.options)) else None
  }

  /** `tsParams.callback` on the controller side, as passed to the injection
      script: only a callback given by name survives the read-back. */
  function CallbackName(ts: TsParams): (name: Option<string>)
    ensures name.Some? <==> ts.callback.Some? && ts.callback.value.Named?
    ensures name.Some? ==> ts.callback == Some(Named(name.value))
  {
    if ts.callback.Some? && ts.callback.value.Named? then Some(ts.callback.value.name) else None
  }

  /** The error a failed exchange surfaces as. */
  function ExchangeError(outcome: Outcome): Error
    requires !outcome.Solved?
  {
    match outcome
    case Rejected(m) => OracleRejected(m)
    case PollFailed(m) => OracleFailed(m)
    case Timeout => SolveTimeout
  }

  /** Runs the whole solve for one page load. */
  method SolveTurnstile(apiKey: Option<string>, sitekey: Option<string>, pageUrl: string,
                        page: Page, submit: Answer, polls: seq<Answer>)
    returns (result: Result<Solve, Error>, trace: Trace)
    requires MaxPolls <= |polls|
    ensures !Truthy(apiKey) ==>
              result == Failure(ConfigMissing("CAPTCHA_API_KEY")) && trace == Trace(None, 0)
    ensures Truthy(apiKey) ==>
              trace.request.Some? &&
              IsSolveRequest(trace.request.value, apiKey.value, sitekey, pageUrl, ReadBack(SlotAfter(page.render)))
    ensures Truthy(apiKey) ==> trace.polls == Exchange(submit, polls).1
    ensures Truthy(apiKey) && !Exchange(submit, polls).0.Solved? ==>
              result == Failure(ExchangeError(Exchange(submit, polls).0))
    ensures Truthy(apiKey) && Exchange(submit, polls).0.Solved? ==>
              var solution := Exchange(submit, polls).0.result;
              var slot := SlotAfter(page.render);
              result == Success(Solve(ReloadUserAgent(solution),
                                      Inject(page.dom, CallbackName(ReadBack(slot)), slot,
                                             TokenToInject(solution))))
  {
    if !Truthy(apiKey) {
      return Failure(ConfigMissing("CAPTCHA_API_KEY")), Trace(None, 0);
    }
    var window := new PageWindow();
    if page.render.Some? {
      var widgetId := window.Render(page.render.value.widget, page.render.value.options);
      assert widgetId == MockWidgetId;
    }
    var ts := window.Params();
    var params := BuildParams(apiKey.value, sitekey, pageUrl, ts);
    var outcome, used := SubmitAndPoll(submit, polls);
    trace := Trace(Some(params), used);
    if !outcome.Solved? {
      return Failure(ExchangeError(outcome)), trace;
    }
    var solution := outcome.result;
    var userAgent := ReloadUserAgent(solution);
    var effect := Inject(page.dom, CallbackName(ts), window.tsParams, TokenToInject(solution));
    result := Success(Solve(userAgent, effect));
  }
}
