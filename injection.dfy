/** What the login script does with a solved result (login.js:83-99): an
    optional user-agent switch and reload, then the token written into the
    page along exactly one of three paths. */
module Injection {
  import opened Wrappers
  import opened JsText
  import opened Hook
  import opened Oracle

  /** `if (result.useragent)`: the user agent to switch to before injecting,
      if any. A plain-string result has no `useragent` property. */
  function ReloadUserAgent(result: Payload): (ua: Option<string>)
    ensures ua.Some? <==> result.Solution? && Truthy(result.useragent)
    ensures ua.Some? ==> ua == result.useragent && ua.value != ""
  {
    if result.Solution? && Truthy(result.useragent) then result.useragent else None
  }

  /** `result.token || result`: the token of a solution object when it is
      set, otherwise the result itself. */
  function TokenToInject(result: Payload): (v: Payload)
  {
    if result.Solution? && Truthy(result.token) then Text(result.token.value) else result
  }

  /** What is injected is the solution's token when there is one, and a
      truthy result never turns into an empty injection. */
  lemma TokenToInjectChoice(result: Payload)
    ensures result.Solution? && Truthy(result.token) ==> TokenToInject(result) == Text(result.token.value)
    ensures !(result.Solution? && Truthy(result.token)) ==> TokenToInject(result) == result
    ensures PayloadTruthy(result) ==> PayloadTruthy(TokenToInject(result))
  {
  }

  /** The page facts the injection script looks at: whether an
      `input[name="cf-turnstile-response"]` exists, and which global names
      hold a truthy value on `window`. */
  datatype Dom = Dom(hasResponseInput: bool, globals: set<string>)

  /** The three ways of handing the token to the page. */
  datatype Path = ResponseInput | NamedGlobal | CapturedCallback

  /** The order in which the paths are tried. */
  function Rank(path: Path): nat
  {
    match path
    case ResponseInput => 0
    case NamedGlobal => 1
    case CapturedCallback => 2
  }

  /** Whether a path can be taken: the input exists; the callback name
      passed from the controller is set and names a global; the page's own
      `window.tsParams.callback` is set. */
  predicate Available(path: Path, dom: Dom, callbackName: Option<string>, slot: Option<TsParams>)
  {
    match path
    case ResponseInput => dom.hasResponseInput
    case NamedGlobal => Truthy(callbackName) && callbackName.value in dom.globals
    case CapturedCallback => slot.Some? && CallbackTruthy(slot.value.callback)
  }

  /** The one effect the injection script has on the page. */
  datatype Effect =
    | SetInputValue(value: Payload)
    | CallGlobal(name: string, arg: Payload)
    | CallCaptured(callback: Callback, arg: Payload)

  function PathOf(e: Effect): Path
  {
    match e
    case SetInputValue(_) => ResponseInput
    case CallGlobal(_, _) => NamedGlobal
    case CallCaptured(_, _) => CapturedCallback
  }

  function ArgOf(e: Effect): Payload
  {
    match e
    case SetInputValue(v) => v
    case CallGlobal(_, v) => v
    case CallCaptured(_, v) => v
  }

  /** The injection script: set the response input, else call the named
      global, else call the callback the hook captured, else do nothing. */
  function Inject(dom: Dom, callbackName: Option<string>, slot: Option<TsParams>, token: Payload): (e: Option<Effect>)
    ensures e.Some? ==> Available(PathOf(e.value), dom, callbackName, slot)
    ensures e.Some? ==> forall p :: Rank(p) < Rank(PathOf(e.value)) ==> !Available(p, dom, callbackName, slot)
    ensures e.None? <==> forall p :: !Available(p, dom, callbackName, slot)
    ensures e.Some? ==> ArgOf(e.value) == token
    ensures e.Some? && e.value.CallGlobal? ==> Some(e.value.name) == callbackName
    ensures e.Some? && e.value.CallCaptured? ==> slot.Some? && Some(e.value.callback) == slot.value.callback
  {
    if dom.hasResponseInput then
      assert Available(ResponseInput, dom, callbackName, slot);
      Some(SetInputValue(token))
    else if Truthy(callbackName) && callbackName.value in dom.globals then
      assert Available(NamedGlobal, dom, callbackName, slot);
      Some(CallGlobal(callbackName.value, token))
    else if slot.Some? && CallbackTruthy(slot.value.callback) then
      assert Available(CapturedCallback, dom, callbackName, slot);
      Some(CallCaptured(slot.value.callback.value, token))
    else
      assert !Available(ResponseInput, dom, callbackName, slot);
      assert !Available(NamedGlobal, dom, callbackName, slot);
      assert !Available(CapturedCallback, dom, callbackName, slot);
      None
  }
}
