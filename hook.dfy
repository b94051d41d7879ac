/** The replacement for `window.turnstile.render` that the login script
    installs in every new document (login.js:23-41), and the read-back of
    the slot it fills (login.js:47). */
module Hook {
  import opened Wrappers

  /** The `callback` option: either the name of a global function or a
      function value (identified here by an opaque number). */
  datatype Callback = Named(name: string) | Function(id: nat)

  /** JavaScript truthiness of a callback option: a function is always
      truthy, a name only when it is not empty. */
  predicate CallbackTruthy(cb: Option<Callback>)
  {
    match cb
    case None => false
    case Some(Named(n)) => n != ""
    case Some(Function(_)) => true
  }

  /** The options object the page passes to `turnstile.render`; options the
      hook does not look at (theme, size, ...) are kept in `otherOptions`. */
  datatype RenderOptions = RenderOptions(
    sitekey: Option<string>,
    action: Option<string>,
    cData: Option<string>,
    chlPageData: Option<string>,
    callback: Option<Callback>,
    otherOptions: map<string, string>)

  /** The object stored in `window.tsParams`. */
  datatype TsParams = TsParams(
    sitekey: Option<string>,
    action: Option<string>,
    cData: Option<string>,
    chlPageData: Option<string>,
    callback: Option<Callback>)

  /** `{}`: what the controller sees when nothing was captured. */
  const NoParams := TsParams(None, None, None, None, None)

  /** The placeholder the hooked `render` returns instead of a widget id. */
  const MockWidgetId := "mock-widget-id"

  /** The five fields the hook copies out of the options object. */
  function Capture(options: RenderOptions): (p: TsParams)
  {
    TsParams(options.sitekey, options.action, options.cData, options.chlPageData, options.callback)
  }

  /** What `page.evaluate(() => window.tsParams || {})` hands back to the
      controller: the slot, or `{}` when it is empty. The value crosses the
      page boundary serialised, so a function-valued callback is dropped and
      only a callback given by name survives. */
  function ReadBack(slot: Option<TsParams>): (p: TsParams)
    ensures slot.None? ==> p == NoParams
    ensures slot.Some? ==>
              (p.sitekey == slot.value.sitekey && p.action == slot.value.action &&
               p.cData == slot.value.cData && p.chlPageData == slot.value.chlPageData)
    ensures p.callback.Some? ==> slot.Some? && slot.value.callback == p.callback && p.callback.value.Named?
    ensures slot.Some? && slot.value.callback.Some? && slot.value.callback.value.Named? ==> p.callback == slot.value.callback
  {
    match slot
    case None => NoParams
    case Some(t) =>
      var cb := if t.callback.Some? && t.callback.value.Named? then t.callback else None;
      TsParams(t.sitekey, t.action, t.cData, t.chlPageData, cb)
  }

  /** The page's `window`, reduced to the one global the hook writes. */
  class PageWindow {
    var tsParams: Option<TsParams>

    /** A fresh document: `window.tsParams` is undefined. */
    constructor ()
      ensures tsParams == None
    {
      tsParams := None;
    }

    /** The hooked `window.turnstile.render(widget, options)`: records the
        five options in `window.tsParams`, replacing whatever an earlier call
        stored, renders nothing and returns the placeholder id. */
    method Render(widget: string, options: RenderOptions) returns (id: string)
      modifies this
      ensures tsParams == Some(Capture(options))
      ensures id == MockWidgetId
    {
      tsParams := Some(Capture(options));
      id := MockWidgetId;
    }

    /** The controller's view of `window.tsParams || {}`. */
    function Params(): (p: TsParams)
      reads this
    {
      ReadBack(tsParams)
    }
  }

  /** What the controller reads back after the page rendered through the
      hook: the four string options exactly as the page passed them, and the
      callback only when the page named a global function. */
  lemma RenderThenReadBack(options: RenderOptions)
    ensures ReadBack(Some(Capture(options))).sitekey == options.sitekey
    ensures ReadBack(Some(Capture(options))).action == options.action
    ensures ReadBack(Some(Capture(options))).cData == options.cData
    ensures ReadBack(Some(Capture(options))).chlPageData == options.chlPageData
    ensures ReadBack(Some(Capture(options))).callback ==
      (if options.callback.Some? && options.callback.value.Named? then options.callback else None)
  {
  }
}
