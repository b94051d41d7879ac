/** The task-creation form sent to the solving service's `in.php` endpoint
    (login.js:47-57): fixed fields, the sitekey taken from the page markup
    or else from the hook, and three optional fields copied from the hook's
    capture only when they are set. */
module SolveRequest {
  import opened Wrappers
  import opened JsText
  import opened Hook

  /** A field value of the form: a string, a number, or `undefined`. */
  datatype FormValue = Str(s: string) | Num(n: int) | Undefined

  /** An optional string as a form value. */
  function AsValue(o: Option<string>): FormValue
  {
    if o.Some? then Str(o.value) else Undefined
  }

  /** `sitekey || tsParams.sitekey`: the page attribute wins whenever it is
      non-empty, otherwise whatever the hook captured is used, even if that
      is empty or absent. */
  function ChooseSitekey(page: Option<string>, captured: Option<string>): (r: Option<string>)
    ensures Truthy(page) ==> r == page
    ensures !Truthy(page) ==> r == captured
    ensures Truthy(r) <==> Truthy(page) || Truthy(captured)
  {
    if Truthy(page) then page else captured
  }

  /** The fields every request carries. */
  const BaseFields: set<string> := {"key", "method", "sitekey", "pageurl", "json"}

  /** The optional fields, present exactly when the captured value is truthy. */
  function OptionalFields(ts: TsParams): set<string>
  {
    (if Truthy(ts.action) then {"action"} else {}) +
    (if Truthy(ts.cData) then {"data"} else {}) +
    (if Truthy(ts.chlPageData) then {"pagedata"} else {})
  }

  /** `params` is the request built from the service key, the page's
      sitekey attribute, the page URL and the hook's capture. */
  ghost predicate IsSolveRequest(params: map<string, FormValue>, apiKey: string,
                                 sitekey: Option<string>, pageUrl: string, ts: TsParams)
  {
    params.Keys == BaseFields + OptionalFields(ts) &&
    params["key"] == Str(apiKey) &&
    params["method"] == Str("turnstile") &&
    params["sitekey"] == AsValue(ChooseSitekey(sitekey, ts.sitekey)) &&
    params["pageurl"] == Str(pageUrl) &&
    params["json"] == Num(1) &&
    (Truthy(ts.action) ==> "action" in params && params["action"] == Str(ts.action.value)) &&
    (Truthy(ts.cData) ==> "data" in params && params["data"] == Str(ts.cData.value)) &&
    (Truthy(ts.chlPageData) ==> "pagedata" in params && params["pagedata"] == Str(ts.chlPageData.value))
  }

  /** Builds the `params` object: the five fixed fields first, then each
      optional field added in place when the capture has it. */
  method BuildParams(apiKey: string, sitekey: Option<string>, pageUrl: string, ts: TsParams)
    returns (params: map<string, FormValue>)
    ensures IsSolveRequest(params, apiKey, sitekey, pageUrl, ts)
    ensures "action" in params <==> Truthy(ts.action)
    ensures "data" in params <==> Truthy(ts.cData)
    ensures "pagedata" in params <==> Truthy(ts.chlPageData)
  {
    params := map["key" := Str(apiKey), "method" := Str("turnstile"),
                  "sitekey" := AsValue(ChooseSitekey(sitekey, ts.sitekey)),
                  "pageurl" := Str(pageUrl), "json" := Num(1)];
    if Truthy(ts.action) {
      params := params["action" := Str(ts.action.value)];
    }
    if Truthy(ts.cData) {
      params := params["data" := Str(ts.cData.value)];
    }
    if Truthy(ts.chlPageData) {
      params := params["pagedata" := Str(ts.chlPageData.value)];
    }
  }

  /** The inputs determine the request completely. */
  lemma SolveRequestUnique(p1: map<string, FormValue>, p2: map<string, FormValue>,
                           apiKey: string, sitekey: Option<string>, pageUrl: string, ts: TsParams)
    requires IsSolveRequest(p1, apiKey, sitekey, pageUrl, ts)
    requires IsSolveRequest(p2, apiKey, sitekey, pageUrl, ts)
    ensures p1 == p2
  {
  }

  /** The request carries a usable sitekey exactly when the page attribute
      or the hook's capture is non-empty. */
  lemma SitekeyRecoverable(params: map<string, FormValue>, apiKey: string,
                           sitekey: Option<string>, pageUrl: string, ts: TsParams)
    requires IsSolveRequest(params, apiKey, sitekey, pageUrl, ts)
    ensures (params["sitekey"].Str? && params["sitekey"].s != "") <==> Truthy(sitekey) || Truthy(ts.sitekey)
  {
  }
}
