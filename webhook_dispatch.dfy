/**
 * HttpDispatch and HttpDispatchTask of celery.task.http: where the task's
 * keyword arguments go in the request (the URL query for GET and HEAD, an
 * encoded body otherwise), and the fallback of `run` to the task's own URL
 * and method. The network request itself is a parameter.
 */
module WebhookDispatch {
  import opened Wrappers
  import opened Webhook
  import opened WebhookUrl

  /** `GET_METHODS`. */
  const GetMethods: set<string> := {"GET", "HEAD"}

  /** `method in GET_METHODS`; None (no method at all) is not in it. */
  predicate InGetMethods(verb: Option<string>)
  {
    verb.Some? && verb.value in GetMethods
  }

  /** Python truthiness of an optional string: neither None nor empty. */
  predicate Truthy(s: Option<string>)
  {
    s.Some? && s.value != ""
  }

  /** Python's `arg or fallback`. */
  function OrElse(arg: Option<string>, fallback: Option<string>): (r: Option<string>)
    ensures r == arg || r == fallback
    ensures Truthy(r) <==> Truthy(arg) || Truthy(fallback)
  {
    if Truthy(arg) then arg else fallback
  }

  /** What `make_request` is handed: the URL string, the method and the body (None for no body). */
  datatype Request = Request(url: string, verb: Option<string>, body: Option<string>)

  /** The request `HttpDispatch(url, method, kwargs).dispatch()` makes. */
  function PlannedRequest(lib: UrlLib, url: string, verb: Option<string>, kwargs: Query): (r: Request)
    ensures r.verb == verb
    ensures r.body.None? <==> InGetMethods(verb)
  {
    var parts := lib.urlparse(url);
    if InGetMethods(verb) then
      Request(Render(parts, lib.urlencode(ParsedQuery(lib, url) + kwargs)), verb, None)
    else
      Request(Render(parts, lib.urlencode(ParsedQuery(lib, url))), verb, Some(lib.urlencode(Utf8Dict(kwargs))))
  }

  /**
   * GET and HEAD: the keyword arguments are merged into the URL's query
   * (overriding keys it already has) and no body is sent. Any other method,
   * None included: the URL keeps its own query and the body is the encoded
   * keyword arguments.
   */
  lemma ParameterPlacement(lib: UrlLib, url: string, verb: Option<string>, kwargs: Query)
    ensures var req := PlannedRequest(lib, url, verb, kwargs);
      req.verb == verb
      && (InGetMethods(verb) ==>
            req.body.None?
            && exists q: Query ::
                 req.url == Render(lib.urlparse(url), lib.urlencode(q))
                 && q.Keys == ParsedQuery(lib, url).Keys + kwargs.Keys
                 && (forall k :: k in kwargs ==> q[k] == kwargs[k])
                 && (forall k :: k in ParsedQuery(lib, url) && k !in kwargs ==> q[k] == ParsedQuery(lib, url)[k]))
      && (!InGetMethods(verb) ==>
            req.body == Some(lib.urlencode(kwargs))
            && req.url == Render(lib.urlparse(url), lib.urlencode(ParsedQuery(lib, url))))
  {
  }

  /** Only the exact upper-case names GET and HEAD put the arguments in the URL. */
  lemma GetMethodsExactly(verb: Option<string>)
    ensures InGetMethods(verb) <==> verb == Some("GET") || verb == Some("HEAD")
  {
  }

  /** `run`'s fallback: the argument when it is truthy, the task's attribute otherwise. */
  lemma OrElseFallback(arg: Option<string>, fallback: Option<string>)
    ensures Truthy(arg) ==> OrElse(arg, fallback) == arg
    ensures !Truthy(arg) ==> OrElse(arg, fallback) == fallback
  {
  }

  class HttpDispatch {
    const url: string
    const verb: Option<string>
    const taskKwargs: Query

    constructor (url: string, verb: Option<string>, taskKwargs: Query)
      ensures this.url == url && this.verb == verb && this.taskKwargs == taskKwargs
    {
      this.url := url;
      this.verb := verb;
      this.taskKwargs := taskKwargs;
    }

    /**
     * `dispatch()`: build the request, send it with makeRequest and decode
     * the raw response it returns.
     */
    method Dispatch(lib: UrlLib, loads: string -> Decoded, makeRequest: Request -> string)
      returns (req: Request, r: Result<Json, HttpError>)
      ensures req == PlannedRequest(lib, url, verb, taskKwargs)
      ensures r == ExtractResponse(makeRequest(req), loads)
    {
      var u := new MutableUrl(url, lib);
      var params: Option<string> := None;
      if InGetMethods(verb) {
        u.UpdateQuery(taskKwargs);
      } else {
        params := Some(lib.urlencode(Utf8Dict(taskKwargs)));
      }
      var s := u.ToString(lib);
      req := Request(s, verb, params);
      r := ExtractResponse(makeRequest(req), loads);
    }
  }

  /** The method a caller of `run` gets when it names none. */
  const DefaultMethodArgument: Option<string> := Some("GET")

  /**
   * The default argument is truthy, so a caller that names no method gets
   * GET, with the arguments in the URL, whatever method the task declares.
   */
  lemma DefaultMethodOverridesTask(taskVerb: Option<string>)
    ensures OrElse(DefaultMethodArgument, taskVerb) == Some("GET")
    ensures InGetMethods(OrElse(DefaultMethodArgument, taskVerb))
  {
  }

  class HttpDispatchTask {
    /** The task's default URL and method; None unless a subclass sets them. */
    const url: Option<string>
    const verb: Option<string>

    constructor (url: Option<string>, verb: Option<string>)
      ensures this.url == url && this.verb == verb
    {
      this.url := url;
      this.verb := verb;
    }

    /**
     * `run(url, method, **kwargs)`. When neither the argument nor the task
     * gives a URL, parsing the missing URL fails before any request is made.
     */
    method Run(lib: UrlLib, loads: string -> Decoded, makeRequest: Request -> string,
               url: Option<string>, verb: Option<string>, kwargs: Query)
      returns (req: Option<Request>, r: Result<Json, HttpError>)
      ensures OrElse(url, this.url).None? ==> req == None && r == Failure(UrlMissing)
      ensures OrElse(url, this.url).Some? ==>
        req == Some(PlannedRequest(lib, OrElse(url, this.url).value, OrElse(verb, this.verb), kwargs))
        && r == ExtractResponse(makeRequest(req.value), loads)
      ensures Truthy(url) ==> req.Some? && req.value == PlannedRequest(lib, url.value, OrElse(verb, this.verb), kwargs)
      ensures Truthy(verb) ==> req.Some? ==> req.value.verb == verb
    {
      var chosenUrl := OrElse(url, this.url);
      var chosenMethod := OrElse(verb, this.verb);
      if chosenUrl.None? {
        req, r := None, Failure(UrlMissing);
        return;
      }
      var d := new HttpDispatch(chosenUrl.value, chosenMethod, kwargs);
      var sent;
      sent, r := d.Dispatch(lib, loads, makeRequest);
      req := Some(sent);
    }
  }
}
