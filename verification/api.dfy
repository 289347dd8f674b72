/**
 * `BaseApi`: a mutable description of one HTTP request whose fluent setters
 * update fields in place and return the same object, a `Run` that stores the
 * response the transport gives back, and the path extractor and validator that
 * read that stored response.
 */
module Api {
  import opened Text
  import opened Values
  import opened Extraction

  /** Every field handed to the transport, in the order `run` passes them. */
  datatype RequestSpec = RequestSpec(
    httpMethod: string,
    url: string,
    params: Option<map<string, Value>>,
    data: Value,
    headers: Value,
    cookies: Option<map<string, Value>>,
    files: Value,
    auth: Value,
    timeout: Value,
    allowRedirects: bool,
    proxies: Value,
    hooks: Value,
    stream: Value,
    verify: Value,
    cert: Value,
    json: Value)

  /** The class-level defaults: GET, empty URL, redirects allowed, everything else None. */
  const DefaultSpec: RequestSpec :=
    RequestSpec("GET", "", None, Null, Null, None, Null, Null, Null, true, Null, Null, Null, Null, Null, Null)

  /** Why `validate` fails: the path could not be resolved, or the value differs. */
  datatype Failure = LookupFailed(error: LookupError) | AssertionFailed

  /** The cookie map `set_cookie` starts from: the current one, or a new empty one. */
  function CookiesOrEmpty(cookies: Option<map<string, Value>>): map<string, Value>
  {
    if cookies.Some? then cookies.value else map[]
  }

  class BaseApi {
    var httpMethod: string
    var url: string
    var params: Option<map<string, Value>>
    var data: Value
    var headers: Value
    var cookies: Option<map<string, Value>>
    var files: Value
    var auth: Value
    var timeout: Value
    var allowRedirects: bool
    var proxies: Value
    var hooks: Value
    var stream: Value
    var verify: Value
    var cert: Value
    var json: Value
    /** The last response stored by `Run`; None (`Null`) before the first run. */
    var response: Value

    /** The stored response is None or a response (nothing else is ever stored), and
        a stored response's header map keeps each entry under its lower-cased name. */
    ghost predicate Valid()
      reads this
    {
      && (response.Null? || response.Resp?)
      && (response.Resp? ==> WellKeyed(response.response.headers))
    }

    /** The request this object describes. */
    function Spec(): RequestSpec
      reads this
    {
      RequestSpec(httpMethod, url, params, data, headers, cookies, files, auth, timeout,
                  allowRedirects, proxies, hooks, stream, verify, cert, json)
    }

    /** A fresh description carries the defaults and no response. */
    constructor ()
      ensures Valid()
      ensures Spec() == DefaultSpec
      ensures response == Null
    {
      httpMethod, url, params, data, headers, cookies := "GET", "", None, Null, Null, None;
      files, auth, timeout, allowRedirects, proxies := Null, Null, Null, true, Null;
      hooks, stream, verify, cert, json := Null, Null, Null, Null, Null;
      response := Null;
    }

    /** `set_params(**p)`: params become exactly `p`; earlier params are discarded, not merged. */
    method SetParams(p: map<string, Value>) returns (self: BaseApi)
      requires Valid()
      modifies this
      ensures Valid()
      ensures self == this
      ensures params == Some(p)
      ensures Spec() == old(Spec()).(params := Some(p))
      ensures response == old(response)
    {
      params := Some(p);
      self := this;
    }

    /** `set_cookie(key, value)`: creates the cookie map when there is none, then sets one
        key; every other cookie keeps its value. */
    method SetCookie(key: string, value: Value) returns (self: BaseApi)
      requires Valid()
      modifies this
      ensures Valid()
      ensures self == this
      ensures cookies.Some? && key in cookies.value && cookies.value[key] == value
      ensures cookies.value.Keys == CookiesOrEmpty(old(cookies)).Keys + {key}
      ensures forall k :: k in CookiesOrEmpty(old(cookies)) && k != key ==>
                cookies.value[k] == CookiesOrEmpty(old(cookies))[k]
      ensures Spec() == old(Spec()).(cookies := Some(CookiesOrEmpty(old(cookies))[key := value]))
      ensures response == old(response)
    {
      var current := CookiesOrEmpty(cookies);
      cookies := Some(current[key := value]);
      self := this;
    }

    /** `set_json(j)`: replaces the JSON body; nothing else changes. */
    method SetJson(j: Value) returns (self: BaseApi)
      requires Valid()
      modifies this
      ensures Valid()
      ensures self == this
      ensures json == j
      ensures Spec() == old(Spec()).(json := j)
      ensures response == old(response)
    {
      json := j;
      self := this;
    }

    /**
     * `run()`: hands every field of the request to the transport `send` and stores
     * what it returns as the response, replacing any earlier one.
     */
    method Run(send: RequestSpec -> Response) returns (self: BaseApi)
      requires WellKeyed(send(Spec()).headers)
      modifies this
      ensures Valid()
      ensures self == this
      ensures Spec() == old(Spec())
      ensures response == Resp(send(old(Spec())))
    {
      response := Resp(send(Spec()));
      self := this;
    }

    /** `extract(field)`: walks the pieces of `field` from the stored response. */
    method Extract(field: string) returns (r: Result<Value, LookupError>)
      ensures r == Extracted(response, field)
    {
      var segs := Split(field);
      var value := response;
      var i := 0;
      while i < |segs|
        invariant 0 <= i <= |segs|
        invariant Walk(response, value, segs[i..]) == Extracted(response, field)
      {
        var key := segs[i];
        assert segs[i..][0] == key && segs[i..][1..] == segs[i + 1..];
        match value {
          case Resp(resp) =>
            if key == "json()" {
              // the body parsed is always that of the stored response
              match response {
                case Resp(stored) =>
                  if stored.body.None? {
                    return Err(JsonDecodeError);
                  }
                  value := stored.body.value;
                case _ =>
                  return Err(AttributeError("json"));
              }
            } else {
              var attr := GetAttr(resp, key);
              if attr.Err? {
                return Err(attr.error);
              }
              value := attr.value;
            }
          case Headers(d) =>
            var found := HeaderGet(d, key);
            if found.None? {
              return Err(KeyError(Lower(key)));
            }
            value := found.value;
          case Dict(m) =>
            if key !in m {
              return Err(KeyError(key));
            }
            value := m[key];
          case _ =>
        }
        i := i + 1;
      }
      return Ok(value);
    }

    /** `validate(key, expected)`: succeeds with this object exactly when the path
        resolves to `expected`; changes nothing. */
    method Validate(key: string, expected: Value) returns (r: Result<BaseApi, Failure>)
      ensures r.Ok? <==> Extracted(response, key) == Ok(expected)
      ensures r.Ok? ==> r.value == this
      ensures Extracted(response, key).Err? ==> r == Err(LookupFailed(Extracted(response, key).error))
      ensures Extracted(response, key).Ok? && Extracted(response, key).value != expected ==>
                r == Err(AssertionFailed)
    {
      var actual := Extract(key);
      if actual.Err? {
        return Err(LookupFailed(actual.error));
      }
      if actual.value != expected {
        return Err(AssertionFailed);
      }
      return Ok(this);
    }

    /** `get_response()`: the response stored by the latest run, or None before any run. */
    method GetResponse() returns (r: Value)
      requires Valid()
      ensures r == response
      ensures r.Null? || r.Resp?
      ensures r.Resp? ==> WellKeyed(r.response.headers)
    {
      r := response;
    }
  }
}
