/**
 * The dotted-path interpreter behind `BaseApi.extract`: the path is cut on
 * every '.', and each piece is applied to the current value according to
 * what kind of value it is.
 */
module Extraction {
  import opened Text
  import opened Values

  /** Values a path piece can descend into; every other kind lets the piece pass by. */
  predicate Descendable(v: Value)
  {
    v.Resp? || v.Headers? || v.Dict?
  }

  /** The attributes of a response the model knows by name. */
  const KnownAttributes: set<string> :=
    {"status_code", "headers", "text", "url", "reason", "ok", "request", "json"}

  /**
   * `getattr(response, name)`. `request` is the prepared request object and
   * `json` the unbound parse method: both are objects a path cannot descend into.
   */
  function GetAttr(r: Response, name: string): (res: Result<Value, LookupError>)
    ensures res.Ok? <==> name in KnownAttributes
    ensures res.Err? ==> res.error == AttributeError(name)
  {
    if name == "status_code" then Ok(Int(r.statusCode))
    else if name == "headers" then Ok(Headers(r.headers))
    else if name == "text" then Ok(Str(r.text))
    else if name == "url" then Ok(Str(r.url))
    else if name == "reason" then Ok(Str(r.reason))
    // `ok` is false exactly for 4xx and 5xx status codes
    else if name == "ok" then Ok(Bool(!(400 <= r.statusCode < 600)))
    else if name == "request" then Ok(Object("PreparedRequest"))
    else if name == "json" then Ok(Object("method"))
    else Err(AttributeError(name))
  }

  /**
   * One iteration of the walk. On a response the piece `json()` parses the body
   * of the STORED response `stored` (not of the current value); any other piece
   * is an attribute. On a header map or a dict the piece is a key. Anything else
   * is left unchanged.
   */
  function Step(stored: Value, value: Value, seg: string): (r: Result<Value, LookupError>)
    ensures !Descendable(value) ==> r == Ok(value)
    ensures r.Err? && value.Dict? ==> r.error == KeyError(seg)
    ensures r.Err? && value.Headers? ==> r.error == KeyError(Lower(seg))
    ensures value.Dict? ==> (r.Ok? <==> seg in value.entries)
    ensures value.Dict? && seg in value.entries ==> r == Ok(value.entries[seg])
    ensures value.Headers? ==> (r.Ok? <==> HeaderGet(value.dict, seg).Some?)
    ensures value.Headers? && HeaderGet(value.dict, seg).Some? ==> r == Ok(HeaderGet(value.dict, seg).value)
    ensures value.Resp? && seg != "json()" ==> r == GetAttr(value.response, seg)
    ensures value.Resp? && seg == "json()" && stored.Resp? ==>
              r == if stored.response.body.Some? then Ok(stored.response.body.value) else Err(JsonDecodeError)
    ensures value.Resp? && seg == "json()" && !stored.Resp? ==> r == Err(AttributeError("json"))
  {
    match value
    case Resp(resp) =>
      if seg == "json()" then
        match stored
        case Resp(s) => (if s.body.Some? then Ok(s.body.value) else Err(JsonDecodeError))
        case _ => Err(AttributeError("json"))
      else GetAttr(resp, seg)
    case Headers(d) =>
      (match HeaderGet(d, seg)
       case Some(v) => Ok(v)
       // the header map raises the lower-cased key it looked for
       case None => Err(KeyError(Lower(seg))))
    case Dict(m) => if seg in m then Ok(m[seg]) else Err(KeyError(seg))
    case _ => Ok(value)
  }

  /** Apply the pieces left to right; the first failing piece ends the walk. */
  function Walk(stored: Value, value: Value, segs: seq<string>): Result<Value, LookupError>
    decreases |segs|
  {
    if segs == [] then Ok(value)
    else
      match Step(stored, value, segs[0])
      case Err(e) => Err(e)
      case Ok(next) => Walk(stored, next, segs[1..])
  }

  /** `extract(field)` with `response` as the stored response. */
  function Extracted(response: Value, field: string): Result<Value, LookupError>
  {
    Walk(response, response, Split(field))
  }

  /** Walking two lists of pieces in a row is walking their concatenation. */
  lemma {:induction false} WalkAppend(stored: Value, value: Value, a: seq<string>, b: seq<string>)
    ensures Walk(stored, value, a + b)
         == match Walk(stored, value, a)
            case Err(e) => Err(e)
            case Ok(mid) => Walk(stored, mid, b)
    decreases |a|
  {
    if a == [] {
      assert a + b == b;
    } else {
      assert (a + b)[0] == a[0];
      assert (a + b)[1..] == a[1..] + b;
      match Step(stored, value, a[0])
      case Err(e) =>
      case Ok(next) =>
        WalkAppend(stored, next, a[1..], b);
    }
  }

  /** Once the walk reaches a value it cannot descend into, every later piece is skipped. */
  lemma {:induction false} WalkPastLeaf(stored: Value, value: Value, segs: seq<string>)
    requires !Descendable(value)
    ensures Walk(stored, value, segs) == Ok(value)
  {
    if segs != [] {
      WalkPastLeaf(stored, value, segs[1..]);
    }
  }

  /** Before any run the stored response is None, and every path yields None. */
  lemma ExtractBeforeRun(field: string)
    ensures Extracted(Null, field) == Ok(Null)
  {
    WalkPastLeaf(Null, Null, Split(field));
  }

  /** The path `p.q` is the path `p` followed by the path `q` from where `p` ended. */
  lemma ExtractConcat(response: Value, p: string, q: string)
    ensures Extracted(response, p + "." + q)
         == match Extracted(response, p)
            case Err(e) => Err(e)
            case Ok(mid) => Walk(response, mid, Split(q))
  {
    SplitConcat(p, q);
    WalkAppend(response, response, Split(p), Split(q));
  }

  /** Further pieces after a path that ended on a leaf value change nothing. */
  lemma ExtractPastLeaf(response: Value, p: string, q: string)
    requires Extracted(response, p).Ok?
    requires !Descendable(Extracted(response, p).value)
    ensures Extracted(response, p + "." + q) == Extracted(response, p)
  {
    ExtractConcat(response, p, q);
    WalkPastLeaf(response, Extracted(response, p).value, Split(q));
  }

  /** A single piece is a single step. */
  lemma WalkSingle(stored: Value, value: Value, seg: string)
    ensures Walk(stored, value, [seg]) == Step(stored, value, seg)
  {
  }

  /** A path without a dot is a single step from the stored response. */
  lemma ExtractOneSegment(response: Value, seg: string)
    requires '.' !in seg
    ensures Extracted(response, seg) == Step(response, response, seg)
  {
    SplitDotFree(seg);
    WalkSingle(response, response, seg);
  }

  /** A dot-free first piece is one step from the stored response; the rest of the
      path is walked from where that step ended. */
  lemma ExtractFirstSegment(response: Value, seg: string, path: string)
    requires '.' !in seg
    ensures Extracted(response, seg + "." + path)
         == match Step(response, response, seg)
            case Err(e) => Err(e)
            case Ok(mid) => Walk(response, mid, Split(path))
  {
    ExtractConcat(response, seg, path);
    ExtractOneSegment(response, seg);
  }

  /** `status_code` gives the response's status code. */
  lemma ExtractStatusCode(r: Response)
    ensures Extracted(Resp(r), "status_code") == Ok(Int(r.statusCode))
  {
    assert '.' !in "status_code";
    ExtractOneSegment(Resp(r), "status_code");
  }

  /** A single dot-free piece that is neither `json()` nor a known attribute fails
      with an attribute error naming it. */
  lemma ExtractUnknownAttribute(r: Response, name: string)
    requires '.' !in name
    requires name != "json()" && name !in KnownAttributes
    ensures Extracted(Resp(r), name) == Err(AttributeError(name))
  {
    SplitDotFree(name);
  }

  /** `json()` gives the decoded body, and fails when the body is not JSON. */
  lemma ExtractJson(r: Response)
    ensures Extracted(Resp(r), "json()")
         == if r.body.Some? then Ok(r.body.value) else Err(JsonDecodeError)
  {
    assert '.' !in "json()";
    ExtractOneSegment(Resp(r), "json()");
  }

  /** `json().path` walks `path` inside the decoded body. */
  lemma ExtractJsonPath(r: Response, path: string)
    requires r.body.Some?
    ensures Extracted(Resp(r), "json()." + path) == Walk(Resp(r), r.body.value, Split(path))
  {
    assert '.' !in "json()";
    assert "json()" + "." + path == "json()." + path;
    ExtractFirstSegment(Resp(r), "json()", path);
  }

  /** `json().key` on a JSON object without `key` fails with a key error naming it. */
  lemma ExtractJsonMissingKey(r: Response, key: string)
    requires r.body.Some? && r.body.value.Dict?
    requires '.' !in key && key !in r.body.value.entries
    ensures Extracted(Resp(r), "json()." + key) == Err(KeyError(key))
  {
    ExtractJsonPath(r, key);
    SplitDotFree(key);
    WalkSingle(Resp(r), r.body.value, key);
  }

  /** `json().key` on a JSON object that has `key` yields the value stored under it. */
  lemma ExtractJsonKey(r: Response, key: string)
    requires r.body.Some? && r.body.value.Dict?
    requires '.' !in key && key in r.body.value.entries
    ensures Extracted(Resp(r), "json()." + key) == Ok(r.body.value.entries[key])
  {
    ExtractJsonPath(r, key);
    SplitDotFree(key);
    WalkSingle(Resp(r), r.body.value, key);
  }

  /** `headers.name` looks `name` up in the header map, ignoring case, and fails with a
      key error naming the lower-cased name when no header of that name exists. */
  lemma ExtractHeader(r: Response, name: string)
    requires '.' !in name
    ensures Extracted(Resp(r), "headers." + name)
         == match HeaderGet(r.headers, name)
            case Some(v) => Ok(v)
            case None => Err(KeyError(Lower(name)))
  {
    assert '.' !in "headers";
    assert "headers" + "." + name == "headers." + name;
    ExtractFirstSegment(Resp(r), "headers", name);
    SplitDotFree(name);
    WalkSingle(Resp(r), Headers(r.headers), name);
  }

  /** On a well-keyed header map, every stored header is extracted under the name it
      was written with. */
  lemma ExtractStoredHeader(r: Response, k: string)
    requires WellKeyed(r.headers)
    requires k in r.headers.store && '.' !in r.headers.store[k].0
    ensures Extracted(Resp(r), "headers." + r.headers.store[k].0) == Ok(r.headers.store[k].1)
  {
    ExtractHeader(r, r.headers.store[k].0);
    HeaderGetFindsWrittenKey(r.headers, k);
  }

  /** Two spellings of a header name that differ only in case extract the same result:
      the same value, or the same key error naming the lower-cased name. */
  lemma ExtractHeaderIgnoresCase(r: Response, a: string, b: string)
    requires '.' !in a && '.' !in b
    requires Lower(a) == Lower(b)
    ensures Extracted(Resp(r), "headers." + a) == Extracted(Resp(r), "headers." + b)
  {
    ExtractHeader(r, a);
    ExtractHeader(r, b);
    HeaderGetIgnoresCase(r.headers, a, b);
  }

  /**
   * A double-quoted header name is looked up WITH its quotes: `headers."Content-Type"`
   * asks for the key `"Content-Type"`, quote characters included, so it fails on a
   * response that has a `Content-Type` header and no header whose name is quoted.
   */
  lemma QuotedHeaderNameKeepsQuotes(r: Response, name: string)
    requires '.' !in name
    ensures Extracted(Resp(r), "headers.\"" + name + "\"")
         == match HeaderGet(r.headers, "\"" + name + "\"")
            case Some(v) => Ok(v)
            case None => Err(KeyError(Lower("\"" + name + "\"")))
  {
    var quoted := "\"" + name + "\"";
    assert '.' !in quoted by {
      assert forall i :: 0 <= i < |quoted| ==> quoted[i] == '"' || quoted[i] in name;
    }
    ExtractHeader(r, quoted);
    assert "headers." + quoted == "headers.\"" + name + "\"";
  }
}
