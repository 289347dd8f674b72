/**
 * The values a dotted path walks over: the stored HTTP response, its
 * case-insensitive header map, decoded JSON structures, and opaque objects
 * that the walk cannot descend into.
 */
module Values {
  import opened Text

  datatype Option<T> = None | Some(value: T)

  datatype Result<T, E> = Ok(value: T) | Err(error: E)

  /**
   * A header map that remembers each key as written but looks keys up by their
   * lower-cased form: `store` maps the lower-cased key to the pair
   * (key as last written, value).
   */
  datatype CaseInsensitiveDict = CaseInsensitiveDict(store: map<string, (string, Value)>)

  /**
   * The response returned by the transport. `body` is the decoded JSON of
   * `text`, or None when `text` is not JSON.
   */
  datatype Response = Response(
    statusCode: int,
    headers: CaseInsensitiveDict,
    text: string,
    url: string,
    reason: string,
    body: Option<Value>)

  /** The kinds of value the current step of a path walk can hold. */
  datatype Value =
    | Null
    | Bool(b: bool)
    | Int(i: int)
    | Str(s: string)
    | List(items: seq<Value>)
    | Dict(entries: map<string, Value>)
    | Headers(dict: CaseInsensitiveDict)
    | Resp(response: Response)
    | Object(kind: string)

  /** Failures of a path walk: an unknown attribute, a missing key, a body that is not JSON. */
  datatype LookupError = AttributeError(name: string) | KeyError(key: string) | JsonDecodeError

  /** Every stored entry sits under the lower-cased form of its written key. */
  ghost predicate WellKeyed(d: CaseInsensitiveDict)
  {
    forall k :: k in d.store ==> Lower(d.store[k].0) == k
  }

  /** `d[key] = value`: replaces any entry whose key differs from `key` only in case. */
  function HeaderSet(d: CaseInsensitiveDict, key: string, value: Value): (r: CaseInsensitiveDict)
    requires WellKeyed(d)
    ensures WellKeyed(r)
    ensures |r.store| == |d.store| + (if Lower(key) in d.store then 0 else 1)
  {
    LowerIdempotent(key);
    CaseInsensitiveDict(d.store[Lower(key) := (key, value)])
  }

  /** `d[key]`: the value stored under any key equal to `key` up to case, if there is one. */
  function HeaderGet(d: CaseInsensitiveDict, key: string): Option<Value>
  {
    if Lower(key) in d.store then Some(d.store[Lower(key)].1) else None
  }

  /** Looking a key up after setting it finds the new value under every spelling of
      that key, and every other key keeps its value. */
  lemma HeaderGetSet(d: CaseInsensitiveDict, key: string, value: Value, probe: string)
    requires WellKeyed(d)
    ensures HeaderGet(HeaderSet(d, key, value), probe)
         == if Lower(probe) == Lower(key) then Some(value) else HeaderGet(d, probe)
  {
  }

  /** Lookup ignores letter case. */
  lemma HeaderGetIgnoresCase(d: CaseInsensitiveDict, a: string, b: string)
    requires Lower(a) == Lower(b)
    ensures HeaderGet(d, a) == HeaderGet(d, b)
  {
  }

  /** Lookup finds every stored entry under its written key. */
  lemma HeaderGetFindsWrittenKey(d: CaseInsensitiveDict, k: string)
    requires WellKeyed(d)
    requires k in d.store
    ensures HeaderGet(d, d.store[k].0) == Some(d.store[k].1)
  {
  }
}
