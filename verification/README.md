# pytest-requests `BaseApi` in Dafny

A model of `BaseApi` from pytest-requests. `BaseApi` is a fluent description of one
HTTP request that a test suite builds, runs and then asserts on. The model has two parts.

- **Request builder state** (`api.dfy`, module `Api`). `BaseApi` is a class with
  one field per request attribute: method, URL, params, data, headers, cookies,
  files, auth, timeout, redirect policy, proxies, hooks, stream, verify, cert and
  JSON body. It also holds the last response. The fluent setters update fields in
  place and return the same object. `Run` passes the whole request (`Spec()`) to a
  transport function given as a parameter and stores the response it returns.
- **Dotted-path extractor** (`text.dfy`, `values.dfy`, `extraction.dfy`). The path
  is split on every `.` with no quote handling. The walk starts at the stored
  response and applies one piece per step, depending on what the current value is:
  - on a response, `json()` gives the decoded body of the *stored* response, and any
    other piece is an attribute;
  - on a header map, the piece is a key looked up by its lower-cased form;
  - on a dict, the piece is a key looked up exactly;
  - on anything else, the piece is skipped.

  A missing attribute or key is an explicit `LookupError`. `BaseApi.Extract` is the
  loop, and it is proved equal to the recursive specification `Extracted`.
  `BaseApi.Validate` succeeds exactly when the path resolves to the expected value.

This model follows the code in `pytest_requests/api.py`. Points where the code
behaves differently from what tests/test_core.py expects, or where it may surprise:
- Segments are not quote-aware. `headers."Content-Type"` looks up a key that still
  contains its quote characters. tests/test_core.py:49, 62, 76 and 94 use such
  paths as if the quotes were removed.
- `set_params` replaces the params. tests/test_core.py:28-37 chains `set_param`
  and `set_params` and expects both keys to be sent.
- `extract` before `run` returns None for every path, because the stored response
  starts as None and each piece is skipped.
- A piece applied to a value that is neither a response nor a map is skipped, and
  the value passes through unchanged.
- Helpers that the tests call, for example the `assert_*` family, `set_param`,
  `set_header`, `set_headers`, `set_data`, `set_cookies` and `extract_response`, do
  not exist in `api.py`.

## Model

| member | source | states |
|---|---|---|
| `Api.BaseApi.constructor` | pytest_requests/api.py:6-24 | A new object has the class defaults: `GET`, empty URL, redirects allowed, every other field None, and no response. |
| `Api.BaseApi.SetParams` | pytest_requests/api.py:26-28 | Params become exactly the given map, discarding earlier params without merging. The result is the same object, and no other field or the response changes. |
| `Api.BaseApi.SetCookie` | pytest_requests/api.py:30-33 | If there is no cookie map, an empty one is created first. Afterwards the key maps to the value, every other earlier cookie keeps its value, and the keys are the old keys plus this one. The result is the same object, and nothing else changes. |
| `Api.BaseApi.SetJson` | pytest_requests/api.py:35-37 | The JSON body becomes the given value. The result is the same object, and every other field and the response are unchanged. |
| `Api.BaseApi.Run` | pytest_requests/api.py:39-59 | The stored response becomes what the transport returns for the request made of all sixteen fields. The request fields are unchanged, and the result is the same object. The transport must return a header map that keeps each entry under its lower-cased name, as a case-insensitive dict does, and `Valid()` keeps that true of the stored response. |
| `Api.BaseApi.Extract` | pytest_requests/api.py:61-72 | The loop over the pieces of the path returns exactly the recursive walk `Extracted` from the stored response, including its first error. |
| `Api.BaseApi.Validate` | pytest_requests/api.py:74-77 | Returns the same object exactly when the path resolves to the expected value. If the lookup fails, that lookup error is returned. If the value differs, an assertion failure is returned. No state changes. |
| `Api.BaseApi.GetResponse` | pytest_requests/api.py:79-80 | Returns the stored response, which is always None or a response whose header map keeps each entry under its lower-cased name. |
| `Text.Split` | pytest_requests/api.py:63 | Splitting always yields at least one piece. |
| `Text.SplitCount` | pytest_requests/api.py:63 | There is one piece more than the path has dots, so the walk takes exactly one step per piece. |
| `Text.JoinSplit` | pytest_requests/api.py:63 | Joining the pieces with `.` gives back the path. |
| `Text.SplitJoin` | pytest_requests/api.py:63 | Splitting a `.`-join of dot-free segments gives back those segments. |
| `Text.SplitPiecesHaveNoDot` | pytest_requests/api.py:63 | No piece contains a dot. |
| `Text.SplitDotFree` | pytest_requests/api.py:63 | A path without a dot is a single piece. |
| `Text.SplitConcat` | pytest_requests/api.py:63 | The pieces of `p.q` are the pieces of `p` followed by those of `q`. |
| `Text.QuotedSegmentKeepsQuotes` | pytest_requests/api.py:63 | `headers."Content-Type"` splits into `headers` and `"Content-Type"`, and the quotes stay in the piece. |
| `Text.QuotedDotIsSplit` | pytest_requests/api.py:63 | Quotes do not protect a dot: `body."a.b"` gives three pieces. |
| `Text.Lower` | pytest_requests/api.py:69-70 | The lower-cased key has the same length as the original, and each character is lower-cased individually. |
| `Text.LowerIdempotent` | pytest_requests/api.py:69-70 | Lower-casing an already lower-cased key changes nothing. |
| `Values.HeaderGetSet` | pytest_requests/api.py:69-70 | After a header is set, every case variant of its name finds the new value, and every other name keeps its old lookup. |
| `Values.HeaderGetIgnoresCase` | pytest_requests/api.py:69-70 | Header lookup gives the same answer for names equal up to case. |
| `Values.HeaderGetFindsWrittenKey` | pytest_requests/api.py:69-70 | Every stored header is found under the name it was written with. |
| `Extraction.GetAttr` | pytest_requests/api.py:67-68 | Attribute lookup succeeds exactly for the known response attributes. Any other name fails with an attribute error naming it. |
| `Extraction.Step` | pytest_requests/api.py:64-71 | One step leaves a value it cannot descend into unchanged. On a response, `json()` yields the stored response's decoded body. It fails with a decode error when that body is not JSON, and with an attribute error when nothing is stored. Any other piece is the attribute of that name. A dict step succeeds exactly when the key is present and yields the value stored under it. A header step succeeds exactly when some case variant is present and yields that header's value. A dict miss is a key error naming the piece, and a header miss is a key error naming the lower-cased piece. |
| `Extraction.WalkAppend` | pytest_requests/api.py:63-71 | Walking `a + b` is walking `a`, then walking `b` from where `a` ended. The first error stops the walk. |
| `Extraction.WalkSingle` | pytest_requests/api.py:63-71 | A walk over one piece is one step. |
| `Extraction.WalkPastLeaf` | pytest_requests/api.py:64-71 | From a scalar, list, None or other opaque value, every remaining piece is skipped. |
| `Extraction.ExtractBeforeRun` | pytest_requests/api.py:61-72 | With the initial None response (line 24), every path yields None. |
| `Extraction.ExtractOneSegment` | pytest_requests/api.py:61-72 | A dot-free path is a single step from the stored response. |
| `Extraction.ExtractFirstSegment` | pytest_requests/api.py:61-72 | The path `seg.rest` is one step on `seg`, then `rest` walked from its result. |
| `Extraction.ExtractConcat` | pytest_requests/api.py:61-72 | Extracting `p.q` is extracting `p`, then walking `q` from its result. |
| `Extraction.ExtractPastLeaf` | pytest_requests/api.py:61-72 | Once a path resolves to a value that cannot be descended into, adding more pieces does not change the result. |
| `Extraction.ExtractStatusCode` | pytest_requests/api.py:67-68 | `status_code` yields the response's status code. |
| `Extraction.ExtractUnknownAttribute` | pytest_requests/api.py:67-68 | A single unknown attribute name fails with an attribute error naming it. |
| `Extraction.ExtractJson` | pytest_requests/api.py:65-66 | `json()` yields the decoded body of the stored response, or a decode error when the body is not JSON. |
| `Extraction.ExtractJsonPath` | pytest_requests/api.py:65-66 | `json().path` walks `path` inside the decoded body. |
| `Extraction.ExtractJsonKey` | pytest_requests/api.py:65-70 | `json().key` on a JSON object that has `key` yields the value stored under it. |
| `Extraction.ExtractJsonMissingKey` | pytest_requests/api.py:65-70 | `json().key` on a JSON object without `key` fails with a key error naming it. |
| `Extraction.ExtractHeader` | pytest_requests/api.py:67-70 | `headers.name` is a case-insensitive header lookup. A missing header is a key error naming the lower-cased name, as the case-insensitive dict raises it. |
| `Extraction.ExtractStoredHeader` | pytest_requests/api.py:67-70 | On a well-keyed header map, every stored header is extracted under the name it was written with. |
| `Extraction.ExtractHeaderIgnoresCase` | pytest_requests/api.py:69-70 | Two spellings of a header name that differ only in case give the same result: the same value, or the same key error naming the lower-cased name. |
| `Extraction.QuotedHeaderNameKeepsQuotes` | pytest_requests/api.py:63-70 | `headers."Name"` looks up the name with its quote characters, so it does not find a header stored as `Name`. A miss is a key error naming the lower-cased quoted name. |

## Left out

- The HTTP call inside `run` and its optional `session` argument (pytest_requests/api.py:40-58). These are network I/O in the `requests` library, including cookie continuity across a shared session. `Run` takes the transport as a function from the request to a response. Transport failures, which propagate unhandled in the source, are not modelled.
- JSON decoding behind `response.json()`. A response carries its already-decoded body, or None when its text is not JSON.
- Extraction.GetAttr: knows only `status_code`, `headers`, `text`, `url`, `reason`, `ok`, `request` and `json`. Every other attribute of a `requests.Response` (`content`, `cookies`, `history`, `elapsed`, ...) is reported as missing. `request` and `json` are opaque objects that the walk cannot descend into, as in the source.
- Text.Lower: lower-cases ASCII letters only, while Python's `str.lower` also lower-cases non-ASCII letters.
- Python's equality between different types (`1 == True`), the identity equality of response objects, and `CaseInsensitiveDict.__eq__` are not modelled. That last one compares a header map with any mapping while ignoring key case, so in Python `validate("headers", {...})` succeeds on a case-only difference. `Validate` compares model values structurally, so there it fails.
- With `python -O`, the `assert` in `validate` is removed and it always succeeds. The model follows the default interpreter, where the assertion runs.
- JSON numbers with a fractional part (and floats in general) have no `Value` variant, so a decoded body (pytest_requests/api.py:66) that contains them cannot be represented. Only integers, strings, booleans, None, lists and objects are modelled.
- `set_json` (pytest_requests/api.py:36) stores a reference to the caller's object, so later changes the caller makes to that dict or list reach the body that `run` sends. The model stores the value itself, so this aliasing is not captured.
- Building a header map (`Values.HeaderSet`, the model of `__setitem__` on a case-insensitive dict) belongs to the requests library, not to api.py, so it has no row. It is kept so that `HeaderGetSet` can state how lookup behaves on a map built by setting headers.
- Class-level mutable defaults shared between instances are not modelled. Every field belongs to its instance, so the in-place `update` of a dict shared between instances is not captured.
- The tests in tests/test_core.py are not modelled. They need the network and call helpers (`assert_status_code`, `assert_body`, `set_param`, ...) that `api.py` does not define.
