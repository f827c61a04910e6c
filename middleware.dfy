/**
 * api/middleware/action.go: extraction of the request parameters that the
 * access log records, the Action/Version context keys, the paths that skip
 * authentication, and the (disabled) header check.
 *
 * Go strings handled as bytes are `Bytes`; the request is an echo `Context`
 * whose body can be read once and then replaced. gjson's lookup of a key in a
 * JSON text is the injected function `jsonGet`.
 */
module Middleware {
  import opened Common
  import opened GoStrings
  import opened Errno
  import opened ErrnoTable

  const ActionKey := "Action"
  const VersionKey := "Version"

  /** The headers a request must carry; their check is disabled in the source. */
  const RequiredHeaders := ["X-REQUEST-ID", "X-USER-ID"]

  const Space: byte := 32
  const Newline: byte := 10
  /** `"..."`. */
  const Ellipsis: Bytes := [46, 46, 46]
  /** The longest body and query kept before truncation. */
  const BodyLimit := 4096
  const QueryLimit := 512

  /** `net/http.MethodPost`. */
  const MethodPost := "POST"

  /** The body with every space and line feed removed and the other bytes in their order. */
  function Strip(s: Bytes): (r: Bytes)
    ensures Space !in r && Newline !in r
    ensures multiset(r) == multiset(s)[Space := 0][Newline := 0]
    ensures Space !in s && Newline !in s ==> r == s
  {
    var r := DeleteAll(DeleteAll(s, Space), Newline);
    assert multiset(r)[Space] == 0;
    r
  }

  /** Stripping distributes over concatenation, so it keeps the order of the remaining bytes. */
  lemma StripAppend(a: Bytes, b: Bytes)
    ensures Strip(a + b) == Strip(a) + Strip(b)
  {
    DeleteAllAppend(a, b, Space);
    DeleteAllAppend(DeleteAll(a, Space), DeleteAll(b, Space), Newline);
  }

  /** Stripping twice changes nothing more. */
  lemma StripIdempotent(s: Bytes)
    ensures Strip(Strip(s)) == Strip(s)
  {
  }

  /** A text longer than `limit` keeps its first `limit` bytes and gains "..."; a shorter one is kept whole. */
  function Truncate(s: Bytes, limit: nat): (r: Bytes)
    ensures |s| <= limit ==> r == s
    ensures |s| > limit ==> |r| == limit + |Ellipsis| && r[..limit] == s[..limit] && r[limit..] == Ellipsis
    ensures forall x :: x !in s && x !in Ellipsis ==> x !in r
  {
    if |s| > limit then s[..limit] + Ellipsis else s
  }

  /** The string ParseParamsFromBody returns for a body. */
  function BodyParams(body: Bytes): Bytes
  {
    Truncate(Strip(body), BodyLimit)
  }

  /** The returned body parameters hold no space and no line feed and are at most 4099 bytes long. */
  lemma BodyParamsClean(body: Bytes)
    ensures Space !in BodyParams(body) && Newline !in BodyParams(body)
    ensures |BodyParams(body)| <= BodyLimit + |Ellipsis|
    ensures |Strip(body)| <= BodyLimit ==> BodyParams(body) == Strip(body)
  {
    assert Space !in Ellipsis && Newline !in Ellipsis;
  }

  /**
   * Action and Version: from the query when the query names an Action, and
   * otherwise both from the stripped body, whatever Version the query gives.
   */
  function ActionVersion(queryAction: string, queryVersion: string, stripped: Bytes,
                         jsonGet: (Bytes, string) -> string): (r: (string, string))
    ensures queryAction != "" ==> r == (queryAction, queryVersion)
    ensures queryAction == "" ==> r == (jsonGet(stripped, ActionKey), jsonGet(stripped, VersionKey))
  {
    if queryAction != "" then (queryAction, queryVersion)
    else (jsonGet(stripped, ActionKey), jsonGet(stripped, VersionKey))
  }

  /** Without a query Action, the query's Version is discarded. */
  lemma QueryVersionIgnoredWithoutAction(v1: string, v2: string, stripped: Bytes, jsonGet: (Bytes, string) -> string)
    ensures ActionVersion("", v1, stripped, jsonGet) == ActionVersion("", v2, stripped, jsonGet)
  {
  }

  /** An echo request context. */
  class Context {
    const httpMethod: string
    const path: string
    const rawQuery: Bytes
    /** The decoded query parameters (first value of each). */
    const query: map<string, string>
    /** What is left to read of the request body. */
    var body: Bytes
    /** Values set with `c.Set`. */
    var store: map<string, string>

    constructor (httpMethod: string, path: string, rawQuery: Bytes, query: map<string, string>, body: Bytes)
      ensures this.httpMethod == httpMethod && this.path == path && this.rawQuery == rawQuery
      ensures this.query == query && this.body == body && store == map[]
    {
      this.httpMethod := httpMethod;
      this.path := path;
      this.rawQuery := rawQuery;
      this.query := query;
      this.body := body;
      store := map[];
    }

    /** `c.QueryParam(key)`: "" when absent. */
    function QueryParam(key: string): (v: string)
      ensures key in query ==> v == query[key]
      ensures key !in query ==> v == ""
    {
      if key in query then query[key] else ""
    }

    /** `io.ReadAll(c.Request().Body)`: drains the body. */
    method ReadAll() returns (data: Bytes)
      modifies this`body
      ensures data == old(body) && body == []
    {
      data := body;
      body := [];
    }

    /** `c.Request().Body = io.NopCloser(bytes.NewBuffer(data))`. */
    method SetBody(data: Bytes)
      modifies this`body
      ensures body == data
    {
      body := data;
    }

    /** `c.Set(key, value)`. */
    method Set(key: string, value: string)
      modifies this`store
      ensures store == old(store)[key := value]
    {
      store := store[key := value];
    }
  }

  /** ParseParamsFromBody: the body is restored byte for byte after it has been read. */
  method ParseParamsFromBody(c: Context, jsonGet: (Bytes, string) -> string) returns (params: Bytes)
    modifies c`body, c`store
    ensures c.body == old(c.body)
    ensures params == BodyParams(old(c.body))
    ensures var av := ActionVersion(c.QueryParam(ActionKey), c.QueryParam(VersionKey), Strip(old(c.body)), jsonGet);
      c.store == old(c.store)[ActionKey := av.0][VersionKey := av.1]
  {
    var bodyBytes := c.ReadAll();
    params := bodyBytes;
    c.SetBody(bodyBytes);

    params := DeleteAll(params, Space);
    params := DeleteAll(params, Newline);

    var action := c.QueryParam(ActionKey);
    var apiVersion := c.QueryParam(VersionKey);
    if action == "" {
      action := jsonGet(params, ActionKey);
      apiVersion := jsonGet(params, VersionKey);
    }

    c.Set(ActionKey, action);
    c.Set(VersionKey, apiVersion);

    if |params| > BodyLimit {
      params := params[..BodyLimit] + Ellipsis;
    }
  }

  /** ParseParamsFromQuery: the raw query, truncated at 512 bytes; both context keys come from the query. */
  method ParseParamsFromQuery(c: Context) returns (params: Bytes)
    modifies c`store
    ensures params == Truncate(c.rawQuery, QueryLimit)
    ensures c.store == old(c.store)[ActionKey := c.QueryParam(ActionKey)][VersionKey := c.QueryParam(VersionKey)]
  {
    params := c.rawQuery;
    if |params| > QueryLimit {
      params := params[..QueryLimit] + Ellipsis;
    }

    var action := c.QueryParam(ActionKey);
    var apiVersion := c.QueryParam(VersionKey);

    c.Set(ActionKey, action);
    c.Set(VersionKey, apiVersion);
  }

  /** parseParamsFromRequest: POST requests are read from the body, every other method from the query. */
  method ParseParamsFromRequest(c: Context, jsonGet: (Bytes, string) -> string) returns (params: Bytes)
    modifies c`body, c`store
    ensures c.body == old(c.body)
    ensures c.httpMethod == MethodPost ==> params == BodyParams(old(c.body))
    ensures c.httpMethod == MethodPost ==>
      var av := ActionVersion(c.QueryParam(ActionKey), c.QueryParam(VersionKey), Strip(old(c.body)), jsonGet);
      c.store == old(c.store)[ActionKey := av.0][VersionKey := av.1]
    ensures c.httpMethod != MethodPost ==> params == Truncate(c.rawQuery, QueryLimit)
    ensures c.httpMethod != MethodPost ==>
      c.store == old(c.store)[ActionKey := c.QueryParam(ActionKey)][VersionKey := c.QueryParam(VersionKey)]
  {
    if c.httpMethod == MethodPost {
      params := ParseParamsFromBody(c, jsonGet);
    } else {
      params := ParseParamsFromQuery(c);
    }
  }

  const PprofPath := "debug/pprof"
  const HealthPath := "health"
  const MetricsPath := "metrics"

  /** IsIgnoreAuthRequest: the path contains one of the three fragments, anywhere. */
  predicate IsIgnoreAuthRequest(path: string)
  {
    Contains(path, PprofPath) || Contains(path, HealthPath) || Contains(path, MetricsPath)
  }

  /** The fragments that skip authentication. */
  predicate Skips(fragment: string)
  {
    fragment == PprofPath || fragment == HealthPath || fragment == MetricsPath
  }

  /** A path skips authentication exactly when one of the fragments occurs in it at some offset. */
  lemma IgnoreAuthIff(path: string)
    ensures IsIgnoreAuthRequest(path) ==>
      exists fragment, k :: Skips(fragment) && 0 <= k <= |path| && fragment <= path[k..]
    ensures forall fragment, k :: Skips(fragment) && 0 <= k <= |path| && fragment <= path[k..] ==> IsIgnoreAuthRequest(path)
  {
    if IsIgnoreAuthRequest(path) {
      var fragment := if Contains(path, PprofPath) then PprofPath
        else if Contains(path, HealthPath) then HealthPath else MetricsPath;
      var k := ContainsWitness(path, fragment);
      assert Skips(fragment) && fragment <= path[k..];
    }
    forall fragment, k | Skips(fragment) && 0 <= k <= |path| && fragment <= path[k..]
      ensures IsIgnoreAuthRequest(path)
    {
      ContainsAt(path, fragment, k);
    }
  }

  /** The match is by substring, so a business path that merely mentions "health" skips authentication too. */
  lemma IgnoreAuthOverreach()
    ensures IsIgnoreAuthRequest("/api/unhealthy")
  {
    assert HealthPath <= "/api/unhealthy"[7..];
    ContainsAt("/api/unhealthy", HealthPath, 7);
  }

  /**
   * validatorHeaders: the check of `RequiredHeaders` is disabled, so every
   * request passes whatever headers it carries.
   */
  function ValidatorHeaders(headers: map<string, string>): (e: Err)
    ensures e == Success
    ensures e.httpCode == StatusOK
  {
    Success
  }
}
