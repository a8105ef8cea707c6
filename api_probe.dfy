/** The decision rule of `testAPIConnection` in src/lib/dataProcessing.ts: which headers
    the probe request carries, and how the response (or what the fetch throws) is turned
    into a success flag and a message. The fetch itself is a parameter. */
module ApiProbe {
  import opened Wrappers
  import opened JsText
  import opened JsValue
  import opened Importer

  /** A `Record<string, string>` of headers is an object whose values are strings:
      reading, assigning and listing its properties are `Lookup`, `Put` and `Keys`. */
  type Headers = seq<Member>

  datatype ProbeConfig = ProbeConfig(url: Option<string>, apiKey: Option<string>, headers: Headers)

  datatype Request = Request(url: Option<string>, verb: string, headers: Headers)

  datatype Response = Response(status: int, body: Json)

  datatype ProbeResult = ProbeResult(success: bool, message: string, sampleData: Option<Json>)

  const ContentType: string := "Content-Type"
  const Authorization: string := "Authorization"
  const JsonMediaType: string := "application/json"
  const SuccessMessage: string := "Connection successful"
  const ConnectionFailedMessage: string := "Connection failed"

  /** `{ ...base, ...extra }`: the properties of `extra` assigned in order. */
  function Spread(base: Headers, extra: Headers): Headers {
    if |extra| == 0 then base
    else Put(Spread(base, extra[..|extra| - 1]), extra[|extra| - 1].key, extra[|extra| - 1].value)
  }

  /** The value the last header of that name in `hs` carries. */
  function LastValue(hs: Headers, name: string): Option<Json> {
    if |hs| == 0 then None
    else if hs[|hs| - 1].key == name then Some(hs[|hs| - 1].value)
    else LastValue(hs[..|hs| - 1], name)
  }

  /** `if (config.apiKey)`: a key is used when present and not empty. */
  predicate UsesKey(config: ProbeConfig) {
    config.apiKey.Some? && config.apiKey.value != ""
  }

  /** The headers of the probe: `Content-Type: application/json` unless the caller's
      headers say otherwise, then the caller's headers, then `Authorization: Bearer <key>`
      when there is a key. */
  function RequestHeaders(config: ProbeConfig): Headers {
    var merged := Spread([Member(ContentType, JStr(JsonMediaType))], config.headers);
    if UsesKey(config) then Put(merged, Authorization, JStr("Bearer " + config.apiKey.value))
    else merged
  }

  function ProbeRequest(config: ProbeConfig): Request {
    Request(config.url, "GET", RequestHeaders(config))
  }

  /** The status classification, or the `catch` when the fetch throws. */
  function ProbeOutcome(response: Result<Response, Thrown>): ProbeResult {
    match response
    case Failure(t) => ProbeResult(false, match t case ErrorThrown(m) => m case ValueThrown => ConnectionFailedMessage, None)
    case Success(r) =>
      if 200 <= r.status < 300 then ProbeResult(true, SuccessMessage, Some(r.body))
      else ProbeResult(false, "API returned status " + IntToString(r.status), None)
  }

  /** `testAPIConnection(config)`, with `fetch` standing for the secure fetch. */
  function TestApiConnection(config: ProbeConfig, fetch: Request -> Result<Response, Thrown>): ProbeResult {
    ProbeOutcome(fetch(ProbeRequest(config)))
  }

  // ---------------------------------------------------------------------------
  // Properties

  /** A later property overrides an earlier one of the same name in a spread. */
  lemma {:induction false} SpreadValue(base: Headers, extra: Headers, k: string)
    ensures Lookup(Spread(base, extra), k) ==
      if LastValue(extra, k).Some? then LastValue(extra, k) else Lookup(base, k)
  {
    if |extra| > 0 {
      var last := extra[|extra| - 1];
      SpreadValue(base, extra[..|extra| - 1], k);
      PutLookup(Spread(base, extra[..|extra| - 1]), last.key, last.value, k);
    }
  }

  predicate NamesDistinct(hs: Headers) {
    forall i, j :: 0 <= i < j < |Keys(hs)| ==> Keys(hs)[i] != Keys(hs)[j]
  }

  /** No header name appears twice once the caller's headers are spread over distinct
      defaults. */
  lemma {:induction false} SpreadDistinct(base: Headers, extra: Headers)
    requires NamesDistinct(base)
    ensures NamesDistinct(Spread(base, extra))
  {
    if |extra| > 0 {
      var last := extra[|extra| - 1];
      var prev := Spread(base, extra[..|extra| - 1]);
      SpreadDistinct(base, extra[..|extra| - 1]);
      PutKeys(prev, last.key, last.value);
      HasKeyInKeys(prev, last.key);
    }
  }

  /** Every header the probe sends: the key wins for `Authorization`, then the caller's
      last word, then the `Content-Type` default; no name appears twice. */
  lemma RequestHeadersFacts(config: ProbeConfig, k: string)
    ensures Lookup(RequestHeaders(config), k) ==
      if k == Authorization && UsesKey(config) then Some(JStr("Bearer " + config.apiKey.value))
      else if LastValue(config.headers, k).Some? then LastValue(config.headers, k)
      else if k == ContentType then Some(JStr(JsonMediaType))
      else None
    ensures NamesDistinct(RequestHeaders(config))
  {
    var base := [Member(ContentType, JStr(JsonMediaType))];
    var merged := Spread(base, config.headers);
    SpreadValue(base, config.headers, k);
    SpreadDistinct(base, config.headers);
    if UsesKey(config) {
      var bearer := JStr("Bearer " + config.apiKey.value);
      PutLookup(merged, Authorization, bearer, k);
      PutKeys(merged, Authorization, bearer);
      HasKeyInKeys(merged, Authorization);
    }
  }

  /** The probe succeeds exactly on a 2xx answer, and only then hands back the body.
      Any other status is reported by number; a thrown `Error` by its message, anything
      else thrown as "Connection failed". */
  lemma ProbeOutcomeFacts(config: ProbeConfig, fetch: Request -> Result<Response, Thrown>)
    ensures var answer := fetch(ProbeRequest(config));
      var r := TestApiConnection(config, fetch);
      (r.success <==> answer.Success? && 200 <= answer.value.status < 300) &&
      (r.sampleData.Some? <==> r.success) &&
      (r.success ==> r.message == SuccessMessage && r.sampleData == Some(answer.value.body)) &&
      (answer.Success? && !r.success ==>
        r.message == "API returned status " + IntToString(answer.value.status)) &&
      (answer.Failure? ==>
        r.message == if answer.error.ErrorThrown? then answer.error.message else ConnectionFailedMessage)
  {
  }
}
