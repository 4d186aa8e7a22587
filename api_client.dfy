/**
 * The placeholder REST client of utils/api-client.ts: a base URL, a bearer
 * token mirrored into localStorage under `auth_token`, one generic request
 * that assembles the URL and headers and turns failures into a thrown
 * error, and the fixed endpoints built on it.
 *
 * `fetch` is a function from the outgoing request to what the network and
 * `response.json()` produced; JSON payloads and parsed bodies are opaque.
 */
module Api {
  import opened Wrappers
  import opened Text
  import Browser

  const DefaultApiUrl := "http://localhost:3000/api"
  const TokenKey := "auth_token"
  const JsonContentType := "application/json"

  /** `process.env.NEXT_PUBLIC_API_URL || 'http://localhost:3000/api'`:
      an unset or empty variable falls back to the local default. */
  function ApiBaseUrl(env: Option<string>): (r: string)
    ensures env.Some? && env.value != "" ==> r == env.value
    ensures env.None? || env.value == "" ==> r == DefaultApiUrl
  {
    if env.Some? && env.value != "" then env.value else DefaultApiUrl
  }

  type Headers = map<string, string>

  /** A JSON value the client passes through without looking inside. */
  datatype JsonValue = JsonValue(text: string)
  datatype FileRef = FileRef(name: string)

  /** What each endpoint hands to `JSON.stringify`. */
  datatype Payload =
    | Credentials(email: string, password: string)
    | Record(data: JsonValue)
    | JoinCode(code: string)
    | VideoLink(videoUrl: string)
    | TranscriptQuery(query: string, classId: Option<string>)

  datatype Body = Stringified(payload: Payload) | Multipart(file: FileRef, path: string)

  /** The caller's `RequestInit`: each field may be absent. */
  datatype RequestInit = RequestInit(httpMethod: Option<string>, headers: Option<Headers>, body: Option<Body>)

  const NoOptions := RequestInit(None, None, None)

  /** The `config` object handed to `fetch`. */
  datatype Config = Config(headers: Headers, httpMethod: Option<string>, body: Option<Body>)

  datatype Outgoing = Outgoing(url: string, config: Config)

  /** A JavaScript `Error`: its constructor name and message. */
  datatype JsError = JsError(name: string, message: string)

  /** What `response.json()` gave: a value, or the error it threw. */
  datatype ResponseBody = Parsed(value: JsonValue) | Unparseable(error: JsError)

  /** What `fetch` gave: a response, or the error it rejected with. */
  datatype FetchOutcome =
    | Rejected(error: JsError)
    | Response(ok: bool, status: nat, body: ResponseBody)

  // ------------------------------------------------------------- headers

  /** `this.token && …`: only a non-null, non-empty token is sent. */
  predicate Truthy(token: Option<string>)
  {
    token.Some? && token.value != ""
  }

  function AuthHeader(token: Option<string>): (h: Headers)
    ensures "Authorization" in h <==> Truthy(token)
    ensures Truthy(token) ==> h["Authorization"] == "Bearer " + token.value
    ensures h.Keys <= {"Authorization"}
  {
    if Truthy(token) then map["Authorization" := "Bearer " + token.value] else map[]
  }

  /** The headers sent when the caller gives none. */
  function DefaultHeaders(token: Option<string>): (h: Headers)
    ensures h.Keys == {"Content-Type"} + (if Truthy(token) then {"Authorization"} else {})
    ensures h["Content-Type"] == JsonContentType
    ensures Truthy(token) ==> h["Authorization"] == "Bearer " + token.value
  {
    map["Content-Type" := JsonContentType] + AuthHeader(token)
  }

  /** The merged `headers` object of lines 20-24: defaults, then the
      caller's headers, the caller winning on a shared name. */
  function MergedHeaders(token: Option<string>, callerHeaders: Option<Headers>): (h: Headers)
    ensures callerHeaders.None? ==> h == DefaultHeaders(token)
    ensures callerHeaders.Some? ==> h.Keys == DefaultHeaders(token).Keys + callerHeaders.value.Keys
    ensures callerHeaders.Some? ==> forall k :: k in callerHeaders.value ==> h[k] == callerHeaders.value[k]
    ensures forall k :: (k in DefaultHeaders(token) && (callerHeaders.None? || k !in callerHeaders.value)
      ==> h[k] == DefaultHeaders(token)[k])
  {
    DefaultHeaders(token) + (if callerHeaders.Some? then callerHeaders.value else map[])
  }

  /** `{ headers: merged, ...options }`: every field the caller gave,
      `headers` included, overwrites the merged value. */
  function BuildConfig(token: Option<string>, options: RequestInit): (c: Config)
    ensures options.headers.Some? ==> c.headers == options.headers.value
    ensures options.headers.None? ==> c.headers == DefaultHeaders(token)
    ensures c.httpMethod == options.httpMethod && c.body == options.body
  {
    var merged := MergedHeaders(token, options.headers);
    Config(if options.headers.Some? then options.headers.value else merged, options.httpMethod, options.body)
  }

  /** Caller headers do not add to the defaults, they replace them: a name
      the merge did supply is gone unless the caller supplied it too. */
  lemma CallerHeadersDropDefaults(token: Option<string>, options: RequestInit)
    requires options.headers.Some?
    ensures "Content-Type" in MergedHeaders(token, options.headers)
    ensures "Content-Type" in BuildConfig(token, options).headers <==> "Content-Type" in options.headers.value
    ensures "Authorization" in BuildConfig(token, options).headers <==> "Authorization" in options.headers.value
  {
  }

  /** The method `fetch` uses: GET when none is given. */
  function EffectiveMethod(c: Config): string
  {
    if c.httpMethod.Some? then c.httpMethod.value else "GET"
  }

  // ------------------------------------------------------------- outcome

  const HttpErrorPrefix := "HTTP error! status: "

  function HttpError(status: nat): (e: JsError)
    ensures e.name == "Error" && HttpErrorPrefix <= e.message
  {
    JsError("Error", HttpErrorPrefix + NatToString(status))
  }

  /** The status is recoverable from the thrown message. */
  lemma HttpErrorNamesStatus(status: nat)
    ensures var m := HttpError(status).message;
      |m| > |HttpErrorPrefix| && m[..|HttpErrorPrefix|] == HttpErrorPrefix
      && ParseNatPrefix(m[|HttpErrorPrefix|..]) == Some((status, ""))
  {
    var m := HttpError(status).message;
    assert m[|HttpErrorPrefix|..] == NatToString(status) + "";
    ParseNatPrefixOfNatToString(status, "");
  }

  lemma HttpErrorInjective(s1: nat, s2: nat)
    requires HttpError(s1) == HttpError(s2)
    ensures s1 == s2
  {
    HttpErrorNamesStatus(s1);
    HttpErrorNamesStatus(s2);
  }

  /** Lines 28-39: a non-ok status throws the HTTP error, an ok response
      yields its parsed body, and any error that reaches the `catch` is
      rethrown as it was. */
  function Settle(outcome: FetchOutcome): (r: Result<JsonValue, JsError>)
    ensures r.Success? <==> outcome.Response? && outcome.ok && outcome.body.Parsed?
    ensures r.Success? ==> r.value == outcome.body.value
    ensures outcome.Response? && !outcome.ok ==> r == Failure(HttpError(outcome.status))
    ensures outcome.Rejected? ==> r == Failure(outcome.error)
    ensures outcome.Response? && outcome.ok && outcome.body.Unparseable? ==> r == Failure(outcome.body.error)
  {
    match outcome
    case Rejected(e) => Failure(e)
    case Response(ok, status, body) =>
      if !ok then Failure(HttpError(status))
      else match body
        case Parsed(v) => Success(v)
        case Unparseable(e) => Failure(e)
  }

  // ----------------------------------------------------------- endpoints

  datatype Operation =
    | Login(email: string, password: string)
    | Register(data: JsonValue)
    | GetClasses
    | CreateClass(data: JsonValue)
    | JoinClass(code: string)
    | GetNotes(classId: Option<string>)
    | CreateNote(data: JsonValue)
    | UpdateNote(noteId: string, data: JsonValue)
    | GetHomework(classId: Option<string>)
    | CreateHomework(data: JsonValue)
    | SubmitHomework(homeworkId: string, data: JsonValue)
    | TranscribeVideo(videoUrl: string)
    | SearchTranscripts(query: string, classId: Option<string>)
    | UploadFile(file: FileRef, path: string)

  /** `classId ? `${path}?classId=${classId}` : path`. */
  function WithClassQuery(path: string, classId: Option<string>): (r: string)
    ensures path <= r
    ensures r == path <==> !Truthy(classId)
  {
    if Truthy(classId) then path + "?classId=" + classId.value else path
  }

  /** The endpoint string each operation passes to `request`; each is a
      path starting with `/`, so the URL always has a separator after the
      base. */
  function Endpoint(op: Operation): (r: string)
    ensures |r| > 1 && r[0] == '/'
  {
    match op
    case Login(_, _) => "/auth/login"
    case Register(_) => "/auth/register"
    case GetClasses => "/classes"
    case CreateClass(_) => "/classes"
    case JoinClass(_) => "/classes/join"
    case GetNotes(classId) => WithClassQuery("/notes", classId)
    case CreateNote(_) => "/notes"
    case UpdateNote(id, _) => "/notes/" + id
    case GetHomework(classId) => WithClassQuery("/homework", classId)
    case CreateHomework(_) => "/homework"
    case SubmitHomework(id, _) => "/homework/" + id + "/submit"
    case TranscribeVideo(_) => "/transcribe"
    case SearchTranscripts(_, _) => "/search/transcripts"
    case UploadFile(_, _) => "/upload"
  }

  /** The options each operation passes to `request`; `uploadFile` reads
      the token itself to build its only header. */
  function Options(op: Operation, token: Option<string>): (r: RequestInit)
    ensures r == NoOptions || (r.httpMethod.Some? && r.body.Some?)
    ensures r.httpMethod == Some("PUT") <==> op.UpdateNote?
  {
    match op
    case Login(email, password) => RequestInit(Some("POST"), None, Some(Stringified(Credentials(email, password))))
    case Register(data) => RequestInit(Some("POST"), None, Some(Stringified(Record(data))))
    case GetClasses => NoOptions
    case CreateClass(data) => RequestInit(Some("POST"), None, Some(Stringified(Record(data))))
    case JoinClass(code) => RequestInit(Some("POST"), None, Some(Stringified(JoinCode(code))))
    case GetNotes(_) => NoOptions
    case CreateNote(data) => RequestInit(Some("POST"), None, Some(Stringified(Record(data))))
    case UpdateNote(_, data) => RequestInit(Some("PUT"), None, Some(Stringified(Record(data))))
    case GetHomework(_) => NoOptions
    case CreateHomework(data) => RequestInit(Some("POST"), None, Some(Stringified(Record(data))))
    case SubmitHomework(_, data) => RequestInit(Some("POST"), None, Some(Stringified(Record(data))))
    case TranscribeVideo(url) => RequestInit(Some("POST"), None, Some(Stringified(VideoLink(url))))
    case SearchTranscripts(query, classId) => RequestInit(Some("POST"), None, Some(Stringified(TranscriptQuery(query, classId))))
    case UploadFile(file, path) => RequestInit(Some("POST"), Some(AuthHeader(token)), Some(Multipart(file, path)))
  }

  /** The class filter: a non-empty id is appended verbatim after
      `?classId=`, and an absent or empty id gives the bare path. */
  lemma ClassQueryEndpoints(classId: Option<string>)
    ensures Truthy(classId) ==> (Endpoint(GetNotes(classId)) == "/notes?classId=" + classId.value
      && Endpoint(GetHomework(classId)) == "/homework?classId=" + classId.value)
    ensures !Truthy(classId) ==> Endpoint(GetNotes(classId)) == "/notes" && Endpoint(GetHomework(classId)) == "/homework"
    ensures Endpoint(GetNotes(Some(""))) == Endpoint(GetNotes(None))
  {
  }

  /** The id of a filtered listing can be read back from the endpoint. */
  lemma ClassQueryRecoverable(classId: string)
    requires classId != ""
    ensures var e := Endpoint(GetNotes(Some(classId)));
      e[..|"/notes?classId="|] == "/notes?classId=" && e[|"/notes?classId="|..] == classId
  {
  }

  /** The path-parameter endpoints. */
  lemma ResourceEndpoints(id: string, data: JsonValue, token: Option<string>)
    ensures Endpoint(SubmitHomework(id, data)) == "/homework/" + id + "/submit"
      && EffectiveMethod(BuildConfig(token, Options(SubmitHomework(id, data), token))) == "POST"
    ensures Endpoint(UpdateNote(id, data)) == "/notes/" + id
      && EffectiveMethod(BuildConfig(token, Options(UpdateNote(id, data), token))) == "PUT"
  {
  }

  /** The three listings are GETs: they pass no options at all. */
  lemma ListingsAreGets(op: Operation, token: Option<string>)
    ensures Options(op, token) == NoOptions <==> op.GetClasses? || op.GetNotes? || op.GetHomework?
    ensures (op.GetClasses? || op.GetNotes? || op.GetHomework?) ==> EffectiveMethod(BuildConfig(token, Options(op, token))) == "GET"
  {
  }

  /** Only `uploadFile` passes its own headers; every other operation
      sends exactly the default headers. */
  lemma OnlyUploadOverridesHeaders(op: Operation, token: Option<string>)
    ensures Options(op, token).headers.Some? <==> op.UploadFile?
    ensures !op.UploadFile? ==> BuildConfig(token, Options(op, token)).headers == DefaultHeaders(token)
  {
  }

  /** `uploadFile` sends no Content-Type (the browser sets the multipart
      boundary) and Authorization exactly when a truthy token is held. */
  lemma UploadHeaders(file: FileRef, path: string, token: Option<string>)
    ensures var h := BuildConfig(token, Options(UploadFile(file, path), token)).headers;
      && "Content-Type" !in h
      && ("Authorization" in h <==> Truthy(token))
      && (Truthy(token) ==> h["Authorization"] == "Bearer " + token.value)
      && h.Keys <= {"Authorization"}
  {
  }

  // --------------------------------------------------------------- client

  class ApiClient {
    var baseURL: string
    var token: Option<string>
    const host: Browser.Host

    /** `new ApiClient(baseURL?)`: the token is read from localStorage when
        a window exists; otherwise the client starts without one. */
    constructor (baseURL: Option<string>, env: Option<string>, host: Browser.Host)
      ensures this.baseURL == (if baseURL.Some? then baseURL.value else ApiBaseUrl(env))
      ensures this.host == host
      ensures token == (if host.hasWindow then Lookup(host.localStorage, TokenKey) else None)
    {
      this.baseURL := if baseURL.Some? then baseURL.value else ApiBaseUrl(env);
      this.host := host;
      token := if host.hasWindow then Lookup(host.localStorage, TokenKey) else None;
    }

    /** `request(endpoint, options)`: the URL is the base and the endpoint
        joined with nothing in between; the result is what Settle makes of
        the network's answer. Neither the token nor storage change. */
    method Request(endpoint: string, options: RequestInit, fetch: Outgoing -> FetchOutcome)
      returns (sent: Outgoing, result: Result<JsonValue, JsError>)
      ensures sent.url == baseURL + endpoint
      ensures sent.config == BuildConfig(token, options)
      ensures result == Settle(fetch(sent))
    {
      var url := baseURL + endpoint;
      var config := BuildConfig(token, options);
      sent := Outgoing(url, config);
      result := Settle(fetch(sent));
    }

    /** Any of the fixed endpoints (`login`, `getNotes`, `uploadFile`, ...). */
    method Call(op: Operation, fetch: Outgoing -> FetchOutcome)
      returns (sent: Outgoing, result: Result<JsonValue, JsError>)
      ensures sent.url == baseURL + Endpoint(op)
      ensures sent.config == BuildConfig(token, Options(op, token))
      ensures result == Settle(fetch(sent))
    {
      sent, result := Request(Endpoint(op), Options(op, token), fetch);
    }

    /** `setToken(t)`: held in memory and, when a window exists, stored. */
    method SetToken(t: string)
      modifies this, host
      ensures token == Some(t) && baseURL == old(baseURL)
      ensures host.localStorage == if host.hasWindow then old(host.localStorage)[TokenKey := t] else old(host.localStorage)
    {
      token := Some(t);
      if host.hasWindow {
        host.localStorage := host.localStorage[TokenKey := t];
      }
    }

    /** `clearToken()`: forgotten in memory and, when a window exists, in storage. */
    method ClearToken()
      modifies this, host
      ensures token == None && baseURL == old(baseURL)
      ensures host.localStorage == if host.hasWindow then old(host.localStorage) - {TokenKey} else old(host.localStorage)
    {
      token := None;
      if host.hasWindow {
        host.localStorage := host.localStorage - {TokenKey};
      }
    }
  }

  /** A token set in one client is picked up by the next client built on
      the same browser storage, which then sends it on every default
      request; without a window nothing survives. */
  method TokenSurvivesReload(host: Browser.Host, t: string, endpoint: string, fetch: Outgoing -> FetchOutcome)
    returns (reloaded: Option<string>, sent: Outgoing)
    modifies host
    ensures reloaded == (if host.hasWindow then Some(t) else None)
    ensures host.hasWindow && t != "" ==>
      "Authorization" in sent.config.headers && sent.config.headers["Authorization"] == "Bearer " + t
    ensures !host.hasWindow ==> "Authorization" !in sent.config.headers
  {
    var first := new ApiClient(None, None, host);
    first.SetToken(t);
    var second := new ApiClient(None, None, host);
    reloaded := second.token;
    var result;
    sent, result := second.Request(endpoint, NoOptions, fetch);
  }

  /** After `clearToken` a reloaded client starts unauthenticated. */
  method ClearedTokenStaysCleared(host: Browser.Host) returns (reloaded: Option<string>)
    modifies host
    ensures reloaded == None
  {
    var first := new ApiClient(None, None, host);
    first.ClearToken();
    var second := new ApiClient(None, None, host);
    reloaded := second.token;
  }
}
