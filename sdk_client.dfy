/**
 * The low-level client of the Python SDK (class SandboxClient in
 * sdk/python/cloud_sandbox/client.py) with the network abstracted.
 *
 * Each endpoint method is split in two: a builder giving the arguments it hands
 * to `_request` (a `Call`), and a decoder turning the transport outcome of that
 * request into the method's return value or the exception it raises.
 */
module SdkClient {
  import opened Wrappers
  import opened Json
  import opened SdkErrors
  import opened SdkModels
  import Text

  /** A header value: literal text, or `f"Bearer {token}"` for the configured token. */
  datatype HeaderValue = Plain(text: string) | BearerOf(token: Json)

  /** A request path; `PathWithId` is `f"{prefix}{id}{suffix}"` with a session id from a record. */
  datatype PathText = Path(text: string) | PathWithId(prefix: string, id: Json, suffix: string)

  /** The arguments of one `_request(method, path, data, params, timeout)` call. */
  datatype Call = Call(verb: string, path: PathText, data: Option<Json>, params: Option<Json>, timeout: Option<int>)

  /** The client's configuration: `base_url` (trailing slashes stripped), `token`, default `timeout`. */
  datatype Client = Client(baseUrl: string, token: Json, timeout: int)

  /** What goes on the wire for one call. */
  datatype Request = Request(
    baseUrl: string,
    verb: string,
    path: PathText,
    data: Option<Json>,
    params: Option<Json>,
    headers: map<string, HeaderValue>,
    timeout: int)

  /** The body of a received response: decoded JSON, or text that `response.json()` rejects. */
  datatype Body = Parsed(json: Json) | Unparseable(text: string)

  /** What the transport reports for one request. */
  datatype Transport = TimedOut | ConnFailed(reason: string) | Response(status: int, body: Body)

  const DefaultBaseUrl: string := "http://localhost:8080"
  const DefaultTimeout: int := 300

  /** `str.rstrip("/")`. */
  function StripTrailingSlashes(s: string): (r: string)
    ensures Text.HasPrefix(s, r)
    ensures r == [] || r[|r| - 1] != '/'
    ensures forall i :: |r| <= i < |s| ==> s[i] == '/'
  {
    if s != [] && s[|s| - 1] == '/' then StripTrailingSlashes(s[..|s| - 1]) else s
  }

  /** `SandboxClient.__init__`. */
  function NewClient(baseUrl: string, token: Json, timeout: int): (c: Client)
    ensures c.baseUrl == StripTrailingSlashes(baseUrl)
    ensures c.token == token && c.timeout == timeout
  {
    Client(StripTrailingSlashes(baseUrl), token, timeout)
  }

  /** `set_token`: only the token changes. */
  function SetToken(c: Client, token: Json): (r: Client)
    ensures r.token == token && r.baseUrl == c.baseUrl && r.timeout == c.timeout
  {
    c.(token := token)
  }

  /** `_headers`. */
  function Headers(token: Json): (h: map<string, HeaderValue>)
    ensures "Content-Type" in h && h["Content-Type"] == Plain("application/json")
    ensures "Authorization" in h <==> Truthy(token)
    ensures "Authorization" in h ==> h["Authorization"] == BearerOf(token)
    ensures h.Keys <= {"Content-Type", "Authorization"}
  {
    var base := map["Content-Type" := Plain("application/json")];
    if Truthy(token) then base["Authorization" := BearerOf(token)] else base
  }

  /** `timeout or self.timeout`: a missing or zero per-call timeout falls back to the client's. */
  function EffectiveTimeout(t: Option<int>, default: int): (r: int)
    ensures t.None? || t == Some(0) ==> r == default
    ensures t.Some? && t.value != 0 ==> r == t.value
  {
    if t.Some? && t.value != 0 then t.value else default
  }

  /** The request `_request` puts on the wire for a call. */
  function WireRequest(c: Client, call: Call): (r: Request)
    ensures r.baseUrl == c.baseUrl && r.verb == call.verb && r.path == call.path
    ensures r.data == call.data && r.params == call.params
    ensures r.headers == Headers(c.token)
    ensures r.timeout == EffectiveTimeout(call.timeout, c.timeout)
  {
    Request(c.baseUrl, call.verb, call.path, call.data, call.params, Headers(c.token),
            EffectiveTimeout(call.timeout, c.timeout))
  }

  /** `_handle_response`: classify the status first, then decode the body. */
  function HandleResponse(status: int, body: Body): (r: Outcome<Json>)
    ensures status == 401 ==> r == Err(Sdk(RaiseWithStatus(Auth, "Authentication failed", 401)))
    ensures status == 404 ==> r == Err(Sdk(RaiseWithStatus(NotFound, "Resource not found", 404)))
    ensures status == 429 ==> r == Err(Sdk(RaiseWithStatus(RateLimit, "Rate limit exceeded", 429)))
    ensures status == 502 ==> r == Err(Sdk(RaiseWithStatus(ServiceUnavailable, "Backend service unavailable", 502)))
    ensures status < 400 ==> r == Ok(DecodedBody(body))
    ensures status >= 400 && status !in {401, 404, 429, 502} && DecodedBody(body).JObj? ==>
      var d := DecodedBody(body).fields;
      r == Err(Sdk(SandboxError(Base, Get(d, "error", Get(d, "message", JStr("Unknown error"))),
                                Some(status), Some(DecodedBody(body)))))
    ensures status >= 400 && status !in {401, 404, 429, 502} && !DecodedBody(body).JObj? ==> r.Err? && r.error.Fault?
  {
    if status == 401 then Err(Sdk(RaiseWithStatus(Auth, "Authentication failed", status)))
    else if status == 404 then Err(Sdk(RaiseWithStatus(NotFound, "Resource not found", status)))
    else if status == 429 then Err(Sdk(RaiseWithStatus(RateLimit, "Rate limit exceeded", status)))
    else if status == 502 then Err(Sdk(RaiseWithStatus(ServiceUnavailable, "Backend service unavailable", status)))
    else
      var data := DecodedBody(body);
      if status >= 400 then
        match data
        case JObj(d) =>
          var msg := Get(d, "error", Get(d, "message", JStr("Unknown error")));
          Err(Sdk(SandboxError(Base, msg, Some(status), Some(data))))
        case _ => Err(Fault("AttributeError: error body is not a dict"))
      else Ok(data)
  }

  /** `response.json()`, with the `{"raw": text}` fallback for a body that does not parse. */
  function DecodedBody(body: Body): (j: Json)
    ensures body.Parsed? ==> j == body.json
    ensures body.Unparseable? ==> j == JObj(map["raw" := JStr(body.text)])
  {
    match body
    case Parsed(j) => j
    case Unparseable(t) => JObj(map["raw" := JStr(t)])
  }

  /** `_request` once the transport has reported: exceptions from the transport, else `_handle_response`. */
  function Dispatch(c: Client, call: Call, t: Transport): (r: Outcome<Json>)
    ensures t.TimedOut? ==> r == Err(Sdk(Raise(Timeout,
      "Request timed out after " + Text.IntText(EffectiveTimeout(call.timeout, c.timeout)) + "s")))
    ensures t.ConnFailed? ==> r == Err(Sdk(Raise(ServiceUnavailable, "Connection error: " + t.reason)))
    ensures t.Response? ==> r == HandleResponse(t.status, t.body)
  {
    match t
    case TimedOut =>
      Err(Sdk(Raise(Timeout, "Request timed out after " + Text.IntText(EffectiveTimeout(call.timeout, c.timeout)) + "s")))
    case ConnFailed(reason) => Err(Sdk(Raise(ServiceUnavailable, "Connection error: " + reason)))
    case Response(status, body) => HandleResponse(status, body)
  }

  /**
   * The dispatcher's error taxonomy: a SandboxError carries a status code exactly
   * when a response arrived, and then its kind is fixed by the status alone; the
   * two transport failures carry neither a status nor a response.
   */
  lemma DispatchClassification(c: Client, call: Call, t: Transport)
    ensures Dispatch(c, call, t).Err? && Dispatch(c, call, t).error.Sdk? ==>
      var e := Dispatch(c, call, t).error.err;
      && (e.statusCode.Some? <==> t.Response?)
      && (t.Response? ==> e.statusCode == Some(t.status) && e.kind == StatusKind(t.status))
      && (!t.Response? ==> e.response.None? && e.kind in {Timeout, ServiceUnavailable})
    ensures t.Response? && t.status < 400 ==> Dispatch(c, call, t).Ok?
    ensures t.Response? && t.status >= 400 ==> Dispatch(c, call, t).Err?
  {
  }

  /** The kind a response status maps to when the status is an error. */
  function StatusKind(status: int): Kind {
    if status == 401 then Auth
    else if status == 404 then NotFound
    else if status == 429 then RateLimit
    else if status == 502 then ServiceUnavailable
    else Base
  }

  // ---------------------------------------------------------------- builders

  predicate TruthyStr(s: Option<string>) {
    s.Some? && s.value != ""
  }

  predicate TruthyInt(n: Option<int>) {
    n.Some? && n.value != 0
  }

  /** `get_token(user_id, role)`. */
  function GetTokenCall(userId: Json, role: string): (r: Call)
    ensures r.verb == "POST" && r.path == Path("/api/v1/auth/token")
    ensures r.data == Some(JObj(map["user_id" := userId, "role" := JStr(role)]))
    ensures r.params.None? && r.timeout.None?
  {
    Call("POST", Path("/api/v1/auth/token"), Some(JObj(map["user_id" := userId, "role" := JStr(role)])), None, None)
  }

  const NanosPerHour: int := 3600 * 1000000000

  /** The body of `create_session`: each falsy argument is left out; the TTL goes out in nanoseconds. */
  function CreateSessionBody(image: Option<string>, cpuCount: Option<int>, memoryMb: Option<int>, ttlHours: Option<int>)
    : (d: map<string, Json>)
    ensures d.Keys <= {"image", "cpu_count", "memory_mb", "ttl"}
    ensures "image" in d <==> TruthyStr(image)
    ensures "cpu_count" in d <==> TruthyInt(cpuCount)
    ensures "memory_mb" in d <==> TruthyInt(memoryMb)
    ensures "ttl" in d <==> TruthyInt(ttlHours)
    ensures "image" in d ==> d["image"] == JStr(image.value)
    ensures "cpu_count" in d ==> d["cpu_count"] == JInt(cpuCount.value)
    ensures "memory_mb" in d ==> d["memory_mb"] == JInt(memoryMb.value)
    ensures "ttl" in d ==> d["ttl"] == JInt(ttlHours.value * 3600 * 1000000000)
  {
    var d0 := map[];
    var d1 := if TruthyStr(image) then d0["image" := JStr(image.value)] else d0;
    var d2 := if TruthyInt(cpuCount) then d1["cpu_count" := JInt(cpuCount.value)] else d1;
    var d3 := if TruthyInt(memoryMb) then d2["memory_mb" := JInt(memoryMb.value)] else d2;
    if TruthyInt(ttlHours) then d3["ttl" := JInt(ttlHours.value * NanosPerHour)] else d3
  }

  function CreateSessionCall(image: Option<string>, cpuCount: Option<int>, memoryMb: Option<int>, ttlHours: Option<int>)
    : (r: Call)
    ensures r.verb == "POST" && r.path == Path("/api/v1/sessions") && r.params.None? && r.timeout.None?
    ensures r.data == Some(JObj(CreateSessionBody(image, cpuCount, memoryMb, ttlHours)))
  {
    Call("POST", Path("/api/v1/sessions"), Some(JObj(CreateSessionBody(image, cpuCount, memoryMb, ttlHours))), None, None)
  }

  /** `create_session()` with no arguments sends an empty object. */
  lemma CreateSessionNoArgs()
    ensures CreateSessionCall(None, None, None, None).data == Some(JObj(map[]))
  {
  }

  function GetSessionCall(id: Json): (r: Call)
    ensures r.verb == "GET" && r.path == PathWithId("/api/v1/sessions/", id, "")
    ensures r.data.None? && r.params.None? && r.timeout.None?
  {
    Call("GET", PathWithId("/api/v1/sessions/", id, ""), None, None, None)
  }

  function ListSessionsCall(): (r: Call)
    ensures r.verb == "GET" && r.path == Path("/api/v1/sessions") && r.data.None?
    ensures r.params.None? && r.timeout.None?
  {
    Call("GET", Path("/api/v1/sessions"), None, None, None)
  }

  function DeleteSessionCall(id: Json): (r: Call)
    ensures r.verb == "DELETE" && r.path == PathWithId("/api/v1/sessions/", id, "") && r.data.None?
    ensures r.params.None? && r.timeout.None?
  {
    Call("DELETE", PathWithId("/api/v1/sessions/", id, ""), None, None, None)
  }

  function PauseSessionCall(id: Json): (r: Call)
    ensures r.verb == "POST" && r.path == PathWithId("/api/v1/sessions/", id, "/pause") && r.data.None?
    ensures r.params.None? && r.timeout.None?
  {
    Call("POST", PathWithId("/api/v1/sessions/", id, "/pause"), None, None, None)
  }

  function ResumeSessionCall(id: Json): (r: Call)
    ensures r.verb == "POST" && r.path == PathWithId("/api/v1/sessions/", id, "/resume") && r.data.None?
    ensures r.params.None? && r.timeout.None?
  {
    Call("POST", PathWithId("/api/v1/sessions/", id, "/resume"), None, None, None)
  }

  function AcquireSandboxCall(): (r: Call)
    ensures r.verb == "POST" && r.path == Path("/api/v1/sandbox/acquire") && r.data.None?
    ensures r.params.None? && r.timeout.None?
  {
    Call("POST", Path("/api/v1/sandbox/acquire"), None, None, None)
  }

  function ReleaseSandboxCall(sandboxId: Json): (r: Call)
    ensures r.verb == "POST" && r.path == Path("/api/v1/sandbox/release")
    ensures r.data == Some(JObj(map["sandbox_id" := sandboxId]))
    ensures r.params.None? && r.timeout.None?
  {
    Call("POST", Path("/api/v1/sandbox/release"), Some(JObj(map["sandbox_id" := sandboxId])), None, None)
  }

  function SandboxStatsCall(): (r: Call)
    ensures r.verb == "GET" && r.path == Path("/api/v1/sandbox/stats") && r.data.None?
    ensures r.params.None? && r.timeout.None?
  {
    Call("GET", Path("/api/v1/sandbox/stats"), None, None, None)
  }

  /** A command argument of `execute`: `List[str] = None`. */
  function CommandJson(cmd: seq<string>): (j: Json)
    ensures j.JArr? && |j.items| == |cmd|
    ensures forall i :: 0 <= i < |cmd| ==> j.items[i] == JStr(cmd[i])
  {
    JArr(seq(|cmd|, i requires 0 <= i < |cmd| => JStr(cmd[i])))
  }

  /** An environment as a JSON object of strings, one member per variable. */
  function EnvJson(env: map<string, string>): (j: Json)
    ensures j.JObj? && j.fields.Keys == env.Keys
    ensures forall k :: k in env ==> j.fields[k] == JStr(env[k])
  {
    JObj(map k | k in env :: JStr(env[k]))
  }

  /** The first members of the `execute` body: the sandbox, the code with its language, the command. */
  function ExecuteHead(sandboxId: Json, code: Option<string>, language: string, command: Option<seq<string>>)
    : (d: map<string, Json>)
    ensures d.Keys <= {"sandbox_id", "code", "language", "command"}
    ensures "sandbox_id" in d && d["sandbox_id"] == sandboxId
    ensures "code" in d <==> TruthyStr(code)
    ensures "language" in d <==> "code" in d
    ensures "code" in d ==> d["code"] == JStr(code.value) && d["language"] == JStr(language)
    ensures "command" in d <==> command.Some? && |command.value| > 0
    ensures "command" in d ==> d["command"] == CommandJson(command.value)
  {
    var d0 := map["sandbox_id" := sandboxId];
    var d1 := if TruthyStr(code) then d0["code" := JStr(code.value)]["language" := JStr(language)] else d0;
    if command.Some? && |command.value| > 0 then d1["command" := CommandJson(command.value)] else d1
  }

  /** The optional members added after them: working directory, environment, timeout. */
  function ExecuteTail(head: map<string, Json>, workDir: Option<string>, env: Option<map<string, string>>,
                       timeout: Option<int>)
    : (d: map<string, Json>)
    ensures d.Keys <= head.Keys + {"work_dir", "env", "timeout"}
    ensures forall k :: k in head && k !in {"work_dir", "env", "timeout"} ==> k in d && d[k] == head[k]
    ensures "work_dir" in d <==> TruthyStr(workDir) || "work_dir" in head
    ensures TruthyStr(workDir) ==> d["work_dir"] == JStr(workDir.value)
    ensures "env" in d <==> (env.Some? && |env.value| > 0) || "env" in head
    ensures env.Some? && |env.value| > 0 ==> d["env"] == JObj(map k | k in env.value :: JStr(env.value[k]))
    ensures "timeout" in d <==> TruthyInt(timeout) || "timeout" in head
    ensures TruthyInt(timeout) ==> d["timeout"] == JInt(timeout.value)
  {
    var d3 := if TruthyStr(workDir) then head["work_dir" := JStr(workDir.value)] else head;
    var d4 := if env.Some? && |env.value| > 0
              then d3["env" := JObj(map k | k in env.value :: JStr(env.value[k]))] else d3;
    if TruthyInt(timeout) then d4["timeout" := JInt(timeout.value)] else d4
  }

  /** The body of `execute`: code and language travel together, and only when code is truthy. */
  function ExecuteBody(sandboxId: Json, code: Option<string>, language: string, command: Option<seq<string>>,
                       workDir: Option<string>, env: Option<map<string, string>>, timeout: Option<int>)
    : (d: map<string, Json>)
    ensures d.Keys <= {"sandbox_id", "code", "language", "command", "work_dir", "env", "timeout"}
    ensures "sandbox_id" in d && d["sandbox_id"] == sandboxId
    ensures "code" in d <==> TruthyStr(code)
    ensures "language" in d <==> "code" in d
    ensures "code" in d ==> d["code"] == JStr(code.value) && d["language"] == JStr(language)
    ensures "command" in d <==> command.Some? && |command.value| > 0
    ensures "command" in d ==> d["command"] == CommandJson(command.value)
    ensures "work_dir" in d <==> TruthyStr(workDir)
    ensures "work_dir" in d ==> d["work_dir"] == JStr(workDir.value)
    ensures "env" in d <==> env.Some? && |env.value| > 0
    ensures "env" in d ==> d["env"] == JObj(map k | k in env.value :: JStr(env.value[k]))
    ensures "timeout" in d <==> TruthyInt(timeout)
    ensures "timeout" in d ==> d["timeout"] == JInt(timeout.value)
  {
    ExecuteTail(ExecuteHead(sandboxId, code, language, command), workDir, env, timeout)
  }

  /** `execute`: the HTTP timeout is the execution timeout, or 300 seconds when it is falsy. */
  function ExecuteCall(sandboxId: Json, code: Option<string>, language: string, command: Option<seq<string>>,
                       workDir: Option<string>, env: Option<map<string, string>>, timeout: Option<int>)
    : (r: Call)
    ensures r.verb == "POST" && r.path == Path("/api/v1/execute") && r.params.None?
    ensures r.data == Some(JObj(ExecuteBody(sandboxId, code, language, command, workDir, env, timeout)))
    ensures r.timeout == Some(if TruthyInt(timeout) then timeout.value else 300)
  {
    Call("POST", Path("/api/v1/execute"),
         Some(JObj(ExecuteBody(sandboxId, code, language, command, workDir, env, timeout))), None,
         Some(if TruthyInt(timeout) then timeout.value else 300))
  }

  /** Whatever the caller passes, the HTTP timeout of `execute` is never the client default fallback. */
  lemma ExecuteTimeoutNeverZero(c: Client, sandboxId: Json, code: Option<string>, timeout: Option<int>)
    ensures WireRequest(c, ExecuteCall(sandboxId, code, "python", None, None, None, timeout)).timeout
      == (if TruthyInt(timeout) then timeout.value else 300)
  {
  }

  function ListFilesCall(sandboxId: Json, path: string): (r: Call)
    ensures r.verb == "GET" && r.path == Path("/api/v1/files") && r.data.None?
    ensures r.params == Some(JObj(map["sandbox_id" := sandboxId, "path" := JStr(path)]))
    ensures r.timeout.None?
  {
    Call("GET", Path("/api/v1/files"), None, Some(JObj(map["sandbox_id" := sandboxId, "path" := JStr(path)])), None)
  }

  function WriteFileCall(sandboxId: Json, path: string, content: string): (r: Call)
    ensures r.verb == "PUT" && r.path == Path("/api/v1/files") && r.params.None?
    ensures r.data == Some(JObj(map["sandbox_id" := sandboxId, "path" := JStr(path), "content" := JStr(content)]))
    ensures r.timeout.None?
  {
    Call("PUT", Path("/api/v1/files"),
         Some(JObj(map["sandbox_id" := sandboxId, "path" := JStr(path), "content" := JStr(content)])), None, None)
  }

  function DeleteFileCall(sandboxId: Json, path: string): (r: Call)
    ensures r.verb == "DELETE" && r.path == Path("/api/v1/files") && r.data.None?
    ensures r.params == Some(JObj(map["sandbox_id" := sandboxId, "path" := JStr(path)]))
    ensures r.timeout.None?
  {
    Call("DELETE", Path("/api/v1/files"), None, Some(JObj(map["sandbox_id" := sandboxId, "path" := JStr(path)])), None)
  }

  // ---------------------------------------------------------------- decoders

  /** `response.get(key, default)` on a decoded response: a non-dict response makes `.get` raise. */
  function ResponseGet(resp: Json, key: string, default: Json): (r: Outcome<Json>)
    ensures resp.JObj? <==> r.Ok?
    ensures resp.JObj? ==> r.value == Get(resp.fields, key, default)
  {
    match resp
    case JObj(d) => Ok(Get(d, key, default))
    case _ => Err(Fault("AttributeError: response is not a dict"))
  }

  /** `response.get("success", False)`: the flag of delete_*, release_sandbox and write_file. */
  function SuccessFlag(resp: Outcome<Json>): (r: Outcome<Json>)
    ensures resp.Err? ==> r == Err(resp.error)
    ensures resp.Ok? && resp.value.JObj? && "success" !in resp.value.fields ==> r == Ok(JBool(false))
    ensures resp.Ok? && resp.value.JObj? && "success" in resp.value.fields ==> r == Ok(resp.value.fields["success"])
  {
    match resp
    case Err(e) => Err(e)
    case Ok(j) => ResponseGet(j, "success", JBool(false))
  }

  /**
   * The elements a Python `for` loop visits in a collection taken from a response:
   * a list's items; an empty dict or string visits nothing; the keys of a dict
   * or the characters of a string would reach `from_dict` and fail there; other
   * values are not iterable.
   */
  function Elements(j: Json): (r: Outcome<seq<Json>>)
    ensures j.JArr? ==> r == Ok(j.items)
    ensures j == JObj(map[]) || j == JStr("") ==> r == Ok([])
  {
    match j
    case JArr(items) => Ok(items)
    case JObj(m) => if |m| == 0 then Ok([]) else Err(Fault("AttributeError: dict key is not a dict"))
    case JStr(s) => if s == "" then Ok([]) else Err(Fault("AttributeError: character is not a dict"))
    case _ => Err(Fault("TypeError: not iterable"))
  }

  /** `[Session.from_dict(s) for s in items]`: the first non-dict element raises. */
  function DecodeSessions(items: seq<Json>, iso: IsoParser): (r: Outcome<seq<Session>>)
    ensures r.Ok? <==> forall i :: 0 <= i < |items| ==> items[i].JObj?
    ensures r.Ok? ==> |r.value| == |items|
    ensures r.Ok? ==> forall i :: 0 <= i < |items| ==> r.value[i] == SessionFromDict(items[i].fields, iso)
  {
    if items == [] then Ok([])
    else match SessionFromJson(items[0], iso)
      case Err(e) => Err(e)
      case Ok(s) =>
        match DecodeSessions(items[1..], iso)
        case Err(e) => Err(e)
        case Ok(rest) => Ok([s] + rest)
  }

  /** `[FileInfo.from_dict(f) for f in items]`. */
  function DecodeFiles(items: seq<Json>, iso: IsoParser): (r: Outcome<seq<FileInfo>>)
    ensures r.Ok? <==> forall i :: 0 <= i < |items| ==> items[i].JObj?
    ensures r.Ok? ==> |r.value| == |items|
    ensures r.Ok? ==> forall i :: 0 <= i < |items| ==> r.value[i] == FileInfoFromDict(items[i].fields, iso)
  {
    if items == [] then Ok([])
    else match FileInfoFromJson(items[0], iso)
      case Err(e) => Err(e)
      case Ok(f) =>
        match DecodeFiles(items[1..], iso)
        case Err(e) => Err(e)
        case Ok(rest) => Ok([f] + rest)
  }

  /** `list_sessions` given the dispatcher's outcome; a missing "sessions" key is an empty list. */
  function ListSessionsResult(resp: Outcome<Json>, iso: IsoParser): (r: Outcome<seq<Session>>)
    ensures resp.Err? ==> r == Err(resp.error)
    ensures resp.Ok? && resp.value.JObj? && "sessions" !in resp.value.fields ==> r == Ok([])
    ensures resp.Ok? && resp.value.JObj? && "sessions" in resp.value.fields && resp.value.fields["sessions"].JArr? ==>
      r == DecodeSessions(resp.value.fields["sessions"].items, iso)
  {
    match resp
    case Err(e) => Err(e)
    case Ok(j) =>
      match ResponseGet(j, "sessions", JArr([]))
      case Err(e) => Err(e)
      case Ok(coll) =>
        match Elements(coll)
        case Err(e) => Err(e)
        case Ok(items) => DecodeSessions(items, iso)
  }

  /** `list_files` given the dispatcher's outcome; a missing "files" key is an empty list. */
  function ListFilesResult(resp: Outcome<Json>, iso: IsoParser): (r: Outcome<seq<FileInfo>>)
    ensures resp.Err? ==> r == Err(resp.error)
    ensures resp.Ok? && resp.value.JObj? && "files" !in resp.value.fields ==> r == Ok([])
    ensures resp.Ok? && resp.value.JObj? && "files" in resp.value.fields && resp.value.fields["files"].JArr? ==>
      r == DecodeFiles(resp.value.fields["files"].items, iso)
  {
    match resp
    case Err(e) => Err(e)
    case Ok(j) =>
      match ResponseGet(j, "files", JArr([]))
      case Err(e) => Err(e)
      case Ok(coll) =>
        match Elements(coll)
        case Err(e) => Err(e)
        case Ok(items) => DecodeFiles(items, iso)
  }

  /** create/get/pause/resume_session given the dispatcher's outcome. */
  function SessionResult(resp: Outcome<Json>, iso: IsoParser): (r: Outcome<Session>)
    ensures resp.Err? ==> r == Err(resp.error)
    ensures resp.Ok? ==> r == SessionFromJson(resp.value, iso)
  {
    match resp
    case Err(e) => Err(e)
    case Ok(j) => SessionFromJson(j, iso)
  }

  function SandboxInfoResult(resp: Outcome<Json>): (r: Outcome<SandboxInfo>)
    ensures resp.Err? ==> r == Err(resp.error)
    ensures resp.Ok? ==> r == SandboxInfoFromJson(resp.value)
  {
    match resp
    case Err(e) => Err(e)
    case Ok(j) => SandboxInfoFromJson(j)
  }

  function ExecResultResult(resp: Outcome<Json>): (r: Outcome<ExecResult>)
    ensures resp.Err? ==> r == Err(resp.error)
    ensures resp.Ok? ==> r == ExecResultFromJson(resp.value)
  {
    match resp
    case Err(e) => Err(e)
    case Ok(j) => ExecResultFromJson(j)
  }

  /**
   * End to end through the dispatcher: a 200 response without a "sessions" key
   * lists no sessions, and a 401 for the same call is an AuthError carrying 401,
   * whatever the body.
   */
  lemma ListSessionsEndToEnd(c: Client, iso: IsoParser, body: Body)
    ensures ListSessionsResult(Dispatch(c, ListSessionsCall(), Response(200, Parsed(JObj(map[])))), iso) == Ok([])
    ensures ListSessionsResult(Dispatch(c, ListSessionsCall(), Response(401, body)), iso)
      == Err(Sdk(RaiseWithStatus(Auth, "Authentication failed", 401)))
  {
  }
}
