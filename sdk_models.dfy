/**
 * Resource records of the Python SDK (sdk/python/cloud_sandbox/models.py) and
 * their tolerant decoders. A dataclass stores whatever value it is given, so a
 * field that comes from the payload holds the payload's JSON value verbatim;
 * an absent key takes the field's documented default.
 */
module SdkModels {
  import opened Wrappers
  import opened Json
  import opened SdkErrors

  /** A timestamp accepted by `datetime.fromisoformat`, identified by the text it was parsed from. */
  datatype DateTime = DateTime(iso: string)

  /**
   * `datetime.fromisoformat`: a library parser outside the model. `None` stands
   * for the ValueError it raises on text it does not accept.
   */
  type IsoParser = string -> Option<DateTime>

  /** What `_parse_datetime` may be handed: a JSON value, or an already built datetime. */
  datatype DatetimeArg = FromJson(j: Json) | AlreadyDatetime(dt: DateTime)

  const DefaultImage: string := "python:3.11-slim"
  const DefaultCpuCount: int := 2
  const DefaultMemoryMb: int := 2048

  /** The text handed to the ISO parser: a trailing "Z" becomes "+00:00". */
  function ZuluRewrite(s: string): (r: string)
    ensures |s| > 0 && s[|s| - 1] == 'Z' ==> r == s[..|s| - 1] + "+00:00"
    ensures !(|s| > 0 && s[|s| - 1] == 'Z') ==> r == s
  {
    if |s| > 0 && s[|s| - 1] == 'Z' then s[..|s| - 1] + "+00:00" else s
  }

  /** `_parse_datetime`: None and non-text give None, a datetime passes through, text is parsed. */
  function ParseDatetime(v: DatetimeArg, iso: IsoParser): (r: Option<DateTime>)
    ensures v == FromJson(JNull) ==> r.None?
    ensures v.AlreadyDatetime? ==> r == Some(v.dt)
    ensures v.FromJson? && !v.j.JStr? ==> r.None?
    ensures v.FromJson? && v.j.JStr? ==> r == iso(ZuluRewrite(v.j.s))
  {
    match v
    case AlreadyDatetime(dt) => Some(dt)
    case FromJson(j) =>
      match j
      case JStr(s) => iso(ZuluRewrite(s))
      case _ => None
  }

  /**
   * What a timestamp field of a payload decodes to: text present under `key`
   * goes through the ISO parser after the "Z" rewrite; an absent key, `null`
   * or any non-text value gives no timestamp.
   */
  predicate StampOf(d: map<string, Json>, key: string, iso: IsoParser, v: Option<DateTime>) {
    if key in d && d[key].JStr? then v == iso(ZuluRewrite(d[key].s)) else v.None?
  }

  /** A persisted session, as returned by the session endpoints. */
  datatype Session = Session(
    id: Json,
    userId: Json,
    status: Json,
    sandboxId: Json,
    image: Json,
    cpuCount: Json,
    memoryMb: Json,
    workspaceUrl: Json,
    createdAt: Option<DateTime>,
    updatedAt: Option<DateTime>,
    lastActiveAt: Option<DateTime>,
    expiresAt: Option<DateTime>,
    metadata: Json)

  /** `Session.from_dict` on a dict payload. */
  function SessionFromDict(d: map<string, Json>, iso: IsoParser): (r: Session)
    ensures r.id == Get(d, "id", JStr(""))
    ensures r.userId == Get(d, "user_id", JStr(""))
    ensures r.status == Get(d, "status", JStr(""))
    ensures r.sandboxId == Get(d, "sandbox_id", JNull)
    ensures r.image == Get(d, "image", JStr(DefaultImage))
    ensures r.cpuCount == Get(d, "cpu_count", JInt(DefaultCpuCount))
    ensures r.memoryMb == Get(d, "memory_mb", JInt(DefaultMemoryMb))
    ensures r.workspaceUrl == Get(d, "workspace_url", JNull)
    ensures StampOf(d, "created_at", iso, r.createdAt) && StampOf(d, "updated_at", iso, r.updatedAt)
    ensures StampOf(d, "last_active_at", iso, r.lastActiveAt) && StampOf(d, "expires_at", iso, r.expiresAt)
    ensures r.metadata == Get(d, "metadata", JObj(map[]))
  {
    Session(
      Get(d, "id", JStr("")),
      Get(d, "user_id", JStr("")),
      Get(d, "status", JStr("")),
      Get(d, "sandbox_id", JNull),
      Get(d, "image", JStr(DefaultImage)),
      Get(d, "cpu_count", JInt(DefaultCpuCount)),
      Get(d, "memory_mb", JInt(DefaultMemoryMb)),
      Get(d, "workspace_url", JNull),
      ParseDatetime(FromJson(Get(d, "created_at", JNull)), iso),
      ParseDatetime(FromJson(Get(d, "updated_at", JNull)), iso),
      ParseDatetime(FromJson(Get(d, "last_active_at", JNull)), iso),
      ParseDatetime(FromJson(Get(d, "expires_at", JNull)), iso),
      Get(d, "metadata", JObj(map[])))
  }

  /**
   * A session payload carrying only id, user_id and status decodes with every
   * other field at its default (the minimal-payload case of the SDK's tests).
   */
  lemma MinimalSessionDefaults(id: string, user: string, status: string, iso: IsoParser)
    ensures var r := SessionFromDict(map["id" := JStr(id), "user_id" := JStr(user), "status" := JStr(status)], iso);
      && r.id == JStr(id) && r.userId == JStr(user) && r.status == JStr(status)
      && r.sandboxId == JNull && r.workspaceUrl == JNull
      && r.image == JStr("python:3.11-slim") && r.cpuCount == JInt(2) && r.memoryMb == JInt(2048)
      && r.metadata == JObj(map[])
      && r.createdAt.None? && r.updatedAt.None? && r.lastActiveAt.None? && r.expiresAt.None?
  {
  }

  /** `from_dict(x)` for any decoded response: a non-dict makes `.get` raise AttributeError. */
  function SessionFromJson(j: Json, iso: IsoParser): (r: Outcome<Session>)
    ensures j.JObj? <==> r.Ok?
    ensures j.JObj? ==> r.value == SessionFromDict(j.fields, iso)
    ensures r.Err? ==> r.error.Fault?
  {
    if j.JObj? then Ok(SessionFromDict(j.fields, iso)) else Err(Fault("AttributeError: not a dict"))
  }

  /** The outcome of one execution request. */
  datatype ExecResult = ExecResult(
    exitCode: Json,
    stdout: Json,
    stderr: Json,
    durationMs: Json,
    timedOut: Json,
    error: Json)

  /** `ExecResult.from_dict`. */
  function ExecResultFromDict(d: map<string, Json>): (r: ExecResult)
    ensures r.exitCode == Get(d, "exit_code", JInt(-1))
    ensures r.stdout == Get(d, "stdout", JStr("")) && r.stderr == Get(d, "stderr", JStr(""))
    ensures r.durationMs == Get(d, "duration_ms", JInt(0))
    ensures r.timedOut == Get(d, "timed_out", JBool(false))
    ensures r.error == Get(d, "error", JNull)
  {
    ExecResult(
      Get(d, "exit_code", JInt(-1)),
      Get(d, "stdout", JStr("")),
      Get(d, "stderr", JStr("")),
      Get(d, "duration_ms", JInt(0)),
      Get(d, "timed_out", JBool(false)),
      Get(d, "error", JNull))
  }

  function ExecResultFromJson(j: Json): (r: Outcome<ExecResult>)
    ensures j.JObj? <==> r.Ok?
    ensures j.JObj? ==> r.value == ExecResultFromDict(j.fields)
  {
    if j.JObj? then Ok(ExecResultFromDict(j.fields)) else Err(Fault("AttributeError: not a dict"))
  }

  /** The derived `success` property: `exit_code == 0 and not timed_out and not error`. */
  predicate Success(r: ExecResult) {
    EqualsZero(r.exitCode) && !Truthy(r.timedOut) && !Truthy(r.error)
  }

  /**
   * `success` over the well-typed payloads the backend sends: it holds exactly
   * when the exit code is 0, the run did not time out and no error text is set;
   * an empty error string counts as no error.
   */
  lemma SuccessExactly(exit: int, timedOut: bool, error: Option<string>)
    ensures Success(ExecResult(JInt(exit), JStr(""), JStr(""), JInt(0), JBool(timedOut), OptStr(error)))
      <==> exit == 0 && !timedOut && (error.None? || error == Some(""))
  {
  }

  /** A payload that omits `exit_code` never reports success: the default is -1. */
  lemma MissingExitCodeIsFailure(d: map<string, Json>)
    requires "exit_code" !in d
    ensures !Success(ExecResultFromDict(d))
  {
  }

  /** One directory entry. */
  datatype FileInfo = FileInfo(name: Json, path: Json, size: Json, isDir: Json, modTime: Option<DateTime>)

  /** `FileInfo.from_dict`. */
  function FileInfoFromDict(d: map<string, Json>, iso: IsoParser): (r: FileInfo)
    ensures r.name == Get(d, "name", JStr("")) && r.path == Get(d, "path", JStr(""))
    ensures r.size == Get(d, "size", JInt(0)) && r.isDir == Get(d, "is_dir", JBool(false))
    ensures StampOf(d, "mod_time", iso, r.modTime)
  {
    FileInfo(
      Get(d, "name", JStr("")),
      Get(d, "path", JStr("")),
      Get(d, "size", JInt(0)),
      Get(d, "is_dir", JBool(false)),
      ParseDatetime(FromJson(Get(d, "mod_time", JNull)), iso))
  }

  function FileInfoFromJson(j: Json, iso: IsoParser): (r: Outcome<FileInfo>)
    ensures j.JObj? <==> r.Ok?
    ensures j.JObj? ==> r.value == FileInfoFromDict(j.fields, iso)
  {
    if j.JObj? then Ok(FileInfoFromDict(j.fields, iso)) else Err(Fault("AttributeError: not a dict"))
  }

  /** A sandbox handle returned by acquire. */
  datatype SandboxInfo = SandboxInfo(sandboxId: Json, containerId: Json, status: Json, ip: Json)

  /** `SandboxInfo.from_dict`. */
  function SandboxInfoFromDict(d: map<string, Json>): (r: SandboxInfo)
    ensures r.sandboxId == Get(d, "sandbox_id", JStr("")) && r.containerId == Get(d, "container_id", JStr(""))
    ensures r.status == Get(d, "status", JStr("")) && r.ip == Get(d, "ip", JNull)
  {
    SandboxInfo(
      Get(d, "sandbox_id", JStr("")),
      Get(d, "container_id", JStr("")),
      Get(d, "status", JStr("")),
      Get(d, "ip", JNull))
  }

  function SandboxInfoFromJson(j: Json): (r: Outcome<SandboxInfo>)
    ensures j.JObj? <==> r.Ok?
    ensures j.JObj? ==> r.value == SandboxInfoFromDict(j.fields)
  {
    if j.JObj? then Ok(SandboxInfoFromDict(j.fields)) else Err(Fault("AttributeError: not a dict"))
  }

  /**
   * The decoders never fail on a dict, whatever keys it lacks: decoding the
   * empty dict gives every documented default.
   */
  lemma EmptyPayloadDefaults(iso: IsoParser)
    ensures SessionFromJson(JObj(map[]), iso).Ok?
    ensures SessionFromDict(map[], iso) == Session(JStr(""), JStr(""), JStr(""), JNull,
      JStr(DefaultImage), JInt(2), JInt(2048), JNull, None, None, None, None, JObj(map[]))
    ensures ExecResultFromDict(map[]) == ExecResult(JInt(-1), JStr(""), JStr(""), JInt(0), JBool(false), JNull)
    ensures FileInfoFromDict(map[], iso) == FileInfo(JStr(""), JStr(""), JInt(0), JBool(false), None)
    ensures SandboxInfoFromDict(map[]) == SandboxInfo(JStr(""), JStr(""), JStr(""), JNull)
  {
  }
}
