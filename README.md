# Cloud Sandbox core, modelled in Dafny

Cloud Sandbox runs untrusted code in throw-away containers. This project models the parts of it that make decisions, and proves properties of those models. It covers two halves.

- **Python client SDK.**
  - The low-level `SandboxClient`: request builders, the transport and status classifier in `_request` / `_handle_response`, and the decoders for each endpoint.
  - The tolerant `from_dict` record decoders and `ExecResult.success`.
  - The six-kind `SandboxError` taxonomy.
  - The high-level `Sandbox` object. It has two slots, the current session and the bound sandbox, and drives the client through create, resume, code and command runs, file calls, pause, destroy and scope exit.
- **Go backend.**
  - The sandbox `Pool`: idle stack, active map, creations in flight, bound, LIFO reuse, release, destroy, timeout cleanup and close.
  - The Docker runtime's decisions around its engine calls: language-to-command mapping, shell escaping, the output-capping writer, config default merging, exec planning, the container-state mapping and the runtime's sandbox map.
  - The `ls -la` parser and the parent-directory walk of the tar builder.
  - The sandbox and session types.
  - The session manager's lifecycle rules: create with TTL clamping, get, list by user, update, delete, pause, resume, touch, bind, unbind and cleanup.
  - The session server's in-memory store and its URL splitting and routing.
  - The token-bucket rate limiter.
  - The metrics path normaliser.
  - Bearer-token extraction and the 401 classification of the JWT middleware.

How the model represents things:

- **Network and engines.** The network is a `Transport` value: timed out, connection failed, or a response with a status and a body. Each Docker engine answer, runtime create/destroy answer and JWT library verdict is an input to the operation that receives it.
- **Object state.** Objects whose fields the source updates in place are classes: `Sandbox`, `Pool`, `LimitedWriter`, `DockerRuntime`, `InMemoryStore`, `Manager` and `RateLimiter`. Their methods state the whole new state.
- **Call trace.** The `Sandbox` object appends every request it puts on the wire to a trace. Its contracts therefore say which calls an operation makes, and in what order.
- **Time.** Go time is an integer count of nanoseconds. `time.Now()` is a `now` parameter.
- **Python values.** Python values received from the server are `Json` values. Python's built-in exceptions that the SDK does not catch, such as `AttributeError` on a non-dict response, are a `Fault` outcome kept apart from `SandboxError`.

Modules and files:

- `wrappers.dfy`: `Option` and `Result`.
- `json.dfy`: JSON values, Python truthiness and `dict.get`.
- `text.dfy`, `go_strings.dfy`: the `strings` / `strconv` functions the Go code relies on.
- `go_time.dfy`: Go time and durations as integers.
- `sdk_exceptions.dfy`, `sdk_models.dfy`, `sdk_client.dfy`, `sdk_sandbox.dfy`: the Python SDK.
- `sandbox_types.dfy`, `pool.dfy`, `docker.dfy`, `helpers.dfy`: `internal/sandbox`.
- `session_types.dfy`, `session_manager.dfy`: `internal/session`.
- `memory_store.dfy`, `session_server.dfy`: `cmd/session-manager`.
- `ratelimit.dfy`, `metrics_path.dfy`, `auth.dfy`: the middleware.

## Model

| member | source | states |
|---|---|---|
| SdkErrors.Raise | sdk/python/cloud_sandbox/exceptions.py:7-11 | an exception built from a message alone keeps that message and leaves `status_code` and `response` at None |
| SdkErrors.RaiseWithStatus | sdk/python/cloud_sandbox/exceptions.py:7-11 | an exception built with a status keeps message and status, and leaves `response` at None |
| Json.Get | sdk/python/cloud_sandbox/models.py:29-41 | `dict.get(key, default)`: the stored value when the key is present, the default otherwise |
| SdkModels.ZuluRewrite | sdk/python/cloud_sandbox/models.py:123-124 | a trailing `Z` is rewritten to `+00:00`; any other text is unchanged |
| SdkModels.ParseDatetime | sdk/python/cloud_sandbox/models.py:113-128 | None and non-text give None, a datetime passes through, text is parsed after the `Z` rewrite, a failed parse gives None |
| SdkModels.SessionFromDict | sdk/python/cloud_sandbox/models.py:28-42 | every plain field is the key's value when present and its documented default otherwise (`""`, None, `python:3.11-slim`, 2, 2048, `{}`); each of the four timestamps is the ISO parse of its text (after the `Z` rewrite) and None when absent, null or not text |
| SdkModels.MinimalSessionDefaults | sdk/python/cloud_sandbox/models.py:28-42 | a dict with only id, user_id and status gets the documented defaults for everything else |
| SdkModels.SessionFromJson | sdk/python/cloud_sandbox/models.py:28-42 | `from_dict` succeeds exactly on a dict and otherwise raises a built-in fault, never a `SandboxError` |
| SdkModels.ExecResultFromDict | sdk/python/cloud_sandbox/models.py:58-65 | defaults exit_code -1, empty outputs, 0 ms, not timed out, no error; present keys are kept verbatim |
| SdkModels.ExecResultFromJson | sdk/python/cloud_sandbox/models.py:58-65 | decoding succeeds exactly on a dict |
| SdkModels.SuccessExactly | sdk/python/cloud_sandbox/models.py:68-70 | `success` holds iff exit code 0, not timed out and error falsy; an empty-string error counts as none |
| SdkModels.MissingExitCodeIsFailure | sdk/python/cloud_sandbox/models.py:58-70 | a payload without `exit_code` never reports success |
| SdkModels.FileInfoFromDict | sdk/python/cloud_sandbox/models.py:85-91 | name, path, size and is_dir are the key's value or the defaults `""`, `""`, 0, False; the modification time is the ISO parse of its text, None when absent or not text |
| SdkModels.FileInfoFromJson | sdk/python/cloud_sandbox/models.py:85-91 | decoding succeeds exactly on a dict |
| SdkModels.SandboxInfoFromDict | sdk/python/cloud_sandbox/models.py:105-110 | defaults `""`, `""`, `""` and ip None |
| SdkModels.SandboxInfoFromJson | sdk/python/cloud_sandbox/models.py:105-110 | decoding succeeds exactly on a dict |
| SdkModels.EmptyPayloadDefaults | sdk/python/cloud_sandbox/models.py:28-110 | an empty payload decodes, for each record, to the record of all defaults |
| SdkClient.StripTrailingSlashes | sdk/python/cloud_sandbox/client.py:35 | `rstrip("/")`: a prefix of the input that does not end in `/`, with only slashes removed |
| SdkClient.NewClient | sdk/python/cloud_sandbox/client.py:35-37 | the base URL loses its trailing slashes; token and timeout are stored as given |
| SdkClient.SetToken | sdk/python/cloud_sandbox/client.py:102-104 | only the token changes |
| SdkClient.Headers | sdk/python/cloud_sandbox/client.py:40-45 | always `Content-Type: application/json`; `Authorization: Bearer <token>` iff the token is truthy; no other header |
| SdkClient.EffectiveTimeout | sdk/python/cloud_sandbox/client.py:57 | a missing or zero per-call timeout falls back to the client default |
| SdkClient.WireRequest | sdk/python/cloud_sandbox/client.py:56-67 | the wire request carries the base URL, verb, path, body, params, the current headers and the effective timeout |
| SdkClient.HandleResponse | sdk/python/cloud_sandbox/client.py:75-95 | 401/404/429/502 map to Auth/NotFound/RateLimit/ServiceUnavailable with that status before the body is read; other statuses of 400 or above raise a base error carrying the body, with the message from `error`, else `message`, else `Unknown error`; below 400 the decoded body is returned |
| SdkClient.DecodedBody | sdk/python/cloud_sandbox/client.py:86-89 | a body that does not parse becomes `{"raw": text}` |
| SdkClient.Dispatch | sdk/python/cloud_sandbox/client.py:59-73 | a timeout raises TimeoutError and a connection failure ServiceUnavailableError, neither with a status; a response goes to `_handle_response` |
| SdkClient.DispatchClassification | sdk/python/cloud_sandbox/client.py:59-95 | a `SandboxError` carries a status exactly when a response arrived; a response is returned iff its status is below 400 |
| SdkClient.GetTokenCall | sdk/python/cloud_sandbox/client.py:98-100 | POST to the token endpoint with user id and role |
| SdkClient.CreateSessionBody | sdk/python/cloud_sandbox/client.py:115-123 | each falsy argument is left out; a present TTL is `ttl_hours * 3600 * 10^9` nanoseconds |
| SdkClient.CreateSessionCall | sdk/python/cloud_sandbox/client.py:107-126 | POST `/api/v1/sessions` with that body |
| SdkClient.CreateSessionNoArgs | sdk/python/cloud_sandbox/client.py:107-125 | with no arguments the body is the empty object |
| SdkClient.GetSessionCall | sdk/python/cloud_sandbox/client.py:128-131 | GET `/api/v1/sessions/<id>` with no body, no query parameters and the client's default timeout |
| SdkClient.ListSessionsCall | sdk/python/cloud_sandbox/client.py:133-135 | GET `/api/v1/sessions` with no body, no query parameters and the client's default timeout |
| SdkClient.DeleteSessionCall | sdk/python/cloud_sandbox/client.py:139-141 | DELETE `/api/v1/sessions/<id>` with no body, no query parameters and the client's default timeout |
| SdkClient.PauseSessionCall | sdk/python/cloud_sandbox/client.py:144-147 | POST `/api/v1/sessions/<id>/pause` with no body, no query parameters and the client's default timeout |
| SdkClient.ResumeSessionCall | sdk/python/cloud_sandbox/client.py:149-152 | POST `/api/v1/sessions/<id>/resume` with no body, no query parameters and the client's default timeout |
| SdkClient.AcquireSandboxCall | sdk/python/cloud_sandbox/client.py:155-158 | POST `/api/v1/sandbox/acquire` with no body, no query parameters and the client's default timeout |
| SdkClient.ReleaseSandboxCall | sdk/python/cloud_sandbox/client.py:160-163 | POST `/api/v1/sandbox/release` with exactly the sandbox id as body, no query parameters and the client's default timeout |
| SdkClient.SandboxStatsCall | sdk/python/cloud_sandbox/client.py:165-167 | GET `/api/v1/sandbox/stats` with no body, no query parameters and the client's default timeout |
| SdkClient.CommandJson | sdk/python/cloud_sandbox/client.py:186-187 | a command list goes out element for element as a JSON list of strings |
| SdkClient.ExecuteBody | sdk/python/cloud_sandbox/client.py:181-193 | always the sandbox id; code and language together iff code is truthy; command, work dir, env and timeout each present iff truthy and then carrying the argument's value; no other key |
| SdkClient.ExecuteCall | sdk/python/cloud_sandbox/client.py:170-196 | POST `/api/v1/execute` with that body and an HTTP timeout of `timeout or 300` |
| SdkClient.ExecuteTimeoutNeverZero | sdk/python/cloud_sandbox/client.py:195 | the HTTP timeout of `execute` is the given timeout, or 300 when it is falsy, never the client default |
| SdkClient.ListFilesCall | sdk/python/cloud_sandbox/client.py:199-203 | GET `/api/v1/files` with sandbox id and path as query parameters, no body and the client's default timeout |
| SdkClient.WriteFileCall | sdk/python/cloud_sandbox/client.py:207-216 | PUT `/api/v1/files` with sandbox id, path and content as body, no query parameters and the client's default timeout |
| SdkClient.DeleteFileCall | sdk/python/cloud_sandbox/client.py:219-223 | DELETE `/api/v1/files` with sandbox id and path as query parameters, no body and the client's default timeout |
| SdkClient.ResponseGet | sdk/python/cloud_sandbox/client.py:136 | `.get` on a response succeeds exactly when the response is a dict |
| SdkClient.SuccessFlag | sdk/python/cloud_sandbox/client.py:142 | `response.get("success", False)`: an error propagates, a missing key is False, a present one is returned verbatim (also lines 163, 217, 224) |
| SdkClient.Elements | sdk/python/cloud_sandbox/client.py:137 | a list is iterated element by element; an empty dict or string yields nothing |
| SdkClient.DecodeSessions | sdk/python/cloud_sandbox/client.py:137 | the list comprehension succeeds iff every element is a dict, and then decodes each element in order |
| SdkClient.DecodeFiles | sdk/python/cloud_sandbox/client.py:205 | the same for file entries |
| SdkClient.ListSessionsResult | sdk/python/cloud_sandbox/client.py:133-137 | errors propagate; a missing `sessions` key gives `[]`; a list is decoded element-wise |
| SdkClient.ListFilesResult | sdk/python/cloud_sandbox/client.py:199-205 | errors propagate; a missing `files` key gives `[]`; a list is decoded element-wise |
| SdkClient.SessionResult | sdk/python/cloud_sandbox/client.py:126 | errors propagate, otherwise `Session.from_dict` of the response (also lines 131, 147, 152) |
| SdkClient.SandboxInfoResult | sdk/python/cloud_sandbox/client.py:158 | errors propagate, otherwise `SandboxInfo.from_dict` |
| SdkClient.ExecResultResult | sdk/python/cloud_sandbox/client.py:196 | errors propagate, otherwise `ExecResult.from_dict` |
| SdkClient.ListSessionsEndToEnd | sdk/python/cloud_sandbox/client.py:77-78 | through the dispatcher, a 200 without `sessions` lists nothing, and a 401 is an AuthError carrying 401 whatever the body |
| SdkSandbox.CommandVector | sdk/python/cloud_sandbox/client.py:362-363 | a text command becomes `["bash", "-c", text]`; a list passes unchanged |
| SdkSandbox.Sandbox.SessionId | sdk/python/cloud_sandbox/client.py:316-319 | the session's id when a session is held, else None |
| SdkSandbox.Sandbox.SandboxId | sdk/python/cloud_sandbox/client.py:321-324 | the sandbox's id when a sandbox is bound, else None |
| SdkSandbox.Sandbox.Send | sdk/python/cloud_sandbox/client.py:47-73 | one request goes on the wire, is appended to the trace, and its outcome is the dispatcher's; the slots do not change |
| SdkSandbox.InitCalls | sdk/python/cloud_sandbox/client.py:252-254 | `__init__` sends one request exactly when no token but a user id is given, none otherwise |
| SdkSandbox.Sandbox.Init | sdk/python/cloud_sandbox/client.py:230-255 | both slots start empty; with no token but a user id, exactly one `get_token(user_id)` is sent and its `access_token` installed, and it raises exactly when that reply is an error or lacks `access_token`; otherwise nothing is sent and nothing raises |
| SdkSandbox.Sandbox.AdoptSessionThenAcquire | sdk/python/cloud_sandbox/client.py:284-289 | the session slot takes the returned session, then one acquire is sent and the sandbox slot takes its result; each step runs only if the previous one did not raise |
| SdkSandbox.Sandbox.StartWith | sdk/python/cloud_sandbox/client.py:283-289 | the step `create` and `resume` share: the session call goes on the wire and the session slot takes its decoded reply; only then one `acquire_sandbox` is sent and the sandbox slot takes its decoded reply; a raising step ends the trace and leaves the later slot as it was |
| SdkSandbox.Sandbox.Create | sdk/python/cloud_sandbox/client.py:257-291 | raises from construction with both slots empty exactly when the token fetch fails; otherwise one `create_session` with the options, then one `acquire_sandbox`, with each slot holding its decoded reply and each failure raised as it happens |
| SdkSandbox.Sandbox.Resume | sdk/python/cloud_sandbox/client.py:293-314 | raises from construction exactly when the token fetch fails; otherwise one `resume_session(id)`, then one `acquire_sandbox`, with each slot holding its decoded reply and each failure raised as it happens |
| SdkSandbox.Sandbox.RunCode | sdk/python/cloud_sandbox/client.py:326-346 | with no sandbox it raises "Sandbox not acquired" and sends nothing; otherwise one `execute` with the code, the language (default `python`) and the timeout (default 300); the slots never change |
| SdkSandbox.Sandbox.RunCommand | sdk/python/cloud_sandbox/client.py:348-369 | the same guard; otherwise one `execute` with the command vector and the timeout (default 300) |
| SdkSandbox.Sandbox.WriteFile | sdk/python/cloud_sandbox/client.py:371-375 | the same guard; otherwise one `write_file` and its success flag |
| SdkSandbox.Sandbox.ListFiles | sdk/python/cloud_sandbox/client.py:377-381 | the same guard; otherwise one `list_files` of the path (default `/workspace`) and its decoded entries |
| SdkSandbox.Sandbox.DeleteFile | sdk/python/cloud_sandbox/client.py:383-387 | the same guard; otherwise one `delete_file` and its success flag |
| SdkSandbox.Sandbox.ReleaseBound | sdk/python/cloud_sandbox/client.py:403-405 | one `release_sandbox` for the bound id; the slot is cleared only if the call did not raise |
| SdkSandbox.Sandbox.Pause | sdk/python/cloud_sandbox/client.py:389-407 | with no session it raises "No active session" and changes nothing; otherwise it pauses the session and adopts the returned record, then releases a bound sandbox: a release that raises propagates and keeps the slot, one that does not clears it and the new session's id is returned |
| SdkSandbox.Sandbox.Destroy | sdk/python/cloud_sandbox/client.py:409-417 | release first: a release that raises ends the call with both slots kept and no delete sent; otherwise the sandbox slot is cleared and the session is deleted, the session slot cleared exactly when the delete does not raise; with both slots empty it sends nothing |
| SdkSandbox.Sandbox.Exit | sdk/python/cloud_sandbox/client.py:422-425 | releases and clears the sandbox iff auto-release is on and a sandbox is bound; never touches the session; the state does not depend on the exception passing through |
| SdkSandbox.DestroyCalls | sdk/python/cloud_sandbox/client.py:411-417 | a destroy sends one request per filled slot and nothing when both are empty |
| SdkSandbox.DestroyTwice | sdk/python/cloud_sandbox/client.py:409-417 | a second `destroy` after one that returned normally sends nothing and raises nothing |
| SandboxTypes.StatusName | internal/sandbox/types.go:13-18 | each of the six statuses has a non-empty wire name |
| SandboxTypes.StatusNameInjective | internal/sandbox/types.go:13-18 | distinct statuses have distinct names |
| SandboxTypes.DefaultConfig | internal/sandbox/types.go:56-67 | `python:3.11-slim`, 2 CPUs, 2048 MB, 10240 MB disk, 5 minutes, 10 MiB output, network on, `/workspace` |
| PoolModel.DefaultPoolConfig | internal/sandbox/pool.go:38-47 | min 2, max 50, warmup 5, idle timeout 30 min, cleanup every 5 min, default sandbox config |
| PoolModel.ScanSound | internal/sandbox/pool.go:311-320 | the collected indices are increasing, in range, of timed-out entries, never take the pool below `MinSize`, and stop early only at that bound |
| PoolModel.FirstWithId | internal/sandbox/pool.go:178-186 | the index of the first idle sandbox with that id, or none when no idle sandbox has it |
| PoolModel.Pool.constructor | internal/sandbox/pool.go:65-80 | an open, empty pool with nothing in flight |
| PoolModel.Pool.Acquire | internal/sandbox/pool.go:83-133 | closed: ErrPoolClosed and no change; idle non-empty: pop the last idle sandbox into `active`, marked active, with no runtime call; no idle and at the bound: ErrPoolExhausted; otherwise the runtime's answer lands in `active` or is returned as an error; `creating` is restored in every case |
| PoolModel.Pool.Release | internal/sandbox/pool.go:136-165 | an id not active is an error with no change; otherwise it leaves `active` and is pushed on `idle` as idle when there is room and the pool is open, else destroyed |
| PoolModel.Pool.Destroy | internal/sandbox/pool.go:168-189 | removes the id from `active`, else the first idle entry with it with the others kept in order, else errors; the runtime's answer is returned |
| PoolModel.Pool.Get | internal/sandbox/pool.go:192-201 | only active ids are found |
| PoolModel.Pool.Stats | internal/sandbox/pool.go:204-214 | exactly the keys idle, active, creating and max, with the sizes and the bound |
| PoolModel.Pool.Warmup | internal/sandbox/pool.go:236-283 | leaves active, creating and the closed flag alone and pushes exactly `Created(create, needed, room)` on the idle stack: the sandboxes of the successful attempts in attempt order, an attempt made only while the pool is under its bound |
| PoolModel.CreatedBounds | internal/sandbox/pool.go:253-256 | a warmup round never adds more sandboxes than attempts, nor more than the room left under the bound |
| PoolModel.CreatedFromAttempts | internal/sandbox/pool.go:262-276 | every sandbox a warmup round adds is the result of one of its successful creation attempts |
| PoolModel.CreatedAllSucceed | internal/sandbox/pool.go:248-276 | when every creation succeeds, a round adds exactly the smaller of the needed count and the room, the k-th being attempt k's sandbox |
| PoolModel.CreatedAllFail | internal/sandbox/pool.go:264-270 | when every creation fails, a round adds nothing |
| PoolModel.Pool.Cleanup | internal/sandbox/pool.go:302-347 | idle becomes the survivors of the timeout scan; active loses exactly the sandboxes stuck for twice the idle timeout; every dropped sandbox is handed to the runtime's Destroy exactly once: the removed idle ones in scan order, then one entry per evicted active sandbox |
| PoolModel.Pool.CollectTimedOut | internal/sandbox/pool.go:311-320 | the first loop collects exactly the scan's indices |
| PoolModel.Pool.SpliceAll | internal/sandbox/pool.go:323-326 | splicing the indices highest first removes exactly those positions and keeps the rest in order |
| PoolModel.Pool.EvictStuck | internal/sandbox/pool.go:329-335 | evicts exactly the stuck active sandboxes, listing each of them once (as many entries as active lost) |
| PoolModel.AppendActive | internal/sandbox/pool.go:360-362 | appends one id per active sandbox, covering every active id, after the ids already collected, which stay as they were |
| PoolModel.Pool.AllIds | internal/sandbox/pool.go:359-366 | `Close` collects the idle ids in order, then every active id |
| PoolModel.Pool.Close | internal/sandbox/pool.go:350-382 | the first call closes the pool, empties both collections and destroys all they held; later calls change nothing |
| PoolModel.IdsAt | internal/sandbox/pool.go:311-319 | the destroy list the first cleanup loop builds: the ids at the removed positions, one per position, in scan order |
| PoolModel.CleanupKeepsMinimum | internal/sandbox/pool.go:311-326 | cleanup removes only timed-out idle sandboxes, keeps the rest in order, leaves at least min(size, MinSize), and leaves a timed-out one only because of that floor |
| PoolModel.FilterSize | internal/sandbox/pool.go:323-326 | splicing out k distinct positions leaves size minus k |
| Docker.EscapeShell | internal/sandbox/docker.go:574-576 | text without a quote is unchanged, and the escape never shortens the text |
| Docker.EscapeShellCons | internal/sandbox/docker.go:574-576 | each `'` becomes `'"'"'` and every other character is kept, one character at a time |
| Docker.EscapeShellRoundTrip | internal/sandbox/docker.go:574-576 | inside single quotes, a POSIX shell reads the escaped text back as exactly the original |
| Docker.EscapedTail | internal/sandbox/docker.go:574-576 | the inductive step of that round trip |
| Docker.BuildCommand | internal/sandbox/docker.go:493-510 | on the lower-cased language: python, node, bash, ruby and go each get their runner; anything else gets `bash -c` |
| Docker.BuildCommandIgnoresCase | internal/sandbox/docker.go:494 | lower-casing the language first changes nothing |
| Docker.Cap | internal/sandbox/docker.go:590-593 | the first `limit` bytes of a stream, the whole stream if shorter |
| Docker.CapAppend | internal/sandbox/docker.go:590-596 | capping a longer stream extends the capped shorter one by the room left |
| Docker.LimitedWriter.Write | internal/sandbox/docker.go:585-598 | at or over the limit it forwards nothing and reports `len(p)`; otherwise it forwards the part that fits and `written` grows by exactly that; the forwarded total is always the cap of everything offered |
| Docker.MergeDefaults | internal/sandbox/docker.go:63-74 | an empty image, zero CPUs, zero memory or empty work dir take the runtime's; every other field is kept |
| Docker.MergeDefaultsSettles | internal/sandbox/docker.go:63-74 | merging is idempotent, and against a runtime with its own defaults set nothing is left at "use the default" |
| Docker.HostSettingsOf | internal/sandbox/docker.go:98-122 | memory in bytes, CPUs in nano-CPUs, tmpfs size and target, `no-new-privileges`; network `none` iff networking is off, else `bridge` |
| Docker.ContainerSettingsOf | internal/sandbox/docker.go:84-125 | the container is named `sandbox-<id>`, runs the merged image in the work directory with stdin open and no TTY, carries the created labels and is kept alive by `sleep infinity` |
| Docker.CreateLabels | internal/sandbox/docker.go:89-92 | exactly the sandbox-id and managed labels |
| Docker.PlanExec | internal/sandbox/docker.go:275-295 | a non-empty command is used verbatim, else `buildCommand`; a zero timeout becomes the maximum; an empty work dir becomes the config's |
| Docker.EnvList | internal/sandbox/docker.go:306-312 | one `k=v` entry per variable and nothing else |
| Docker.StatusOfState | internal/sandbox/docker.go:535-543 | paused to paused, exited or dead to stopped, everything else to idle |
| Docker.SyncOne | internal/sandbox/docker.go:529-557 | an unlabelled container changes nothing; an unknown id is inserted; a known id only has its status updated |
| Docker.SyncAllKeys | internal/sandbox/docker.go:529-558 | sync only adds, exactly one entry per labelled id |
| Docker.SyncAllKeepsKnown | internal/sandbox/docker.go:555-557 | a known entry keeps every field but its status |
| Docker.CreatedContainerIsSynced | internal/sandbox/docker.go:530-554 | a container made by `Create` is found by sync under its id |
| Docker.DockerRuntime.Get | internal/sandbox/docker.go:230-240 | the stored sandbox, or "sandbox not found: id" |
| Docker.DockerRuntime.Create | internal/sandbox/docker.go:61-168 | the merged config gives the container and host settings; on engine failure nothing changes; on success the sandbox is recorded idle under its id with the merged image and the created labels |
| Docker.DockerRuntime.Destroy | internal/sandbox/docker.go:209-227 | an unknown id errors; the entry is removed only once the container removal succeeded |
| Docker.DockerRuntime.Exec | internal/sandbox/docker.go:256-312 | an unknown id errors with no change; otherwise the plan of `PlanExec`, and the sandbox is left idle, stamped with now |
| Docker.DockerRuntime.SyncFromDocker | internal/sandbox/docker.go:513-561 | the map after the loop is the container-by-container sync of the listing |
| Helpers.Dir | internal/sandbox/helpers.go:28 | the parent of a path: `.` without a slash, `/` at the top, otherwise strictly shorter |
| Helpers.Lineage | internal/sandbox/helpers.go:30-33 | the parents from the outermost down to the directory itself |
| Helpers.LineageChain | internal/sandbox/helpers.go:31 | each directory of the lineage is the parent of the next, and the first has no parent left |
| Helpers.TarPath | internal/sandbox/helpers.go:20-25 | a relative path is made absolute, then the leading `/` is removed |
| Helpers.CreateTarAsWrittenDoesNotEnd | internal/sandbox/helpers.go:28-31 | for `//a` the parent walk reaches `/`, whose parent is `/` again, so the loop as written never ends |
| Helpers.ParentDirs | internal/sandbox/helpers.go:30-33 | the walk prepending each parent yields the lineage, outermost first |
| Helpers.DirHeaders | internal/sandbox/helpers.go:34-41 | one directory header per directory, in order, each with a trailing `/` |
| Helpers.CreateTar | internal/sandbox/helpers.go:15-57 | the parent headers outermost first, each named with a trailing `/` and mode 0755, then the file with mode 0644, the content's length and the content itself |
| Helpers.CreateTarRelative | internal/sandbox/helpers.go:20-22 | a relative and an absolute spelling of a path give the same archive |
| Helpers.LineEntry | internal/sandbox/helpers.go:89-127 | blank, `total` and short lines and `.`/`..` give nothing; otherwise the last field as name, directory iff the permissions start with `d`, size from field 4 or 0, path the join of base and name |
| Helpers.EntriesFromLines | internal/sandbox/helpers.go:89-128 | every entry comes from some line, and none is `.` or `..` |
| Helpers.SkippedLines | internal/sandbox/helpers.go:90-93 | a blank line or a `total` line adds nothing |
| Helpers.ParseLsOutput | internal/sandbox/helpers.go:85-131 | the entries of the output's lines, in line order |
| GoStrings.JoinSplit | internal/metrics/middleware.go:54-61 | joining the parts of a split gives back the text |
| GoStrings.SplitJoin | internal/metrics/middleware.go:54-61 | splitting a join of separator-free parts gives back the parts |
| GoStrings.ParseInt | internal/sandbox/helpers.go:115 | digits within int64 read as their value; unparseable text reads as 0; the result is always within int64 |
| GoStrings.ParseIntFormatted | internal/sandbox/helpers.go:115 | `ParseInt` reads back what decimal formatting writes, for every int64 |
| SessionTypes.SessionStatusName | internal/session/types.go:11-15 | the three statuses serialise as active, paused and expired |
| SessionTypes.ActiveExactly | internal/session/types.go:49-56 | active iff status active and now is at or before the expiry; exactly at the expiry a session is not expired; a paused or expired session is never active |
| SessionManager.DefaultManagerConfig | internal/session/manager.go:37-43 | 24 hours by default, 7 days at most, hourly cleanup |
| SessionManager.DefaultsAgree | internal/session/manager.go:78-86 | the manager's, the sandbox config's and the SDK's image, CPU and memory defaults agree |
| SessionManager.EffectiveTtl | internal/session/manager.go:69-76 | zero means the default; the result never exceeds the maximum |
| SessionManager.NewSession | internal/session/manager.go:78-100 | zero resources take the defaults; status active; created, updated and last-active at now; expires at now plus the effective TTL |
| SessionManager.NewSessionLifetime | internal/session/manager.go:69-100 | a new session with a non-negative TTL is active at creation and never outlives the maximum |
| SessionManager.PausedSession | internal/session/manager.go:227-239 | status paused, paused at now, no sandbox, the saved workspace key when there is one; never active |
| SessionManager.ResumedSession | internal/session/manager.go:261-267 | status active, not paused, last active now, expires a default TTL from now |
| SessionManager.PauseThenResume | internal/session/manager.go:227-267 | pausing then resuming gives an active session without a sandbox, with identity and workspace kept |
| SessionManager.GetAsWritten | internal/session/manager.go:128-136 | as written, an id the in-memory store does not hold reaches a nil dereference |
| SessionManager.GetAsWrittenUnknownId | cmd/session-manager/main.go:386-392 | for any store contents, an id the store does not hold and the cache does not serve panics as written, while the corrected lookup reports it not found |
| SessionManager.Manager.Lookup | internal/session/manager.go:119-147 | a cache hit is returned without the expiry check; a store hit errors once expired; a missing id errors |
| SessionManager.Manager.Create | internal/session/manager.go:65-116 | stores and caches the new session |
| SessionManager.Manager.Get | internal/session/manager.go:119-147 | returns the lookup; the cache afterwards is `CacheAfterGet`: a store hit with time left is cached, and nothing else changes |
| SessionManager.Manager.CacheAfterGet | internal/session/manager.go:138-144 | a lookup touches the cache only at its own id, and not at all when the id was already cached or there is no cache |
| SessionManager.Manager.CacheAfterUpdate | internal/session/manager.go:175-181 | a write-back caches the stamped session at its id while it has time left, and changes no other id |
| SessionManager.Manager.GetByUser | internal/session/manager.go:150-165 | exactly the user's stored sessions that have not expired, each once |
| SessionManager.Manager.Update | internal/session/manager.go:168-184 | stamps `UpdatedAt`, stores, and the cache afterwards is `CacheAfterUpdate`: the stamped session is cached while it has time left |
| SessionManager.Manager.Delete | internal/session/manager.go:187-209 | removes the session from cache and store; a failed workspace removal is only logged |
| SessionManager.Manager.Pause | internal/session/manager.go:212-247 | requires status active and a bound sandbox, else errors leaving the store as it was and the cache as `Get` left it; otherwise stores the paused session and caches it on top of `Get`'s cache while it has time left |
| SessionManager.Manager.Resume | internal/session/manager.go:250-275 | requires status paused, else errors leaving the store as it was and the cache as `Get` left it; otherwise stores and returns the resumed session and caches it on top of `Get`'s cache |
| SessionManager.Manager.Touch | internal/session/manager.go:302-323 | stamps last-active in the store and changes nothing else there; an unknown or expired id errors with no change; the cache is exactly as `Get` left it (only its lifetime is refreshed) |
| SessionManager.Manager.BindSandbox | internal/session/manager.go:356-371 | sets the sandbox id and last-active, nothing else, in the store, and caches the result on top of `Get`'s cache while it has time left; an error changes neither |
| SessionManager.Manager.UnbindSandbox | internal/session/manager.go:374-388 | clears the sandbox id, nothing else, in the store, and caches the result on top of `Get`'s cache while it has time left; an error changes neither |
| SessionManager.Manager.Cleanup | internal/session/manager.go:326-353 | drops the workspaces of exactly the expired sessions whose deletion does not fail, then the store entries of exactly the expired sessions, and counts them |
| SessionManager.LiveFacts | internal/session/manager.go:157-162 | filtering keeps exactly the unexpired sessions, and distinct ids stay distinct |
| MemoryStore.InMemoryStore.Create | cmd/session-manager/main.go:381-384 | insert or overwrite by id; nothing else changes |
| MemoryStore.InMemoryStore.Get | cmd/session-manager/main.go:386-392 | the stored session, or no session and no error |
| MemoryStore.InMemoryStore.GetByUser | cmd/session-manager/main.go:394-402 | exactly the user's sessions, each once |
| MemoryStore.InMemoryStore.Update | cmd/session-manager/main.go:404-407 | insert or overwrite by id |
| MemoryStore.InMemoryStore.Delete | cmd/session-manager/main.go:409-412 | removes one key |
| MemoryStore.InMemoryStore.ListExpired | cmd/session-manager/main.go:414-423 | exactly the sessions strictly past their expiry, each once |
| MemoryStore.InMemoryStore.DeleteExpired | cmd/session-manager/main.go:425-435 | removes exactly the expired sessions, keeps every other, and returns how many it removed |
| MemoryStore.PickFacts | cmd/session-manager/main.go:394-423 | a scan over distinct keys lists each accepted session once |
| MemoryStore.DeleteExpiredLeavesNoExpired | cmd/session-manager/main.go:425-435 | afterwards nothing is expired, nothing unexpired was lost, and kept plus removed is the old size |
| SessionServer.SplitParts | cmd/session-manager/main.go:351-368 | `split` yields the non-empty separator-free runs, in order |
| SessionServer.SplitPath | cmd/session-manager/main.go:341-349 | `splitPath` equals `split`: its empty-string filter never removes anything |
| SessionServer.TokensShape | cmd/session-manager/main.go:351-368 | each part is non-empty and separator-free, and the parts concatenate to the input without its separators |
| SessionServer.TokensAreSplitRuns | cmd/session-manager/main.go:351-368 | `split` is `strings.Split` with the empty parts dropped |
| SessionServer.Sessions | cmd/session-manager/main.go:144-190 | a GET lists exactly the query's user iff that user id is non-empty, a POST creates for exactly the body's user iff the body decodes with a non-empty user id; otherwise 400 "user_id is required", 400 "Invalid request body" for an undecodable body, or 405 for any other method |
| SessionServer.Dispatch | cmd/session-manager/main.go:212-339 | each known action reaches its handler exactly under its method (pause, resume, touch and bind under POST, unbind as bind under DELETE, get and delete as the empty action); bind with an undecodable body gives 400 "Invalid request body", else carries the decoded sandbox id; a known action under any other method gives 405; any other action gives 400 "Unknown action" |
| SessionServer.RouteAsWrittenPanics | cmd/session-manager/main.go:199-206 | `/api/v1/sessions//` passes the length check and indexes an empty slice |
| SessionServer.Route | cmd/session-manager/main.go:194-226 | never panics; agrees with the code as written wherever that does not panic, and answers 400 "Session ID required" exactly where it would panic; a path too short gives the same answer |
| SessionServer.RouteSegments | cmd/session-manager/main.go:205-210 | the first segment is the id, the second the action, further segments are ignored |
| RateLimit.DefaultRateLimitConfig | internal/middleware/ratelimit.go:31-37 | 100 per minute, bursts of 200 |
| RateLimit.Min | internal/middleware/ratelimit.go:119-124 | the smaller of the two |
| RateLimit.StepAsWritten | internal/middleware/ratelimit.go:55-82 | a new key is allowed with `burst - 1` tokens; otherwise the bucket is refilled by whole intervals and capped, its check time (also the time of its latest call) is reset to now, and the call is allowed iff a token remains, taking one |
| RateLimit.AsWrittenStarves | internal/middleware/ratelimit.go:71-74 | an empty bucket polled more often than once an interval never refills |
| RateLimit.AsWrittenLosesInterval | internal/middleware/ratelimit.go:71-74 | with the defaults, an empty bucket polled at 30 s and 60 s refuses both calls |
| RateLimit.Step | internal/middleware/ratelimit.go:55-82 | the same decision, with the refill's check time advanced by the whole intervals credited and the time of the latest call set to now |
| RateLimit.RefillAdditive | internal/middleware/ratelimit.go:70-73 | with that refill, two calls credit exactly the intervals one call at the later time would |
| RateLimit.StepServesFullInterval | internal/middleware/ratelimit.go:70-81 | the call at 60 s that the code as written refuses is served |
| RateLimit.StepKeepsTokensInRange | internal/middleware/ratelimit.go:73-79 | tokens stay within `[0, burst]` when `burst >= 1` |
| RateLimit.Middleware | internal/middleware/ratelimit.go:90-98 | a refused call gets 429, `Retry-After: 60` and the JSON error body, and the next handler does not run |
| RateLimit.RateLimiter.Allow | internal/middleware/ratelimit.go:55-82 | the decision of `Step`; only the caller's bucket changes; every bucket stays in range |
| RateLimit.RateLimiter.Cleanup | internal/middleware/ratelimit.go:109-114 | removes exactly the buckets whose latest call is more than ten minutes old |
| RateLimit.StepFresh | internal/middleware/ratelimit.go:74 | a bucket just used, by either refill, is not stale for ten minutes afterwards |
| MetricsPath.IsUuid | internal/metrics/middleware.go:65-79 | true iff length 36, dashes at 8, 13, 18 and 23, hex digits of either case elsewhere |
| MetricsPath.IsNumericId | internal/metrics/middleware.go:82-92 | true iff 1 to 20 characters, all decimal digits |
| MetricsPath.NormalizePath | internal/metrics/middleware.go:53-62 | each `/`-separated segment that is a UUID or numeric id becomes `:id`; every other segment is kept |
| MetricsPath.LabelIdempotent | internal/metrics/middleware.go:58-61 | `:id` is neither a UUID nor a number, so relabelling is stable |
| MetricsPath.NormalizedSegments | internal/metrics/middleware.go:54-61 | the label has the same number of segments, each the relabelled original |
| MetricsPath.NoIdsUnchanged | internal/metrics/middleware.go:54-61 | a path with no ids is returned unchanged |
| MetricsPath.NormalizeIdempotent | internal/metrics/middleware.go:53-62 | normalising twice is normalising once |
| Auth.ErrorText | internal/auth/jwt.go:13-17 | the three error texts are distinct |
| Auth.SplitFirstSpace | internal/auth/jwt.go:122 | `SplitN(s, " ", 2)`: the whole text when it has no space, else the text before the first space and the rest |
| Auth.ExtractToken | internal/auth/jwt.go:116-128 | an empty header gives ErrMissingToken; fewer than two parts or a scheme other than `bearer` in any case gives ErrInvalidToken; otherwise everything after the first space |
| Auth.ExtractBearer | internal/auth/jwt.go:122-127 | under any casing of `Bearer`, the token is everything after the first space verbatim, including spaces and the empty token |
| Auth.OtherSchemesRefused | internal/auth/jwt.go:122-125 | a header without a space, or with another scheme, is refused |
| Auth.ClientHeaderAccepted | internal/auth/jwt.go:122-127 | the SDK's `Bearer <token>` header yields the token back |
| Auth.ValidateToken | internal/auth/jwt.go:100-112 | an expired token gives ErrExpiredToken, every other failure ErrInvalidToken, and a valid one its claims |
| Auth.Middleware | internal/auth/jwt.go:131-152 | every failure gives 401: "missing or invalid token" for extraction, "token expired" or "invalid token" for validation; valid claims proceed |
| Auth.MiddlewarePasses | internal/auth/jwt.go:133-151 | only a bearer header whose token the library accepts reaches the handler |

## Left out

- Network I/O, `requests.Session`, `response.json()` and the Docker Engine, runtime, JWT and store clients are parameters: a `Transport` value, the engine's answer, or the library's verdict.
- `datetime.fromisoformat` is a parameter (`IsoParser`); only the `Z` rewrite and the "failure gives None" rule are modelled.
- JSON numbers are integers only. Floating-point values are not modelled.
- SdkSandbox.Sandbox.WriteFile: text content only; the `bytes.decode("utf-8")` branch is not modelled, because byte decoding is library work.
- `**kwargs` of `Sandbox.create` / `resume` is modelled as explicit token, user id and auto-release arguments.
- Python's `str()` of a session id inside a URL path is kept symbolic (`PathWithId`) rather than rendered.
- Goroutines, mutexes, tickers and background loops are not modelled: `warmupLoop`, `cleanupLoop`, the rate limiter's cleanup ticker, the manager's `cleanupLoop` / `Close`, and the background destroy in `Release`. Each operation is modelled as one sequential step.
- PoolModel.Pool.Warmup: the concurrent creations of a round run one after another. The count needed is computed once from the pool as it was at the start.
- Docker.EnvList and the map scans of `GetByUser`, `ListExpired`, `AllIds` and `EvictStuck`: Go's map order is unspecified, so the contracts state membership and multiplicity, not order.
- `uuid` generation is not modelled; ids are parameters.
- Docker.DockerRuntime.Create: image pulling, container start, inspection and the container's IP address are engine calls. The model only takes their combined outcome.
- Docker.DockerRuntime.Exec: the exec run, output demultiplexing and the timeout race are not modelled.
- `WriteFile`, `ReadFile`, `ListFiles` and `DeleteFile` of the runtime are shell-plus-base64 engine calls and are not modelled. Their pure helper, `parseLsOutput`, is modelled.
- Helpers.LineEntry: the modification time is the `now` parameter, as the source uses the current time.
- Text.Lower, GoStrings.TrimSpace and GoStrings.Fields cover ASCII case and white space only. Go's Unicode tables are not modelled.
- `isUUID` is modelled over characters. Go ranges over runes with byte indices, which differ only for non-ASCII text.
- Helpers.JoinPath and Helpers.Dir follow `filepath.Join` / `filepath.Dir` on plain `/`-separated paths. `filepath.Clean`'s removal of `.`, `..` and repeated slashes is not modelled.
- The PostgreSQL store, Redis cache and MinIO workspace storage are not modelled. The manager's cache is a map, and the workspace storage is a set of saved ids whose failures are inputs.
- The cache's own expiry is not modelled.
- RateLimit.RateLimiter.Allow: a zero refill interval is excluded for a key already seen (the first call of a key needs no division and is modelled). Go divides by the interval there and panics with an integer division by zero; the model does not represent that panic.
- The gateway, the scheduler, `main()` of the session manager, Prometheus registration, `internal/auth/context.go` and JWT signing are not part of this model.
- The `user_id` query parameter and the decoding of the create body are parameters of `SessionServer.Sessions`; the decoding of the bind body (its `sandbox_id`, or None when it does not decode) is a parameter of `SessionServer.Dispatch`.
- The manager-level errors those handlers write are not modelled.
- Shared pointers are not modelled. The pool keeps the runtime's `*Sandbox` (internal/sandbox/pool.go:116, 264), and `Exec` writes `Status` and `LastActiveAt` on that same object (internal/sandbox/docker.go:263-270). So in Go, an exec refreshes the time that PoolModel.Pool.Cleanup / PoolModel.Pool.EvictStuck read for the stuck eviction (internal/sandbox/pool.go:330). In the model the pool holds sandbox values, and Docker.DockerRuntime.Exec updates only the runtime's own map, so a pooled entry keeps the times it had when it was stored.
- In the same way, the in-memory store's `Get` returns the stored `*Session`, which callers change before writing it back. In the model the store hands out and takes values, and only an explicit store write changes the store.
- Helpers.CreateTar: the tar byte layout (512-byte headers, padding, the end-of-archive blocks, header checksums and the other header fields) is not modelled. The archive is the list of its members with name, mode, size and data.

## Findings

| source | as written | input that shows it | evidently intended | confidence | as-written member | corrected member |
|---|---|---|---|---|---|---|
| internal/middleware/ratelimit.go:71-74 | the check time is reset to now on every call, so the fraction of an interval since the last whole refill is discarded | rate 100 per 60 s, an empty bucket at 0 s, calls at 30 s and 60 s: both refused although a full interval has passed | a full interval since the last credited refill earns `rate` tokens | medium, not executed | RateLimit.AsWrittenLosesInterval | RateLimit.StepServesFullInterval |
| internal/session/manager.go:128-136 | on a cache miss the store's session is read without a nil check; the in-memory store answers `(nil, nil)` for a missing id (cmd/session-manager/main.go:386-392) | `Get` of any id the in-memory store does not hold | a missing session is reported as an error | high, not executed | SessionManager.GetAsWrittenUnknownId | SessionManager.Manager.Get |
| cmd/session-manager/main.go:199-206 | a path longer than the prefix whose rest is only slashes gives no parts, and `parts[0]` is read anyway | a request for `/api/v1/sessions/%2F`, whose decoded path the handler reads as `/api/v1/sessions//` (a literal `//` is redirected by the router before it arrives) | answered like a missing session id (400 "Session ID required") | high, not executed | SessionServer.RouteAsWrittenPanics | SessionServer.Route |
| internal/sandbox/helpers.go:28-31 | the walk up the parents stops only at `.` or `""`; an absolute tar path reaches `/`, whose parent is `/` | `createTar("//a", …)`: the tar path is `/a`, and the loop never ends | the walk stops at the top of the path | high, not executed | Helpers.CreateTarAsWrittenDoesNotEnd | Helpers.CreateTar |
