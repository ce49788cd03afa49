/**
 * The high-level `Sandbox` object of the Python SDK (class Sandbox in
 * sdk/python/cloud_sandbox/client.py): two slots, the current session and the
 * bound sandbox, driven through the low-level client.
 *
 * The network is the `server` oracle: it answers the n-th request put on the
 * wire. Every request the object sends is appended to `sent`, so contracts can
 * say exactly which calls an operation makes and in what order.
 */
module SdkSandbox {
  import opened Wrappers
  import opened Json
  import opened SdkErrors
  import opened SdkModels
  import opened SdkClient

  /** The network: the transport outcome of the request at a given position of the trace. */
  type Server = (nat, Request) -> Transport

  /** The `command` argument of `run_command`: `Union[str, List[str]]`. */
  datatype CommandArg = CmdText(text: string) | CmdList(argv: seq<string>)

  /** The argument vector `run_command` hands to `execute`: text runs under `bash -c`. */
  function CommandVector(c: CommandArg): (argv: seq<string>)
    ensures c.CmdText? ==> argv == ["bash", "-c", c.text]
    ensures c.CmdList? ==> argv == c.argv
  {
    match c
    case CmdText(s) => ["bash", "-c", s]
    case CmdList(a) => a
  }

  /** The error every sandbox-bound operation raises when no sandbox is held. */
  const NotAcquired: Raised := Sdk(Raise(Base, "Sandbox not acquired"))
  const NoSession: Raised := Sdk(Raise(Base, "No active session"))

  /** How many requests `__init__` sends: one token request when there is no token but a user id. */
  function InitCalls(token: Option<string>, userId: Option<string>): (n: nat)
    ensures n <= 1
    ensures n == 1 <==> !TruthyStr(token) && TruthyStr(userId)
  {
    if !TruthyStr(token) && TruthyStr(userId) then 1 else 0
  }

  /**
   * `__init__` raises exactly when it fetches a token and the reply is an error
   * or has no `access_token` to install.
   */
  predicate InitRaises(baseUrl: string, token: Option<string>, userId: Option<string>, server: Server) {
    && !TruthyStr(token) && TruthyStr(userId)
    && var c0 := NewClient(baseUrl, OptStr(token), DefaultTimeout);
       var call := GetTokenCall(JStr(userId.value), "user");
       var reply := Dispatch(c0, call, server(0, WireRequest(c0, call)));
       !(reply.Ok? && reply.value.JObj? && "access_token" in reply.value.fields)
  }

  /** The defaults of `run_code` and `run_command` (language, timeout in seconds) and of `list_files`. */
  const DefaultLanguage: string := "python"
  const DefaultExecTimeout: int := 300
  const DefaultListPath: string := "/workspace"

  class Sandbox {
    var client: Client
    var autoRelease: bool
    var session: Option<Session>
    var sandbox: Option<SandboxInfo>
    /** Every request put on the wire, oldest first. */
    var sent: seq<Request>
    const server: Server
    const iso: IsoParser

    /** The outcome the next request for `call` would have, given the trace so far. */
    function Reply(call: Call): Outcome<Json>
      reads this
    {
      Dispatch(client, call, server(|sent|, WireRequest(client, call)))
    }

    /** The outcome of `call` if it is the request at position `k` of the trace. */
    function ReplyAt(call: Call, k: nat): Outcome<Json>
      reads this
    {
      Dispatch(client, call, server(k, WireRequest(client, call)))
    }

    /**
     * The outcome of the session call at trace position `k` and of what follows
     * it: the session slot takes the decoded session, then one acquire goes out
     * and the sandbox slot takes its decoded reply. A step that raises ends the
     * trace there and leaves the later slot as it was (`session0`, `sandbox0`).
     */
    predicate Started(call: Call, k: nat, session0: Option<Session>, sandbox0: Option<SandboxInfo>,
                      raised: Option<Raised>)
      reads this
    {
      var acquire := AcquireSandboxCall();
      var got := SessionResult(ReplyAt(call, k), iso);
      && |sent| >= k + 1 && sent[k] == WireRequest(client, call)
      && (got.Err? ==> raised == Some(got.error) && |sent| == k + 1 && session == session0 && sandbox == sandbox0)
      && (got.Ok? ==>
            var acquired := SandboxInfoResult(ReplyAt(acquire, k + 1));
            && session == Some(got.value)
            && |sent| == k + 2 && sent[k + 1] == WireRequest(client, acquire)
            && (acquired.Ok? ==> raised.None? && sandbox == Some(acquired.value))
            && (acquired.Err? ==> raised == Some(acquired.error) && sandbox == sandbox0))
    }

    /** The `session_id` property. */
    function SessionId(): (r: Option<Json>)
      reads this
      ensures r.Some? <==> session.Some?
      ensures session.Some? ==> r == Some(session.value.id)
    {
      if session.Some? then Some(session.value.id) else None
    }

    /** The `sandbox_id` property. */
    function SandboxId(): (r: Option<Json>)
      reads this
      ensures r.Some? <==> sandbox.Some?
      ensures sandbox.Some? ==> r == Some(sandbox.value.sandboxId)
    {
      if sandbox.Some? then Some(sandbox.value.sandboxId) else None
    }

    constructor Bare(c: Client, autoRelease: bool, server: Server, iso: IsoParser)
      ensures this.client == c && this.autoRelease == autoRelease
      ensures session.None? && sandbox.None? && sent == []
      ensures this.server == server && this.iso == iso
    {
      this.client := c;
      this.autoRelease := autoRelease;
      this.session := None;
      this.sandbox := None;
      this.sent := [];
      this.server := server;
      this.iso := iso;
    }

    /** `_request`: one request on the wire, its outcome from the dispatcher. */
    method Send(call: Call) returns (r: Outcome<Json>)
      modifies this
      ensures r == old(Reply(call))
      ensures sent == old(sent) + [old(WireRequest(client, call))]
      ensures client == old(client) && autoRelease == old(autoRelease)
      ensures session == old(session) && sandbox == old(sandbox)
    {
      var req := WireRequest(client, call);
      r := Dispatch(client, call, server(|sent|, req));
      sent := sent + [req];
    }

    /**
     * `Sandbox.__init__`. `raised` is the exception `__init__` lets escape; the
     * object is then unreachable to the caller. With no token but a user id the
     * object fetches a token once and installs `access_token`.
     */
    static method Init(baseUrl: string, token: Option<string>, userId: Option<string>, autoRelease: bool,
                       server: Server, iso: IsoParser)
      returns (s: Sandbox, raised: Option<Raised>)
      ensures fresh(s)
      ensures s.session.None? && s.sandbox.None? && s.autoRelease == autoRelease
      ensures s.server == server && s.iso == iso
      ensures s.client.baseUrl == StripTrailingSlashes(baseUrl) && s.client.timeout == DefaultTimeout
      ensures raised.Some? <==> InitRaises(baseUrl, token, userId, server)
      ensures |s.sent| == InitCalls(token, userId)
      ensures TruthyStr(token) || !TruthyStr(userId) ==>
        s.sent == [] && raised.None? && s.client.token == OptStr(token)
      ensures !TruthyStr(token) && TruthyStr(userId) ==>
        var c0 := NewClient(baseUrl, OptStr(token), DefaultTimeout);
        var call := GetTokenCall(JStr(userId.value), "user");
        && s.sent == [WireRequest(c0, call)]
        && var reply := Dispatch(c0, call, server(0, WireRequest(c0, call)));
        && (raised.None? <==> reply.Ok? && reply.value.JObj? && "access_token" in reply.value.fields)
        && (raised.None? ==> s.client.token == reply.value.fields["access_token"])
        && (reply.Err? ==> raised == Some(reply.error))
    {
      s := new Sandbox.Bare(NewClient(baseUrl, OptStr(token), DefaultTimeout), autoRelease, server, iso);
      raised := None;
      if !TruthyStr(token) && TruthyStr(userId) {
        var resp := s.Send(GetTokenCall(JStr(userId.value), "user"));
        match resp {
          case Err(e) =>
            raised := Some(e);
          case Ok(j) =>
            if j.JObj? && "access_token" in j.fields {
              s.client := SetToken(s.client, j.fields["access_token"]);
            } else {
              raised := Some(Fault("KeyError or TypeError: access_token"));
            }
        }
      }
    }

    /**
     * The common tail of `create` and `resume` once the session call has returned:
     * store its session, then acquire a sandbox and store it.
     */
    method AdoptSessionThenAcquire(resp: Outcome<Json>) returns (raised: Option<Raised>)
      modifies this
      ensures client == old(client) && autoRelease == old(autoRelease)
      ensures SessionResult(resp, iso).Err? ==>
        raised == Some(SessionResult(resp, iso).error) && sent == old(sent)
        && session == old(session) && sandbox == old(sandbox)
      ensures SessionResult(resp, iso).Ok? ==>
        && session == Some(SessionResult(resp, iso).value)
        && sent == old(sent) + [WireRequest(client, AcquireSandboxCall())]
        && var acquired := SandboxInfoResult(old(Dispatch(client, AcquireSandboxCall(),
                              server(|sent|, WireRequest(client, AcquireSandboxCall())))));
        && (acquired.Ok? ==> raised.None? && sandbox == Some(acquired.value))
        && (acquired.Err? ==> raised == Some(acquired.error) && sandbox == old(sandbox))
    {
      var s := SessionResult(resp, iso);
      if s.Err? {
        return Some(s.error);
      }
      session := Some(s.value);
      var a := Send(AcquireSandboxCall());
      var info := SandboxInfoResult(a);
      if info.Err? {
        return Some(info.error);
      }
      sandbox := Some(info.value);
      raised := None;
    }

    /**
     * `Sandbox.create`: construct (fetching a token for `userId` when no token is
     * given), create a session with the given options, then acquire a sandbox.
     * Each step runs only when the one before it did not raise.
     */
    static method Create(baseUrl: string, userId: string, image: Option<string>, cpuCount: Option<int>,
                         memoryMb: Option<int>, token: Option<string>, autoRelease: bool,
                         server: Server, iso: IsoParser)
      returns (s: Sandbox, raised: Option<Raised>)
      ensures fresh(s) && s.server == server && s.iso == iso && s.autoRelease == autoRelease
      ensures InitRaises(baseUrl, token, Some(userId), server) ==>
        raised.Some? && s.session.None? && s.sandbox.None? && |s.sent| == 1
      ensures !InitRaises(baseUrl, token, Some(userId), server) ==>
        s.Started(CreateSessionCall(image, cpuCount, memoryMb, None), InitCalls(token, Some(userId)), None, None, raised)
      ensures raised.None? ==> s.session.Some? && s.sandbox.Some?
    {
      s, raised := Init(baseUrl, token, Some(userId), autoRelease, server, iso);
      if raised.Some? {
        return;
      }
      raised := s.StartWith(CreateSessionCall(image, cpuCount, memoryMb, None));
    }

    /** The shared tail of `create` and `resume`: send the session call, adopt its session, acquire a sandbox. */
    method StartWith(call: Call) returns (raised: Option<Raised>)
      modifies this
      ensures client == old(client) && autoRelease == old(autoRelease)
      ensures |sent| >= |old(sent)| && sent[..|old(sent)|] == old(sent)
      ensures Started(call, |old(sent)|, old(session), old(sandbox), raised)
    {
      ghost var k := |sent|;
      var resp := Send(call);
      assert resp == ReplyAt(call, k);
      ghost var before := sent;
      raised := AdoptSessionThenAcquire(resp);
      if SessionResult(resp, iso).Ok? {
        assert sent == before + [WireRequest(client, AcquireSandboxCall())];
      }
    }

    /** `Sandbox.resume`: construct, resume the given session, then acquire a sandbox. */
    static method Resume(sessionId: string, baseUrl: string, token: Option<string>, userId: Option<string>,
                         autoRelease: bool, server: Server, iso: IsoParser)
      returns (s: Sandbox, raised: Option<Raised>)
      ensures fresh(s) && s.server == server && s.iso == iso && s.autoRelease == autoRelease
      ensures InitRaises(baseUrl, token, userId, server) ==>
        raised.Some? && s.session.None? && s.sandbox.None? && |s.sent| == 1
      ensures !InitRaises(baseUrl, token, userId, server) ==>
        s.Started(ResumeSessionCall(JStr(sessionId)), InitCalls(token, userId), None, None, raised)
      ensures raised.None? ==> s.session.Some? && s.sandbox.Some?
    {
      s, raised := Init(baseUrl, token, userId, autoRelease, server, iso);
      if raised.Some? {
        return;
      }
      raised := s.StartWith(ResumeSessionCall(JStr(sessionId)));
    }

    /**
     * `run_code`: guarded by the sandbox slot; the slots never change. An
     * omitted language or timeout (None) takes the method's default.
     */
    method RunCode(code: string, language: Option<string>, timeout: Option<int>) returns (r: Outcome<ExecResult>)
      modifies this
      ensures client == old(client) && autoRelease == old(autoRelease)
      ensures session == old(session) && sandbox == old(sandbox)
      ensures old(sandbox).None? ==> r == Err(NotAcquired) && sent == old(sent)
      ensures old(sandbox).Some? ==>
        var call := ExecuteCall(old(sandbox).value.sandboxId, Some(code), language.GetOr(DefaultLanguage), None, None, None,
                                Some(timeout.GetOr(DefaultExecTimeout)));
        && sent == old(sent) + [WireRequest(client, call)]
        && r == ExecResultResult(old(Reply(call)))
    {
      if sandbox.None? {
        return Err(NotAcquired);
      }
      var resp := Send(ExecuteCall(sandbox.value.sandboxId, Some(code), language.GetOr(DefaultLanguage), None, None, None,
                                   Some(timeout.GetOr(DefaultExecTimeout))));
      r := ExecResultResult(resp);
    }

    /**
     * `run_command`: a text command runs as `bash -c <text>`, a list is passed
     * through; an omitted timeout takes the default. The language sent is
     * `execute`'s own default.
     */
    method RunCommand(command: CommandArg, timeout: Option<int>) returns (r: Outcome<ExecResult>)
      modifies this
      ensures client == old(client) && autoRelease == old(autoRelease)
      ensures session == old(session) && sandbox == old(sandbox)
      ensures old(sandbox).None? ==> r == Err(NotAcquired) && sent == old(sent)
      ensures old(sandbox).Some? ==>
        var call := ExecuteCall(old(sandbox).value.sandboxId, None, "python", Some(CommandVector(command)),
                                None, None, Some(timeout.GetOr(DefaultExecTimeout)));
        && sent == old(sent) + [WireRequest(client, call)]
        && r == ExecResultResult(old(Reply(call)))
    {
      if sandbox.None? {
        return Err(NotAcquired);
      }
      var call := ExecuteCall(sandbox.value.sandboxId, None, "python", Some(CommandVector(command)),
                              None, None, Some(timeout.GetOr(DefaultExecTimeout)));
      var resp := Send(call);
      r := ExecResultResult(resp);
    }

    /** `write_file` (text content): the server's success flag. */
    method WriteFile(path: string, content: string) returns (r: Outcome<Json>)
      modifies this
      ensures client == old(client) && autoRelease == old(autoRelease)
      ensures session == old(session) && sandbox == old(sandbox)
      ensures old(sandbox).None? ==> r == Err(NotAcquired) && sent == old(sent)
      ensures old(sandbox).Some? ==>
        var call := WriteFileCall(old(sandbox).value.sandboxId, path, content);
        && sent == old(sent) + [WireRequest(client, call)]
        && r == SuccessFlag(old(Reply(call)))
    {
      if sandbox.None? {
        return Err(NotAcquired);
      }
      var resp := Send(WriteFileCall(sandbox.value.sandboxId, path, content));
      r := SuccessFlag(resp);
    }

    /** `list_files`: an omitted path lists the workspace. */
    method ListFiles(path: Option<string>) returns (r: Outcome<seq<FileInfo>>)
      modifies this
      ensures client == old(client) && autoRelease == old(autoRelease)
      ensures session == old(session) && sandbox == old(sandbox)
      ensures old(sandbox).None? ==> r == Err(NotAcquired) && sent == old(sent)
      ensures old(sandbox).Some? ==>
        var call := ListFilesCall(old(sandbox).value.sandboxId, path.GetOr(DefaultListPath));
        && sent == old(sent) + [WireRequest(client, call)]
        && r == ListFilesResult(old(Reply(call)), iso)
    {
      if sandbox.None? {
        return Err(NotAcquired);
      }
      var resp := Send(ListFilesCall(sandbox.value.sandboxId, path.GetOr(DefaultListPath)));
      r := ListFilesResult(resp, iso);
    }

    /** `delete_file`: the server's success flag. */
    method DeleteFile(path: string) returns (r: Outcome<Json>)
      modifies this
      ensures client == old(client) && autoRelease == old(autoRelease)
      ensures session == old(session) && sandbox == old(sandbox)
      ensures old(sandbox).None? ==> r == Err(NotAcquired) && sent == old(sent)
      ensures old(sandbox).Some? ==>
        var call := DeleteFileCall(old(sandbox).value.sandboxId, path);
        && sent == old(sent) + [WireRequest(client, call)]
        && r == SuccessFlag(old(Reply(call)))
    {
      if sandbox.None? {
        return Err(NotAcquired);
      }
      var resp := Send(DeleteFileCall(sandbox.value.sandboxId, path));
      r := SuccessFlag(resp);
    }

    /** Release the bound sandbox and clear the slot; on a raise the slot stays bound. */
    method ReleaseBound() returns (raised: Option<Raised>)
      requires sandbox.Some?
      modifies this
      ensures client == old(client) && autoRelease == old(autoRelease) && session == old(session)
      ensures var call := ReleaseSandboxCall(old(sandbox).value.sandboxId);
        && sent == old(sent) + [WireRequest(client, call)]
        && var flag := SuccessFlag(old(Reply(call)));
        && (flag.Ok? ==> raised.None? && sandbox.None?)
        && (flag.Err? ==> raised == Some(flag.error) && sandbox == old(sandbox))
    {
      var resp := Send(ReleaseSandboxCall(sandbox.value.sandboxId));
      var flag := SuccessFlag(resp);
      if flag.Err? {
        return Some(flag.error);
      }
      sandbox := None;
      raised := None;
    }

    /**
     * `pause`: with no session it raises and sends nothing. Otherwise it pauses
     * the session on the server and adopts the returned record, then releases
     * a bound sandbox, and answers the new session's id.
     */
    method Pause() returns (r: Outcome<Json>)
      modifies this
      ensures client == old(client) && autoRelease == old(autoRelease)
      ensures old(session).None? ==> r == Err(NoSession) && sent == old(sent) && unchanged(this)
      ensures old(session).Some? ==>
        var call := PauseSessionCall(old(session).value.id);
        var paused := SessionResult(old(Reply(call)), iso);
        && |sent| >= |old(sent)| + 1
        && sent[..|old(sent)| + 1] == old(sent) + [WireRequest(client, call)]
        && (paused.Err? ==> r == Err(paused.error) && sent == old(sent) + [WireRequest(client, call)]
                            && session == old(session) && sandbox == old(sandbox))
        && (paused.Ok? ==> session == Some(paused.value))
        && (paused.Ok? && old(sandbox).None? ==>
              r == Ok(paused.value.id) && sandbox.None? && |sent| == |old(sent)| + 1)
        && (paused.Ok? && old(sandbox).Some? ==>
              var release := ReleaseSandboxCall(old(sandbox).value.sandboxId);
              var flag := SuccessFlag(ReplyAt(release, |old(sent)| + 1));
              && |sent| == |old(sent)| + 2
              && sent[|old(sent)| + 1] == WireRequest(client, release)
              && (flag.Ok? ==> r == Ok(paused.value.id) && sandbox.None?)
              && (flag.Err? ==> r == Err(flag.error) && sandbox == old(sandbox)))
    {
      if session.None? {
        return Err(NoSession);
      }
      var resp := Send(PauseSessionCall(session.value.id));
      var paused := SessionResult(resp, iso);
      if paused.Err? {
        return Err(paused.error);
      }
      session := Some(paused.value);
      if sandbox.Some? {
        var raised := ReleaseBound();
        if raised.Some? {
          return Err(raised.value);
        }
      }
      r := Ok(session.value.id);
    }

    /** The release step of `destroy` lets it go on: nothing was bound, or the release did not raise. */
    predicate ReleaseStagePasses(bound: Option<SandboxInfo>, k: nat)
      reads this
    {
      bound.None? || SuccessFlag(ReplyAt(ReleaseSandboxCall(bound.value.sandboxId), k)).Ok?
    }

    /**
     * `destroy`: release the sandbox, then delete the session, clearing each slot
     * after its call. When it returns normally both slots are empty; with both
     * slots already empty it sends nothing, which makes a second call a no-op.
     */
    method Destroy() returns (raised: Option<Raised>)
      modifies this
      ensures client == old(client) && autoRelease == old(autoRelease)
      ensures raised.None? ==> session.None? && sandbox.None?
      ensures raised.None? ==> sent == old(sent) + DestroyCalls(client, old(sandbox), old(session))
      ensures old(session).None? && old(sandbox).None? ==> raised.None? && sent == old(sent)
      ensures old(sandbox).Some? ==>
        var release := ReleaseSandboxCall(old(sandbox).value.sandboxId);
        var flag := SuccessFlag(ReplyAt(release, |old(sent)|));
        && |sent| > |old(sent)| && sent[..|old(sent)|] == old(sent)
        && sent[|old(sent)|] == WireRequest(client, release)
        && (flag.Err? ==>
              raised == Some(flag.error) && |sent| == |old(sent)| + 1
              && sandbox == old(sandbox) && session == old(session))
      ensures ReleaseStagePasses(old(sandbox), |old(sent)|) ==>
        var m := |old(sent)| + (if old(sandbox).Some? then 1 else 0);
        && sandbox.None? && |sent| >= m && sent[..m] == old(sent) + DestroyCalls(client, old(sandbox), None)
        && (old(session).None? ==> raised.None? && session.None? && |sent| == m)
        && (old(session).Some? ==>
              var delete := DeleteSessionCall(old(session).value.id);
              var flag := SuccessFlag(ReplyAt(delete, m));
              && |sent| == m + 1 && sent[m] == WireRequest(client, delete)
              && (flag.Ok? ==> raised.None? && session.None?)
              && (flag.Err? ==> raised == Some(flag.error) && session == old(session)))
    {
      raised := None;
      if sandbox.Some? {
        raised := ReleaseBound();
        if raised.Some? {
          return;
        }
      }
      if session.Some? {
        var resp := Send(DeleteSessionCall(session.value.id));
        var flag := SuccessFlag(resp);
        if flag.Err? {
          return Some(flag.error);
        }
        session := None;
      }
    }

    /**
     * `__exit__`: with auto-release on and a sandbox bound, release it and clear
     * the slot; the session is never touched. The state it leaves does not
     * depend on `pending`, the exception passing through (if any), which
     * propagates unless the release itself raises.
     */
    method Exit(pending: Option<Raised>) returns (propagated: Option<Raised>)
      modifies this
      ensures client == old(client) && autoRelease == old(autoRelease) && session == old(session)
      ensures !(old(autoRelease) && old(sandbox).Some?) ==>
        propagated == pending && sent == old(sent) && sandbox == old(sandbox)
      ensures old(autoRelease) && old(sandbox).Some? ==>
        var call := ReleaseSandboxCall(old(sandbox).value.sandboxId);
        var flag := SuccessFlag(old(Reply(call)));
        && sent == old(sent) + [WireRequest(client, call)]
        && (flag.Ok? ==> sandbox.None? && propagated == pending)
        && (flag.Err? ==> sandbox == old(sandbox) && propagated == Some(flag.error))
    {
      propagated := pending;
      if autoRelease && sandbox.Some? {
        var raised := ReleaseBound();
        if raised.Some? {
          propagated := raised;
        }
      }
    }
  }

  /** The requests a `destroy` that raises nothing sends: release first, then delete. */
  function DestroyCalls(c: Client, sandbox: Option<SandboxInfo>, session: Option<Session>): (r: seq<Request>)
    ensures |r| == (if sandbox.Some? then 1 else 0) + (if session.Some? then 1 else 0)
    ensures sandbox.None? && session.None? ==> r == []
  {
    (if sandbox.Some? then [WireRequest(c, ReleaseSandboxCall(sandbox.value.sandboxId))] else [])
    + (if session.Some? then [WireRequest(c, DeleteSessionCall(session.value.id))] else [])
  }

  /**
   * `destroy` followed by `destroy`: when the first returns normally, the
   * second sends nothing and raises nothing.
   */
  method DestroyTwice(s: Sandbox) returns (first: Option<Raised>, second: Option<Raised>)
    modifies s
    ensures first.None? ==> second.None? && s.session.None? && s.sandbox.None?
    ensures first.None? ==> s.sent == old(s.sent) + DestroyCalls(old(s.client), old(s.sandbox), old(s.session))
  {
    first := s.Destroy();
    if first.None? {
      second := s.Destroy();
    } else {
      second := None;
    }
  }
}
