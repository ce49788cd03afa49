/**
 * The decisions the Docker runtime (internal/sandbox/docker.go) makes around
 * its engine calls: configuration defaults and resource limits, the command an
 * execution runs, shell escaping, the output cap, and the runtime's map of
 * known sandboxes. The engine calls themselves are parameters: each method
 * receives what the engine answered.
 */
module Docker {
  import opened Wrappers
  import opened GoTime
  import opened SandboxTypes
  import Text

  // ---------------------------------------------------------------- commands

  /** The language names `buildCommand` recognises, after lower-casing. */
  predicate IsPython(l: string) { l == "python" || l == "python3" }
  predicate IsNode(l: string) { l == "node" || l == "javascript" || l == "js" }
  predicate IsGo(l: string) { l == "go" || l == "golang" }

  /** `escapeShell`: every single quote becomes `'"'"'`; every other character is kept. */
  function EscapeShell(s: string): (r: string)
    ensures '\'' !in s ==> r == s
    ensures |r| >= |s|
  {
    if s == [] then []
    else (if s[0] == '\'' then "'\"'\"'" else [s[0]]) + EscapeShell(s[1..])
  }

  /** The text after `echo ` in the Go branch of `buildCommand`. */
  function GoScript(code: string): string {
    "echo '" + EscapeShell(code) + "' > /tmp/main.go && go run /tmp/main.go"
  }

  /** `buildCommand`: the argument vector that runs `code` in `language`. */
  function BuildCommand(language: string, code: string): (r: seq<string>)
    ensures |r| == 3
    ensures var l := Text.Lower(language);
      && (IsPython(l) ==> r == ["python3", "-c", code])
      && (IsNode(l) ==> r == ["node", "-e", code])
      && (l == "ruby" ==> r == ["ruby", "-e", code])
      && (IsGo(l) ==> r == ["bash", "-c", GoScript(code)])
      && (!IsPython(l) && !IsNode(l) && l != "ruby" && !IsGo(l) ==> r == ["bash", "-c", code])
  {
    var l := Text.Lower(language);
    if IsPython(l) then ["python3", "-c", code]
    else if IsNode(l) then ["node", "-e", code]
    else if l == "bash" || l == "sh" || l == "shell" then ["bash", "-c", code]
    else if l == "ruby" then ["ruby", "-e", code]
    else if IsGo(l) then ["bash", "-c", GoScript(code)]
    else ["bash", "-c", code]
  }

  /** The language is matched without regard to case: lower-casing it first changes nothing. */
  lemma BuildCommandIgnoresCase(language: string, code: string)
    ensures BuildCommand(Text.Lower(language), code) == BuildCommand(language, code)
  {
    Text.LowerIdempotent(language);
  }

  /** Which quoting context a POSIX shell reader is in. */
  datatype Quoting = Unquoted | InSingle | InDouble

  /**
   * How a POSIX shell reads one word made of quoted parts: inside '…' every
   * character is literal; inside "…" characters other than \, $ and ` are
   * literal; outside quotes only the quote characters are accepted here.
   * `None` marks text outside this subset or an unterminated quote.
   */
  function ShellWord(w: string, q: Quoting, acc: string): (r: Option<string>)
    decreases |w|
  {
    if w == [] then (if q == Unquoted then Some(acc) else None)
    else
      var c := w[0];
      match q
      case Unquoted =>
        if c == '\'' then ShellWord(w[1..], InSingle, acc)
        else if c == '"' then ShellWord(w[1..], InDouble, acc)
        else None
      case InSingle =>
        if c == '\'' then ShellWord(w[1..], Unquoted, acc)
        else ShellWord(w[1..], InSingle, acc + [c])
      case InDouble =>
        if c == '"' then ShellWord(w[1..], Unquoted, acc)
        else if c == '\\' || c == '$' || c == '`' then None
        else ShellWord(w[1..], InDouble, acc + [c])
  }

  /** The escape of one quote: close the single quote, a double-quoted quote, reopen. */
  const QuoteEscape: string := ['\'', '"', '\'', '"', '\'']

  lemma EscapeShellCons(s: string)
    requires s != []
    ensures s[0] == '\'' ==> EscapeShell(s) == QuoteEscape + EscapeShell(s[1..])
    ensures s[0] != '\'' ==> EscapeShell(s) == [s[0]] + EscapeShell(s[1..])
  {
  }

  /** Reading the escape of one quote inside a single-quoted word yields that quote. */
  lemma QuoteEscapeReads(rest: string, acc: string)
    ensures ShellWord(QuoteEscape + rest, InSingle, acc) == ShellWord(rest, InSingle, acc + ['\''])
  {
    var w := QuoteEscape + rest;
    assert w[0] == '\'' && w[1..] == ['"', '\'', '"', '\''] + rest;
    var w1 := w[1..];
    assert w1[0] == '"' && w1[1..] == ['\'', '"', '\''] + rest;
    var w2 := w1[1..];
    assert w2[0] == '\'' && w2[1..] == ['"', '\''] + rest;
    var w3 := w2[1..];
    assert w3[0] == '"' && w3[1..] == ['\''] + rest;
    var w4 := w3[1..];
    assert w4[0] == '\'' && w4[1..] == rest;
    calc {
      ShellWord(w, InSingle, acc);
      ShellWord(w1, Unquoted, acc);
      ShellWord(w2, InDouble, acc);
      ShellWord(w3, InDouble, acc + ['\'']);
      ShellWord(w4, Unquoted, acc + ['\'']);
      ShellWord(rest, InSingle, acc + ['\'']);
    }
  }

  lemma {:induction false} EscapedTail(s: string, acc: string)
    ensures ShellWord(EscapeShell(s) + "'", InSingle, acc) == Some(acc + s)
    decreases |s|
  {
    if s == [] {
      assert EscapeShell(s) + "'" == "'";
      assert acc + s == acc;
    } else {
      var rest := EscapeShell(s[1..]) + "'";
      EscapedTail(s[1..], acc + [s[0]]);
      assert acc + [s[0]] + s[1..] == acc + s;
      EscapeShellCons(s);
      if s[0] == '\'' {
        assert EscapeShell(s) + "'" == QuoteEscape + rest;
        QuoteEscapeReads(rest, acc);
      } else {
        var w := EscapeShell(s) + "'";
        assert w == [s[0]] + rest;
        assert w[1..] == rest;
      }
    }
  }

  /**
   * The point of `escapeShell`: wrapped in single quotes, the escaped text is
   * read back by the shell as exactly the original text, whatever it contains.
   */
  lemma EscapeShellRoundTrip(s: string)
    ensures ShellWord("'" + EscapeShell(s) + "'", Unquoted, []) == Some(s)
  {
    var w := "'" + EscapeShell(s) + "'";
    assert w[0] == '\'';
    assert w[1..] == EscapeShell(s) + "'";
    EscapedTail(s, []);
    assert [] + s == s;
  }

  // ---------------------------------------------------------------- output cap

  /** The first `limit` bytes of a stream (none when the limit is not positive). */
  function Cap(xs: seq<Byte>, limit: int): (r: seq<Byte>)
    ensures |r| <= |xs| && |r| <= (if limit < 0 then 0 else limit)
    ensures r == xs[..|r|]
    ensures limit >= 0 && |xs| >= limit ==> |r| == limit
    ensures |xs| <= limit ==> r == xs
  {
    if limit <= 0 then [] else if |xs| <= limit then xs else xs[..limit]
  }

  /** Capping a longer stream extends the capped shorter stream by the room left. */
  lemma CapAppend(xs: seq<Byte>, p: seq<Byte>, limit: int)
    requires |xs| < limit
    ensures Cap(xs + p, limit) == xs + (if |p| > limit - |xs| then p[..limit - |xs|] else p)
  {
    var ys := xs + p;
    if |p| > limit - |xs| {
      assert ys[..limit] == xs + p[..limit - |xs|];
    }
  }

  /**
   * `limitedWriter` over an in-memory buffer that takes everything it is
   * given. `offered` is every byte ever handed to Write.
   */
  class LimitedWriter {
    const limit: int
    var written: int
    var out: seq<Byte>
    ghost var offered: seq<Byte>

    ghost predicate Valid()
      reads this
    {
      written == |out| && out == Cap(offered, limit)
    }

    constructor(limit: int)
      ensures Valid() && this.limit == limit && out == [] && offered == []
    {
      this.limit := limit;
      written := 0;
      out := [];
      offered := [];
    }

    /**
     * `Write`: forwards the part of `p` that still fits and reports how much it
     * forwarded; once the limit is reached it forwards nothing and reports all of `p`.
     */
    method Write(p: seq<Byte>) returns (n: int)
      requires Valid()
      modifies this
      ensures Valid() && offered == old(offered) + p
      ensures old(written) >= limit ==> n == |p| && out == old(out)
      ensures old(written) < limit ==>
        n == written - old(written) && n == (if |p| > limit - old(written) then limit - old(written) else |p|)
      ensures written <= (if limit < 0 then 0 else limit)
    {
      offered := offered + p;
      if written >= limit {
        if limit > 0 {
          assert |old(offered)| >= limit;
        }
        return |p|;
      }
      var remaining := limit - written;
      var q := if |p| > remaining then p[..remaining] else p;
      CapAppend(out, p, limit);
      assert old(offered) == out;
      out := out + q;
      written := written + |q|;
      n := |q|;
    }
  }

  // ---------------------------------------------------------------- create

  /** The `Create` merge: each zero or empty field takes the runtime's value. */
  function MergeDefaults(req: Config, rt: Config): (c: Config)
    ensures c.image == (if req.image == "" then rt.image else req.image)
    ensures c.cpuCount == (if req.cpuCount == 0 then rt.cpuCount else req.cpuCount)
    ensures c.memoryMb == (if req.memoryMb == 0 then rt.memoryMb else req.memoryMb)
    ensures c.workDir == (if req.workDir == "" then rt.workDir else req.workDir)
    ensures c.diskSizeMb == req.diskSizeMb && c.networkEnabled == req.networkEnabled
    ensures c.maxExecutionTime == req.maxExecutionTime && c.maxOutputSize == req.maxOutputSize
    ensures c.allowedHosts == req.allowedHosts
  {
    req.(image := if req.image == "" then rt.image else req.image,
         cpuCount := if req.cpuCount == 0 then rt.cpuCount else req.cpuCount,
         memoryMb := if req.memoryMb == 0 then rt.memoryMb else req.memoryMb,
         workDir := if req.workDir == "" then rt.workDir else req.workDir)
  }

  /**
   * Merging is idempotent, and against a runtime whose own defaults are set
   * (such as `DefaultConfig()`) it leaves no field at "use the default".
   */
  lemma MergeDefaultsSettles(req: Config, rt: Config)
    ensures MergeDefaults(MergeDefaults(req, rt), rt) == MergeDefaults(req, rt)
    ensures rt.image != "" && rt.cpuCount != 0 && rt.memoryMb != 0 && rt.workDir != "" ==>
      var c := MergeDefaults(req, rt);
      c.image != "" && c.cpuCount != 0 && c.memoryMb != 0 && c.workDir != ""
    ensures MergeDefaults(Config("", 0, 0, 0, 0, 0, false, [], ""), DefaultConfig()).image == "python:3.11-slim"
  {
  }

  /** The engine settings `Create` derives from a merged configuration. */
  datatype HostSettings = HostSettings(memoryBytes: int, nanoCpus: int, tmpfsBytes: int, networkMode: string,
                                       tmpfsTarget: string, securityOpt: seq<string>)

  function HostSettingsOf(c: Config): (h: HostSettings)
    ensures h.memoryBytes == c.memoryMb * 1048576 && h.nanoCpus == c.cpuCount * 1000000000
    ensures h.tmpfsBytes == c.diskSizeMb * 1048576 && h.tmpfsTarget == c.workDir
    ensures h.networkMode == "none" <==> !c.networkEnabled
    ensures c.networkEnabled ==> h.networkMode == "bridge"
    ensures h.securityOpt == ["no-new-privileges"]
  {
    HostSettings(c.memoryMb * 1024 * 1024, c.cpuCount * 1000000000, c.diskSizeMb * 1024 * 1024,
                 if c.networkEnabled then "bridge" else "none", c.workDir, ["no-new-privileges"])
  }

  /** The container settings `Create` asks the engine for: a container kept alive by `sleep infinity`. */
  datatype ContainerSettings = ContainerSettings(name: string, image: string, workingDir: string, tty: bool,
                                                 openStdin: bool, labels: map<string, string>, cmd: seq<string>)

  const LabelSandboxId: string := "cloud-sandbox.sandbox-id"
  const LabelManaged: string := "cloud-sandbox.managed"

  /** The labels a created container carries. */
  function CreateLabels(id: string): (m: map<string, string>)
    ensures m.Keys == {LabelSandboxId, LabelManaged}
    ensures m[LabelSandboxId] == id && m[LabelManaged] == "true"
  {
    map[LabelSandboxId := id, LabelManaged := "true"]
  }

  function ContainerSettingsOf(c: Config, id: string): (s: ContainerSettings)
    ensures s.name == "sandbox-" + id && s.image == c.image && s.workingDir == c.workDir
    ensures !s.tty && s.openStdin
    ensures s.labels == CreateLabels(id) && s.cmd == ["sleep", "infinity"]
  {
    ContainerSettings("sandbox-" + id, c.image, c.workDir, false, true, CreateLabels(id), ["sleep", "infinity"])
  }

  // ---------------------------------------------------------------- exec

  /** What `Exec` hands to the engine, apart from the environment. */
  datatype ExecPlan = ExecPlan(cmd: seq<string>, timeout: Duration, workDir: string)

  /** The selection at the head of `Exec`. */
  function PlanExec(rt: Config, req: ExecRequest): (p: ExecPlan)
    ensures |req.command| > 0 ==> p.cmd == req.command
    ensures |req.command| == 0 ==> p.cmd == BuildCommand(req.language, req.code)
    ensures p.timeout == (if req.timeout == 0 then rt.maxExecutionTime else req.timeout)
    ensures p.workDir == (if req.workDir == "" then rt.workDir else req.workDir)
  {
    ExecPlan(if |req.command| > 0 then req.command else BuildCommand(req.language, req.code),
             if req.timeout == 0 then rt.maxExecutionTime else req.timeout,
             if req.workDir == "" then rt.workDir else req.workDir)
  }

  /** One `KEY=VALUE` environment entry. */
  function EnvEntry(k: string, v: string): string {
    k + "=" + v
  }

  /**
   * The environment list `Exec` builds: one entry per variable, in the map's
   * (unspecified) iteration order.
   */
  method EnvList(env: map<string, string>) returns (list: seq<string>)
    ensures |list| == |env|
    ensures forall k :: k in env ==> EnvEntry(k, env[k]) in list
    ensures forall i :: 0 <= i < |list| ==> exists k :: k in env && list[i] == EnvEntry(k, env[k])
  {
    list := [];
    var todo := env.Keys;
    ghost var order: seq<string> := [];
    while todo != {}
      invariant todo <= env.Keys
      invariant forall k :: k in env ==> (k in todo <==> k !in order)
      invariant |list| == |order| && |order| + |todo| == |env|
      invariant forall j :: 0 <= j < |order| ==> order[j] in env && list[j] == EnvEntry(order[j], env[order[j]])
      decreases |todo|
    {
      var k :| k in todo;
      assert k !in order;
      list := list + [EnvEntry(k, env[k])];
      order := order + [k];
      todo := todo - {k};
    }
    forall k | k in env ensures EnvEntry(k, env[k]) in list {
      var j :| 0 <= j < |order| && order[j] == k;
      assert list[j] == EnvEntry(k, env[k]);
    }
  }

  // ---------------------------------------------------------------- sync

  /** A container as the engine lists it. */
  datatype Container = Container(id: string, state: string, image: string, created: int, labels: map<string, string>)

  /** The status `SyncFromDocker` assigns for a container state. */
  function StatusOfState(state: string): (s: Status)
    ensures state == "paused" <==> s == Paused
    ensures state == "exited" || state == "dead" <==> s == Stopped
    ensures s in {Idle, Paused, Stopped}
  {
    if state == "running" then Idle
    else if state == "paused" then Paused
    else if state == "exited" || state == "dead" then Stopped
    else Idle
  }

  /** The sandbox id label of a container, empty when absent. */
  function LabelledId(c: Container): string {
    if LabelSandboxId in c.labels then c.labels[LabelSandboxId] else ""
  }

  /** The effect of one listed container on the map. */
  function SyncOne(m: map<string, Sandbox>, c: Container, now: Time): (r: map<string, Sandbox>)
    ensures LabelledId(c) == "" ==> r == m
    ensures LabelledId(c) != "" ==> r.Keys == m.Keys + {LabelledId(c)}
    ensures forall k :: k in m && k != LabelledId(c) ==> k in r && r[k] == m[k]
    ensures LabelledId(c) != "" && LabelledId(c) in m ==> r[LabelledId(c)] == m[LabelledId(c)].(status := StatusOfState(c.state))
  {
    var id := LabelledId(c);
    if id == "" then m
    else if id in m then m[id := m[id].(status := StatusOfState(c.state))]
    else m[id := Sandbox(id, StatusOfState(c.state), c.id, c.image, "", c.created * Second, now, c.labels)]
  }

  /** The whole sync, container by container in list order. */
  function SyncAll(m: map<string, Sandbox>, cs: seq<Container>, now: Time): map<string, Sandbox>
    decreases |cs|
  {
    if cs == [] then m else SyncAll(SyncOne(m, cs[0], now), cs[1..], now)
  }

  /** The ids of the labelled containers in a list. */
  function SyncedIds(cs: seq<Container>): (r: set<string>)
    ensures "" !in r
    decreases |cs|
  {
    if cs == [] then {}
    else (if LabelledId(cs[0]) != "" then {LabelledId(cs[0])} else {}) + SyncedIds(cs[1..])
  }

  /** Sync only adds entries, exactly one per labelled id, and never drops one. */
  lemma {:induction false} SyncAllKeys(m: map<string, Sandbox>, cs: seq<Container>, now: Time)
    ensures SyncAll(m, cs, now).Keys == m.Keys + SyncedIds(cs)
    decreases |cs|
  {
    if cs != [] {
      SyncAllKeys(SyncOne(m, cs[0], now), cs[1..], now);
    }
  }

  /** An entry the runtime already had keeps every field except its status. */
  lemma {:induction false} SyncAllKeepsKnown(m: map<string, Sandbox>, cs: seq<Container>, now: Time, k: string)
    requires k in m
    ensures k in SyncAll(m, cs, now)
    ensures SyncAll(m, cs, now)[k] == m[k].(status := SyncAll(m, cs, now)[k].status)
    decreases |cs|
  {
    if cs != [] {
      SyncAllKeepsKnown(SyncOne(m, cs[0], now), cs[1..], now, k);
    }
  }

  /**
   * A container made by `Create` is recognised by sync under the id it was
   * created with.
   */
  lemma CreatedContainerIsSynced(m: map<string, Sandbox>, id: string, c: Container, now: Time)
    requires id != "" && c.labels == CreateLabels(id)
    ensures id in SyncOne(m, c, now)
    ensures id !in m ==> SyncOne(m, c, now)[id].containerId == c.id
  {
  }

  /** The runtime's bookkeeping: its configuration and the sandboxes it knows. */
  class DockerRuntime {
    const config: Config
    var sandboxes: map<string, Sandbox>

    constructor(config: Config)
      ensures this.config == config && sandboxes == map[]
    {
      this.config := config;
      sandboxes := map[];
    }

    /** `Get`: the sandbox with this id, or "sandbox not found: <id>". */
    method Get(id: string) returns (r: Result<Sandbox, string>)
      ensures id in sandboxes <==> r.Ok?
      ensures r.Ok? ==> r.value == sandboxes[id]
      ensures r.Err? ==> r.error == "sandbox not found: " + id
    {
      if id !in sandboxes {
        return Err("sandbox not found: " + id);
      }
      r := Ok(sandboxes[id]);
    }

    /**
     * `Create` once the engine has answered: `engine` is the container id and
     * address it produced, or its error. On success the sandbox is recorded
     * under `id`, idle, with the merged image and the created labels.
     */
    method Create(req: Config, id: string, engine: Result<(string, string), string>, now: Time)
      returns (r: Result<Sandbox, string>, container: ContainerSettings, settings: HostSettings)
      modifies this
      ensures container == ContainerSettingsOf(MergeDefaults(req, config), id)
      ensures settings == HostSettingsOf(MergeDefaults(req, config))
      ensures engine.Err? ==> r == Err(engine.error) && sandboxes == old(sandboxes)
      ensures engine.Ok? ==>
        && r.Ok?
        && r.value == Sandbox(id, Idle, engine.value.0, MergeDefaults(req, config).image, engine.value.1, now, now,
                              CreateLabels(id))
        && sandboxes == old(sandboxes)[id := r.value]
    {
      var merged := MergeDefaults(req, config);
      container := ContainerSettingsOf(merged, id);
      settings := HostSettingsOf(merged);
      if engine.Err? {
        return Err(engine.error), container, settings;
      }
      var sb := Sandbox(id, Idle, engine.value.0, merged.image, engine.value.1, now, now, CreateLabels(id));
      sandboxes := sandboxes[id := sb];
      r := Ok(sb);
    }

    /**
     * `Destroy`: `removed` is the engine's answer to the container removal.
     * The entry goes only once the removal succeeded.
     */
    method Destroy(id: string, removed: Result<(), string>) returns (err: Option<string>)
      modifies this
      ensures id !in old(sandboxes) ==> err == Some("sandbox not found: " + id) && sandboxes == old(sandboxes)
      ensures id in old(sandboxes) && removed.Err? ==>
        err == Some("failed to remove container: " + removed.error) && sandboxes == old(sandboxes)
      ensures id in old(sandboxes) && removed.Ok? ==> err.None? && sandboxes == old(sandboxes) - {id}
    {
      var got := Get(id);
      if got.Err? {
        return Some(got.error);
      }
      if removed.Err? {
        return Some("failed to remove container: " + removed.error);
      }
      sandboxes := sandboxes - {id};
      err := None;
    }

    /**
     * `Exec` up to the engine calls: the sandbox is looked up, marked active
     * and stamped, and the deferred reset leaves it idle; the plan says what
     * runs, for how long and where.
     */
    method Exec(id: string, req: ExecRequest, now: Time) returns (r: Result<ExecPlan, string>)
      modifies this
      ensures id !in old(sandboxes) ==> r == Err("sandbox not found: " + id) && sandboxes == old(sandboxes)
      ensures id in old(sandboxes) ==>
        && r == Ok(PlanExec(config, req))
        && sandboxes == old(sandboxes)[id := old(sandboxes)[id].(status := Idle, lastActiveAt := now)]
    {
      var got := Get(id);
      if got.Err? {
        return Err(got.error);
      }
      sandboxes := sandboxes[id := got.value.(status := Active, lastActiveAt := now)];
      var plan := PlanExec(config, req);
      sandboxes := sandboxes[id := sandboxes[id].(status := Idle)];
      r := Ok(plan);
    }

    /** `SyncFromDocker` over the engine's container list. */
    method SyncFromDocker(containers: seq<Container>, now: Time)
      modifies this
      ensures sandboxes == SyncAll(old(sandboxes), containers, now)
    {
      var i := 0;
      while i < |containers|
        invariant 0 <= i <= |containers|
        invariant SyncAll(sandboxes, containers[i..], now) == SyncAll(old(sandboxes), containers, now)
      {
        assert containers[i..][1..] == containers[i + 1..];
        var c := containers[i];
        var sid := LabelledId(c);
        if sid != "" {
          var status := StatusOfState(c.state);
          if sid !in sandboxes {
            sandboxes := sandboxes[sid := Sandbox(sid, status, c.id, c.image, "", c.created * Second, now, c.labels)];
          } else {
            sandboxes := sandboxes[sid := sandboxes[sid].(status := status)];
          }
        }
        i := i + 1;
      }
      assert containers[i..] == [];
    }
  }
}
