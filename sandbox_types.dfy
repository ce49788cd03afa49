/**
 * The records of internal/sandbox/types.go: sandbox status, the sandbox
 * itself, its configuration and the execution request and result.
 */
module SandboxTypes {
  import opened GoTime

  /** A byte of file content or process output. */
  newtype Byte = b: int | 0 <= b < 256

  /** The six sandbox states. */
  datatype Status = Creating | Idle | Active | Paused | Stopped | Error

  /** The string each status is serialised as. */
  function StatusName(s: Status): (r: string)
    ensures |r| > 0
  {
    match s
    case Creating => "creating"
    case Idle => "idle"
    case Active => "active"
    case Paused => "paused"
    case Stopped => "stopped"
    case Error => "error"
  }

  /** Distinct statuses serialise to distinct names, so the name identifies the status. */
  lemma StatusNameInjective(a: Status, b: Status)
    ensures StatusName(a) == StatusName(b) ==> a == b
  {
  }

  /** A sandbox instance; labels are a string map. */
  datatype Sandbox = Sandbox(
    id: string,
    status: Status,
    containerId: string,
    image: string,
    ip: string,
    createdAt: Time,
    lastActiveAt: Time,
    labels: map<string, string>)

  /**
   * Sandbox configuration. A zero or empty image, CPU count, memory or working
   * directory means "take the runtime's default".
   */
  datatype Config = Config(
    image: string,
    cpuCount: int,
    memoryMb: int,
    diskSizeMb: int,
    maxExecutionTime: Duration,
    maxOutputSize: int,
    networkEnabled: bool,
    allowedHosts: seq<string>,
    workDir: string)

  const DefaultImage: string := "python:3.11-slim"
  const DefaultWorkDir: string := "/workspace"

  /** `DefaultConfig()`. */
  function DefaultConfig(): (c: Config)
    ensures c.image == "python:3.11-slim" && c.cpuCount == 2 && c.memoryMb == 2048
    ensures c.diskSizeMb == 10240 && c.maxExecutionTime == 5 * 60 * 1000000000
    ensures c.maxOutputSize == 10 * 1024 * 1024 && c.networkEnabled && c.workDir == "/workspace"
    ensures c.allowedHosts == []
  {
    Config(DefaultImage, 2, 2048, 10240, 5 * Minute, 10 * 1024 * 1024, true, [], DefaultWorkDir)
  }

  /** A code execution request; `command`, when non-empty, replaces code and language. */
  datatype ExecRequest = ExecRequest(
    code: string,
    language: string,
    command: seq<string>,
    workDir: string,
    env: map<string, string>,
    timeout: Duration)

  datatype ExecResult = ExecResult(
    exitCode: int,
    stdout: string,
    stderr: string,
    duration: Duration,
    timedOut: bool,
    error: string)

  /** File metadata as listed from a sandbox. */
  datatype FileInfo = FileInfo(name: string, path: string, size: int, isDir: bool, modTime: Time)
}
