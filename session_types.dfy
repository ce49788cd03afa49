/**
 * The session record of internal/session/types.go and its two predicates.
 */
module SessionTypes {
  import opened Wrappers
  import opened GoTime

  /** The three session states. */
  datatype SessionStatus = StatusActive | StatusPaused | StatusExpired

  /** The status as stored and sent on the wire. */
  function SessionStatusName(s: SessionStatus): (r: string)
    ensures r == "active" <==> s == StatusActive
    ensures r == "paused" <==> s == StatusPaused
    ensures r == "expired" <==> s == StatusExpired
  {
    match s
    case StatusActive => "active"
    case StatusPaused => "paused"
    case StatusExpired => "expired"
  }

  /** A user session; `pausedAt` is absent unless the session was paused. */
  datatype Session = Session(
    id: string,
    userId: string,
    sandboxId: string,
    status: SessionStatus,
    workspaceUrl: string,
    image: string,
    cpuCount: int,
    memoryMb: int,
    createdAt: Time,
    updatedAt: Time,
    lastActiveAt: Time,
    expiresAt: Time,
    pausedAt: Option<Time>,
    metadata: map<string, string>)

  /** `IsExpired`: strictly after the expiry instant. */
  predicate IsExpired(s: Session, now: Time) {
    After(now, s.expiresAt)
  }

  /** `IsActive`: status active and not expired. */
  predicate IsActive(s: Session, now: Time) {
    s.status == StatusActive && !IsExpired(s, now)
  }

  /** What a session is active for, spelled out: the active status, up to and including the expiry instant. */
  lemma ActiveExactly(s: Session, now: Time)
    ensures IsActive(s, now) <==> s.status == StatusActive && now <= s.expiresAt
    ensures s.status != StatusActive ==> !IsActive(s, now)
    ensures now == s.expiresAt ==> !IsExpired(s, now)
  {
  }

  /** A request to create a session; zero fields take the manager's defaults. */
  datatype CreateSessionRequest = CreateSessionRequest(
    userId: string,
    image: string,
    cpuCount: int,
    memoryMb: int,
    ttl: Duration,
    metadata: map<string, string>)

  /** The fields no lifecycle operation changes. */
  predicate SameIdentity(a: Session, b: Session) {
    && a.id == b.id && a.userId == b.userId && a.image == b.image
    && a.cpuCount == b.cpuCount && a.memoryMb == b.memoryMb
    && a.createdAt == b.createdAt && a.metadata == b.metadata
  }
}
