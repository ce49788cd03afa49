/**
 * `DefaultManager` of internal/session/manager.go over the in-memory store:
 * the session lifecycle (create, pause, resume, bind, unbind, touch,
 * delete, expiry cleanup) with an optional cache and an optional workspace
 * storage.
 *
 * The cache is a map of session snapshots keyed by id (its own expiry is
 * not modelled); the workspace storage is the set of session ids that have a
 * saved workspace, and the answer of its `Save` is a parameter. The clock is
 * the parameter `now`.
 */
module SessionManager {
  import opened Wrappers
  import opened GoTime
  import opened SessionTypes
  import opened MemoryStore
  import SandboxTypes
  import SdkModels

  datatype ManagerConfig = ManagerConfig(defaultTtl: Duration, maxTtl: Duration, cleanupInterval: Duration)

  /** `DefaultManagerConfig()`: a day by default, a week at most, hourly cleanup. */
  function DefaultManagerConfig(): (c: ManagerConfig)
    ensures c.defaultTtl == 24 * 3600 * 1000000000
    ensures c.maxTtl == 7 * c.defaultTtl
    ensures c.cleanupInterval == 3600 * 1000000000
  {
    ManagerConfig(24 * Hour, 7 * 24 * Hour, 1 * Hour)
  }

  const DefaultImage: string := "python:3.11-slim"
  const DefaultCpuCount: int := 2
  const DefaultMemoryMb: int := 2048

  /** The three places that default a sandbox's resources agree on them. */
  lemma DefaultsAgree()
    ensures DefaultImage == SandboxTypes.DefaultConfig().image == SdkModels.DefaultImage
    ensures DefaultCpuCount == SandboxTypes.DefaultConfig().cpuCount == SdkModels.DefaultCpuCount
    ensures DefaultMemoryMb == SandboxTypes.DefaultConfig().memoryMb == SdkModels.DefaultMemoryMb
  {
  }

  /** The lifetime `Create` gives a session: 0 means the default, and nothing exceeds the maximum. */
  function EffectiveTtl(requested: Duration, config: ManagerConfig): (ttl: Duration)
    ensures requested != 0 && requested <= config.maxTtl ==> ttl == requested
    ensures requested == 0 && config.defaultTtl <= config.maxTtl ==> ttl == config.defaultTtl
    ensures ttl <= config.maxTtl
    ensures ttl == requested || ttl == config.defaultTtl || ttl == config.maxTtl
  {
    var t := if requested == 0 then config.defaultTtl else requested;
    if t > config.maxTtl then config.maxTtl else t
  }

  /** The session `Create` builds for a request. */
  function NewSession(req: CreateSessionRequest, id: string, config: ManagerConfig, now: Time): (s: Session)
    ensures s.id == id && s.userId == req.userId && s.metadata == req.metadata
    ensures s.status == StatusActive && s.sandboxId == "" && s.workspaceUrl == "" && s.pausedAt.None?
    ensures s.image == (if req.image == "" then DefaultImage else req.image)
    ensures s.cpuCount == (if req.cpuCount == 0 then DefaultCpuCount else req.cpuCount)
    ensures s.memoryMb == (if req.memoryMb == 0 then DefaultMemoryMb else req.memoryMb)
    ensures s.createdAt == now && s.updatedAt == now && s.lastActiveAt == now
    ensures s.expiresAt == now + EffectiveTtl(req.ttl, config)
  {
    Session(
      id, req.userId, "", StatusActive, "",
      if req.image == "" then DefaultImage else req.image,
      if req.cpuCount == 0 then DefaultCpuCount else req.cpuCount,
      if req.memoryMb == 0 then DefaultMemoryMb else req.memoryMb,
      now, now, now, now + EffectiveTtl(req.ttl, config), None, req.metadata)
  }

  /**
   * A new session is active from its creation until its expiry when its
   * lifetime is not negative; a negative requested lifetime is passed
   * through and yields a session that has already expired.
   */
  lemma NewSessionLifetime(req: CreateSessionRequest, id: string, config: ManagerConfig, now: Time)
    requires config.defaultTtl >= 0 && config.maxTtl >= 0
    ensures req.ttl >= 0 ==> IsActive(NewSession(req, id, config, now), now)
    ensures req.ttl < 0 ==> IsExpired(NewSession(req, id, config, now), now + 0)
    ensures NewSession(req, id, config, now).expiresAt <= now + config.maxTtl
  {
  }

  /** The session a successful `Pause` stores (before `Update` stamps it). */
  function PausedSession(s: Session, savedUrl: Option<string>, now: Time): (r: Session)
    ensures r.status == StatusPaused && r.pausedAt == Some(now) && r.sandboxId == ""
    ensures r.workspaceUrl == (if savedUrl.Some? then savedUrl.value else s.workspaceUrl)
    ensures SameIdentity(r, s) && r.lastActiveAt == s.lastActiveAt && r.expiresAt == s.expiresAt
    ensures forall t :: !IsActive(r, t)
  {
    s.(status := StatusPaused, pausedAt := Some(now), sandboxId := "",
       workspaceUrl := if savedUrl.Some? then savedUrl.value else s.workspaceUrl)
  }

  /** The session a successful `Resume` stores (before `Update` stamps it). */
  function ResumedSession(s: Session, config: ManagerConfig, now: Time): (r: Session)
    ensures r.status == StatusActive && r.pausedAt.None? && r.lastActiveAt == now
    ensures r.expiresAt == now + config.defaultTtl
    ensures SameIdentity(r, s) && r.sandboxId == s.sandboxId && r.workspaceUrl == s.workspaceUrl
    ensures config.defaultTtl >= 0 ==> IsActive(r, now)
  {
    s.(status := StatusActive, pausedAt := None, lastActiveAt := now, expiresAt := now + config.defaultTtl)
  }

  /**
   * Pausing and then resuming gives an active session with no sandbox bound,
   * the saved workspace kept, and the identity of the original.
   */
  lemma PauseThenResume(s: Session, url: Option<string>, config: ManagerConfig, t1: Time, t2: Time)
    requires config.defaultTtl >= 0
    ensures var r := ResumedSession(PausedSession(s, url, t1), config, t2);
      && IsActive(r, t2) && r.sandboxId == "" && r.pausedAt.None? && SameIdentity(r, s)
      && r.workspaceUrl == (if url.Some? then url.value else s.workspaceUrl)
  {
  }

  /** The outcome of `Get` as written when the store answers no session at all. */
  datatype GetOutcome = Found(session: Session) | Failed(msg: string) | NilDereference

  /**
   * `Get` as written, without a cache: the in-memory store answers a missing
   * id with no session and no error, and the expiry check then reads
   * through the missing session.
   */
  function GetAsWritten(sessions: map<string, Session>, id: string, now: Time): (r: GetOutcome)
    ensures r.NilDereference? <==> id !in sessions
  {
    if id !in sessions then NilDereference
    else if IsExpired(sessions[id], now) then Failed("session expired: " + id)
    else Found(sessions[id])
  }

  /**
   * Every id the in-memory store does not hold and the cache does not serve
   * reaches the missing-session read, where the corrected `Get` reports it
   * as not found.
   */
  lemma GetAsWrittenUnknownId(m: Manager, id: string, now: Time)
    requires m.Valid()
    requires id !in m.store.sessions && !(m.hasCache && id in m.cache)
    ensures GetAsWritten(m.store.sessions, id, now) == NilDereference
    ensures m.Lookup(id, now) == Err("session not found: " + id)
  {
  }

  class Manager {
    const config: ManagerConfig
    const store: InMemoryStore
    const hasCache: bool
    const hasWorkspaceStorage: bool
    var cache: map<string, Session>
    /** The sessions whose workspace is saved in the workspace storage. */
    var workspaces: set<string>

    ghost predicate Valid()
      reads this, store
    {
      && store.Valid()
      && (forall id :: id in cache ==> cache[id].id == id)
      && (!hasCache ==> cache == map[])
    }

    constructor(config: ManagerConfig, store: InMemoryStore, hasCache: bool, hasWorkspaceStorage: bool)
      requires store.Valid()
      ensures Valid()
      ensures this.config == config && this.store == store
      ensures this.hasCache == hasCache && this.hasWorkspaceStorage == hasWorkspaceStorage
      ensures cache == map[] && workspaces == {}
    {
      this.config := config;
      this.store := store;
      this.hasCache := hasCache;
      this.hasWorkspaceStorage := hasWorkspaceStorage;
      cache := map[];
      workspaces := {};
    }

    /**
     * What `Get` answers: a cached session as it is (even expired), else
     * the stored one unless it is missing or expired.
     */
    function Lookup(id: string, now: Time): (r: Result<Session, string>)
      reads this, store
      requires Valid()
      ensures r.Ok? ==> r.value.id == id
      ensures !(hasCache && id in cache) ==>
        (r.Ok? <==> id in store.sessions && !IsExpired(store.sessions[id], now))
    {
      if hasCache && id in cache then Ok(cache[id])
      else if id !in store.sessions then Err("session not found: " + id)
      else if IsExpired(store.sessions[id], now) then Err("session expired: " + id)
      else Ok(store.sessions[id])
    }

    /**
     * The cache after `Get`: a stored hit with time left is cached, and
     * nothing else changes it.
     */
    function CacheAfterGet(id: string, now: Time): (c: map<string, Session>)
      reads this, store
      requires Valid()
      ensures forall k :: k != id ==> (k in c <==> k in cache) && (k in cache ==> c[k] == cache[k])
      ensures hasCache && id in cache ==> c == cache
      ensures !hasCache ==> c == cache
    {
      var g := Lookup(id, now);
      if g.Ok? && hasCache && id !in cache && g.value.expiresAt > now then cache[id := g.value] else cache
    }

    /**
     * The cache after `Update` writes `s` back on top of `base`: cached
     * while it has time left.
     */
    function CacheAfterUpdate(base: map<string, Session>, s: Session, now: Time): (c: map<string, Session>)
      reads this
      ensures hasCache && s.expiresAt > now ==> s.id in c && c[s.id] == s.(updatedAt := now)
      ensures forall k :: k != s.id ==> (k in c <==> k in base) && (k in base ==> c[k] == base[k])
      ensures !(hasCache && s.expiresAt > now) ==> c == base
    {
      if hasCache && s.expiresAt > now then base[s.id := s.(updatedAt := now)] else base
    }

    /** `Create`: build the session, store it, and cache it. */
    method Create(req: CreateSessionRequest, id: string, now: Time) returns (s: Session)
      requires Valid()
      modifies this, store
      ensures Valid()
      ensures s == NewSession(req, id, config, now)
      ensures store.sessions == old(store.sessions)[id := s]
      ensures cache == if hasCache then old(cache)[id := s] else old(cache)
      ensures workspaces == old(workspaces)
    {
      s := NewSession(req, id, config, now);
      store.Create(s);
      if hasCache {
        cache := cache[id := s];
      }
    }

    /**
     * `Get`, with a missing stored session reported as not found (as the
     * PostgreSQL store reports it); a stored hit refreshes the cache while
     * the session has time left.
     */
    method Get(id: string, now: Time) returns (r: Result<Session, string>)
      requires Valid()
      modifies this
      ensures Valid()
      ensures r == old(Lookup(id, now))
      ensures workspaces == old(workspaces)
      ensures r.Ok? && hasCache && id !in old(cache) && r.value.expiresAt > now ==> cache == old(cache)[id := r.value]
      ensures !(r.Ok? && hasCache && id !in old(cache) && r.value.expiresAt > now) ==> cache == old(cache)
      ensures cache == old(CacheAfterGet(id, now))
    {
      if hasCache && id in cache {
        return Ok(cache[id]);
      }
      var found := store.Get(id);
      if found.None? {
        return Err("session not found: " + id);
      }
      var s := found.value;
      if IsExpired(s, now) {
        return Err("session expired: " + id);
      }
      if hasCache && s.expiresAt - now > 0 {
        cache := cache[id := s];
      }
      r := Ok(s);
    }

    /** `GetByUser`: the user's stored sessions that have not expired, each once. */
    method GetByUser(userId: string, now: Time) returns (result: seq<Session>)
      requires Valid()
      ensures DistinctIds(result)
      ensures forall i :: 0 <= i < |result| ==>
        && result[i].id in store.sessions && store.sessions[result[i].id] == result[i]
        && result[i].userId == userId && !IsExpired(result[i], now)
      ensures forall id ::
        (id in store.sessions && store.sessions[id].userId == userId && !IsExpired(store.sessions[id], now))
        ==> store.sessions[id] in result
    {
      var listed := store.GetByUser(userId);
      result := [];
      var i := 0;
      while i < |listed|
        invariant 0 <= i <= |listed|
        invariant result == Live(listed[..i], now)
      {
        assert listed[..i + 1][..i] == listed[..i];
        if !IsExpired(listed[i], now) {
          result := result + [listed[i]];
        }
        i := i + 1;
      }
      assert listed[..i] == listed;
      LiveFacts(listed, now);
      forall i | 0 <= i < |result|
        ensures result[i].id in store.sessions && store.sessions[result[i].id] == result[i]
        ensures result[i].userId == userId && !IsExpired(result[i], now)
      {
        assert result[i] in listed;
        var k :| 0 <= k < |listed| && listed[k] == result[i];
      }
      forall id | id in store.sessions && store.sessions[id].userId == userId && !IsExpired(store.sessions[id], now)
        ensures store.sessions[id] in result
      {
        IdSetMembers(listed);
        assert id in UserIds(store.sessions, userId);
        var k :| 0 <= k < |listed| && listed[k].id == id;
      }
    }

    /** `Update`: stamp `updatedAt`, store, and cache while the session has time left. */
    method Update(s: Session, now: Time)
      requires Valid()
      modifies this, store
      ensures Valid()
      ensures store.sessions == old(store.sessions)[s.id := s.(updatedAt := now)]
      ensures hasCache && s.expiresAt > now ==> cache == old(cache)[s.id := s.(updatedAt := now)]
      ensures !(hasCache && s.expiresAt > now) ==> cache == old(cache)
      ensures cache == CacheAfterUpdate(old(cache), s, now)
      ensures workspaces == old(workspaces)
    {
      var stamped := s.(updatedAt := now);
      store.Update(stamped);
      if hasCache && stamped.expiresAt - now > 0 {
        cache := cache[s.id := stamped];
      }
    }

    /**
     * `Delete`: drop a saved workspace (a failed drop, `workspaceDropFails`,
     * is only logged), the cached copy and the stored session; never fails.
     */
    method Delete(id: string, workspaceDropFails: bool)
      requires Valid()
      modifies this, store
      ensures Valid()
      ensures store.sessions == old(store.sessions) - {id}
      ensures cache == old(cache) - {id}
      ensures hasWorkspaceStorage && !workspaceDropFails ==> workspaces == old(workspaces) - {id}
      ensures !(hasWorkspaceStorage && !workspaceDropFails) ==> workspaces == old(workspaces)
    {
      if hasWorkspaceStorage && id in workspaces && !workspaceDropFails {
        workspaces := workspaces - {id};
      }
      cache := cache - {id};
      store.Delete(id);
    }

    /**
     * `Pause`: only an active session with a bound sandbox; its workspace is
     * saved first when there is a storage (`saved` is the storage's answer),
     * then it is stored paused with no sandbox. Any refusal changes nothing.
     */
    method Pause(id: string, saved: Result<string, string>, now: Time) returns (err: Option<string>)
      requires Valid()
      modifies this, store
      ensures Valid()
      ensures var g := old(Lookup(id, now));
        && (g.Err? ==> err == Some(g.error))
        && (g.Ok? && g.value.status != StatusActive ==>
              err == Some("session is not active: " + SessionStatusName(g.value.status)))
        && (g.Ok? && g.value.status == StatusActive && g.value.sandboxId == "" ==>
              err == Some("session has no sandbox bound"))
        && (g.Ok? && g.value.status == StatusActive && g.value.sandboxId != "" && hasWorkspaceStorage && saved.Err? ==>
              err == Some("failed to save workspace: " + saved.error))
      ensures err.Some? ==> store.sessions == old(store.sessions) && workspaces == old(workspaces)
      ensures err.None? <==>
        var g := old(Lookup(id, now));
        g.Ok? && g.value.status == StatusActive && g.value.sandboxId != "" && !(hasWorkspaceStorage && saved.Err?)
      ensures err.None? ==>
        var s := old(Lookup(id, now)).value;
        var url := if hasWorkspaceStorage then Some(saved.value) else None;
        && store.sessions == old(store.sessions)[id := PausedSession(s, url, now).(updatedAt := now)]
        && workspaces == (if hasWorkspaceStorage then old(workspaces) + {id} else old(workspaces))
        && cache == CacheAfterUpdate(old(CacheAfterGet(id, now)), PausedSession(s, url, now), now)
      ensures err.Some? ==> cache == old(CacheAfterGet(id, now))
    {
      var g := Get(id, now);
      if g.Err? {
        return Some(g.error);
      }
      var s := g.value;
      if s.status != StatusActive {
        return Some("session is not active: " + SessionStatusName(s.status));
      }
      if s.sandboxId == "" {
        return Some("session has no sandbox bound");
      }
      var url: Option<string> := None;
      if hasWorkspaceStorage {
        if saved.Err? {
          return Some("failed to save workspace: " + saved.error);
        }
        url := Some(saved.value);
        workspaces := workspaces + {id};
      }
      Update(PausedSession(s, url, now), now);
      err := None;
    }

    /**
     * `Resume`: only a paused session; it becomes active again with a fresh
     * default lifetime. The answer is the session as stored.
     */
    method Resume(id: string, now: Time) returns (r: Result<Session, string>)
      requires Valid()
      modifies this, store
      ensures Valid() && workspaces == old(workspaces)
      ensures var g := old(Lookup(id, now));
        && (g.Err? ==> r == Err(g.error))
        && (g.Ok? && g.value.status != StatusPaused ==>
              r == Err("session is not paused: " + SessionStatusName(g.value.status)))
      ensures r.Err? ==> store.sessions == old(store.sessions)
      ensures r.Ok? <==> old(Lookup(id, now)).Ok? && old(Lookup(id, now)).value.status == StatusPaused
      ensures r.Ok? ==>
        && r.value == ResumedSession(old(Lookup(id, now)).value, config, now).(updatedAt := now)
        && store.sessions == old(store.sessions)[id := r.value]
        && cache == CacheAfterUpdate(old(CacheAfterGet(id, now)), ResumedSession(old(Lookup(id, now)).value, config, now), now)
      ensures r.Err? ==> cache == old(CacheAfterGet(id, now))
    {
      var g := Get(id, now);
      if g.Err? {
        return Err(g.error);
      }
      var s := g.value;
      if s.status != StatusPaused {
        return Err("session is not paused: " + SessionStatusName(s.status));
      }
      var resumed := ResumedSession(s, config, now);
      Update(resumed, now);
      r := Ok(resumed.(updatedAt := now));
    }

    /**
     * `Touch`: stamp `lastActiveAt` in the store; `updatedAt` is left alone
     * and the cached copy only has its lifetime refreshed, not its contents.
     */
    method Touch(id: string, now: Time) returns (err: Option<string>)
      requires Valid()
      modifies this, store
      ensures Valid() && workspaces == old(workspaces)
      ensures var g := old(Lookup(id, now));
        && (g.Err? ==> err == Some(g.error) && store.sessions == old(store.sessions))
        && (g.Ok? ==> err.None? && store.sessions == old(store.sessions)[id := g.value.(lastActiveAt := now)])
      ensures old(hasCache && id in cache) ==> cache == old(cache)
      ensures cache == old(CacheAfterGet(id, now))
    {
      var g := Get(id, now);
      if g.Err? {
        return Some(g.error);
      }
      store.Update(g.value.(lastActiveAt := now));
      err := None;
    }

    /** `BindSandbox`: record the sandbox and stamp `lastActiveAt`. */
    method BindSandbox(id: string, sandboxId: string, now: Time) returns (err: Option<string>)
      requires Valid()
      modifies this, store
      ensures Valid() && workspaces == old(workspaces)
      ensures var g := old(Lookup(id, now));
        && (g.Err? ==> err == Some(g.error) && store.sessions == old(store.sessions))
        && (g.Ok? ==> err.None?)
        && (g.Ok? ==>
              store.sessions == old(store.sessions)[id := g.value.(sandboxId := sandboxId, lastActiveAt := now, updatedAt := now)])
        && (g.Ok? ==> cache == CacheAfterUpdate(old(CacheAfterGet(id, now)), g.value.(sandboxId := sandboxId, lastActiveAt := now), now))
        && (g.Err? ==> cache == old(cache))
    {
      var g := Get(id, now);
      if g.Err? {
        return Some(g.error);
      }
      Update(g.value.(sandboxId := sandboxId, lastActiveAt := now), now);
      err := None;
    }

    /** `UnbindSandbox`: clear the sandbox. */
    method UnbindSandbox(id: string, now: Time) returns (err: Option<string>)
      requires Valid()
      modifies this, store
      ensures Valid() && workspaces == old(workspaces)
      ensures var g := old(Lookup(id, now));
        && (g.Err? ==> err == Some(g.error) && store.sessions == old(store.sessions))
        && (g.Ok? ==> err.None? && store.sessions == old(store.sessions)[id := g.value.(sandboxId := "", updatedAt := now)])
        && (g.Ok? ==> cache == CacheAfterUpdate(old(CacheAfterGet(id, now)), g.value.(sandboxId := ""), now))
        && (g.Err? ==> cache == old(cache))
    {
      var g := Get(id, now);
      if g.Err? {
        return Some(g.error);
      }
      Update(g.value.(sandboxId := ""), now);
      err := None;
    }

    /**
     * `Cleanup`: drop the workspaces of expired sessions, then the sessions,
     * and count them. A workspace whose deletion fails (`dropFails`) stays,
     * as the storage's error is ignored.
     */
    method Cleanup(now: Time, dropFails: set<string>) returns (count: nat)
      requires Valid()
      modifies this, store
      ensures Valid() && cache == old(cache)
      ensures store.sessions == Unexpired(old(store.sessions), now)
      ensures count == |ExpiredIds(old(store.sessions), now)|
      ensures hasWorkspaceStorage ==> workspaces == old(workspaces) - (ExpiredIds(old(store.sessions), now) - dropFails)
      ensures !hasWorkspaceStorage ==> workspaces == old(workspaces)
    {
      var expired := store.ListExpired(now);
      if hasWorkspaceStorage {
        DropWorkspaces(expired, dropFails);
      }
      count := store.DeleteExpired(now);
    }

    /** The workspace loop of `Cleanup`: drop the workspace of each listed session whose deletion succeeds. */
    method DropWorkspaces(expired: seq<Session>, dropFails: set<string>)
      modifies this
      ensures workspaces == old(workspaces) - (IdSet(expired) - dropFails)
      ensures cache == old(cache)
    {
      var i := 0;
      while i < |expired|
        invariant 0 <= i <= |expired|
        invariant workspaces == old(workspaces) - (IdSet(expired[..i]) - dropFails)
        invariant cache == old(cache)
      {
        IdSetPrefix(expired, i);
        if expired[i].id !in dropFails {
          workspaces := workspaces - {expired[i].id};
        }
        i := i + 1;
      }
      assert expired[..i] == expired;
    }
  }

  /** The sessions of a listing that have not expired, in listing order. */
  function Live(xs: seq<Session>, now: Time): seq<Session>
    decreases |xs|
  {
    if xs == [] then []
    else
      var init := Live(xs[..|xs| - 1], now);
      if IsExpired(xs[|xs| - 1], now) then init else init + [xs[|xs| - 1]]
  }

  /** Filtering a listing keeps exactly its unexpired entries, and distinct ids stay distinct. */
  lemma {:induction false} LiveFacts(xs: seq<Session>, now: Time)
    ensures forall x :: x in Live(xs, now) <==> x in xs && !IsExpired(x, now)
    ensures DistinctIds(xs) ==> DistinctIds(Live(xs, now))
    decreases |xs|
  {
    if xs != [] {
      var init := xs[..|xs| - 1];
      LiveFacts(init, now);
      assert xs == init + [xs[|xs| - 1]];
      var r := Live(xs, now);
      if DistinctIds(xs) && !IsExpired(xs[|xs| - 1], now) {
        assert DistinctIds(init);
        forall i | 0 <= i < |r| - 1
          ensures r[i].id != xs[|xs| - 1].id
        {
          assert r[i] in init;
          var k :| 0 <= k < |init| && init[k] == r[i];
        }
      }
    }
  }

  lemma IdSetPrefix(xs: seq<Session>, i: nat)
    requires i < |xs|
    ensures IdSet(xs[..i + 1]) == IdSet(xs[..i]) + {xs[i].id}
  {
    assert xs[..i + 1][..i] == xs[..i];
  }
}
