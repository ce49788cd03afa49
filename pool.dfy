/**
 * The sandbox pool of internal/sandbox/pool.go: a stack of idle sandboxes, a
 * map of active ones, a count of creations in flight, and a closed flag,
 * under a bound on the total.
 *
 * The runtime is outside the model: each operation that calls
 * `runtime.Create` receives the outcome, and every id handed to
 * `runtime.Destroy` is appended to `destroyed`.
 */
module PoolModel {
  import opened Wrappers
  import opened GoTime
  import opened SandboxTypes

  datatype PoolConfig = PoolConfig(
    minSize: int,
    maxSize: int,
    warmupSize: int,
    idleTimeout: Duration,
    cleanupInterval: Duration,
    sandboxConfig: Config)

  /** `DefaultPoolConfig()`. */
  function DefaultPoolConfig(): (c: PoolConfig)
    ensures c.minSize == 2 && c.maxSize == 50 && c.warmupSize == 5
    ensures c.idleTimeout == 30 * 60 * 1000000000 && c.cleanupInterval == 5 * 60 * 1000000000
    ensures c.sandboxConfig == DefaultConfig()
  {
    PoolConfig(2, 50, 5, 30 * Minute, 5 * Minute, DefaultConfig())
  }

  /** The pool's errors; `RuntimeError` carries an error the runtime returned. */
  datatype PoolError =
    | PoolClosed          // "sandbox pool is closed"
    | PoolExhausted       // "sandbox pool exhausted"
    | NotInActive         // "sandbox not found in active pool"
    | NotFound            // "sandbox not found"
    | NotActive           // "sandbox not found or not active"
    | RuntimeError(msg: string)

  // ---------------------------------------------------------------- cleanup specification

  /** An idle sandbox unused for longer than the timeout. */
  predicate TimedOut(sb: Sandbox, now: Time, timeout: Duration) {
    Sub(now, sb.lastActiveAt) > timeout
  }

  /**
   * The indices the first cleanup loop collects, scanning from `i` with `acc`
   * already collected: timed-out entries, in order, until removing one more
   * would leave no more than `minSize` idle.
   */
  function Scan(xs: seq<Sandbox>, now: Time, timeout: Duration, minSize: int, i: nat, acc: seq<nat>): seq<nat>
    requires i <= |xs|
    decreases |xs| - i
  {
    if i == |xs| then acc
    else if TimedOut(xs[i], now, timeout) then
      if |xs| - |acc| <= minSize then acc else Scan(xs, now, timeout, minSize, i + 1, acc + [i])
    else Scan(xs, now, timeout, minSize, i + 1, acc)
  }

  function Removals(xs: seq<Sandbox>, now: Time, cfg: PoolConfig): seq<nat> {
    Scan(xs, now, cfg.idleTimeout, cfg.minSize, 0, [])
  }

  predicate Increasing(s: seq<nat>) {
    forall a, b :: 0 <= a < b < |s| ==> s[a] < s[b]
  }

  /**
   * What the scan guarantees: increasing in-range indices of timed-out
   * entries, never taking the pool below `minSize`, and stopping early only
   * at that bound.
   */
  lemma {:induction false} ScanSound(xs: seq<Sandbox>, now: Time, timeout: Duration, minSize: int, i: nat, acc: seq<nat>)
    requires i <= |xs|
    requires Increasing(acc) && forall k :: 0 <= k < |acc| ==> acc[k] < i && TimedOut(xs[acc[k]], now, timeout)
    requires acc == [] || |xs| - |acc| >= minSize
    requires forall j :: 0 <= j < i && TimedOut(xs[j], now, timeout) ==> j in acc
    ensures var r := Scan(xs, now, timeout, minSize, i, acc);
      && Increasing(r)
      && (forall k :: 0 <= k < |r| ==> r[k] < |xs| && TimedOut(xs[r[k]], now, timeout))
      && (r == [] || |xs| - |r| >= minSize)
      && (|xs| - |r| > minSize ==> forall j :: 0 <= j < |xs| && TimedOut(xs[j], now, timeout) ==> j in r)
    decreases |xs| - i
  {
    if i < |xs| {
      if TimedOut(xs[i], now, timeout) {
        if |xs| - |acc| > minSize {
          ScanSound(xs, now, timeout, minSize, i + 1, acc + [i]);
        }
      } else {
        ScanSound(xs, now, timeout, minSize, i + 1, acc);
      }
    }
  }

  /** The entries of `xs` whose position (counted from `off`) is not in `drop`, in order. */
  function FilterFrom(xs: seq<Sandbox>, drop: set<nat>, off: nat): (r: seq<Sandbox>)
    ensures |r| <= |xs|
    decreases |xs|
  {
    if xs == [] then []
    else (if off in drop then [] else [xs[0]]) + FilterFrom(xs[1..], drop, off + 1)
  }

  /** A prefix with no dropped position passes through unchanged. */
  lemma {:induction false} FilterPrefix(xs: seq<Sandbox>, drop: set<nat>, off: nat, k: nat)
    requires k <= |xs|
    requires forall s :: s in drop ==> !(off <= s < off + k)
    ensures FilterFrom(xs, drop, off) == xs[..k] + FilterFrom(xs[k..], drop, off + k)
    decreases k
  {
    if k > 0 {
      FilterPrefix(xs[1..], drop, off + 1, k - 1);
      assert xs[1..][..k - 1] == xs[1..k];
      assert xs[1..][k - 1..] == xs[k..];
      assert [xs[0]] + xs[1..k] == xs[..k];
    }
  }

  /** Only the dropped positions within reach matter. */
  lemma {:induction false} FilterAgree(xs: seq<Sandbox>, d1: set<nat>, d2: set<nat>, off: nat)
    requires forall s :: off <= s < off + |xs| ==> (s in d1 <==> s in d2)
    ensures FilterFrom(xs, d1, off) == FilterFrom(xs, d2, off)
    decreases |xs|
  {
    if xs != [] {
      FilterAgree(xs[1..], d1, d2, off + 1);
    }
  }

  /** Cutting position `idx` out of `head + tail`, where `head` has `idx + 1` elements. */
  lemma CutLast(head: seq<Sandbox>, tail: seq<Sandbox>, idx: nat)
    requires |head| == idx + 1
    ensures (head + tail)[..idx] + (head + tail)[idx + 1..] == head[..idx] + tail
  {
    assert (head + tail)[..idx] == head[..idx];
    assert (head + tail)[idx + 1..] == tail;
  }

  /** Splicing out one more position below every dropped one. */
  lemma SpliceStep(xs: seq<Sandbox>, drop: set<nat>, idx: nat)
    requires idx < |xs|
    requires forall s :: s in drop ==> s > idx
    ensures var cur := FilterFrom(xs, drop, 0);
      idx < |cur| && cur[..idx] + cur[idx + 1..] == FilterFrom(xs, drop + {idx}, 0)
  {
    var tail := FilterFrom(xs[idx + 1..], drop, idx + 1);
    FilterPrefix(xs, drop, 0, idx + 1);
    assert FilterFrom(xs, drop, 0) == xs[..idx + 1] + tail;
    CutLast(xs[..idx + 1], tail, idx);
    assert xs[..idx + 1][..idx] == xs[..idx];
    FilterPrefix(xs, drop + {idx}, 0, idx);
    var rest := xs[idx..];
    assert rest[1..] == xs[idx + 1..];
    FilterAgree(xs[idx + 1..], drop + {idx}, drop, idx + 1);
    assert FilterFrom(rest, drop + {idx}, idx) == tail;
  }

  /** The ids of the sandboxes at the given positions, in the order listed. */
  method IdsAt(xs: seq<Sandbox>, positions: seq<nat>) returns (ids: seq<string>)
    requires forall k :: 0 <= k < |positions| ==> positions[k] < |xs|
    ensures |ids| == |positions| && forall k :: 0 <= k < |positions| ==> ids[k] == xs[positions[k]].id
  {
    ids := [];
    var k := 0;
    while k < |positions|
      invariant 0 <= k <= |positions|
      invariant |ids| == k && forall j :: 0 <= j < k ==> ids[j] == xs[positions[j]].id
    {
      ids := ids + [xs[positions[k]].id];
      k := k + 1;
    }
  }

  /** Appends the id of every sandbox in `m`, once each, in map order. */
  method AppendActive(all0: seq<string>, m: map<string, Sandbox>) returns (all: seq<string>)
    requires forall id :: id in m ==> m[id].id == id
    ensures |all| == |all0| + |m|
    ensures all[..|all0|] == all0
    ensures forall id :: id in m ==> id in all[|all0|..]
  {
    all := all0;
    var rest := m.Keys;
    ghost var tail: seq<string> := [];
    while rest != {}
      invariant rest <= m.Keys
      invariant all == all0 + tail && |tail| + |rest| == |m.Keys|
      invariant forall id :: id in m ==> id in tail || id in rest
      decreases |rest|
    {
      var id :| id in rest;
      all := all + [m[id].id];
      tail := tail + [id];
      rest := rest - {id};
    }
    assert all[..|all0|] == all0 && all[|all0|..] == tail;
  }

  /** The active map while the keys in `todo` are still to be checked: the stuck ones outside it are gone. */
  ghost function Unstuck(before: map<string, Sandbox>, todo: set<string>, now: Time, timeout: Duration): map<string, Sandbox> {
    map id | id in before && (id in todo || !Stuck(before[id], now, timeout)) :: before[id]
  }

  /** Checking one more key drops it exactly when its sandbox is stuck. */
  lemma UnstuckStep(before: map<string, Sandbox>, todo: set<string>, id: string, now: Time, timeout: Duration)
    requires id in before && id in todo
    ensures id in Unstuck(before, todo, now, timeout) && Unstuck(before, todo, now, timeout)[id] == before[id]
    ensures Stuck(before[id], now, timeout) ==>
      Unstuck(before, todo - {id}, now, timeout) == Unstuck(before, todo, now, timeout) - {id}
    ensures !Stuck(before[id], now, timeout) ==>
      Unstuck(before, todo - {id}, now, timeout) == Unstuck(before, todo, now, timeout)
  {
  }

  /** With every key checked, exactly the stuck sandboxes are gone. */
  lemma UnstuckAll(before: map<string, Sandbox>, now: Time, timeout: Duration)
    ensures Unstuck(before, {}, now, timeout) ==
      map id | id in before && !Stuck(before[id], now, timeout) :: before[id]
  {
  }

  /** Where the parts of `d + t + e` sit in the whole. */
  lemma Appended(d: seq<string>, t: seq<string>, e: seq<string>)
    ensures |d + t + e| == |d| + |t| + |e|
    ensures (d + t + e)[..|d|] == d
    ensures forall k :: 0 <= k < |t| ==> (d + t + e)[|d| + k] == t[k]
    ensures (d + t + e)[|d| + |t|..] == e
  {
    assert (d + t + e)[..|d|] == d;
    assert (d + t + e)[|d| + |t|..] == e;
  }

  /** The positions listed in `s` from index `from` on. */
  function Positions(s: seq<nat>, from: nat): (r: set<nat>)
    requires from <= |s|
    ensures forall x :: x in r ==> exists k :: from <= k < |s| && s[k] == x
    decreases |s| - from
  {
    if from == |s| then {} else {s[from]} + Positions(s, from + 1)
  }

  /** The idle stack after the cleanup's removals. */
  function Survivors(xs: seq<Sandbox>, now: Time, cfg: PoolConfig): seq<Sandbox> {
    var r := Removals(xs, now, cfg);
    FilterFrom(xs, Positions(r, 0), 0)
  }

  function Ids(xs: seq<Sandbox>): (r: seq<string>)
    ensures |r| == |xs| && forall i :: 0 <= i < |xs| ==> r[i] == xs[i].id
  {
    seq(|xs|, i requires 0 <= i < |xs| => xs[i].id)
  }

  /** An active sandbox unused for longer than twice the idle timeout. */
  predicate Stuck(sb: Sandbox, now: Time, timeout: Duration) {
    Sub(now, sb.lastActiveAt) > timeout * 2
  }

  /** The index of the first idle sandbox with this id. */
  function FirstWithId(xs: seq<Sandbox>, id: string): (r: Option<nat>)
    ensures r.Some? ==> r.value < |xs| && xs[r.value].id == id
    ensures r.Some? ==> forall j :: 0 <= j < r.value ==> xs[j].id != id
    ensures r.None? ==> forall j :: 0 <= j < |xs| ==> xs[j].id != id
    decreases |xs|
  {
    if xs == [] then None
    else if xs[0].id == id then Some(0)
    else match FirstWithId(xs[1..], id)
      case None => None
      case Some(k) => Some(k + 1)
  }

  class Pool {
    const config: PoolConfig
    var idle: seq<Sandbox>
    var active: map<string, Sandbox>
    var creating: nat
    var closed: bool
    /** Every id handed to the runtime's Destroy, in order. */
    var destroyed: seq<string>

    function Total(): int
      reads this
    {
      |idle| + |active| + creating
    }

    /** The bound on the pool, and active entries filed under their own id. */
    ghost predicate Valid()
      reads this
    {
      && (Total() <= config.maxSize || Total() == 0)
      && (forall id :: id in active ==> active[id].id == id)
    }

    constructor(config: PoolConfig)
      ensures Valid() && this.config == config
      ensures idle == [] && active == map[] && creating == 0 && !closed && destroyed == []
    {
      this.config := config;
      idle := [];
      active := map[];
      creating := 0;
      closed := false;
      destroyed := [];
    }

    /**
     * `Acquire`. `created` is what `runtime.Create` would answer; it is
     * consulted only on the create path.
     */
    method Acquire(created: Result<Sandbox, string>, now: Time) returns (r: Result<Sandbox, PoolError>)
      requires Valid()
      modifies this
      ensures Valid()
      ensures creating == old(creating) && closed == old(closed) && destroyed == old(destroyed)
      ensures old(closed) ==> r == Err(PoolClosed) && idle == old(idle) && active == old(active)
      ensures !old(closed) && |old(idle)| > 0 ==>
        var sb := old(idle)[|old(idle)| - 1].(status := Active, lastActiveAt := now);
        && r == Ok(sb)
        && idle == old(idle)[..|old(idle)| - 1]
        && active == old(active)[sb.id := sb]
      ensures !old(closed) && old(idle) == [] && old(Total()) >= config.maxSize ==>
        r == Err(PoolExhausted) && idle == old(idle) && active == old(active)
      ensures !old(closed) && old(idle) == [] && old(Total()) < config.maxSize ==>
        && idle == old(idle)
        && (created.Err? ==> r == Err(RuntimeError(created.error)) && active == old(active))
        && (created.Ok? ==> r == Ok(created.value.(status := Active))
                            && active == old(active)[created.value.id := created.value.(status := Active)])
    {
      if closed {
        return Err(PoolClosed);
      }
      if |idle| > 0 {
        var sb := idle[|idle| - 1];
        idle := idle[..|idle| - 1];
        sb := sb.(status := Active, lastActiveAt := now);
        active := active[sb.id := sb];
        return Ok(sb);
      }
      if |active| + |idle| + creating >= config.maxSize {
        return Err(PoolExhausted);
      }
      creating := creating + 1;
      if created.Err? {
        creating := creating - 1;
        return Err(RuntimeError(created.error));
      }
      creating := creating - 1;
      var sb := created.value.(status := Active);
      active := active[sb.id := sb];
      r := Ok(sb);
    }

    /**
     * `Release`: an active sandbox goes back on the idle stack, marked idle
     * and stamped, when there is room and the pool is open; otherwise it is
     * destroyed.
     */
    method Release(id: string, now: Time) returns (err: Option<PoolError>)
      requires Valid()
      modifies this
      ensures Valid()
      ensures creating == old(creating) && closed == old(closed)
      ensures id !in old(active) ==>
        err == Some(NotInActive) && idle == old(idle) && active == old(active) && destroyed == old(destroyed)
      ensures id in old(active) ==> err.None? && active == old(active) - {id}
      ensures id in old(active) && |old(idle)| < config.maxSize && !old(closed) ==>
        idle == old(idle) + [old(active)[id].(status := Idle, lastActiveAt := now)] && destroyed == old(destroyed)
      ensures id in old(active) && !(|old(idle)| < config.maxSize && !old(closed)) ==>
        idle == old(idle) && destroyed == old(destroyed) + [id]
      ensures id in old(active) && !old(closed) ==> |idle| == |old(idle)| + 1
    {
      if id !in active {
        return Some(NotInActive);
      }
      var sb := active[id];
      active := active - {id};
      if |idle| < config.maxSize && !closed {
        idle := idle + [sb.(status := Idle, lastActiveAt := now)];
        return None;
      }
      destroyed := destroyed + [sb.id];
      err := None;
    }

    /**
     * `Destroy`: remove from the active map, else the first idle entry with
     * this id (the others keep their order), and answer what the runtime's
     * Destroy answered (`runtimeErr`).
     */
    method Destroy(id: string, runtimeErr: Option<string>) returns (err: Option<PoolError>)
      requires Valid()
      modifies this
      ensures Valid()
      ensures creating == old(creating) && closed == old(closed)
      ensures id in old(active) ==>
        && active == old(active) - {id} && idle == old(idle) && destroyed == old(destroyed) + [id]
        && (err.Some? <==> runtimeErr.Some?) && (err.Some? ==> err.value == RuntimeError(runtimeErr.value))
      ensures id !in old(active) && FirstWithId(old(idle), id).Some? ==>
        var i := FirstWithId(old(idle), id).value;
        && active == old(active) && idle == old(idle)[..i] + old(idle)[i + 1..] && destroyed == old(destroyed) + [id]
        && (err.Some? <==> runtimeErr.Some?) && (err.Some? ==> err.value == RuntimeError(runtimeErr.value))
      ensures id !in old(active) && FirstWithId(old(idle), id).None? ==>
        err == Some(NotFound) && active == old(active) && idle == old(idle) && destroyed == old(destroyed)
    {
      var fromRuntime := if runtimeErr.Some? then Some(RuntimeError(runtimeErr.value)) else None;
      if id in active {
        var sb := active[id];
        active := active - {id};
        destroyed := destroyed + [sb.id];
        return fromRuntime;
      }
      var i := 0;
      while i < |idle|
        invariant 0 <= i <= |idle| && idle == old(idle)
        invariant forall j :: 0 <= j < i ==> idle[j].id != id
      {
        if idle[i].id == id {
          assert FirstWithId(idle, id) == Some(i) by { FirstWithIdIs(idle, id, i); }
          var sb := idle[i];
          assert |idle[..i] + idle[i + 1..]| == |idle| - 1;
          idle := idle[..i] + idle[i + 1..];
          destroyed := destroyed + [sb.id];
          return fromRuntime;
        }
        i := i + 1;
      }
      assert FirstWithId(idle, id).None? by { FirstWithIdNone(idle, id); }
      err := Some(NotFound);
    }

    /** `Get`: only active sandboxes are found. */
    method Get(id: string) returns (r: Result<Sandbox, PoolError>)
      ensures id in active ==> r == Ok(active[id])
      ensures id !in active ==> r == Err(NotActive)
    {
      if id in active {
        return Ok(active[id]);
      }
      r := Err(NotActive);
    }

    /** `Stats`. */
    method Stats() returns (stats: map<string, int>)
      ensures stats.Keys == {"idle", "active", "creating", "max"}
      ensures stats["idle"] == |idle| && stats["active"] == |active|
      ensures stats["creating"] == creating && stats["max"] == config.maxSize
    {
      stats := map["idle" := |idle|, "active" := |active|, "creating" := creating, "max" := config.maxSize];
    }

    /** How many more sandboxes the bound admits. */
    function Room(): nat
      reads this
    {
      if config.maxSize > Total() then config.maxSize - Total() else 0
    }

    /** How many sandboxes one warmup round sets out to create. */
    function WarmupNeeded(): int
      reads this
    {
      config.warmupSize - |idle| - creating
    }

    /**
     * `warmup`, with its creations run one after another: attempt `k` gets
     * `create(k)` from the runtime, is skipped when the pool is at its bound,
     * and pushes a created sandbox on the idle stack.
     */
    method Warmup(create: nat -> Result<Sandbox, string>)
      requires Valid()
      modifies this
      ensures Valid()
      ensures active == old(active) && creating == old(creating) && closed == old(closed)
      ensures destroyed == old(destroyed)
      ensures idle == old(idle) + Created(create, if old(WarmupNeeded()) > 0 then old(WarmupNeeded()) else 0, old(Room()))
    {
      var needed := WarmupNeeded();
      if needed <= 0 {
        return;
      }
      ghost var room := Room();
      ghost var made: seq<Sandbox> := [];
      var k := 0;
      while k < needed
        invariant 0 <= k <= needed
        invariant active == old(active) && creating == old(creating) && closed == old(closed)
        invariant destroyed == old(destroyed)
        invariant made == Created(create, k, room) && idle == old(idle) + made
      {
        CreatedBounds(create, k, room);
        assert (|idle| + |active| + creating < config.maxSize) == (|made| < room);
        if |idle| + |active| + creating < config.maxSize {
          creating := creating + 1;
          var outcome := create(k);
          creating := creating - 1;
          if outcome.Ok? {
            idle := idle + [outcome.value];
            made := made + [outcome.value];
          }
        }
        k := k + 1;
      }
      CreatedBounds(create, k, room);
    }

    /**
     * `cleanup`: drop timed-out idle sandboxes while more than `minSize` would
     * remain, then evict active sandboxes stuck for twice the idle timeout;
     * every dropped sandbox is handed to the runtime's Destroy.
     */
    method Cleanup(now: Time)
      requires Valid()
      modifies this
      ensures Valid()
      ensures creating == old(creating) && closed == old(closed)
      ensures idle == Survivors(old(idle), now, config)
      ensures active == map id | id in old(active) && !Stuck(old(active)[id], now, config.idleTimeout) :: old(active)[id]
      ensures var removed := Removals(old(idle), now, config);
        && (forall k :: 0 <= k < |removed| ==> removed[k] < |old(idle)|)
        && |destroyed| >= |old(destroyed)| + |removed|
        && |destroyed| == |old(destroyed)| + |removed| + (|old(active)| - |active|)
        && destroyed[..|old(destroyed)|] == old(destroyed)
        && (forall k :: 0 <= k < |removed| ==> destroyed[|old(destroyed)| + k] == old(idle)[removed[k]].id)
        && (forall id :: id in old(active) && Stuck(old(active)[id], now, config.idleTimeout) ==>
              id in destroyed[|old(destroyed)| + |removed|..])
        && (forall id :: id in destroyed[|old(destroyed)| + |removed|..] ==>
              id in old(active) && Stuck(old(active)[id], now, config.idleTimeout))
    {
      var toRemove := CollectTimedOut(now);
      var toDestroy := IdsAt(idle, toRemove);
      SpliceAll(toRemove);
      var stuck := EvictStuck(now);
      Appended(destroyed, toDestroy, stuck);
      destroyed := destroyed + toDestroy + stuck;
    }

    /** The first cleanup loop: the indices to remove. */
    method CollectTimedOut(now: Time) returns (toRemove: seq<nat>)
      ensures toRemove == Removals(idle, now, config)
      ensures Increasing(toRemove) && forall k :: 0 <= k < |toRemove| ==> toRemove[k] < |idle|
    {
      toRemove := [];
      var i := 0;
      while i < |idle|
        invariant 0 <= i <= |idle|
        invariant Scan(idle, now, config.idleTimeout, config.minSize, i, toRemove) == Removals(idle, now, config)
      {
        if TimedOut(idle[i], now, config.idleTimeout) {
          if |idle| - |toRemove| <= config.minSize {
            break;
          }
          toRemove := toRemove + [i];
        }
        i := i + 1;
      }
      ScanSound(idle, now, config.idleTimeout, config.minSize, 0, []);
    }

    /** The second cleanup loop: splice out the collected indices, highest first. */
    method SpliceAll(toRemove: seq<nat>)
      requires Valid()
      requires Increasing(toRemove) && forall k :: 0 <= k < |toRemove| ==> toRemove[k] < |idle|
      modifies this
      ensures Valid()
      ensures idle == FilterFrom(old(idle), Positions(toRemove, 0), 0)
      ensures active == old(active) && creating == old(creating) && closed == old(closed)
      ensures destroyed == old(destroyed)
    {
      var i := |toRemove|;
      assert Positions(toRemove, i) == {};
      FilterAgree(idle, {}, {}, 0);
      NothingFiltered(idle, 0);
      while i > 0
        invariant 0 <= i <= |toRemove|
        invariant idle == FilterFrom(old(idle), Positions(toRemove, i), 0)
        invariant active == old(active) && creating == old(creating) && closed == old(closed)
        invariant destroyed == old(destroyed)
        invariant |idle| <= |old(idle)|
      {
        i := i - 1;
        var idx := toRemove[i];
        assert Positions(toRemove, i) == Positions(toRemove, i + 1) + {idx};
        SpliceStep(old(idle), Positions(toRemove, i + 1), idx);
        idle := idle[..idx] + idle[idx + 1..];
      }
    }

    /** The third cleanup loop: evict stuck active sandboxes, in map order. */
    method EvictStuck(now: Time) returns (evicted: seq<string>)
      requires Valid()
      modifies this
      ensures Valid()
      ensures idle == old(idle) && creating == old(creating) && closed == old(closed) && destroyed == old(destroyed)
      ensures active == map id | id in old(active) && !Stuck(old(active)[id], now, config.idleTimeout) :: old(active)[id]
      ensures forall id :: id in evicted <==> id in old(active) && Stuck(old(active)[id], now, config.idleTimeout)
      ensures |evicted| == |old(active)| - |active|
    {
      evicted := [];
      var todo := active.Keys;
      while todo != {}
        invariant todo <= old(active).Keys && idle == old(idle) && creating == old(creating)
        invariant closed == old(closed) && destroyed == old(destroyed)
        invariant active == Unstuck(old(active), todo, now, config.idleTimeout)
        invariant forall id :: id in evicted <==>
          id in old(active) && id !in todo && Stuck(old(active)[id], now, config.idleTimeout)
        invariant |evicted| == |old(active)| - |active|
        invariant Valid()
        decreases |todo|
      {
        var id :| id in todo;
        UnstuckStep(old(active), todo, id, now, config.idleTimeout);
        if Stuck(active[id], now, config.idleTimeout) {
          evicted := evicted + [active[id].id];
          assert |active - {id}| == |active| - 1;
          active := active - {id};
        }
        todo := todo - {id};
      }
      UnstuckAll(old(active), now, config.idleTimeout);
    }

    /** The ids `Close` collects: the idle stack in order, then every active sandbox in map order. */
    method AllIds() returns (all: seq<string>)
      requires Valid()
      ensures |all| == |idle| + |active|
      ensures all[..|idle|] == Ids(idle)
      ensures forall id :: id in active ==> id in all[|idle|..]
    {
      all := Ids(idle);
      all := AppendActive(all, active);
    }

    /**
     * `Close`: the first call marks the pool closed, empties both collections
     * and destroys every sandbox they held; later calls change nothing.
     */
    method Close()
      requires Valid()
      modifies this
      ensures Valid() && closed && creating == old(creating)
      ensures old(closed) ==> idle == old(idle) && active == old(active) && destroyed == old(destroyed)
      ensures !old(closed) ==>
        && idle == [] && active == map[]
        && |destroyed| == |old(destroyed)| + |old(idle)| + |old(active)|
        && destroyed[..|old(destroyed)| + |old(idle)|] == old(destroyed) + Ids(old(idle))
        && (forall id :: id in old(active) ==> id in destroyed[|old(destroyed)| + |old(idle)|..])
    {
      if closed {
        return;
      }
      closed := true;
      var all := AllIds();
      var before := destroyed;
      idle := [];
      active := map[];
      destroyed := destroyed + all;
      assert destroyed[..|before| + |old(idle)|] == before + all[..|old(idle)|];
      assert destroyed[|before| + |old(idle)|..] == all[|old(idle)|..];
    }
  }

  /**
   * The sandboxes `n` warmup attempts add, in order, when the bound leaves room
   * for `room` more: attempt `k` is skipped once `room` have been added, and
   * otherwise adds `create(k)`'s sandbox when that creation succeeds.
   */
  function Created(create: nat -> Result<Sandbox, string>, n: nat, room: nat): seq<Sandbox>
    decreases n
  {
    if n == 0 then []
    else
      var prev := Created(create, n - 1, room);
      if |prev| < room && create(n - 1).Ok? then prev + [create(n - 1).value] else prev
  }

  /** Warmup never adds more than it attempts, nor more than the room under the bound. */
  lemma {:induction false} CreatedBounds(create: nat -> Result<Sandbox, string>, n: nat, room: nat)
    ensures |Created(create, n, room)| <= n && |Created(create, n, room)| <= room
    decreases n
  {
    if n > 0 {
      CreatedBounds(create, n - 1, room);
    }
  }

  /** Every added sandbox is the result of a successful creation, in attempt order. */
  lemma {:induction false} CreatedFromAttempts(create: nat -> Result<Sandbox, string>, n: nat, room: nat)
    ensures forall sb :: sb in Created(create, n, room) ==>
      exists k :: 0 <= k < n && create(k).Ok? && create(k).value == sb
    decreases n
  {
    if n > 0 {
      CreatedFromAttempts(create, n - 1, room);
      var prev := Created(create, n - 1, room);
      if |prev| < room && create(n - 1).Ok? {
        forall sb | sb in Created(create, n, room)
          ensures exists k :: 0 <= k < n && create(k).Ok? && create(k).value == sb
        {
          if sb !in prev {
            assert create(n - 1).value == sb;
          }
        }
      }
    }
  }

  /** When every creation succeeds, warmup adds exactly the smaller of the attempts and the room. */
  lemma {:induction false} CreatedAllSucceed(create: nat -> Result<Sandbox, string>, n: nat, room: nat)
    requires forall k :: 0 <= k < n ==> create(k).Ok?
    ensures |Created(create, n, room)| == Min(n, room)
    ensures forall k :: 0 <= k < Min(n, room) ==> Created(create, n, room)[k] == create(k).value
    decreases n
  {
    if n > 0 {
      CreatedAllSucceed(create, n - 1, room);
      var prev := Created(create, n - 1, room);
      if |prev| < room {
        assert forall k :: 0 <= k < |prev| ==> (prev + [create(n - 1).value])[k] == prev[k];
      }
    }
  }

  /** When every creation fails, warmup adds nothing. */
  lemma {:induction false} CreatedAllFail(create: nat -> Result<Sandbox, string>, n: nat, room: nat)
    requires forall k :: 0 <= k < n ==> create(k).Err?
    ensures Created(create, n, room) == []
    decreases n
  {
    if n > 0 {
      CreatedAllFail(create, n - 1, room);
    }
  }

  function Min(a: int, b: int): int {
    if a < b then a else b
  }

  lemma FirstWithIdIs(xs: seq<Sandbox>, id: string, i: nat)
    requires i < |xs| && xs[i].id == id && forall j :: 0 <= j < i ==> xs[j].id != id
    ensures FirstWithId(xs, id) == Some(i)
  {
    var r := FirstWithId(xs, id);
  }

  lemma FirstWithIdNone(xs: seq<Sandbox>, id: string)
    requires forall j :: 0 <= j < |xs| ==> xs[j].id != id
    ensures FirstWithId(xs, id).None?
  {
  }

  lemma NothingFiltered(xs: seq<Sandbox>, off: nat)
    ensures FilterFrom(xs, {}, off) == xs
  {
    FilterPrefix(xs, {}, off, |xs|);
    assert xs[|xs|..] == [];
  }

  /**
   * The promise of `cleanup` about the idle stack: nothing but timed-out
   * sandboxes leave, the survivors keep their order, at least
   * min(|idle|, minSize) remain, and a survivor that has timed out is left
   * only because removing it would go below `minSize`.
   */
  lemma CleanupKeepsMinimum(xs: seq<Sandbox>, now: Time, cfg: PoolConfig)
    ensures var r := Removals(xs, now, cfg);
      && (forall k :: 0 <= k < |r| ==> r[k] < |xs| && TimedOut(xs[r[k]], now, cfg.idleTimeout))
      && |Survivors(xs, now, cfg)| == |xs| - |r|
      && |Survivors(xs, now, cfg)| >= Min(|xs|, cfg.minSize)
      && (|Survivors(xs, now, cfg)| > cfg.minSize ==>
            forall j :: 0 <= j < |xs| && TimedOut(xs[j], now, cfg.idleTimeout) ==> j in r)
  {
    var r := Removals(xs, now, cfg);
    ScanSound(xs, now, cfg.idleTimeout, cfg.minSize, 0, []);
    FilterSize(xs, r);
  }

  /** Splicing out `k` distinct in-range positions leaves `|xs| - k` entries. */
  lemma FilterSize(xs: seq<Sandbox>, r: seq<nat>)
    requires Increasing(r) && forall k :: 0 <= k < |r| ==> r[k] < |xs|
    ensures |FilterFrom(xs, Positions(r, 0), 0)| == |xs| - |r|
  {
    var i := |r|;
    assert Positions(r, i) == {};
    NothingFiltered(xs, 0);
    while i > 0
      invariant 0 <= i <= |r|
      invariant |FilterFrom(xs, Positions(r, i), 0)| == |xs| - (|r| - i)
    {
      i := i - 1;
      assert Positions(r, i) == Positions(r, i + 1) + {r[i]};
      SpliceStep(xs, Positions(r, i + 1), r[i]);
    }
  }
}
