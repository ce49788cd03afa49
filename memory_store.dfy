/**
 * `InMemoryStore` of cmd/session-manager/main.go: the session store used
 * when no database is reachable, a map from session id to session.
 */
module MemoryStore {
  import opened Wrappers
  import opened GoTime
  import opened SessionTypes

  /** The ids of the stored sessions of one user. */
  function UserIds(sessions: map<string, Session>, userId: string): set<string> {
    set id | id in sessions && sessions[id].userId == userId
  }

  /** The ids of the stored sessions that have expired. */
  function ExpiredIds(sessions: map<string, Session>, now: Time): set<string> {
    set id | id in sessions && IsExpired(sessions[id], now)
  }

  /** The store without its expired sessions. */
  function Unexpired(sessions: map<string, Session>, now: Time): map<string, Session> {
    map id | id in sessions && !IsExpired(sessions[id], now) :: sessions[id]
  }

  predicate DistinctIds(xs: seq<Session>) {
    forall i, j :: 0 <= i < j < |xs| ==> xs[i].id != xs[j].id
  }

  predicate DistinctKeys(ks: seq<string>) {
    forall i, j :: 0 <= i < j < |ks| ==> ks[i] != ks[j]
  }

  /** The stored sessions under the keys `ks` that `keep` accepts, in key order. */
  function Pick(sessions: map<string, Session>, ks: seq<string>, keep: Session -> bool): (r: seq<Session>)
    requires forall k :: k in ks ==> k in sessions
    decreases |ks|
  {
    if ks == [] then []
    else
      var init := Pick(sessions, ks[..|ks| - 1], keep);
      var s := sessions[ks[|ks| - 1]];
      if keep(s) then init + [s] else init
  }

  /** Every picked session is the stored one under its own id, and accepted. */
  lemma {:induction false} PickStored(sessions: map<string, Session>, ks: seq<string>, keep: Session -> bool)
    requires forall k :: k in ks ==> k in sessions && sessions[k].id == k
    ensures forall x :: x in Pick(sessions, ks, keep) ==> x.id in sessions && sessions[x.id] == x && keep(x)
    decreases |ks|
  {
    if ks != [] {
      var init := ks[..|ks| - 1];
      assert forall k :: k in init ==> k in ks;
      PickStored(sessions, init, keep);
      assert ks[|ks| - 1] in ks;
    }
  }

  /** The picked ids are exactly the listed keys whose session is accepted. */
  lemma {:induction false} PickIds(sessions: map<string, Session>, ks: seq<string>, keep: Session -> bool)
    requires forall k :: k in ks ==> k in sessions && sessions[k].id == k
    ensures forall id :: id in IdSet(Pick(sessions, ks, keep)) <==> id in ks && keep(sessions[id])
    decreases |ks|
  {
    if ks != [] {
      var init := ks[..|ks| - 1];
      assert forall k :: k in init ==> k in ks;
      PickIds(sessions, init, keep);
      var r0 := Pick(sessions, init, keep);
      var s := sessions[ks[|ks| - 1]];
      if keep(s) {
        assert (r0 + [s])[..|r0|] == r0;
        assert IdSet(r0 + [s]) == IdSet(r0) + {s.id};
      }
      assert forall k :: k in ks <==> k in init || k == ks[|ks| - 1];
    }
  }

  /** Over distinct keys, no id is picked twice. */
  lemma {:induction false} PickDistinct(sessions: map<string, Session>, ks: seq<string>, keep: Session -> bool)
    requires forall k :: k in ks ==> k in sessions && sessions[k].id == k
    requires DistinctKeys(ks)
    ensures DistinctIds(Pick(sessions, ks, keep))
    decreases |ks|
  {
    if ks != [] {
      var init := ks[..|ks| - 1];
      assert forall k :: k in init ==> k in ks;
      PickDistinct(sessions, init, keep);
      var r0 := Pick(sessions, init, keep);
      var s := sessions[ks[|ks| - 1]];
      if keep(s) {
        PickIds(sessions, init, keep);
        IdSetMembers(r0);
        assert ks[|ks| - 1] !in init;
        assert forall i :: 0 <= i < |r0| ==> r0[i].id in IdSet(r0);
        var r := r0 + [s];
        assert forall i :: 0 <= i < |r0| ==> r[i] == r0[i];
      }
    }
  }

  /** A pick over distinct keys of a well-filed store lists each accepted session once. */
  lemma PickFacts(sessions: map<string, Session>, ks: seq<string>, keep: Session -> bool)
    requires forall k :: k in ks ==> k in sessions && sessions[k].id == k
    requires DistinctKeys(ks)
    ensures var r := Pick(sessions, ks, keep);
      && DistinctIds(r)
      && (forall i :: 0 <= i < |r| ==> r[i].id in sessions && sessions[r[i].id] == r[i] && keep(r[i]))
      && (forall id :: id in IdSet(r) <==> id in ks && keep(sessions[id]))
  {
    PickStored(sessions, ks, keep);
    PickIds(sessions, ks, keep);
    PickDistinct(sessions, ks, keep);
  }

  function IdSet(xs: seq<Session>): set<string>
    decreases |xs|
  {
    if xs == [] then {} else IdSet(xs[..|xs| - 1]) + {xs[|xs| - 1].id}
  }

  lemma {:induction false} IdSetMembers(xs: seq<Session>)
    ensures forall id :: id in IdSet(xs) <==> exists i :: 0 <= i < |xs| && xs[i].id == id
    decreases |xs|
  {
    if xs != [] {
      IdSetMembers(xs[..|xs| - 1]);
    }
  }

  /** Distinct ids count their sessions. */
  lemma {:induction false} DistinctCount(xs: seq<Session>)
    requires DistinctIds(xs)
    ensures |IdSet(xs)| == |xs|
    decreases |xs|
  {
    if xs != [] {
      var init := xs[..|xs| - 1];
      DistinctCount(init);
      IdSetMembers(init);
      assert xs[|xs| - 1].id !in IdSet(init);
    }
  }

  class InMemoryStore {
    var sessions: map<string, Session>

    /** Every session is filed under its own id. */
    ghost predicate Valid()
      reads this
    {
      forall id :: id in sessions ==> sessions[id].id == id
    }

    constructor()
      ensures Valid() && sessions == map[]
    {
      sessions := map[];
    }

    /** `Create`: insert or overwrite by id. */
    method Create(s: Session)
      requires Valid()
      modifies this
      ensures Valid()
      ensures sessions == old(sessions)[s.id := s]
    {
      sessions := sessions[s.id := s];
    }

    /** `Get`: a missing id is not an error; it answers no session at all. */
    method Get(id: string) returns (r: Option<Session>)
      ensures r.Some? <==> id in sessions
      ensures r.Some? ==> r.value == sessions[id]
    {
      if id in sessions {
        return Some(sessions[id]);
      }
      r := None;
    }

    /** Go's `range` over the map: every key once, in an order Go leaves unspecified. */
    method KeyOrder() returns (ks: seq<string>)
      ensures DistinctKeys(ks)
      ensures forall k :: k in ks <==> k in sessions
    {
      ks := [];
      var todo := sessions.Keys;
      while todo != {}
        invariant todo <= sessions.Keys && DistinctKeys(ks)
        invariant forall k :: k in ks <==> k in sessions && k !in todo
        decreases |todo|
      {
        var k :| k in todo;
        ks := ks + [k];
        todo := todo - {k};
      }
    }

    /** `GetByUser`: every session of the user exactly once, in map order. */
    method GetByUser(userId: string) returns (result: seq<Session>)
      requires Valid()
      ensures DistinctIds(result)
      ensures forall i :: 0 <= i < |result| ==>
        result[i].id in sessions && sessions[result[i].id] == result[i] && result[i].userId == userId
      ensures IdSet(result) == UserIds(sessions, userId)
      ensures |result| == |UserIds(sessions, userId)|
    {
      var ks := KeyOrder();
      var keep := (s: Session) => s.userId == userId;
      result := [];
      var i := 0;
      while i < |ks|
        invariant 0 <= i <= |ks|
        invariant result == Pick(sessions, ks[..i], keep)
      {
        assert ks[..i + 1][..i] == ks[..i];
        var sess := sessions[ks[i]];
        if sess.userId == userId {
          result := result + [sess];
        }
        i := i + 1;
      }
      assert ks[..i] == ks;
      PickFacts(sessions, ks, keep);
      assert IdSet(result) == UserIds(sessions, userId);
      DistinctCount(result);
    }

    /** `Update`: the same insert-or-overwrite as `Create`. */
    method Update(s: Session)
      requires Valid()
      modifies this
      ensures Valid()
      ensures sessions == old(sessions)[s.id := s]
    {
      sessions := sessions[s.id := s];
    }

    /** `Delete`: remove one key; a missing key is not an error. */
    method Delete(id: string)
      requires Valid()
      modifies this
      ensures Valid()
      ensures sessions == old(sessions) - {id}
    {
      sessions := sessions - {id};
    }

    /** `ListExpired`: every session strictly past its expiry, exactly once, in map order. */
    method ListExpired(now: Time) returns (result: seq<Session>)
      requires Valid()
      ensures DistinctIds(result)
      ensures forall i :: 0 <= i < |result| ==>
        result[i].id in sessions && sessions[result[i].id] == result[i] && IsExpired(result[i], now)
      ensures IdSet(result) == ExpiredIds(sessions, now)
      ensures |result| == |ExpiredIds(sessions, now)|
    {
      var ks := KeyOrder();
      var keep := (s: Session) => IsExpired(s, now);
      result := [];
      var i := 0;
      while i < |ks|
        invariant 0 <= i <= |ks|
        invariant result == Pick(sessions, ks[..i], keep)
      {
        assert ks[..i + 1][..i] == ks[..i];
        var sess := sessions[ks[i]];
        if After(now, sess.expiresAt) {
          result := result + [sess];
        }
        i := i + 1;
      }
      assert ks[..i] == ks;
      PickFacts(sessions, ks, keep);
      assert IdSet(result) == ExpiredIds(sessions, now);
      DistinctCount(result);
    }

    /** `DeleteExpired`: drop every expired session, keep every other, and count the drops. */
    method DeleteExpired(now: Time) returns (count: nat)
      requires Valid()
      modifies this
      ensures Valid()
      ensures sessions == Unexpired(old(sessions), now)
      ensures count == |ExpiredIds(old(sessions), now)|
    {
      count := 0;
      var todo := sessions.Keys;
      while todo != {}
        invariant todo <= old(sessions).Keys
        invariant sessions == Swept(old(sessions), todo, now)
        invariant count == |Taken(old(sessions), todo, now)|
        decreases |todo|
      {
        var id :| id in todo;
        SweepStep(old(sessions), todo, id, now);
        var sess := sessions[id];
        if After(now, sess.expiresAt) {
          sessions := sessions - {id};
          count := count + 1;
        }
        todo := todo - {id};
      }
      SweptAll(old(sessions), now);
    }
  }

  /** The store while the keys in `todo` are still to be visited: the expired ones outside it are gone. */
  ghost function Swept(before: map<string, Session>, todo: set<string>, now: Time): map<string, Session> {
    map id | id in before && (id in todo || !IsExpired(before[id], now)) :: before[id]
  }

  /** The visited keys whose session had expired: what `DeleteExpired` has counted. */
  ghost function Taken(before: map<string, Session>, todo: set<string>, now: Time): set<string> {
    set id | id in before && id !in todo && IsExpired(before[id], now)
  }

  /** Visiting one more key removes it exactly when its session has expired. */
  lemma SweepStep(before: map<string, Session>, todo: set<string>, id: string, now: Time)
    requires id in before && id in todo
    ensures id in Swept(before, todo, now) && Swept(before, todo, now)[id] == before[id]
    ensures IsExpired(before[id], now) ==>
      Swept(before, todo - {id}, now) == Swept(before, todo, now) - {id}
      && Taken(before, todo - {id}, now) == Taken(before, todo, now) + {id}
      && id !in Taken(before, todo, now)
    ensures !IsExpired(before[id], now) ==>
      Swept(before, todo - {id}, now) == Swept(before, todo, now)
      && Taken(before, todo - {id}, now) == Taken(before, todo, now)
  {
  }

  /** Once every key has been visited, the sweep is the unexpired store and the count the expired ids. */
  lemma SweptAll(before: map<string, Session>, now: Time)
    ensures Swept(before, {}, now) == Unexpired(before, now)
    ensures Taken(before, {}, now) == ExpiredIds(before, now)
  {
  }

  /** After expiry cleanup nothing expired is left, and nothing unexpired was lost. */
  lemma DeleteExpiredLeavesNoExpired(sessions: map<string, Session>, now: Time)
    ensures ExpiredIds(Unexpired(sessions, now), now) == {}
    ensures forall id :: id in sessions && !IsExpired(sessions[id], now) ==>
      id in Unexpired(sessions, now) && Unexpired(sessions, now)[id] == sessions[id]
    ensures |Unexpired(sessions, now).Keys| + |ExpiredIds(sessions, now)| == |sessions.Keys|
  {
    var kept := Unexpired(sessions, now).Keys;
    assert kept + ExpiredIds(sessions, now) == sessions.Keys;
    assert kept !! ExpiredIds(sessions, now);
  }
}
