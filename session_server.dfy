/**
 * The HTTP front of cmd/session-manager/main.go: the path splitter and the
 * routing of `/api/v1/sessions` and `/api/v1/sessions/{id}[/{action}]`.
 * A handler's answer is an `Endpoint`: the manager operation it calls, or
 * the HTTP error it writes.
 */
module SessionServer {
  import opened Wrappers
  import Text
  import GoStrings

  // ---------------------------------------------------------------- split

  /** The run after the last separator: the `current` accumulator of `split`. */
  function Tail(s: string, sep: char): (r: string)
    ensures sep !in r
    decreases |s|
  {
    if s == [] then []
    else if s[|s| - 1] == sep then []
    else Tail(s[..|s| - 1], sep) + [s[|s| - 1]]
  }

  /** The non-empty runs already ended by a separator: the `parts` of `split`. */
  function Closed(s: string, sep: char): seq<string>
    decreases |s|
  {
    if s == [] then []
    else
      var init := s[..|s| - 1];
      if s[|s| - 1] == sep then Closed(init, sep) + (if Tail(init, sep) == [] then [] else [Tail(init, sep)])
      else Closed(init, sep)
  }

  /** The non-empty separator-free runs of `s`, in order. */
  function Tokens(s: string, sep: char): seq<string> {
    Closed(s, sep) + (if Tail(s, sep) == [] then [] else [Tail(s, sep)])
  }

  /** The concatenation of a list of strings. */
  function Concat(parts: seq<string>): string
    decreases |parts|
  {
    if parts == [] then [] else Concat(parts[..|parts| - 1]) + parts[|parts| - 1]
  }

  /** The non-empty members of a list, in order. */
  function NonEmpty(parts: seq<string>): seq<string>
    decreases |parts|
  {
    if parts == [] then []
    else NonEmpty(parts[..|parts| - 1]) + (if parts[|parts| - 1] == [] then [] else [parts[|parts| - 1]])
  }

  /** `split`: walk the characters, closing the current run at each separator. */
  method SplitParts(s: string, sep: char) returns (parts: seq<string>)
    ensures parts == Tokens(s, sep)
  {
    parts := [];
    var current := "";
    var i := 0;
    while i < |s|
      invariant 0 <= i <= |s|
      invariant parts == Closed(s[..i], sep) && current == Tail(s[..i], sep)
    {
      assert s[..i + 1][..i] == s[..i];
      if s[i] == sep {
        if current != "" {
          parts := parts + [current];
        }
        current := "";
      } else {
        current := current + [s[i]];
      }
      i := i + 1;
    }
    assert s[..i] == s;
    if current != "" {
      parts := parts + [current];
    }
  }

  /** `splitPath`: `split` on `/`, then drop empty parts. */
  method SplitPath(path: string) returns (parts: seq<string>)
    ensures parts == NonEmpty(Tokens(path, '/'))
    ensures parts == Tokens(path, '/')
  {
    var pieces := SplitParts(path, '/');
    parts := [];
    var i := 0;
    while i < |pieces|
      invariant 0 <= i <= |pieces|
      invariant parts == NonEmpty(pieces[..i])
    {
      assert pieces[..i + 1][..i] == pieces[..i];
      if pieces[i] != "" {
        parts := parts + [pieces[i]];
      }
      i := i + 1;
    }
    assert pieces[..i] == pieces;
    TokensShape(path, '/');
    NonEmptyKeeps(pieces);
  }

  lemma ConcatSnoc(parts: seq<string>, p: string)
    ensures Concat(parts + [p]) == Concat(parts) + p
  {
    assert (parts + [p])[..|parts|] == parts;
  }

  /**
   * The parts of `split` are non-empty and separator-free, and together they
   * spell the input with its separators removed.
   */
  lemma {:induction false} TokensShape(s: string, sep: char)
    ensures forall i :: 0 <= i < |Tokens(s, sep)| ==> Tokens(s, sep)[i] != [] && sep !in Tokens(s, sep)[i]
    ensures Concat(Tokens(s, sep)) == Text.Without(s, sep)
  {
    ClosedParts(s, sep);
    ClosedConcat(s, sep);
    var t := Tail(s, sep);
    if t != [] {
      ConcatSnoc(Closed(s, sep), t);
    } else {
      assert Tokens(s, sep) == Closed(s, sep);
      assert Concat(Closed(s, sep)) + t == Concat(Closed(s, sep));
    }
  }

  /** The ended runs are non-empty and separator-free. */
  lemma {:induction false} ClosedParts(s: string, sep: char)
    ensures forall i :: 0 <= i < |Closed(s, sep)| ==> Closed(s, sep)[i] != [] && sep !in Closed(s, sep)[i]
    decreases |s|
  {
    if s != [] {
      var init := s[..|s| - 1];
      ClosedParts(init, sep);
      if s[|s| - 1] == sep && Tail(init, sep) != [] {
        var parts := Closed(init, sep) + [Tail(init, sep)];
        assert forall i :: 0 <= i < |Closed(init, sep)| ==> parts[i] == Closed(init, sep)[i];
      }
    }
  }

  /** The ended runs followed by the open one spell the input without its separators. */
  lemma {:induction false} ClosedConcat(s: string, sep: char)
    ensures Concat(Closed(s, sep)) + Tail(s, sep) == Text.Without(s, sep)
    decreases |s|
  {
    if s != [] {
      var init := s[..|s| - 1];
      var c := s[|s| - 1];
      ClosedConcat(init, sep);
      var w := Text.Without(init, sep);
      var done := Concat(Closed(init, sep));
      var open := Tail(init, sep);
      assert done + open == w;
      if c == sep {
        assert Text.Without(s, sep) == w + [];
        assert Tail(s, sep) == [];
        if open != [] {
          assert Closed(s, sep) == Closed(init, sep) + [open];
          ConcatSnoc(Closed(init, sep), open);
        } else {
          assert Closed(s, sep) == Closed(init, sep);
          assert w == done;
        }
      } else {
        assert Text.Without(s, sep) == w + [c];
        assert Tail(s, sep) == open + [c];
        assert Closed(s, sep) == Closed(init, sep);
        assert done + (open + [c]) == (done + open) + [c];
      }
    }
  }

  /** Dropping empty members changes nothing on a list with none. */
  lemma {:induction false} NonEmptyKeeps(parts: seq<string>)
    requires forall i :: 0 <= i < |parts| ==> parts[i] != []
    ensures NonEmpty(parts) == parts
    decreases |parts|
  {
    if parts != [] {
      NonEmptyKeeps(parts[..|parts| - 1]);
      assert parts[..|parts| - 1] + [parts[|parts| - 1]] == parts;
    }
  }

  lemma {:induction false} NonEmptyAppend(a: seq<string>, b: seq<string>)
    ensures NonEmpty(a + b) == NonEmpty(a) + NonEmpty(b)
    decreases |b|
  {
    if b == [] {
      assert a + b == a;
    } else {
      var init := b[..|b| - 1];
      NonEmptyAppend(a, init);
      assert (a + b)[..|a + b| - 1] == a + init;
    }
  }

  /** `split` is Go's `strings.Split` with the empty parts dropped. */
  lemma {:induction false} TokensAreSplitRuns(s: string, sep: char)
    ensures Tokens(s, sep) == NonEmpty(GoStrings.Split(s, sep))
  {
    var p := GoStrings.Split(s, sep);
    TailAndClosed(s, sep);
    assert p == p[..|p| - 1] + [p[|p| - 1]];
    NonEmptyAppend(p[..|p| - 1], [p[|p| - 1]]);
    assert NonEmpty([p[|p| - 1]]) == NonEmpty([]) + (if p[|p| - 1] == [] then [] else [p[|p| - 1]]);
  }

  lemma {:induction false} TailAndClosed(s: string, sep: char)
    ensures var p := GoStrings.Split(s, sep);
      Tail(s, sep) == p[|p| - 1] && Closed(s, sep) == NonEmpty(p[..|p| - 1])
    decreases |s|
  {
    if s != [] {
      var init := s[..|s| - 1];
      var c := s[|s| - 1];
      TailAndClosed(init, sep);
      GoStrings.SplitSnoc(init, c, sep);
      assert init + [c] == s;
      var q := GoStrings.Split(init, sep);
      if c == sep {
        var p := q + [[]];
        assert p[..|p| - 1] == q;
        assert q == q[..|q| - 1] + [q[|q| - 1]];
        NonEmptyAppend(q[..|q| - 1], [q[|q| - 1]]);
        assert NonEmpty([q[|q| - 1]]) == NonEmpty([]) + (if q[|q| - 1] == [] then [] else [q[|q| - 1]]);
      } else {
        var p := q[..|q| - 1] + [q[|q| - 1] + [c]];
        assert p[..|p| - 1] == q[..|q| - 1];
      }
    } else {
      assert GoStrings.Split(s, sep) == [[]];
    }
  }

  /** Splitting texts joined by a separator splits each. */
  lemma TokensConcat(a: string, b: string, sep: char)
    ensures Tokens(a + [sep] + b, sep) == Tokens(a, sep) + Tokens(b, sep)
  {
    TokensAreSplitRuns(a + [sep] + b, sep);
    TokensAreSplitRuns(a, sep);
    TokensAreSplitRuns(b, sep);
    GoStrings.SplitConcat(a, b, sep);
    NonEmptyAppend(GoStrings.Split(a, sep), GoStrings.Split(b, sep));
  }

  /** A single non-empty separator-free word is its own only part. */
  lemma TokensWord(w: string, sep: char)
    requires w != [] && sep !in w
    ensures Tokens(w, sep) == [w]
  {
    TokensAreSplitRuns(w, sep);
    GoStrings.SplitWord(w, [], sep);
    assert NonEmpty([w]) == NonEmpty([]) + [w];
  }

  // ---------------------------------------------------------------- routing

  /** What a handler does: call one manager operation, or write an HTTP error. */
  datatype Endpoint =
    | ListSessions(userId: string)
    | CreateSession(userId: string)
    | GetSession(id: string)
    | DeleteSession(id: string)
    | PauseSession(id: string)
    | ResumeSession(id: string)
    | TouchSession(id: string)
    | BindSession(id: string, sandboxId: string)
    | UnbindSession(id: string)
    | Reject(status: int, message: string)
    | IndexPanic

  const SessionsPrefix: string := "/api/v1/sessions/"

  const NotAllowed: Endpoint := Reject(405, "Method not allowed")

  /** `handleSessions`: GET lists a user's sessions and POST creates one; both need a user id. */
  function Sessions(verb: string, queryUserId: string, body: Option<string>): (r: Endpoint)
    ensures r == Reject(400, "user_id is required") <==>
      (verb == "GET" && queryUserId == "") || (verb == "POST" && body == Some(""))
    ensures r == Reject(400, "Invalid request body") <==> verb == "POST" && body.None?
    ensures r == NotAllowed <==> verb != "GET" && verb != "POST"
    ensures r.ListSessions? <==> verb == "GET" && queryUserId != ""
    ensures r.ListSessions? ==> r == ListSessions(queryUserId)
    ensures r.CreateSession? <==> verb == "POST" && body.Some? && body.value != ""
    ensures r.CreateSession? ==> r == CreateSession(body.value)
    ensures r.ListSessions? || r.CreateSession? || r.Reject?
  {
    if verb == "GET" then
      if queryUserId == "" then Reject(400, "user_id is required") else ListSessions(queryUserId)
    else if verb == "POST" then
      match body
      case None => Reject(400, "Invalid request body")
      case Some(u) => if u == "" then Reject(400, "user_id is required") else CreateSession(u)
    else NotAllowed
  }

  /**
   * The action switch of `handleSession` together with each action handler's
   * method check. `bindBody` is the `sandbox_id` of the decoded bind request,
   * or None when the request body does not decode.
   */
  function Dispatch(id: string, action: string, verb: string, bindBody: Option<string>): (r: Endpoint)
    ensures r == Reject(400, "Unknown action") <==> action !in {"pause", "resume", "touch", "bind", ""}
    ensures r == PauseSession(id) <==> action == "pause" && verb == "POST"
    ensures r == ResumeSession(id) <==> action == "resume" && verb == "POST"
    ensures r == TouchSession(id) <==> action == "touch" && verb == "POST"
    ensures r.BindSession? <==> action == "bind" && verb == "POST" && bindBody.Some?
    ensures r.BindSession? ==> r == BindSession(id, bindBody.value)
    ensures r == Reject(400, "Invalid request body") <==> action == "bind" && verb == "POST" && bindBody.None?
    ensures r == UnbindSession(id) <==> action == "bind" && verb == "DELETE"
    ensures r == GetSession(id) <==> action == "" && verb == "GET"
    ensures r == DeleteSession(id) <==> action == "" && verb == "DELETE"
    ensures r == NotAllowed <==>
      || (action in {"pause", "resume", "touch"} && verb != "POST")
      || (action == "bind" && verb != "POST" && verb != "DELETE")
      || (action == "" && verb != "GET" && verb != "DELETE")
    ensures !r.IndexPanic? && !r.ListSessions? && !r.CreateSession?
  {
    match action
    case "pause" => if verb == "POST" then PauseSession(id) else NotAllowed
    case "resume" => if verb == "POST" then ResumeSession(id) else NotAllowed
    case "touch" => if verb == "POST" then TouchSession(id) else NotAllowed
    case "bind" =>
      if verb == "POST" then
        match bindBody
        case None => Reject(400, "Invalid request body")
        case Some(sandboxId) => BindSession(id, sandboxId)
      else if verb == "DELETE" then UnbindSession(id)
      else NotAllowed
    case "" =>
      if verb == "GET" then GetSession(id) else if verb == "DELETE" then DeleteSession(id) else NotAllowed
    case _ => Reject(400, "Unknown action")
  }

  /**
   * `handleSession` as written: past the length check it takes the first
   * part of the rest of the path without checking that there is one.
   */
  function RouteAsWritten(path: string, verb: string, bindBody: Option<string>): Endpoint {
    if |path| <= |SessionsPrefix| then Reject(400, "Session ID required")
    else
      var parts := Tokens(path[|SessionsPrefix|..], '/');
      if parts == [] then IndexPanic
      else Dispatch(parts[0], if |parts| > 1 then parts[1] else "", verb, bindBody)
  }

  /** A path whose rest is only slashes passes the length check and has no first part. */
  lemma RouteAsWrittenPanics()
    ensures RouteAsWritten("/api/v1/sessions//", "GET", None) == IndexPanic
  {
    var rest := "/api/v1/sessions//"[|SessionsPrefix|..];
    assert rest == "/";
    assert Tail(rest, '/') == [] && Closed(rest, '/') == [];
  }

  /** `handleSession` with a missing id answered like a too-short path. */
  function Route(path: string, verb: string, bindBody: Option<string>): (r: Endpoint)
    ensures !r.IndexPanic?
    ensures RouteAsWritten(path, verb, bindBody) != IndexPanic ==> r == RouteAsWritten(path, verb, bindBody)
    ensures RouteAsWritten(path, verb, bindBody) == IndexPanic ==> r == Reject(400, "Session ID required")
    ensures |path| <= |SessionsPrefix| ==> r == Reject(400, "Session ID required")
  {
    if |path| <= |SessionsPrefix| then Reject(400, "Session ID required")
    else
      var parts := Tokens(path[|SessionsPrefix|..], '/');
      if parts == [] then Reject(400, "Session ID required")
      else Dispatch(parts[0], if |parts| > 1 then parts[1] else "", verb, bindBody)
  }

  /**
   * The first segment after the prefix is the session id, the second the
   * action, and any further segments are ignored.
   */
  lemma RouteSegments(id: string, action: string, rest: string, verb: string, bindBody: Option<string>)
    requires id != [] && '/' !in id && action != [] && '/' !in action
    ensures Route(SessionsPrefix + id, verb, bindBody) == Dispatch(id, "", verb, bindBody)
    ensures Route(SessionsPrefix + id + "/" + action, verb, bindBody) == Dispatch(id, action, verb, bindBody)
    ensures Route(SessionsPrefix + id + "/" + action + "/" + rest, verb, bindBody) == Dispatch(id, action, verb, bindBody)
  {
    TokensWord(id, '/');
    assert (SessionsPrefix + id)[|SessionsPrefix|..] == id;
    TokensWord(action, '/');
    TokensConcat(id, action, '/');
    assert (SessionsPrefix + id + "/" + action)[|SessionsPrefix|..] == id + ['/'] + action;
    TokensConcat(id + ['/'] + action, rest, '/');
    assert (SessionsPrefix + id + "/" + action + "/" + rest)[|SessionsPrefix|..] == id + ['/'] + action + ['/'] + rest;
  }
}
