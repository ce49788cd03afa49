/**
 * The path normaliser of internal/metrics/middleware.go: before a request
 * path becomes a metric label, every `/`-separated segment that looks like
 * a UUID or a numeric id is replaced by ":id", so that labels stay few.
 */
module MetricsPath {
  import Text
  import GoStrings

  const Placeholder: string := ":id"

  predicate IsHex(c: char) {
    ('0' <= c <= '9') || ('a' <= c <= 'f') || ('A' <= c <= 'F')
  }

  /** The four positions of a UUID's dashes. */
  predicate DashAt(i: int) {
    i == 8 || i == 13 || i == 18 || i == 23
  }

  /** The UUID shape: 36 characters, dashes at 8, 13, 18 and 23, hex digits of either case elsewhere. */
  predicate UuidShape(s: string) {
    && |s| == 36
    && (forall i :: 0 <= i < |s| && DashAt(i) ==> s[i] == '-')
    && (forall i :: 0 <= i < |s| && !DashAt(i) ==> IsHex(s[i]))
  }

  /** The numeric-id shape: one to twenty decimal digits. */
  predicate NumericIdShape(s: string) {
    1 <= |s| <= 20 && forall i :: 0 <= i < |s| ==> Text.IsDigit(s[i])
  }

  /** `isUUID`: length first, then one pass that stops at the first misfit. */
  method IsUuid(s: string) returns (b: bool)
    ensures b <==> UuidShape(s)
  {
    if |s| != 36 {
      return false;
    }
    var i := 0;
    while i < |s|
      invariant 0 <= i <= |s|
      invariant forall j :: 0 <= j < i && DashAt(j) ==> s[j] == '-'
      invariant forall j :: 0 <= j < i && !DashAt(j) ==> IsHex(s[j])
    {
      var c := s[i];
      if i == 8 || i == 13 || i == 18 || i == 23 {
        if c != '-' {
          return false;
        }
      } else if !((c >= '0' && c <= '9') || (c >= 'a' && c <= 'f') || (c >= 'A' && c <= 'F')) {
        return false;
      }
      i := i + 1;
    }
    return true;
  }

  /** `isNumericID`: length first, then one pass over the digits. */
  method IsNumericId(s: string) returns (b: bool)
    ensures b <==> NumericIdShape(s)
  {
    if |s| == 0 || |s| > 20 {
      return false;
    }
    var i := 0;
    while i < |s|
      invariant 0 <= i <= |s|
      invariant forall j :: 0 <= j < i ==> Text.IsDigit(s[j])
    {
      if s[i] < '0' || s[i] > '9' {
        return false;
      }
      i := i + 1;
    }
    return true;
  }

  /** A segment as it appears in the label. */
  function Label(seg: string): string {
    if UuidShape(seg) || NumericIdShape(seg) then Placeholder else seg
  }

  /** Every segment relabelled, one for one. */
  function Labels(segs: seq<string>): (r: seq<string>)
    ensures |r| == |segs|
    ensures forall i :: 0 <= i < |segs| ==> r[i] == Label(segs[i])
  {
    seq(|segs|, i requires 0 <= i < |segs| => Label(segs[i]))
  }

  /** The label of a whole path. */
  function Normalized(path: string): string {
    GoStrings.Join(Labels(GoStrings.Split(path, '/')), '/')
  }

  /** `normalizePath`: split, overwrite the id segments in place, join. */
  method NormalizePath(path: string) returns (r: string)
    ensures r == Normalized(path)
  {
    var segs := GoStrings.Split(path, '/');
    var parts := segs;
    var i := 0;
    while i < |parts|
      invariant 0 <= i <= |parts| == |segs|
      invariant forall j :: 0 <= j < i ==> parts[j] == Label(segs[j])
      invariant forall j :: i <= j < |parts| ==> parts[j] == segs[j]
    {
      var uuid := IsUuid(parts[i]);
      var numeric := IsNumericId(parts[i]);
      if uuid || numeric {
        parts := parts[i := Placeholder];
      }
      i := i + 1;
    }
    assert parts == Labels(segs);
    r := GoStrings.Join(parts, '/');
  }

  /** The placeholder is itself neither a UUID nor a number, so relabelling is stable. */
  lemma LabelIdempotent(seg: string)
    ensures Label(Label(seg)) == Label(seg)
    ensures Label(seg) == seg || Label(seg) == Placeholder
  {
    assert !Text.IsDigit(Placeholder[0]);
  }

  /** Labels carry no separator, so the label splits back into exactly the relabelled segments. */
  lemma NormalizedSegments(path: string)
    ensures GoStrings.Split(Normalized(path), '/') == Labels(GoStrings.Split(path, '/'))
    ensures |GoStrings.Split(Normalized(path), '/')| == |GoStrings.Split(path, '/')|
  {
    var segs := GoStrings.Split(path, '/');
    var ls := Labels(segs);
    forall i | 0 <= i < |ls|
      ensures '/' !in ls[i]
    {
      assert '/' !in segs[i];
      assert '/' !in Placeholder;
    }
    GoStrings.SplitJoin(ls, '/');
  }

  /** A path none of whose segments is an id is its own label. */
  lemma NoIdsUnchanged(path: string)
    requires forall i :: 0 <= i < |GoStrings.Split(path, '/')| ==>
      !UuidShape(GoStrings.Split(path, '/')[i]) && !NumericIdShape(GoStrings.Split(path, '/')[i])
    ensures Normalized(path) == path
  {
    var segs := GoStrings.Split(path, '/');
    assert Labels(segs) == segs;
    GoStrings.JoinSplit(path, '/');
  }

  /** Normalising a label changes nothing. */
  lemma NormalizeIdempotent(path: string)
    ensures Normalized(Normalized(path)) == Normalized(path)
  {
    var segs := GoStrings.Split(path, '/');
    NormalizedSegments(path);
    var ls := Labels(segs);
    forall i | 0 <= i < |ls|
      ensures Label(ls[i]) == ls[i]
    {
      LabelIdempotent(segs[i]);
    }
    assert Labels(ls) == ls;
  }
}
