/**
 * The parts of Go's `strings` and `strconv` packages the backend relies on,
 * over `seq<char>`. Splitting keeps empty parts, as `strings.Split` does.
 */
module GoStrings {
  import Text

  /** `strings.Split(s, string(sep))`: the maximal separator-free runs, empty ones included. */
  function Split(s: string, sep: char): (r: seq<string>)
    ensures |r| >= 1
    ensures forall i :: 0 <= i < |r| ==> sep !in r[i]
    decreases |s|
  {
    if s == [] then [[]]
    else
      var rest := Split(s[1..], sep);
      if s[0] == sep then [[]] + rest
      else [[s[0]] + rest[0]] + rest[1..]
  }

  /** `strings.Join(parts, string(sep))`. */
  function Join(parts: seq<string>, sep: char): (r: string)
    decreases |parts|
  {
    if parts == [] then []
    else if |parts| == 1 then parts[0]
    else parts[0] + [sep] + Join(parts[1..], sep)
  }

  lemma JoinCons(p: string, ps: seq<string>, sep: char)
    requires ps != []
    ensures Join([p] + ps, sep) == p + [sep] + Join(ps, sep)
  {
    assert ([p] + ps)[1..] == ps;
  }

  /** Joining the parts of a split with the same separator gives back the text. */
  lemma {:induction false} JoinSplit(s: string, sep: char)
    ensures Join(Split(s, sep), sep) == s
    decreases |s|
  {
    if s != [] {
      var rest := Split(s[1..], sep);
      JoinSplit(s[1..], sep);
      if s[0] == sep {
        JoinCons([], rest, sep);
        assert [s[0]] + s[1..] == s;
      } else if |rest| == 1 {
        assert Join(rest, sep) == rest[0];
        assert [s[0]] + s[1..] == s;
      } else {
        JoinCons(rest[0], rest[1..], sep);
        assert [rest[0]] + rest[1..] == rest;
        JoinCons([s[0]] + rest[0], rest[1..], sep);
        assert [s[0]] + s[1..] == s;
      }
    }
  }

  /** Splitting a join of separator-free parts recovers the parts. */
  lemma {:induction false} SplitJoin(parts: seq<string>, sep: char)
    requires |parts| >= 1
    requires forall i :: 0 <= i < |parts| ==> sep !in parts[i]
    ensures Split(Join(parts, sep), sep) == parts
    decreases |parts|, if |parts| > 0 then |parts[0]| else 0
  {
    if |parts| == 1 {
      SplitWord(parts[0], [], sep);
    } else {
      SplitJoin(parts[1..], sep);
      JoinCons(parts[0], parts[1..], sep);
      assert [parts[0]] + parts[1..] == parts;
      SplitWord(parts[0], parts[1..], sep);
    }
  }

  /** A separator-free word in front of a separator-led tail becomes the head part. */
  lemma {:induction false} SplitWord(w: string, tail: seq<string>, sep: char)
    requires sep !in w
    requires tail == [] || Split(Join(tail, sep), sep) == tail
    ensures tail == [] ==> Split(w, sep) == [w]
    ensures tail != [] ==> Split(w + [sep] + Join(tail, sep), sep) == [w] + tail
    decreases |w|
  {
    if w == [] {
      if tail != [] {
        assert ([] + [sep] + Join(tail, sep))[1..] == Join(tail, sep);
      }
    } else {
      SplitWord(w[1..], tail, sep);
      if tail == [] {
        assert [w[0]] + w[1..] == w;
      } else {
        var x := w + [sep] + Join(tail, sep);
        assert x[1..] == w[1..] + [sep] + Join(tail, sep);
        assert [w[0]] + w[1..] == w;
      }
    }
  }

  /** One unfolding of `Split` on a text with a given first character. */
  lemma SplitCons(x: char, t: string, sep: char)
    ensures var r := Split(t, sep);
      Split([x] + t, sep) == if x == sep then [[]] + r else [[x] + r[0]] + r[1..]
  {
    assert ([x] + t)[0] == x && ([x] + t)[1..] == t;
  }

  /** Appending one character extends the last part, or opens a new empty part after a separator. */
  lemma {:induction false} SplitSnoc(s: string, c: char, sep: char)
    ensures var p := Split(s, sep);
      Split(s + [c], sep) == if c == sep then p + [[]] else p[..|p| - 1] + [p[|p| - 1] + [c]]
    decreases |s|
  {
    if s == [] {
      SplitCons(c, [], sep);
      assert [c] + [] == [c] == s + [c];
    } else {
      var x, t := s[0], s[1..];
      SplitSnoc(t, c, sep);
      SplitCons(x, t, sep);
      SplitCons(x, t + [c], sep);
      assert [x] + t == s && [x] + (t + [c]) == s + [c];
      SnocCase(x, Split(t, sep), Split(t + [c], sep), c, sep);
    }
  }

  /** The list manipulation behind one step of `SplitSnoc`. */
  lemma SnocCase(x: char, r: seq<string>, rr: seq<string>, c: char, sep: char)
    requires |r| >= 1
    requires rr == if c == sep then r + [[]] else r[..|r| - 1] + [r[|r| - 1] + [c]]
    ensures var p := if x == sep then [[]] + r else [[x] + r[0]] + r[1..];
      var q := if x == sep then [[]] + rr else [[x] + rr[0]] + rr[1..];
      q == if c == sep then p + [[]] else p[..|p| - 1] + [p[|p| - 1] + [c]]
  {
    var n := |r|;
    if x != sep && c != sep {
      if n == 1 {
        assert [x] + (r[0] + [c]) == ([x] + r[0]) + [c];
      } else {
        assert rr[0] == r[0] && rr[1..] == r[1..n - 1] + [r[n - 1] + [c]];
      }
    } else if x == sep && c != sep {
      var p := [[]] + r;
      assert p[..|p| - 1] == [[]] + r[..n - 1];
    }
  }

  /** Splitting two texts joined by a separator splits each. */
  lemma {:induction false} SplitConcat(a: string, b: string, sep: char)
    ensures Split(a + [sep] + b, sep) == Split(a, sep) + Split(b, sep)
    decreases |a|
  {
    if a == [] {
      SplitCons(sep, b, sep);
      assert [] + [sep] + b == [sep] + b;
    } else {
      var x, t := a[0], a[1..];
      SplitConcat(t, b, sep);
      SplitCons(x, t, sep);
      SplitCons(x, t + [sep] + b, sep);
      assert [x] + t == a && [x] + (t + [sep] + b) == a + [sep] + b;
      ConcatCase(x, Split(t, sep), Split(b, sep), sep);
    }
  }

  /** The list manipulation behind one step of `SplitConcat`. */
  lemma ConcatCase(x: char, pa: seq<string>, q: seq<string>, sep: char)
    requires |pa| >= 1
    ensures var r := pa + q;
      (if x == sep then [[]] + r else [[x] + r[0]] + r[1..])
      == (if x == sep then [[]] + pa else [[x] + pa[0]] + pa[1..]) + q
  {
    var r := pa + q;
    assert r[0] == pa[0] && r[1..] == pa[1..] + q;
  }

  /** `strings.TrimSpace` for ASCII white space. */
  function TrimSpace(s: string): (r: string)
    ensures r == [] || (!Text.IsSpace(r[0]) && !Text.IsSpace(r[|r| - 1]))
    ensures |r| <= |s|
    decreases |s|
  {
    if s == [] then []
    else if Text.IsSpace(s[0]) then TrimSpace(s[1..])
    else if Text.IsSpace(s[|s| - 1]) then TrimSpace(s[..|s| - 1])
    else s
  }

  /** The leading run of non-space characters. */
  function Word(s: string): (w: string)
    ensures |w| <= |s| && w == s[..|w|]
    ensures forall i :: 0 <= i < |w| ==> !Text.IsSpace(w[i])
    ensures |w| < |s| ==> Text.IsSpace(s[|w|])
    decreases |s|
  {
    if s == [] || Text.IsSpace(s[0]) then [] else [s[0]] + Word(s[1..])
  }

  /** `strings.Fields` for ASCII white space: the maximal runs of non-space characters. */
  function Fields(s: string): (r: seq<string>)
    ensures forall i :: 0 <= i < |r| ==> |r[i]| > 0 && forall j :: 0 <= j < |r[i]| ==> !Text.IsSpace(r[i][j])
    decreases |s|
  {
    if s == [] then []
    else if Text.IsSpace(s[0]) then Fields(s[1..])
    else
      var w := Word(s);
      [w] + Fields(s[|w|..])
  }

  const MaxInt64: int := 0x7FFF_FFFF_FFFF_FFFF
  const MinInt64: int := -0x8000_0000_0000_0000

  /** The value of a non-empty run of decimal digits. */
  function DigitsValue(s: string): (v: nat)
    requires forall i :: 0 <= i < |s| ==> Text.IsDigit(s[i])
    decreases |s|
  {
    if s == [] then 0
    else
      assert Text.IsDigit(s[|s| - 1]);
      DigitsValue(s[..|s| - 1]) * 10 + (s[|s| - 1] as int - '0' as int)
  }

  predicate AllDigits(s: string) {
    |s| > 0 && forall i :: 0 <= i < |s| ==> Text.IsDigit(s[i])
  }

  /**
   * The value `strconv.ParseInt(s, 10, 64)` returns with its error ignored: an
   * optional sign and then decimal digits; text that is not such a number
   * gives 0 and a number outside int64 is clamped to the nearest bound.
   */
  function ParseInt(s: string): (v: int)
    ensures MinInt64 <= v <= MaxInt64
    ensures AllDigits(s) && DigitsValue(s) <= MaxInt64 ==> v == DigitsValue(s)
    ensures s == [] || s == "-" || s == "+" ==> v == 0
  {
    var neg := |s| > 0 && s[0] == '-';
    var body := if |s| > 0 && (s[0] == '-' || s[0] == '+') then s[1..] else s;
    if !AllDigits(body) then 0
    else
      var mag: int := DigitsValue(body);
      if neg then (if -mag < MinInt64 then MinInt64 else -mag)
      else (if mag > MaxInt64 then MaxInt64 else mag)
  }

  /** Decimal text read back as digits is the number it was written from. */
  lemma {:induction false} DigitsValueNatText(n: nat)
    ensures AllDigits(Text.NatText(n)) && DigitsValue(Text.NatText(n)) == n
    decreases n
  {
    var t := Text.NatText(n);
    if n >= 10 {
      DigitsValueNatText(n / 10);
      assert t[..|t| - 1] == Text.NatText(n / 10);
    }
  }

  /** `ParseInt` reads back what decimal formatting writes, for every int64 value. */
  lemma ParseIntFormatted(n: int)
    requires MinInt64 <= n <= MaxInt64
    ensures ParseInt(Text.IntText(n)) == n
  {
    if n < 0 {
      DigitsValueNatText(-n);
      assert Text.IntText(n)[1..] == Text.NatText(-n);
    } else {
      DigitsValueNatText(n);
      assert Text.NatText(n)[0] != '-' && Text.NatText(n)[0] != '+' by {
        assert Text.IsDigit(Text.NatText(n)[0]);
      }
    }
  }
}
