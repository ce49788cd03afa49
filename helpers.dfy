/**
 * internal/sandbox/helpers.go: reading a directory listing produced by
 * `ls -la`, and the entries `createTar` writes for one file.
 */
module Helpers {
  import opened Wrappers
  import opened GoTime
  import opened SandboxTypes
  import opened GoStrings
  import Text

  // ---------------------------------------------------------------- paths

  /**
   * `filepath.Join(base, name)` for the plain paths the listing produces:
   * one `/` between the two, none added when `base` already ends in one.
   */
  function JoinPath(base: string, name: string): (r: string)
    ensures base == [] ==> r == name
    ensures Text.HasSuffix(r, name)
  {
    if base == [] then name
    else if base[|base| - 1] == '/' then base + name
    else base + "/" + name
  }

  /** Drop trailing slashes. */
  function StripSlashes(s: string): (r: string)
    ensures |r| <= |s| && r == s[..|r|]
    ensures r == [] || r[|r| - 1] != '/'
  {
    if s != [] && s[|s| - 1] == '/' then StripSlashes(s[..|s| - 1]) else s
  }

  function LastSlash(s: string): (i: int)
    ensures -1 <= i < |s|
    ensures i >= 0 ==> s[i] == '/'
    ensures forall j :: i < j < |s| ==> s[j] != '/'
  {
    if s == [] then -1 else if s[|s| - 1] == '/' then |s| - 1 else LastSlash(s[..|s| - 1])
  }

  /**
   * `filepath.Dir` on paths without `.`/`..` elements: everything before the
   * last `/`, trailing slashes dropped; "." without a `/`, "/" at the root.
   */
  function Dir(p: string): (r: string)
    ensures r != []
    ensures r == "." || r == "/" || |r| < |p|
    ensures '/' !in p ==> r == "."
  {
    var i := LastSlash(p);
    if i < 0 then "."
    else
      var d := StripSlashes(p[..i + 1]);
      if d == [] then "/" else d
  }

  /** Where the walk up the parents stops in the corrected `createTar`. */
  predicate IsTop(d: string) {
    d == "." || d == "" || d == "/"
  }

  function Height(d: string): nat {
    if IsTop(d) then 0 else |d| + 1
  }

  /** The parents of `d` from the outermost down to `d` itself. */
  function Lineage(d: string): (r: seq<string>)
    ensures forall i :: 0 <= i < |r| ==> !IsTop(r[i])
    ensures !IsTop(d) ==> r != [] && r[|r| - 1] == d
    decreases Height(d)
  {
    if IsTop(d) then [] else Lineage(Dir(d)) + [d]
  }

  /** In a lineage each directory is the parent of the next, and the first has no parent left. */
  lemma {:induction false} LineageChain(d: string)
    ensures var l := Lineage(d); forall i :: 0 < i < |l| ==> Dir(l[i]) == l[i - 1]
    ensures var l := Lineage(d); l != [] ==> IsTop(Dir(l[0]))
    decreases Height(d)
  {
    if !IsTop(d) {
      LineageChain(Dir(d));
    }
  }

  // ---------------------------------------------------------------- tar entries

  /**
   * One tar member: a directory header (name ends in `/`) or the file's
   * header followed by its bytes. Modes are the permission bits.
   */
  datatype TarEntry = DirEntry(name: string, mode: int) | FileEntry(name: string, mode: int, size: int, data: seq<Byte>)

  /** `0755`, the mode of a directory header. */
  const DirMode: int := 0x1ED
  /** `0644`, the mode of the file header. */
  const FileMode: int := 0x1A4

  /** The archive name of a path: made absolute, then the leading `/` removed. */
  function TarPath(path: string): (r: string)
    ensures Text.HasPrefix(path, "/") ==> r == path[1..]
    ensures !Text.HasPrefix(path, "/") ==> r == path
  {
    var abs := if Text.HasPrefix(path, "/") then path else "/" + path;
    abs[1..]
  }

  function DirEntries(ds: seq<string>): (r: seq<TarEntry>)
    ensures |r| == |ds|
    ensures forall i :: 0 <= i < |ds| ==> r[i] == DirEntry(ds[i] + "/", DirMode)
  {
    seq(|ds|, i requires 0 <= i < |ds| => DirEntry(ds[i] + "/", DirMode))
  }

  /** The headers a corrected `createTar` writes, in order. */
  function TarEntries(path: string, content: seq<Byte>): seq<TarEntry> {
    DirEntries(Lineage(Dir(TarPath(path)))) + [FileEntry(TarPath(path), FileMode, |content|, content)]
  }

  /**
   * As written, the walk up the parents stops only at "." or "": a path whose
   * archive name still starts with `/` (such as "//a") reaches "/", whose
   * parent is "/" again, so the loop never ends.
   */
  lemma CreateTarAsWrittenDoesNotEnd()
    ensures var d := Dir(TarPath("//a"));
      d == "/" && d != "." && d != "" && Dir(d) == d
  {
  }

  lemma LineageStep(d: string)
    requires !IsTop(d)
    ensures Lineage(d) == Lineage(Dir(d)) + [d]
    ensures Height(Dir(d)) < Height(d)
  {
  }

  /** The walk up the parents, prepending each: outermost first. */
  method ParentDirs(dir: string) returns (dirs: seq<string>)
    ensures dirs == Lineage(dir)
  {
    dirs := [];
    var d := dir;
    while !IsTop(d)
      invariant Lineage(dir) == Lineage(d) + dirs
      decreases Height(d)
    {
      var parent := Dir(d);
      LineageStep(d);
      ConcatAssoc(Lineage(parent), [d], dirs);
      dirs := [d] + dirs;
      d := parent;
    }
  }

  lemma ConcatAssoc(a: seq<string>, b: seq<string>, c: seq<string>)
    ensures a + b + c == a + (b + c)
  {
  }

  /** One directory header per directory, in order. */
  method DirHeaders(dirs: seq<string>) returns (entries: seq<TarEntry>)
    ensures entries == DirEntries(dirs)
  {
    entries := [];
    var i := 0;
    while i < |dirs|
      invariant 0 <= i <= |dirs|
      invariant entries == DirEntries(dirs[..i])
    {
      entries := entries + [DirEntry(dirs[i] + "/", DirMode)];
      i := i + 1;
    }
    assert dirs[..i] == dirs;
  }

  /**
   * `createTar` with the walk also stopping at "/": one directory entry per
   * parent, outermost first, each with a trailing `/` and mode 0755, then
   * the file itself with mode 0644, its length and its bytes.
   */
  method CreateTar(path: string, content: seq<Byte>) returns (entries: seq<TarEntry>)
    ensures entries == TarEntries(path, content)
    ensures |entries| >= 1 && entries[|entries| - 1] == FileEntry(TarPath(path), FileMode, |content|, content)
  {
    var p := path;
    if !Text.HasPrefix(p, "/") {
      p := "/" + p;
    }
    var tarPath := p[1..];
    assert tarPath == TarPath(path);
    entries := [];
    var dir := Dir(tarPath);
    if dir != "." && dir != "" {
      var dirs := ParentDirs(dir);
      entries := DirHeaders(dirs);
    }
    entries := entries + [FileEntry(tarPath, FileMode, |content|, content)];
  }

  /** A relative and an absolute spelling of the same path give the same archive. */
  lemma CreateTarRelative(path: string, content: seq<Byte>)
    requires !Text.HasPrefix(path, "/")
    ensures TarEntries(path, content) == TarEntries("/" + path, content)
  {
    assert ("/" + path)[1..] == path;
  }

  // ---------------------------------------------------------------- ls -la

  /** The entry one line of `ls -la` contributes, if any. */
  function LineEntry(line: string, basePath: string, now: Time): (r: Option<FileInfo>)
    ensures var t := TrimSpace(line); var f := Fields(t);
      r.Some? <==> t != [] && !Text.HasPrefix(t, "total") && |f| >= 8 && f[|f| - 1] != "." && f[|f| - 1] != ".."
    ensures r.Some? ==> var f := Fields(TrimSpace(line));
      && r.value.name == f[|f| - 1]
      && r.value.path == JoinPath(basePath, f[|f| - 1])
      && (r.value.isDir <==> Text.HasPrefix(f[0], "d"))
      && r.value.size == ParseInt(f[4])
      && r.value.modTime == now
  {
    var t := TrimSpace(line);
    if t == [] || Text.HasPrefix(t, "total") then None
    else
      var f := Fields(t);
      if |f| < 8 then None
      else
        var name := f[|f| - 1];
        if name == "." || name == ".." then None
        else Some(FileInfo(name, JoinPath(basePath, name), ParseInt(f[4]), Text.HasPrefix(f[0], "d"), now))
  }

  /** The entries of a list of lines, in line order. */
  function Entries(lines: seq<string>, basePath: string, now: Time): (r: seq<FileInfo>)
    ensures |r| <= |lines|
    decreases |lines|
  {
    if lines == [] then []
    else
      var init := Entries(lines[..|lines| - 1], basePath, now);
      match LineEntry(lines[|lines| - 1], basePath, now)
      case None => init
      case Some(e) => init + [e]
  }

  /** Every listed entry comes from some line of the output, and none is "." or "..". */
  lemma {:induction false} EntriesFromLines(lines: seq<string>, basePath: string, now: Time)
    ensures forall e :: e in Entries(lines, basePath, now) ==>
      (exists i :: 0 <= i < |lines| && LineEntry(lines[i], basePath, now) == Some(e))
    ensures forall e :: e in Entries(lines, basePath, now) ==> e.name != "." && e.name != ".."
    decreases |lines|
  {
    if lines != [] {
      var init := lines[..|lines| - 1];
      EntriesFromLines(init, basePath, now);
      forall e | e in Entries(lines, basePath, now)
        ensures exists i :: 0 <= i < |lines| && LineEntry(lines[i], basePath, now) == Some(e)
      {
        if e in Entries(init, basePath, now) {
          var i :| 0 <= i < |init| && LineEntry(init[i], basePath, now) == Some(e);
          assert lines[i] == init[i];
        } else {
          assert LineEntry(lines[|lines| - 1], basePath, now) == Some(e);
        }
      }
    }
  }

  /** Lines that are blank or the "total" header contribute nothing. */
  lemma SkippedLines(lines: seq<string>, extra: string, basePath: string, now: Time)
    requires TrimSpace(extra) == [] || Text.HasPrefix(TrimSpace(extra), "total")
    ensures Entries(lines + [extra], basePath, now) == Entries(lines, basePath, now)
  {
    assert (lines + [extra])[..|lines|] == lines;
  }

  /** Extending the lines by one adds that line's entry, if it has one. */
  lemma EntriesStep(lines: seq<string>, i: nat, basePath: string, now: Time)
    requires i < |lines|
    ensures Entries(lines[..i + 1], basePath, now) == Entries(lines[..i], basePath, now) +
      (match LineEntry(lines[i], basePath, now) case None => [] case Some(e) => [e])
  {
    assert lines[..i + 1][..i] == lines[..i];
  }

  /** `parseLsOutput`: one entry per line that survives the filters, in line order. */
  method ParseLsOutput(output: string, basePath: string, now: Time) returns (files: seq<FileInfo>)
    ensures files == Entries(Split(output, '\n'), basePath, now)
  {
    var lines := Split(output, '\n');
    files := [];
    var i := 0;
    while i < |lines|
      invariant 0 <= i <= |lines|
      invariant files == Entries(lines[..i], basePath, now)
    {
      EntriesStep(lines, i, basePath, now);
      var line := TrimSpace(lines[i]);
      if line == [] || Text.HasPrefix(line, "total") {
        assert LineEntry(lines[i], basePath, now) == None;
        i := i + 1;
        continue;
      }
      var fields := Fields(line);
      if |fields| < 8 {
        assert LineEntry(lines[i], basePath, now) == None;
        i := i + 1;
        continue;
      }
      var name := fields[|fields| - 1];
      if name == "." || name == ".." {
        assert LineEntry(lines[i], basePath, now) == None;
        i := i + 1;
        continue;
      }
      var isDir := Text.HasPrefix(fields[0], "d");
      var size := ParseInt(fields[4]);
      assert LineEntry(lines[i], basePath, now) == Some(FileInfo(name, JoinPath(basePath, name), size, isDir, now));
      files := files + [FileInfo(name, JoinPath(basePath, name), size, isDir, now)];
      i := i + 1;
    }
    assert lines[..i] == lines;
  }
}
