/**
 * `std::path::PathBuf` on Windows, as the probe uses it: a root (a drive
 * prefix such as `C:` and/or a root separator) followed by the ordinary
 * components. `push` appends the components of a relative path, `pop`
 * drops the last one and fails when there is none left, and `set_extension`
 * rewrites the last component.
 */
module Paths {
  import opened Wrappers
  import opened Strings

  datatype Path = Path(root: string, parts: seq<string>)

  predicate IsSeparator(c: char) {
    c == '\\' || c == '/'
  }

  predicate IsAsciiLetter(c: char) {
    ('a' <= c <= 'z') || ('A' <= c <= 'Z')
  }

  /** A component as `Path::components` yields it: non-empty, no separator. */
  predicate IsComponent(c: string) {
    c != [] && forall k :: 0 <= k < |c| ==> !IsSeparator(c[k])
  }

  predicate HasDrivePrefix(s: string) {
    |s| >= 2 && IsAsciiLetter(s[0]) && s[1] == ':'
  }

  /** What `PathBuf::from` and `Path::display` agree on: `""`, `\`, `X:` or `X:\`. */
  predicate IsRoot(r: string) {
    r == [] || r == "\\" || (HasDrivePrefix(r) && (|r| == 2 || (|r| == 3 && r[2] == '\\')))
  }

  predicate WellFormed(p: Path) {
    && IsRoot(p.root)
    && (forall k :: 0 <= k < |p.parts| ==> IsComponent(p.parts[k]))
    && (p.root == [] && p.parts != [] ==> !HasDrivePrefix(p.parts[0]))
  }

  /** The first separator of `s`. */
  function SeparatorIndex(s: string): (r: Option<nat>)
    ensures r.None? <==> forall k :: 0 <= k < |s| ==> !IsSeparator(s[k])
    ensures r.Some? ==> r.value < |s| && IsSeparator(s[r.value])
    ensures r.Some? ==> forall k :: 0 <= k < r.value ==> !IsSeparator(s[k])
  {
    if s == [] then None
    else if IsSeparator(s[0]) then Some(0)
    else match SeparatorIndex(s[1..])
      case None => None
      case Some(i) => Some(i + 1)
  }

  /** The components of a relative path text; repeated separators give nothing. */
  function SplitComponents(s: string): (r: seq<string>)
    decreases |s|
    ensures forall k :: 0 <= k < |r| ==> IsComponent(r[k])
  {
    if s == [] then []
    else match SeparatorIndex(s)
      case None => [s]
      case Some(i) => (if i == 0 then [] else [s[..i]]) + SplitComponents(s[i + 1..])
  }

  /** `PathBuf::from(s)` */
  function ParsePath(s: string): (p: Path)
    ensures WellFormed(p)
  {
    var prefix := if HasDrivePrefix(s) then s[..2] else [];
    var rest := s[|prefix|..];
    var rootDir := if rest != [] && IsSeparator(rest[0]) then "\\" else [];
    var parts := SplitComponents(rest[|rootDir|..]);
    assert parts != [] && prefix == [] && rootDir == [] ==> !HasDrivePrefix(parts[0]) by {
      if parts != [] && prefix == [] && rootDir == [] && HasDrivePrefix(parts[0]) {
        SplitComponentsHead(s);
      }
    }
    Path(prefix + rootDir, parts)
  }

  /** The first component of a path text starts where the text does. */
  lemma SplitComponentsHead(s: string)
    requires SplitComponents(s) != [] && s != [] && !IsSeparator(s[0])
    ensures StartsWith(s, SplitComponents(s)[0])
  {
  }

  /** `path.display().to_string()`, with `\` between components. */
  function Display(p: Path): string {
    p.root + Join(p.parts, "\\")
  }

  /** `path.push(name)` for a relative, single-component `name`. */
  function Push(p: Path, name: string): (q: Path)
    ensures q.root == p.root && q.parts == p.parts + [name]
  {
    Path(p.root, p.parts + [name])
  }

  /**
   * `path.push(rel)` for a `rel` that has no drive prefix and no root: its
   * components go after the path's own. An empty `rel` adds no component
   * (Rust only appends a trailing separator).
   */
  function PushRelative(p: Path, rel: string): (q: Path)
    ensures q.root == p.root && |q.parts| >= |p.parts| && q.parts[..|p.parts|] == p.parts
  {
    Path(p.root, p.parts + SplitComponents(rel))
  }

  /** Pushing a single component is pushing that one name. */
  lemma PushRelativeComponent(p: Path, name: string)
    requires IsComponent(name)
    ensures PushRelative(p, name) == Push(p, name)
  {
    assert SeparatorIndex(name).None?;
  }

  /** An empty name adds no component. */
  lemma PushRelativeEmpty(p: Path)
    ensures PushRelative(p, "") == p
  {
    assert p.parts + [] == p.parts;
  }

  /** `path.pop()`: `None` where Rust returns false and leaves the path as it was. */
  function Pop(p: Path): (r: Option<Path>)
    ensures r.None? <==> p.parts == []
    ensures r.Some? ==> Push(r.value, p.parts[|p.parts| - 1]) == p
  {
    if p.parts == [] then None else Some(Path(p.root, p.parts[..|p.parts| - 1]))
  }

  /** `p.pop() && p.pop() && ...`, `n` times, stopping at the first failure. */
  function PopN(p: Path, n: nat): Option<Path>
    decreases n
  {
    if n == 0 then Some(p)
    else match Pop(p)
      case None => None
      case Some(q) => PopN(q, n - 1)
  }

  lemma {:induction false} PopNSucceedsIff(p: Path, n: nat)
    ensures PopN(p, n).Some? <==> n <= |p.parts|
    ensures PopN(p, n).Some? ==> PopN(p, n).value == Path(p.root, p.parts[..|p.parts| - n])
    decreases n
  {
    if n > 0 && p.parts != [] {
      var q := Path(p.root, p.parts[..|p.parts| - 1]);
      PopNSucceedsIff(q, n - 1);
      if n - 1 <= |q.parts| {
        assert q.parts[..|q.parts| - (n - 1)] == p.parts[..|p.parts| - n];
      }
    }
  }

  /** `Path::file_stem` of a file name: everything before the last interior `.`. */
  function FileStem(name: string): (stem: string)
    ensures StartsWith(name, stem)
    ensures '.' !in name ==> stem == name
  {
    if name == ".." then name
    else match LastIndexOf(name, '.')
      case None => name
      case Some(i) => if i == 0 then name else name[..i]
  }

  /** `path.set_extension(ext)`; a path with no file name is left unchanged. */
  function SetExtension(p: Path, ext: string): (q: Path)
    ensures q.root == p.root && |q.parts| == |p.parts|
    ensures p.parts != [] ==> q.parts[..|q.parts| - 1] == p.parts[..|p.parts| - 1]
  {
    if p.parts == [] || p.parts[|p.parts| - 1] == ".." then p
    else
      var name := p.parts[|p.parts| - 1];
      Path(p.root, p.parts[..|p.parts| - 1] + [FileStem(name) + (if ext == [] then [] else "." + ext)])
  }

  /** Setting the extension of a path whose file name has no dot appends `.ext` to that name. */
  lemma SetExtensionOfLast(p: Path, ext: string)
    requires p.parts != [] && '.' !in p.parts[|p.parts| - 1] && ext != []
    ensures SetExtension(p, ext) == Path(p.root, p.parts[..|p.parts| - 1] + [p.parts[|p.parts| - 1] + "." + ext])
  {
    assert FileStem(p.parts[|p.parts| - 1]) + ("." + ext) == p.parts[|p.parts| - 1] + "." + ext;
  }

  /** A file name without a dot gets `.ext` appended. */
  lemma SetExtensionOfPlainName(p: Path, name: string, ext: string)
    requires IsComponent(name) && '.' !in name && ext != []
    ensures SetExtension(PushRelative(p, name), ext) == Push(p, name + "." + ext)
  {
    PushRelativeComponent(p, name);
    var q := Push(p, name);
    assert q.parts[|q.parts| - 1] == name && q.parts[..|q.parts| - 1] == p.parts;
    SetExtensionOfLast(q, ext);
  }

  /**
   * Pushing an empty name and then setting the extension renames the last
   * component of the path itself, since its file name is still that one.
   */
  lemma SetExtensionOfEmptyName(p: Path, ext: string)
    requires p.parts != [] && '.' !in p.parts[|p.parts| - 1] && ext != []
    ensures SetExtension(PushRelative(p, ""), ext)
            == Path(p.root, p.parts[..|p.parts| - 1] + [p.parts[|p.parts| - 1] + "." + ext])
  {
    PushRelativeEmpty(p);
    SetExtensionOfLast(p, ext);
  }

  /**
   * A name with separators, such as `sub\foo`, is pushed as its components,
   * and the extension goes on the last of them.
   */
  lemma SetExtensionOfRelative(p: Path, rel: string, ext: string)
    requires SplitComponents(rel) != [] && '.' !in SplitComponents(rel)[|SplitComponents(rel)| - 1] && ext != []
    ensures var cs := SplitComponents(rel);
      SetExtension(PushRelative(p, rel), ext) == Path(p.root, p.parts + cs[..|cs| - 1] + [cs[|cs| - 1] + "." + ext])
  {
    var cs := SplitComponents(rel);
    var q := PushRelative(p, rel);
    assert q.parts == p.parts + cs;
    assert q.parts[..|q.parts| - 1] == p.parts + cs[..|cs| - 1];
    SetExtensionOfLast(q, ext);
  }

  lemma {:induction false} SplitJoin(parts: seq<string>)
    requires forall k :: 0 <= k < |parts| ==> IsComponent(parts[k])
    ensures SplitComponents(Join(parts, "\\")) == parts
  {
    if |parts| == 1 {
      assert SeparatorIndex(parts[0]).None?;
    } else if |parts| > 1 {
      var s := Join(parts, "\\");
      var tail := Join(parts[1..], "\\");
      assert s == parts[0] + "\\" + tail;
      assert s[..|parts[0]|] == parts[0];
      assert SeparatorIndex(s) == Some(|parts[0]|) by {
        assert IsSeparator(s[|parts[0]|]);
        assert forall k :: 0 <= k < |parts[0]| ==> s[k] == parts[0][k];
      }
      assert s[|parts[0]| + 1..] == tail;
      SplitJoin(parts[1..]);
    }
  }

  /** Displaying a well-formed path and reading the text back gives the same path. */
  lemma ParseDisplay(p: Path)
    requires WellFormed(p)
    ensures ParsePath(Display(p)) == p
  {
    SplitJoin(p.parts);
    JoinHead(p.parts);
    if p.root == [] {
      ParseDisplayRelative(p);
    } else if p.root == "\\" {
      ParseDisplaySeparator(p);
    } else if |p.root| == 2 {
      ParseDisplayDrive(p);
    } else {
      ParseDisplayDriveSeparator(p);
    }
  }

  lemma ParseDisplayRelative(p: Path)
    requires WellFormed(p) && p.root == [] && SplitComponents(Join(p.parts, "\\")) == p.parts
    requires p.parts != [] ==> StartsWith(Join(p.parts, "\\"), p.parts[0])
    requires p.parts != [] && |p.parts[0]| == 1 && |p.parts| > 1 ==> Join(p.parts, "\\")[1] == '\\'
    ensures ParsePath(Display(p)) == p
  {
    assert Display(p) == Join(p.parts, "\\");
  }

  lemma ParseDisplaySeparator(p: Path)
    requires WellFormed(p) && p.root == "\\" && SplitComponents(Join(p.parts, "\\")) == p.parts
    ensures ParsePath(Display(p)) == p
  {
    var s := Display(p);
    assert s[1..] == Join(p.parts, "\\");
  }

  lemma ParseDisplayDrive(p: Path)
    requires WellFormed(p) && HasDrivePrefix(p.root) && |p.root| == 2
    requires SplitComponents(Join(p.parts, "\\")) == p.parts
    requires p.parts != [] && |p.parts[0]| == 1 && |p.parts| > 1 ==> Join(p.parts, "\\")[1] == '\\'
    requires p.parts != [] ==> StartsWith(Join(p.parts, "\\"), p.parts[0])
    ensures ParsePath(Display(p)) == p
  {
    var s := Display(p);
    assert s[..2] == p.root && s[2..] == Join(p.parts, "\\");
  }

  lemma ParseDisplayDriveSeparator(p: Path)
    requires WellFormed(p) && HasDrivePrefix(p.root) && |p.root| == 3 && p.root[2] == '\\'
    requires SplitComponents(Join(p.parts, "\\")) == p.parts
    ensures ParsePath(Display(p)) == p
  {
    var s := Display(p);
    assert s[..2] == p.root[..2] && s[2..] == "\\" + Join(p.parts, "\\");
    assert s[2..][1..] == Join(p.parts, "\\");
  }

  /** The joined text starts with the first component. */
  lemma JoinHead(parts: seq<string>)
    requires forall k :: 0 <= k < |parts| ==> IsComponent(parts[k])
    ensures parts == [] ==> Join(parts, "\\") == []
    ensures parts != [] ==> StartsWith(Join(parts, "\\"), parts[0])
    ensures parts != [] && |parts[0]| == 1 && |parts| > 1 ==> Join(parts, "\\")[1] == '\\'
  {
  }
}
