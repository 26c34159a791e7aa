/**
 * The `vcpkg` build-helper crate: a `Config` builder whose `probe` looks a
 * library up in a vcpkg tree and returns the link and include paths and the
 * `cargo:` directives for it.
 *
 * The process environment and the file system are snapshot inputs: `Env`
 * maps each set variable to its value, and `FileSystem` says which paths
 * exist and which files can be opened, with the lines each one reads as
 * (`None` for a line that fails to read).
 */
module Vcpkg {
  import opened Wrappers
  import opened Strings
  import opened Paths

  type Env = map<string, string>

  datatype FileSystem = FileSystem(present: set<Path>, texts: map<Path, seq<Option<string>>>)

  /** The failures of a probe; the detail strings are the ones the crate builds. */
  datatype Error =
    | EnvNoPkgConfig(name: string)
    | NotMSVC
    | VcpkgNotFound(detail: string)
    | LibNotFound(detail: string)

  datatype MSVCTarget = X86 | X64

  /** The stems of the `.lib` and the `.dll` that one required library consists of. */
  datatype LibNames = Names(libStem: string, dllStem: string)

  datatype Library = Library(
    linkPaths: seq<Path>,
    includePaths: seq<Path>,
    cargoMetadata: seq<string>,
    isStatic: bool,
    foundDlls: seq<Path>,
    foundLibs: seq<Path>)

  /** `Library::new` */
  function NewLibrary(isStatic: bool): (l: Library)
    ensures l.isStatic == isStatic
    ensures l.linkPaths == [] && l.includePaths == [] && l.cargoMetadata == []
    ensures l.foundDlls == [] && l.foundLibs == []
  {
    Library([], [], [], isStatic, [], [])
  }

  /** `Display for MSVCTarget`: the vcpkg triplet of the architecture. */
  function TargetName(t: MSVCTarget): (s: string)
    ensures |s| == 11 && s[3..] == "-windows"
    ensures s[..3] == (if t == X64 then "x64" else "x86")
  {
    match t
    case X86 => "x86-windows"
    case X64 => "x64-windows"
  }

  /** The installed-tree directory name: the triplet, with `-static` for static linkage. */
  function Triple(t: MSVCTarget, isStatic: bool): string {
    TargetName(t) + (if isStatic then "-static" else "")
  }

  /** Different architectures or linkages never share an installed-tree directory. */
  lemma TripleInjective(t: MSVCTarget, s: bool, t': MSVCTarget, s': bool)
    requires Triple(t, s) == Triple(t', s')
    ensures t == t' && s == s'
  {
    var a, b := Triple(t, s), Triple(t', s');
    assert a[..3] == TargetName(t)[..3] && b[..3] == TargetName(t')[..3];
    assert |a| == |b|;
  }

  // ---------------------------------------------------------------------------
  // Environment variables

  function AsciiUpper(c: char): char {
    if 'a' <= c <= 'z' then (c as int - 32) as char else c
  }

  /** One character of `envify`: ASCII upper case, then `-` becomes `_`. */
  function EnvChar(c: char): (r: char)
    ensures 'a' <= c <= 'z' ==> r as int == c as int - 32
    ensures c == '-' ==> r == '_'
    ensures !('a' <= c <= 'z') && c != '-' ==> r == c
  {
    var u := AsciiUpper(c);
    if u == '-' then '_' else u
  }

  /** `envify`: the form of a package name used in environment variable names. */
  function Envify(name: string): (r: string)
    ensures |r| == |name|
    ensures forall k :: 0 <= k < |name| ==> r[k] == EnvChar(name[k])
  {
    if name == [] then [] else [EnvChar(name[0])] + Envify(name[1..])
  }

  /** An envified name has no lower-case ASCII letter and no `-`, so envifying it again changes nothing. */
  lemma EnvifyIdempotent(name: string)
    ensures forall k :: 0 <= k < |Envify(name)| ==> !('a' <= Envify(name)[k] <= 'z') && Envify(name)[k] != '-'
    ensures Envify(Envify(name)) == Envify(name)
  {
    var e := Envify(name);
    assert forall k :: 0 <= k < |e| ==> EnvChar(e[k]) == e[k];
  }

  /**
   * `infer_static`: the first of `NAME_STATIC`, `NAME_DYNAMIC`,
   * `VCPKG_ALL_STATIC`, `VCPKG_ALL_DYNAMIC` that is set decides; when none
   * is set the library is linked dynamically.
   */
  function InferStatic(name: string, env: Env): (r: bool)
    ensures r <==> (Envify(name) + "_STATIC" in env
                    || (Envify(name) + "_DYNAMIC" !in env && "VCPKG_ALL_STATIC" in env))
  {
    var n := Envify(name);
    if n + "_STATIC" in env then true
    else if n + "_DYNAMIC" in env then false
    else if "VCPKG_ALL_STATIC" in env then true
    else if "VCPKG_ALL_DYNAMIC" in env then false
    else false
  }

  /** `VCPKG_ALL_DYNAMIC` asks for what is the default anyway: it never changes the choice. */
  lemma AllDynamicIsDefault(name: string, env: Env)
    ensures InferStatic(name, env) == InferStatic(name, env - {"VCPKG_ALL_DYNAMIC"})
  {
    var n := Envify(name);
    assert |n + "_STATIC"| != 17 || (n + "_STATIC")[14] != "VCPKG_ALL_DYNAMIC"[14];
    if n + "_DYNAMIC" == "VCPKG_ALL_DYNAMIC" {
      assert n == (n + "_DYNAMIC")[..|n|] == "VCPKG_ALL";
      assert n + "_STATIC" == "VCPKG_ALL_STATIC";
    }
  }

  /** `Config::is_static` on its `statik` field: an explicit choice wins over the environment. */
  function ChooseStatic(statik: Option<bool>, name: string, env: Env): (r: bool)
    ensures statik.Some? ==> r == statik.value
    ensures statik.None? ==> (r <==> (Envify(name) + "_STATIC" in env
                                      || (Envify(name) + "_DYNAMIC" !in env && "VCPKG_ALL_STATIC" in env)))
  {
    statik.GetOr(InferStatic(name, env))
  }

  /** `msvc_target`: only MSVC targets are served; `x86_64-` ones are 64 bit, all others 32 bit. */
  function MsvcTarget(env: Env): (r: Result<MSVCTarget, Error>)
    ensures var t := if "TARGET" in env then env["TARGET"] else "";
      && (r.Err? <==> forall j :: !OccursAt(t, "-pc-windows-msvc", j))
      && (r.Err? ==> r.error == NotMSVC)
      && (r == Ok(X64) <==> (exists j :: OccursAt(t, "-pc-windows-msvc", j)) && StartsWith(t, "x86_64-"))
  {
    var target := if "TARGET" in env then env["TARGET"] else "";
    if IndexOfSub(target, "-pc-windows-msvc").None? then Err(NotMSVC)
    else if StartsWith(target, "x86_64-") then Ok(X64)
    else Ok(X86)
  }

  // ---------------------------------------------------------------------------
  // Locating the vcpkg tree

  const ProjectAttr: string := "Project=\""
  const UserTargetsMissing: string :=
    "No vcpkg.user.targets found. run 'vcpkg integrate install' or set VCPKG_ROOT environment variable."

  /** `%LOCALAPPDATA%\vcpkg\vcpkg.user.targets`, written by `vcpkg integrate install`. */
  function UserTargetsPath(localAppData: string): (p: Path)
    ensures p.root == ParsePath(localAppData).root
    ensures p.parts == ParsePath(localAppData).parts + ["vcpkg", "vcpkg.user.targets"]
  {
    Push(Push(ParsePath(localAppData), "vcpkg"), "vcpkg.user.targets")
  }

  /**
   * `f` is the location at the start of `rest`: a quote-free prefix in which
   * no `Project="` starts, ended by the end of the text, by a quote, or by
   * the next `Project="`.
   */
  predicate IsLocationPrefix(rest: string, f: string) {
    && StartsWith(rest, f) && '"' !in f
    && (forall j: nat :: j < |f| ==> !OccursAt(rest, ProjectAttr, j))
    && (|f| == |rest| || rest[|f|] == '"' || OccursAt(rest, ProjectAttr, |f|))
  }

  /**
   * What one targets-file line says about the project location: the text
   * after the first `Project="`, cut at the next `Project="` and then at the
   * first `"`. A line that ends right after `Project="` (or has a second one
   * directly after it) says nothing, because `split_terminator` yields no
   * piece for an empty text.
   */
  function ProjectLocation(line: string): (r: Option<string>)
    ensures IndexOfSub(line, ProjectAttr).None? ==> r.None?
    ensures IndexOfSub(line, ProjectAttr).Some? ==>
      var k := IndexOfSub(line, ProjectAttr).value + |ProjectAttr|;
      && k <= |line|
      && (r.None? <==> line[k..] == [] || OccursAt(line[k..], ProjectAttr, 0))
      && (r.Some? ==> IsLocationPrefix(line[k..], r.value))
  {
    match IndexOfSub(line, ProjectAttr)
    case None => None
    case Some(i) => LocationAfter(line[i + |ProjectAttr|..])
  }

  /**
   * The location in the text after a `Project="`: none when that text is
   * empty or starts with another `Project="`, else the one location prefix.
   */
  function LocationAfter(rest: string): (r: Option<string>)
    ensures r.None? <==> rest == [] || OccursAt(rest, ProjectAttr, 0)
    ensures r.Some? ==> IsLocationPrefix(rest, r.value)
  {
    var piece := match IndexOfSub(rest, ProjectAttr)
      case None => rest
      case Some(j) => rest[..j];
    if piece == [] then None
    else match IndexOf(piece, '"')
      case None => Some(piece)
      case Some(q) => Some(piece[..q])
  }

  /** A text has at most one location prefix. */
  lemma LocationPrefixUnique(rest: string, f: string, g: string)
    requires IsLocationPrefix(rest, f) && IsLocationPrefix(rest, g)
    ensures f == g
  {
    assert |f| == |g|;
  }

  /**
   * A line `a + Project="f" + c` names `f` when its first `Project="` is the
   * one after `a`, `f` holds no quote and `f` does not end in `Project=`.
   */
  lemma ProjectLocationOf(a: string, f: string, c: string)
    requires AttrFirstAfter(a)
    requires '"' !in f
    requires |f| < 8 || f[|f| - 8..] != "Project="
    ensures ProjectLocation(a + ProjectAttr + f + "\"" + c) == Some(f)
  {
    var rest := f + "\"" + c;
    FirstAttrAfter(a, rest);
    var line := a + ProjectAttr + rest;
    assert line == a + ProjectAttr + f + "\"" + c;
    assert line[|a| + |ProjectAttr|..] == rest;
    LocationAfterOf(f, c);
  }

  /** After a prefix in which no `Project="` starts, the first one is the one that follows it. */
  lemma FirstAttrAfter(a: string, rest: string)
    requires AttrFirstAfter(a)
    ensures IndexOfSub(a + ProjectAttr + rest, ProjectAttr) == Some(|a|)
  {
    var line := a + ProjectAttr + rest;
    assert line[..|a| + 9] == a + ProjectAttr;
    assert OccursAt(line, ProjectAttr, |a|) by {
      assert line[|a|..|a| + 9] == ProjectAttr;
    }
    forall j: nat | j < |a| ensures !OccursAt(line, ProjectAttr, j) {
      assert !OccursAt(a + ProjectAttr, ProjectAttr, j);
      OccursInPrefix(a + ProjectAttr, rest, j);
    }
    IndexOfSubFirst(line, ProjectAttr, |a|);
  }

  lemma LocationAfterOf(f: string, c: string)
    requires '"' !in f
    requires |f| < 8 || f[|f| - 8..] != "Project="
    ensures LocationAfter(f + "\"" + c) == Some(f)
  {
    var rest := f + "\"" + c;
    forall j: nat | j <= |f| ensures !OccursAt(rest, ProjectAttr, j) {
      NoAttrInside(rest, f, j);
    }
    assert rest[..|f|] == f && rest[|f|] == '"';
    assert IsLocationPrefix(rest, f);
    LocationPrefixUnique(rest, f, LocationAfter(rest).value);
  }

  /** An occurrence of `Project="` that starts early enough lies in the prefix. */
  lemma OccursInPrefix(p: string, q: string, j: nat)
    requires j + 9 <= |p| && |ProjectAttr| == 9
    ensures OccursAt(p + q, ProjectAttr, j) <==> OccursAt(p, ProjectAttr, j)
  {
    assert (p + q)[j..j + 9] == p[j..j + 9];
  }

  /** No `Project="` starts inside `a`, not even one running on into the `Project="` after it. */
  predicate AttrFirstAfter(a: string) {
    forall j: nat :: j < |a| ==> !OccursAt(a + ProjectAttr, ProjectAttr, j)
  }

  /** In a quote-free text followed by `Project="`, the first `Project="` is that one. */
  lemma QuoteFreePrefix(a: string)
    requires '"' !in a
    ensures AttrFirstAfter(a)
  {
    forall j: nat | j < |a| ensures !OccursAt(a + ProjectAttr, ProjectAttr, j) {
      NoAttrBefore(a, j);
    }
  }

  lemma NoAttrBefore(a: string, j: nat)
    requires '"' !in a && j < |a|
    ensures !OccursAt(a + ProjectAttr, ProjectAttr, j)
  {
    var line := a + ProjectAttr;
    if j + 8 < |a| {
      assert line[j..j + 9][8] == line[j + 8] == a[j + 8];
    } else {
      assert line[j..j + 9][8] == line[j + 8] == ProjectAttr[j + 8 - |a|];
    }
  }

  /** No `Project="` starts inside `f + "` when `f` has no quote and does not end in `Project=`. */
  lemma NoAttrInside(rest: string, f: string, j: nat)
    requires '"' !in f && (|f| < 8 || f[|f| - 8..] != "Project=")
    requires j <= |f| && StartsWith(rest, f + "\"")
    ensures !OccursAt(rest, ProjectAttr, j)
  {
    if j + 9 <= |rest| {
      assert rest[..|f| + 1] == f + "\"";
      if j + 8 < |f| {
        NoAttrInsideQuoteFree(rest, f, j);
      } else if j + 8 == |f| {
        NoAttrInsideEnd(rest, f, j);
      } else {
        assert rest[j..j + 9][|f| - j] == rest[|f|] == '"';
      }
    }
  }

  lemma NoAttrInsideQuoteFree(rest: string, f: string, j: nat)
    requires '"' !in f && j + 8 < |f| && StartsWith(rest, f + "\"")
    ensures !OccursAt(rest, ProjectAttr, j)
  {
    assert rest[..|f| + 1] == f + "\"";
    assert rest[j + 8] == f[j + 8];
    assert rest[j..j + 9][8] == rest[j + 8];
  }

  lemma NoAttrInsideEnd(rest: string, f: string, j: nat)
    requires |f| >= 8 && f[|f| - 8..] != "Project=" && j + 8 == |f| && StartsWith(rest, f + "\"")
    ensures !OccursAt(rest, ProjectAttr, j)
  {
    assert rest[..|f| + 1] == f + "\"";
    assert rest[j..j + 8] == f[|f| - 8..];
    assert rest[j..j + 9][..8] == rest[j..j + 8];
  }

  /** The root four components above the project location, as the four `pop` calls give it. */
  function RootAbove(found: string): (r: Result<Path, Error>)
    ensures r.Ok? <==> |ParsePath(found).parts| >= 4
    ensures r.Ok? ==> r.value.root == ParsePath(found).root
    ensures r.Ok? ==> r.value.parts == ParsePath(found).parts[..|ParsePath(found).parts| - 4]
    ensures r.Err? ==> r.error == VcpkgNotFound("Could not find vcpkg root above " + found)
  {
    PopNSucceedsIff(ParsePath(found), 4);
    match PopN(ParsePath(found), 4)
    case None => Err(VcpkgNotFound("Could not find vcpkg root above " + found))
    case Some(p) => Ok(p)
  }

  /** The scan of the targets file: the first line that names a project location decides. */
  function RootFromLines(lines: seq<Option<string>>, targets: Path): Result<Path, Error>
    decreases |lines|
  {
    if lines == [] then Err(VcpkgNotFound("Project location not found parsing " + Display(targets) + "."))
    else match lines[0]
      case None => Err(VcpkgNotFound("Parsing of " + Display(targets) + " failed."))
      case Some(line) =>
        match ProjectLocation(line)
        case None => RootFromLines(lines[1..], targets)
        case Some(found) => RootAbove(found)
  }

  /** Every line before `k` reads and names no project location. */
  predicate Undecided(lines: seq<Option<string>>, k: nat)
    requires k <= |lines|
  {
    forall j :: 0 <= j < k ==> lines[j].Some? && ProjectLocation(lines[j].value).None?
  }

  /** The line at `k` decides the scan when every line before it is undecided. */
  lemma {:induction false} RootFromDecidingLine(lines: seq<Option<string>>, targets: Path, k: nat)
    requires k < |lines| && Undecided(lines, k)
    requires lines[k].None? || ProjectLocation(lines[k].value).Some?
    ensures lines[k].None? ==>
      RootFromLines(lines, targets) == Err(VcpkgNotFound("Parsing of " + Display(targets) + " failed."))
    ensures lines[k].Some? ==>
      RootFromLines(lines, targets) == RootAbove(ProjectLocation(lines[k].value).value)
    decreases k
  {
    if k > 0 {
      assert lines[0].Some? && ProjectLocation(lines[0].value).None?;
      RootFromDecidingLine(lines[1..], targets, k - 1);
    }
  }

  /** A file none of whose lines names a project location yields no root. */
  lemma {:induction false} RootFromUndecidedLines(lines: seq<Option<string>>, targets: Path)
    requires Undecided(lines, |lines|)
    ensures RootFromLines(lines, targets) ==
      Err(VcpkgNotFound("Project location not found parsing " + Display(targets) + "."))
    decreases |lines|
  {
    if lines != [] {
      assert lines[0].Some? && ProjectLocation(lines[0].value).None?;
      RootFromUndecidedLines(lines[1..], targets);
    }
  }

  /** `find_vcpkg_root`: `VCPKG_ROOT` if set, else the tree `vcpkg integrate install` recorded. */
  function VcpkgRootFrom(env: Env, fs: FileSystem): (r: Result<Path, Error>)
    ensures "VCPKG_ROOT" in env ==> r == Ok(ParsePath(env["VCPKG_ROOT"]))
    ensures "VCPKG_ROOT" !in env && "LOCALAPPDATA" !in env ==>
      r == Err(VcpkgNotFound("Failed to read LOCALAPPDATA environment variable"))
    ensures "VCPKG_ROOT" !in env && "LOCALAPPDATA" in env && UserTargetsPath(env["LOCALAPPDATA"]) !in fs.texts ==>
      r == Err(VcpkgNotFound(UserTargetsMissing))
    ensures "VCPKG_ROOT" !in env ==> r.Err? ==> r.error.VcpkgNotFound?
  {
    if "VCPKG_ROOT" in env then Ok(ParsePath(env["VCPKG_ROOT"]))
    else if "LOCALAPPDATA" !in env then Err(VcpkgNotFound("Failed to read LOCALAPPDATA environment variable"))
    else
      var targets := UserTargetsPath(env["LOCALAPPDATA"]);
      if targets !in fs.texts then Err(VcpkgNotFound(UserTargetsMissing))
      else
        RootFromLinesErrors(fs.texts[targets], targets);
        RootFromLines(fs.texts[targets], targets)
  }

  /** Every failure of the scan is a `VcpkgNotFound`. */
  lemma {:induction false} RootFromLinesErrors(lines: seq<Option<string>>, targets: Path)
    ensures RootFromLines(lines, targets).Err? ==> RootFromLines(lines, targets).error.VcpkgNotFound?
    decreases |lines|
  {
    if lines != [] && lines[0].Some? && ProjectLocation(lines[0].value).None? {
      RootFromLinesErrors(lines[1..], targets);
    }
  }

  /** Where `vcpkg integrate install` points msbuild: `scripts\buildsystems\msbuild\vcpkg.targets` in the tree. */
  function IntegrationTargets(root: Path): (p: Path)
    ensures p.root == root.root && |p.parts| == |root.parts| + 4
  {
    Path(root.root, root.parts + ["scripts", "buildsystems", "msbuild", "vcpkg.targets"])
  }

  /**
   * Without `VCPKG_ROOT`, the tree whose `vcpkg.targets` the user targets
   * file names on its first deciding line is the root found.
   */
  lemma IntegratedRootRecovered(env: Env, fs: FileSystem, root: Path, k: nat, a: string, c: string)
    requires "VCPKG_ROOT" !in env && "LOCALAPPDATA" in env
    requires UserTargetsPath(env["LOCALAPPDATA"]) in fs.texts
    requires var lines := fs.texts[UserTargetsPath(env["LOCALAPPDATA"])];
      k < |lines| && Undecided(lines, k)
      && lines[k] == Some(a + ProjectAttr + Display(IntegrationTargets(root)) + "\"" + c)
    requires AttrFirstAfter(a)
    requires WellFormed(root) && forall i :: 0 <= i < |root.parts| ==> '"' !in root.parts[i]
    ensures VcpkgRootFrom(env, fs) == Ok(root)
  {
    var f := Display(IntegrationTargets(root));
    IntegrationTargetsText(root);
    ProjectLocationOf(a, f, c);
    RootFromDecidingLine(fs.texts[UserTargetsPath(env["LOCALAPPDATA"])], UserTargetsPath(env["LOCALAPPDATA"]), k);
    IntegrationTargetsRoot(root);
  }

  /** The displayed targets path has no quote and ends in `vcpkg.targets`. */
  lemma IntegrationTargetsText(root: Path)
    requires forall i :: 0 <= i < |root.parts| ==> '"' !in root.parts[i]
    requires IsRoot(root.root)
    ensures var f := Display(IntegrationTargets(root));
      '"' !in f && |f| >= 8 && f[|f| - 8..] != "Project="
  {
    var loc := IntegrationTargets(root);
    var f := Display(loc);
    assert forall i :: 0 <= i < |loc.parts| ==> '"' !in loc.parts[i] by {
      forall i | 0 <= i < |loc.parts| ensures '"' !in loc.parts[i] {
        if i >= |root.parts| {
          assert loc.parts[i] in ["scripts", "buildsystems", "msbuild", "vcpkg.targets"];
        } else {
          assert loc.parts[i] == root.parts[i];
        }
      }
    }
    JoinExcludes(loc.parts, "\\", '"');
    JoinEndsWith(loc.parts, "\\");
    var j := Join(loc.parts, "\\");
    assert f[|f| - 8..] == j[|j| - 8..];
    assert j[|j| - 8..] == "vcpkg.targets"[5..];
  }

  /** Four `pop`s of the parsed targets path give back the tree. */
  lemma IntegrationTargetsRoot(root: Path)
    requires WellFormed(root)
    ensures RootAbove(Display(IntegrationTargets(root))) == Ok(root)
  {
    var loc := IntegrationTargets(root);
    assert forall i :: 0 <= i < |loc.parts| ==> IsComponent(loc.parts[i]) by {
      forall i | 0 <= i < |loc.parts| ensures IsComponent(loc.parts[i]) {
        if i < |root.parts| {
          assert loc.parts[i] == root.parts[i];
        }
      }
    }
    ParseDisplay(loc);
    assert loc.parts[..|loc.parts| - 4] == root.parts;
  }

  /** `find_vcpkg_root`, reading the targets file line by line. */
  method FindVcpkgRoot(env: Env, fs: FileSystem) returns (r: Result<Path, Error>)
    ensures r == VcpkgRootFrom(env, fs)
  {
    if "VCPKG_ROOT" in env {
      return Ok(ParsePath(env["VCPKG_ROOT"]));
    }
    if "LOCALAPPDATA" !in env {
      return Err(VcpkgNotFound("Failed to read LOCALAPPDATA environment variable"));
    }
    var targets := UserTargetsPath(env["LOCALAPPDATA"]);
    if targets !in fs.texts {
      return Err(VcpkgNotFound(UserTargetsMissing));
    }
    var lines := fs.texts[targets];
    for i := 0 to |lines|
      invariant RootFromLines(lines[i..], targets) == RootFromLines(lines, targets)
    {
      assert lines[i..][1..] == lines[i + 1..];
      if lines[i].None? {
        return Err(VcpkgNotFound("Parsing of " + Display(targets) + " failed."));
      }
      var found := ProjectLocation(lines[i].value);
      if found.Some? {
        var root := PopN(ParsePath(found.value), 4);
        if root.None? {
          return Err(VcpkgNotFound("Could not find vcpkg root above " + found.value));
        }
        return Ok(root.value);
      }
    }
    return Err(VcpkgNotFound("Project location not found parsing " + Display(targets) + "."));
  }

  /** `validate_vcpkg_root`: a vcpkg tree is recognised by its `.vcpkg-root` marker file. */
  function ValidateVcpkgRoot(root: Path, fs: FileSystem): (r: Result<(), Error>)
    ensures r.Ok? <==> Push(root, ".vcpkg-root") in fs.present
    ensures r.Err? ==> r.error == VcpkgNotFound("Could not find vcpkg root at " + Display(Push(root, ".vcpkg-root")))
  {
    var marker := Push(root, ".vcpkg-root");
    if marker in fs.present then Ok(())
    else Err(VcpkgNotFound("Could not find vcpkg root at " + Display(marker)))
  }

  // ---------------------------------------------------------------------------
  // The probe

  /** The variable whose presence turns the probe for `port` off. */
  function AbortVarName(port: string): (v: string)
    ensures v == Envify(port) + "_NO_VCPKG"
  {
    Envify(port) + "_NO_VCPKG"
  }

  /**
   * The abort variable is the port's own: it depends only on the envified
   * name and is never one of the variables that choose the linkage, so
   * setting it changes nothing but the abort.
   */
  lemma AbortVarSeparate(port: string, statik: Option<bool>, env: Env)
    ensures AbortVarName(Envify(port)) == AbortVarName(port)
    ensures ChooseStatic(statik, port, env - {AbortVarName(port)}) == ChooseStatic(statik, port, env)
  {
    EnvifyIdempotent(port);
    var v := AbortVarName(port);
    var e := Envify(port);
    assert v != e + "_STATIC" && v != e + "_DYNAMIC" by {
      assert |v| != |e + "_STATIC"| && |v| != |e + "_DYNAMIC"|;
    }
    assert v != "VCPKG_ALL_STATIC" by {
      assert v[|v| - 1] == 'G';
    }
  }

  /** The names `probe` looks for: the configured ones, or the port name for both stems. */
  function DefaultLibs(libs: seq<LibNames>, port: string): (r: seq<LibNames>)
    ensures r != []
    ensures libs != [] ==> r == libs
    ensures libs == [] ==> r == [Names(port, port)]
  {
    if libs == [] then [Names(port, port)] else libs
  }

  /**
   * Defaulting is done once: the names filled in for one port stay in place
   * when another port is probed with the same configuration.
   */
  lemma DefaultLibsSticky(libs: seq<LibNames>, port: string, other: string)
    ensures DefaultLibs(DefaultLibs(libs, port), other) == DefaultLibs(libs, port)
    ensures libs == [] ==> forall k :: 0 <= k < |DefaultLibs(libs, port)| ==>
      DefaultLibs(libs, port)[k].libStem == port && DefaultLibs(libs, port)[k].dllStem == port
  {
  }

  /** `installed/<triplet>[-static]` under the root. */
  function BaseDir(root: Path, arch: MSVCTarget, isStatic: bool): (p: Path)
    ensures p.root == root.root && p.parts == root.parts + ["installed", Triple(arch, isStatic)]
  {
    Push(Push(root, "installed"), Triple(arch, isStatic))
  }

  function LinkSearch(dir: Path): string {
    "cargo:rustc-link-search=native=" + Display(dir)
  }

  function LinkLib(stem: string, isStatic: bool): string {
    (if isStatic then "cargo:rustc-link-lib=static=" else "cargo:rustc-link-lib=") + stem
  }

  function LibLocation(libPath: Path, n: LibNames): Path {
    SetExtension(PushRelative(libPath, n.libStem), "lib")
  }

  function DllLocation(binPath: Path, n: LibNames): Path {
    SetExtension(PushRelative(binPath, n.dllStem), "dll")
  }

  /** The library before any required lib is checked: the two search paths and the include path. */
  function StartLibrary(base: Path, isStatic: bool): (l: Library)
    ensures l.isStatic == isStatic && l.foundDlls == [] && l.foundLibs == []
    ensures l.linkPaths == [Push(base, "lib")] && l.includePaths == [Push(base, "include")]
    ensures l.cargoMetadata ==
      [LinkSearch(Push(base, "lib"))] + (if isStatic then [] else [LinkSearch(Push(base, "bin"))])
  {
    var lib := NewLibrary(isStatic);
    var metadata := [LinkSearch(Push(base, "lib"))] + (if isStatic then [] else [LinkSearch(Push(base, "bin"))]);
    lib.(cargoMetadata := metadata, includePaths := [Push(base, "include")], linkPaths := [Push(base, "lib")])
  }

  /**
   * The loop over the required libs: each adds its link directive and must
   * have its `.lib`, and, when linking dynamically, its `.dll`.
   */
  function CheckLibs(lib: Library, libs: seq<LibNames>, libPath: Path, binPath: Path, isStatic: bool, fs: FileSystem)
    : Result<Library, Error>
    decreases |libs|
  {
    if libs == [] then Ok(lib)
    else
      var lib1 := lib.(cargoMetadata := lib.cargoMetadata + [LinkLib(libs[0].libStem, isStatic)]);
      var libLoc := LibLocation(libPath, libs[0]);
      if libLoc !in fs.present then Err(LibNotFound(Display(libLoc)))
      else
        var lib2 := lib1.(foundLibs := lib1.foundLibs + [libLoc]);
        if isStatic then CheckLibs(lib2, libs[1..], libPath, binPath, isStatic, fs)
        else
          var dllLoc := DllLocation(binPath, libs[0]);
          if dllLoc !in fs.present then Err(LibNotFound(Display(dllLoc)))
          else CheckLibs(lib2.(foundDlls := lib2.foundDlls + [dllLoc]), libs[1..], libPath, binPath, isStatic, fs)
  }

  /** Both artifacts of one required lib are present; its `.dll` only matters for dynamic linkage. */
  predicate Complete(n: LibNames, libPath: Path, binPath: Path, isStatic: bool, fs: FileSystem) {
    LibLocation(libPath, n) in fs.present && (isStatic || DllLocation(binPath, n) in fs.present)
  }

  predicate AllPresent(libs: seq<LibNames>, libPath: Path, binPath: Path, isStatic: bool, fs: FileSystem) {
    forall k :: 0 <= k < |libs| ==> Complete(libs[k], libPath, binPath, isStatic, fs)
  }

  /** The link directives of the required libs, in order. */
  function LinkLibs(libs: seq<LibNames>, isStatic: bool): (r: seq<string>)
    ensures |r| == |libs|
  {
    if libs == [] then [] else [LinkLib(libs[0].libStem, isStatic)] + LinkLibs(libs[1..], isStatic)
  }

  function LibLocations(libs: seq<LibNames>, libPath: Path): (r: seq<Path>)
    ensures |r| == |libs|
  {
    if libs == [] then [] else [LibLocation(libPath, libs[0])] + LibLocations(libs[1..], libPath)
  }

  function DllLocations(libs: seq<LibNames>, binPath: Path): (r: seq<Path>)
    ensures |r| == |libs|
  {
    if libs == [] then [] else [DllLocation(binPath, libs[0])] + DllLocations(libs[1..], binPath)
  }

  /** The check succeeds exactly when every artifact is present. */
  lemma {:induction false} CheckLibsSucceedsIff(lib: Library, libs: seq<LibNames>, libPath: Path, binPath: Path,
                                                isStatic: bool, fs: FileSystem)
    ensures CheckLibs(lib, libs, libPath, binPath, isStatic, fs).Ok? <==> AllPresent(libs, libPath, binPath, isStatic, fs)
    decreases |libs|
  {
    if libs != [] {
      AllPresentTail(libs, libPath, binPath, isStatic, fs);
      if Complete(libs[0], libPath, binPath, isStatic, fs) {
        CheckLibsUnfold(lib, libs, libPath, binPath, isStatic, fs);
        CheckLibsSucceedsIff(CheckLibsStep(lib, libs[0], libPath, binPath, isStatic), libs[1..],
                             libPath, binPath, isStatic, fs);
      }
    }
  }

  lemma AllPresentTail(libs: seq<LibNames>, libPath: Path, binPath: Path, isStatic: bool, fs: FileSystem)
    requires libs != []
    ensures AllPresent(libs, libPath, binPath, isStatic, fs) <==>
      Complete(libs[0], libPath, binPath, isStatic, fs) && AllPresent(libs[1..], libPath, binPath, isStatic, fs)
  {
    assert forall k :: 0 < k < |libs| ==> libs[k] == libs[1..][k - 1];
  }

  /** A successful check adds one link directive, one `.lib` and (dynamic only) one `.dll` per lib, in order. */
  lemma {:induction false} CheckLibsValue(lib: Library, libs: seq<LibNames>, libPath: Path, binPath: Path,
                                          isStatic: bool, fs: FileSystem)
    requires CheckLibs(lib, libs, libPath, binPath, isStatic, fs).Ok?
    ensures var r := CheckLibs(lib, libs, libPath, binPath, isStatic, fs).value;
      && r.linkPaths == lib.linkPaths && r.includePaths == lib.includePaths && r.isStatic == lib.isStatic
      && r.cargoMetadata == lib.cargoMetadata + LinkLibs(libs, isStatic)
      && r.foundLibs == lib.foundLibs + LibLocations(libs, libPath)
      && r.foundDlls == lib.foundDlls + (if isStatic then [] else DllLocations(libs, binPath))
    decreases |libs|
  {
    if libs == [] {
      assert lib.cargoMetadata + [] == lib.cargoMetadata;
      assert lib.foundLibs + [] == lib.foundLibs;
      assert lib.foundDlls + [] == lib.foundDlls;
    } else {
      var next := CheckLibsStep(lib, libs[0], libPath, binPath, isStatic);
      assert Complete(libs[0], libPath, binPath, isStatic, fs);
      CheckLibsUnfold(lib, libs, libPath, binPath, isStatic, fs);
      CheckLibsValue(next, libs[1..], libPath, binPath, isStatic, fs);
      AppendCons(lib.cargoMetadata, LinkLib(libs[0].libStem, isStatic), LinkLibs(libs[1..], isStatic));
      AppendCons(lib.foundLibs, LibLocation(libPath, libs[0]), LibLocations(libs[1..], libPath));
      if !isStatic {
        AppendCons(lib.foundDlls, DllLocation(binPath, libs[0]), DllLocations(libs[1..], binPath));
      } else {
        assert next.foundDlls == lib.foundDlls + [];
      }
    }
  }

  lemma AppendCons<T>(a: seq<T>, x: T, rest: seq<T>)
    ensures (a + [x]) + rest == a + ([x] + rest)
  {
  }

  /** What one complete lib adds to the library. */
  function CheckLibsStep(lib: Library, n: LibNames, libPath: Path, binPath: Path, isStatic: bool): Library {
    lib.(cargoMetadata := lib.cargoMetadata + [LinkLib(n.libStem, isStatic)],
         foundLibs := lib.foundLibs + [LibLocation(libPath, n)],
         foundDlls := lib.foundDlls + (if isStatic then [] else [DllLocation(binPath, n)]))
  }

  /** A complete first lib hands on to the rest. */
  lemma CheckLibsUnfold(lib: Library, libs: seq<LibNames>, libPath: Path, binPath: Path, isStatic: bool, fs: FileSystem)
    requires libs != [] && Complete(libs[0], libPath, binPath, isStatic, fs)
    ensures CheckLibs(lib, libs, libPath, binPath, isStatic, fs) ==
      CheckLibs(CheckLibsStep(lib, libs[0], libPath, binPath, isStatic), libs[1..], libPath, binPath, isStatic, fs)
  {
    if isStatic {
      assert lib.foundDlls + [] == lib.foundDlls;
    }
  }

  /**
   * The first missing artifact is the one reported: lib `k`'s `.lib` when it
   * is missing, else (dynamic only) its `.dll`, provided all earlier libs are
   * complete.
   */
  lemma {:induction false} CheckLibsFirstMissing(lib: Library, libs: seq<LibNames>, libPath: Path, binPath: Path,
                                                 isStatic: bool, fs: FileSystem, k: nat)
    requires k < |libs| && forall j :: 0 <= j < k ==> Complete(libs[j], libPath, binPath, isStatic, fs)
    requires !Complete(libs[k], libPath, binPath, isStatic, fs)
    ensures LibLocation(libPath, libs[k]) !in fs.present ==>
      CheckLibs(lib, libs, libPath, binPath, isStatic, fs) == Err(LibNotFound(Display(LibLocation(libPath, libs[k]))))
    ensures LibLocation(libPath, libs[k]) in fs.present ==>
      CheckLibs(lib, libs, libPath, binPath, isStatic, fs) == Err(LibNotFound(Display(DllLocation(binPath, libs[k]))))
    decreases k
  {
    if k == 0 {
      CheckLibsHeadMissing(lib, libs, libPath, binPath, isStatic, fs);
    } else {
      assert Complete(libs[0], libPath, binPath, isStatic, fs);
      CheckLibsUnfold(lib, libs, libPath, binPath, isStatic, fs);
      CompletePrefixTail(libs, libPath, binPath, isStatic, fs, k);
      CheckLibsFirstMissing(CheckLibsStep(lib, libs[0], libPath, binPath, isStatic), libs[1..],
                            libPath, binPath, isStatic, fs, k - 1);
    }
  }

  /** Dropping the first lib keeps the libs before `k` complete, shifted by one. */
  lemma CompletePrefixTail(libs: seq<LibNames>, libPath: Path, binPath: Path, isStatic: bool, fs: FileSystem, k: nat)
    requires 0 < k < |libs| && forall j :: 0 <= j < k ==> Complete(libs[j], libPath, binPath, isStatic, fs)
    ensures libs[1..][k - 1] == libs[k]
    ensures forall j :: 0 <= j < k - 1 ==> Complete(libs[1..][j], libPath, binPath, isStatic, fs)
  {
    forall j | 0 <= j < k - 1 ensures Complete(libs[1..][j], libPath, binPath, isStatic, fs) {
      assert libs[1..][j] == libs[j + 1];
    }
  }

  lemma CheckLibsHeadMissing(lib: Library, libs: seq<LibNames>, libPath: Path, binPath: Path,
                             isStatic: bool, fs: FileSystem)
    requires libs != [] && !Complete(libs[0], libPath, binPath, isStatic, fs)
    ensures LibLocation(libPath, libs[0]) !in fs.present ==>
      CheckLibs(lib, libs, libPath, binPath, isStatic, fs) == Err(LibNotFound(Display(LibLocation(libPath, libs[0]))))
    ensures LibLocation(libPath, libs[0]) in fs.present ==>
      CheckLibs(lib, libs, libPath, binPath, isStatic, fs) == Err(LibNotFound(Display(DllLocation(binPath, libs[0]))))
  {
  }

  /** `Config::probe` for the (already defaulted) required libs, as one value. */
  function ProbeResult(libs: seq<LibNames>, statik: Option<bool>, port: string, env: Env, fs: FileSystem)
    : Result<Library, Error>
  {
    var abort := AbortVarName(port);
    if abort in env then Err(EnvNoPkgConfig(abort))
    else
      var arch :- MsvcTarget(env);
      var root :- VcpkgRootFrom(env, fs);
      var valid :- ValidateVcpkgRoot(root, fs);
      var isStatic := ChooseStatic(statik, port, env);
      var base := BaseDir(root, arch, isStatic);
      CheckLibs(StartLibrary(base, isStatic), libs, Push(base, "lib"), Push(base, "bin"), isStatic, fs)
  }

  /**
   * The checks happen in a fixed order: the abort variable first, whatever
   * the target and the files; then the target; then the root lookup; then
   * the root marker.
   */
  lemma ProbeEarlyExits(libs: seq<LibNames>, statik: Option<bool>, port: string, env: Env, fs: FileSystem)
    ensures AbortVarName(port) in env ==>
      ProbeResult(libs, statik, port, env, fs) == Err(EnvNoPkgConfig(Envify(port) + "_NO_VCPKG"))
    ensures AbortVarName(port) !in env && MsvcTarget(env).Err? ==>
      ProbeResult(libs, statik, port, env, fs) == Err(NotMSVC)
    ensures AbortVarName(port) !in env && MsvcTarget(env).Ok? && VcpkgRootFrom(env, fs).Err? ==>
      ProbeResult(libs, statik, port, env, fs) == Err(VcpkgRootFrom(env, fs).error)
    ensures AbortVarName(port) !in env && MsvcTarget(env).Ok? && VcpkgRootFrom(env, fs).Ok?
            && Push(VcpkgRootFrom(env, fs).value, ".vcpkg-root") !in fs.present ==>
      ProbeResult(libs, statik, port, env, fs) ==
      Err(VcpkgNotFound("Could not find vcpkg root at " + Display(Push(VcpkgRootFrom(env, fs).value, ".vcpkg-root"))))
  {
  }

  /**
   * Once the early checks pass, the probe succeeds exactly when every
   * artifact is present, and then returns the `lib`, `bin` and `include`
   * directories of `installed/<arch>[-static]` and the directives in order.
   */
  lemma ProbeOutcome(libs: seq<LibNames>, statik: Option<bool>, port: string, env: Env, fs: FileSystem)
    requires AbortVarName(port) !in env && MsvcTarget(env).Ok? && VcpkgRootFrom(env, fs).Ok?
    ensures
      var root := VcpkgRootFrom(env, fs).value;
      var isStatic := ChooseStatic(statik, port, env);
      var base := BaseDir(root, MsvcTarget(env).value, isStatic);
      var libPath, binPath := Push(base, "lib"), Push(base, "bin");
      var r := ProbeResult(libs, statik, port, env, fs);
      && (r.Ok? <==> Push(root, ".vcpkg-root") in fs.present && AllPresent(libs, libPath, binPath, isStatic, fs))
      && (r.Ok? ==>
            && r.value.isStatic == isStatic
            && r.value.linkPaths == [libPath]
            && r.value.includePaths == [Push(base, "include")]
            && r.value.cargoMetadata ==
                 [LinkSearch(libPath)] + (if isStatic then [] else [LinkSearch(binPath)]) + LinkLibs(libs, isStatic)
            && r.value.foundLibs == LibLocations(libs, libPath)
            && r.value.foundDlls == (if isStatic then [] else DllLocations(libs, binPath))
            && |r.value.foundLibs| == |libs|
            && |r.value.foundDlls| == (if isStatic then 0 else |libs|))
  {
    var root := VcpkgRootFrom(env, fs).value;
    var isStatic := ChooseStatic(statik, port, env);
    var base := BaseDir(root, MsvcTarget(env).value, isStatic);
    var start := StartLibrary(base, isStatic);
    CheckLibsSucceedsIff(start, libs, Push(base, "lib"), Push(base, "bin"), isStatic, fs);
    if CheckLibs(start, libs, Push(base, "lib"), Push(base, "bin"), isStatic, fs).Ok? {
      CheckLibsValue(start, libs, Push(base, "lib"), Push(base, "bin"), isStatic, fs);
    }
  }

  // ---------------------------------------------------------------------------
  // The builder

  class Config {
    var statik: Option<bool>
    var cargoMetadata: bool
    var requiredLibs: seq<LibNames>

    /** `Config::new`: linkage from the environment, directives emitted, no lib names yet. */
    constructor()
      ensures statik == None && cargoMetadata && requiredLibs == []
    {
      statik := None;
      cargoMetadata := true;
      requiredLibs := [];
    }

    method Statik(b: bool)
      modifies this
      ensures statik == Some(b)
      ensures cargoMetadata == old(cargoMetadata) && requiredLibs == old(requiredLibs)
    {
      statik := Some(b);
    }

    method LibName(stem: string)
      modifies this
      ensures requiredLibs == old(requiredLibs) + [Names(stem, stem)]
      ensures statik == old(statik) && cargoMetadata == old(cargoMetadata)
    {
      requiredLibs := requiredLibs + [Names(stem, stem)];
    }

    method LibNames(libStem: string, dllStem: string)
      modifies this
      ensures requiredLibs == old(requiredLibs) + [Names(libStem, dllStem)]
      ensures statik == old(statik) && cargoMetadata == old(cargoMetadata)
    {
      requiredLibs := requiredLibs + [Names(libStem, dllStem)];
    }

    method CargoMetadata(b: bool)
      modifies this
      ensures cargoMetadata == b
      ensures statik == old(statik) && requiredLibs == old(requiredLibs)
    {
      cargoMetadata := b;
    }

    /** `Config::is_static` */
    function IsStatic(name: string, env: Env): (r: bool)
      reads this
      ensures r == ChooseStatic(statik, name, env)
    {
      ChooseStatic(statik, name, env)
    }

    /**
     * `Config::probe`. The default lib names it fills in stay in the
     * configuration; `emitted` is what it prints to cargo.
     */
    method Probe(portName: string, env: Env, fs: FileSystem) returns (r: Result<Library, Error>, emitted: seq<string>)
      modifies this
      ensures requiredLibs == DefaultLibs(old(requiredLibs), portName)
      ensures statik == old(statik) && cargoMetadata == old(cargoMetadata)
      ensures r == ProbeResult(requiredLibs, statik, portName, env, fs)
      ensures emitted == (if r.Ok? && cargoMetadata then r.value.cargoMetadata else [])
    {
      emitted := [];
      if requiredLibs == [] {
        requiredLibs := [Names(portName, portName)];
      }
      var abortVarName := Envify(portName) + "_NO_VCPKG";
      if abortVarName in env {
        return Err(EnvNoPkgConfig(abortVarName)), [];
      }
      var msvcArch := MsvcTarget(env);
      if msvcArch.Err? {
        return Err(msvcArch.error), [];
      }
      var vcpkgRoot := FindVcpkgRoot(env, fs);
      if vcpkgRoot.Err? {
        return Err(vcpkgRoot.error), [];
      }
      var valid := ValidateVcpkgRoot(vcpkgRoot.value, fs);
      if valid.Err? {
        return Err(valid.error), [];
      }
      var staticLib := IsStatic(portName, env);
      r := InstalledLibrary(vcpkgRoot.value, msvcArch.value, staticLib, requiredLibs, fs);
      if r.Err? {
        return r, [];
      }
      var lib := r.value;
      if cargoMetadata {
        emitted := EmitDirectives(lib.cargoMetadata);
      }
      return Ok(lib), emitted;
    }
  }

  /**
   * The second half of `Config::probe`, once the tree is located: the
   * directories under `installed/`, the search directives, and the loop
   * over the required libs with its early returns.
   */
  method InstalledLibrary(vcpkgRoot: Path, msvcArch: MSVCTarget, staticLib: bool, requiredLibs: seq<LibNames>,
                          fs: FileSystem) returns (r: Result<Library, Error>)
    ensures var base := BaseDir(vcpkgRoot, msvcArch, staticLib);
      r == CheckLibs(StartLibrary(base, staticLib), requiredLibs, Push(base, "lib"), Push(base, "bin"), staticLib, fs)
  {
    var lib := NewLibrary(staticLib);
    var base := Push(vcpkgRoot, "installed");
    var staticAppendage := if staticLib then "-static" else "";
    base := Push(base, TargetName(msvcArch) + staticAppendage);
    var libPath := Push(base, "lib");
    var binPath := Push(base, "bin");
    var includePath := Push(base, "include");
    lib := lib.(cargoMetadata := lib.cargoMetadata + [LinkSearch(libPath)]);
    if !staticLib {
      lib := lib.(cargoMetadata := lib.cargoMetadata + [LinkSearch(binPath)]);
    }
    lib := lib.(includePaths := lib.includePaths + [includePath]);
    lib := lib.(linkPaths := lib.linkPaths + [libPath]);
    ghost var start := lib;
    assert start == StartLibrary(base, staticLib);
    for i := 0 to |requiredLibs|
      invariant CheckLibs(lib, requiredLibs[i..], libPath, binPath, staticLib, fs)
                == CheckLibs(start, requiredLibs, libPath, binPath, staticLib, fs)
    {
      assert requiredLibs[i..][1..] == requiredLibs[i + 1..];
      var requiredLib := requiredLibs[i];
      lib := lib.(cargoMetadata := lib.cargoMetadata + [LinkLib(requiredLib.libStem, staticLib)]);
      var libLocation := SetExtension(PushRelative(libPath, requiredLib.libStem), "lib");
      if libLocation !in fs.present {
        return Err(LibNotFound(Display(libLocation)));
      }
      lib := lib.(foundLibs := lib.foundLibs + [libLocation]);
      if !staticLib {
        var dllLocation := SetExtension(PushRelative(binPath, requiredLib.dllStem), "dll");
        if dllLocation !in fs.present {
          return Err(LibNotFound(Display(dllLocation)));
        }
        lib := lib.(foundDlls := lib.foundDlls + [dllLocation]);
      }
    }
    return Ok(lib);
  }

  /** The `println!` loop: every directive goes out once, in order. */
  method EmitDirectives(lines: seq<string>) returns (emitted: seq<string>)
    ensures emitted == lines
  {
    emitted := [];
    for i := 0 to |lines|
      invariant emitted == lines[..i]
    {
      emitted := emitted + [lines[i]];
    }
  }

  /** `probe_library`: a fresh configuration probing for `name`. */
  method ProbeLibrary(name: string, env: Env, fs: FileSystem) returns (r: Result<Library, Error>, emitted: seq<string>)
    ensures r == ProbeResult([Names(name, name)], None, name, env, fs)
    ensures emitted == (if r.Ok? then r.value.cargoMetadata else [])
  {
    var config := new Config();
    r, emitted := config.Probe(name, env, fs);
  }

  /**
   * Probing one configuration twice: the second probe still looks for the
   * lib names the first one defaulted to, not for its own port name.
   */
  method ProbeTwice(first: string, second: string, env: Env, fs: FileSystem)
    returns (r1: Result<Library, Error>, r2: Result<Library, Error>)
    ensures r1 == ProbeResult([Names(first, first)], None, first, env, fs)
    ensures r2 == ProbeResult([Names(first, first)], None, second, env, fs)
  {
    var config := new Config();
    var emitted;
    r1, emitted := config.Probe(first, env, fs);
    r2, emitted := config.Probe(second, env, fs);
  }
}
