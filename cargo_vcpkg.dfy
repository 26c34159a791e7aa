/**
 * The core of `cargo vcpkg build` (cargo-vcpkg/src/main.rs): aggregating the
 * `[package.metadata.vcpkg]` blocks of a workspace into one install request,
 * and the two line parsers that read vcpkg's progress output and
 * `clang --version`.
 *
 * The workspace arrives already decoded: `cargo metadata` and serde are
 * outside the model, so a package whose metadata block is missing or does
 * not decode carries `metadata == None`.
 */
module CargoVcpkg {
  import opened Wrappers
  import opened Strings

  /** The settings for one Rust target triple, `[package.metadata.vcpkg.target.<triple>]`. */
  datatype Target = Target(
    triplet: Option<string>,
    // `install` is accepted as another spelling of `dependencies`
    dependencies: Option<seq<string>>,
    devDependencies: Option<seq<string>>)

  /** One package's `[package.metadata.vcpkg]` block. */
  datatype Vcpkg = Vcpkg(
    target: map<string, Target>,
    branch: Option<string>,
    rev: Option<string>,
    git: Option<string>,
    tag: Option<string>,
    dependencies: Option<seq<string>>,
    devDependencies: Option<seq<string>>)

  datatype Package = Package(id: string, metadata: Option<Vcpkg>)

  /** `cargo metadata`'s packages, in its order, and the resolve graph's root. */
  datatype Workspace = Workspace(packages: seq<Package>, root: Option<string>)

  /** How the vcpkg tree's revision is chosen. */
  datatype RevSelector = Rev(name: string) | Tag(name: string) | Branch(name: string)

  datatype MetadataError =
    | VirtualManifest     // "cannot run on a virtual manifest, ..."
    | AmbiguousRevision   // "must specify one of branch,rev,tag for git source"

  /** The tuple `process_metadata` returns. */
  datatype Resolution = Resolution(
    gitUrl: Option<string>,
    ports: seq<string>,
    revSelector: Option<RevSelector>,
    triplet: Option<string>,
    rootCrate: string)

  // ---------------------------------------------------------------------
  // process_metadata
  // ---------------------------------------------------------------------

  function SetCount(a: Option<string>, b: Option<string>, c: Option<string>): nat {
    (if a.Some? then 1 else 0) + (if b.Some? then 1 else 0) + (if c.Some? then 1 else 0)
  }

  /** The revision selector of a git source: exactly one of branch, tag, rev. */
  function Selector(v: Vcpkg): (r: Option<RevSelector>)
    ensures r.Some? <==> SetCount(v.branch, v.tag, v.rev) == 1
    ensures r.Some? && r.value.Branch? ==> v.branch == Some(r.value.name)
    ensures r.Some? && r.value.Tag? ==> v.tag == Some(r.value.name)
    ensures r.Some? && r.value.Rev? ==> v.rev == Some(r.value.name)
  {
    match (v.branch, v.tag, v.rev)
    case (Some(b), None, None) => Some(Branch(b))
    case (None, Some(t), None) => Some(Tag(t))
    case (None, None, Some(r)) => Some(Rev(r))
    case _ => None
  }

  /** The ports one package adds to the install list. */
  function Contribution(v: Vcpkg, isRoot: bool, triple: string): seq<string> {
    if triple in v.target then
      var t := v.target[triple];
      (if t.dependencies.Some? then t.dependencies.value else v.dependencies.GetOr([]))
      + (if isRoot then t.devDependencies.GetOr([]) else [])
    else
      v.dependencies.GetOr([]) + (if isRoot then v.devDependencies.GetOr([]) else [])
  }

  /** The triplet a target override names, if the package has one for `triple`. */
  function OverrideTriplet(v: Vcpkg, triple: string): Option<string> {
    if triple in v.target then v.target[triple].triplet else None
  }

  /** One iteration of the loop over the packages. */
  function Visit(acc: Resolution, p: Package, triple: string): Result<Resolution, MetadataError> {
    match p.metadata
    case None => Ok(acc)
    case Some(v) =>
      var isRoot := p.id == acc.rootCrate;
      if v.git.Some? && isRoot && Selector(v).None? then Err(AmbiguousRevision)
      else
        var acc1 := if v.git.Some? && isRoot then acc.(gitUrl := v.git, revSelector := Selector(v)) else acc;
        var triplet := if isRoot && OverrideTriplet(v, triple).Some? then OverrideTriplet(v, triple) else acc1.triplet;
        Ok(acc1.(ports := acc1.ports + Contribution(v, isRoot, triple), triplet := triplet))
  }

  function VisitAll(acc: Resolution, pkgs: seq<Package>, triple: string): Result<Resolution, MetadataError>
    decreases |pkgs|
  {
    if pkgs == [] then Ok(acc)
    else match Visit(acc, pkgs[0], triple)
      case Err(e) => Err(e)
      case Ok(acc1) => VisitAll(acc1, pkgs[1..], triple)
  }

  function Start(rootCrate: string): Resolution {
    Resolution(None, [], None, None, rootCrate)
  }

  /** What `process_metadata(metadata, triple)` returns. */
  function Resolve(ws: Workspace, triple: string): Result<Resolution, MetadataError> {
    match ws.root
    case None => Err(VirtualManifest)
    case Some(root) => VisitAll(Start(root), ws.packages, triple)
  }

  /** `process_metadata` as written: one pass over the packages, updating the result in place. */
  method ProcessMetadata(ws: Workspace, triple: string) returns (r: Result<Resolution, MetadataError>)
    ensures r == Resolve(ws, triple)
  {
    if ws.root.None? {
      return Err(VirtualManifest);
    }
    var rootCrate := ws.root.value;
    var gitUrl: Option<string> := None;
    var ports: seq<string> := [];
    var revSelector: Option<RevSelector> := None;
    var triplet: Option<string> := None;
    for i := 0 to |ws.packages|
      invariant VisitAll(Resolution(gitUrl, ports, revSelector, triplet, rootCrate), ws.packages[i..], triple)
                == Resolve(ws, triple)
    {
      var p := ws.packages[i];
      assert ws.packages[i..][1..] == ws.packages[i + 1..];
      ghost var before := Resolution(gitUrl, ports, revSelector, triplet, rootCrate);
      if p.metadata.Some? {
        var v := p.metadata.value;
        var isRoot := p.id == rootCrate;
        if v.git.Some? && isRoot {
          gitUrl := v.git;
          match (v.branch, v.tag, v.rev) {
            case (Some(b), None, None) => revSelector := Some(Branch(b));
            case (None, Some(t), None) => revSelector := Some(Tag(t));
            case (None, None, Some(rv)) => revSelector := Some(Rev(rv));
            case _ => return Err(AmbiguousRevision);
          }
        }
        if triple in v.target {
          var t := v.target[triple];
          if t.dependencies.Some? {
            ports := ports + t.dependencies.value;
          } else if v.dependencies.Some? {
            ports := ports + v.dependencies.value;
          }
          if isRoot && t.triplet.Some? {
            triplet := t.triplet;
          }
          if isRoot && t.devDependencies.Some? {
            ports := ports + t.devDependencies.value;
          }
        } else {
          if v.dependencies.Some? {
            ports := ports + v.dependencies.value;
          }
          if isRoot && v.devDependencies.Some? {
            ports := ports + v.devDependencies.value;
          }
        }
        assert ports == before.ports + Contribution(v, isRoot, triple);
        assert Visit(before, p, triple) == Ok(Resolution(gitUrl, ports, revSelector, triplet, rootCrate));
      }
    }
    return Ok(Resolution(gitUrl, ports, revSelector, triplet, rootCrate));
  }

  /** The ports one package adds; a package without decodable metadata adds none. */
  function PackageContribution(p: Package, rootCrate: string, triple: string): seq<string> {
    match p.metadata
    case None => []
    case Some(v) => Contribution(v, p.id == rootCrate, triple)
  }

  /** Every package's contribution, in package order. */
  function Contributions(pkgs: seq<Package>, rootCrate: string, triple: string): seq<string>
    decreases |pkgs|
  {
    if pkgs == [] then [] else PackageContribution(pkgs[0], rootCrate, triple) + Contributions(pkgs[1..], rootCrate, triple)
  }

  predicate UniqueIds(pkgs: seq<Package>) {
    forall i, j :: 0 <= i < j < |pkgs| ==> pkgs[i].id != pkgs[j].id
  }

  /** The metadata of the root crate, if the root package has a block that decodes. */
  function RootMetadata(pkgs: seq<Package>, rootCrate: string): Option<Vcpkg>
    decreases |pkgs|
  {
    if pkgs == [] then None
    else if pkgs[0].id == rootCrate then pkgs[0].metadata
    else RootMetadata(pkgs[1..], rootCrate)
  }

  predicate BadSource(v: Vcpkg) {
    v.git.Some? && Selector(v).None?
  }

  /** The install list is each package's contribution, concatenated in package order. */
  lemma {:induction false} VisitAllPorts(acc: Resolution, pkgs: seq<Package>, triple: string)
    ensures VisitAll(acc, pkgs, triple).Ok? ==>
      && VisitAll(acc, pkgs, triple).value.rootCrate == acc.rootCrate
      && VisitAll(acc, pkgs, triple).value.ports == acc.ports + Contributions(pkgs, acc.rootCrate, triple)
    decreases |pkgs|
  {
    if pkgs != [] {
      match Visit(acc, pkgs[0], triple)
      case Err(_) =>
      case Ok(acc1) =>
        VisitAllPorts(acc1, pkgs[1..], triple);
        assert acc1.ports == acc.ports + PackageContribution(pkgs[0], acc.rootCrate, triple);
    }
  }

  /** Packages other than the root never fail and never touch git, revision or triplet. */
  lemma {:induction false} VisitAllWithoutRoot(acc: Resolution, pkgs: seq<Package>, triple: string)
    requires forall k :: 0 <= k < |pkgs| ==> pkgs[k].id != acc.rootCrate
    ensures VisitAll(acc, pkgs, triple).Ok?
    ensures VisitAll(acc, pkgs, triple).value.gitUrl == acc.gitUrl
    ensures VisitAll(acc, pkgs, triple).value.revSelector == acc.revSelector
    ensures VisitAll(acc, pkgs, triple).value.triplet == acc.triplet
    decreases |pkgs|
  {
    if pkgs != [] {
      var acc1 := Visit(acc, pkgs[0], triple).value;
      VisitAllWithoutRoot(acc1, pkgs[1..], triple);
    }
  }

  /** With unique package ids, git, revision and triplet come from the root crate alone. */
  lemma {:induction false} VisitAllRootFields(acc: Resolution, pkgs: seq<Package>, triple: string)
    requires UniqueIds(pkgs)
    ensures var m := RootMetadata(pkgs, acc.rootCrate);
      VisitAll(acc, pkgs, triple).Err? <==> m.Some? && BadSource(m.value)
    ensures VisitAll(acc, pkgs, triple).Err? ==> VisitAll(acc, pkgs, triple).error == AmbiguousRevision
    ensures var m := RootMetadata(pkgs, acc.rootCrate); var r := VisitAll(acc, pkgs, triple);
      r.Ok? ==>
        && r.value.gitUrl == (if m.Some? && m.value.git.Some? then m.value.git else acc.gitUrl)
        && r.value.revSelector == (if m.Some? && m.value.git.Some? then Selector(m.value) else acc.revSelector)
        && r.value.triplet == (if m.Some? && OverrideTriplet(m.value, triple).Some?
                               then OverrideTriplet(m.value, triple) else acc.triplet)
    decreases |pkgs|
  {
    if pkgs != [] {
      var p := pkgs[0];
      assert UniqueIds(pkgs[1..]);
      match Visit(acc, p, triple)
      case Err(_) =>
      case Ok(acc1) =>
        if p.id == acc.rootCrate {
          assert forall k :: 0 <= k < |pkgs[1..]| ==> pkgs[1..][k].id != acc.rootCrate by {
            forall k | 0 <= k < |pkgs[1..]| ensures pkgs[1..][k].id != acc.rootCrate {
              assert pkgs[1..][k] == pkgs[k + 1];
            }
          }
          VisitAllWithoutRoot(acc1, pkgs[1..], triple);
        } else {
          VisitAllRootFields(acc1, pkgs[1..], triple);
        }
    }
  }

  /**
   * The whole contract of `process_metadata`: no root means a virtual
   * manifest; a root git source without exactly one of branch/tag/rev is an
   * error; otherwise git, revision and triplet are the root crate's and the
   * ports are every package's contribution in order.
   */
  lemma ResolveOutcome(ws: Workspace, triple: string)
    requires UniqueIds(ws.packages)
    ensures Resolve(ws, triple) == Err(VirtualManifest) <==> ws.root.None?
    ensures Resolve(ws, triple) == Err(AmbiguousRevision) <==>
      ws.root.Some? && RootMetadata(ws.packages, ws.root.value).Some?
      && BadSource(RootMetadata(ws.packages, ws.root.value).value)
    ensures Resolve(ws, triple).Ok? ==>
      var res := Resolve(ws, triple).value;
      var m := RootMetadata(ws.packages, ws.root.value);
      && res.rootCrate == ws.root.value
      && res.ports == Contributions(ws.packages, ws.root.value, triple)
      && res.gitUrl == (if m.Some? then m.value.git else None)
      && res.revSelector == (if m.Some? && m.value.git.Some? then Selector(m.value) else None)
      && res.triplet == (if m.Some? then OverrideTriplet(m.value, triple) else None)
  {
    if ws.root.Some? {
      VisitAllPorts(Start(ws.root.value), ws.packages, triple);
      VisitAllRootFields(Start(ws.root.value), ws.packages, triple);
    }
  }

  /** The per-target override rules for one package's contribution. */
  lemma ContributionRules(v: Vcpkg, triple: string)
    // an override's own list replaces the general one, even when it is empty
    ensures triple in v.target && v.target[triple].dependencies.Some? ==>
      Contribution(v, false, triple) == v.target[triple].dependencies.value
    // an override without a list falls back to the general list
    ensures triple in v.target && v.target[triple].dependencies.None? ==>
      Contribution(v, false, triple) == v.dependencies.GetOr([])
    // with an override, the root adds the override's dev-dependencies and never the general ones
    ensures triple in v.target ==>
      Contribution(v, true, triple) == Contribution(v, false, triple) + v.target[triple].devDependencies.GetOr([])
    // without one, the root adds the general dev-dependencies
    ensures triple !in v.target ==>
      Contribution(v, true, triple) == v.dependencies.GetOr([]) + v.devDependencies.GetOr([])
    ensures triple !in v.target ==> Contribution(v, false, triple) == v.dependencies.GetOr([])
  {
  }

  /** `v` with every field that only the root crate's copy may use cleared. */
  function StripRootOnly(v: Vcpkg): Vcpkg {
    v.(branch := None, rev := None, git := None, tag := None, devDependencies := None,
       target := map k | k in v.target :: v.target[k].(triplet := None, devDependencies := None))
  }

  function StripNonRoot(pkgs: seq<Package>, rootCrate: string): (r: seq<Package>)
    ensures |r| == |pkgs|
  {
    seq(|pkgs|, i requires 0 <= i < |pkgs| =>
      var p := pkgs[i];
      if p.id != rootCrate && p.metadata.Some? then p.(metadata := Some(StripRootOnly(p.metadata.value))) else p)
  }

  lemma VisitStripped(acc: Resolution, p: Package, triple: string)
    requires p.id != acc.rootCrate && p.metadata.Some?
    ensures Visit(acc, p.(metadata := Some(StripRootOnly(p.metadata.value))), triple) == Visit(acc, p, triple)
  {
    var v := p.metadata.value;
    var s := StripRootOnly(v);
    assert triple in s.target <==> triple in v.target;
    if triple in v.target {
      assert s.target[triple].dependencies == v.target[triple].dependencies;
    }
    assert Contribution(s, false, triple) == Contribution(v, false, triple);
  }

  lemma {:induction false} VisitAllStripped(acc: Resolution, pkgs: seq<Package>, triple: string)
    ensures VisitAll(acc, StripNonRoot(pkgs, acc.rootCrate), triple) == VisitAll(acc, pkgs, triple)
    decreases |pkgs|
  {
    if pkgs != [] {
      var stripped := StripNonRoot(pkgs, acc.rootCrate);
      assert stripped[1..] == StripNonRoot(pkgs[1..], acc.rootCrate);
      var p := pkgs[0];
      if p.id != acc.rootCrate && p.metadata.Some? {
        VisitStripped(acc, p, triple);
      }
      assert Visit(acc, stripped[0], triple) == Visit(acc, p, triple);
      match Visit(acc, p, triple)
      case Err(_) =>
      case Ok(acc1) => VisitAllStripped(acc1, pkgs[1..], triple);
    }
  }

  /**
   * Root-only fields (git source, revision, triplet, dev-dependencies) of
   * any package other than the root crate never affect the result.
   */
  lemma NonRootOnlyFieldsIgnored(ws: Workspace, triple: string)
    requires ws.root.Some?
    ensures Resolve(ws.(packages := StripNonRoot(ws.packages, ws.root.value)), triple) == Resolve(ws, triple)
  {
    VisitAllStripped(Start(ws.root.value), ws.packages, triple);
  }

  lemma {:induction false} VisitAllAppend(acc: Resolution, a: seq<Package>, b: seq<Package>, triple: string)
    ensures VisitAll(acc, a + b, triple) ==
      match VisitAll(acc, a, triple) case Err(e) => Err(e) case Ok(acc1) => VisitAll(acc1, b, triple)
    decreases |a|
  {
    if a != [] {
      assert (a + b)[0] == a[0] && (a + b)[1..] == a[1..] + b;
      match Visit(acc, a[0], triple)
      case Err(_) =>
      case Ok(acc1) => VisitAllAppend(acc1, a[1..], b, triple);
    } else {
      assert a + b == b;
    }
  }

  /** A package whose metadata does not decode adds nothing and raises no error. */
  lemma UndecodedPackageIgnored(ws: Workspace, i: nat, triple: string)
    requires i < |ws.packages| && ws.packages[i].metadata.None?
    ensures Resolve(ws, triple) == Resolve(ws.(packages := ws.packages[..i] + ws.packages[i + 1..]), triple)
  {
    if ws.root.Some? {
      var pkgs := ws.packages;
      assert pkgs == pkgs[..i] + ([pkgs[i]] + pkgs[i + 1..]);
      VisitAllAppend(Start(ws.root.value), pkgs[..i], [pkgs[i]] + pkgs[i + 1..], triple);
      VisitAllAppend(Start(ws.root.value), pkgs[..i], pkgs[i + 1..], triple);
      match VisitAll(Start(ws.root.value), pkgs[..i], triple)
      case Err(_) =>
      case Ok(acc1) =>
        assert ([pkgs[i]] + pkgs[i + 1..])[1..] == pkgs[i + 1..];
    }
  }

  // ---------------------------------------------------------------------
  // parse_build_line
  // ---------------------------------------------------------------------

  /** A vcpkg `Starting package 3/7: zlib:x64-windows` line, decoded. */
  datatype BuildLine = BuildLine(pkg: string, triplet: string, count: nat, total: nat)

  const StartingPackage: string := "Starting package "

  /** `(cnt, tot)` when both sides of the first `/` parse, else `(0, 0)`. */
  function ProgressCounts(progress: string): (r: (nat, nat))
    ensures r.0 < U64Limit && r.1 < U64Limit
    ensures '/' in progress && ParseU64(BeforeFirst(progress, '/')).Some?
            && ParseU64(AfterFirst(progress, '/')).Some? ==>
            r == (ParseU64(BeforeFirst(progress, '/')).value, ParseU64(AfterFirst(progress, '/')).value)
    ensures ('/' !in progress || ParseU64(BeforeFirst(progress, '/')).None?
             || ParseU64(AfterFirst(progress, '/')).None?) ==> r == (0, 0)
  {
    match IndexOf(progress, '/')
    case None => (0, 0)
    case Some(k) =>
      match (ParseU64(progress[..k]), ParseU64(progress[k + 1..]))
      case (Some(cnt), Some(tot)) => (cnt, tot)
      case _ => (0, 0)
  }

  /** `parse_build_line` */
  function ParseBuildLine(line: string): (r: Option<BuildLine>)
    ensures var rest := TrimStartMatches(line, StartingPackage);
      r.Some? <==> StartsWith(line, StartingPackage) && ':' in rest && ':' in Trim(AfterFirst(rest, ':'))
    ensures var rest := TrimStartMatches(line, StartingPackage);
      r.Some? ==>
        && r.value.pkg + [':'] + r.value.triplet == Trim(AfterFirst(rest, ':'))
        && ':' !in r.value.triplet
        && (r.value.count, r.value.total) == ProgressCounts(BeforeFirst(rest, ':'))
  {
    if !StartsWith(line, StartingPackage) then None
    else
      var rest := TrimStartMatches(line, StartingPackage);
      match IndexOf(rest, ':')
      case None => None
      case Some(i) =>
        var pkgWithTriplet := Trim(rest[i + 1..]);
        match LastIndexOf(pkgWithTriplet, ':')
        case None => None
        case Some(j) =>
          var counts := ProgressCounts(rest[..i]);
          SplitAround(pkgWithTriplet, j);
          Some(BuildLine(pkgWithTriplet[..j], pkgWithTriplet[j + 1..], counts.0, counts.1))
  }

  /** The line vcpkg prints when it starts building a package. */
  function FormatBuildLine(b: BuildLine): string
    requires b.count < U64Limit && b.total < U64Limit
  {
    StartingPackage + DecimalString(b.count) + "/" + DecimalString(b.total) + ": " + b.pkg + ":" + b.triplet
  }

  lemma TrimOfPadded(x: string)
    requires x != [] && !IsWhitespace(x[0]) && !IsWhitespace(x[|x| - 1])
    ensures Trim(" " + x) == x
  {
    assert (" " + x)[1..] == x;
  }

  /** Every progress line vcpkg writes parses back to what it reports. */
  lemma ParseFormattedBuildLine(b: BuildLine)
    requires b.count < U64Limit && b.total < U64Limit
    requires ':' !in b.triplet
    requires b.pkg == [] || !IsWhitespace(b.pkg[0])
    requires b.triplet == [] || !IsWhitespace(b.triplet[|b.triplet| - 1])
    ensures ParseBuildLine(FormatBuildLine(b)) == Some(b)
  {
    var cnt, tot := DecimalString(b.count), DecimalString(b.total);
    var progress := cnt + ['/'] + tot;
    var tail := b.pkg + [':'] + b.triplet;
    var line := FormatBuildLine(b);
    FormatBuildLineShape(b);
    TrimStartOfFormatted(progress + [':'] + (" " + tail));
    DigitsExclude(cnt, ':');
    DigitsExclude(tot, ':');
    PaddedTail(b.pkg, b.triplet);
    ProgressCountsOfDecimal(b.count, b.total);
    ParseBuildLineParts(line, progress, " " + tail, b.pkg, b.triplet);
  }

  lemma FormatBuildLineShape(b: BuildLine)
    requires b.count < U64Limit && b.total < U64Limit
    ensures FormatBuildLine(b) == StartingPackage +
      ((DecimalString(b.count) + ['/'] + DecimalString(b.total)) + [':'] + (" " + (b.pkg + [':'] + b.triplet)))
  {
  }

  lemma PaddedTail(pkg: string, triplet: string)
    requires pkg == [] || !IsWhitespace(pkg[0])
    requires triplet == [] || !IsWhitespace(triplet[|triplet| - 1])
    ensures Trim(" " + (pkg + [':'] + triplet)) == pkg + [':'] + triplet
  {
    var tail := pkg + [':'] + triplet;
    assert tail != [] && !IsWhitespace(tail[0]) && !IsWhitespace(tail[|tail| - 1]);
    TrimOfPadded(tail);
  }

  /** A line made of the prefix, a progress field, `:` and `pkg:triplet` decodes to those parts. */
  lemma ParseBuildLineParts(line: string, progress: string, text: string, pkg: string, triplet: string)
    requires StartsWith(line, StartingPackage)
    requires TrimStartMatches(line, StartingPackage) == progress + [':'] + text
    requires ':' !in progress
    requires Trim(text) == pkg + [':'] + triplet && ':' !in triplet
    ensures ParseBuildLine(line) ==
      Some(BuildLine(pkg, triplet, ProgressCounts(progress).0, ProgressCounts(progress).1))
  {
    SplitFirstJoined(progress, ':', text);
    var r := ParseBuildLine(line);
    SplitLastUnique(r.value.pkg, r.value.triplet, pkg, triplet, ':');
  }

  lemma ProgressCountsOfDecimal(count: nat, total: nat)
    requires count < U64Limit && total < U64Limit
    ensures ProgressCounts(DecimalString(count) + ['/'] + DecimalString(total)) == (count, total)
  {
    var cnt, tot := DecimalString(count), DecimalString(total);
    DigitsExclude(cnt, '/');
    SplitFirstJoined(cnt, '/', tot);
    ParseU64OfDecimal(count);
    ParseU64OfDecimal(total);
  }

  lemma TrimStartOfFormatted(rest: string)
    requires rest != [] && IsDigit(rest[0])
    ensures TrimStartMatches(StartingPackage + rest, StartingPackage) == rest
  {
    var line := StartingPackage + rest;
    assert line[..|StartingPackage|] == StartingPackage;
    assert line[|StartingPackage|..] == rest;
    assert !StartsWith(rest, StartingPackage) by { assert rest[0] != StartingPackage[0]; }
  }

  // ---------------------------------------------------------------------
  // parse_apple_clang_version
  // ---------------------------------------------------------------------

  const AppleClangVersion: string := "Apple clang version "

  predicate IsFirstWithPrefix(lines: seq<string>, prefix: string, k: int) {
    && 0 <= k < |lines|
    && StartsWith(lines[k], prefix)
    && forall j :: 0 <= j < k ==> !StartsWith(lines[j], prefix)
  }

  /** The index of the first line starting with `prefix`. */
  function FirstWithPrefix(lines: seq<string>, prefix: string): (r: Option<nat>)
    ensures r.Some? ==> IsFirstWithPrefix(lines, prefix, r.value)
    ensures r.None? ==> forall k :: 0 <= k < |lines| ==> !StartsWith(lines[k], prefix)
  {
    if lines == [] then None
    else if StartsWith(lines[0], prefix) then Some(0)
    else match FirstWithPrefix(lines[1..], prefix)
      case None => None
      case Some(k) => Some(k + 1)
  }

  /** The text before the first `.` of what follows the version prefix. */
  function MajorVersionText(line: string): (r: string)
    ensures '.' !in r
    ensures var rest := TrimStartMatches(line, AppleClangVersion);
      && ('.' !in rest ==> r == rest)
      && ('.' in rest ==> StartsWith(rest, r + ['.']))
  {
    var rest := TrimStartMatches(line, AppleClangVersion);
    if '.' in rest then BeforeFirst(rest, '.') else rest
  }

  /** `parse_apple_clang_version`: the major version on the first Apple clang line. */
  function ParseAppleClangVersion(output: string): (r: Option<nat>)
    ensures r.Some? ==> r.value < U64Limit
  {
    var lines := Lines(output);
    match FirstWithPrefix(lines, AppleClangVersion)
    case None => None
    case Some(k) => ParseU64(MajorVersionText(lines[k]))
  }

  /** Only one index can be the first holding the prefix. */
  lemma FirstWithPrefixUnique(lines: seq<string>, prefix: string, k: nat)
    requires IsFirstWithPrefix(lines, prefix, k)
    ensures FirstWithPrefix(lines, prefix) == Some(k)
  {
    var r := FirstWithPrefix(lines, prefix);
    assert r.Some?;
    assert !(r.value < k) && !(k < r.value);
  }

  /** The version is read from the first line carrying the Apple clang banner, and only from it. */
  lemma AppleClangVersionFromFirstBanner(output: string, k: nat)
    requires IsFirstWithPrefix(Lines(output), AppleClangVersion, k)
    ensures ParseAppleClangVersion(output) == ParseU64(MajorVersionText(Lines(output)[k]))
  {
    FirstWithPrefixUnique(Lines(output), AppleClangVersion, k);
  }

  /** Output without the banner yields no version. */
  lemma AppleClangVersionWithoutBanner(output: string)
    requires forall k :: 0 <= k < |Lines(output)| ==> !StartsWith(Lines(output)[k], AppleClangVersion)
    ensures ParseAppleClangVersion(output).None?
  {
  }
}
