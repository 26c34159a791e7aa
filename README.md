# cargo-vcpkg and vcpkg-rs, modelled in Dafny

This project models two Rust crates that link Rust builds against C and C++
libraries installed by vcpkg, Microsoft's C/C++ package manager.

- **cargo-vcpkg** (`cargo_vcpkg.dfy`) is a cargo subcommand. It reads
  `[package.metadata.vcpkg]` tables from the workspace's cargo metadata.
  `process_metadata` collects them into a single install request: the git
  source of the vcpkg tree, its revision selector (exactly one of branch, tag
  or rev), an optional triplet override, and the list of ports to install.
  The root crate supplies the git, revision and triplet settings. Every
  package adds its dependencies. A per-target table that has its own
  `dependencies` replaces them for the current target, and its
  dev-dependencies replace the general ones. Dev-dependencies count only for
  the root crate.
  `parse_build_line` decodes the `Starting package n/m: pkg:triplet` lines
  that vcpkg prints while it builds. `parse_apple_clang_version` reads the
  major version from the compiler banner.
- **vcpkg** (`vcpkg.dfy`) is a build-script library. Its `Config` builder
  records the linkage choice, whether to emit cargo directives, and the
  required library names. `probe` then does these steps in order:
  1. When no lib names were configured, it records one lib named after the
     port, in the configuration itself.
  2. It refuses when the `<PORT>_NO_VCPKG` variable is set.
  3. It refuses targets that are not MSVC.
  4. It finds the vcpkg tree from `VCPKG_ROOT`, or from the
     `vcpkg.user.targets` file that `vcpkg integrate install` writes.
  5. It checks the tree's `.vcpkg-root` marker.
  6. It picks static or dynamic linkage.
  7. It checks that each `.lib` (and each `.dll`, for dynamic linkage) exists
     under `installed/<triplet>[-static]`.
  8. It returns the library together with the `cargo:` directives that it
     prints.

Supporting modules:

- `wrappers.dfy` defines Option and Result.
- `strings.dfy` models the Rust string operations the crates use: prefix
  trimming, `find`/`rfind`, `trim`, `lines`, `parse::<u64>` with its 64-bit
  bound.
- `paths.dfy` models Windows `PathBuf` as a root plus components: parsing,
  display, `push`, `pop` and `set_extension`.
- `cargo_vcpkg_tests.dfy` and `vcpkg_tests.dfy` restate the crates' unit
  tests and a few concrete scenarios as lemmas.

The environment is a map from variable names to values. The file system is
two parts:

- a set of existing paths, which stands for the `exists` checks on the
  tree's marker and on the library files;
- a map from text files to their lines, where each line is read or
  unreadable. Only `vcpkg.user.targets` is opened this way, and a file that
  is not in the map fails to open.

The cargo directives that `probe` prints come back as a returned list of
strings.

Two rules of the code that are easy to misread:

- **The order of the install list.** Each package's contribution is appended
  as the package is visited. The list is therefore the packages'
  contributions, each kept together, in cargo's package order.
- **The project location in a targets-file line.** The line is split at
  every `Project="`, and the piece after the first one is cut at its first
  `"`. The location therefore ends at the first quote or at the next
  `Project="`, whichever comes first. When neither follows, it runs to the
  end of the line. A piece that is empty names no location, because
  `split_terminator` yields nothing for empty text. A piece that starts with
  a quote names the empty location.

## Model

| member | source | states |
|---|---|---|
| CargoVcpkg.Selector | cargo-vcpkg/src/main.rs:321-334 | a revision selector exists exactly when exactly one of branch, tag and rev is set, and it carries that field's value |
| CargoVcpkg.ProcessMetadata | cargo-vcpkg/src/main.rs:290-379 | the loop over the workspace packages computes the resolution that the reference definition `Resolve` gives |
| CargoVcpkg.ResolveOutcome | cargo-vcpkg/src/main.rs:303-378 | no root gives exactly the virtual-manifest error; a root git source without exactly one selector gives exactly the ambiguous-revision error; on success git, selector and triplet are the root crate's and the ports are every package's contribution in order |
| CargoVcpkg.VisitAllPorts | cargo-vcpkg/src/main.rs:313-368 | the visit appends each package's contribution, in package order, to the ports collected so far |
| CargoVcpkg.VisitAllWithoutRoot | cargo-vcpkg/src/main.rs:318-358 | packages other than the root crate never fail and never change git, selector or triplet |
| CargoVcpkg.VisitAllRootFields | cargo-vcpkg/src/main.rs:318-358 | with unique package ids the visit fails exactly when the root's git source lacks a unique selector, and git, selector and triplet then come from the root crate alone |
| CargoVcpkg.ContributionRules | cargo-vcpkg/src/main.rs:339-368 | a target table with dependencies replaces the dependency list; without them the plain list applies; dev-dependencies are added only for the root crate |
| CargoVcpkg.VisitAllStripped | cargo-vcpkg/src/main.rs:318-368 | removing git, revision and dev-dependency settings from non-root packages does not change the visit |
| CargoVcpkg.NonRootOnlyFieldsIgnored | cargo-vcpkg/src/main.rs:318-368 | a workspace whose non-root packages lose their root-only fields resolves to the same result |
| CargoVcpkg.VisitAllAppend | cargo-vcpkg/src/main.rs:313-371 | visiting two package lists one after the other equals visiting their concatenation |
| CargoVcpkg.UndecodedPackageIgnored | cargo-vcpkg/src/main.rs:315-316 | a package whose vcpkg metadata does not decode can be removed without changing the result |
| CargoVcpkg.ProgressCounts | cargo-vcpkg/src/main.rs:456-464 | the counts are the two u64 values around the first `/` when both parse, and `(0, 0)` otherwise |
| CargoVcpkg.ParseBuildLine | cargo-vcpkg/src/main.rs:435-467 | a line decodes exactly when it starts with `Starting package `, has a `:` after that, and its trimmed rest has a `:`; package and triplet are split at the last `:`; the counts come from the text before the first `:` |
| CargoVcpkg.ParseFormattedBuildLine | cargo-vcpkg/src/main.rs:435-467 | parsing the line vcpkg prints for a build step gives back that step's package, triplet and counts |
| CargoVcpkg.ParseBuildLineParts | cargo-vcpkg/src/main.rs:436-465 | a line made of the prefix, a progress text, `:` and a package:triplet text decodes to those parts |
| CargoVcpkg.ProgressCountsOfDecimal | cargo-vcpkg/src/main.rs:456-464 | the decimal text `n/m` parses back to `(n, m)` |
| CargoVcpkg.FirstWithPrefix | cargo-vcpkg/src/main.rs:518-520 | the index found is of the first line with the prefix, and none is found only when no line has it |
| CargoVcpkg.MajorVersionText | cargo-vcpkg/src/main.rs:520-523 | after the `Apple clang version ` prefixes are trimmed, the text kept is all of the rest when it has no `.`, and otherwise the part before its first `.` |
| CargoVcpkg.ParseAppleClangVersion | cargo-vcpkg/src/main.rs:515-525 | a version found fits in a u64 |
| CargoVcpkg.FirstWithPrefixUnique | cargo-vcpkg/src/main.rs:518-520 | the first matching line is the one the search returns |
| CargoVcpkg.AppleClangVersionFromFirstBanner | cargo-vcpkg/src/main.rs:515-525 | the version is the u64 before the first `.` of the first banner line |
| CargoVcpkg.AppleClangVersionWithoutBanner | cargo-vcpkg/src/main.rs:515-525 | output without an `Apple clang version ` line has no version |
| CargoVcpkgExamples.RunOnWorkspaceFails | cargo-vcpkg/src/main.rs:659-698 | a workspace without a root package is refused as a virtual manifest |
| CargoVcpkgExamples.InstallInRootCrate | cargo-vcpkg/src/main.rs:701-742 | the root crate's dependency `z85` is the whole install list |
| CargoVcpkgExamples.SameDependenciesButSpecifiedTriplet | cargo-vcpkg/src/main.rs:744-789 | a target table with only a triplet keeps the plain dependencies and sets the triplet |
| CargoVcpkgExamples.SpecifiedTripletRequiresNoDependencies | cargo-vcpkg/src/main.rs:792-837 | a target table with an empty dependency list installs nothing and sets the triplet |
| CargoVcpkgExamples.CombineDepsFromAllCrates | cargo-vcpkg/src/main.rs:840-894 | on the MSVC target the ports are `o, a, b, c` with the target's triplet, and on the empty target `m, a, d` |
| CargoVcpkgExamples.MajorOfBanner | cargo-vcpkg/src/main.rs:521-523 | the text kept from a banner is its digits before the first `.` |
| CargoVcpkgExamples.BannerVersion | cargo-vcpkg/src/main.rs:515-525 | lines not starting with `A` before the banner do not affect the version read from it |
| CargoVcpkgExamples.AppleClangAfterOtherLines | cargo-vcpkg/src/main.rs:636-639 | a banner on the second line gives version 9 |
| CargoVcpkgExamples.AppleClangAfterTwoLines | cargo-vcpkg/src/main.rs:640-643 | a banner on the third line gives version 10 |
| CargoVcpkgExamples.AppleClangOnFirstLine | cargo-vcpkg/src/main.rs:644-647 | a banner on the first line gives version 11 |
| CargoVcpkgExamples.AppleClangTwelve | cargo-vcpkg/src/main.rs:648-651 | a version 12 banner gives 12 |
| CargoVcpkgExamples.NotAppleClang | cargo-vcpkg/src/main.rs:652-655 | a misspelt banner gives no version |
| Vcpkg.TargetName | vcpkg/src/lib.rs:87-94 | the architecture displays as `x64-windows` or `x86-windows` |
| Vcpkg.TripleInjective | vcpkg/src/lib.rs:316-322 | two different architecture/linkage choices never share an installed-tree directory |
| Vcpkg.EnvChar | vcpkg/src/lib.rs:434-445 | lower-case ASCII letters become upper case, `-` becomes `_`, and every other character is kept |
| Vcpkg.Envify | vcpkg/src/lib.rs:434-445 | the result has the name's length and transforms each character independently |
| Vcpkg.EnvifyIdempotent | vcpkg/src/lib.rs:434-445 | an envified name has no lower-case ASCII letter and no `-`, so envifying it again changes nothing |
| Vcpkg.InferStatic | vcpkg/src/lib.rs:419-432 | static linkage is inferred exactly when `<NAME>_STATIC` is set, or when `<NAME>_DYNAMIC` is unset and `VCPKG_ALL_STATIC` is set |
| Vcpkg.AllDynamicIsDefault | vcpkg/src/lib.rs:419-432 | `VCPKG_ALL_DYNAMIC` never changes the inferred linkage |
| Vcpkg.ChooseStatic | vcpkg/src/lib.rs:401-403 | an explicit `statik` choice wins; without one the environment decides as `infer_static` does |
| Vcpkg.MsvcTarget | vcpkg/src/lib.rs:447-457 | a target is refused exactly when it does not contain `-pc-windows-msvc`; it is 64-bit exactly when it also starts with `x86_64-` |
| Vcpkg.UserTargetsPath | vcpkg/src/lib.rs:169-170 | the targets file is `vcpkg\vcpkg.user.targets` under `LOCALAPPDATA` |
| Vcpkg.ProjectLocation | vcpkg/src/lib.rs:184-188 | a line without `Project="` names no location; otherwise, in the text after the first `Project="`, there is no location exactly when that text is empty or starts another `Project="`, and a location found is the quote-free start of that text that stops at a quote, at the next `Project="` or at the end |
| Vcpkg.LocationAfter | vcpkg/src/lib.rs:186-188 | the text after `Project="` names no location exactly when it is empty or starts another `Project="`; a location found is its quote-free start that stops at a quote, at the next `Project="` or at the end |
| Vcpkg.LocationPrefixUnique | vcpkg/src/lib.rs:186-188 | at most one prefix of a text meets that stopping rule, so the location is determined by it |
| Vcpkg.ProjectLocationOf | vcpkg/src/lib.rs:184-188 | the text between the first `Project="` and the next quote is the location |
| Vcpkg.FirstAttrAfter | vcpkg/src/lib.rs:184-185 | when no `Project="` starts inside `a` or overlaps its end, the first one in `a + Project=" + rest` is the one after `a` |
| Vcpkg.LocationAfterOf | vcpkg/src/lib.rs:186-188 | text after `Project="` up to the first quote is the location |
| Vcpkg.QuoteFreePrefix | vcpkg/src/lib.rs:184-185 | in quote-free text followed by `Project="`, that occurrence is the first |
| Vcpkg.RootAbove | vcpkg/src/lib.rs:186-192 | four pops succeed exactly when the location has at least four components, and give the path without its last four; otherwise the error names the location |
| Vcpkg.RootFromDecidingLine | vcpkg/src/lib.rs:178-197 | the first line that cannot be read, or that names a location, decides the scan: an unreadable line is a parse error, a location gives the root four levels up |
| Vcpkg.RootFromUndecidedLines | vcpkg/src/lib.rs:178-200 | a file none of whose lines names a location gives the "project location not found" error |
| Vcpkg.VcpkgRootFrom | vcpkg/src/lib.rs:157-201 | `VCPKG_ROOT` wins when set; missing `LOCALAPPDATA` and a missing targets file give their own errors; every failure is a `VcpkgNotFound` |
| Vcpkg.RootFromLinesErrors | vcpkg/src/lib.rs:178-200 | every failure of the scan is a `VcpkgNotFound` |
| Vcpkg.IntegratedRootRecovered | vcpkg/src/lib.rs:169-197 | a targets file whose first location line points at a tree's `scripts\buildsystems\msbuild\vcpkg.targets` gives back that tree |
| Vcpkg.FindVcpkgRoot | vcpkg/src/lib.rs:157-201 | the line-by-line loop returns what the reference definition `VcpkgRootFrom` gives |
| Vcpkg.ValidateVcpkgRoot | vcpkg/src/lib.rs:203-214 | a tree is accepted exactly when its `.vcpkg-root` exists, and the error names that file |
| Vcpkg.AbortVarSeparate | vcpkg/src/lib.rs:302-305 | the abort variable of a port and of its envified name coincide, and it is never a variable that decides the linkage |
| Vcpkg.DefaultLibsSticky | vcpkg/src/lib.rs:295-300 | defaulting the lib names a second time, for any port, changes nothing; defaulting an empty list gives only libs whose stems are the port name |
| Vcpkg.BaseDir | vcpkg/src/lib.rs:316-326 | the libraries live in `installed/<triplet>[-static]` under the tree |
| Vcpkg.CheckLibsSucceedsIff | vcpkg/src/lib.rs:342-370 | the check succeeds exactly when every `.lib`, and for dynamic linkage every `.dll`, exists |
| Vcpkg.CheckLibsValue | vcpkg/src/lib.rs:342-370 | a successful check adds one link directive and one `.lib` per required lib, plus one `.dll` each for dynamic linkage, all in order |
| Vcpkg.CheckLibsFirstMissing | vcpkg/src/lib.rs:342-370 | the error names the first missing artifact: the `.lib` if it is missing, else the `.dll` |
| Vcpkg.CheckLibsHeadMissing | vcpkg/src/lib.rs:342-370 | when the first lib is incomplete the error names its `.lib` if that is missing, else its `.dll` |
| Vcpkg.ProbeEarlyExits | vcpkg/src/lib.rs:302-312 | the abort variable is checked before anything else, then the target, then the root lookup, then the root marker, whose failure is the error naming the missing `.vcpkg-root` |
| Vcpkg.ProbeOutcome | vcpkg/src/lib.rs:291-399 | after the early checks pass, the probe succeeds exactly when the marker and every artifact exist; it then returns the linkage, the directories under `installed/`, the directives in order and the files it found |
| Vcpkg.Config.constructor | vcpkg/src/lib.rs:223-240 | a new configuration leaves linkage to the environment, emits directives and has no lib names |
| Vcpkg.Config.Statik | vcpkg/src/lib.rs:245-248 | the linkage choice is recorded and nothing else changes |
| Vcpkg.Config.LibName | vcpkg/src/lib.rs:257-263 | one lib whose `.lib` and `.dll` share the stem is appended and nothing else changes |
| Vcpkg.Config.LibNames | vcpkg/src/lib.rs:272-278 | one lib with separate `.lib` and `.dll` stems is appended and nothing else changes |
| Vcpkg.Config.CargoMetadata | vcpkg/src/lib.rs:282-285 | the directive setting is recorded and nothing else changes |
| Vcpkg.Config.IsStatic | vcpkg/src/lib.rs:401-403 | the linkage is the recorded choice, or the environment's if none is recorded |
| Vcpkg.Config.Probe | vcpkg/src/lib.rs:291-399 | the lib names are defaulted in place; the result is `ProbeResult`'s; the directives are emitted only on success and only when enabled |
| Vcpkg.InstalledLibrary | vcpkg/src/lib.rs:314-372 | the loop over the required libs, with its early returns, computes the reference check `CheckLibs` |
| Vcpkg.EmitDirectives | vcpkg/src/lib.rs:393-397 | every directive is printed once, in order |
| Vcpkg.ProbeLibrary | vcpkg/src/lib.rs:153-155 | probing with a fresh configuration looks for one lib named after the port, and emits its directives on success |
| Vcpkg.ProbeTwice | vcpkg/src/lib.rs:295-300 | a second probe of the same configuration looks for the lib names that the first probe defaulted to |
| VcpkgExamples.EnvifyDashed | vcpkg/src/lib.rs:434-445 | `foo-bar` is looked up as `FOO_BAR`, and its abort variable is `FOO_BAR_NO_VCPKG` |
| VcpkgExamples.PackageDynamicBeatsAllStatic | vcpkg/src/lib.rs:419-432 | `FOO_DYNAMIC` overrides `VCPKG_ALL_STATIC`, and an explicit choice overrides both |
| VcpkgExamples.PackageStaticBeatsAll | vcpkg/src/lib.rs:419-432 | `FOO_STATIC` makes the linkage static unless an explicit choice says otherwise |
| VcpkgExamples.X64Target | vcpkg/src/lib.rs:447-457 | `x86_64-pc-windows-msvc` is the 64-bit target |
| VcpkgExamples.X86Target | vcpkg/src/lib.rs:447-457 | `i686-pc-windows-msvc` is the 32-bit target |
| VcpkgExamples.NoMsvcWithoutV | vcpkg/src/lib.rs:447-457 | a target without a `v` is never served |
| VcpkgExamples.GnuTargetRefused | vcpkg/src/lib.rs:447-457 | `x86_64-pc-windows-gnu` is refused |
| VcpkgExamples.TargetUnsetRefused | vcpkg/src/lib.rs:447-457 | an unset `TARGET` is refused |
| VcpkgExamples.MissingDllReported | vcpkg/src/lib.rs:342-370 | a dynamic probe whose `.lib` exists but whose `.dll` does not fails, naming `bin\<port>.dll` |
| Paths.ParseDisplay | vcpkg/src/lib.rs:189 | parsing a path's display text gives back the path |
| Paths.PopNSucceedsIff | vcpkg/src/lib.rs:188-192 | `n` pops succeed exactly when the path has at least `n` components, and drop the last `n` |
| Paths.PushRelativeComponent | vcpkg/src/lib.rs:351 | pushing a single separator-free, non-empty name adds exactly that component |
| Paths.SetExtensionOfPlainName | vcpkg/src/lib.rs:350-352 | pushing a dot-free, separator-free, non-empty name and setting the extension adds the component name `.` extension |
| Paths.SetExtensionOfEmptyName | vcpkg/src/lib.rs:350-352 | pushing the empty name adds nothing, so the extension is set on the last existing component |
| Paths.SetExtensionOfRelative | vcpkg/src/lib.rs:350-352 | pushing a relative name with separators adds all its components, and the extension goes on the last of them |
| VcpkgExamples.EmptyStemRenamesDirectories | vcpkg/src/lib.rs:350-363 | with an empty stem the files looked for are `lib.lib` beside `lib` and `bin.dll` beside `bin` |
| Strings.TrimStartMatches | cargo-vcpkg/src/main.rs:438 | the result is a suffix that no longer starts with the pattern, and unprefixed text is unchanged |
| Strings.TrimStartMatchesCopies | cargo-vcpkg/src/main.rs:438 | the text dropped in front of the result is a whole number of copies of the pattern |
| Strings.ParseU64OfDecimal | cargo-vcpkg/src/main.rs:458-459 | the decimal text of any u64 parses back to it |
| Strings.LinesOfJoin | cargo-vcpkg/src/main.rs:516-518 | splitting lines joined by newlines gives back those lines |

## Left out

- Decoding JSON into cargo metadata (serde and `cargo_metadata`): the model starts from packages whose vcpkg table is already decoded or was not decodable.
- The panic when cargo metadata has no `resolve` section: the model starts from the resolved root id, or from its absence.
- Spawning `cargo metadata`, `git` and vcpkg, the bootstrap scripts, and the rest of cargo-vcpkg's `main`: these are process and file-system effects, not part of this model.
- ParseAppleClangVersion: its own contract states only the u64 bound. What the function returns is stated in `AppleClangVersionFromFirstBanner` and `AppleClangVersionWithoutBanner`.
- Lines that are not valid UTF-8: `filter_map(Result::ok)` in the Apple clang parser drops them, and the model's input text is already characters. An unreadable line in the targets file is modelled.
- `env::var` and `env::var_os` both become a lookup in a map of strings. A `LOCALAPPDATA` that is not UTF-8 is treated the same as one that is missing.
- `PathBuf` handling outside the forms used here: UNC and verbatim prefixes, and `.` and `..` components.
- Paths.Display: a path is kept as its components, so displayed text is normalised. Repeated separators are collapsed, a trailing separator is dropped and `/` is shown as `\`. Rust prints the original text, so for example `VCPKG_ROOT=C:\vcpkg\\` is shown with a single separator.
- LibLocation: in Rust, pushing a lib stem with a drive prefix replaces the whole path, and pushing a stem with only a root keeps the base's drive prefix and replaces the rest. The model appends the stem's components instead. DllLocation has the same gap.
- The `Display` and `description` implementations of `Error`, and its hidden `__Nonexhaustive` variant.
- The printing of directives is modelled as the list returned by the probe, not as output to a stream.
- Integer widths: `parse::<u64>` is modelled with its bound 2^64 - 1. Other counts are unbounded.
