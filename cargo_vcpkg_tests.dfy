/**
 * The unit tests of cargo-vcpkg/src/main.rs, stated as lemmas about the
 * model. The workspaces are the ones the test manifests produce once
 * `cargo metadata` has run: the packages in its order (`dep` before `top`),
 * each with its decoded `[package.metadata.vcpkg]` block.
 */
module CargoVcpkgExamples {
  import opened Wrappers
  import opened Strings
  import opened CargoVcpkg

  /** A metadata block with only the general dependency lists set. */
  function Plain(deps: Option<seq<string>>, devDeps: Option<seq<string>>): (v: Vcpkg)
    ensures v.target == map[] && v.git.None? && v.dependencies == deps && v.devDependencies == devDeps
  {
    Vcpkg(map[], None, None, None, None, deps, devDeps)
  }

  const Msvc: string := "x86_64-pc-windows-msvc"

  /** `run_on_workspace_fails`: a virtual manifest has no root crate. */
  lemma RunOnWorkspaceFails()
    ensures Resolve(TopAndDep(Plain(Some(["z85"]), None)).(root := None), "") == Err(VirtualManifest)
  {
  }

  /** The two-crate workspace of the tests: `top` depends on `dep`, whose block is empty. */
  function TopAndDep(top: Vcpkg): (ws: Workspace)
    ensures |ws.packages| == 2 && ws.root == Some("top")
  {
    Workspace([Package("dep", Some(Plain(None, None))), Package("top", Some(top))], Some("top"))
  }

  /** An empty block of a non-root crate changes nothing. */
  lemma EmptyDep(top: Vcpkg, triple: string)
    ensures Resolve(TopAndDep(top), triple) == Visit(Start("top"), Package("top", Some(top)), triple)
  {
    var ws := TopAndDep(top);
    var root := Package("top", Some(top));
    assert ws.packages[1..] == [root];
    assert Contribution(Plain(None, None), false, triple) == [];
    assert Visit(Start("top"), ws.packages[0], triple) == Ok(Start("top"));
    assert Resolve(ws, triple) == VisitAll(Start("top"), [root], triple);
    assert [root][1..] == [];
    match Visit(Start("top"), root, triple)
    case Err(e) =>
      assert VisitAll(Start("top"), [root], triple) == Err(e);
    case Ok(acc) =>
      assert VisitAll(Start("top"), [root], triple) == VisitAll(acc, [], triple) == Ok(acc);
  }

  /** `install_in_root_crate`: the root crate's `install` list is installed. */
  lemma InstallInRootCrate()
    ensures Resolve(TopAndDep(Plain(Some(["z85"]), None)), "").Ok?
    ensures Resolve(TopAndDep(Plain(Some(["z85"]), None)), "").value.ports == ["z85"]
  {
    EmptyDep(Plain(Some(["z85"]), None), "");
  }

  /** `same_dependencies_but_specified_triplet`: a triplet-only override keeps the general list. */
  lemma SameDependenciesButSpecifiedTriplet()
    ensures var top := Plain(Some(["z85"]), None).(target := map[Msvc := Target(Some("x64-windows-static-md"), None, None)]);
      && Resolve(TopAndDep(top), Msvc).Ok?
      && Resolve(TopAndDep(top), Msvc).value.ports == ["z85"]
      && Resolve(TopAndDep(top), Msvc).value.triplet == Some("x64-windows-static-md")
  {
    var top := Plain(Some(["z85"]), None).(target := map[Msvc := Target(Some("x64-windows-static-md"), None, None)]);
    EmptyDep(top, Msvc);
    assert Contribution(top, true, Msvc) == ["z85"];
  }

  /** `specified_triplet_requires_no_dependencies`: an empty override list installs nothing. */
  lemma SpecifiedTripletRequiresNoDependencies()
    ensures var top := Plain(Some(["z85"]), None).(target := map[Msvc := Target(Some("x64-windows-static-md"), Some([]), None)]);
      && Resolve(TopAndDep(top), Msvc).Ok?
      && Resolve(TopAndDep(top), Msvc).value.ports == []
      && Resolve(TopAndDep(top), Msvc).value.triplet == Some("x64-windows-static-md")
  {
    var top := Plain(Some(["z85"]), None).(target := map[Msvc := Target(Some("x64-windows-static-md"), Some([]), None)]);
    EmptyDep(top, Msvc);
    assert Contribution(top, true, Msvc) == [];
  }

  function CombineTop(): Vcpkg {
    Plain(Some(["a"]), Some(["d"])).(target := map[Msvc := Target(Some("x64-windows-static-md"), None, Some(["b", "c"]))])
  }

  function CombineDep(): Vcpkg {
    Plain(Some(["m"]), Some(["n"])).(target := map[Msvc := Target(Some("x64-windows-static-md"), Some(["o"]), Some(["p"]))])
  }

  function CombineWorkspace(): Workspace {
    Workspace([Package("dep", Some(CombineDep())), Package("top", Some(CombineTop()))], Some("top"))
  }

  /**
   * `combine_deps_from_all_crates`: for the MSVC target the dependency's
   * override list and the root's override dev-dependencies are installed
   * (the test compares them sorted: a, b, c, o); for any other target the
   * general lists, with the root's dev-dependencies only (a, d, m).
   */
  lemma CombineDepsFromAllCrates()
    ensures Resolve(CombineWorkspace(), Msvc).Ok?
    ensures Resolve(CombineWorkspace(), Msvc).value.ports == ["o", "a", "b", "c"]
    ensures Resolve(CombineWorkspace(), Msvc).value.triplet == Some("x64-windows-static-md")
    ensures Resolve(CombineWorkspace(), "").Ok?
    ensures Resolve(CombineWorkspace(), "").value.ports == ["m", "a", "d"]
  {
    var ws := CombineWorkspace();
    assert ws.packages[1..] == [ws.packages[1]];
    assert Contribution(CombineDep(), false, Msvc) == ["o"];
    assert Contribution(CombineTop(), true, Msvc) == ["a", "b", "c"];
    assert Contribution(CombineDep(), false, "") == ["m"];
    assert Contribution(CombineTop(), true, "") == ["a", "d"];
  }

  /** A banner line `Apple clang version <digits>.<rest>` yields the digits. */
  lemma MajorOfBanner(d: string, tail: string)
    requires d != [] && AllDigits(d)
    ensures MajorVersionText(AppleClangVersion + d + "." + tail) == d
  {
    var line := AppleClangVersion + d + "." + tail;
    var rest := d + ['.'] + tail;
    assert line[..|AppleClangVersion|] == AppleClangVersion;
    assert line[|AppleClangVersion|..] == rest;
    assert !StartsWith(rest, AppleClangVersion) by { assert rest[0] != AppleClangVersion[0]; }
    DigitsExclude(d, '.');
    IndexOfJoined(d, '.', tail);
    assert rest[..|d|] == d;
  }

  /** A banner line after lines that do not carry it yields its major version. */
  lemma BannerVersion(first: seq<string>, d: string, tail: string)
    requires forall k :: 0 <= k < |first| ==> first[k] != [] && '\n' !in first[k]
    requires forall k :: 0 <= k < |first| ==> first[k][|first[k]| - 1] != '\r' && first[k][0] != 'A'
    requires d != [] && AllDigits(d) && '\n' !in tail && tail != [] && tail[|tail| - 1] != '\r'
    ensures ParseAppleClangVersion(Join(first + [AppleClangVersion + d + "." + tail], "\n")) == ParseU64(d)
  {
    var banner := AppleClangVersion + d + "." + tail;
    var lines := first + [banner];
    DigitsExclude(d, '\n');
    assert banner[|banner| - 1] == tail[|tail| - 1];
    assert forall k :: 0 <= k < |lines| ==> lines[k] == (if k < |first| then first[k] else banner);
    LinesOfJoin(lines);
    assert StartsWith(banner, AppleClangVersion) by { assert banner[..|AppleClangVersion|] == AppleClangVersion; }
    assert IsFirstWithPrefix(lines, AppleClangVersion, |first|) by {
      forall j | 0 <= j < |first| ensures !StartsWith(lines[j], AppleClangVersion) {
        assert lines[j][0] != AppleClangVersion[0];
      }
    }
    AppleClangVersionFromFirstBanner(Join(lines, "\n"), |first|);
    MajorOfBanner(d, tail);
  }

  /** The banner version read from a text given as its lines. */
  lemma VersionOfText(output: string, first: seq<string>, d: string, tail: string)
    requires output == Join(first + [AppleClangVersion + d + "." + tail], "\n")
    requires forall k :: 0 <= k < |first| ==> first[k] != [] && '\n' !in first[k]
    requires forall k :: 0 <= k < |first| ==> first[k][|first[k]| - 1] != '\r' && first[k][0] != 'A'
    requires d != [] && AllDigits(d) && '\n' !in tail && tail != [] && tail[|tail| - 1] != '\r'
    ensures ParseAppleClangVersion(output) == ParseU64(d)
  {
    BannerVersion(first, d, tail);
  }

  /** The major versions the tests expect, as `parse::<u64>` reads them. */
  lemma SmallVersions()
    ensures ParseU64("9") == Some(9) && ParseU64("10") == Some(10)
    ensures ParseU64("11") == Some(11) && ParseU64("12") == Some(12)
  {
    assert "10"[..1] == "1" && "11"[..1] == "1" && "12"[..1] == "1";
  }

  lemma SecondLineBanner()
    ensures "la la la\nApple clang version 9.0.1" == Join(["la la la"] + [AppleClangVersion + "9" + "." + "0.1"], "\n")
  {
    var banner := AppleClangVersion + "9" + "." + "0.1";
    var lines := ["la la la"] + [banner];
    assert lines[1..] == [banner];
    assert Join(lines, "\n") == "la la la" + "\n" + banner;
  }

  /** `test_parse_apple_clang_version`: the banner may follow other lines. */
  lemma AppleClangAfterOtherLines(output: string)
    requires output == "la la la\nApple clang version 9.0.1"
    ensures ParseAppleClangVersion(output) == Some(9)
  {
    SecondLineBanner();
    VersionOfText(output, ["la la la"], "9", "0.1");
    SmallVersions();
  }

  lemma ThirdLineBanner()
    ensures "ho ho ho\n" + "he he he\n" + "Apple clang version 10.0.1"
            == Join(["ho ho ho", "he he he"] + [AppleClangVersion + "10" + "." + "0.1"], "\n")
  {
    var banner := AppleClangVersion + "10" + "." + "0.1";
    var lines := ["ho ho ho", "he he he"] + [banner];
    assert lines[1..] == ["he he he", banner] && lines[1..][1..] == [banner];
    assert Join(lines[1..], "\n") == "he he he" + "\n" + banner;
    assert Join(lines, "\n") == "ho ho ho" + "\n" + ("he he he" + "\n" + banner);
    assert banner == "Apple clang version 10.0.1";
    assert "ho ho ho\n" == "ho ho ho" + "\n" && "he he he\n" == "he he he" + "\n";
  }

  lemma AppleClangAfterTwoLines(output: string)
    requires output == "ho ho ho\n" + "he he he\n" + "Apple clang version 10.0.1"
    ensures ParseAppleClangVersion(output) == Some(10)
  {
    ThirdLineBanner();
    VersionOfText(output, ["ho ho ho", "he he he"], "10", "0.1");
    SmallVersions();
  }

  lemma AppleClangOnFirstLine(output: string)
    requires output == "Apple clang version 11.0.1"
    ensures ParseAppleClangVersion(output) == Some(11)
  {
    assert output == Join([] + [AppleClangVersion + "11" + "." + "0.1"], "\n");
    VersionOfText(output, [], "11", "0.1");
    SmallVersions();
  }

  lemma AppleClangTwelve(output: string)
    requires output == "Apple clang version 12.0.1"
    ensures ParseAppleClangVersion(output) == Some(12)
  {
    assert output == Join([] + [AppleClangVersion + "12" + "." + "0.1"], "\n");
    VersionOfText(output, [], "12", "0.1");
    SmallVersions();
  }

  lemma NotAppleClang(output: string)
    requires output == "Opple clong version 12.0.1"
    ensures ParseAppleClangVersion(output) == None
  {
    assert Join([output], "\n") == output;
    LinesOfJoin([output]);
    assert !StartsWith(output, AppleClangVersion) by { assert output[0] != AppleClangVersion[0]; }
    AppleClangVersionWithoutBanner(output);
  }
}
