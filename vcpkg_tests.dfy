/**
 * Concrete consequences of the probe model: the environment-variable
 * spellings, the target triples that are and are not served, and the
 * error a dynamic probe reports when only the `.dll` is missing.
 */
module VcpkgExamples {
  import opened Wrappers
  import opened Strings
  import opened Paths
  import opened Vcpkg

  /** `foo-bar` is looked up as `FOO_BAR_STATIC`, `FOO_BAR_NO_VCPKG` and so on. */
  lemma EnvifyDashed()
    ensures Envify("foo-bar") == "FOO_BAR"
    ensures AbortVarName("foo-bar") == "FOO_BAR_NO_VCPKG"
  {
    assert Envify("foo-bar") == "FOO_BAR" by {
      var e := Envify("foo-bar");
      assert e[0] == 'F' && e[1] == 'O' && e[2] == 'O' && e[3] == '_';
      assert e[4] == 'B' && e[5] == 'A' && e[6] == 'R';
    }
  }

  lemma EnvifyFoo()
    ensures Envify("foo") == "FOO"
  {
    var e := Envify("foo");
    assert e[0] == 'F' && e[1] == 'O' && e[2] == 'O';
  }

  /** A per-package `FOO_DYNAMIC` overrides a global `VCPKG_ALL_STATIC`. */
  lemma PackageDynamicBeatsAllStatic(env: Env)
    requires "FOO_DYNAMIC" in env && "VCPKG_ALL_STATIC" in env && "FOO_STATIC" !in env
    ensures !InferStatic("foo", env)
    ensures ChooseStatic(Some(true), "foo", env)
  {
    EnvifyFoo();
    assert "FOO" + "_STATIC" == "FOO_STATIC" && "FOO" + "_DYNAMIC" == "FOO_DYNAMIC";
  }

  /** A per-package `FOO_STATIC` wins over everything else in the environment. */
  lemma PackageStaticBeatsAll(env: Env)
    requires "FOO_STATIC" in env
    ensures InferStatic("foo", env)
    ensures !ChooseStatic(Some(false), "foo", env)
  {
    EnvifyFoo();
    assert "FOO" + "_STATIC" == "FOO_STATIC";
  }

  lemma X64Target(env: Env)
    requires env == map["TARGET" := "x86_64-pc-windows-msvc"]
    ensures MsvcTarget(env) == Ok(X64)
  {
    var t := env["TARGET"];
    assert OccursAt(t, "-pc-windows-msvc", 6) by { assert t[6..22] == "-pc-windows-msvc"; }
    assert StartsWith(t, "x86_64-") by { assert t[..7] == "x86_64-"; }
  }

  lemma X86Target(env: Env)
    requires env == map["TARGET" := "i686-pc-windows-msvc"]
    ensures MsvcTarget(env) == Ok(X86)
  {
    var t := env["TARGET"];
    assert OccursAt(t, "-pc-windows-msvc", 4) by { assert t[4..20] == "-pc-windows-msvc"; }
    assert !StartsWith(t, "x86_64-") by { assert t[1] != 'x'; }
  }

  /** A target without a `v` cannot contain `-pc-windows-msvc`. */
  lemma NoMsvcWithoutV(env: Env)
    requires "TARGET" in env && 'v' !in env["TARGET"]
    ensures MsvcTarget(env) == Err(NotMSVC)
  {
    var t := env["TARGET"];
    forall j: nat ensures !OccursAt(t, "-pc-windows-msvc", j) {
      if j + 16 <= |t| {
        assert t[j..j + 16][14] == t[j + 14] != 'v';
      }
    }
  }

  lemma GnuTargetRefused(env: Env)
    requires env == map["TARGET" := "x86_64-pc-windows-gnu"]
    ensures MsvcTarget(env) == Err(NotMSVC)
  {
    NoMsvcWithoutV(env);
  }

  lemma TargetUnsetRefused(env: Env)
    requires "TARGET" !in env
    ensures MsvcTarget(env) == Err(NotMSVC)
  {
  }

  /**
   * A dynamic probe for a port whose `.lib` is installed but whose `.dll`
   * is not fails, naming the missing `bin\<port>.dll`.
   */
  lemma MissingDllReported(port: string, env: Env, fs: FileSystem)
    requires IsComponent(port) && '.' !in port
    requires AbortVarName(port) !in env && MsvcTarget(env).Ok? && VcpkgRootFrom(env, fs).Ok?
    requires Push(VcpkgRootFrom(env, fs).value, ".vcpkg-root") in fs.present
    requires !InferStatic(port, env)
    requires var base := BaseDir(VcpkgRootFrom(env, fs).value, MsvcTarget(env).value, false);
      && Push(Push(base, "lib"), port + ".lib") in fs.present
      && Push(Push(base, "bin"), port + ".dll") !in fs.present
    ensures var base := BaseDir(VcpkgRootFrom(env, fs).value, MsvcTarget(env).value, false);
      ProbeResult([Names(port, port)], None, port, env, fs) == Err(LibNotFound(Display(Push(Push(base, "bin"), port + ".dll"))))
  {
    var base := BaseDir(VcpkgRootFrom(env, fs).value, MsvcTarget(env).value, false);
    assert ProbeResult([Names(port, port)], None, port, env, fs) ==
      CheckLibs(StartLibrary(base, false), [Names(port, port)], Push(base, "lib"), Push(base, "bin"), false, fs);
    DllMissing(base, port, fs);
  }

  lemma DllMissing(base: Path, port: string, fs: FileSystem)
    requires IsComponent(port) && '.' !in port
    requires Push(Push(base, "lib"), port + ".lib") in fs.present && Push(Push(base, "bin"), port + ".dll") !in fs.present
    ensures CheckLibs(StartLibrary(base, false), [Names(port, port)], Push(base, "lib"), Push(base, "bin"), false, fs)
            == Err(LibNotFound(Display(Push(Push(base, "bin"), port + ".dll"))))
  {
    SetExtensionOfPlainName(Push(base, "lib"), port, "lib");
    SetExtensionOfPlainName(Push(base, "bin"), port, "dll");
    assert port + "." + "lib" == port + ".lib" && port + "." + "dll" == port + ".dll";
    assert LibLocation(Push(base, "lib"), Names(port, port)) == Push(Push(base, "lib"), port + ".lib");
    assert DllLocation(Push(base, "bin"), Names(port, port)) == Push(Push(base, "bin"), port + ".dll");
    CheckLibsHeadMissing(StartLibrary(base, false), [Names(port, port)], Push(base, "lib"), Push(base, "bin"), false, fs);
  }

  /**
   * An empty lib stem names no file inside `lib` and `bin`: the extension
   * lands on the directories themselves, giving `lib.lib` and `bin.dll`
   * beside them.
   */
  lemma EmptyStemRenamesDirectories(base: Path)
    ensures LibLocation(Push(base, "lib"), Names("", "")) == Push(base, "lib.lib")
    ensures DllLocation(Push(base, "bin"), Names("", "")) == Push(base, "bin.dll")
  {
    SetExtensionOfEmptyName(Push(base, "lib"), "lib");
    SetExtensionOfEmptyName(Push(base, "bin"), "dll");
    assert Push(base, "lib").parts[..|base.parts|] == base.parts;
    assert Push(base, "bin").parts[..|base.parts|] == base.parts;
    assert "lib" + "." + "lib" == "lib.lib" && "bin" + "." + "dll" == "bin.dll";
  }
}
