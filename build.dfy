/**
 * `TestPackageConan.build`: the CMake definitions table filled entry by
 * entry, the CMake build, and the second build of the extension module
 * through `setup.py` with its argument list.
 */
module Build {
  import opened Wrappers
  import opened PyStr
  import opened Versions
  import opened Abi
  import opened Recipe

  /**
   * The entries `build` sets in `cmake.definitions`, in the order it sets
   * them. KeyName gives the name of the CMake variable each one sets.
   */
  datatype Key =
    | BuildModule | PyVersionMajor | PyVersionMajorMinor | PyFullVersion | PyVersionNumber
    | PyVersionSuffix | PythonExecutable | UseFindPythonX
    | Executable | RootDir | UseStaticLibs | FindFramework | FindRegistry
    | FindImplementations | FindStrategy | FindAbi
  {
    /** The keys written `"Python{}_...".format(py_major)`. */
    predicate IsVersioned()
    {
      !(BuildModule? || PyVersionMajor? || PyVersionMajorMinor? || PyFullVersion? || PyVersionNumber?
        || PyVersionSuffix? || PythonExecutable? || UseFindPythonX?)
    }
  }

  /** `"Python{}_<name>".format(py_major)`. */
  function PythonKey(major: string, name: string): string
  {
    "Python" + major + "_" + name
  }

  /** The part of a `Python{major}_*` variable name after the underscore. */
  function Setting(k: Key): string
    requires k.IsVersioned()
  {
    match k
    case Executable => "EXECUTABLE"
    case RootDir => "ROOT_DIR"
    case UseStaticLibs => "USE_STATIC_LIBS"
    case FindFramework => "FIND_FRAMEWORK"
    case FindRegistry => "FIND_REGISTRY"
    case FindImplementations => "FIND_IMPLEMENTATIONS"
    case FindStrategy => "FIND_STRATEGY"
    case FindAbi => "FIND_ABI"
  }

  /** The name of a fixed variable. `USE_FINDPYTHON_X` is one: its `.format` has no placeholder. */
  function FixedName(k: Key): string
    requires !k.IsVersioned()
  {
    match k
    case BuildModule => "BUILD_MODULE"
    case PyVersionMajor => "PY_VERSION_MAJOR"
    case PyVersionMajorMinor => "PY_VERSION_MAJOR_MINOR"
    case PyFullVersion => "PY_FULL_VERSION"
    case PyVersionNumber => "PY_VERSION"
    case PyVersionSuffix => "PY_VERSION_SUFFIX"
    case PythonExecutable => "PYTHON_EXECUTABLE"
    case UseFindPythonX => "USE_FINDPYTHON_X"
  }

  /** The CMake variable an entry sets, for the major version `py_major`. */
  function KeyName(k: Key, major: string): string
  {
    if k.IsVersioned() then PythonKey(major, Setting(k)) else FixedName(k)
  }

  /** The `Python{major}_*` names are told apart by what follows the prefix. */
  lemma PythonKeysDiffer(major: string, a: string, b: string)
    requires a != b
    ensures PythonKey(major, a) != PythonKey(major, b)
  {
    var p := "Python" + major + "_";
    assert PythonKey(major, a)[|p|..] == a;
    assert PythonKey(major, b)[|p|..] == b;
  }

  /**
   * No two entries set the same CMake variable, whatever the major version:
   * no assignment of `build` overwrites another, so the table keyed by Key
   * is the dictionary the recipe hands to CMake.
   */
  lemma KeyNamesDiffer(major: string)
    ensures forall a, b :: a != b ==> KeyName(a, major) != KeyName(b, major)
  {
    forall a, b | a != b
      ensures KeyName(a, major) != KeyName(b, major)
    {
      if a.IsVersioned() && b.IsVersioned() {
        PythonKeysDiffer(major, Setting(a), Setting(b));
      } else if a.IsVersioned() {
        assert KeyName(a, major)[1] == 'y' != FixedName(b)[1];
      } else if b.IsVersioned() {
        assert KeyName(b, major)[1] == 'y' != FixedName(a)[1];
      }
    }
  }

  /** The dictionary CMake receives: each entry under the name of its variable. */
  function CMakeDefinitions(defs: map<Key, Value>, major: string): (table: map<string, Value>)
    ensures forall k :: k in defs ==> KeyName(k, major) in table && table[KeyName(k, major)] == defs[k]
    ensures forall name :: name in table ==> exists k :: k in defs && name == KeyName(k, major)
  {
    KeyNamesDiffer(major);
    map k | k in defs :: KeyName(k, major) := defs[k]
  }

  /** The table `build` fills once `_py_version` is known, in the order it fills it. */
  function Definitions(r: Recipe, pyVersion: string): map<Key, Value>
  {
    var abi := CmakeAbi(r, pyVersion);
    var defs := map[
      BuildModule := Flag(SupportsModules(r)),
      PyVersionMajor := Text(Major(r.version)),
      PyVersionMajorMinor := Text(MajorMinor(pyVersion)),
      PyFullVersion := Text(r.version),
      PyVersionNumber := Text(pyVersion),
      PyVersionSuffix := Text(abi.Suffix()),
      PythonExecutable := Text(r.python),
      UseFindPythonX := Flag(TryFindPythonX(r)),
      Executable := Text(r.python),
      RootDir := Text(r.rootpath),
      UseStaticLibs := Flag(!r.shared),
      FindFramework := Text("NEVER"),
      FindRegistry := Text("NEVER"),
      FindImplementations := Text("CPython"),
      FindStrategy := Text("LOCATION")
    ];
    if r.compiler != VisualStudio && BelowCutoff(pyVersion) then defs[FindAbi := Text(abi.CmakeArg())] else defs
  }

  /**
   * The switches: the module build is off only for Visual Studio with a
   * static cpython, FindPythonX is off only for a Visual Studio Debug build,
   * and static libraries are asked for exactly when cpython is not shared.
   */
  lemma SwitchEntries(r: Recipe, pyVersion: string)
    ensures var defs := Definitions(r, pyVersion);
      && defs[BuildModule] == Flag(!(r.compiler == VisualStudio && !r.shared))
      && defs[UseFindPythonX] == Flag(!(r.compiler == VisualStudio && r.buildType == Debug))
      && defs[UseStaticLibs] == Flag(!r.shared)
  {
  }

  /** The version parts: the major part of the full version and the major.minor part of `_py_version`. */
  lemma VersionPartEntries(r: Recipe, pyVersion: string)
    ensures var defs := Definitions(r, pyVersion);
      && defs[PyVersionMajor] == Text(Major(r.version))
      && defs[PyVersionMajorMinor] == Text(MajorMinor(pyVersion))
  {
  }

  /** The whole versions: the dependency's full version and `_py_version`. */
  lemma VersionEntries(r: Recipe, pyVersion: string)
    ensures var defs := Definitions(r, pyVersion);
      && defs[PyFullVersion] == Text(r.version)
      && defs[PyVersionNumber] == Text(pyVersion)
  {
  }

  /** The suffix entry is "d" for a Debug build followed by "m" when pymalloc counts. */
  lemma SuffixEntry(r: Recipe, pyVersion: string)
    ensures Definitions(r, pyVersion)[PyVersionSuffix] ==
      Text((if r.buildType == Debug then "d" else "") + (if BelowCutoff(pyVersion) && Pymalloc(r) then "m" else ""))
  {
    CmakeAbiStrings(r, pyVersion);
  }

  /**
   * FindPython is pointed at the dependency's interpreter and root folder,
   * the interpreter given twice, under both names.
   */
  lemma InterpreterEntries(r: Recipe, pyVersion: string)
    ensures var defs := Definitions(r, pyVersion);
      && defs[PythonExecutable] == defs[Executable] == Text(r.python)
      && defs[RootDir] == Text(r.rootpath)
  {
  }

  /** FindPython is told to look only there: no frameworks, no registry, only CPython, by location. */
  lemma SearchEntries(r: Recipe, pyVersion: string)
    ensures var defs := Definitions(r, pyVersion);
      && defs[FindFramework] == defs[FindRegistry] == Text("NEVER")
      && defs[FindImplementations] == Text("CPython")
      && defs[FindStrategy] == Text("LOCATION")
  {
  }

  /** `Python{major}_FIND_ABI` is set exactly for a compiler other than Visual Studio and a version below 3.8. */
  lemma FindAbiPresence(r: Recipe, pyVersion: string)
    ensures FindAbi in Definitions(r, pyVersion) <==> r.compiler != VisualStudio && BelowCutoff(pyVersion)
  {
  }

  /**
   * When set, `Python{major}_FIND_ABI` holds the CMake argument of the ABI:
   * debug as the build type says, pymalloc as the option says, unicode off.
   */
  lemma FindAbiValue(r: Recipe, pyVersion: string)
    requires r.compiler != VisualStudio && BelowCutoff(pyVersion)
    ensures var defs := Definitions(r, pyVersion);
      && FindAbi in defs && defs[FindAbi].Text?
      && ParseCmakeArg(defs[FindAbi].s)
         == Some(CmakePython3Abi(Some(r.buildType == Debug), Some(Pymalloc(r)), Some(false)))
  {
    CmakeArgRoundTrip(CmakeAbi(r, pyVersion));
  }

  /** The assignments of `build` to `cmake.definitions`, one after the other. */
  method FillDefinitions(r: Recipe, pyVersion: string) returns (defs: map<Key, Value>)
    ensures defs == Definitions(r, pyVersion)
  {
    var major := Major(r.version);
    var abi := CmakeAbi(r, pyVersion);
    defs := map[];
    defs := defs[BuildModule := Flag(SupportsModules(r))];
    defs := defs[PyVersionMajor := Text(major)];
    defs := defs[PyVersionMajorMinor := Text(MajorMinor(pyVersion))];
    defs := defs[PyFullVersion := Text(r.version)];
    defs := defs[PyVersionNumber := Text(pyVersion)];
    defs := defs[PyVersionSuffix := Text(abi.Suffix())];
    defs := defs[PythonExecutable := Text(r.python)];
    defs := defs[UseFindPythonX := Flag(TryFindPythonX(r))];
    defs := defs[Executable := Text(r.python)];
    defs := defs[RootDir := Text(r.rootpath)];
    defs := defs[UseStaticLibs := Flag(!r.shared)];
    defs := defs[FindFramework := Text("NEVER")];
    defs := defs[FindRegistry := Text("NEVER")];
    defs := defs[FindImplementations := Text("CPython")];
    defs := defs[FindStrategy := Text("LOCATION")];
    if r.compiler != VisualStudio {
      if BelowCutoff(pyVersion) {
        defs := defs[FindAbi := Text(abi.CmakeArg())];
      }
    }
  }

  // ---------------------------------------------------------------------
  // The setup.py build
  // ---------------------------------------------------------------------

  /** `"{} --version".format(python)`, run before building unless cross-building. */
  function VersionCommand(r: Recipe): Command
  {
    Command(r.python + " --version", map[])
  }

  /** The argument list given to setup.py. */
  function SetupArgs(r: Recipe): seq<string>
  {
    [r.sourceFolder + "/setup.py", "build", "--build-base", r.buildFolder,
     "--build-platlib", PathJoin(r.buildFolder, "lib_setuptools")]
    + (if r.buildType == Debug then ["--debug"] else [])
  }

  /** The environment of the setup.py run: the SDK switches, then the autotools variables over them. */
  function SetupEnv(h: Host): map<string, string>
  {
    map["DISTUTILS_USE_SDK" := "1", "MSSdk" := "1"] + h.autotoolsEnv
  }

  /** The interpreter followed by each setup.py argument in double quotes, separated by spaces. */
  function SetupCommand(r: Recipe, h: Host): Command
  {
    Command(r.python + " " + QuotedArgs(SetupArgs(r)), SetupEnv(h))
  }

  /**
   * The setup.py arguments in order: the script, `build`, the build base,
   * the platform library folder `lib_setuptools` under the build folder,
   * and `--debug` last exactly for a Debug build.
   */
  lemma SetupArgsOrder(r: Recipe)
    ensures var args := SetupArgs(r);
      && |args| == (if r.buildType == Debug then 7 else 6)
      && args[0] == r.sourceFolder + "/setup.py" && args[1] == "build"
      && args[2] == "--build-base" && args[3] == r.buildFolder && args[4] == "--build-platlib"
      && (r.buildFolder != "" && r.buildFolder[|r.buildFolder| - 1] != '/' ==>
            args[5] == r.buildFolder + "/lib_setuptools")
      && (r.buildType == Debug ==> args[6] == "--debug")
  {
  }

  /** No setup.py argument holds a double quote unless one of the folders does. */
  lemma SetupArgsUnquoted(r: Recipe)
    requires '"' !in r.sourceFolder && '"' !in r.buildFolder
    ensures forall a :: a in SetupArgs(r) ==> '"' !in a
  {
    var p := PathJoin(r.buildFolder, "lib_setuptools");
    assert p == r.buildFolder + "lib_setuptools" || p == r.buildFolder + "/lib_setuptools";
    assert '"' !in r.sourceFolder + "/setup.py";
  }

  /**
   * The setup.py command line is the interpreter, a space, and the quoted
   * arguments, which read back to the argument list when no folder name
   * holds a double quote.
   */
  lemma SetupCommandReadsBack(r: Recipe, h: Host)
    requires '"' !in r.sourceFolder && '"' !in r.buildFolder
    ensures var line := SetupCommand(r, h).line;
      && r.python + " " <= line
      && Unquote(line[|r.python| + 1..]) == Some(SetupArgs(r))
  {
    var args := SetupArgs(r);
    SetupArgsUnquoted(r);
    UnquoteQuotedArgs(args);
    assert (r.python + " " + QuotedArgs(args))[|r.python| + 1..] == QuotedArgs(args);
  }

  /** The setup.py build runs only when not cross-building and when modules are supported. */
  predicate SetupRuns(r: Recipe, h: Host)
  {
    !h.crossBuilding && SupportsModules(r)
  }

  /** What a successful build leaves: the definitions CMake built with, and the setup.py command if it ran. */
  datatype Built = Built(definitions: map<Key, Value>, setup: Option<Command>)

  /**
   * `build`: check the interpreter runs, fill the definitions, build with
   * CMake, then build the module again with setup.py. The first step that
   * fails ends the build with its error.
   */
  method Build(r: Recipe, h: Host) returns (res: Result<Built, Error>)
    ensures !h.crossBuildingSkipX64X86 && !h.succeeds(VersionCommand(r)) ==>
      res == Failure(CommandFailed(VersionCommand(r)))
    ensures (h.crossBuildingSkipX64X86 || h.succeeds(VersionCommand(r))) && PyVersion(r.version).None? ==>
      res == Failure(NoVersionPrefix(r.version))
    ensures (h.crossBuildingSkipX64X86 || h.succeeds(VersionCommand(r))) && PyVersion(r.version).Some? ==>
      var defs := Definitions(r, PyVersion(r.version).value);
      res == if !h.cmakeSucceeds(CMakeDefinitions(defs, Major(r.version))) then Failure(CMakeFailed)
             else if !SetupRuns(r, h) then Success(Built(defs, None))
             else if h.succeeds(SetupCommand(r, h)) then Success(Built(defs, Some(SetupCommand(r, h))))
             else Failure(CommandFailed(SetupCommand(r, h)))
  {
    if !h.crossBuildingSkipX64X86 {
      // The first of the two runs ignores errors and only logs the output.
      if !h.succeeds(VersionCommand(r)) {
        return Failure(CommandFailed(VersionCommand(r)));
      }
    }

    var major := Major(r.version);
    var pyVersion := PyVersion(r.version);
    if pyVersion.None? {
      return Failure(NoVersionPrefix(r.version));
    }
    var defs := FillDefinitions(r, pyVersion.value);

    if !h.cmakeSucceeds(CMakeDefinitions(defs, major)) {
      return Failure(CMakeFailed);
    }

    var setup: Option<Command> := None;
    if !h.crossBuilding {
      if SupportsModules(r) {
        var env := SetupEnv(h);
        var setupArgs := [
          r.sourceFolder + "/setup.py",
          "build",
          "--build-base", r.buildFolder,
          "--build-platlib", PathJoin(r.buildFolder, "lib_setuptools")
        ];
        if r.buildType == Debug {
          setupArgs := setupArgs + ["--debug"];
        }
        assert setupArgs == SetupArgs(r);
        var command := Command(r.python + " " + QuotedArgs(setupArgs), env);
        if !h.succeeds(command) {
          return Failure(CommandFailed(command));
        }
        setup := Some(command);
      }
    }
    return Success(Built(defs, setup));
  }
}
