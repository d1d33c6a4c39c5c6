/**
 * `TestPackageConan`: what the test-package recipe reads from its settings,
 * from the cpython dependency and from the host it runs on, and the derived
 * properties `_pymalloc`, `_cmake_abi`, `_cmake_try_FindPythonX`,
 * `_supports_modules` and `_cpython_option`.
 */
module Recipe {
  import opened Wrappers
  import opened Versions
  import opened PyStr
  import opened Abi

  /** The settings, the cpython dependency's metadata and options, and the recipe folders. */
  datatype Recipe = Recipe(
    buildType: string,                 // settings.build_type
    compiler: string,                  // settings.compiler
    version: string,                   // deps_cpp_info["cpython"].version
    rootpath: string,                  // deps_cpp_info["cpython"].rootpath
    python: string,                    // deps_user_info["cpython"].python
    pythonhome: string,                // deps_user_info["cpython"].pythonhome
    moduleRequiresPythonhome: string,  // deps_user_info["cpython"].module_requires_pythonhome
    shared: bool,                      // options["cpython"].shared
    options: map<string, bool>,        // the other boolean options of cpython that exist
    sourceFolder: string,
    buildFolder: string)

  /** A command line and the environment variables appended for the duration of its run. */
  datatype Command = Command(line: string, env: map<string, string>)

  /** A value of the CMake definitions table. */
  datatype Value = Flag(b: bool) | Text(s: string)

  /**
   * What the recipe learns from outside: the cross-building checks, whether
   * the host is an Apple OS, the variables of the autotools build
   * environment, and, for every command, whether it exits successfully and
   * what it prints. `cmakeSucceeds` says whether configuring and building
   * with a definitions table succeeds.
   */
  datatype Host = Host(
    crossBuilding: bool,               // tools.cross_building(self)
    crossBuildingSkipX64X86: bool,     // tools.cross_building(self, skip_x64_x86=True)
    isAppleOs: bool,                   // tools.is_apple_os(self.settings.os)
    autotoolsEnv: map<string, string>, // AutoToolsBuildEnvironment(self).vars
    succeeds: Command -> bool,
    output: Command -> string,
    cmakeSucceeds: map<string, Value> -> bool)

  /** The errors that end a build or a test. */
  datatype Error =
    | CommandFailed(cmd: Command)              // a run exited with an error
    | NoVersionPrefix(version: string)         // `^([0-9.]+)` did not match the version
    | CMakeFailed                              // CMake configure or build failed
    | NoVersionOutput                          // the version probe printed no line
    | WrongVersion(expected: string, got: string)
    | WorksUnexpectedly(name: string)          // "Module '...' works, but should not have worked"

  const VisualStudio := "Visual Studio"
  const Debug := "Debug"

  /** `_cpython_option(name)`: the option's value, or false when cpython has no such option. */
  function CpythonOption(r: Recipe, name: string): (on: bool)
    ensures on ==> name in r.options
    ensures name in r.options ==> on == r.options[name]
  {
    name in r.options && r.options[name]
  }

  /** `_pymalloc`: whether cpython has a pymalloc option and it is on. */
  function Pymalloc(r: Recipe): bool
  {
    CpythonOption(r, "pymalloc")
  }

  /**
   * `_cmake_abi`: debug follows the build type, unicode is always off, and
   * pymalloc follows the option only below version 3.8.
   */
  function CmakeAbi(r: Recipe, pyVersion: string): (abi: CmakePython3Abi)
    ensures abi.debug == Some(r.buildType == Debug)
    ensures abi.unicode == Some(false)
    ensures abi.pymalloc == Some(BelowCutoff(pyVersion) && "pymalloc" in r.options && r.options["pymalloc"])
  {
    if BelowCutoff(pyVersion) then
      CmakePython3Abi(Some(r.buildType == Debug), Some(Pymalloc(r)), Some(false))
    else
      CmakePython3Abi(Some(r.buildType == Debug), Some(false), Some(false))
  }

  /** `_cmake_try_FindPythonX`: false for a Visual Studio Debug build, true otherwise. */
  predicate TryFindPythonX(r: Recipe)
  {
    !(r.compiler == VisualStudio && r.buildType == Debug)
  }

  /** `_supports_modules`: false only for Visual Studio with a static cpython. */
  predicate SupportsModules(r: Recipe)
  {
    r.compiler != VisualStudio || r.shared
  }

  /**
   * The strings of `_cmake_abi`: the suffix is "d" for a Debug build plus
   * "m" when pymalloc counts, never "u"; from 3.8 on the CMake argument is
   * the debug flag followed by "OFF;OFF".
   */
  lemma CmakeAbiStrings(r: Recipe, pyVersion: string)
    ensures CmakeAbi(r, pyVersion).Suffix() ==
      (if r.buildType == Debug then "d" else "") + (if BelowCutoff(pyVersion) && Pymalloc(r) then "m" else "")
    ensures !BelowCutoff(pyVersion) ==>
      CmakeAbi(r, pyVersion).CmakeArg() == (if r.buildType == Debug then "ON" else "OFF") + ";OFF;OFF"
  {
    var abi := CmakeAbi(r, pyVersion);
    assert [CmakeLut(abi.debug), CmakeLut(abi.pymalloc), CmakeLut(abi.unicode)][1..]
        == [CmakeLut(abi.pymalloc), CmakeLut(abi.unicode)];
    assert [CmakeLut(abi.pymalloc), CmakeLut(abi.unicode)][1..] == [CmakeLut(abi.unicode)];
  }
}
