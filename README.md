# cpython test package recipe, modelled in Dafny

The test package of the cpython recipe (`recipes/cpython/all/test_package/conanfile.py`)
checks an interpreter that was built earlier. Its `build` step fills a table of CMake definitions
from the cpython dependency's metadata. Those definitions point FindPython at the packaged
interpreter and give the ABI that FindPython must accept. The step then builds the `spam`
extension with CMake, and builds it a second time with setup.py. Its `test` step first runs the
interpreter and checks the version the interpreter reports. It then probes ten standard and
optional modules, imports both builds of `spam`, and runs the embedding program.

The model covers:

- `CmakePython3Abi` and its two strings, in `abi.dfy`. `suffix` is the library-name suffix, and
  `cmake_arg` is the `;`-separated `Python{major}_FIND_ABI` argument. Each has a parser that reads
  it back.
- The recipe's derived properties, in `versions.dfy` and `recipe.dfy`. These are `_py_version`,
  the major and major.minor parts, the comparison with version 3.8, `_pymalloc`, `_cmake_abi`,
  `_cmake_try_FindPythonX`, `_supports_modules` and `_cpython_option`.
- `build`, in `build.dfy`. `FillDefinitions` fills the definitions one assignment at a time, and
  the `Definitions` table specifies it. The `Python{major}_*` names are rendered from the entries,
  and the setup.py argument list is quoted into one command line. `Build` sequences the version
  run, CMake and setup.py.
- `_test_module` and `test`, in `probes.dfy`. `_test_module` has a four-way verdict. `test` runs the
  interpreter, checks the version on the last line, and calls `TestModule` ten times in a row for
  the modules. It then makes the two `spam` calls and runs the embedding program. Each call ends
  the test when it fails.
- The Python string operations these steps rely on, in `pystr.dfy`. These are `str.split`,
  `str.join`, `str.splitlines`, `str.strip`, POSIX `os.path.join` and the `"{}"` quoting of
  setup.py arguments.

The outside world is a `Host` value, which supplies:

- the cross-building checks;
- whether the host is an Apple OS;
- the autotools environment;
- for each command, whether it succeeds and what it prints;
- whether CMake succeeds with a given definitions table.

A raised exception becomes the `Error` a `Result` or `Outcome` carries.

Points of the code the model follows closely:

- A module that imports although it should not is an error: lines 140-141 raise
  `ConanException`, and the model fails with `WorksUnexpectedly`.
- The hello-world run comes first (line 154), before the version run (line 157).
- The version check is string equality between `_py_version` and the stripped last line printed
  (line 160), not a prefix match.
- `_cmake_abi` passes `unicode=False` in both of its branches (lines 50 and 56).

## Model

| member | source | states |
|---|---|---|
| Abi.SuffixLetters | recipes/cpython/all/test_package/conanfile.py:19-25 | The suffix holds 'd', 'm' and 'u' exactly for the flags that are on, in that order, each at most once. Its length is the number of flags that are on. |
| Abi.SuffixRoundTrip | recipes/cpython/all/test_package/conanfile.py:19-25 | Parsing the suffix gives back which of the three flags are on. |
| Abi.ParsedSuffixIsSuffix | recipes/cpython/all/test_package/conanfile.py:19-25 | Every string that parses as a suffix is the suffix of the flags it parses to. |
| Abi.CmakeArgTokens | recipes/cpython/all/test_package/conanfile.py:13-17 | `cmake_arg` splits on ';' into exactly three tokens. They are the lookup-table values of debug, pymalloc and unicode, in that order, each one of ANY, ON or OFF. |
| Abi.CmakeArgRoundTrip | recipes/cpython/all/test_package/conanfile.py:27-29 | `cmake_arg` parses back to the very flags, unset ones included, so distinct ABIs give distinct arguments. |
| Versions.NumericPrefix | recipes/cpython/all/test_package/conanfile.py:36-38 | The result is a prefix of the version made of digits and dots only, and the next character is neither. |
| Versions.PyVersion | recipes/cpython/all/test_package/conanfile.py:36-38 | `_py_version` exists exactly when the version starts with a digit or a dot. |
| Versions.PyVersionIsLongestMatch | recipes/cpython/all/test_package/conanfile.py:36-38 | `_py_version` is p exactly when p is a non-empty prefix of digits and dots that cannot be extended, which is the greedy match of `^([0-9.]+)`. |
| Versions.Major | recipes/cpython/all/test_package/conanfile.py:78 | `py_major` is the prefix before the first dot, or the whole version when it has no dot. |
| Versions.MajorMinorIsLeadingPieces | recipes/cpython/all/test_package/conanfile.py:81 | The major.minor string is a prefix of `_py_version`. Its pieces are the first two dot-separated pieces of `_py_version`, or its only piece. |
| Versions.CutoffIsNumeric | recipes/cpython/all/test_package/conanfile.py:46 | "Below the cutoff" means lexicographically below version 3.8 on (major, minor, patch). |
| Versions.CutoffExampleBelow | recipes/cpython/all/test_package/conanfile.py:46 | 3.7.12 is below the cutoff. |
| Versions.CutoffExamplesNotBelow | recipes/cpython/all/test_package/conanfile.py:96 | 3.8 and 3.10.1 are not below the cutoff. The comparison is numeric, not textual. |
| Recipe.CpythonOption | recipes/cpython/all/test_package/conanfile.py:146-150 | An option is on exactly when cpython has it and its value is true. An option cpython does not have reads as false. |
| Recipe.CmakeAbi | recipes/cpython/all/test_package/conanfile.py:40-57 | Debug follows the build type and unicode is always off. Pymalloc is on only below 3.8, and only when cpython has a `pymalloc` option that is on. |
| Recipe.CmakeAbiStrings | recipes/cpython/all/test_package/conanfile.py:44-57 | The ABI suffix is "d" for a Debug build, followed by "m" when pymalloc counts, and never contains "u". From 3.8 on, the CMake argument is ON or OFF for debug, followed by ";OFF;OFF". |
| Build.PythonKeysDiffer | recipes/cpython/all/test_package/conanfile.py:87-97 | Two `Python{major}_*` names are equal only when their settings are equal. |
| Build.KeyNamesDiffer | recipes/cpython/all/test_package/conanfile.py:79-97 | The sixteen definition names are pairwise distinct for every major part, so no assignment overwrites another. |
| Build.CMakeDefinitions | recipes/cpython/all/test_package/conanfile.py:79-97 | The CMake table has a name exactly for each entry, with that entry's value. |
| Build.FillDefinitions | recipes/cpython/all/test_package/conanfile.py:79-97 | The assignments, made one after the other, produce the `Definitions` table. |
| Build.SwitchEntries | recipes/cpython/all/test_package/conanfile.py:59-89 | BUILD_MODULE is off only for Visual Studio with a static cpython. USE_FINDPYTHON_X is off only for a Visual Studio Debug build. USE_STATIC_LIBS is set exactly when cpython is not shared. |
| Build.VersionPartEntries | recipes/cpython/all/test_package/conanfile.py:78-81 | PY_VERSION_MAJOR is the major part of the full version. PY_VERSION_MAJOR_MINOR is the major.minor part of `_py_version`. |
| Build.VersionEntries | recipes/cpython/all/test_package/conanfile.py:82-83 | PY_FULL_VERSION is the dependency's version, and PY_VERSION is `_py_version`. |
| Build.SuffixEntry | recipes/cpython/all/test_package/conanfile.py:84 | PY_VERSION_SUFFIX is "d" for a Debug build, followed by "m" when pymalloc counts. |
| Build.InterpreterEntries | recipes/cpython/all/test_package/conanfile.py:85-88 | PYTHON_EXECUTABLE and `Python{major}_EXECUTABLE` are both the dependency's interpreter. ROOT_DIR is its root folder. |
| Build.SearchEntries | recipes/cpython/all/test_package/conanfile.py:90-93 | FindPython never searches frameworks or the registry. It accepts only CPython and searches by location. |
| Build.FindAbiPresence | recipes/cpython/all/test_package/conanfile.py:95-97 | FIND_ABI is set exactly for a compiler other than Visual Studio and a version below 3.8. |
| Build.FindAbiValue | recipes/cpython/all/test_package/conanfile.py:95-97 | When FIND_ABI is set, it reads back as debug from the build type, pymalloc from the option, and unicode off. |
| Build.SetupArgsOrder | recipes/cpython/all/test_package/conanfile.py:117-126 | The setup.py arguments are, in order: the script, `build`, `--build-base` and the build folder, then `--build-platlib` and `lib_setuptools` under the build folder. `--debug` comes last exactly for a Debug build. |
| Build.SetupArgsUnquoted | recipes/cpython/all/test_package/conanfile.py:117-126 | No argument contains a double quote unless one of the folder names does. |
| Build.SetupCommandReadsBack | recipes/cpython/all/test_package/conanfile.py:127 | The setup.py command line is the interpreter, a space, and the quoted arguments. Those arguments unquote back to the argument list. |
| Build.Build | recipes/cpython/all/test_package/conanfile.py:69-127 | A failing `--version` run ends the build with that failure. A version without a numeric prefix ends it with no version. Otherwise CMake gets the named `Definitions` table: a CMake failure ends the build, and when setup.py runs, its command's failure ends it. The build succeeds with the definitions and the setup.py command it ran. |
| PyStr.UnquoteQuotedArgs | recipes/cpython/all/test_package/conanfile.py:127 | Quoted arguments that contain no double quote unquote back to the same list. |
| PyStr.JoinSplit | recipes/cpython/all/test_package/conanfile.py:78-81 | Joining the pieces of a split with the separator gives back the string. |
| PyStr.SplitJoin | recipes/cpython/all/test_package/conanfile.py:29 | Splitting a join of pieces that do not contain the separator gives back the pieces. |
| PyStr.PathJoin | recipes/cpython/all/test_package/conanfile.py:123 | `os.path.join(a, b)` ends with b. It is b alone when b is absolute, and a + "/" + b when b is relative and a is non-empty without a trailing '/'. |
| PyStr.SplitLinesHaveNoBoundary | recipes/cpython/all/test_package/conanfile.py:159 | No line of `splitlines()` contains one of Python's line boundaries. |
| PyStr.StripRemovesSpace | recipes/cpython/all/test_package/conanfile.py:159 | `strip()` gives an infix of the text that neither starts nor ends with whitespace. Only whitespace was removed from either side. |
| PyStr.StripPadded | recipes/cpython/all/test_package/conanfile.py:159 | Whitespace around a text that neither starts nor ends with whitespace strips back to that text. |
| Probes.Verdict | recipes/cpython/all/test_package/conanfile.py:137-144 | The probe passes exactly when the module's result is the expected one. A module that imports but should not is an error naming it. A module that should import but does not re-raises the failure of its run. |
| Probes.TestModule | recipes/cpython/all/test_package/conanfile.py:129-144 | `_test_module` runs the test script for the module and returns the verdict on the run's result. |
| Probes.RunProbesFirstFailure | recipes/cpython/all/test_package/conanfile.py:163-188 | Probes run in sequence pass exactly when each of them passes. Otherwise they end with the first failure, and every probe before it passed. |
| Probes.RunProbesAppend | recipes/cpython/all/test_package/conanfile.py:163-188 | Running two lists of probes one after the other is running their concatenation. |
| Probes.ModuleExpectations | recipes/cpython/all/test_package/conanfile.py:163-175 | gdbm, bz2, bsddb, lzma, tkinter and curses are expected to import exactly when their `with_` option is on. expat, sqlite3, decimal and ctypes always are. Only curses runs with TERM=ansi. |
| Probes.PlanContents | recipes/cpython/all/test_package/conanfile.py:163-188 | The plan is the ten module probes when modules are supported, then the two `spam` probes with their PYTHONPATH folders. There is no `spam` probe for a static cpython on an Apple OS. |
| Probes.LastLineOfPrintedVersion | recipes/cpython/all/test_package/conanfile.py:156-159 | A version printed on its own line, ended by "\n" or "\r\n", is read back unchanged. |
| Probes.LastLineSkipsEarlierLines | recipes/cpython/all/test_package/conanfile.py:159 | Only the last line printed counts. |
| Probes.LastLineExample | recipes/cpython/all/test_package/conanfile.py:159 | The output "3.9.7\n" reads as "3.9.7". |
| Probes.CheckVersion | recipes/cpython/all/test_package/conanfile.py:154-161 | The hello-world run must succeed, then the version run must succeed. The stripped last line it prints must equal `_py_version`, each failure with its own error. |
| Probes.ProbeEachModule | recipes/cpython/all/test_package/conanfile.py:163-175 | The ten `_test_module` calls, made one after the other, give the run of the module probe list. |
| Probes.ProbeSpam | recipes/cpython/all/test_package/conanfile.py:181-188 | The two `spam` calls give the run of the `spam` probe list. |
| Probes.ProbeModules | recipes/cpython/all/test_package/conanfile.py:163-192 | Module probes run when modules are supported, and `spam` probes unless cpython is static on an Apple OS. Then the embedding program runs, with PYTHONHOME when the dependency requires it. |
| Probes.TestRunsPlan | recipes/cpython/all/test_package/conanfile.py:163-188 | The probes of `test` are the plan, run up to its first failure. |
| Probes.Test | recipes/cpython/all/test_package/conanfile.py:152-192 | `test` does nothing when cross-building. Otherwise it runs the version check, then the probes, then the program, and the first failure ends it. |
| Probes.ProbeErrors | recipes/cpython/all/test_package/conanfile.py:129-144 | A failed probe run re-raises some probe's command failure, or names a module that imported when it should not have. |
| Probes.AfterVersionCheckPassIff | recipes/cpython/all/test_package/conanfile.py:163-192 | After the version check, `test` passes exactly when every probe of the plan passes and the program runs. |
| Probes.TestPassIff | recipes/cpython/all/test_package/conanfile.py:152-192 | `test` passes exactly when it is skipped for cross-building, or when all of these hold: both interpreter runs succeed, the last line is `_py_version`, every probe passes, and the program runs. |
| Probes.WrongVersionIff | recipes/cpython/all/test_package/conanfile.py:160-161 | `test` reports a wrong version exactly when it is not cross-building, both runs succeed, and the stripped last line differs from `_py_version`. No later step raises that error. |

## Left out

- Running commands: what a command prints and whether it succeeds are functions supplied in `Host`. Logging (`self.output`) is not modelled.
- The first `--version` run in `build` (line 73) ignores errors and only logs its output. It is not modelled; only the second run can fail the build.
- CMake: configuring and building are one yes/no answer from `Host` for the definitions table. `RunEnvironment`, `vcvars` and what CMake does with the table are not modelled.
- Environment merging: each command carries the variables that `environment_append` adds around it. PYTHONPATH, which the recipe gives as a one-element list, is modelled as that single path. The variables are not merged into the process environment.
- Copying the `py2`/`py3` sources and setup.py into the build folder (lines 106-110) is a filesystem effect, and is not modelled. This includes the choice of folder, which compares the major version to "3" as text.
- PathJoin: models the POSIX `os.path.join` only. The Windows separator and drive letters are not modelled.
- Versions.CutoffIsNumeric: the version type is modelled as a numeric comparison of the first three dot-separated numbers, where a missing or empty number counts as 0. The library's rejection of malformed versions and its handling of pre-release tags are not modelled.
- Build.CMakeDefinitions: the table is a map, so the insertion order of the Python dict is not kept. The names are proved distinct, so no assignment overwrites another.
- Strings are sequences of characters. `splitlines` uses Python's line boundaries and `strip` uses the whitespace set of `str.isspace`. There is no encoding and no Unicode normalisation.
- Probes.Test: the ten module probes, the `spam` probes and the version check are split into the helper methods CheckVersion, ProbeEachModule, ProbeSpam and ProbeModules. The calls and their order are those of `test`.
