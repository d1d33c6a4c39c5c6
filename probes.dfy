/**
 * `TestPackageConan.test` and `_test_module`: run the interpreter, compare
 * the version it reports with the one the recipe expects, probe the
 * optional and the standard modules, import the `spam` extension built by
 * CMake and by setup.py, and run the embedding program.
 */
module Probes {
  import opened Wrappers
  import opened PyStr
  import opened Versions
  import opened Recipe

  /** One call of `_test_module`: the module, whether it should import, and the variables appended around the run. */
  datatype Probe = Probe(name: string, shouldWork: bool, env: map<string, string>)

  /** The test script run for a module, with the trailing space of the format string. */
  function ProbeCommand(r: Recipe, p: Probe): Command
  {
    Command(r.python + " " + r.sourceFolder + "/test_package.py -b " + r.buildFolder + " -t " + p.name + " ", p.env)
  }

  /**
   * `_test_module`'s decision once the run is over: the expected result
   * passes whichever it is; a module that imports but should not is an
   * error naming it; a module that should import but does not re-raises
   * the failure of its run.
   */
  function Verdict(p: Probe, works: bool, cmd: Command): (o: Outcome<Error>)
    ensures o.Pass? <==> p.shouldWork == works
    ensures works && !p.shouldWork ==> o == Fail(WorksUnexpectedly(p.name))
    ensures !works && p.shouldWork ==> o == Fail(CommandFailed(cmd))
  {
    if p.shouldWork == works then Pass
    else if works then Fail(WorksUnexpectedly(p.name))
    else Fail(CommandFailed(cmd))
  }

  /** What `_test_module` decides on this host. */
  function ProbeOutcome(r: Recipe, h: Host, p: Probe): Outcome<Error>
  {
    Verdict(p, h.succeeds(ProbeCommand(r, p)), ProbeCommand(r, p))
  }

  /** `_test_module(module, should_work)`: run the test script for the module and judge the result. */
  method TestModule(r: Recipe, h: Host, p: Probe) returns (o: Outcome<Error>)
    ensures o == ProbeOutcome(r, h, p)
  {
    var command := ProbeCommand(r, p);
    var works := h.succeeds(command);
    if p.shouldWork == works {
      o := Pass;
    } else if works {
      o := Fail(WorksUnexpectedly(p.name));
    } else {
      o := Fail(CommandFailed(command));
    }
  }

  /** The probes of a plan from the k-th on, run one after the other; the first that fails ends the run with its error. */
  function RunFrom(r: Recipe, h: Host, plan: seq<Probe>, k: nat): Outcome<Error>
    decreases |plan| - k
  {
    if k >= |plan| then Pass
    else if ProbeOutcome(r, h, plan[k]).Fail? then ProbeOutcome(r, h, plan[k])
    else RunFrom(r, h, plan, k + 1)
  }

  /** All the probes of a plan, in order, up to the first that fails. */
  function RunProbes(r: Recipe, h: Host, plan: seq<Probe>): Outcome<Error>
  {
    RunFrom(r, h, plan, 0)
  }

  /**
   * From the k-th probe on, a run passes exactly when every probe passes,
   * and a failed run fails with the error of a probe all of whose
   * predecessors passed.
   */
  lemma {:induction false} RunFromFirstFailure(r: Recipe, h: Host, plan: seq<Probe>, k: nat)
    ensures RunFrom(r, h, plan, k).Pass? <==> forall i :: k <= i < |plan| ==> ProbeOutcome(r, h, plan[i]).Pass?
    ensures RunFrom(r, h, plan, k).Fail? ==>
      exists i :: k <= i < |plan| && RunFrom(r, h, plan, k) == ProbeOutcome(r, h, plan[i])
                  && forall j :: k <= j < i ==> ProbeOutcome(r, h, plan[j]).Pass?
    decreases |plan| - k
  {
    if k < |plan| {
      if ProbeOutcome(r, h, plan[k]).Pass? {
        RunFromFirstFailure(r, h, plan, k + 1);
      } else {
        assert RunFrom(r, h, plan, k) == ProbeOutcome(r, h, plan[k]);
      }
    }
  }

  /** A run of a whole plan passes exactly when every probe passes, and otherwise fails with the first failure. */
  lemma RunProbesFirstFailure(r: Recipe, h: Host, plan: seq<Probe>)
    ensures RunProbes(r, h, plan).Pass? <==> forall i :: 0 <= i < |plan| ==> ProbeOutcome(r, h, plan[i]).Pass?
    ensures RunProbes(r, h, plan).Fail? ==>
      exists i :: 0 <= i < |plan| && RunProbes(r, h, plan) == ProbeOutcome(r, h, plan[i])
                  && forall j :: 0 <= j < i ==> ProbeOutcome(r, h, plan[j]).Pass?
  {
    RunFromFirstFailure(r, h, plan, 0);
  }

  /** Running a + b from a position inside a runs the rest of a, then b if a passed. */
  lemma {:induction false} RunFromAppend(r: Recipe, h: Host, a: seq<Probe>, b: seq<Probe>, k: nat)
    requires k <= |a|
    ensures RunFrom(r, h, a + b, k) ==
      if RunFrom(r, h, a, k).Fail? then RunFrom(r, h, a, k) else RunFrom(r, h, b, 0)
    decreases |a| - k
  {
    if k == |a| {
      RunFromShift(r, h, a, b, 0);
    } else {
      assert (a + b)[k] == a[k];
      RunFromAppend(r, h, a, b, k + 1);
    }
  }

  /** Running a + b from past the end of a is running b. */
  lemma {:induction false} RunFromShift(r: Recipe, h: Host, a: seq<Probe>, b: seq<Probe>, k: nat)
    ensures RunFrom(r, h, a + b, |a| + k) == RunFrom(r, h, b, k)
    decreases |b| - k
  {
    if k < |b| {
      assert (a + b)[|a| + k] == b[k];
      RunFromShift(r, h, a, b, k + 1);
    }
  }

  /** Running two plans one after the other is running their concatenation. */
  lemma RunProbesAppend(r: Recipe, h: Host, a: seq<Probe>, b: seq<Probe>)
    ensures RunProbes(r, h, a + b) == if RunProbes(r, h, a).Fail? then RunProbes(r, h, a) else RunProbes(r, h, b)
  {
    RunFromAppend(r, h, a, b, 0);
  }

  /** The modules probed when modules are supported, in the order they are probed. */
  function ModuleProbes(r: Recipe): seq<Probe>
  {
    [Probe("gdbm", CpythonOption(r, "with_gdbm"), map[]),
     Probe("bz2", CpythonOption(r, "with_bz2"), map[]),
     Probe("bsddb", CpythonOption(r, "with_bsddb"), map[]),
     Probe("lzma", CpythonOption(r, "with_lzma"), map[]),
     Probe("tkinter", CpythonOption(r, "with_tkinter"), map[]),
     Probe("curses", CpythonOption(r, "with_curses"), map["TERM" := "ansi"]),
     Probe("expat", true, map[]),
     Probe("sqlite3", true, map[]),
     Probe("decimal", true, map[]),
     Probe("ctypes", true, map[])]
  }

  /** The extension `spam`, once as built by CMake and once as built by setup.py. */
  function SpamProbes(r: Recipe): seq<Probe>
  {
    [Probe("spam", true, map["PYTHONPATH" := PathJoin(r.buildFolder, "lib")]),
     Probe("spam", true, map["PYTHONPATH" := PathJoin(r.buildFolder, "lib_setuptools")])]
  }

  /** Whether the `spam` probes run: not for a static cpython on an Apple OS, and only when modules are supported. */
  predicate SpamRuns(r: Recipe, h: Host)
  {
    !(h.isAppleOs && !r.shared) && SupportsModules(r)
  }

  /** Every probe `test` runs, in order. */
  function ProbePlan(r: Recipe, h: Host): seq<Probe>
  {
    (if SupportsModules(r) then ModuleProbes(r) else []) + (if SpamRuns(r, h) then SpamProbes(r) else [])
  }

  /**
   * The six optional modules are expected to import exactly when cpython
   * was built with them, the four standard ones always; only curses runs
   * with an extra variable, TERM=ansi.
   */
  lemma ModuleExpectations(r: Recipe)
    ensures var m := ModuleProbes(r);
      && |m| == 10
      && (forall i :: 0 <= i < 6 ==> m[i].shouldWork == CpythonOption(r, "with_" + m[i].name))
      && (forall i :: 6 <= i < 10 ==> m[i].shouldWork)
      && m[5].name == "curses" && m[5].env == map["TERM" := "ansi"]
      && (forall i :: 0 <= i < 10 && i != 5 ==> m[i].env == map[])
  {
    var m := ModuleProbes(r);
    assert "with_" + m[0].name == "with_gdbm";
    assert "with_" + m[1].name == "with_bz2";
    assert "with_" + m[2].name == "with_bsddb";
    assert "with_" + m[3].name == "with_lzma";
    assert "with_" + m[4].name == "with_tkinter";
    assert "with_" + m[5].name == "with_curses";
  }

  /**
   * The plan: the ten module probes when modules are supported, then the
   * two `spam` probes, both expected to import, unless cpython is static on
   * an Apple OS; each `spam` probe puts its own build output on PYTHONPATH.
   */
  lemma PlanContents(r: Recipe, h: Host)
    ensures var plan := ProbePlan(r, h);
      && |plan| == (if SupportsModules(r) then 10 else 0) + (if SpamRuns(r, h) then 2 else 0)
      && (SupportsModules(r) ==> plan[..10] == ModuleProbes(r))
      && (SpamRuns(r, h) ==>
            && plan[|plan| - 2] == Probe("spam", true, map["PYTHONPATH" := PathJoin(r.buildFolder, "lib")])
            && plan[|plan| - 1] == Probe("spam", true, map["PYTHONPATH" := PathJoin(r.buildFolder, "lib_setuptools")]))
      && (h.isAppleOs && !r.shared ==> forall i :: 0 <= i < |plan| ==> plan[i].name != "spam")
  {
    var plan := ProbePlan(r, h);
    if SupportsModules(r) {
      assert plan[..10] == ModuleProbes(r);
    }
    if h.isAppleOs && !r.shared {
      forall i | 0 <= i < |plan|
        ensures plan[i].name != "spam"
      {
        assert plan == ModuleProbes(r) || plan == [];
      }
    }
  }

  // ---------------------------------------------------------------------
  // The version check
  // ---------------------------------------------------------------------

  /** Runs the interpreter once. */
  function HelloCommand(r: Recipe): Command
  {
    Command(r.python + " -c \"print('hello world')\"", map[])
  }

  /** Asks the interpreter for the first three parts of `sys.version_info`. */
  function VersionProbeCommand(r: Recipe): Command
  {
    Command(r.python + " -c \"import sys; print('.'.join(str(s) for s in sys.version_info[:3]))\"", map[])
  }

  /** `buffer.getvalue().splitlines()[-1].strip()`, or None where indexing the empty list fails. */
  function LastLine(out: string): Option<string>
  {
    var lines := SplitLines(out);
    if |lines| == 0 then None else Some(Strip(lines[|lines| - 1]))
  }

  /** A version printed on a line of its own, ended the POSIX or the Windows way, is read back unchanged. */
  lemma LastLineOfPrintedVersion(v: string)
    requires v != [] && NoLineBoundary(v) && !IsSpace(v[0]) && !IsSpace(v[|v| - 1])
    ensures LastLine(v + "\n") == Some(v)
    ensures LastLine(v + "\r\n") == Some(v)
  {
    SplitLinesOfTerminatedLine(v, "");
    assert v + "\n" + "" == v + "\n";
    SplitLinesOfCrLfLine(v);
    StripPadded("", v, "");
    assert "" + v + "" == v;
  }

  /** Only the last line counts: whatever the interpreter printed before it is ignored. */
  lemma LastLineSkipsEarlierLines(t: string, rest: string)
    requires NoLineBoundary(t) && rest != []
    ensures LastLine(t + "\n" + rest) == LastLine(rest)
  {
    SplitLinesOfTerminatedLine(t, rest);
  }

  /** The interpreter of a cpython 3.9.7 prints "3.9.7" and a newline, read as "3.9.7". */
  lemma LastLineExample()
    ensures LastLine("3.9.7\n") == Some("3.9.7")
  {
    assert "3.9.7\n" == "3.9.7" + "\n";
    LastLineOfPrintedVersion("3.9.7");
  }

  /** The embedding program built by CMake; PYTHONHOME is set when the dependency says the program needs it. */
  function FinalCommand(r: Recipe): Command
  {
    Command(PathJoin("bin", "test_package"),
            if r.moduleRequiresPythonhome == "True" then map["PYTHONHOME" := r.pythonhome] else map[])
  }

  /**
   * The first half of `test`: the interpreter runs, reports a version, and
   * the last line it prints, stripped, is `_py_version`.
   */
  function VersionCheck(r: Recipe, h: Host): Outcome<Error>
  {
    if !h.succeeds(HelloCommand(r)) then Fail(CommandFailed(HelloCommand(r)))
    else if !h.succeeds(VersionProbeCommand(r)) then Fail(CommandFailed(VersionProbeCommand(r)))
    else
      match LastLine(h.output(VersionProbeCommand(r)))
      case None => Fail(NoVersionOutput)
      case Some(detected) =>
        match PyVersion(r.version)
        case None => Fail(NoVersionPrefix(r.version))
        case Some(expected) => if expected != detected then Fail(WrongVersion(expected, detected)) else Pass
  }

  /** What `test` does: nothing when cross-building, else the version check, then the probes and the program. */
  function TestSpec(r: Recipe, h: Host): Outcome<Error>
  {
    if h.crossBuildingSkipX64X86 then Pass
    else if VersionCheck(r, h).Fail? then VersionCheck(r, h)
    else AfterVersionCheck(r, h)
  }

  /** The rest of `test` once the version is confirmed: the module probes, the `spam` probes, the program. */
  function AfterVersionCheck(r: Recipe, h: Host): Outcome<Error>
  {
    var modules := if SupportsModules(r) then RunProbes(r, h, ModuleProbes(r)) else Pass;
    var spam := if SpamRuns(r, h) then RunProbes(r, h, SpamProbes(r)) else Pass;
    if modules.Fail? then modules
    else if spam.Fail? then spam
    else if !h.succeeds(FinalCommand(r)) then Fail(CommandFailed(FinalCommand(r)))
    else Pass
  }

  /** The probes of `test` are the plan, run in order up to the first failure. */
  lemma TestRunsPlan(r: Recipe, h: Host)
    ensures var modules := if SupportsModules(r) then RunProbes(r, h, ModuleProbes(r)) else Pass;
            var spam := if SpamRuns(r, h) then RunProbes(r, h, SpamProbes(r)) else Pass;
            RunProbes(r, h, ProbePlan(r, h)) == if modules.Fail? then modules else spam
  {
    var a := if SupportsModules(r) then ModuleProbes(r) else [];
    var b := if SpamRuns(r, h) then SpamProbes(r) else [];
    RunProbesAppend(r, h, a, b);
  }

  /** The interpreter and version runs at the start of `test`. */
  method CheckVersion(r: Recipe, h: Host) returns (o: Outcome<Error>)
    ensures o == VersionCheck(r, h)
  {
    var hello := HelloCommand(r);
    if !h.succeeds(hello) {
      return Fail(CommandFailed(hello));
    }
    var versionRun := VersionProbeCommand(r);
    if !h.succeeds(versionRun) {
      return Fail(CommandFailed(versionRun));
    }
    var lines := SplitLines(h.output(versionRun));
    if |lines| == 0 {
      return Fail(NoVersionOutput);
    }
    var detected := Strip(lines[|lines| - 1]);
    var expected := PyVersion(r.version);
    if expected.None? {
      return Fail(NoVersionPrefix(r.version));
    }
    if expected.value != detected {
      return Fail(WrongVersion(expected.value, detected));
    }
    return Pass;
  }

  /** The ten module probes of `test`, one after the other, each ending the run on failure. */
  method ProbeEachModule(r: Recipe, h: Host) returns (o: Outcome<Error>)
    ensures o == RunProbes(r, h, ModuleProbes(r))
  {
    ghost var modules := ModuleProbes(r);
    o := TestModule(r, h, Probe("gdbm", CpythonOption(r, "with_gdbm"), map[]));
    if o.Fail? { return; }
    assert RunProbes(r, h, modules) == RunFrom(r, h, modules, 1);
    o := TestModule(r, h, Probe("bz2", CpythonOption(r, "with_bz2"), map[]));
    if o.Fail? { return; }
    assert RunProbes(r, h, modules) == RunFrom(r, h, modules, 2);
    o := TestModule(r, h, Probe("bsddb", CpythonOption(r, "with_bsddb"), map[]));
    if o.Fail? { return; }
    assert RunProbes(r, h, modules) == RunFrom(r, h, modules, 3);
    o := TestModule(r, h, Probe("lzma", CpythonOption(r, "with_lzma"), map[]));
    if o.Fail? { return; }
    assert RunProbes(r, h, modules) == RunFrom(r, h, modules, 4);
    o := TestModule(r, h, Probe("tkinter", CpythonOption(r, "with_tkinter"), map[]));
    if o.Fail? { return; }
    assert RunProbes(r, h, modules) == RunFrom(r, h, modules, 5);
    o := TestModule(r, h, Probe("curses", CpythonOption(r, "with_curses"), map["TERM" := "ansi"]));
    if o.Fail? { return; }
    assert RunProbes(r, h, modules) == RunFrom(r, h, modules, 6);
    o := TestModule(r, h, Probe("expat", true, map[]));
    if o.Fail? { return; }
    assert RunProbes(r, h, modules) == RunFrom(r, h, modules, 7);
    o := TestModule(r, h, Probe("sqlite3", true, map[]));
    if o.Fail? { return; }
    assert RunProbes(r, h, modules) == RunFrom(r, h, modules, 8);
    o := TestModule(r, h, Probe("decimal", true, map[]));
    if o.Fail? { return; }
    assert RunProbes(r, h, modules) == RunFrom(r, h, modules, 9);
    o := TestModule(r, h, Probe("ctypes", true, map[]));
    if o.Fail? { return; }
    assert RunProbes(r, h, modules) == RunFrom(r, h, modules, 10);
  }

  /** The two `spam` probes: the CMake-built module, then the setup.py-built one. */
  method ProbeSpam(r: Recipe, h: Host) returns (o: Outcome<Error>)
    ensures o == RunProbes(r, h, SpamProbes(r))
  {
    ghost var spam := SpamProbes(r);
    o := TestModule(r, h, Probe("spam", true, map["PYTHONPATH" := PathJoin(r.buildFolder, "lib")]));
    if o.Fail? { return; }
    assert RunProbes(r, h, spam) == RunFrom(r, h, spam, 1);
    o := TestModule(r, h, Probe("spam", true, map["PYTHONPATH" := PathJoin(r.buildFolder, "lib_setuptools")]));
    if o.Fail? { return; }
    assert RunProbes(r, h, spam) == RunFrom(r, h, spam, 2);
  }

  /** The second half of `test`: the module probes, the `spam` probes and the embedding program. */
  method ProbeModules(r: Recipe, h: Host) returns (o: Outcome<Error>)
    ensures o == AfterVersionCheck(r, h)
  {
    if SupportsModules(r) {
      o := ProbeEachModule(r, h);
      if o.Fail? { return; }
    }
    if h.isAppleOs && !r.shared {
      // The spam module is not probed on Apple with a static cpython.
    } else if SupportsModules(r) {
      o := ProbeSpam(r, h);
      if o.Fail? { return; }
    }

    var final := FinalCommand(r);
    if !h.succeeds(final) {
      return Fail(CommandFailed(final));
    }
    return Pass;
  }

  /** `test`: nothing when cross-building; otherwise the version check, then the probes, each ending the test on failure. */
  method Test(r: Recipe, h: Host) returns (o: Outcome<Error>)
    ensures o == TestSpec(r, h)
  {
    if h.crossBuildingSkipX64X86 {
      return Pass;
    }
    o := CheckVersion(r, h);
    if o.Fail? {
      return;
    }
    o := ProbeModules(r, h);
  }

  /** A probe that fails re-raises the failure of its run or names a module that should not have imported. */
  lemma ProbeErrors(r: Recipe, h: Host, plan: seq<Probe>)
    ensures RunProbes(r, h, plan).Fail? ==>
      exists i :: 0 <= i < |plan| &&
        (RunProbes(r, h, plan) == Fail(CommandFailed(ProbeCommand(r, plan[i])))
         || RunProbes(r, h, plan) == Fail(WorksUnexpectedly(plan[i].name)))
  {
    RunProbesFirstFailure(r, h, plan);
  }

  /** After the version check, `test` passes exactly when every probe of the plan passes and the program runs. */
  lemma AfterVersionCheckPassIff(r: Recipe, h: Host)
    ensures AfterVersionCheck(r, h) == Pass <==>
      (forall i :: 0 <= i < |ProbePlan(r, h)| ==> ProbeOutcome(r, h, ProbePlan(r, h)[i]).Pass?)
      && h.succeeds(FinalCommand(r))
  {
    TestRunsPlan(r, h);
    RunProbesFirstFailure(r, h, ProbePlan(r, h));
  }

  /**
   * `test` passes exactly when it is skipped for cross-building, or when
   * both interpreter runs succeed, the last line printed is `_py_version`,
   * every probe of the plan gives its expected result, and the embedding
   * program runs.
   */
  lemma TestPassIff(r: Recipe, h: Host)
    ensures TestSpec(r, h) == Pass <==>
      h.crossBuildingSkipX64X86
      || (&& h.succeeds(HelloCommand(r))
          && h.succeeds(VersionProbeCommand(r))
          && PyVersion(r.version).Some?
          && LastLine(h.output(VersionProbeCommand(r))) == PyVersion(r.version)
          && (forall i :: 0 <= i < |ProbePlan(r, h)| ==> ProbeOutcome(r, h, ProbePlan(r, h)[i]).Pass?)
          && h.succeeds(FinalCommand(r)))
  {
    AfterVersionCheckPassIff(r, h);
  }

  /**
   * `test` reports a wrong version exactly when it is not cross-building,
   * both interpreter runs succeed, and the last line printed, stripped,
   * differs from `_py_version`: no later step raises that error.
   */
  lemma WrongVersionIff(r: Recipe, h: Host, expected: string, got: string)
    ensures TestSpec(r, h) == Fail(WrongVersion(expected, got)) <==>
      && !h.crossBuildingSkipX64X86
      && h.succeeds(HelloCommand(r))
      && h.succeeds(VersionProbeCommand(r))
      && LastLine(h.output(VersionProbeCommand(r))) == Some(got)
      && PyVersion(r.version) == Some(expected)
      && expected != got
  {
    if SupportsModules(r) {
      ProbeErrors(r, h, ModuleProbes(r));
    }
    if SpamRuns(r, h) {
      ProbeErrors(r, h, SpamProbes(r));
    }
  }
}
