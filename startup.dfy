/** Start-up of the dispatcher script inkstitch.py (lines 21-114): what it
    decides from the environment, from DEVEL.ini and from the debugger probe
    before any extension is loaded.

    The script keeps these decisions in module-level variables that it
    reassigns step by step; Bootstrap does the same with local variables and
    returns their final values. DEVEL.ini, the environment, `sys.gettrace()`,
    `os.path.exists` and the pyinstaller `frozen` marker are inputs. */
module Startup {
  import opened Collections
  import opened PyText

  /** The DEVEL.ini values the script reads, each already resolved against
      its fallback (see NoDevelIni for the fallbacks). */
  datatype DevelSettings = DevelSettings(
    preferPipInkex: bool,      // [LIBRARY] prefer_pip_inkex
    debugger: string,          // [DEBUG] debugger: vscode, pycharm, pydevd or none
    profiler: string,          // [PROFILE] profiler: cprofile, profile, pyinstrument or none
    createBashScript: bool,    // [DEBUG] create_bash_script
    disableFromInkscape: bool  // [DEBUG] disable_from_inkscape
  )

  /** What the script reads when DEVEL.ini is absent: every fallback. */
  const NoDevelIni := DevelSettings(true, "none", "none", false, false)

  /** The environment variables the script consults. */
  datatype Environment = Environment(offlineScript: Option<string>, pythonpath: Option<string>)

  /** Outside observations: whether this is a pyinstaller bundle, what
      `sys.gettrace()` says before and after the debugger is enabled, and
      `os.path.exists`. */
  datatype Probes = Probes(
    frozen: bool,
    traceAtStart: bool,
    traceAfterEnable: bool,
    pathExists: string -> bool)

  /** The module-level state the rest of the script runs with. */
  datatype Startup = Startup(
    runningFromInkscape: bool,
    debugActive: bool,
    debugType: string,
    profileType: string,
    bashScriptWritten: bool,   // debug_utils.write_offline_debug_script was called
    debuggerEnabled: bool,     // debug.enable was called
    sysPath: seq<string>)

  const OFFLINE_VALUES: set<string> := {"true", "1", "yes", "y"}

  /** The script counts as started by Inkscape unless INKSTITCH_OFFLINE_SCRIPT
      says otherwise; the variable is read case-insensitively and an unset
      variable reads as "". */
  function RunningFromInkscape(offlineScript: Option<string>): (r: bool)
    ensures offlineScript.None? ==> r
    ensures offlineScript.Some? ==> (!r <==> LowerStr(offlineScript.value) in OFFLINE_VALUES)
  {
    var value := match offlineScript case Some(v) => v case None => "";
    LowerStr(value) !in OFFLINE_VALUES
  }

  /** Upper- or lower-case spelling of the variable makes no difference. */
  lemma {:induction false} RunningFromInkscapeIgnoresCase(value: string)
    ensures RunningFromInkscape(Some(value)) == RunningFromInkscape(Some(LowerStr(value)))
  {
    LowerStrIdempotent(value);
  }

  /** Some spellings of INKSTITCH_OFFLINE_SCRIPT and what they mean. */
  lemma OfflineSpellings()
    ensures !RunningFromInkscape(Some("TRUE")) && !RunningFromInkscape(Some("Yes"))
    ensures RunningFromInkscape(Some("no")) && RunningFromInkscape(Some(""))
  {
    RunningFromInkscapeIgnoresCase("TRUE");
    RunningFromInkscapeIgnoresCase("Yes");
    assert LowerStr("TRUE") == "true";
    assert LowerStr("Yes") == "yes";
    assert LowerStr("no") == "no";
  }

  /** `p.endswith('deprecated-simple')` is false. */
  predicate NotDeprecatedSimple(p: string) {
    !EndsWith(p, "deprecated-simple")
  }

  /** `lambda p: p not in entries` */
  function NotIn(entries: seq<string>): string -> bool {
    p => p !in entries
  }

  /** sys.path after the PYTHONPATH entries have been moved to its end. */
  function ReorderedPath(sysPath: seq<string>, pythonpath: seq<string>, pathExists: string -> bool): seq<string> {
    Filter(sysPath, NotIn(pythonpath)) + Filter(Filter(pythonpath, NotDeprecatedSimple), pathExists)
  }

  /** The reordered sys.path has two parts: first the entries that are not in
      PYTHONPATH, in their sys.path order; then the PYTHONPATH entries that
      exist and do not end in deprecated-simple, in PYTHONPATH order and
      with repeated entries kept: one filter over PYTHONPATH with both tests. */
  lemma ReorderedPathParts(sysPath: seq<string>, pythonpath: seq<string>, pathExists: string -> bool, k: nat)
    requires k == |Filter(sysPath, NotIn(pythonpath))|
    ensures var r := ReorderedPath(sysPath, pythonpath, pathExists);
      && k <= |r|
      && (forall p :: p in r[..k] <==> p in sysPath && p !in pythonpath)
      && IsSubsequence(r[..k], sysPath)
      && (forall p :: p in r[k..] <==> p in pythonpath && NotDeprecatedSimple(p) && pathExists(p))
      && IsSubsequence(r[k..], pythonpath)
      && r[k..] == Filter(pythonpath, Both(NotDeprecatedSimple, pathExists))
  {
    var r := ReorderedPath(sysPath, pythonpath, pathExists);
    var front := Filter(sysPath, NotIn(pythonpath));
    var kept := Filter(pythonpath, NotDeprecatedSimple);
    var back := Filter(kept, pathExists);
    assert r[..k] == front && r[k..] == back;
    forall p ensures p in front <==> p in sysPath && p !in pythonpath {
      FilterMembership(sysPath, NotIn(pythonpath), p);
    }
    forall p ensures p in back <==> p in pythonpath && NotDeprecatedSimple(p) && pathExists(p) {
      FilterMembership(kept, pathExists, p);
      FilterMembership(pythonpath, NotDeprecatedSimple, p);
    }
    FilterIsSubsequence(sysPath, NotIn(pythonpath));
    FilterIsSubsequence(kept, pathExists);
    FilterIsSubsequence(pythonpath, NotDeprecatedSimple);
    SubsequenceTransitive(back, kept, pythonpath);
    FilterFilter(pythonpath, NotDeprecatedSimple, pathExists);
  }

  /** A PYTHONPATH entry ending in deprecated-simple disappears from sys.path
      altogether, even when it was in sys.path before. */
  lemma DeprecatedSimpleDropped(sysPath: seq<string>, pythonpath: seq<string>, pathExists: string -> bool, p: string)
    requires p in pythonpath && EndsWith(p, "deprecated-simple")
    ensures p !in ReorderedPath(sysPath, pythonpath, pathExists)
  {
    FilterMembership(sysPath, NotIn(pythonpath), p);
    FilterMembership(Filter(pythonpath, NotDeprecatedSimple), pathExists, p);
    FilterMembership(pythonpath, NotDeprecatedSimple, p);
  }

  lemma {:induction false} SubsequenceTransitive<T>(a: seq<T>, b: seq<T>, c: seq<T>)
    requires IsSubsequence(a, b) && IsSubsequence(b, c)
    ensures IsSubsequence(a, c)
    decreases |c|
  {
    if a != [] {
      assert b != [] && c != [];
      var cInit := c[..|c| - 1];
      if b[|b| - 1] == c[|c| - 1] && IsSubsequence(b[..|b| - 1], cInit) {
        var bInit := b[..|b| - 1];
        if a[|a| - 1] == b[|b| - 1] && IsSubsequence(a[..|a| - 1], bInit) {
          SubsequenceTransitive(a[..|a| - 1], bInit, cInit);
        } else {
          assert IsSubsequence(a, bInit);
          SubsequenceTransitive(a, bInit, cInit);
        }
      } else {
        SubsequenceTransitive(a, b, cInit);
      }
    }
  }

  /** Lines 63-81: PYTHONPATH entries leave sys.path and come back, filtered, at its end. */
  method MovePythonpathToEnd(sysPath: seq<string>, pythonpathVar: string, pathsep: char, pathExists: string -> bool)
    returns (path: seq<string>)
    ensures path == ReorderedPath(sysPath, Split(pythonpathVar, pathsep), pathExists)
  {
    var pythonpath := Split(pythonpathVar, pathsep);
    path := Filter(sysPath, NotIn(pythonpath));
    pythonpath := Filter(pythonpath, NotDeprecatedSimple);
    pythonpath := Filter(pythonpath, pathExists);
    path := path + pythonpath;
  }

  /** Lines 21-114 of inkstitch.py, with every outside observation passed in. */
  method Bootstrap(env: Environment, ini: DevelSettings, probes: Probes, sysPath: seq<string>, pathsep: char)
    returns (st: Startup)
    ensures st.runningFromInkscape == RunningFromInkscape(env.offlineScript)
    // debugging and profiling are development-mode only
    ensures probes.frozen ==> st.debugType == "none" && st.profileType == "none"
    ensures st.profileType == if probes.frozen then "none" else ini.profiler
    // the debugger setting is read only when no debugger is attached yet, and
    // is overridden when started by Inkscape with disable_from_inkscape
    ensures st.debugType ==
      if probes.frozen || probes.traceAtStart || (st.runningFromInkscape && ini.disableFromInkscape)
      then "none" else ini.debugger
    ensures st.bashScriptWritten <==> !probes.frozen && st.runningFromInkscape && ini.createBashScript
    ensures st.debuggerEnabled <==> st.debugType != "none"
    ensures st.debugActive == if st.debuggerEnabled then probes.traceAfterEnable else probes.traceAtStart
    // without DEVEL.ini and without an attached debugger, neither mode is on
    ensures ini == NoDevelIni && !probes.traceAtStart ==> !st.debugActive && st.profileType == "none"
    ensures st.sysPath ==
      if !probes.frozen && ini.preferPipInkex && env.pythonpath.Some?
      then ReorderedPath(sysPath, Split(env.pythonpath.value, pathsep), probes.pathExists)
      else sysPath
  {
    var runningAsFrozen := probes.frozen;
    var runningFromInkscape := RunningFromInkscape(env.offlineScript);
    var debugActive := probes.traceAtStart;
    var debugType := "none";
    var profileType := "none";
    var bashScriptWritten := false;
    var path := sysPath;

    if !runningAsFrozen {
      if !debugActive {
        debugType := ini.debugger;
      }
      profileType := ini.profiler;
      if runningFromInkscape {
        if ini.createBashScript {
          bashScriptWritten := true;
        }
        if ini.disableFromInkscape {
          debugType := "none";
        }
      }
      if ini.preferPipInkex && env.pythonpath.Some? {
        path := MovePythonpathToEnd(path, env.pythonpath.value, pathsep, probes.pathExists);
      }
    }

    var debuggerEnabled := false;
    if debugType != "none" {
      debuggerEnabled := true;
      debugActive := probes.traceAfterEnable;
    }

    st := Startup(runningFromInkscape, debugActive, debugType, profileType,
                  bashScriptWritten, debuggerEnabled, path);
  }
}
