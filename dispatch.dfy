/** The dispatcher proper, inkstitch.py lines 136-220: derive the extension's
    class name, look it up, and run the extension once, either inside the
    failure boundary (normal mode) or bare (debug and profile modes). */
module Dispatch {
  import opened Collections
  import opened PyText
  import Startup

  // ---------------------------------------------------------------------
  // Resolving the extension

  /** `extension_name.title().replace("_", "")`, e.g. foo_bar_baz -> FooBarBaz. */
  function ClassName(name: string): (r: string)
    ensures '_' !in r
    ensures |r| <= |name|
  {
    Without(Title(name), '_')
  }

  /** For a name made of letters and underscores, the class name is every
      underscore-separated token capitalised and the tokens concatenated. */
  lemma {:induction false} ClassNameCapitalizesTokens(name: string)
    requires forall i :: 0 <= i < |name| ==> IsLetter(name[i]) || name[i] == '_'
    ensures ClassName(name) == CapitalizeAll(Split(name, '_'))
  {
    TitleTokens(name, false);
  }

  lemma {:induction false} TitleTokens(s: string, prevCased: bool)
    requires forall i :: 0 <= i < |s| ==> IsLetter(s[i]) || s[i] == '_'
    ensures var tokens := Split(s, '_');
      Without(TitleFrom(s, prevCased), '_') ==
        (if prevCased then LowerStr(tokens[0]) else Capitalize(tokens[0])) + CapitalizeAll(tokens[1..])
  {
    if s != [] {
      var c := s[0];
      var rest := Split(s[1..], '_');
      TitleTokens(s[1..], IsLetter(c));
      var t := TitleFrom(s, prevCased);
      assert t[1..] == TitleFrom(s[1..], IsLetter(c));
      assert t == [t[0]] + t[1..];
      if c == '_' {
        assert t[0] == '_';
        assert Split(s, '_') == [[]] + rest;
        assert ([[]] + rest)[1..] == rest;
        assert CapitalizeAll(rest) == Capitalize(rest[0]) + CapitalizeAll(rest[1..]);
      } else {
        var tokens := Split(s, '_');
        assert tokens == [[c] + rest[0]] + rest[1..];
        assert tokens[0][1..] == rest[0];
        assert tokens[1..] == rest[1..];
        assert Without(t, '_') == [t[0]] + Without(t[1..], '_');
        if prevCased {
          assert LowerStr(tokens[0]) == [Lower(c)] + LowerStr(rest[0]);
        }
      }
    }
  }

  /** The example the source gives for the derivation. */
  lemma ClassNameExample()
    ensures ClassName("foo_bar_baz") == "FooBarBaz"
  {
    var name := "foo_bar_baz";
    assert forall i :: 0 <= i < |name| ==> IsLetter(name[i]) || name[i] == '_' by {
      forall i | 0 <= i < |name| ensures IsLetter(name[i]) || name[i] == '_' {
        assert name[i] in "fobarz_";
      }
    }
    ClassNameCapitalizesTokens(name);
    SplitExample();
    CapitalizeExample();
  }

  lemma SplitExample()
    ensures Split("foo_bar_baz", '_') == ["foo", "bar", "baz"]
  {
    var parts := ["foo", "bar", "baz"];
    assert parts[1..] == ["bar", "baz"] && parts[1..][1..] == ["baz"];
    assert Join(parts, '_') == "foo_bar_baz";
    SplitJoin(parts, '_');
  }

  lemma CapitalizeExample()
    ensures CapitalizeAll(["foo", "bar", "baz"]) == "FooBarBaz"
  {
    CapitalizeLowerCaseWord("foo");
    CapitalizeLowerCaseWord("bar");
    CapitalizeLowerCaseWord("baz");
    var parts := ["foo", "bar", "baz"];
    assert parts[1..] == ["bar", "baz"] && parts[1..][1..] == ["baz"] && parts[1..][1..][1..] == [];
    calc {
      CapitalizeAll(parts);
      Capitalize("foo") + CapitalizeAll(["bar", "baz"]);
      Capitalize("foo") + (Capitalize("bar") + CapitalizeAll(["baz"]));
      Capitalize("foo") + (Capitalize("bar") + (Capitalize("baz") + CapitalizeAll([])));
      "FooBarBaz";
    }
  }

  lemma CapitalizeLowerCaseWord(t: string)
    requires t != [] && forall i :: 0 <= i < |t| ==> 'a' <= t[i] <= 'z'
    ensures Capitalize(t) == [Upper(t[0])] + t[1..]
  {
    LowerStrOfLowerCase(t[1..]);
  }

  /** Digits are not cased for title(): a letter after a digit is upper-cased,
      where capitalising the underscore-separated tokens would lower-case it. */
  lemma DigitsBreakTokenCapitalization()
    ensures ClassName("a1b") == "A1B"
    ensures CapitalizeAll(Split("a1b", '_')) == "A1b"
  {
    var name := "a1b";
    var t := Title(name);
    TitleAt(name, 0);
    TitleAt(name, 1);
    TitleAt(name, 2);
    assert t == "A1B";
    WithoutAbsent(t, '_');
    assert Join([name], '_') == name;
    SplitJoin([name], '_');
    assert CapitalizeAll([name]) == Capitalize(name);
    assert LowerStr("1b") == "1b";
  }

  /** What the extension does when run: how it ends, and what the shapely
      logger wrote into the in-memory buffer meanwhile. */
  datatype Extension = Extension(outcome: Outcome, diagnostics: string)

  datatype Outcome = Normal | Raised(fault: Fault)

  /** What `extension.run()` can raise, as far as the dispatcher tells them apart. */
  datatype Fault =
    | SystemExit
    | KeyboardInterrupt
    | XmlSyntaxError
    | InkstitchException(message: string)
    | OtherException(info: string)
  {
    /** Control-flow signals: re-raised, never reported. */
    predicate IsSignal() {
      this == SystemExit || this == KeyboardInterrupt
    }
  }

  /** Why no extension could be instantiated: no --extension argument (the
      name is None) or no such class in lib.extensions. */
  datatype ResolveError = NoExtensionName | UnknownClass(className: string)

  datatype Resolution = Resolved(extension: Extension) | Unresolved(error: ResolveError)

  /** `getattr(extensions, extension_class_name)()` against the registry of
      extension classes. */
  function Resolve(name: Option<string>, registry: map<string, Extension>): (r: Resolution)
    ensures r.Resolved? <==> name.Some? && ClassName(name.value) in registry
    ensures r.Resolved? ==> r.extension == registry[ClassName(name.value)]
    ensures r == Unresolved(NoExtensionName) <==> name.None?
    ensures r.Unresolved? && name.Some? ==> r.error == UnknownClass(ClassName(name.value))
    ensures r.Unresolved? && name.Some? ==> r.error.className !in registry && '_' !in r.error.className
  {
    match name
    case None => Unresolved(NoExtensionName)
    case Some(n) =>
      var className := ClassName(n);
      if className in registry then Resolved(registry[className]) else Unresolved(UnknownClass(className))
  }

  // ---------------------------------------------------------------------
  // Reporting

  const XML_SYNTAX_MESSAGE: string :=
    "Ink/Stitch cannot read your SVG file. " +
    "This is often the case when you use a file which has been created with Adobe Illustrator." +
    "\n\n" +
    "Try to import the file into Inkscape through 'File > Import...' (Ctrl+I)"

  const UNCAUGHT_HEADER: string := "Ink/Stitch experienced an unexpected error.\n"

  /** `format_uncaught_exception()`: a report that carries the exception's own text. */
  function UncaughtReport(info: string): (r: string)
    ensures |r| > |info| && r[|r| - |info|..] == info
  {
    UNCAUGHT_HEADER + info
  }

  /** The messages the except clauses hand to `errormsg`, in the order the
      clauses are tried. */
  function ClassificationReport(outcome: Outcome): (r: seq<string>)
    ensures |r| <= 1
    ensures r == [] <==> outcome.Normal? || outcome.fault.IsSignal()
    ensures outcome == Raised(XmlSyntaxError) ==> r == [XML_SYNTAX_MESSAGE]
    ensures outcome.Raised? && outcome.fault.InkstitchException? ==> r == [outcome.fault.message]
    ensures outcome.Raised? && outcome.fault.OtherException? ==> EndsWith(r[0], outcome.fault.info)
  {
    match outcome
    case Normal => []
    case Raised(fault) =>
      match fault
      case SystemExit => []
      case KeyboardInterrupt => []
      case XmlSyntaxError => [XML_SYNTAX_MESSAGE]
      case InkstitchException(message) => [message]
      case OtherException(info) => [UncaughtReport(info)]
  }

  /** `if shapely_errors.tell(): errormsg(shapely_errors.getvalue())` */
  function BufferReport(buffer: string): (r: seq<string>)
    ensures r == [] <==> buffer == []
    ensures r != [] ==> r == [buffer]
  {
    if |buffer| > 0 then [buffer] else []
  }

  /** How the process ends. */
  datatype End =
    | Running
    | Exited(code: int)
    | Propagated(fault: Fault)       // raised out of the script unclassified
    | Crashed(error: ResolveError)   // the lookup raised before any extension ran

  /** How the protected branch ends: signals propagate, the two user-facing
      faults and a normal run exit 0, anything else exits 1. */
  function ProtectedEnd(outcome: Outcome): (e: End)
    ensures e.Propagated? <==> outcome.Raised? && outcome.fault.IsSignal()
    ensures e.Propagated? ==> e.fault == outcome.fault
    ensures e == Exited(1) <==> outcome.Raised? && outcome.fault.OtherException?
    ensures !e.Propagated? ==> e.Exited? && (e.code == 0 || e.code == 1)
  {
    match outcome
    case Normal => Exited(0)
    case Raised(fault) =>
      if fault.IsSignal() then Propagated(fault)
      else if fault.OtherException? then Exited(1)
      else Exited(0)
  }

  /** How the debug/profile branch ends: whatever the extension raised leaves
      the script as it is. */
  function ObservedEnd(outcome: Outcome): (e: End)
    ensures e == Exited(0) <==> outcome.Normal?
    ensures outcome.Raised? ==> e == Propagated(outcome.fault)
  {
    match outcome
    case Normal => Exited(0)
    case Raised(fault) => Propagated(fault)
  }

  const KNOWN_PROFILERS: set<string> := {"cprofile", "profile", "pyinstrument"}

  // ---------------------------------------------------------------------
  // The process

  /** What happens to the process, in order. */
  datatype Event =
    | SavedStderr
    | RestoredStderr
    | RanExtension
    | ProfileWritten(profiler: string)
    | Reported(message: string)

  /** The messages shown to the user, in order. */
  function Messages(trace: seq<Event>): (r: seq<string>)
    ensures |r| <= |trace|
  {
    if trace == [] then []
    else (if trace[0].Reported? then [trace[0].message] else []) + Messages(trace[1..])
  }

  function Reports(messages: seq<string>): (r: seq<Event>)
    ensures |r| == |messages|
    ensures forall i :: 0 <= i < |r| ==> r[i] == Reported(messages[i])
  {
    if messages == [] then [] else [Reported(messages[0])] + Reports(messages[1..])
  }

  function Count(trace: seq<Event>, e: Event): (n: nat)
    ensures n <= |trace|
    ensures n == 0 <==> e !in trace
  {
    if trace == [] then 0 else (if trace[0] == e then 1 else 0) + Count(trace[1..], e)
  }

  /** The trace of the protected branch: save stderr, run, the classification
      message, restore stderr, then the shapely buffer if it is not empty. */
  function ProtectedTrace(extension: Extension): seq<Event> {
    [SavedStderr, RanExtension]
    + Reports(ClassificationReport(extension.outcome))
    + [RestoredStderr]
    + Reports(BufferReport(extension.diagnostics))
  }

  /** The trace of the debug/profile branch: one run for the plain debug run
      and the three profilers, a stats file after a profiled run that
      returned, and nothing at all for a profiler name the script does not know. */
  function ObservedTrace(extension: Extension, profileType: string): seq<Event> {
    if profileType == "none" then [RanExtension]
    else if profileType in KNOWN_PROFILERS then
      [RanExtension] + (if extension.outcome.Normal? then [ProfileWritten(profileType)] else [])
    else []
  }

  class Process {
    var stderrRedirected: bool
    var buffer: string         // the shapely_errors StringIO
    var trace: seq<Event>
    var end: End

    /** The state at the point the script dispatches. */
    predicate Fresh()
      reads this
    {
      !stderrRedirected && buffer == [] && trace == [] && end == Running
    }

    constructor ()
      ensures Fresh()
    {
      stderrRedirected := false;
      buffer := [];
      trace := [];
      end := Running;
    }

    /** `save_stderr()` */
    method SaveStderr()
      requires !stderrRedirected
      modifies this
      ensures stderrRedirected
      ensures trace == old(trace) + [SavedStderr]
      ensures buffer == old(buffer) && end == old(end)
    {
      stderrRedirected := true;
      trace := trace + [SavedStderr];
    }

    /** `restore_stderr()` */
    method RestoreStderr()
      requires stderrRedirected
      modifies this
      ensures !stderrRedirected
      ensures trace == old(trace) + [RestoredStderr]
      ensures buffer == old(buffer) && end == old(end)
    {
      stderrRedirected := false;
      trace := trace + [RestoredStderr];
    }

    /** `errormsg(message)` */
    method Report(message: string)
      modifies this
      ensures trace == old(trace) + [Reported(message)]
      ensures stderrRedirected == old(stderrRedirected) && buffer == old(buffer) && end == old(end)
    {
      trace := trace + [Reported(message)];
    }

    /** `extension.run(args=remaining_args)`: the shapely logger appends to the buffer. */
    method Run(extension: Extension) returns (outcome: Outcome)
      modifies this
      ensures outcome == extension.outcome
      ensures buffer == old(buffer) + extension.diagnostics
      ensures trace == old(trace) + [RanExtension]
      ensures stderrRedirected == old(stderrRedirected) && end == old(end)
    {
      buffer := buffer + extension.diagnostics;
      trace := trace + [RanExtension];
      outcome := extension.outcome;
    }

    /** Lines 196-220: the try/except/finally around the run. */
    method RunProtected(extension: Extension)
      requires Fresh()
      modifies this
      ensures !stderrRedirected
      ensures buffer == extension.diagnostics
      ensures trace == ProtectedTrace(extension)
      ensures end == ProtectedEnd(extension.outcome)
    {
      SaveStderr();
      var outcome := Run(extension);
      var classified := ClassificationReport(outcome);
      // the except clauses
      match outcome {
        case Normal =>
        case Raised(fault) =>
          match fault {
            case SystemExit =>
            case KeyboardInterrupt =>
            case XmlSyntaxError =>
              Report(XML_SYNTAX_MESSAGE);
            case InkstitchException(message) =>
              Report(message);
            case OtherException(info) =>
              Report(UncaughtReport(info));
          }
      }
      assert trace == [SavedStderr, RanExtension] + Reports(classified);
      // the finally clause
      RestoreStderr();
      assert buffer == extension.diagnostics;
      ghost var restored := trace;
      if |buffer| > 0 {
        Report(buffer);
        assert Reports(BufferReport(buffer)) == [Reported(buffer)];
      }
      assert trace == restored + Reports(BufferReport(extension.diagnostics));
      assert trace == ProtectedTrace(extension);
      // re-raise, sys.exit(1) or sys.exit(0)
      match outcome {
        case Normal =>
          end := Exited(0);
        case Raised(fault) =>
          if fault.IsSignal() {
            end := Propagated(fault);
          } else if fault.OtherException? {
            end := Exited(1);
          } else {
            end := Exited(0);
          }
      }
    }

    /** Lines 147-194: debug or profile mode, no failure boundary. */
    method RunObserved(extension: Extension, profileType: string)
      requires Fresh()
      modifies this
      ensures !stderrRedirected
      ensures buffer == if profileType == "none" || profileType in KNOWN_PROFILERS then extension.diagnostics else []
      ensures trace == ObservedTrace(extension, profileType)
      ensures end == if profileType == "none" || profileType in KNOWN_PROFILERS
                     then ObservedEnd(extension.outcome) else Exited(0)
    {
      if profileType == "none" {
        var outcome := Run(extension);
        end := ObservedEnd(outcome);
      } else if profileType in KNOWN_PROFILERS {
        // cprofile, profile and pyinstrument: profiler started, run, stats written
        var outcome := Run(extension);
        if outcome.Normal? {
          trace := trace + [ProfileWritten(profileType)];
        }
        end := ObservedEnd(outcome);
      } else {
        end := Exited(0);
      }
    }

    /** Lines 136-220: resolve the extension, pick the branch, run it. */
    method Dispatch(name: Option<string>, registry: map<string, Extension>, st: Startup.Startup)
      requires Fresh()
      modifies this
      ensures !stderrRedirected
      // a failed lookup ends the script before stderr is saved or anything runs
      ensures Resolve(name, registry).Unresolved? ==>
        end == Crashed(Resolve(name, registry).error) && trace == [] && buffer == []
      // the failure boundary is used exactly when neither debugging nor profiling
      ensures SavedStderr in trace <==> Resolve(name, registry).Resolved? && !st.debugActive && st.profileType == "none"
      // the extension runs at most once, and exactly once unless the profiler name is unknown
      ensures Count(trace, RanExtension) <= 1
      ensures Count(trace, RanExtension) == 1 <==>
        Resolve(name, registry).Resolved? && (st.profileType == "none" || st.profileType in KNOWN_PROFILERS)
      ensures Resolve(name, registry).Resolved? ==>
        var extension := Resolve(name, registry).extension;
        if !st.debugActive && st.profileType == "none" then
          trace == ProtectedTrace(extension) && end == ProtectedEnd(extension.outcome)
          && buffer == extension.diagnostics
        else
          trace == ObservedTrace(extension, st.profileType)
          && buffer == (if st.profileType == "none" || st.profileType in KNOWN_PROFILERS
                        then extension.diagnostics else [])
          && end == (if st.profileType == "none" || st.profileType in KNOWN_PROFILERS
                     then ObservedEnd(extension.outcome) else Exited(0))
    {
      var resolution := Resolve(name, registry);
      if resolution.Unresolved? {
        end := Crashed(resolution.error);
        return;
      }
      var extension := resolution.extension;
      if st.debugActive || st.profileType != "none" {
        RunObserved(extension, st.profileType);
        ObservedRunsAtMostOnce(extension, st.profileType);
      } else {
        RunProtected(extension);
        StderrPairedOnEveryPath(extension);
      }
    }
  }

  // ---------------------------------------------------------------------
  // Properties of the failure boundary

  lemma {:induction false} MessagesAppend(a: seq<Event>, b: seq<Event>)
    ensures Messages(a + b) == Messages(a) + Messages(b)
  {
    if a != [] {
      MessagesAppend(a[1..], b);
      assert (a + b)[0] == a[0] && (a + b)[1..] == a[1..] + b;
      var head := if a[0].Reported? then [a[0].message] else [];
      calc {
        Messages(a + b);
        head + Messages(a[1..] + b);
        head + (Messages(a[1..]) + Messages(b));
        (head + Messages(a[1..])) + Messages(b);
      }
    } else {
      assert a + b == b;
    }
  }

  lemma {:induction false} MessagesOfReports(messages: seq<string>)
    ensures Messages(Reports(messages)) == messages
  {
    if messages != [] {
      MessagesOfReports(messages[1..]);
    }
  }

  lemma {:induction false} CountAppend(a: seq<Event>, b: seq<Event>, e: Event)
    ensures Count(a + b, e) == Count(a, e) + Count(b, e)
  {
    if a != [] {
      CountAppend(a[1..], b, e);
      assert (a + b)[0] == a[0] && (a + b)[1..] == a[1..] + b;
    } else {
      assert a + b == b;
    }
  }

  /** The user sees the classification message, then the shapely buffer if it
      is not empty; a signal adds no message of its own. */
  lemma ProtectedMessages(extension: Extension)
    ensures Messages(ProtectedTrace(extension)) ==
      ClassificationReport(extension.outcome) + BufferReport(extension.diagnostics)
    ensures extension.outcome.Raised? && extension.outcome.fault.IsSignal() ==>
      Messages(ProtectedTrace(extension)) == BufferReport(extension.diagnostics)
  {
    var c := ClassificationReport(extension.outcome);
    var b := BufferReport(extension.diagnostics);
    MessagesAppend([SavedStderr, RanExtension] + Reports(c) + [RestoredStderr], Reports(b));
    MessagesAppend([SavedStderr, RanExtension] + Reports(c), [RestoredStderr]);
    MessagesAppend([SavedStderr, RanExtension], Reports(c));
    MessagesOfReports(c);
    MessagesOfReports(b);
    assert Messages([SavedStderr, RanExtension]) == [];
    assert Messages([RestoredStderr]) == [];
  }

  /** stderr is saved exactly once and restored exactly once, on every
      outcome, and the save comes before the run and the run before the restore. */
  lemma StderrPairedOnEveryPath(extension: Extension)
    ensures var t := ProtectedTrace(extension);
      && Count(t, SavedStderr) == 1
      && Count(t, RestoredStderr) == 1
      && Count(t, RanExtension) == 1
      && t[0] == SavedStderr && t[1] == RanExtension
      && t[2 + |ClassificationReport(extension.outcome)|] == RestoredStderr
  {
    var c := Reports(ClassificationReport(extension.outcome));
    var b := Reports(BufferReport(extension.diagnostics));
    var t := ProtectedTrace(extension);
    assert t == [SavedStderr, RanExtension] + c + [RestoredStderr] + b;
    forall e | e == SavedStderr || e == RestoredStderr || e == RanExtension
      ensures Count(t, e) == Count([SavedStderr, RanExtension], e) + Count(c, e) + Count([RestoredStderr], e) + Count(b, e)
    {
      CountAppend([SavedStderr, RanExtension] + c + [RestoredStderr], b, e);
      CountAppend([SavedStderr, RanExtension] + c, [RestoredStderr], e);
      CountAppend([SavedStderr, RanExtension], c, e);
    }
    assert SavedStderr !in c && RestoredStderr !in c && RanExtension !in c;
    assert SavedStderr !in b && RestoredStderr !in b && RanExtension !in b;
    assert Count([SavedStderr, RanExtension], SavedStderr) == 1;
    assert Count([SavedStderr, RanExtension], RanExtension) == 1;
    assert Count([SavedStderr, RanExtension], RestoredStderr) == 0;
  }

  /** The shapely buffer is drained after stderr is restored and after any
      classification message: if it holds text, that text is the last event;
      otherwise restoring stderr is. This holds on every outcome, a normal run
      and the exit-1 path included. */
  lemma BufferDrainedLast(extension: Extension)
    ensures var t := ProtectedTrace(extension);
      if extension.diagnostics != [] then
        t[|t| - 1] == Reported(extension.diagnostics) && t[|t| - 2] == RestoredStderr
      else
        t[|t| - 1] == RestoredStderr
  {
  }

  /** Debug and profile modes bypass the boundary: stderr is left alone, no
      message is shown, and the extension runs once, or not at all when the
      profiler name is not one the script knows. */
  lemma ObservedRunsAtMostOnce(extension: Extension, profileType: string)
    ensures var t := ObservedTrace(extension, profileType);
      && SavedStderr !in t && RestoredStderr !in t
      && Messages(t) == []
      && Count(t, RanExtension) == if profileType == "none" || profileType in KNOWN_PROFILERS then 1 else 0
  {
  }

  /** Every fault other than a signal reaches the user as exactly one
      classification message, shown before whatever the shapely buffer holds;
      an unclassified one also carries the exception's own text. */
  lemma FaultsAreReported(fault: Fault, diagnostics: string)
    requires !fault.IsSignal()
    ensures var m := Messages(ProtectedTrace(Extension(Raised(fault), diagnostics)));
      |m| == 1 + |BufferReport(diagnostics)|
      && (fault.OtherException? ==> EndsWith(m[0], fault.info))
      && (fault == XmlSyntaxError ==> m[0] == XML_SYNTAX_MESSAGE)
      && (fault.InkstitchException? ==> m[0] == fault.message)
      && (diagnostics != [] ==> m[1] == diagnostics)
  {
    ProtectedMessages(Extension(Raised(fault), diagnostics));
  }
}
