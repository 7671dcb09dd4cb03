/** The driver of RunTests.java: discovery of the test methods, main's loop
    that runs and reports each of them, and the gate that compares the
    transcript with the reference file. */
module Harness {
  import opened Wrappers
  import opened ValueCoder
  import opened Testable
  import opened Verifier

  /** A public method of the class under test as reflection presents it:
      its name, whether it carries @Testable, its @Specification if any,
      what invoking it with its decoded arguments does, and the lines its
      body prints to System.out when it runs. */
  datatype PublicMethod = PublicMethod(
    name: string,
    testable: bool,
    spec: Option<Specification>,
    call: Invocation,
    printed: seq<string>)

  /** The class under test once Class.forName and its no-argument
      constructor have succeeded: the lines loading and constructing it
      printed to System.out, and its public methods in enumeration order. */
  datatype LoadedClass = LoadedClass(printed: seq<string>, methods: seq<PublicMethod>)

  /** A test entry: a method marked @Testable that also has a specification. */
  predicate IsTest(m: PublicMethod)
  {
    m.testable && m.spec.Some?
  }

  /** What one Report.report call hands over: outcome, method name, specification. */
  datatype Report = Report(result: TestResult, methodName: string, spec: Specification)

  /** The test entries among the methods, in enumeration order; the others
      are skipped silently. */
  function Discover(methods: seq<PublicMethod>): (tests: seq<PublicMethod>)
    ensures forall m :: m in tests ==> m in methods && IsTest(m)
    ensures forall m :: m in methods && IsTest(m) ==> m in tests
  {
    if methods == [] then []
    else (if IsTest(methods[0]) then [methods[0]] else []) + Discover(methods[1..])
  }

  lemma {:induction false} DiscoverAppend(methods: seq<PublicMethod>, m: PublicMethod)
    ensures Discover(methods + [m]) == Discover(methods) + (if IsTest(m) then [m] else [])
  {
    if methods != [] {
      assert (methods + [m])[1..] == methods[1..] + [m];
      DiscoverAppend(methods[1..], m);
    }
  }

  /** The report runTest issues for a test entry. */
  function ReportOf(parseDouble: DoubleParser, m: PublicMethod): Report
    requires IsTest(m)
  {
    Report(RunTest(parseDouble, m.spec.value, m.call), m.name, m.spec.value)
  }

  /** The reports main's loop has issued after visiting the given methods:
      as many as there are test entries among them. */
  function Reports(parseDouble: DoubleParser, methods: seq<PublicMethod>): (rs: seq<Report>)
    ensures |rs| == |Discover(methods)|
  {
    if methods == [] then []
    else
      var front, last := methods[..|methods| - 1], methods[|methods| - 1];
      assert methods == front + [last];
      DiscoverAppend(front, last);
      Reports(parseDouble, front) + if IsTest(last) then [ReportOf(parseDouble, last)] else []
  }

  /** Exactly one report per test entry, in the order the entries were
      enumerated, each carrying that entry's outcome, name and specification. */
  lemma {:induction false} ReportsFollowDiscovery(parseDouble: DoubleParser, methods: seq<PublicMethod>)
    ensures |Reports(parseDouble, methods)| == |Discover(methods)|
    ensures forall k :: 0 <= k < |Discover(methods)| ==>
      IsTest(Discover(methods)[k]) && Reports(parseDouble, methods)[k] == ReportOf(parseDouble, Discover(methods)[k])
  {
    if methods != [] {
      var front, last := methods[..|methods| - 1], methods[|methods| - 1];
      assert methods == front + [last];
      DiscoverAppend(front, last);
      ReportsFollowDiscovery(parseDouble, front);
    }
  }

  /** The reports as lines; the report format of Report.report is the
      parameter render. */
  function Lines(render: Report -> string, reports: seq<Report>): seq<string>
  {
    seq(|reports|, k requires 0 <= k < |reports| => render(reports[k]))
  }

  /** Whether invoking a test entry runs its body: its arguments decode and
      method.invoke neither rejects them nor refuses access. */
  predicate Ran(parseDouble: DoubleParser, m: PublicMethod)
    requires IsTest(m)
  {
    DecodeArguments(parseDouble, m.spec.value.argTypes, m.spec.value.argValues).Some? &&
    (m.call.Returned? || m.call.Threw?)
  }

  /** The lines main's loop has sent to the redirected System.out after
      visiting the given methods: for each test entry, what its body
      printed if it ran, then its report line. */
  function Output(parseDouble: DoubleParser, render: Report -> string, methods: seq<PublicMethod>): seq<string>
  {
    if methods == [] then []
    else
      Output(parseDouble, render, methods[..|methods| - 1]) + Emitted(parseDouble, render, methods[|methods| - 1])
  }

  /** What visiting one method adds to the output. */
  function Emitted(parseDouble: DoubleParser, render: Report -> string, m: PublicMethod): seq<string>
  {
    if IsTest(m) then
      (if Ran(parseDouble, m) then m.printed else []) + [render(ReportOf(parseDouble, m))]
    else []
  }

  /** When no tested method whose body runs prints anything, the redirected
      output is exactly the report lines. */
  lemma {:induction false} SilentOutputIsReports(parseDouble: DoubleParser, render: Report -> string, methods: seq<PublicMethod>)
    requires forall k :: 0 <= k < |methods| && IsTest(methods[k]) && Ran(parseDouble, methods[k]) ==> methods[k].printed == []
    ensures Output(parseDouble, render, methods) == Lines(render, Reports(parseDouble, methods))
  {
    if methods != [] {
      var front, last := methods[..|methods| - 1], methods[|methods| - 1];
      SilentOutputIsReports(parseDouble, render, front);
      var tail := if IsTest(last) then [ReportOf(parseDouble, last)] else [];
      assert Lines(render, Reports(parseDouble, front) + tail) == Lines(render, Reports(parseDouble, front)) + Lines(render, tail);
    }
  }

  /** Every report line reaches the output, so it has at least as many lines
      as there are reports. */
  lemma {:induction false} OutputCoversReports(parseDouble: DoubleParser, render: Report -> string, methods: seq<PublicMethod>)
    ensures |Output(parseDouble, render, methods)| >= |Reports(parseDouble, methods)|
  {
    if methods != [] {
      OutputCoversReports(parseDouble, render, methods[..|methods| - 1]);
    }
  }

  /** A tested method that runs and prints a line puts more lines into the
      output than there are reports, so the output is no longer the report
      lines alone. */
  lemma {:induction false} PrintingTestLengthensOutput(parseDouble: DoubleParser, render: Report -> string,
                                                      methods: seq<PublicMethod>, k: nat)
    requires k < |methods| && IsTest(methods[k]) && Ran(parseDouble, methods[k]) && methods[k].printed != []
    ensures |Output(parseDouble, render, methods)| > |Reports(parseDouble, methods)|
    ensures Output(parseDouble, render, methods) != Lines(render, Reports(parseDouble, methods))
  {
    var front := methods[..|methods| - 1];
    if k == |methods| - 1 {
      OutputCoversReports(parseDouble, render, front);
    } else {
      PrintingTestLengthensOutput(parseDouble, render, front, k);
    }
  }

  /** compareFiles: List.equals on the two files' lines, walking both lists
      together; equal exactly when they have the same length and agree at
      every index. */
  function SameLines(a: seq<string>, b: seq<string>): (r: bool)
    ensures r <==> a == b
    ensures r <==> |a| == |b| && forall i :: 0 <= i < |a| ==> a[i] == b[i]
  {
    if a == [] || b == [] then a == [] && b == []
    else
      assert a == [a[0]] + a[1..] && b == [b[0]] + b[1..];
      a[0] == b[0] && SameLines(a[1..], b[1..])
  }

  const FilePrefix: string := "RunTests_"
  const FileSuffix: string := ".output"
  const MatchesLine: string := "Output matches reference file: "
  const DiffersLine: string := "Output differs from reference file: "

  /** The reference file the output is compared with. */
  function ReferenceFileName(className: string): string
  {
    FilePrefix + className + FileSuffix
  }

  /** The one line main prints after the comparison. */
  function VerdictLine(className: string, matches: bool): string
  {
    (if matches then MatchesLine else DiffersLine) + ReferenceFileName(className)
  }

  /** The reference file's name is the class name between the prefix
      RunTests_ and the suffix .output. */
  lemma ReferenceFileNameParts(className: string)
    ensures |ReferenceFileName(className)| == |FilePrefix| + |className| + |FileSuffix|
    ensures ReferenceFileName(className)[..|FilePrefix|] == FilePrefix
    ensures ReferenceFileName(className)[|FilePrefix|..|FilePrefix| + |className|] == className
    ensures ReferenceFileName(className)[|FilePrefix| + |className|..] == FileSuffix
  {
    var name := ReferenceFileName(className);
    assert name == FilePrefix + className + FileSuffix;
  }

  /** The verdict line starts with the "matches" text exactly when the files
      matched, and ends with the reference file's name. */
  lemma VerdictLineParts(className: string, matches: bool)
    ensures |VerdictLine(className, matches)| >= |MatchesLine| + |ReferenceFileName(className)|
    ensures matches <==> VerdictLine(className, matches)[..|MatchesLine|] == MatchesLine
    ensures VerdictLine(className, matches)[|VerdictLine(className, matches)| - |ReferenceFileName(className)|..] ==
      ReferenceFileName(className)
  {
    var line := VerdictLine(className, matches);
    var head := if matches then MatchesLine else DiffersLine;
    assert line == head + ReferenceFileName(className);
    assert line[7] == head[7];
    assert !matches ==> line[..|MatchesLine|][7] != MatchesLine[7];
  }

  /** The verdict line names its reference file at its end and determines
      both the class and the outcome of the comparison: two verdicts are the
      same line exactly when they agree on both. */
  lemma VerdictLineDetermines(c1: string, m1: bool, c2: string, m2: bool)
    ensures VerdictLine(c1, m1) == VerdictLine(c2, m2) <==> c1 == c2 && m1 == m2
  {
    var v1, v2 := VerdictLine(c1, m1), VerdictLine(c2, m2);
    if v1 == v2 {
      assert MatchesLine[7] != DiffersLine[7];
      assert v1[7] == (if m1 then MatchesLine else DiffersLine)[7];
      assert v2[7] == (if m2 then MatchesLine else DiffersLine)[7];
      var p := |if m1 then MatchesLine else DiffersLine| + |FilePrefix|;
      assert c1 == v1[p..|v1| - |FileSuffix|];
      assert c2 == v2[p..|v2| - |FileSuffix|];
    }
  }

  /** The two verdict lines for a class C. */
  lemma VerdictLinesForC()
    ensures VerdictLine("C", true) == "Output matches reference file: RunTests_C.output"
    ensures VerdictLine("C", false) == "Output differs from reference file: RunTests_C.output"
  {
  }

  /** A transcript matches an identical reference file and differs from one
      in which two adjacent distinct lines are swapped (for a six-line
      transcript and i = 2, lines 3 and 4). */
  lemma GateOnSwappedLines(lines: seq<string>, i: nat)
    requires i + 1 < |lines| && lines[i] != lines[i + 1]
    ensures SameLines(lines, lines)
    ensures !SameLines(lines, lines[..i] + [lines[i + 1], lines[i]] + lines[i + 2..])
  {
    var swapped := lines[..i] + [lines[i + 1], lines[i]] + lines[i + 2..];
    assert swapped[i] == lines[i + 1];
  }

  /** One call of runTest from main's loop: parseArguments, the invocation,
      which prints the method's lines if its body runs, and the report
      line. */
  method RunTestMethod(parseDouble: DoubleParser, render: Report -> string, m: PublicMethod)
    returns (report: Report, emitted: seq<string>)
    requires IsTest(m)
    ensures report == ReportOf(parseDouble, m)
    ensures emitted == Emitted(parseDouble, render, m)
  {
    var spec := m.spec.value;
    var args := ParseArguments(parseDouble, spec.argTypes, spec.argValues);
    emitted := [];
    if args.Some? && (m.call.Returned? || m.call.Threw?) {
      emitted := m.printed;
    }
    report := Report(Classify(parseDouble, args, spec, m.call), m.name, spec);
    emitted := emitted + [render(report)];
  }

  /** main's loop over the public methods of the class: each test entry is
      run and reported in turn; the others are skipped. */
  method RunMethods(parseDouble: DoubleParser, render: Report -> string, methods: seq<PublicMethod>)
    returns (transcript: seq<Report>, output: seq<string>)
    ensures transcript == Reports(parseDouble, methods)
    ensures output == Output(parseDouble, render, methods)
  {
    transcript, output := [], [];
    for i := 0 to |methods|
      invariant transcript == Reports(parseDouble, methods[..i])
      invariant output == Output(parseDouble, render, methods[..i])
    {
      var m := methods[i];
      if m.testable && m.spec.Some? {
        var report, emitted := RunTestMethod(parseDouble, render, m);
        transcript := transcript + [report];
        output := output + emitted;
      }
      assert methods[..i + 1][..i] == methods[..i];
    }
    assert methods[..|methods|] == methods;
  }

  /** main(className) once the class has been loaded (None when
      Class.forName or the constructor fails, which aborts before any test)
      and the reference file read (None when reading it fails, which aborts
      after the tests). Every public method marked @Testable with a
      specification is run and reported in enumeration order. Everything
      printed meanwhile goes to the redirected System.out, so the output
      compared with the reference file holds the lines loading the class
      printed, and before each report line the lines the tested method
      printed if it ran. */
  method Run(parseDouble: DoubleParser, className: string, loaded: Option<LoadedClass>,
             render: Report -> string, reference: Option<seq<string>>)
    returns (transcript: seq<Report>, output: seq<string>, verdict: Option<string>)
    ensures loaded.None? ==> transcript == [] && output == [] && verdict == None
    ensures loaded.Some? ==> transcript == Reports(parseDouble, loaded.value.methods)
    ensures loaded.Some? ==> (|transcript| == |Discover(loaded.value.methods)| &&
      forall k :: 0 <= k < |transcript| ==>
        IsTest(Discover(loaded.value.methods)[k]) &&
        transcript[k] == ReportOf(parseDouble, Discover(loaded.value.methods)[k]))
    ensures loaded.Some? ==> output == loaded.value.printed + Output(parseDouble, render, loaded.value.methods)
    ensures verdict.Some? <==> loaded.Some? && reference.Some?
    ensures verdict.Some? ==> verdict.value == VerdictLine(className, SameLines(output, reference.value))
  {
    transcript, output, verdict := [], [], None;
    if loaded.None? {
      return;
    }
    var methods := loaded.value.methods;
    var emitted;
    transcript, emitted := RunMethods(parseDouble, render, methods);
    output := loaded.value.printed + emitted;
    ReportsFollowDiscovery(parseDouble, methods);
    if reference.Some? {
      verdict := Some(VerdictLine(className, SameLines(output, reference.value)));
    }
  }

  /** For a class whose loading prints nothing and whose tested methods
      print nothing when they run, the verdict is "matches" exactly when the
      reference file holds the report lines. */
  lemma SilentClassVerdict(parseDouble: DoubleParser, className: string, c: LoadedClass,
                           render: Report -> string, reference: seq<string>)
    requires c.printed == []
    requires forall k :: 0 <= k < |c.methods| && IsTest(c.methods[k]) && Ran(parseDouble, c.methods[k]) ==> c.methods[k].printed == []
    ensures VerdictLine(className, SameLines(c.printed + Output(parseDouble, render, c.methods), reference)) ==
      VerdictLine(className, reference == Lines(render, Reports(parseDouble, c.methods)))
  {
    SilentOutputIsReports(parseDouble, render, c.methods);
    assert c.printed + Output(parseDouble, render, c.methods) == Output(parseDouble, render, c.methods);
  }
}
