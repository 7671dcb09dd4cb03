# RunTests: an annotation-driven unit-test harness, modelled in Dafny

`RunTests` loads a class by name, runs every public method that is marked
`@Testable` and carries a `@Specification`, and writes one report per test:
`WrongArgs`, `WrongResultType`, `TestSucceeded` or `TestFailed`. A
specification holds four strings: the argument type tags (`int`, `double`,
`bool`, `string`), the argument texts, the result tag (`""` means void) and
the result text. At the end the harness compares everything printed during
the run (the reports, and whatever the class and its tested methods printed),
line by line, with the reference file `RunTests_<className>.output` and prints
one verdict line.

The model covers every decision the harness makes:

- `JavaLang`: what the harness takes from `java.lang`. This is the 32-bit
  `int`, `Integer.parseInt` and its decimal rendering, `equalsIgnoreCase`
  and `Boolean.parseBoolean`.
- `ValueCoder`: `parseValue` and `getClassForType`. Runtime values are a
  tagged datatype (`Int | Double | Bool | Str | Other | Void`). `Void` is
  Java's `null`. `Other` is an object of any class outside the four.
- `Testable`: the `Specification` record and its defaults.
- `Verifier`: `parseArguments` (a method with a loop that fills an array),
  `verifyType`, `verifyResult` and the classification in `runTest`.
- `Harness`: discovery; `main`'s loop, which reports each test; and the
  gate, i.e. `compareFiles` plus the verdict line. While the tests run,
  `System.out` is redirected to the file that is compared. So the compared
  output holds the report lines, and also the lines that loading the class
  and running the tested methods print.
- `Scenarios`: end-to-end examples (add, noop, divide).

Exceptions are explicit. `parseValue` and `getClassForType` return a
`Result`. `parseArguments` returns an `Option`, where `None` is `null`. The
reflective call is an input of type `Invocation`. It says what
`method.invoke` would do: return a value, reject the arguments
(`IllegalArgumentException`), let the method's own exception through
(`InvocationTargetException`), or refuse access (`IllegalAccessException`).

### Where the code departs from its documentation

The model follows the code in each case below.

- `verifyType`'s doc comment promises `false` for a mismatched result. But
  when a result is present and the tag is `""`, or the tag is unknown,
  `getClassForType` throws `IllegalArgumentException`. `runTest` catches it
  at line 111 along with the dispatcher's own. So a method that returns a
  value under the void tag is reported `WrongArgs`, not `WrongResultType`.
  `null` under an unknown tag is also `WrongArgs`. See
  `Verifier.Classify`, `Verifier.DefaultSpecification` and
  `Scenarios.AddUnderVoidTagIsWrongArgs`.
- One might expect doubles to compare so that NaN differs from itself.
  `Double.equals` actually compares `doubleToLongBits` images: NaN
  equals NaN, and 0.0 differs from -0.0. The model keeps a double as that
  image and compares images.

## Model

| member | source | states |
|---|---|---|
| `JavaLang.ParseIntDecimal` | src/RunTests/RunTests.java:157 | Parsing the decimal rendering of any integer returns that integer if it is in the 32-bit range, and throws (None) otherwise |
| `JavaLang.ParseIntRoundTrip` | src/RunTests/RunTests.java:157 | `Integer.parseInt(Integer.toString(x)) == x` for every 32-bit `x` |
| `JavaLang.ParseIntCanonical` | src/RunTests/RunTests.java:157 | A canonical decimal text (no `+`, no leading zero, no `-0`) that parses to `x` is exactly the rendering of `x` |
| `JavaLang.ParseIntLaxForms` | src/RunTests/RunTests.java:157 | An explicit `+` or a leading zero before a digit run changes nothing in what `parseInt` gives |
| `JavaLang.ParseBoolean` | src/RunTests/RunTests.java:159 | `Boolean.parseBoolean(s)` is true exactly for the 16 letter-case spellings of `true` |
| `ValueCoder.ParseValue` | src/RunTests/RunTests.java:155-163 | Only `int` and `double` throw, and they throw NumberFormatException; a known tag decodes to a value of that tag's class; an unknown tag, `""` included, gives null and nothing else gives null; it never yields an object of another class |
| `ValueCoder.ClassForType` | src/RunTests/RunTests.java:175-183 | Returns a class exactly for the four known tags, and throws IllegalArgumentException for every other tag, `""` included |
| `ValueCoder.ClassForTypeMatchesTag` | src/RunTests/RunTests.java:175-183 | For a known tag, `isInstance` on the returned class holds exactly for the values carrying that tag |
| `ValueCoder.ParseBoolValue` | src/RunTests/RunTests.java:159 | `parseValue("bool", v)` never throws, and is true exactly when `v` is `true` in some letter case (so `false`, `1` and `yes` give false) |
| `ValueCoder.ParseIntValue` | src/RunTests/RunTests.java:157 | `parseValue("int", ·)` on the rendering of `n` gives `Int(n)` inside the 32-bit range and throws outside it |
| `ValueCoder.DecodeEncode` | src/RunTests/RunTests.java:157-160 | Round trip: decoding the textual form of an int, bool or string value under its tag gives the value back |
| `Verifier.DecodeEach` | src/RunTests/RunTests.java:135-141 | For equal-length lists: succeeds exactly when every pair decodes, and then has one value per pair, each equal to that pair's `parseValue` |
| `Verifier.DecodeArguments` | src/RunTests/RunTests.java:132-143 | null whenever the lengths differ; otherwise null exactly when some pair throws; otherwise the list of decoded values, same length, elementwise `parseValue` |
| `Verifier.ParseArguments` | src/RunTests/RunTests.java:132-143 | The loop that allocates and fills the argument array returns exactly `DecodeArguments` of its inputs |
| `Verifier.VerifyType` | src/RunTests/RunTests.java:212-215 | True for null with `""`; throws IllegalArgumentException exactly when the tag is unknown or `""` (except for null with `""`); true otherwise exactly when the result carries that tag, so null fails every known tag |
| `Verifier.VerifyResult` | src/RunTests/RunTests.java:194-203 | For a null result: true exactly when `resVal` is empty; for a non-null result: false under `""`, and otherwise true exactly when `resVal` decodes under `resType` without throwing to a value equal to the result |
| `Verifier.Classify` | src/RunTests/RunTests.java:89-116 | Exactly one outcome. WrongArgs when the arguments do not decode, the dispatcher rejects them, or the tag lookup throws. WrongResultType when a known tag does not match the result. TestSucceeded when the decoded expected value equals the result, or when void and `""` meet an empty `resVal`. TestFailed when the method throws, access is refused, or the type matches and the value does not |
| `Verifier.RunTest` | src/RunTests/RunTests.java:89-116 | `parseArguments` then the classification. Undecodable arguments or a dispatcher mismatch give WrongArgs; a throwing method or an access refusal gives TestFailed; only a returned value can be WrongResultType or TestSucceeded |
| `Verifier.OtherResultNeverCompared` | src/RunTests/RunTests.java:103-109 | A result of a class outside the four is WrongResultType under a known tag and WrongArgs otherwise, so it never reaches the comparison at 199 |
| `Verifier.LengthMismatchNeverInvokes` | src/RunTests/RunTests.java:92-95 | Different list lengths always give WrongArgs, whatever the method would do |
| `Verifier.UndecodableArgumentsNeverInvoke` | src/RunTests/RunTests.java:92-95 | When the arguments do not decode, the outcome is WrongArgs and does not depend on the invocation |
| `Verifier.TypeCheckedBeforeValue` | src/RunTests/RunTests.java:103-109 | A WrongResultType outcome does not depend on the expected-value text, so no value comparison took place |
| `Verifier.DefaultSpecification` | src/Testable/Specification.java:6-9 | The all-default specification passes the length guard and decodes to no arguments; a void method under it succeeds and a value-returning one is WrongArgs |
| `Harness.Discover` | src/RunTests/RunTests.java:49-55 | Keeps exactly the methods that are `@Testable` and have a specification, and nothing else |
| `Harness.Reports` | src/RunTests/RunTests.java:49-56 | After visiting a list of methods, `main`'s loop has issued as many reports as the list has test entries |
| `Harness.ReportsFollowDiscovery` | src/RunTests/RunTests.java:49-56 | `main`'s loop issues exactly one report per test entry, in enumeration order, each with that entry's outcome, name and specification |
| `Harness.RunTestMethod` | src/RunTests/RunTests.java:89-116 | One `runTest` call yields that entry's report. What it adds to the redirected output is the method's printed lines (only if its body ran), then the report line |
| `Harness.RunMethods` | src/RunTests/RunTests.java:49-56 | The loop over the public methods produces exactly `Reports` and `Output` of the method list |
| `Harness.SilentOutputIsReports` | src/RunTests/RunTests.java:41-56 | When no tested method whose body runs prints anything, the redirected output is exactly the report lines; what untested methods or methods that were never invoked would print does not matter |
| `Harness.OutputCoversReports` | src/RunTests/RunTests.java:41-56 | The redirected output has at least one line per report |
| `Harness.PrintingTestLengthensOutput` | src/RunTests/RunTests.java:41-56 | A tested method that runs and prints puts extra lines into the output, which is then no longer the report lines alone |
| `Harness.SameLines` | src/RunTests/RunTests.java:225-229 | `compareFiles` holds exactly when the two line lists have the same length and agree at every index |
| `Harness.ReferenceFileNameParts` | src/RunTests/RunTests.java:35 | The reference file name is `RunTests_`, then the class name, then `.output` |
| `Harness.VerdictLineParts` | src/RunTests/RunTests.java:62-66 | The verdict line starts with `Output matches reference file: ` exactly when the files matched, and ends with the reference file name |
| `Harness.VerdictLineDetermines` | src/RunTests/RunTests.java:62-66 | Two verdict lines are equal exactly when they name the same class and the same comparison outcome |
| `Harness.VerdictLinesForC` | src/RunTests/RunTests.java:62-66 | For class `C` the verdicts are `Output matches reference file: RunTests_C.output` and `Output differs from reference file: RunTests_C.output` |
| `Harness.GateOnSwappedLines` | src/RunTests/RunTests.java:225-229 | A transcript matches itself, and differs from a reference file in which two adjacent distinct lines are swapped |
| `Harness.Run` | src/RunTests/RunTests.java:34-76 | No class means no transcript, no output and no verdict. Otherwise: one report per test entry, in order; the compared output is what loading the class printed, then each test's printed lines and report line; a verdict exists exactly when the reference file was read, and it is the matches/differs line for `RunTests_<className>.output`, chosen by equality of the output with the reference lines |
| `Harness.SilentClassVerdict` | src/RunTests/RunTests.java:41-66 | For a class whose loading prints nothing and whose tested methods print nothing when they run, the verdict is "matches" exactly when the reference file holds the report lines |
| `Scenarios.AddSucceeds` | src/RunTests/RunTests.java:103-106 | add with arguments "2" and "3" returning 5 is TestSucceeded |
| `Scenarios.AddWrongValueFails` | src/RunTests/RunTests.java:107-108 | The same call against an expected 6 is TestFailed |
| `Scenarios.AddUndecodableArgument` | src/RunTests/RunTests.java:92-95 | An argument "three" under tag int is WrongArgs, whatever the method does |
| `Scenarios.AddWrongResultType` | src/RunTests/RunTests.java:103-104 | An int result under tag string is WrongResultType |
| `Scenarios.AddUnderVoidTagIsWrongArgs` | src/RunTests/RunTests.java:111-112 | An int result under tag `""` is WrongArgs |
| `Scenarios.NoopSucceeds` | src/RunTests/RunTests.java:105-106 | A void method under the default specification is TestSucceeded |
| `Scenarios.DivideThrowsFails` | src/RunTests/RunTests.java:113-114 | A method that throws is TestFailed |
| `Scenarios.LaxBooleanArgument` | src/RunTests/RunTests.java:159 | A bool argument "yes" decodes to false instead of failing |

## Left out

- Reflection is not modelled: `Class.forName`, the constructor, `getMethods`, annotation lookup and `method.invoke`. Discovery takes the loaded class as input; `None` stands for a class that cannot be loaded or built. What the invocation does is an input too, and so are the lines each method prints. So `ArgumentMismatch` is not derived from the parameter types.
- The shared instance is not modelled. Anything an earlier test does to it is folded into the invocation outcome and printed lines of later methods.
- Output and file handling is I/O and process-wide state, and is not modelled: `System.setOut` redirection, the temporary file, `readAllLines`, `deleteIfExists`, `printStackTrace`, the error channel and the command-line arity check. An unreadable reference file is the input `None`. The redirection's effect on what is compared is modelled: printed lines go into the compared output.
- Harness.Run: text printed to `System.out` by the class or its tested methods is modelled as whole lines. Text that does not end with a line break would run into the next line of the temporary file, and that is not modelled.
- The report line format (`AdditionalCode.Report`) is not part of this model. A report is the triple (outcome, method name, specification). Turning reports into lines is the parameter `render`, and each report is assumed to be exactly one line.
- `Report.report` is assumed never to throw. Its calls at lines 94, 104, 106 and 108 are inside the `try` that opens at line 90. Without that assumption, an `IllegalArgumentException` from one of them would be caught at line 111 and add a second report, `WrongArgs`. An `InvocationTargetException` or `IllegalAccessException` would be caught at line 113 and add a second `TestFailed` report. Any other exception from those calls, and any exception from the reports at lines 112 and 114, would escape `runTest` and abort the run.
- Anything the tested method's body throws, a Java `Error` such as `AssertionError` or `StackOverflowError` included, reaches `runTest` wrapped in `InvocationTargetException`, is caught at line 113 and is the `Threw` case. What `runTest` does not catch is an `Error` raised outside the body, by the JVM or by the reflection machinery (an `OutOfMemoryError` while the arguments are built, say). That is not modelled, so the modelled harness never aborts mid-run.
- Verifier.VerifyResult: a result of a class outside the four (`Other`) is taken to equal no decoded value, as a symmetric `equals` would. The user's own `equals` is not modelled. `runTest` never reaches this case, because `verifyType` rejects such a result first (`Verifier.OtherResultNeverCompared`).
- `Double.parseDouble` is a parameter (`DoubleParser`), so how doubles are parsed and rendered is not modelled. A double is its `doubleToLongBits` image, and no round trip is proved for doubles.
- JavaLang.ParseInt accepts only ASCII digits. `Integer.parseInt` also accepts other Unicode decimal digits, because it uses `Character.digit`.
- JavaLang.EqualsIgnoreCase folds only ASCII letters. That is exact for the one comparison the harness makes (with `"true"`). No non-ASCII character folds to those letters.
