/** Per-test decisions of RunTests.java: parseArguments, verifyType,
    verifyResult and the classification runTest makes. */
module Verifier {
  import opened Wrappers
  import opened ValueCoder
  import opened Testable

  /** The four outcomes a test is reported with (Report.TEST_RESULT). */
  datatype TestResult = WrongArgs | WrongResultType | TestSucceeded | TestFailed

  /** What method.invoke does with the decoded arguments: return a value
      (null for a void method), throw IllegalArgumentException because the
      arguments do not fit the parameters, throw InvocationTargetException
      because the method itself threw, or throw IllegalAccessException. */
  datatype Invocation = Returned(result: Value) | ArgumentMismatch | Threw | AccessDenied

  /** Decoding of parallel lists of equal length, one parseValue per pair:
      it fails as soon as one pair throws. */
  function DecodeEach(parseDouble: DoubleParser, types: seq<string>, values: seq<string>): (r: Option<seq<Value>>)
    requires |types| == |values|
    ensures r.Some? <==> forall i :: 0 <= i < |types| ==> ParseValue(parseDouble, types[i], values[i]).Ok?
    ensures r.Some? ==> (|r.value| == |types| &&
      forall i :: 0 <= i < |types| ==> ParseValue(parseDouble, types[i], values[i]) == Ok(r.value[i]))
  {
    if types == [] then Some([])
    else
      match ParseValue(parseDouble, types[0], values[0])
      case Err(_) => None
      case Ok(v) =>
        match DecodeEach(parseDouble, types[1..], values[1..])
        case None => None
        case Some(vs) => Some([v] + vs)
  }

  /** What parseArguments returns: null (None) when the two lists differ in
      length or some pair fails to decode; otherwise the decoded values, in
      order, one per pair. */
  function DecodeArguments(parseDouble: DoubleParser, types: seq<string>, values: seq<string>): (r: Option<seq<Value>>)
    ensures |types| != |values| ==> r == None
    ensures r.Some? <==> (|types| == |values| &&
      forall i :: 0 <= i < |types| ==> ParseValue(parseDouble, types[i], values[i]).Ok?)
    ensures r.Some? ==> (|r.value| == |types| &&
      forall i :: 0 <= i < |types| ==> ParseValue(parseDouble, types[i], values[i]) == Ok(r.value[i]))
  {
    if |types| != |values| then None else DecodeEach(parseDouble, types, values)
  }

  /** parseArguments(types, values): checks the lengths, allocates the
      argument array and fills it with one parseValue per index, giving up
      with null at the first pair that throws. */
  method ParseArguments(parseDouble: DoubleParser, types: seq<string>, values: seq<string>) returns (r: Option<seq<Value>>)
    ensures r == DecodeArguments(parseDouble, types, values)
  {
    if |types| != |values| {
      return None;
    }
    var args := new Value[|types|](_ => Void);
    for i := 0 to |types|
      invariant forall k :: 0 <= k < i ==> ParseValue(parseDouble, types[k], values[k]) == Ok(args[k])
    {
      var v := ParseValue(parseDouble, types[i], values[i]);
      if v.Err? {
        return None;
      }
      args[i] := v.value;
    }
    r := Some(args[..]);
    DecodedArgumentsUnique(parseDouble, types, values, args[..]);
  }

  /** Decoding is functional: a list of values that every pair decodes to is
      the result of DecodeArguments. */
  lemma DecodedArgumentsUnique(parseDouble: DoubleParser, types: seq<string>, values: seq<string>, args: seq<Value>)
    requires |types| == |values| == |args|
    requires forall k :: 0 <= k < |types| ==> ParseValue(parseDouble, types[k], values[k]) == Ok(args[k])
    ensures DecodeArguments(parseDouble, types, values) == Some(args)
  {
    var r := DecodeArguments(parseDouble, types, values);
    assert r.Some?;
    assert r.value == args by {
      forall k | 0 <= k < |args| ensures r.value[k] == args[k] {
        assert ParseValue(parseDouble, types[k], values[k]) == Ok(args[k]);
      }
    }
  }

  /** verifyType(resType, result): true for null with the void tag "";
      otherwise the tag is resolved with getClassForType, which throws
      IllegalArgumentException for "" and for unknown tags, and the result
      is checked with isInstance, so null fails every known tag. */
  function VerifyType(resType: string, result: Value): (r: Result<bool, Exception>)
    ensures result.Void? && resType == "" ==> r == Ok(true)
    ensures r.Err? <==> resType !in KnownTags && !(result.Void? && resType == "")
    ensures r.Err? ==> r.error == IllegalArgumentException
    ensures r == Ok(true) <==> (result.Void? && resType == "") || TagOf(result) == Some(resType)
  {
    if result.Void? && resType == "" then Ok(true)
    else
      match ClassForType(resType)
      case Err(e) => Err(e)
      case Ok(c) =>
        ClassForTypeMatchesTag(resType, result);
        Ok(IsInstance(c, result))
  }

  /** result.equals(expected) for a non-null result: Integer, Double, Boolean
      and String compare by class and contents, and, equals being symmetric,
      an object of another class equals none of them. */
  predicate ValueEquals(result: Value, expected: Value)
    requires !result.Void?
  {
    !result.Other? && result == expected
  }

  /** verifyResult(result, resType, resVal): a null result succeeds exactly
      when resVal is empty; a non-null one needs a non-empty tag under which
      resVal decodes without throwing to a value equal to the result. */
  function VerifyResult(parseDouble: DoubleParser, result: Value, resType: string, resVal: string): (r: bool)
    ensures result.Void? ==> (r <==> resVal == "")
    ensures !result.Void? && resType == "" ==> !r
    ensures !result.Void? ==> (r <==> ParseValue(parseDouble, resType, resVal) == Ok(result))
  {
    if result.Void? && resVal == "" then true
    else if result.Void? || resType == "" then false
    else
      match ParseValue(parseDouble, resType, resVal)
      case Err(_) => false
      case Ok(expected) => ValueEquals(result, expected)
  }

  /** The outcome runTest reports once parseArguments has given decoded
      (None for null), for a method whose invocation would behave as call.
      Arguments that do not decode give WrongArgs before any call; a
      dispatcher argument mismatch gives WrongArgs; a throwing method or an
      access refusal gives TestFailed; a returned value is type-checked first
      (WrongResultType) and only then compared (TestSucceeded or TestFailed).
      The IllegalArgumentException getClassForType throws for a non-null
      result under "" or under an unknown tag, or for null under an unknown
      tag, is caught with the dispatcher's own and also gives WrongArgs. */
  function Classify(parseDouble: DoubleParser, decoded: Option<seq<Value>>, spec: Specification, call: Invocation): (r: TestResult)
    ensures r == WrongArgs <==>
      || decoded.None?
      || call.ArgumentMismatch?
      || (call.Returned? && spec.resType !in KnownTags && !(call.result.Void? && spec.resType == ""))
    ensures r == WrongResultType <==>
      && decoded.Some?
      && call.Returned? && spec.resType in KnownTags && TagOf(call.result) != Some(spec.resType)
    ensures r == TestSucceeded <==>
      && decoded.Some?
      && call.Returned?
      && if call.result.Void? then spec.resType == "" && spec.resVal == ""
         else spec.resType in KnownTags && ParseValue(parseDouble, spec.resType, spec.resVal) == Ok(call.result)
    ensures r == TestFailed <==>
      && decoded.Some?
      && (|| call.Threw? || call.AccessDenied?
          || (&& call.Returned?
              && if call.result.Void? then spec.resType == "" && spec.resVal != ""
                 else && spec.resType in KnownTags && TagOf(call.result) == Some(spec.resType)
                      && ParseValue(parseDouble, spec.resType, spec.resVal) != Ok(call.result)))
  {
    match decoded
    case None => WrongArgs
    case Some(_) =>
      match call
      case ArgumentMismatch => WrongArgs
      case Threw => TestFailed
      case AccessDenied => TestFailed
      case Returned(result) =>
        match VerifyType(spec.resType, result)
        case Err(_) => WrongArgs
        case Ok(false) => WrongResultType
        case Ok(true) =>
          if VerifyResult(parseDouble, result, spec.resType, spec.resVal) then TestSucceeded else TestFailed
  }

  /** runTest(method, instance, spec): parseArguments, then the
      classification. Undecodable arguments and a dispatcher mismatch give
      WrongArgs, a throwing method or an access refusal TestFailed, and only
      a returned value can be WrongResultType or TestSucceeded. */
  function RunTest(parseDouble: DoubleParser, spec: Specification, call: Invocation): (r: TestResult)
    ensures DecodeArguments(parseDouble, spec.argTypes, spec.argValues).None? ==> r == WrongArgs
    ensures DecodeArguments(parseDouble, spec.argTypes, spec.argValues).Some? && call.ArgumentMismatch? ==> r == WrongArgs
    ensures DecodeArguments(parseDouble, spec.argTypes, spec.argValues).Some? && (call.Threw? || call.AccessDenied?) ==>
      r == TestFailed
    ensures r == WrongResultType || r == TestSucceeded ==>
      DecodeArguments(parseDouble, spec.argTypes, spec.argValues).Some? && call.Returned?
  {
    Classify(parseDouble, DecodeArguments(parseDouble, spec.argTypes, spec.argValues), spec, call)
  }

  /** A result of a class outside the four never reaches verifyResult:
      it is WrongResultType under a known tag and WrongArgs otherwise. */
  lemma OtherResultNeverCompared(parseDouble: DoubleParser, decoded: Option<seq<Value>>, spec: Specification)
    ensures Classify(parseDouble, decoded, spec, Returned(Other)) ==
      if decoded.Some? && spec.resType in KnownTags then WrongResultType else WrongArgs
  {
  }

  /** A specification whose lists differ in length is reported WrongArgs,
      whatever the method would have done: it is never invoked. */
  lemma LengthMismatchNeverInvokes(parseDouble: DoubleParser, spec: Specification, call: Invocation)
    requires |spec.argTypes| != |spec.argValues|
    ensures RunTest(parseDouble, spec, call) == WrongArgs
  {
  }

  /** Whenever the arguments do not decode, the outcome does not depend on
      the method at all. */
  lemma UndecodableArgumentsNeverInvoke(parseDouble: DoubleParser, spec: Specification, call1: Invocation, call2: Invocation)
    requires DecodeArguments(parseDouble, spec.argTypes, spec.argValues).None?
    ensures RunTest(parseDouble, spec, call1) == RunTest(parseDouble, spec, call2) == WrongArgs
  {
  }

  /** Type check before value check: a WrongResultType outcome stays the same
      whatever the expected value text is, so no value was compared. */
  lemma TypeCheckedBeforeValue(parseDouble: DoubleParser, spec: Specification, call: Invocation, otherVal: string)
    requires RunTest(parseDouble, spec, call) == WrongResultType
    ensures RunTest(parseDouble, spec.(resVal := otherVal), call) == WrongResultType
  {
  }

  /** The annotation's defaults pass the length guard and decode to no
      arguments; a method that returns nothing under them succeeds, while
      one that returns a value is reported WrongArgs, because
      getClassForType("") throws. */
  lemma DefaultSpecification(parseDouble: DoubleParser, result: Value)
    ensures DecodeArguments(parseDouble, Default.argTypes, Default.argValues) == Some([])
    ensures RunTest(parseDouble, Default, Returned(result)) ==
      if result.Void? then TestSucceeded else WrongArgs
  {
  }
}
