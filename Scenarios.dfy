/** End-to-end examples of the harness on a class C with methods add,
    noop and divide. */
module Scenarios {
  import opened Wrappers
  import opened JavaLang
  import opened ValueCoder
  import opened Testable
  import opened Verifier

  /** add(int, int) with arguments "2" and "3" returns 5, as expected. */
  lemma AddSucceeds(parseDouble: DoubleParser)
    ensures RunTest(parseDouble, Specification(["int", "int"], ["2", "3"], "int", "5"), Returned(Int(5))) == TestSucceeded
  {
    assert ParseInt("5") == Some(5 as int32) by { ParseIntRoundTrip(5); }
  }

  /** The same call against an expected 6 fails. */
  lemma AddWrongValueFails(parseDouble: DoubleParser)
    ensures RunTest(parseDouble, Specification(["int", "int"], ["2", "3"], "int", "6"), Returned(Int(5))) == TestFailed
  {
    assert ParseInt("6") == Some(6 as int32) by { ParseIntRoundTrip(6); }
  }

  /** An argument "three" under tag int does not decode: WrongArgs, whatever add would do. */
  lemma AddUndecodableArgument(parseDouble: DoubleParser, call: Invocation)
    ensures RunTest(parseDouble, Specification(["int", "int"], ["2", "three"], "int", "5"), call) == WrongArgs
  {
    assert ParseValue(parseDouble, "int", "three").Err?;
  }

  /** An int result checked against tag string is a WrongResultType. */
  lemma AddWrongResultType(parseDouble: DoubleParser)
    ensures RunTest(parseDouble, Specification(["int", "int"], ["2", "3"], "string", "5"), Returned(Int(5))) == WrongResultType
  {
  }

  /** An int result under the void tag "" makes getClassForType throw, which
      runTest reports as WrongArgs rather than WrongResultType. */
  lemma AddUnderVoidTagIsWrongArgs(parseDouble: DoubleParser)
    ensures RunTest(parseDouble, Specification(["int", "int"], ["2", "3"], "", ""), Returned(Int(5))) == WrongArgs
  {
  }

  /** noop() under the default specification returns nothing and succeeds. */
  lemma NoopSucceeds(parseDouble: DoubleParser)
    ensures RunTest(parseDouble, Default, Returned(Void)) == TestSucceeded
  {
  }

  /** divide(1, 0) throws inside the method: TestFailed. */
  lemma DivideThrowsFails(parseDouble: DoubleParser)
    ensures RunTest(parseDouble, Specification(["int", "int"], ["1", "0"], "int", "0"), Threw) == TestFailed
  {
  }

  /** A bool argument "yes" decodes to false rather than failing. */
  lemma LaxBooleanArgument(parseDouble: DoubleParser)
    ensures DecodeArguments(parseDouble, ["bool"], ["yes"]) == Some([Bool(false)])
  {
    ParseBoolValue(parseDouble, "yes");
    DecodedArgumentsUnique(parseDouble, ["bool"], ["yes"], [Bool(false)]);
  }
}
