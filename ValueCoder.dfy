/** The value coder of RunTests.java: parseValue, which turns a type tag and
    a text into a runtime value, and getClassForType, which turns a tag into
    the class a result is checked against. */
module ValueCoder {
  import opened Wrappers
  import opened JavaLang

  /** The runtime values the harness handles (a boxed Object in Java).
      Int, Double, Bool and Str are boxed Integer, Double, Boolean and String
      objects; a Double is kept by its Double.doubleToLongBits image, which is
      what Double.equals compares. Other is an object of any other class a
      tested method may return. Void is null, which also stands for the
      absent result of a void method. */
  datatype Value = Int(i: int32) | Double(bits: bv64) | Bool(b: bool) | Str(s: string) | Other | Void

  /** The four classes getClassForType can return. */
  datatype JavaClass = IntegerClass | DoubleClass | BooleanClass | StringClass

  /** The exceptions the coder throws. In Java NumberFormatException is a
      subclass of IllegalArgumentException. */
  datatype Exception = NumberFormatException | IllegalArgumentException

  /** Double.parseDouble, left uninterpreted: the doubleToLongBits image of
      the parsed number, or None for a NumberFormatException. */
  type DoubleParser = string -> Option<bv64>

  /** The tags both switches recognise. */
  const KnownTags: set<string> := {"int", "double", "bool", "string"}

  /** The tag whose decoding yields values of v's class, if any. */
  function TagOf(v: Value): Option<string>
  {
    match v
    case Int(_) => Some("int")
    case Double(_) => Some("double")
    case Bool(_) => Some("bool")
    case Str(_) => Some("string")
    case Other => None
    case Void => None
  }

  /** parseValue(type, value). A known tag decodes to a value of that tag's
      class or throws NumberFormatException, which only the numeric tags do;
      bool and string never throw; any other tag, "" included, gives null. */
  function ParseValue(parseDouble: DoubleParser, tag: string, text: string): (r: Result<Value, Exception>)
    ensures r.Err? ==> (tag == "int" || tag == "double") && r.error == NumberFormatException
    ensures r.Ok? && tag in KnownTags ==> TagOf(r.value) == Some(tag)
    ensures tag !in KnownTags <==> r == Ok(Void)
    ensures r != Ok(Other)
  {
    match tag
    case "int" =>
      (match ParseInt(text)
       case Some(x) => Ok(Int(x))
       case None => Err(NumberFormatException))
    case "double" =>
      (match parseDouble(text)
       case Some(d) => Ok(Double(d))
       case None => Err(NumberFormatException))
    case "bool" => Ok(Bool(ParseBoolean(text)))
    case "string" => Ok(Str(text))
    case _ => Ok(Void)
  }

  /** getClassForType(type): the class for a known tag; any other tag, ""
      included, throws IllegalArgumentException. */
  function ClassForType(tag: string): (r: Result<JavaClass, Exception>)
    ensures r.Ok? <==> tag in KnownTags
    ensures r.Err? ==> r.error == IllegalArgumentException
  {
    match tag
    case "int" => Ok(IntegerClass)
    case "double" => Ok(DoubleClass)
    case "bool" => Ok(BooleanClass)
    case "string" => Ok(StringClass)
    case _ => Err(IllegalArgumentException)
  }

  /** Class.isInstance(v): null is an instance of no class, and the four
      classes are final, so each holds only its own boxed values. */
  predicate IsInstance(c: JavaClass, v: Value)
  {
    match c
    case IntegerClass => v.Int?
    case DoubleClass => v.Double?
    case BooleanClass => v.Bool?
    case StringClass => v.Str?
  }

  /** The two switches agree: the class getClassForType returns for a tag is
      the class of exactly the values tagged with it, so whatever parseValue
      decodes under a known tag passes the isInstance check for that tag. */
  lemma ClassForTypeMatchesTag(tag: string, v: Value)
    requires tag in KnownTags
    ensures ClassForType(tag).Ok? && (IsInstance(ClassForType(tag).value, v) <==> TagOf(v) == Some(tag))
  {
  }

  /** parseValue("bool", v) never throws and is true exactly for the
      spellings of "true" in any letter case. */
  lemma ParseBoolValue(parseDouble: DoubleParser, text: string)
    ensures ParseValue(parseDouble, "bool", text) ==
      Ok(Bool(|text| == 4 && text[0] in "tT" && text[1] in "rR" && text[2] in "uU" && text[3] in "eE"))
  {
  }

  /** parseValue("int", v) succeeds exactly when Integer.parseInt does; on
      the decimal rendering of an int it gives back that int, and on the
      rendering of a number outside the 32-bit range it throws. */
  lemma ParseIntValue(parseDouble: DoubleParser, n: int)
    ensures ParseValue(parseDouble, "int", IntToDecimal(n)) ==
      if MinInt <= n <= MaxInt then Ok(Int(n as int32)) else Err(NumberFormatException)
  {
    ParseIntDecimal(n);
  }

  /** The text a value takes in a specification, with its tag, for the
      values that have one (doubles are left uninterpreted). */
  function Encode(v: Value): Option<(string, string)>
  {
    match v
    case Int(x) => Some(("int", IntToDecimal(x as int)))
    case Bool(b) => Some(("bool", if b then "true" else "false"))
    case Str(s) => Some(("string", s))
    case _ => None
  }

  /** Round trip: decoding the textual form of an int, bool or string value
      gives that value back. */
  lemma DecodeEncode(parseDouble: DoubleParser, v: Value)
    requires Encode(v).Some?
    ensures ParseValue(parseDouble, Encode(v).value.0, Encode(v).value.1) == Ok(v)
  {
    match v
    case Int(x) => ParseIntRoundTrip(x);
    case Bool(b) =>
    case Str(_) =>
  }
}
