/** The Specification annotation of package Testable: the four strings a
    test method carries. */
module Testable {

  /** argTypes and argValues are parallel lists of type tags and texts;
      resType is the tag of the expected result, "" meaning void, and resVal
      its text. Nothing ties the two lists' lengths together. */
  datatype Specification = Specification(
    argTypes: seq<string>,
    argValues: seq<string>,
    resType: string,
    resVal: string)

  /** The annotation with every member left at its default. */
  const Default: Specification := Specification([], [], "", "")
}
