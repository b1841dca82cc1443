// The data the code-lens provider works on: test suites found in a Java
// document and the results the test runner reported for them.

module Protocols {

  datatype Option<+T> = None | Some(value: T)

  /** The status a test run reports. The editor knows three statuses; anything
      else the runner sends (the field is untyped at run time) is `Unrecognized`. */
  datatype TestStatus = Pass | Fail | Skipped | Unrecognized(name: string)

  /** A test result. Only `status` is inspected by the code lenses; the rest of
      the report is carried along unchanged. */
  datatype TestResult = TestResult(status: Option<TestStatus>, report: string)

  datatype Position = Position(line: nat, character: nat)

  /** The span of a test method in its document. */
  datatype Range = Range(start: Position, end: Position)

  /** A test suite (one test method) as returned by test discovery. Its name and
      range never change; its result is filled in place when a cached result
      is merged into it. */
  class TestSuite {
    const test: string
    const range: Range
    var result: Option<TestResult>

    constructor (test: string, range: Range, result: Option<TestResult>)
      ensures this.test == test && this.range == range && this.result == result
    {
      this.test := test;
      this.range := range;
      this.result := result;
    }
  }
}
