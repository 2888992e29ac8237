/**
 * The JUnit report built from the results of the analysis runs: a `testsuites` root holding one
 * `testsuite` per result, each holding one `testcase` per failure and per error. The XML tree is a
 * value; the host name and the timestamp are given by the caller.
 */
module JUnit {
  import opened Wrappers
  import opened Strings
  import opened Models

  /** An XML element: tag, attributes in the order they were set, text, children. */
  datatype Element = Element(tag: string, attrs: seq<(string, string)>, text: Option<string>, children: seq<Element>)

  /** The value of attribute `key`, if it is set. */
  function Attr(e: Element, key: string): Option<string> {
    AttrIn(e.attrs, key)
  }

  function AttrIn(attrs: seq<(string, string)>, key: string): Option<string> {
    if attrs == [] then None
    else if attrs[0].0 == key then Some(attrs[0].1)
    else AttrIn(attrs[1..], key)
  }

  /** An attribute set once, at position `k`, has the value set there. */
  lemma {:induction false} AttrAt(attrs: seq<(string, string)>, k: nat, key: string)
    requires k < |attrs| && attrs[k].0 == key
    requires forall j :: 0 <= j < k ==> attrs[j].0 != key
    ensures AttrIn(attrs, key) == Some(attrs[k].1)
  {
    if k > 0 {
      AttrAt(attrs[1..], k - 1, key);
    }
  }

  /** The report name used when the caller gives none. */
  const DefaultName := "replay_test"

  /** The `testcase` element for one failure (`kind` "failure") or error (`kind` "error"). */
  function CaseElement(p: Problem, kind: string): Element {
    Element("testcase", [("name", p.test.display), ("classname", p.test.className), ("time", "0")], None,
      [Element(kind, [], Some(p.traceback), [])])
  }

  /** The `testsuite` element for the result at position `index`. */
  function SuiteElement(name: string, index: nat, r: TestResult, hostname: string, timestamp: string): Element {
    Element("testsuite",
      [("name", name + "_suite_" + NatToString(index + 1)),
       ("tests", NatToString(r.testsRun)),
       ("failures", NatToString(|r.failures|)),
       ("errors", NatToString(|r.errors|)),
       ("hostname", hostname),
       ("timestamp", timestamp),
       ("time", "0")],
      None,
      seq(|r.failures|, i requires 0 <= i < |r.failures| => CaseElement(r.failures[i], "failure")) +
      seq(|r.errors|, i requires 0 <= i < |r.errors| => CaseElement(r.errors[i], "error")))
  }

  /** The count a suite reports under `key`: "tests", "failures" or "errors". */
  function Count(r: TestResult, key: string): nat {
    if key == "tests" then r.testsRun else if key == "failures" then |r.failures| else |r.errors|
  }

  /** The sum of `Count(_, key)` over the results. */
  function Total(rs: seq<TestResult>, key: string): nat {
    if rs == [] then 0 else Total(rs[..|rs| - 1], key) + Count(rs[|rs| - 1], key)
  }

  lemma TotalStep(rs: seq<TestResult>, i: nat, key: string)
    requires i < |rs|
    ensures Total(rs[..i + 1], key) == Total(rs[..i], key) + Count(rs[i], key)
  {
    assert rs[..i + 1][..i] == rs[..i];
  }

  /** The whole report. */
  function Report(name: string, rs: seq<TestResult>, hostname: string, timestamp: string): Element {
    Element("testsuites",
      [("name", name),
       ("tests", NatToString(Total(rs, "tests"))),
       ("failures", NatToString(Total(rs, "failures"))),
       ("errors", NatToString(Total(rs, "errors")))],
      None,
      seq(|rs|, i requires 0 <= i < |rs| => SuiteElement(name, i, rs[i], hostname, timestamp)))
  }

  /** One suite: its attributes, then a test case per failure, then one per error. */
  method BuildSuite(name: string, index: nat, r: TestResult, hostname: string, timestamp: string) returns (suite: Element)
    ensures suite == SuiteElement(name, index, r, hostname, timestamp)
  {
    var attrs := [("name", name + "_suite_" + NatToString(index + 1))];
    attrs := attrs + [("tests", NatToString(r.testsRun))];
    attrs := attrs + [("failures", NatToString(|r.failures|))];
    attrs := attrs + [("errors", NatToString(|r.errors|))];
    attrs := attrs + [("hostname", hostname)];
    attrs := attrs + [("timestamp", timestamp)];
    attrs := attrs + [("time", "0")];
    var cases: seq<Element> := [];
    for k := 0 to |r.failures|
      invariant |cases| == k
      invariant forall j :: 0 <= j < k ==> cases[j] == CaseElement(r.failures[j], "failure")
    {
      var p := r.failures[k];
      var failure := Element("failure", [], Some(p.traceback), []);
      cases := cases + [Element("testcase", [("name", p.test.display), ("classname", p.test.className), ("time", "0")], None, [failure])];
    }
    for k := 0 to |r.errors|
      invariant |cases| == |r.failures| + k
      invariant forall j :: 0 <= j < |r.failures| ==> cases[j] == CaseElement(r.failures[j], "failure")
      invariant forall j :: 0 <= j < k ==> cases[|r.failures| + j] == CaseElement(r.errors[j], "error")
    {
      var p := r.errors[k];
      var error := Element("error", [], Some(p.traceback), []);
      cases := cases + [Element("testcase", [("name", p.test.display), ("classname", p.test.className), ("time", "0")], None, [error])];
    }
    suite := Element("testsuite", attrs, None, cases);
    assert cases == seq(|r.failures|, i requires 0 <= i < |r.failures| => CaseElement(r.failures[i], "failure")) +
      seq(|r.errors|, i requires 0 <= i < |r.errors| => CaseElement(r.errors[i], "error"));
  }

  /** `unittest_results_to_xml`: the suites are added one by one while the totals are accumulated, and the totals are set on the root at the end. */
  method ResultsToXml(name: string, results: seq<TestResult>, hostname: string, timestamp: string) returns (root: Element)
    ensures root == Report(name, results, hostname, timestamp)
  {
    hide SuiteElement;
    var suites: seq<Element> := [];
    var totalTests, totalFailures, totalErrors := 0, 0, 0;
    for i := 0 to |results|
      invariant |suites| == i
      invariant forall j :: 0 <= j < i ==> suites[j] == SuiteElement(name, j, results[j], hostname, timestamp)
      invariant totalTests == Total(results[..i], "tests")
      invariant totalFailures == Total(results[..i], "failures")
      invariant totalErrors == Total(results[..i], "errors")
    {
      var suite := BuildSuite(name, i, results[i], hostname, timestamp);
      suites := suites + [suite];
      TotalStep(results, i, "tests");
      TotalStep(results, i, "failures");
      TotalStep(results, i, "errors");
      totalTests := totalTests + results[i].testsRun;
      totalFailures := totalFailures + |results[i].failures|;
      totalErrors := totalErrors + |results[i].errors|;
    }
    assert results[..|results|] == results;
    assert suites == seq(|results|, i requires 0 <= i < |results| => SuiteElement(name, i, results[i], hostname, timestamp));
    root := Element("testsuites",
      [("name", name), ("tests", NatToString(totalTests)), ("failures", NatToString(totalFailures)), ("errors", NatToString(totalErrors))],
      None, suites);
  }

  /** The attributes of a suite, in the order they are set. */
  lemma SuiteAttrs(name: string, index: nat, r: TestResult, hostname: string, timestamp: string)
    ensures var s := SuiteElement(name, index, r, hostname, timestamp);
      Attr(s, "name") == Some(name + "_suite_" + NatToString(index + 1)) &&
      Attr(s, "tests") == Some(NatToString(r.testsRun)) &&
      Attr(s, "failures") == Some(NatToString(|r.failures|)) &&
      Attr(s, "errors") == Some(NatToString(|r.errors|)) &&
      Attr(s, "hostname") == Some(hostname) && Attr(s, "timestamp") == Some(timestamp) &&
      Attr(s, "time") == Some("0")
  {
    hide NatToString;
    var a := SuiteElement(name, index, r, hostname, timestamp).attrs;
    AttrAt(a, 0, "name");
    AttrAt(a, 1, "tests");
    AttrAt(a, 2, "failures");
    AttrAt(a, 3, "errors");
    AttrAt(a, 4, "hostname");
    AttrAt(a, 5, "timestamp");
    AttrAt(a, 6, "time");
  }

  /** The attributes of the root. */
  lemma RootAttrs(name: string, rs: seq<TestResult>, hostname: string, timestamp: string)
    ensures var root := Report(name, rs, hostname, timestamp);
      Attr(root, "name") == Some(name) &&
      Attr(root, "tests") == Some(NatToString(Total(rs, "tests"))) &&
      Attr(root, "failures") == Some(NatToString(Total(rs, "failures"))) &&
      Attr(root, "errors") == Some(NatToString(Total(rs, "errors")))
  {
    var a := Report(name, rs, hostname, timestamp).attrs;
    AttrAt(a, 0, "name");
    AttrAt(a, 1, "tests");
    AttrAt(a, 2, "failures");
    AttrAt(a, 3, "errors");
  }

  /** The decimal count a suite carries under `key` (0 when there is none). */
  function SuiteCount(s: Element, key: string): nat {
    match Attr(s, key)
    case Some(v) => if IsDecimal(v) then DecimalValue(v) else 0
    case None => 0
  }

  function SumCounts(suites: seq<Element>, key: string): nat {
    if suites == [] then 0 else SumCounts(suites[..|suites| - 1], key) + SuiteCount(suites[|suites| - 1], key)
  }

  /** The root is `testsuites`, named by the caller, with one suite per result in order, each named after its position from 1 and reporting its result's tests, failures and errors. */
  lemma ReportSuites(name: string, rs: seq<TestResult>, hostname: string, timestamp: string, i: nat)
    requires i < |rs|
    ensures var root := Report(name, rs, hostname, timestamp);
      root.tag == "testsuites" && Attr(root, "name") == Some(name) && |root.children| == |rs| &&
      root.children[i].tag == "testsuite" &&
      Attr(root.children[i], "name") == Some(name + "_suite_" + NatToString(i + 1)) &&
      SuiteCount(root.children[i], "tests") == rs[i].testsRun &&
      SuiteCount(root.children[i], "failures") == |rs[i].failures| &&
      SuiteCount(root.children[i], "errors") == |rs[i].errors|
  {
    RootAttrs(name, rs, hostname, timestamp);
    SuiteAttrs(name, i, rs[i], hostname, timestamp);
    DecimalOfNatToString(rs[i].testsRun);
    DecimalOfNatToString(|rs[i].failures|);
    DecimalOfNatToString(|rs[i].errors|);
  }

  /** Summed over the suites, each count is the total over the results. */
  lemma {:induction false} SumSuiteCounts(name: string, rs: seq<TestResult>, hostname: string, timestamp: string, key: string)
    requires key == "tests" || key == "failures" || key == "errors"
    ensures SumCounts(Report(name, rs, hostname, timestamp).children, key) == Total(rs, key)
  {
    if rs != [] {
      var n := |rs| - 1;
      var cs := Report(name, rs, hostname, timestamp).children;
      assert cs[..n] == Report(name, rs[..n], hostname, timestamp).children;
      SumSuiteCounts(name, rs[..n], hostname, timestamp, key);
      SuiteAttrs(name, n, rs[n], hostname, timestamp);
      DecimalOfNatToString(Count(rs[n], key));
    }
  }

  /** The totals on the root are the sums of the suites' counts. */
  lemma ReportTotals(name: string, rs: seq<TestResult>, hostname: string, timestamp: string)
    ensures var root := Report(name, rs, hostname, timestamp);
      SuiteCount(root, "tests") == SumCounts(root.children, "tests") &&
      SuiteCount(root, "failures") == SumCounts(root.children, "failures") &&
      SuiteCount(root, "errors") == SumCounts(root.children, "errors")
  {
    RootAttrs(name, rs, hostname, timestamp);
    SumSuiteCounts(name, rs, hostname, timestamp, "tests");
    SumSuiteCounts(name, rs, hostname, timestamp, "failures");
    SumSuiteCounts(name, rs, hostname, timestamp, "errors");
    DecimalOfNatToString(Total(rs, "tests"));
    DecimalOfNatToString(Total(rs, "failures"));
    DecimalOfNatToString(Total(rs, "errors"));
  }

  /** A suite holds one test case per failure and then one per error, each with a `failure` or `error` child carrying the traceback; a successful result has none. */
  lemma SuiteCases(name: string, index: nat, r: TestResult, hostname: string, timestamp: string)
    ensures var s := SuiteElement(name, index, r, hostname, timestamp);
      |s.children| == |r.failures| + |r.errors| &&
      (WasSuccessful(r) <==> s.children == []) &&
      (forall j :: 0 <= j < |r.failures| ==>
        s.children[j].tag == "testcase" && Attr(s.children[j], "name") == Some(r.failures[j].test.display) &&
        s.children[j].children == [Element("failure", [], Some(r.failures[j].traceback), [])]) &&
      (forall j :: 0 <= j < |r.errors| ==>
        s.children[|r.failures| + j].tag == "testcase" && Attr(s.children[|r.failures| + j], "name") == Some(r.errors[j].test.display) &&
        s.children[|r.failures| + j].children == [Element("error", [], Some(r.errors[j].traceback), [])])
  {
  }

  /** Every `time` attribute in the report is "0". */
  lemma AllTimesZero(name: string, rs: seq<TestResult>, hostname: string, timestamp: string)
    ensures forall s :: s in Report(name, rs, hostname, timestamp).children ==>
      Attr(s, "time") == Some("0") && forall c :: c in s.children ==> Attr(c, "time") == Some("0")
  {
    var cs := Report(name, rs, hostname, timestamp).children;
    forall s | s in cs
      ensures Attr(s, "time") == Some("0") && forall c :: c in s.children ==> Attr(c, "time") == Some("0")
    {
      var i :| 0 <= i < |cs| && cs[i] == s;
      SuiteTimesZero(name, i, rs[i], hostname, timestamp);
    }
  }

  lemma SuiteTimesZero(name: string, index: nat, r: TestResult, hostname: string, timestamp: string)
    ensures var s := SuiteElement(name, index, r, hostname, timestamp);
      Attr(s, "time") == Some("0") && forall c :: c in s.children ==> Attr(c, "time") == Some("0")
  {
    var s := SuiteElement(name, index, r, hostname, timestamp);
    AttrAt(s.attrs, 6, "time");
    forall c | c in s.children
      ensures Attr(c, "time") == Some("0")
    {
      AttrAt(c.attrs, 2, "time");
    }
  }

  /** Two results, five tests with one failure and one error, then three clean tests: the totals are 8, 1 and 1. */
  lemma ExampleTotals(t1: TestCase, t2: TestCase, hostname: string, timestamp: string)
    ensures var root := Report(DefaultName, [TestResult(5, [Problem(t1, "traceback")], [Problem(t2, "traceback")]), TestResult(3, [], [])], hostname, timestamp);
      Attr(root, "name") == Some("replay_test") && |root.children| == 2 &&
      Attr(root, "tests") == Some("8") && Attr(root, "failures") == Some("1") && Attr(root, "errors") == Some("1")
  {
    var rs := [TestResult(5, [Problem(t1, "traceback")], [Problem(t2, "traceback")]), TestResult(3, [], [])];
    assert rs[..2] == rs && rs[..0] == [];
    TotalStep(rs, 0, "tests");
    TotalStep(rs, 1, "tests");
    TotalStep(rs, 0, "failures");
    TotalStep(rs, 1, "failures");
    TotalStep(rs, 0, "errors");
    TotalStep(rs, 1, "errors");
    assert Total(rs, "tests") == 8 && Total(rs, "failures") == 1 && Total(rs, "errors") == 1;
    RootAttrs(DefaultName, rs, hostname, timestamp);
  }
}
