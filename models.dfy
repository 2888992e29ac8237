/**
 * The data that the phases pass between them: the phase tags, one set of run parameters, a
 * recording file reference, the abstract content of a recording, and the result of one test run.
 */
module Models {
  import FileTree

  /** The tag each phase class carries. */
  datatype Phase = Fixtures | Run | Analyze

  /** One parameter set of the run phase; `params` is the free-form dictionary handed to the launch description. */
  datatype RunParams = RunParams(name: string, params: map<string, string>)

  /** A recording on disk, by path (the optional reader attached to it is not modelled). */
  datatype McapFixture = McapFixture(path: string)

  /** A topic of a recording: its name and message type. */
  datatype TopicMetadata = TopicMetadata(name: string, typeName: string)

  /** A serialized message on `topic`, received at `timestamp` nanoseconds. */
  datatype Message = Message(topic: string, data: FileTree.Bytes, timestamp: int)

  /** The content of a recording: its declared topics and its messages in stored order. */
  datatype Recording = Recording(topics: seq<TopicMetadata>, messages: seq<Message>)

  /** The names of the declared topics, in order. */
  function TopicNames(ts: seq<TopicMetadata>): (r: seq<string>)
    ensures |r| == |ts| && forall i :: 0 <= i < |ts| ==> r[i] == ts[i].name
  {
    if ts == [] then [] else [ts[0].name] + TopicNames(ts[1..])
  }

  /** A test as the report shows it: `str(test)` and the name of its class. */
  datatype TestCase = TestCase(display: string, className: string)

  /** One failure or error of a run: the test and its traceback. */
  datatype Problem = Problem(test: TestCase, traceback: string)

  /** What one run of the analysis tests produced. */
  datatype TestResult = TestResult(testsRun: nat, failures: seq<Problem>, errors: seq<Problem>)

  /** `wasSuccessful()`: no failures and no errors. */
  predicate WasSuccessful(r: TestResult) {
    |r.failures| == 0 && |r.errors| == 0
  }
}
