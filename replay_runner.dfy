/**
 * The runner that takes a test module through its three phases: it prepares one fixture per
 * declared recording, replays the filtered recording once per run parameter set while the
 * recorder captures the system's output, and runs the analysis tests on each run's recording.
 * The file system is a value passed in and out; launching, reading and encoding recordings and
 * running the tests are functions the caller supplies.
 */
module ReplayRunner {
  import opened Wrappers
  import opened Strings
  import Paths
  import opened FileTree
  import opened Models
  import opened Filter
  import opened JUnit
  import opened ReplayFixtures
  import opened TestClasses
  import RunDecorator
  import FixturesDecorator
  import opened OrderedDicts

  /** Why a phase stopped. */
  datatype RunnerError =
    | NoStageClass(stage: Phase)              // ValueError: no class carries the tag
    | FileError(os: OsError)                  // a directory or file could not be made
    | NoFixtureList                           // AttributeError: the class has no `fixture_list`
    | FixtureListNone                         // TypeError: `fixture_list` is `None`
    | MalformedTopics                         // the class's topics are not lists of strings
    | FixtureMissing(path: string)            // AssertionError: "Fixture path does not exist"
    | NotMcap(path: string)                   // AssertionError: "Fixture path is not an .mcap file"
    | Unreadable(path: string)                // the recording cannot be opened
    | InputTopicsMismatch                     // AssertionError: "Input topics do not match. ..."
    | NoParameters                            // AttributeError: the run class has no `parameters`
    | EmptyParameters                         // ValueError: "No parameters found for run"
    | RunsExist                               // ValueError: "Run fixtures already exist"
    | NoLaunchMethod                          // AttributeError: no `generate_launch_description`
    | LaunchMethodFailed(cause: PyError)      // the call of `generate_launch_description` failed
    | CleanupFailed(reason: CleanupError)     // relocating a run's recording failed

  // ---------------------------------------------------------------------------------------------
  // Phase classes

  /** The phase tags of the module's classes, in order. */
  function Phases(cs: seq<PyClass>): (ps: seq<Option<Phase>>)
    reads cs
    ensures |ps| == |cs| && forall i :: 0 <= i < |cs| ==> ps[i] == cs[i].phase
  {
    if cs == [] then [] else [cs[0].phase] + Phases(cs[1..])
  }

  /** The position of the first tag equal to `stage`, or -1. */
  function FirstTagged(ps: seq<Option<Phase>>, stage: Phase): (i: int)
    ensures -1 <= i < |ps|
    ensures i >= 0 ==> ps[i] == Some(stage) && forall j :: 0 <= j < i ==> ps[j] != Some(stage)
    ensures i < 0 ==> forall j :: 0 <= j < |ps| ==> ps[j] != Some(stage)
  {
    if ps == [] then -1
    else if ps[0] == Some(stage) then 0
    else
      var j := FirstTagged(ps[1..], stage);
      if j < 0 then -1 else j + 1
  }

  /** The class `_get_stage_class` returns for `stage`, or its error. */
  function StageLookup(cs: seq<PyClass>, stage: Phase): Result<PyClass, RunnerError>
    reads cs
  {
    var i := FirstTagged(Phases(cs), stage);
    if i < 0 then Failure(NoStageClass(stage)) else Success(cs[i])
  }

  // ---------------------------------------------------------------------------------------------
  // The launch description of one run

  /** What the player's exit emits. */
  datatype Event = Shutdown

  /** The entries of a launch description. */
  datatype Action =
    | IncludeLaunch(package: string, file: string, arguments: seq<(string, string)>)
    | Description(user: UserLaunch)
    | ExecuteProcess(cmd: seq<string>, name: string, env: seq<(string, string)>, output: string)
    | OnProcessExit(target: Action, onExit: seq<Event>)

  /** The command that replays the filtered recording, with the QoS overrides file when the run class names one. */
  function PlayerCommand(filteredPath: string, qos: Option<string>): (cmd: seq<string>)
    ensures |cmd| == (if qos.Some? then 8 else 6)
    ensures cmd[..6] == ["ros2", "bag", "play", filteredPath, "--clock", "10000"]
    ensures qos.Some? ==> cmd[6..] == ["--qos-profile-overrides-path", qos.value]
  {
    ["ros2", "bag", "play", filteredPath, "--clock", "10000"] +
    (if qos.Some? then ["--qos-profile-overrides-path", qos.value] else [])
  }

  /** The player process. */
  function Player(filteredPath: string, qos: Option<string>): Action {
    ExecuteProcess(PlayerCommand(filteredPath, qos), "ros2_bag_player", [("PYTHONUNBUFFERED", "1")], "screen")
  }

  /**
   * The launch description of one run: the recorder, writing into the run path's parent under
   * the run path's stem; the user's description; the player; and the handler that shuts the
   * launch down when the player exits.
   */
  function RunLaunchDescription(filtered: McapFixture, run: McapFixture, user: UserLaunch, qos: Option<string>): (ld: seq<Action>)
    ensures |ld| == 4
    ensures ld[0] == IncludeLaunch("mcap_recorder", "launch/recorder.launch.py",
      [("recording_directory", ParentDir(run.path)), ("mcap_filename", Paths.Stem(Paths.Parse(run.path)))])
    ensures ld[1] == Description(user)
    ensures ld[2].ExecuteProcess? && ld[2].cmd == PlayerCommand(filtered.path, qos) && ld[2].name == "ros2_bag_player"
    ensures ld[3] == OnProcessExit(ld[2], [Shutdown])
  {
    var player := Player(filtered.path, qos);
    [IncludeLaunch("mcap_recorder", "launch/recorder.launch.py",
       [("recording_directory", ParentDir(run.path)), ("mcap_filename", Paths.Stem(Paths.Parse(run.path)))]),
     Description(user),
     player,
     OnProcessExit(player, [Shutdown])]
  }

  /** `_create_run_launch_description`: the command list is extended in place when overrides are given. */
  method CreateRunLaunchDescription(filtered: McapFixture, run: McapFixture, user: UserLaunch, qos: Option<string>)
    returns (ld: seq<Action>)
    ensures ld == RunLaunchDescription(filtered, run, user, qos)
  {
    var cmd := ["ros2", "bag", "play", filtered.path, "--clock", "10000"];
    if qos.Some? {
      cmd := cmd + ["--qos-profile-overrides-path", qos.value];
    }
    assert cmd == PlayerCommand(filtered.path, qos);
    var player := ExecuteProcess(cmd, "ros2_bag_player", [("PYTHONUNBUFFERED", "1")], "screen");
    var recorder := IncludeLaunch("mcap_recorder", "launch/recorder.launch.py",
      [("recording_directory", ParentDir(run.path)), ("mcap_filename", Paths.Stem(Paths.Parse(run.path)))]);
    ld := [recorder, Description(user), player, OnProcessExit(player, [Shutdown])];
  }

  // ---------------------------------------------------------------------------------------------
  // The fixtures phase

  /** Whether a topic attribute is a list of strings. */
  predicate TopicsValid(v: Option<Value>) {
    v.Some? && IsStringList(v.value)
  }

  /** The topic names of a valid topic attribute. */
  function TopicList(v: Option<Value>): seq<string>
    requires TopicsValid(v)
  {
    StringItems(v.value.items)
  }

  /** The recording stored at `path`, if it is a file `decode` can read. */
  function ReadRecording(fs: Node, path: string, decode: Bytes -> Option<Recording>): Option<Recording> {
    match At(fs, path)
    case Some(File(data)) => decode(data)
    case _ => None
  }

  /** The declared input topics among `names`, in the order of `names`. */
  function Present(names: seq<string>, inputs: seq<string>): (r: seq<string>)
    ensures |r| <= |names|
    ensures forall n :: n in r <==> n in names && n in inputs
  {
    if names == [] then []
    else
      var last := names[|names| - 1];
      Present(names[..|names| - 1], inputs) + (if last in inputs then [last] else [])
  }

  /** The topic check as written: the set of present input topics differs from the set of declared ones. */
  predicate TopicsMismatch(names: seq<string>, inputs: seq<string>) {
    (set n | n in Present(names, inputs)) != (set n | n in inputs)
  }

  /** The check fails exactly when a declared input topic is absent; the recording's other topics do not matter. */
  lemma MismatchIffMissing(names: seq<string>, inputs: seq<string>)
    ensures TopicsMismatch(names, inputs) <==> exists t :: t in inputs && t !in names
  {
    var found := set n | n in Present(names, inputs);
    var declared := set n | n in inputs;
    if t :| t in inputs && t !in names {
      assert t in declared && t !in found;
    } else {
      assert found == declared;
    }
  }

  /** The directory of the fixture for the recording at `path`. */
  function FixtureDir(dir: string, path: string): string {
    dir + "/" + Paths.Stem(Paths.Parse(path))
  }

  /** The file system after one loop step and the fixture it made, or its error. */
  datatype Step = Step(fs: Node, outcome: Result<FixtureView, RunnerError>)

  /** One step of the fixtures loop for the recording `item`. */
  function PrepareOne(fs: Node, dir: string, inputs: seq<string>, outputs: seq<string>, item: McapFixture,
                      decode: Bytes -> Option<Recording>, encode: Recording -> Bytes): Step
  {
    if !Exists(fs, item.path) then Step(fs, Failure(FixtureMissing(item.path)))
    else if Paths.Extension(item.path) != ".mcap" then Step(fs, Failure(NotMcap(item.path)))
    else match ReadRecording(fs, item.path, decode)
      case None => Step(fs, Failure(Unreadable(item.path)))
      case Some(rec) =>
        if TopicsMismatch(TopicNames(rec.topics), inputs) then Step(fs, Failure(InputTopicsMismatch))
        else
          var base := FixtureDir(dir, item.path);
          match MakeDirs(fs, base)
          case Failure(e) => Step(fs, Failure(FileError(e)))
          case Success(fs1) =>
            match WriteFile(fs1, base + FilteredName, encode(Filtered(rec, Exclusion(outputs))))
            case Failure(e) => Step(fs1, Failure(FileError(e)))
            case Success(fs2) => Step(fs2, Success(FixtureView(base, item, McapFixture(base + FilteredName), [])))
  }

  /** What the fixtures loop leaves: the file system, the fixtures it made, and the error that stopped it. */
  datatype Prepared = Prepared(fs: Node, made: seq<FixtureView>, error: Option<RunnerError>)

  /** The fixtures loop over `items`, stopping at the first error. */
  function PrepareAll(fs: Node, dir: string, inputs: seq<string>, outputs: seq<string>, items: seq<McapFixture>,
                      decode: Bytes -> Option<Recording>, encode: Recording -> Bytes): Prepared
    decreases |items|
  {
    if items == [] then Prepared(fs, [], None)
    else
      var step := PrepareOne(fs, dir, inputs, outputs, items[0], decode, encode);
      match step.outcome
      case Failure(e) => Prepared(step.fs, [], Some(e))
      case Success(v) =>
        var rest := PrepareAll(step.fs, dir, inputs, outputs, items[1..], decode, encode);
        Prepared(rest.fs, [v] + rest.made, rest.error)
  }

  /** The fixtures phase once its class is found: the results directory is made first, then the loop runs. */
  function FixturesPhase(fs: Node, dir: string, fixtureList: Option<Option<seq<McapFixture>>>,
                         inputTopics: Option<Value>, outputTopics: Option<Value>,
                         decode: Bytes -> Option<Recording>, encode: Recording -> Bytes): Prepared
  {
    match MakeDirs(fs, dir)
    case Failure(e) => Prepared(fs, [], Some(FileError(e)))
    case Success(fs1) =>
      if fixtureList.None? then Prepared(fs1, [], Some(NoFixtureList))
      else if fixtureList.value.None? then Prepared(fs1, [], Some(FixtureListNone))
      else if fixtureList.value.value == [] then Prepared(fs1, [], None)
      else if !(TopicsValid(inputTopics) && TopicsValid(outputTopics)) then Prepared(fs1, [], Some(MalformedTopics))
      else PrepareAll(fs1, dir, TopicList(inputTopics), TopicList(outputTopics), fixtureList.value.value, decode, encode)
  }

  /**
   * For a class that `@fixtures` accepted, the topic check of the model never fires: a
   * non-empty fixture list goes straight to the recording loop over the declared topics.
   */
  lemma DecoratedTopicsReachLoop(fs: Node, dir: string, name: string, items: seq<McapFixture>,
                                 inputTopics: Option<Value>, outputTopics: Option<Value>,
                                 decode: Bytes -> Option<Recording>, encode: Recording -> Bytes)
    requires FixturesDecorator.Validate(name, inputTopics, outputTopics).None?
    requires MakeDirs(fs, dir).Success? && items != []
    ensures TopicsValid(inputTopics) && TopicsValid(outputTopics)
    ensures FixturesPhase(fs, dir, Some(Some(items)), inputTopics, outputTopics, decode, encode) ==
      PrepareAll(MakeDirs(fs, dir).value, dir, TopicList(inputTopics), TopicList(outputTopics), items, decode, encode)
  {
    hide PrepareAll;
  }

  /** A loop step succeeds only on an existing `.mcap` recording that holds every declared input topic. */
  lemma PrepareOneChecks(fs: Node, dir: string, inputs: seq<string>, outputs: seq<string>, item: McapFixture,
                         decode: Bytes -> Option<Recording>, encode: Recording -> Bytes)
    ensures var s := PrepareOne(fs, dir, inputs, outputs, item, decode, encode);
      s.outcome.Success? ==>
        Exists(fs, item.path) && Paths.Extension(item.path) == ".mcap" &&
        ReadRecording(fs, item.path, decode).Some? &&
        forall t :: t in inputs ==> t in TopicNames(ReadRecording(fs, item.path, decode).value.topics)
  {
    var s := PrepareOne(fs, dir, inputs, outputs, item, decode, encode);
    if s.outcome.Success? {
      MismatchIffMissing(TopicNames(ReadRecording(fs, item.path, decode).value.topics), inputs);
    }
  }

  /** For a readable `.mcap` recording the step raises the topic assertion exactly when a declared input topic is absent. */
  lemma InputTopicsRule(fs: Node, dir: string, inputs: seq<string>, outputs: seq<string>, item: McapFixture,
                        decode: Bytes -> Option<Recording>, encode: Recording -> Bytes)
    requires Exists(fs, item.path) && Paths.Extension(item.path) == ".mcap"
    requires ReadRecording(fs, item.path, decode).Some?
    ensures var names := TopicNames(ReadRecording(fs, item.path, decode).value.topics);
      PrepareOne(fs, dir, inputs, outputs, item, decode, encode).outcome == Failure(InputTopicsMismatch) <==>
      exists t :: t in inputs && t !in names
  {
    MismatchIffMissing(TopicNames(ReadRecording(fs, item.path, decode).value.topics), inputs);
  }

  /**
   * The loop makes one fixture per recording, in declaration order, each in its own directory
   * below `dir` with no runs; an error stops it after a prefix of the recordings.
   */
  lemma {:induction false} PrepareAllMakes(fs: Node, dir: string, inputs: seq<string>, outputs: seq<string>, items: seq<McapFixture>,
                                           decode: Bytes -> Option<Recording>, encode: Recording -> Bytes)
    ensures var p := PrepareAll(fs, dir, inputs, outputs, items, decode, encode);
      |p.made| <= |items| && (p.error.None? ==> |p.made| == |items|) && (p.error.Some? ==> |p.made| < |items|) &&
      forall i :: 0 <= i < |p.made| ==>
        p.made[i] == FixtureView(FixtureDir(dir, items[i].path), items[i], McapFixture(FixtureDir(dir, items[i].path) + FilteredName), [])
    decreases |items|
  {
    hide PrepareOne;
    if items != [] {
      var step := PrepareOne(fs, dir, inputs, outputs, items[0], decode, encode);
      PrepareAllStep(fs, dir, inputs, outputs, items, decode, encode);
      PrepareOneMakes(fs, dir, inputs, outputs, items[0], decode, encode);
      if step.outcome.Success? {
        PrepareAllMakes(step.fs, dir, inputs, outputs, items[1..], decode, encode);
        var rest := PrepareAll(step.fs, dir, inputs, outputs, items[1..], decode, encode);
        forall i | 1 <= i < 1 + |rest.made|
          ensures ([step.outcome.value] + rest.made)[i] ==
            FixtureView(FixtureDir(dir, items[i].path), items[i], McapFixture(FixtureDir(dir, items[i].path) + FilteredName), [])
        {
          assert items[1..][i - 1] == items[i];
        }
      }
    }
  }

  /** A successful step makes the fixture for its recording. */
  lemma PrepareOneMakes(fs: Node, dir: string, inputs: seq<string>, outputs: seq<string>, item: McapFixture,
                        decode: Bytes -> Option<Recording>, encode: Recording -> Bytes)
    ensures var s := PrepareOne(fs, dir, inputs, outputs, item, decode, encode);
      s.outcome.Success? ==>
        s.outcome.value == FixtureView(FixtureDir(dir, item.path), item, McapFixture(FixtureDir(dir, item.path) + FilteredName), [])
  {
    hide MakeDirs, WriteFile, ReadRecording, Exists, Filtered, TopicsMismatch, Paths.Extension;
  }

  /** One unfolding of the loop: the step on the first remaining recording, then the rest. */
  lemma PrepareAllStep(fs: Node, dir: string, inputs: seq<string>, outputs: seq<string>, items: seq<McapFixture>,
                       decode: Bytes -> Option<Recording>, encode: Recording -> Bytes)
    requires items != []
    ensures var step := PrepareOne(fs, dir, inputs, outputs, items[0], decode, encode);
      var p := PrepareAll(fs, dir, inputs, outputs, items, decode, encode);
      match step.outcome
      case Failure(e) => p == Prepared(step.fs, [], Some(e))
      case Success(v) =>
        var rest := PrepareAll(step.fs, dir, inputs, outputs, items[1..], decode, encode);
        p == Prepared(rest.fs, [v] + rest.made, rest.error)
  {
  }

  /** One unfolding of the loop after the fixtures `done`: the next fixture joins them, or the loop stops. */
  lemma PrepareAllAdvance(fs: Node, dir: string, inputs: seq<string>, outputs: seq<string>, items: seq<McapFixture>,
                          decode: Bytes -> Option<Recording>, encode: Recording -> Bytes, done: seq<FixtureView>)
    requires items != []
    ensures var step := PrepareOne(fs, dir, inputs, outputs, items[0], decode, encode);
      var p := PrepareAll(fs, dir, inputs, outputs, items, decode, encode);
      (step.outcome.Failure? ==> Prepared(p.fs, done + p.made, p.error) == Prepared(step.fs, done, Some(step.outcome.error))) &&
      (step.outcome.Success? ==>
        var rest := PrepareAll(step.fs, dir, inputs, outputs, items[1..], decode, encode);
        Prepared(p.fs, done + p.made, p.error) == Prepared(rest.fs, (done + [step.outcome.value]) + rest.made, rest.error))
  {
    hide PrepareOne;
    PrepareAllStep(fs, dir, inputs, outputs, items, decode, encode);
    var step := PrepareOne(fs, dir, inputs, outputs, items[0], decode, encode);
    if step.outcome.Failure? {
      assert done + [] == done;
    } else {
      var rest := PrepareAll(step.fs, dir, inputs, outputs, items[1..], decode, encode);
      assert done + ([step.outcome.value] + rest.made) == (done + [step.outcome.value]) + rest.made;
    }
  }

  /** The topic loop of the fixtures phase: the names of the recording's topics that are declared inputs. */
  method PresentTopics(topics: seq<TopicMetadata>, inputs: seq<string>) returns (present: seq<string>)
    ensures present == Present(TopicNames(topics), inputs)
  {
    present := [];
    var names := TopicNames(topics);
    for i := 0 to |topics|
      invariant present == Present(names[..i], inputs)
    {
      var name := topics[i].name;
      assert names[..i + 1][..i] == names[..i];
      if name in inputs {
        present := present + [name];
      }
    }
    assert names[..|topics|] == names;
  }

  /** The body of the fixtures loop for one recording. */
  method PrepareFixture(fs: Node, dir: string, inputs: seq<string>, outputs: seq<string>, item: McapFixture,
                        decode: Bytes -> Option<Recording>, encode: Recording -> Bytes)
    returns (fs': Node, r: Result<ReplayFixture, RunnerError>)
    ensures var s := PrepareOne(fs, dir, inputs, outputs, item, decode, encode);
      fs' == s.fs && r.Success? == s.outcome.Success? && (r.Failure? ==> r.error == s.outcome.error) &&
      (r.Success? ==> fresh(r.value) && r.value.View() == s.outcome.value)
  {
    if !Exists(fs, item.path) {
      return fs, Failure(FixtureMissing(item.path));
    }
    if Paths.Extension(item.path) != ".mcap" {
      return fs, Failure(NotMcap(item.path));
    }
    var recording := ReadRecording(fs, item.path, decode);
    if recording.None? {
      return fs, Failure(Unreadable(item.path));
    }
    var present := PresentTopics(recording.value.topics, inputs);
    if (set n | n in present) != (set n | n in inputs) {
      return fs, Failure(InputTopicsMismatch);
    }
    var base := dir + "/" + Paths.Stem(Paths.Parse(item.path));
    var made := MakeDirs(fs, base);
    if made.Failure? {
      return fs, Failure(FileError(made.error));
    }
    var fixture := new ReplayFixture(base, item);
    var output := FilterMcap(recording.value, outputs);
    var written := WriteFile(made.value, fixture.filteredFixture.path, encode(output));
    if written.Failure? {
      return made.value, Failure(FileError(written.error));
    }
    return written.value, Success(fixture);
  }

  /** The fixtures loop: fixtures made before an error are kept. */
  method PrepareFixtures(fs: Node, dir: string, inputs: seq<string>, outputs: seq<string>, items: seq<McapFixture>,
                         decode: Bytes -> Option<Recording>, encode: Recording -> Bytes)
    returns (fs': Node, added: seq<ReplayFixture>, err: Option<RunnerError>)
    ensures var p := PrepareAll(fs, dir, inputs, outputs, items, decode, encode);
      fs' == p.fs && Views(added) == p.made && err == p.error
    ensures Distinct(added) && forall j :: 0 <= j < |added| ==> fresh(added[j])
  {
    hide PrepareOne, Views;
    ghost var whole := PrepareAll(fs, dir, inputs, outputs, items, decode, encode);
    ghost var done: seq<FixtureView> := [];
    fs' := fs;
    added := [];
    err := None;
    var k := 0;
    while k < |items|
      invariant k <= |items|
      invariant forall j :: 0 <= j < |added| ==> fresh(added[j])
      invariant Distinct(added)
      invariant Views(added) == done
      invariant var rest := PrepareAll(fs', dir, inputs, outputs, items[k..], decode, encode);
        whole == Prepared(rest.fs, done + rest.made, rest.error)
    {
      hide PrepareAll;
      ghost var fsCur := fs';
      var outcome;
      fs', outcome := PrepareFixture(fs', dir, inputs, outputs, items[k], decode, encode);
      PrepareAllAdvance(fsCur, dir, inputs, outputs, items[k..], decode, encode, done);
      assert items[k..][0] == items[k];
      if outcome.Failure? {
        err := Some(outcome.error);
        return;
      }
      assert items[k..][1..] == items[k + 1..];
      ViewsSnoc(added, outcome.value);
      added := added + [outcome.value];
      done := done + [outcome.value.View()];
      k := k + 1;
    }
    assert done + [] == done;
  }

  /** The fixtures phase once its class is found, on the class's attributes. */
  method FixturesOfClass(fs: Node, dir: string, fixtureList: Option<Option<seq<McapFixture>>>,
                         inputTopics: Option<Value>, outputTopics: Option<Value>,
                         decode: Bytes -> Option<Recording>, encode: Recording -> Bytes)
    returns (fs': Node, added: seq<ReplayFixture>, err: Option<RunnerError>)
    ensures var p := FixturesPhase(fs, dir, fixtureList, inputTopics, outputTopics, decode, encode);
      fs' == p.fs && Views(added) == p.made && err == p.error
    ensures Distinct(added) && forall j :: 0 <= j < |added| ==> fresh(added[j])
  {
    hide PrepareAll;
    added := [];
    var made := MakeDirs(fs, dir);
    if made.Failure? {
      return fs, [], Some(FileError(made.error));
    }
    fs' := made.value;
    if fixtureList.None? {
      return fs', [], Some(NoFixtureList);
    }
    if fixtureList.value.None? {
      return fs', [], Some(FixtureListNone);
    }
    var items := fixtureList.value.value;
    if items == [] {
      return fs', [], None;
    }
    if !(TopicsValid(inputTopics) && TopicsValid(outputTopics)) {
      return fs', [], Some(MalformedTopics);
    }
    fs', added, err := PrepareFixtures(fs', dir, TopicList(inputTopics), TopicList(outputTopics), items, decode, encode);
  }

  lemma ViewsSnoc(rs: seq<ReplayFixture>, r: ReplayFixture)
    ensures Views(rs + [r]) == Views(rs) + [r.View()]
  {
    assert forall i :: 0 <= i < |rs| ==> (rs + [r])[i] == rs[i];
  }

  /** The fields of the fixtures, in order. */
  function Views(rs: seq<ReplayFixture>): (vs: seq<FixtureView>)
    reads rs
    ensures |vs| == |rs| && forall i :: 0 <= i < |rs| ==> vs[i] == rs[i].View()
  {
    if rs == [] then [] else [rs[0].View()] + Views(rs[1..])
  }

  /** No fixture appears twice. */
  predicate Distinct(rs: seq<ReplayFixture>) {
    forall i, j :: 0 <= i < j < |rs| ==> rs[i] != rs[j]
  }

  /** With no error, the fixtures phase made one fixture per declared recording, in order. */
  lemma FixturesPhaseMakes(fs: Node, dir: string, fixtureList: Option<Option<seq<McapFixture>>>,
                           inputTopics: Option<Value>, outputTopics: Option<Value>,
                           decode: Bytes -> Option<Recording>, encode: Recording -> Bytes)
    ensures var p := FixturesPhase(fs, dir, fixtureList, inputTopics, outputTopics, decode, encode);
      p.error.None? ==>
        fixtureList.Some? && fixtureList.value.Some? && |p.made| == |fixtureList.value.value| &&
        forall i :: 0 <= i < |p.made| ==>
          var item := fixtureList.value.value[i];
          p.made[i] == FixtureView(FixtureDir(dir, item.path), item, McapFixture(FixtureDir(dir, item.path) + FilteredName), [])
  {
    hide PrepareAll;
    var p := FixturesPhase(fs, dir, fixtureList, inputTopics, outputTopics, decode, encode);
    if MakeDirs(fs, dir).Success? && fixtureList.Some? && fixtureList.value.Some? && fixtureList.value.value != [] &&
       TopicsValid(inputTopics) && TopicsValid(outputTopics) {
      PrepareAllMakes(MakeDirs(fs, dir).value, dir, TopicList(inputTopics), TopicList(outputTopics), fixtureList.value.value, decode, encode);
    }
  }

  // ---------------------------------------------------------------------------------------------
  // The run phase

  /** Where the recorder writes the run for the parameter set named `name`. */
  function RunPath(base: string, name: string): string {
    base + "/runs/" + name
  }

  /** The user's launch description for `p`, or the error of asking the run class for it. */
  function Describe(generate: Option<LaunchMethod>, p: RunParams): Result<UserLaunch, RunnerError> {
    match generate
    case None => Failure(NoLaunchMethod)
    case Some(m) =>
      match RunDecorator.Invoke(m, Some(p))
      case Failure(e) => Failure(LaunchMethodFailed(e))
      case Success(user) => Success(user)
  }

  /** What the parameter loop of one fixture leaves: the file system, the run records, and the error that stopped it. */
  datatype Launched = Launched(fs: Node, runs: seq<McapFixture>, error: Option<RunnerError>)

  /**
   * The parameter loop of one fixture: for each parameter set the run is recorded, the user's
   * description is asked for, and the launch it belongs to is run by `launch`.
   */
  function Launches(fs: Node, base: string, filtered: McapFixture, ps: seq<RunParams>, generate: Option<LaunchMethod>,
                    qos: Option<string>, launch: (Node, seq<Action>) -> Node): Launched
    decreases |ps|
  {
    if ps == [] then Launched(fs, [], None)
    else
      var run := McapFixture(RunPath(base, ps[0].name));
      match Describe(generate, ps[0])
      case Failure(e) => Launched(fs, [run], Some(e))
      case Success(user) =>
        var rest := Launches(launch(fs, RunLaunchDescription(filtered, run, user, qos)), base, filtered, ps[1..], generate, qos, launch);
        Launched(rest.fs, [run] + rest.runs, rest.error)
  }

  /** One fixture after the run phase reached it. */
  datatype OneRun = OneRun(fs: Node, view: FixtureView, error: Option<RunnerError>)

  /** The run phase on one fixture: the checks, the parameter loop, then cleanup of the run folders. */
  function RunOne(fs: Node, v: FixtureView, params: Option<seq<RunParams>>, generate: Option<LaunchMethod>,
                  qos: Option<string>, launch: (Node, seq<Action>) -> Node): OneRun
  {
    if params.None? then OneRun(fs, v, Some(NoParameters))
    else if params.value == [] then OneRun(fs, v, Some(EmptyParameters))
    else if v.runs != [] then OneRun(fs, v, Some(RunsExist))
    else
      var l := Launches(fs, v.basePath, v.filtered, params.value, generate, qos, launch);
      if l.error.Some? then OneRun(l.fs, v.(runs := l.runs), l.error)
      else
        var c := Cleanup(l.fs, l.runs);
        OneRun(c.fs, v.(runs := c.runs), if c.error.Some? then Some(CleanupFailed(c.error.value)) else None)
  }

  /** What the run phase leaves: the file system, every fixture's fields, and the error that stopped it. */
  datatype RunOutcome = RunOutcome(fs: Node, views: seq<FixtureView>, error: Option<RunnerError>)

  /** The run phase over the fixtures in order, stopping at the first error. */
  function RunAll(fs: Node, vs: seq<FixtureView>, params: Option<seq<RunParams>>, generate: Option<LaunchMethod>,
                  qos: Option<string>, launch: (Node, seq<Action>) -> Node): RunOutcome
    decreases |vs|
  {
    if vs == [] then RunOutcome(fs, [], None)
    else
      var one := RunOne(fs, vs[0], params, generate, qos, launch);
      if one.error.Some? then RunOutcome(one.fs, [one.view] + vs[1..], one.error)
      else
        var rest := RunAll(one.fs, vs[1..], params, generate, qos, launch);
        RunOutcome(rest.fs, [one.view] + rest.views, rest.error)
  }

  /** One unfolding of the parameter loop. */
  lemma LaunchesStep(fs: Node, base: string, filtered: McapFixture, ps: seq<RunParams>, generate: Option<LaunchMethod>,
                     qos: Option<string>, launch: (Node, seq<Action>) -> Node)
    requires ps != []
    ensures var run := McapFixture(RunPath(base, ps[0].name));
      var d := Describe(generate, ps[0]);
      var l := Launches(fs, base, filtered, ps, generate, qos, launch);
      (d.Failure? ==> l == Launched(fs, [run], Some(d.error))) &&
      (d.Success? ==>
        var rest := Launches(launch(fs, RunLaunchDescription(filtered, run, d.value, qos)), base, filtered, ps[1..], generate, qos, launch);
        l == Launched(rest.fs, [run] + rest.runs, rest.error))
  {
  }

  /** One unfolding of the parameter loop after the runs `done`: the next run joins them. */
  lemma LaunchesAdvance(fs: Node, base: string, filtered: McapFixture, ps: seq<RunParams>, generate: Option<LaunchMethod>,
                        qos: Option<string>, launch: (Node, seq<Action>) -> Node, done: seq<McapFixture>)
    requires ps != []
    ensures var run := McapFixture(base + "/runs/" + ps[0].name);
      var d := Describe(generate, ps[0]);
      var l := Launches(fs, base, filtered, ps, generate, qos, launch);
      (d.Failure? ==> Launched(l.fs, done + l.runs, l.error) == Launched(fs, done + [run], Some(d.error))) &&
      (d.Success? ==>
        var rest := Launches(launch(fs, RunLaunchDescription(filtered, run, d.value, qos)), base, filtered, ps[1..], generate, qos, launch);
        Launched(l.fs, done + l.runs, l.error) == Launched(rest.fs, (done + [run]) + rest.runs, rest.error))
  {
    hide Describe, RunLaunchDescription, Launches;
    LaunchesStep(fs, base, filtered, ps, generate, qos, launch);
    assert RunPath(base, ps[0].name) == base + "/runs/" + ps[0].name;
    var d := Describe(generate, ps[0]);
    if d.Success? {
      var run := McapFixture(base + "/runs/" + ps[0].name);
      var rest := Launches(launch(fs, RunLaunchDescription(filtered, run, d.value, qos)), base, filtered, ps[1..], generate, qos, launch);
      assert done + ([run] + rest.runs) == (done + [run]) + rest.runs;
    }
  }

  /** The ghost bookkeeping of one turn of the parameter loop, after the runs `done` of the first `k` sets. */
  lemma LaunchesNext(fs: Node, base: string, filtered: McapFixture, ps: seq<RunParams>, k: nat, generate: Option<LaunchMethod>,
                     qos: Option<string>, launch: (Node, seq<Action>) -> Node, done: seq<McapFixture>, whole: Launched)
    requires k < |ps|
    requires var rest := Launches(fs, base, filtered, ps[k..], generate, qos, launch);
      whole == Launched(rest.fs, done + rest.runs, rest.error)
    ensures var run := McapFixture(base + "/runs/" + ps[k].name);
      var d := Describe(generate, ps[k]);
      (d.Failure? ==> whole == Launched(fs, done + [run], Some(d.error))) &&
      (d.Success? ==>
        var rest := Launches(launch(fs, RunLaunchDescription(filtered, run, d.value, qos)), base, filtered, ps[k + 1..], generate, qos, launch);
        whole == Launched(rest.fs, (done + [run]) + rest.runs, rest.error))
  {
    hide Describe, RunLaunchDescription, Launches;
    LaunchesAdvance(fs, base, filtered, ps[k..], generate, qos, launch, done);
    assert ps[k..][0] == ps[k] && ps[k..][1..] == ps[k + 1..];
  }

  /** One unfolding of the fixture loop after the fixtures `done`: the next fixture joins them. */
  lemma RunAllAdvance(fs: Node, vs: seq<FixtureView>, params: Option<seq<RunParams>>, generate: Option<LaunchMethod>,
                      qos: Option<string>, launch: (Node, seq<Action>) -> Node, done: seq<FixtureView>)
    requires vs != []
    ensures var one := RunOne(fs, vs[0], params, generate, qos, launch);
      var o := RunAll(fs, vs, params, generate, qos, launch);
      (one.error.Some? ==> RunOutcome(o.fs, done + o.views, o.error) == RunOutcome(one.fs, (done + [one.view]) + vs[1..], one.error)) &&
      (one.error.None? ==>
        var rest := RunAll(one.fs, vs[1..], params, generate, qos, launch);
        RunOutcome(o.fs, done + o.views, o.error) == RunOutcome(rest.fs, (done + [one.view]) + rest.views, rest.error))
  {
    hide RunOne;
    RunAllStep(fs, vs, params, generate, qos, launch);
    var one := RunOne(fs, vs[0], params, generate, qos, launch);
    if one.error.Some? {
      assert done + ([one.view] + vs[1..]) == (done + [one.view]) + vs[1..];
    } else {
      var rest := RunAll(one.fs, vs[1..], params, generate, qos, launch);
      assert done + ([one.view] + rest.views) == (done + [one.view]) + rest.views;
    }
  }

  /** With no fixtures the run phase does nothing. */
  lemma RunAllEmpty(fs: Node, params: Option<seq<RunParams>>, generate: Option<LaunchMethod>,
                    qos: Option<string>, launch: (Node, seq<Action>) -> Node)
    ensures RunAll(fs, [], params, generate, qos, launch) == RunOutcome(fs, [], None)
  {
  }

  /** One unfolding of the fixture loop. */
  lemma RunAllStep(fs: Node, vs: seq<FixtureView>, params: Option<seq<RunParams>>, generate: Option<LaunchMethod>,
                   qos: Option<string>, launch: (Node, seq<Action>) -> Node)
    requires vs != []
    ensures var one := RunOne(fs, vs[0], params, generate, qos, launch);
      var o := RunAll(fs, vs, params, generate, qos, launch);
      if one.error.Some? then o == RunOutcome(one.fs, [one.view] + vs[1..], one.error)
      else var rest := RunAll(one.fs, vs[1..], params, generate, qos, launch);
        o == RunOutcome(rest.fs, [one.view] + rest.views, rest.error)
  {
  }

  /** Whether `runs` are the run records of the first `|runs|` parameter sets of `ps`, at `base/runs/<name>`. */
  predicate RunsFollow(runs: seq<McapFixture>, base: string, ps: seq<RunParams>) {
    |runs| <= |ps| && forall i :: 0 <= i < |runs| ==> runs[i] == McapFixture(RunPath(base, ps[i].name))
  }

  lemma RunsFollowCons(runs: seq<McapFixture>, base: string, ps: seq<RunParams>)
    requires ps != [] && RunsFollow(runs, base, ps[1..])
    ensures RunsFollow([McapFixture(RunPath(base, ps[0].name))] + runs, base, ps)
  {
    var all := [McapFixture(RunPath(base, ps[0].name))] + runs;
    forall i | 1 <= i < |all|
      ensures all[i] == McapFixture(RunPath(base, ps[i].name))
    {
      assert all[i] == runs[i - 1] && ps[1..][i - 1] == ps[i];
    }
  }

  /**
   * The run records of one fixture follow the parameter sets in order, one per set, at
   * `base/runs/<name>`; an error stops the loop after the record of the set that failed.
   */
  lemma {:induction false} LaunchesRecords(fs: Node, base: string, filtered: McapFixture, ps: seq<RunParams>, generate: Option<LaunchMethod>,
                                           qos: Option<string>, launch: (Node, seq<Action>) -> Node)
    ensures var l := Launches(fs, base, filtered, ps, generate, qos, launch);
      RunsFollow(l.runs, base, ps) && (l.error.None? ==> |l.runs| == |ps|) && (l.error.Some? ==> |l.runs| > 0)
    decreases |ps|
  {
    if ps != [] {
      hide RunLaunchDescription, Describe, Launches;
      LaunchesStep(fs, base, filtered, ps, generate, qos, launch);
      var run := McapFixture(RunPath(base, ps[0].name));
      var d := Describe(generate, ps[0]);
      if d.Success? {
        var fs1 := launch(fs, RunLaunchDescription(filtered, run, d.value, qos));
        LaunchesRecords(fs1, base, filtered, ps[1..], generate, qos, launch);
        var rest := Launches(fs1, base, filtered, ps[1..], generate, qos, launch);
        RunsFollowCons(rest.runs, base, ps);
      } else {
        RunsFollowCons([], base, ps);
      }
    }
  }

  /** The run phase keeps each fixture's paths; with no error every fixture has exactly one run per parameter set. */
  lemma RunOneShape(fs: Node, v: FixtureView, params: Option<seq<RunParams>>, generate: Option<LaunchMethod>,
                    qos: Option<string>, launch: (Node, seq<Action>) -> Node)
    ensures var o := RunOne(fs, v, params, generate, qos, launch);
      o.view.basePath == v.basePath && o.view.input == v.input && o.view.filtered == v.filtered &&
      (o.error.None? ==> params.Some? && |o.view.runs| == |params.value| > 0)
  {
    hide Relocate, Launches;
    if params.Some? && params.value != [] && v.runs == [] {
      LaunchesRecords(fs, v.basePath, v.filtered, params.value, generate, qos, launch);
    }
  }

  /** Over all fixtures: N fixtures and M parameter sets give N times M runs, and every fixture keeps its paths. */
  lemma {:induction false} RunAllShape(fs: Node, vs: seq<FixtureView>, params: Option<seq<RunParams>>, generate: Option<LaunchMethod>,
                                       qos: Option<string>, launch: (Node, seq<Action>) -> Node)
    ensures var o := RunAll(fs, vs, params, generate, qos, launch);
      |o.views| == |vs| &&
      (forall i :: 0 <= i < |vs| ==>
        o.views[i].basePath == vs[i].basePath && o.views[i].input == vs[i].input && o.views[i].filtered == vs[i].filtered) &&
      (o.error.None? ==> forall i :: 0 <= i < |vs| ==> params.Some? && |o.views[i].runs| == |params.value|)
    decreases |vs|
  {
    hide RunOne;
    if vs != [] {
      RunAllStep(fs, vs, params, generate, qos, launch);
      RunOneShape(fs, vs[0], params, generate, qos, launch);
      var one := RunOne(fs, vs[0], params, generate, qos, launch);
      if one.error.None? {
        RunAllShape(one.fs, vs[1..], params, generate, qos, launch);
      }
    }
  }

  /** An empty parameter list is an error only once a fixture is reached; it then leaves the fixtures as they were. */
  lemma EmptyParametersRule(fs: Node, vs: seq<FixtureView>, generate: Option<LaunchMethod>,
                            qos: Option<string>, launch: (Node, seq<Action>) -> Node)
    ensures vs == [] ==> RunAll(fs, vs, Some([]), generate, qos, launch) == RunOutcome(fs, [], None)
    ensures vs != [] ==> RunAll(fs, vs, Some([]), generate, qos, launch) == RunOutcome(fs, vs, Some(EmptyParameters))
  {
    if vs != [] {
      RunAllStep(fs, vs, Some([]), generate, qos, launch);
      assert [vs[0]] + vs[1..] == vs;
    }
  }

  /** A second run phase over the fixtures a successful one left is rejected at the first fixture. */
  lemma RunTwiceRejected(fs: Node, vs: seq<FixtureView>, params: Option<seq<RunParams>>, generate: Option<LaunchMethod>,
                         qos: Option<string>, launch: (Node, seq<Action>) -> Node, fs2: Node)
    requires vs != []
    ensures var o := RunAll(fs, vs, params, generate, qos, launch);
      o.error.None? ==> RunAll(fs2, o.views, params, generate, qos, launch).error == Some(RunsExist)
  {
    var o := RunAll(fs, vs, params, generate, qos, launch);
    RunAllShape(fs, vs, params, generate, qos, launch);
    if o.error.None? {
      RunAllStep(fs2, o.views, params, generate, qos, launch);
    }
  }

  /**
   * The parameter loop of the run phase on `rf`: each run is recorded on the fixture before the
   * user's description for it is asked for, so a failing set leaves its run recorded.
   */
  method LaunchRuns(rf: ReplayFixture, fs: Node, ps: seq<RunParams>, generate: Option<LaunchMethod>,
                    qos: Option<string>, launch: (Node, seq<Action>) -> Node) returns (fs': Node, err: Option<RunnerError>)
    requires rf.runFixtures == []
    modifies rf
    ensures Launched(fs', rf.runFixtures, err) == Launches(fs, rf.basePath, rf.filteredFixture, ps, generate, qos, launch)
    ensures rf.basePath == old(rf.basePath) && rf.inputFixture == old(rf.inputFixture) && rf.filteredFixture == old(rf.filteredFixture)
  {
    hide RunLaunchDescription, Describe;
    var base, filtered := rf.basePath, rf.filteredFixture;
    ghost var whole := Launches(fs, base, filtered, ps, generate, qos, launch);
    var runs: seq<McapFixture> := [];
    fs' := fs;
    err := None;
    var k := 0;
    while k < |ps|
      invariant k <= |ps|
      invariant rf.basePath == base && rf.inputFixture == old(rf.inputFixture) && rf.filteredFixture == filtered
      invariant rf.runFixtures == runs
      invariant var rest := Launches(fs', base, filtered, ps[k..], generate, qos, launch);
        whole == Launched(rest.fs, runs + rest.runs, rest.error)
    {
      var runFixture := McapFixture(base + "/runs/" + ps[k].name);
      LaunchesNext(fs', base, filtered, ps, k, generate, qos, launch, runs, whole);
      runs := runs + [runFixture];
      rf.runFixtures := runs;
      var described := Describe(generate, ps[k]);
      if described.Failure? {
        return fs', Some(described.error);
      }
      var ld := CreateRunLaunchDescription(filtered, runFixture, described.value, qos);
      fs' := launch(fs', ld);
      k := k + 1;
    }
    assert runs + [] == runs;
  }

  /** The body of the run phase's loop for one fixture: the checks, the parameter loop, then cleanup. */
  method RunFixture(rf: ReplayFixture, fs: Node, params: Option<seq<RunParams>>, generate: Option<LaunchMethod>,
                    qos: Option<string>, launch: (Node, seq<Action>) -> Node) returns (fs': Node, err: Option<RunnerError>)
    modifies rf
    ensures var o := RunOne(fs, old(rf.View()), params, generate, qos, launch);
      fs' == o.fs && rf.View() == o.view && err == o.error
  {
    hide Cleanup, Launches;
    if params.None? {
      return fs, Some(NoParameters);
    }
    if |params.value| == 0 {
      return fs, Some(EmptyParameters);
    }
    if |rf.runFixtures| > 0 {
      return fs, Some(RunsExist);
    }
    fs', err := LaunchRuns(rf, fs, params.value, generate, qos, launch);
    if err.Some? {
      return;
    }
    var cleanupError;
    fs', cleanupError := rf.CleanupRunFixtures(fs');
    err := if cleanupError.Some? then Some(CleanupFailed(cleanupError.value)) else None;
  }

  /** The loop of the run phase over the fixtures `rs`, stopping at the first error. */
  method RunFixtures(rs: seq<ReplayFixture>, fs: Node, params: Option<seq<RunParams>>, generate: Option<LaunchMethod>,
                     qos: Option<string>, launch: (Node, seq<Action>) -> Node) returns (fs': Node, err: Option<RunnerError>)
    requires Distinct(rs)
    modifies rs
    ensures var o := RunAll(fs, old(Views(rs)), params, generate, qos, launch);
      fs' == o.fs && Views(rs) == o.views && err == o.error
  {
    hide RunOne, RunAll, Views;
    ghost var vs := Views(rs);
    ghost var whole := RunAll(fs, vs, params, generate, qos, launch);
    ghost var cur := vs;
    fs' := fs;
    err := None;
    var i := 0;
    while i < |rs|
      invariant i <= |rs| == |cur| == |vs| && err == None
      invariant forall j :: 0 <= j < |rs| ==> rs[j].View() == cur[j]
      invariant cur[i..] == vs[i..]
      invariant var rest := RunAll(fs', vs[i..], params, generate, qos, launch);
        whole == RunOutcome(rest.fs, cur[..i] + rest.views, rest.error)
    {
      assert cur[i] == vs[i] by {
        assert cur[i..][0] == vs[i..][0];
      }
      RunAllNext(fs', vs, i, params, generate, qos, launch, cur, whole);
      ghost var one := RunOne(fs', vs[i], params, generate, qos, launch);
      fs', err := RunTurn(rs, i, fs', params, generate, qos, launch, cur);
      cur := cur[i := one.view];
      if err.Some? {
        ViewsAre(rs, cur);
        return;
      }
      i := i + 1;
    }
    assert cur[..i] == cur && vs[i..] == [];
    RunAllEmpty(fs', params, generate, qos, launch);
    assert cur + [] == cur;
    ViewsAre(rs, cur);
  }

  /** One turn of the run phase's loop: the fixture at `i` is run, the others keep their fields. */
  method RunTurn(rs: seq<ReplayFixture>, i: nat, fs: Node, params: Option<seq<RunParams>>, generate: Option<LaunchMethod>,
                 qos: Option<string>, launch: (Node, seq<Action>) -> Node, ghost cur: seq<FixtureView>)
    returns (fs': Node, err: Option<RunnerError>)
    requires Distinct(rs) && i < |rs| == |cur|
    requires forall j :: 0 <= j < |rs| ==> rs[j].View() == cur[j]
    modifies rs[i]
    ensures var one := RunOne(fs, cur[i], params, generate, qos, launch);
      fs' == one.fs && err == one.error && forall j :: 0 <= j < |rs| ==> rs[j].View() == cur[i := one.view][j]
  {
    hide RunOne;
    assert forall j :: 0 <= j < |rs| && j != i ==> rs[j] != rs[i];
    fs', err := RunFixture(rs[i], fs, params, generate, qos, launch);
  }

  /** The ghost bookkeeping of one turn of the run phase's loop, with `cur` the fields of every fixture so far. */
  lemma RunAllNext(fs: Node, vs: seq<FixtureView>, i: nat, params: Option<seq<RunParams>>, generate: Option<LaunchMethod>,
                   qos: Option<string>, launch: (Node, seq<Action>) -> Node, cur: seq<FixtureView>, whole: RunOutcome)
    requires i < |vs| == |cur| && cur[i..] == vs[i..]
    requires var rest := RunAll(fs, vs[i..], params, generate, qos, launch);
      whole == RunOutcome(rest.fs, cur[..i] + rest.views, rest.error)
    ensures var one := RunOne(fs, vs[i], params, generate, qos, launch);
      var next := cur[i := one.view];
      next[i + 1..] == vs[i + 1..] &&
      (one.error.Some? ==> whole == RunOutcome(one.fs, next, one.error)) &&
      (one.error.None? ==>
        var rest := RunAll(one.fs, vs[i + 1..], params, generate, qos, launch);
        whole == RunOutcome(rest.fs, next[..i + 1] + rest.views, rest.error))
  {
    hide RunOne;
    RunAllAdvance(fs, vs[i..], params, generate, qos, launch, cur[..i]);
    assert vs[i..][0] == vs[i] && vs[i..][1..] == vs[i + 1..];
    var one := RunOne(fs, vs[i], params, generate, qos, launch);
    var next := cur[i := one.view];
    assert next[..i + 1] == cur[..i] + [one.view];
    assert next[i + 1..] == cur[i + 1..] == vs[i + 1..] by {
      assert cur[i + 1..] == cur[i..][1..];
    }
    assert next == next[..i + 1] + next[i + 1..];
  }

  /** The fields of `rs` are `xs` when they are pointwise. */
  lemma ViewsAre(rs: seq<ReplayFixture>, xs: seq<FixtureView>)
    requires |rs| == |xs| && forall j :: 0 <= j < |rs| ==> rs[j].View() == xs[j]
    ensures Views(rs) == xs
  {
    hide ReplayFixture.View;
  }

  // ---------------------------------------------------------------------------------------------
  // The analyze phase

  /** One run's entry in the results: its test result and the paths it came from. */
  datatype RunRecord = RunRecord(result: TestResult, runPath: string, filteredPath: string)

  /** The results dictionary, in insertion order: input path to the records of its runs. */
  type Results = Dict<seq<RunRecord>>

  /** The records of one fixture's runs, from the analysis tests on each run's recording. */
  function Records(fs: Node, v: FixtureView, cls: PyClass, tests: (PyClass, Node, string) -> TestResult): seq<RunRecord> {
    seq(|v.runs|, i requires 0 <= i < |v.runs| => RunRecord(tests(cls, fs, v.runs[i].path), v.runs[i].path, v.filtered.path))
  }

  /** The inner loop of the analyze phase: the analysis tests on each run of `rf`, in order. */
  method RunTests(fs: Node, rf: ReplayFixture, cls: PyClass, tests: (PyClass, Node, string) -> TestResult)
    returns (group: seq<RunRecord>)
    ensures group == Records(fs, rf.View(), cls, tests)
  {
    group := [];
    for j := 0 to |rf.runFixtures|
      invariant group == Records(fs, rf.View(), cls, tests)[..j]
    {
      var runFixture := rf.runFixtures[j];
      var result := tests(cls, fs, runFixture.path);
      group := group + [RunRecord(result, runFixture.path, rf.filteredFixture.path)];
    }
  }

  /** The results dictionary after the fixtures `vs`: each fixture's input path is assigned its records. */
  function Collect(fs: Node, vs: seq<FixtureView>, cls: PyClass, tests: (PyClass, Node, string) -> TestResult): Results
    decreases |vs|
  {
    if vs == [] then []
    else
      var v := vs[|vs| - 1];
      Assign(Collect(fs, vs[..|vs| - 1], cls, tests), v.input.path, Records(fs, v, cls, tests))
  }

  /** `Collect` over one more fixture of `vs`. */
  lemma CollectAdvance(fs: Node, vs: seq<FixtureView>, i: nat, cls: PyClass, tests: (PyClass, Node, string) -> TestResult)
    requires i < |vs|
    ensures Collect(fs, vs[..i + 1], cls, tests) == Assign(Collect(fs, vs[..i], cls, tests), vs[i].input.path, Records(fs, vs[i], cls, tests))
  {
    hide Assign, Records;
    assert vs[..i + 1][..i] == vs[..i];
  }

  /** No fixtures, no entries. */
  lemma CollectEmpty(fs: Node, cls: PyClass, tests: (PyClass, Node, string) -> TestResult)
    ensures Collect(fs, [], cls, tests) == []
  {
  }

  /** The position of the last fixture whose input path is `key`, or -1. */
  function LastWith(vs: seq<FixtureView>, key: string): (i: int)
    ensures -1 <= i < |vs|
    ensures i >= 0 ==> vs[i].input.path == key && forall j :: i < j < |vs| ==> vs[j].input.path != key
    ensures i < 0 ==> forall j :: 0 <= j < |vs| ==> vs[j].input.path != key
  {
    if vs == [] then -1
    else if vs[|vs| - 1].input.path == key then |vs| - 1
    else LastWith(vs[..|vs| - 1], key)
  }

  /** The records of the last fixture whose input path is `key`, if any. */
  function LastRecords(fs: Node, vs: seq<FixtureView>, key: string, cls: PyClass, tests: (PyClass, Node, string) -> TestResult): Option<seq<RunRecord>> {
    var i := LastWith(vs, key);
    if i < 0 then None else Some(Records(fs, vs[i], cls, tests))
  }

  /**
   * Every input path has one entry, holding the records of the last fixture with that input
   * path: a repeated input path replaces the earlier fixture's records.
   */
  lemma {:induction false} CollectLastWins(fs: Node, vs: seq<FixtureView>, cls: PyClass, tests: (PyClass, Node, string) -> TestResult)
    ensures KeysDistinct(Collect(fs, vs, cls, tests))
    ensures forall key :: Get(Collect(fs, vs, cls, tests), key) == LastRecords(fs, vs, key, cls, tests)
    decreases |vs|
  {
    if vs != [] {
      var init := vs[..|vs| - 1];
      CollectLastWins(fs, init, cls, tests);
      forall key
        ensures Get(Collect(fs, vs, cls, tests), key) == LastRecords(fs, vs, key, cls, tests)
      {
        if key != vs[|vs| - 1].input.path {
          var i := LastWith(init, key);
          if i >= 0 {
            assert init[i] == vs[i];
          }
        }
      }
    }
  }

  /** Whether every record of a group passed. */
  predicate GroupSucceeded(g: seq<RunRecord>) {
    forall j :: 0 <= j < |g| ==> WasSuccessful(g[j].result)
  }

  /** `_was_successful`'s verdict: every stored record passed. */
  predicate AllSuccessful(d: Results) {
    forall e :: e in d ==> GroupSucceeded(e.1)
  }

  /** When every fixture's runs passed, the results pass. */
  lemma {:induction false} CollectSucceeds(fs: Node, vs: seq<FixtureView>, cls: PyClass, tests: (PyClass, Node, string) -> TestResult)
    requires forall i :: 0 <= i < |vs| ==> GroupSucceeded(Records(fs, vs[i], cls, tests))
    ensures AllSuccessful(Collect(fs, vs, cls, tests))
    decreases |vs|
  {
    if vs != [] {
      var init := vs[..|vs| - 1];
      assert forall i :: 0 <= i < |init| ==> init[i] == vs[i];
      CollectSucceeds(fs, init, cls, tests);
    }
  }

  /** With no runs at all there is nothing to fail. */
  lemma NoRunsSucceed(fs: Node, vs: seq<FixtureView>, cls: PyClass, tests: (PyClass, Node, string) -> TestResult)
    requires forall i :: 0 <= i < |vs| ==> vs[i].runs == []
    ensures AllSuccessful(Collect(fs, vs, cls, tests))
  {
    CollectSucceeds(fs, vs, cls, tests);
  }

  /** The test results of the dictionary's records, entry by entry. */
  function Flatten(d: Results): seq<TestResult>
    decreases |d|
  {
    if d == [] then []
    else
      var g := d[|d| - 1].1;
      Flatten(d[..|d| - 1]) + seq(|g|, j requires 0 <= j < |g| => g[j].result)
  }

  /** The stored results of the analyze phase, or its error: the class is looked up once a fixture is reached. */
  function AnalysisResults(fs: Node, vs: seq<FixtureView>, lookup: Result<PyClass, RunnerError>,
                           tests: (PyClass, Node, string) -> TestResult): Result<Results, RunnerError>
  {
    if vs == [] then Success([])
    else if lookup.Failure? then Failure(lookup.error)
    else Success(Collect(fs, vs, lookup.value, tests))
  }

  /** `_was_successful`: the nested loop returns at the first record that did not pass. */
  method WasSuccessfulAll(d: Results) returns (b: bool)
    ensures b <==> AllSuccessful(d)
  {
    for i := 0 to |d|
      invariant forall k :: 0 <= k < i ==> GroupSucceeded(d[k].1)
    {
      var group := d[i].1;
      for j := 0 to |group|
        invariant forall k :: 0 <= k < j ==> WasSuccessful(group[k].result)
      {
        if !WasSuccessful(group[j].result) {
          assert !GroupSucceeded(d[i].1);
          return false;
        }
      }
    }
    return true;
  }

  /** What `analyze` returns, with the results dictionary and the report it builds. */
  datatype Analysis = Analysis(exitCode: int, reportPath: string, results: Results, report: Element)

  /** The results directory of a test run. */
  function ResultsDirectory(runId: string, ci: Option<string>): string {
    if Truthy(ci) then "test_results/replay_testing/" + runId else "/tmp/replay_testing/" + runId
  }

  /** The runner of one test module. */
  class Runner {
    var resultsDir: string
    var moduleName: string
    /** The module's classes, in the order `inspect.getmembers` lists them. */
    var members: seq<PyClass>
    var replayFixtures: seq<ReplayFixture>

    /** No fixture object is held twice. */
    predicate Valid()
      reads this
    {
      Distinct(replayFixtures)
    }

    /** A runner with no fixtures, whose results go below a directory named by `runId`; `ci` is the `CI` environment variable. */
    constructor (testModuleName: string, testModuleClasses: seq<PyClass>, runId: string, ci: Option<string>)
      ensures Valid()
      ensures resultsDir == ResultsDirectory(runId, ci) && moduleName == testModuleName && members == testModuleClasses
      ensures replayFixtures == []
    {
      replayFixtures := [];
      moduleName := testModuleName;
      members := testModuleClasses;
      if Truthy(ci) {
        resultsDir := "test_results/replay_testing/" + runId;
      } else {
        resultsDir := "/tmp/replay_testing/" + runId;
      }
    }

    /** `_get_stage_class`: the first class tagged with `stage`. */
    method GetStageClass(stage: Phase) returns (r: Result<PyClass, RunnerError>)
      ensures r == StageLookup(members, stage)
    {
      var k := 0;
      while k < |members|
        invariant k <= |members|
        invariant forall j :: 0 <= j < k ==> members[j].phase != Some(stage)
      {
        if members[k].phase == Some(stage) {
          return Success(members[k]);
        }
        k := k + 1;
      }
      return Failure(NoStageClass(stage));
    }

    /**
     * `fixtures`: the fixtures class is looked up, the results directory made, and each declared
     * recording checked and turned into a fixture whose filtered copy is written; the fixtures
     * made before an error stay appended.
     */
    method Fixtures(fs: Node, decode: Bytes -> Option<Recording>, encode: Recording -> Bytes) returns (fs': Node, err: Option<RunnerError>)
      requires Valid()
      modifies this
      ensures Valid()
      ensures resultsDir == old(resultsDir) && moduleName == old(moduleName) && members == old(members)
      ensures StageLookup(members, Phase.Fixtures).Failure? ==>
        fs' == fs && err == Some(StageLookup(members, Phase.Fixtures).error) && replayFixtures == old(replayFixtures)
      ensures StageLookup(members, Phase.Fixtures).Success? ==>
        var cls := StageLookup(members, Phase.Fixtures).value;
        var p := FixturesPhase(fs, resultsDir, cls.fixtureList, cls.inputTopics, cls.outputTopics, decode, encode);
        fs' == p.fs && err == p.error && |replayFixtures| == |old(replayFixtures)| + |p.made| &&
        replayFixtures[..|old(replayFixtures)|] == old(replayFixtures) && Views(replayFixtures[|old(replayFixtures)|..]) == p.made
      ensures forall j :: |old(replayFixtures)| <= j < |replayFixtures| ==> fresh(replayFixtures[j])
    {
      hide FixturesPhase, Views, StageLookup;
      var found := GetStageClass(Phase.Fixtures);
      if found.Failure? {
        return fs, Some(found.error);
      }
      var cls := found.value;
      var added;
      fs', added, err := FixturesOfClass(fs, resultsDir, cls.fixtureList, cls.inputTopics, cls.outputTopics, decode, encode);
      replayFixtures := replayFixtures + added;
      assert replayFixtures[|old(replayFixtures)|..] == added;
    }

    /**
     * `run`: the run class is looked up, then each fixture in turn is run once per parameter set
     * and cleaned up; the phase stops at the first error, leaving the fixtures as far as it got.
     */
    method Run(fs: Node, launch: (Node, seq<Action>) -> Node) returns (fs': Node, err: Option<RunnerError>)
      requires Valid()
      modifies replayFixtures
      ensures Valid()
      ensures StageLookup(members, Phase.Run).Failure? ==>
        fs' == fs && err == Some(StageLookup(members, Phase.Run).error) && Views(replayFixtures) == old(Views(replayFixtures))
      ensures StageLookup(members, Phase.Run).Success? ==>
        var cls := StageLookup(members, Phase.Run).value;
        var o := RunAll(fs, old(Views(replayFixtures)), cls.parameters, cls.generate, cls.qosOverridesYaml, launch);
        fs' == o.fs && Views(replayFixtures) == o.views && err == o.error
    {
      hide StageLookup, RunAll, RunOne, Views;
      var found := GetStageClass(Phase.Run);
      if found.Failure? {
        return fs, Some(found.error);
      }
      var cls := found.value;
      fs', err := RunFixtures(replayFixtures, fs, cls.parameters, cls.generate, cls.qosOverridesYaml, launch);
    }

    /**
     * The loop of `analyze`: the analysis class is looked up at each fixture, its tests run on
     * every run's recording, and the fixture's records stored under its input path.
     */
    method CollectResults(fs: Node, tests: (PyClass, Node, string) -> TestResult) returns (r: Result<Results, RunnerError>)
      ensures r == AnalysisResults(fs, Views(replayFixtures), StageLookup(members, Phase.Analyze), tests)
    {
      hide Records, Views, StageLookup, Assign, Collect;
      ghost var vs := Views(replayFixtures);
      ghost var lookup := StageLookup(members, Phase.Analyze);
      if lookup.Success? {
        CollectEmpty(fs, lookup.value, tests);
      }
      var results: Results := [];
      var i := 0;
      while i < |replayFixtures|
        invariant i <= |replayFixtures|
        invariant i > 0 ==> lookup.Success?
        invariant i == 0 ==> results == []
        invariant lookup.Success? ==> results == Collect(fs, vs[..i], lookup.value, tests)
      {
        var replayFixture := replayFixtures[i];
        var found := GetStageClass(Phase.Analyze);
        if found.Failure? {
          return Failure(found.error);
        }
        var group := RunTests(fs, replayFixture, found.value, tests);
        CollectAdvance(fs, vs, i, found.value, tests);
        results := Assign(results, replayFixture.inputFixture.path, group);
        i := i + 1;
      }
      assert vs[..i] == vs;
      return Success(results);
    }

    /**
     * `analyze`: the results of the analysis tests, the JUnit report built from them, and an exit
     * code that is 0 exactly when every stored record passed.
     */
    method Analyze(fs: Node, tests: (PyClass, Node, string) -> TestResult, hostname: string, timestamp: string)
      returns (r: Result<Analysis, RunnerError>)
      ensures var a := AnalysisResults(fs, Views(replayFixtures), StageLookup(members, Phase.Analyze), tests);
        (r.Failure? <==> a.Failure?) && (r.Failure? ==> r.error == a.error) &&
        (r.Success? ==> r.value.results == a.value)
      ensures r.Success? ==> r.value.reportPath == resultsDir + "/results.xml"
      ensures r.Success? ==> r.value.report == Report(moduleName, Flatten(r.value.results), hostname, timestamp)
      ensures r.Success? ==> (r.value.exitCode == 0 <==> AllSuccessful(r.value.results))
      ensures r.Success? ==> (r.value.exitCode == 0 || r.value.exitCode == 1)
    {
      hide AnalysisResults, Views, StageLookup, Report, Flatten, AllSuccessful;
      var collected := CollectResults(fs, tests);
      if collected.Failure? {
        return Failure(collected.error);
      }
      var results := collected.value;
      var report := JUnit.ResultsToXml(moduleName, Flatten(results), hostname, timestamp);
      var ok := WasSuccessfulAll(results);
      r := Success(Analysis(if ok then 0 else 1, resultsDir + "/results.xml", results, report));
    }
  }
}
